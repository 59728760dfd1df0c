/**
 * The `messages` table of db_manager.py: an append-only transcript shared by
 * all users, in insertion (serial id) order. Each row belongs to one user.
 * The retention job and the timestamp column are not part of this model.
 */
module ChatLog {
  import opened Common

  /** One row of the `messages` table; its position in the log is its id order. */
  datatype Message = Message(user: UserId, role: string, content: string)

  /** One entry of the history handed to the text generator: `{"role", "content"}`. */
  datatype Turn = Turn(role: string, content: string)

  /** The rows of user `u`, in id order (the `WHERE user_id = u` selection). */
  function OfUser(log: seq<Message>, u: UserId): (r: seq<Message>)
    ensures |r| <= |log|
    ensures forall m | m in r :: m.user == u && m in log
  {
    if log == [] then []
    else
      var last := log[|log| - 1];
      OfUser(log[..|log| - 1], u) + (if last.user == u then [last] else [])
  }

  /** The log after `DELETE FROM messages WHERE user_id = u`. */
  function Without(log: seq<Message>, u: UserId): (r: seq<Message>)
    ensures |r| <= |log|
    ensures forall m | m in r :: m.user != u && m in log
  {
    if log == [] then []
    else
      var last := log[|log| - 1];
      Without(log[..|log| - 1], u) + (if last.user != u then [last] else [])
  }

  /** The history form of a run of rows: role and content only. */
  function Turns(ms: seq<Message>): (r: seq<Turn>)
    ensures |r| == |ms|
    ensures forall i :: 0 <= i < |ms| ==> r[i] == Turn(ms[i].role, ms[i].content)
  {
    seq(|ms|, i requires 0 <= i < |ms| => Turn(ms[i].role, ms[i].content))
  }

  function Reverse<T>(s: seq<T>): (r: seq<T>)
    ensures |r| == |s|
    ensures forall i :: 0 <= i < |s| ==> r[i] == s[|s| - 1 - i]
  {
    if s == [] then [] else [s[|s| - 1]] + Reverse(s[..|s| - 1])
  }

  /**
   * `get_chat_history(u, limit)`: the query takes u's rows newest first
   * (`ORDER BY id DESC LIMIT limit`) and then reverses them. The result is the
   * `limit` most recent messages of `u` (or all of them, if fewer), oldest first.
   */
  function Recent(log: seq<Message>, u: UserId, limit: nat): (h: seq<Turn>)
    ensures |h| == Min(limit, |OfUser(log, u)|)
    ensures h == Turns(OfUser(log, u)[|OfUser(log, u)| - |h|..])
  {
    var newestFirst := Reverse(OfUser(log, u));
    var picked := newestFirst[..Min(limit, |newestFirst|)];
    Turns(Reverse(picked))
  }

  /** Selecting one user's rows distributes over concatenation of logs. */
  lemma {:induction false} OfUserConcat(a: seq<Message>, b: seq<Message>, u: UserId)
    ensures OfUser(a + b, u) == OfUser(a, u) + OfUser(b, u)
  {
    if b == [] {
      assert a + b == a;
    } else {
      var last := b[|b| - 1];
      assert (a + b)[..|a + b| - 1] == a + b[..|b| - 1];
      OfUserConcat(a, b[..|b| - 1], u);
    }
  }

  /** `save_message(u, ...)` adds exactly one row to u's rows and none to anyone else's. */
  lemma OfUserAppend(log: seq<Message>, m: Message, u: UserId)
    ensures OfUser(log + [m], u) == OfUser(log, u) + (if m.user == u then [m] else [])
  {
    assert (log + [m])[..|log|] == log;
  }

  /** `clear_user_history(u)` leaves every other user's rows exactly as they were, in order. */
  lemma {:induction false} WithoutKeepsOthers(log: seq<Message>, u: UserId, v: UserId)
    requires v != u
    ensures OfUser(Without(log, u), v) == OfUser(log, v)
  {
    if log != [] {
      var init, last := log[..|log| - 1], log[|log| - 1];
      WithoutKeepsOthers(init, u, v);
      OfUserConcat(Without(init, u), if last.user != u then [last] else [], v);
      assert OfUser([last], v) == OfUser([], v) + (if last.user == v then [last] else []) by {
        assert [last][..0] == [];
      }
    }
  }

  /** ... removes every row of u, and nothing else (the count drops by exactly u's rows). */
  lemma {:induction false} WithoutRemovesExactly(log: seq<Message>, u: UserId)
    ensures OfUser(Without(log, u), u) == []
    ensures |Without(log, u)| == |log| - |OfUser(log, u)|
  {
    if log != [] {
      var init, last := log[..|log| - 1], log[|log| - 1];
      WithoutRemovesExactly(init, u);
      assert Without(log, u) == Without(init, u) + (if last.user != u then [last] else []);
      OfUserConcat(Without(init, u), if last.user != u then [last] else [], u);
      assert OfUser([last], u) == OfUser([], u) + (if last.user == u then [last] else []) by {
        assert [last][..0] == [];
      }
    }
  }

  /** The history form of a run of rows followed by one more row. */
  lemma TurnsAppend(ms: seq<Message>, m: Message)
    ensures Turns(ms + [m]) == Turns(ms) + [Turn(m.role, m.content)]
  {
  }

  /** The last `k + 1` of `s + [x]` are the last `k` of `s` followed by `x`. */
  lemma SuffixAppend<T>(s: seq<T>, x: T, k: nat)
    requires k <= |s|
    ensures (s + [x])[|s| - k..] == s[|s| - k..] + [x]
  {
  }

  /**
   * After `save_message(m.user, m.role, m.content)`, the sender's history (for
   * any positive limit) is their previous `limit - 1` turns followed by the new
   * message.
   */
  lemma RecentAfterSave(log: seq<Message>, m: Message, limit: nat)
    requires limit >= 1
    ensures Recent(log + [m], m.user, limit) == Recent(log, m.user, limit - 1) + [Turn(m.role, m.content)]
  {
    var mine := OfUser(log, m.user);
    OfUserAppend(log, m, m.user);
    var k := Min(limit - 1, |mine|);
    SuffixAppend(mine, m, k);
    TurnsAppend(mine[|mine| - k..], m);
  }

  /** ... and no other user's history changes. */
  lemma RecentAfterSaveOthers(log: seq<Message>, m: Message, v: UserId, limit: nat)
    requires v != m.user
    ensures Recent(log + [m], v, limit) == Recent(log, v, limit)
  {
    OfUserAppend(log, m, v);
  }

  /** After `clear_user_history(u)` the user's history is empty; others' are unchanged. */
  lemma RecentAfterClear(log: seq<Message>, u: UserId, limit: nat)
    ensures Recent(Without(log, u), u, limit) == []
    ensures forall v :: v != u ==> Recent(Without(log, u), v, limit) == Recent(log, v, limit)
  {
    WithoutRemovesExactly(log, u);
    forall v | v != u
      ensures Recent(Without(log, u), v, limit) == Recent(log, v, limit)
    {
      WithoutKeepsOthers(log, u, v);
    }
  }
}

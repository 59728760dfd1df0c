/**
 * The entitlement ledger of db_manager.py: two per-user tables, `limits`
 * (the daily counter, whose negative values stand for purchased messages)
 * and `subscriptions` (the unlimited-access window), plus the `messages`
 * transcript. The wall clock becomes explicit parameters: `now` in seconds
 * for `datetime.now()`, `today` as a day number for `date.today()`.
 *
 * Every counter operation looks at the stored count only when the row is
 * dated today; a row from another day is read as 0 (see UsedToday). This is
 * how the code behaves, and it means purchased credit (a negative count) is
 * dropped on the first touch of a new day.
 */
module Ledger {
  import opened Common
  import opened ChatLog

  /** A `datetime`, as whole seconds. */
  type Timestamp = int

  /** A `date`, as a day number. */
  type Day = int

  const SECONDS_PER_DAY: int := 86400

  /** A row of `limits`: the day the counter applies to and the signed count. */
  datatype LimitRow = LimitRow(day: Day, count: int)

  /** A row of `subscriptions`. */
  datatype SubscriptionRow = SubscriptionRow(start: Timestamp, end: Timestamp)

  /** The `messages_left` half of `get_user_status`: the unlimited marker or a number. */
  datatype MessagesLeft = Unlimited | Remaining(n: int)

  /** What `get_user_status` returns: `(days_left, messages_left)`. */
  datatype UserStatus = UserStatus(daysLeft: Option<int>, messagesLeft: MessagesLeft)

  /** The row a `SELECT ... WHERE user_id = u` finds, if any. */
  function Lookup<K, V>(table: map<K, V>, k: K): Option<V>
  {
    if k in table then Some(table[k]) else None
  }

  /** A subscription is open iff its row exists and `end_date > now`. */
  predicate Active(sub: Option<SubscriptionRow>, now: Timestamp)
  {
    sub.Some? && sub.value.end > now
  }

  /** Seconds of unlimited access still ahead (0 when there is none). */
  function RemainingTime(sub: Option<SubscriptionRow>, now: Timestamp): nat
  {
    if Active(sub, now) then sub.value.end - now else 0
  }

  /** The count the code works with: the stored count if the row is dated today, else 0. */
  function UsedToday(row: Option<LimitRow>, today: Day): int
  {
    if row.Some? && row.value.day == today then row.value.count else 0
  }

  /**
   * The row `activate_subscription` leaves: the period runs on from the old
   * end while that is still ahead, otherwise from now; `start_date` is only
   * written when the row is first inserted.
   */
  function Extend(sub: Option<SubscriptionRow>, durationDays: int, now: Timestamp): (r: SubscriptionRow)
    ensures r.start == (if sub.Some? then sub.value.start else now)
    ensures r.end - now == RemainingTime(sub, now) + durationDays * SECONDS_PER_DAY
  {
    var startFrom := if sub.Some? && sub.value.end > now then sub.value.end else now;
    var newEnd := startFrom + durationDays * SECONDS_PER_DAY;
    match sub
    case None => SubscriptionRow(now, newEnd)
    case Some(old_) => SubscriptionRow(old_.start, newEnd)
  }

  /**
   * The decision and the new row of `check_and_increment_limit`: `None` when
   * the message is refused (nothing is written), otherwise the row written.
   * Allowed exactly when the count for today is below the limit, and then
   * the count for today goes up by one.
   */
  function Consume(row: Option<LimitRow>, dailyLimit: int, today: Day): (r: Option<LimitRow>)
    ensures r.Some? <==> UsedToday(row, today) < dailyLimit
    ensures r.Some? ==> r.value.day == today && r.value.count == UsedToday(row, today) + 1
    ensures r.Some? ==> r.value.count <= dailyLimit
  {
    if row.Some? && row.value.day == today then
      if row.value.count >= dailyLimit then None
      else Some(LimitRow(today, row.value.count + 1))
    else if 1 <= dailyLimit then Some(LimitRow(today, 1))
    else None
  }

  /** The row `increase_limit(u, k)` writes: today's count lowered by `k`. */
  function Credit(row: Option<LimitRow>, countToAdd: int, today: Day): (r: LimitRow)
    ensures r.day == today
    ensures UsedToday(Some(r), today) == UsedToday(row, today) - countToAdd
  {
    var current := if row.Some? && row.value.day == today then row.value.count else 0;
    LimitRow(today, current - countToAdd)
  }

  /**
   * `days_left` of `get_user_status`: `None` unless the window is open; then
   * the whole days remaining plus one, so at least 1.
   */
  function DaysLeft(sub: Option<SubscriptionRow>, now: Timestamp): (r: Option<int>)
    ensures r.Some? <==> Active(sub, now)
    ensures r.Some? ==> r.value >= 1
    ensures r.Some? ==>
      (r.value - 1) * SECONDS_PER_DAY <= sub.value.end - now < r.value * SECONDS_PER_DAY
  {
    if sub.Some? && sub.value.end > now then
      Some((sub.value.end - now) / SECONDS_PER_DAY + 1)
    else None
  }

  /**
   * `messages_left` of `get_user_status`: the unlimited marker while days are
   * left, otherwise what is left of the daily limit, never below 0. The
   * code's separate branch for a balance above the limit gives the same
   * number whenever the limit is not negative.
   */
  function MessagesLeftFor(daysLeft: Option<int>, used: int, dailyLimit: int): (r: MessagesLeft)
    ensures r.Unlimited? <==> daysLeft.Some? && daysLeft.value > 0
    ensures r.Remaining? && dailyLimit >= 0 ==> r.n == Max(0, dailyLimit - used)
    ensures r.Remaining? ==> r.n >= 0 || dailyLimit < 0
  {
    if daysLeft.Some? && daysLeft.value > 0 then Unlimited
    else
      var count := dailyLimit - used;
      if count > dailyLimit then Remaining(count) else Remaining(Max(0, count))
  }

  /**
   * `n` consecutive messages of a user without a subscription on one day:
   * how many were let through, and the counter row afterwards. A refused
   * message leaves the row as it was.
   */
  function SendMany(row: Option<LimitRow>, dailyLimit: int, today: Day, n: nat): (Option<LimitRow>, nat)
    decreases n
  {
    if n == 0 then (row, 0)
    else
      match Consume(row, dailyLimit, today)
      case None => SendMany(row, dailyLimit, today, n - 1)
      case Some(next) =>
        var (last, accepted) := SendMany(Some(next), dailyLimit, today, n - 1);
        (last, accepted + 1)
  }

  /**
   * Of any `n` messages on one day, exactly `limit - UsedToday` get through
   * (or all `n`, if fewer), and each one that does raises today's count by one.
   * A negative count therefore lets extra messages through, one per unit.
   */
  lemma {:induction false} SendManyAccepts(row: Option<LimitRow>, dailyLimit: int, today: Day, n: nat)
    ensures SendMany(row, dailyLimit, today, n).1 == Min(n, Max(0, dailyLimit - UsedToday(row, today)))
    ensures UsedToday(SendMany(row, dailyLimit, today, n).0, today)
         == UsedToday(row, today) + SendMany(row, dailyLimit, today, n).1
    decreases n
  {
    if n > 0 {
      match Consume(row, dailyLimit, today)
      case None =>
        SendManyAccepts(row, dailyLimit, today, n - 1);
      case Some(next) =>
        SendManyAccepts(Some(next), dailyLimit, today, n - 1);
    }
  }

  /**
   * A fresh user (no row, or a row from another day) gets exactly `dailyLimit`
   * messages through on a day; every one after that is refused and the count
   * stays at the limit.
   */
  lemma DailyLimitEnforced(row: Option<LimitRow>, dailyLimit: nat, today: Day, extra: nat)
    requires row.None? || row.value.day != today
    ensures SendMany(row, dailyLimit, today, dailyLimit + extra).1 == dailyLimit
    ensures UsedToday(SendMany(row, dailyLimit, today, dailyLimit + extra).0, today) == dailyLimit
  {
    SendManyAccepts(row, dailyLimit, today, dailyLimit + extra);
  }

  /**
   * Messages bought with `increase_limit` are usable the same day: after
   * crediting `k`, the number of messages that get through grows by `k`
   * (up to the number sent).
   */
  lemma CreditAddsMessagesToday(row: Option<LimitRow>, k: nat, dailyLimit: int, today: Day, n: nat)
    requires UsedToday(row, today) <= dailyLimit
    ensures SendMany(Some(Credit(row, k, today)), dailyLimit, today, n).1
         == Min(n, dailyLimit - UsedToday(row, today) + k)
  {
    SendManyAccepts(Some(Credit(row, k, today)), dailyLimit, today, n);
  }

  /**
   * For a user without a subscription, the number `get_user_status` reports
   * is exactly how many of the next messages `check_and_increment_limit`
   * lets through today.
   */
  lemma StatusPredictsAllowance(row: Option<LimitRow>, dailyLimit: nat, today: Day, n: nat)
    ensures var left := MessagesLeftFor(None, UsedToday(row, today), dailyLimit);
      left.Remaining? && SendMany(row, dailyLimit, today, n).1 == Min(n, left.n)
  {
    SendManyAccepts(row, dailyLimit, today, n);
  }

  /**
   * As written, a row from an earlier day counts for nothing, whatever its
   * count: the first message or purchase of a new day discards purchased
   * credit exactly as if there had been no row at all, and the status
   * reports only the daily limit.
   */
  lemma CreditsLostAtRollover(d: Day, count: int, dailyLimit: nat, today: Day, k: int)
    requires d != today
    ensures Consume(Some(LimitRow(d, count)), dailyLimit, today) == Consume(None, dailyLimit, today)
    ensures Credit(Some(LimitRow(d, count)), k, today) == LimitRow(today, -k)
    ensures MessagesLeftFor(None, UsedToday(Some(LimitRow(d, count)), today), dailyLimit) == Remaining(dailyLimit)
  {
  }

  /**
   * Renewal adds the whole period on top of whatever time was left: two
   * activations at the same moment leave `2 * d` days plus the time left before.
   */
  lemma RenewalsAccumulate(sub: Option<SubscriptionRow>, d: nat, now: Timestamp)
    requires d >= 1
    ensures Active(Some(Extend(sub, d, now)), now)
    ensures RemainingTime(Some(Extend(Some(Extend(sub, d, now)), d, now)), now)
         == RemainingTime(sub, now) + 2 * d * SECONDS_PER_DAY
  {
  }

  /**
   * One step in the life of the database, in the order the steps happen: each
   * write of the ledger or the transcript, and the moment a handler asks the
   * text generator (which reads the transcript, and so is ordered with the
   * writes).
   */
  datatype Event =
    | QuotaSpent(user: UserId)
    | SubscriptionExtended(user: UserId)
    | Credited(user: UserId, count: int)
    | MessageSaved(message: Message)
    | HistoryCleared(user: UserId)
    | GeneratorAsked(user: UserId, history: seq<Turn>)

  /**
   * The database: the `limits`, `subscriptions` and `messages` tables, and a
   * ghost journal of every step taken on them.
   */
  class Store {
    var limits: map<UserId, LimitRow>
    var subscriptions: map<UserId, SubscriptionRow>
    var messages: seq<Message>
    ghost var journal: seq<Event>

    /** `init_db` on a fresh database: all three tables exist and are empty. */
    constructor ()
      ensures limits == map[] && subscriptions == map[] && messages == []
      ensures journal == []
    {
      limits := map[];
      subscriptions := map[];
      messages := [];
      journal := [];
    }

    /** `is_user_subscribed`: a row exists and its end lies after `now`. */
    method IsUserSubscribed(u: UserId, now: Timestamp) returns (subscribed: bool)
      ensures subscribed == Active(Lookup(subscriptions, u), now)
    {
      if u in subscriptions {
        var endDate := subscriptions[u].end;
        return endDate > now;
      }
      return false;
    }

    /** `activate_subscription`: extend an open window, or start one from now; upsert. */
    method ActivateSubscription(u: UserId, durationDays: int, now: Timestamp)
      modifies this
      ensures subscriptions == old(subscriptions)[u := Extend(Lookup(old(subscriptions), u), durationDays, now)]
      ensures limits == old(limits) && messages == old(messages)
      ensures journal == old(journal) + [SubscriptionExtended(u)]
    {
      journal := journal + [SubscriptionExtended(u)];
      var startFrom := now;
      if u in subscriptions && subscriptions[u].end > now {
        startFrom := subscriptions[u].end;
      }
      var newEnd := startFrom + durationDays * SECONDS_PER_DAY;
      if u in subscriptions {
        // an existing row keeps its start_date; only end_date changes
        subscriptions := subscriptions[u := subscriptions[u].(end := newEnd)];
      } else {
        subscriptions := subscriptions[u := SubscriptionRow(now, newEnd)];
      }
    }

    /**
     * `check_and_increment_limit`: refuse (writing nothing) when today's
     * count has reached the limit; otherwise bump today's count, or start
     * the day at 1.
     */
    method CheckAndIncrementLimit(u: UserId, dailyLimit: int, today: Day) returns (ok: bool)
      modifies this
      ensures ok <==> UsedToday(Lookup(old(limits), u), today) < dailyLimit
      ensures limits == if ok then old(limits)[u := Consume(Lookup(old(limits), u), dailyLimit, today).value]
                        else old(limits)
      ensures subscriptions == old(subscriptions) && messages == old(messages)
      ensures journal == old(journal) + if ok then [QuotaSpent(u)] else []
    {
      if u in limits && limits[u].day == today {
        var currentCount := limits[u].count;
        if currentCount >= dailyLimit {
          return false;
        }
        limits := limits[u := limits[u].(count := currentCount + 1)];
      } else {
        if 1 <= dailyLimit {
          limits := limits[u := LimitRow(today, 1)];
        } else {
          return false;
        }
      }
      journal := journal + [QuotaSpent(u)];
      return true;
    }

    /** `increase_limit`: store today's count minus the purchased amount (upsert). */
    method IncreaseLimit(u: UserId, countToAdd: int, today: Day)
      modifies this
      ensures limits == old(limits)[u := Credit(Lookup(old(limits), u), countToAdd, today)]
      ensures limits[u] == LimitRow(today, UsedToday(Lookup(old(limits), u), today) - countToAdd)
      ensures subscriptions == old(subscriptions) && messages == old(messages)
      ensures journal == old(journal) + [Credited(u, countToAdd)]
    {
      journal := journal + [Credited(u, countToAdd)];
      var currentCount := 0;
      if u in limits && limits[u].day == today {
        currentCount := limits[u].count;
      }
      var newCount := currentCount - countToAdd;
      limits := limits[u := LimitRow(today, newCount)];
    }

    /** `save_message`: append one row. */
    method SaveMessage(u: UserId, role: string, content: string)
      modifies this
      ensures messages == old(messages) + [Message(u, role, content)]
      ensures limits == old(limits) && subscriptions == old(subscriptions)
      ensures journal == old(journal) + [MessageSaved(Message(u, role, content))]
    {
      messages := messages + [Message(u, role, content)];
      journal := journal + [MessageSaved(Message(u, role, content))];
    }

    /**
     * Marks in the journal that the text generator is being asked about user
     * `u` with `history`; no table changes.
     */
    ghost method NoteGeneratorAsked(u: UserId, history: seq<Turn>)
      modifies this
      ensures journal == old(journal) + [GeneratorAsked(u, history)]
      ensures limits == old(limits) && subscriptions == old(subscriptions) && messages == old(messages)
    {
      journal := journal + [GeneratorAsked(u, history)];
    }

    /** `clear_user_history`: delete every row of `u` and only those. */
    method ClearUserHistory(u: UserId)
      modifies this
      ensures messages == Without(old(messages), u)
      ensures OfUser(messages, u) == []
      ensures forall v :: v != u ==> OfUser(messages, v) == OfUser(old(messages), v)
      ensures limits == old(limits) && subscriptions == old(subscriptions)
      ensures journal == old(journal) + [HistoryCleared(u)]
    {
      journal := journal + [HistoryCleared(u)];
      WithoutRemovesExactly(messages, u);
      forall v | v != u
        ensures OfUser(Without(messages, u), v) == OfUser(messages, v)
      {
        WithoutKeepsOthers(messages, u, v);
      }
      messages := Without(messages, u);
    }

    /** `get_chat_history`: u's `limit` most recent messages, oldest first. */
    function GetChatHistory(u: UserId, limit: nat): (h: seq<Turn>)
      reads this
      ensures |h| <= limit
      ensures |h| == Min(limit, |OfUser(messages, u)|)
      ensures h == Turns(OfUser(messages, u)[|OfUser(messages, u)| - |h|..])
    {
      Recent(messages, u, limit)
    }

    /** `get_user_status`: days left of the subscription and messages left today. */
    function GetUserStatus(u: UserId, now: Timestamp, today: Day, dailyLimit: int): (st: UserStatus)
      reads this
      ensures st.daysLeft.Some? <==> Active(Lookup(subscriptions, u), now)
      ensures st.daysLeft.Some? ==> st.daysLeft.value >= 1
      ensures st.daysLeft == DaysLeft(Lookup(subscriptions, u), now)
      ensures st.messagesLeft.Unlimited? <==> Active(Lookup(subscriptions, u), now)
      ensures !Active(Lookup(subscriptions, u), now) && dailyLimit >= 0 ==>
        st.messagesLeft == Remaining(Max(0, dailyLimit - UsedToday(Lookup(limits, u), today)))
    {
      var daysLeft := DaysLeft(Lookup(subscriptions, u), now);
      var used := UsedToday(Lookup(limits, u), today);
      UserStatus(daysLeft, MessagesLeftFor(daysLeft, used, dailyLimit))
    }
  }
}

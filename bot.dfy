/**
 * The rules bot_runner.py puts around the ledger: the quota gate of
 * `handle_message`, the payment dispatch of `successful_payment_callback`,
 * the routing of button presses in `handle_callback` and the status branch
 * of `start_command`. Telegram calls become returned outcomes; the text
 * generator and the payment verifier become parameters.
 */
module Bot {
  import opened Common
  import opened ChatLog
  import opened Ledger

  /** Days bought by a subscription payment. */
  const SUBSCRIPTION_DAYS: int := 30

  /** Callback data of a message-package button is this prefix followed by the package key. */
  const BUY_MESSAGES_PREFIX: string := "buy_msg_"

  /** The reply sent (and saved) when the text generator fails. */
  const AI_FAILURE_REPLY: string := "Извини, произошел технический сбой 💔 Попробуй чуть позже."

  // ---------------------------------------------------------------- messages

  /** What the user sees: the limit-exceeded prompt, or a reply. */
  datatype MessageOutcome = LimitExceeded | Answered(reply: string)

  /** How many past turns `generate_ai_response` asks `get_chat_history` for. */
  const AI_HISTORY_LIMIT: nat := 10

  /**
   * The text generator `generate_ai_response`, as a function of what it reads:
   * the user id, the clock (for the date in its prompt), the user's recent
   * history, the new text and the display name. `None` stands for an exception.
   */
  type Generator = (UserId, Timestamp, seq<Turn>, string, string) -> Option<string>

  /**
   * Steps 3 and 4 of `handle_message`: the user's message is saved, then
   * `generate_ai_response` reads the user's recent history, which by then
   * ends with that message, and is asked; a failure is replaced by a fixed
   * apology. The journal records the save and then the call.
   */
  method SaveAndAsk(store: Store, sender: UserId, text: string, displayName: string, now: Timestamp,
                    generate: Generator)
    returns (reply: string, ghost history: seq<Turn>)
    modifies store
    ensures store.limits == old(store.limits) && store.subscriptions == old(store.subscriptions)
    ensures store.messages == old(store.messages) + [Message(sender, "user", text)]
    ensures history == Recent(old(store.messages), sender, AI_HISTORY_LIMIT - 1) + [Turn("user", text)]
    ensures var answer := generate(sender, now, history, text, displayName);
      reply == if answer.Some? then answer.value else AI_FAILURE_REPLY
    ensures store.journal == old(store.journal) + [MessageSaved(Message(sender, "user", text)), GeneratorAsked(sender, history)]
  {
    RecentAfterSave(store.messages, Message(sender, "user", text), AI_HISTORY_LIMIT);
    store.SaveMessage(sender, "user", text);
    var recent := store.GetChatHistory(sender, AI_HISTORY_LIMIT);
    history := recent;
    store.NoteGeneratorAsked(sender, recent);
    var answer := generate(sender, now, recent, text, displayName);
    reply := if answer.Some? then answer.value else AI_FAILURE_REPLY;
  }

  /**
   * Steps 3-6 of `handle_message`, once the user has passed the gate: the
   * message is saved and the generator asked as `SaveAndAsk` says, and the
   * reply is saved last. The ledger is not touched.
   */
  method Answer(store: Store, sender: UserId, text: string, displayName: string, now: Timestamp,
                generate: Generator)
    returns (reply: string, ghost history: seq<Turn>)
    modifies store
    ensures store.limits == old(store.limits) && store.subscriptions == old(store.subscriptions)
    ensures history == Recent(old(store.messages), sender, AI_HISTORY_LIMIT - 1) + [Turn("user", text)]
    ensures var answer := generate(sender, now, history, text, displayName);
      reply == if answer.Some? then answer.value else AI_FAILURE_REPLY
    ensures store.messages == old(store.messages) + [Message(sender, "user", text), Message(sender, "assistant", reply)]
    ensures store.journal == old(store.journal) + AnswerSteps(sender, text, history, reply)
  {
    ghost var log0, journal0 := store.messages, store.journal;
    reply, history := SaveAndAsk(store, sender, text, displayName, now, generate);
    var answerRow := Message(sender, "assistant", reply);
    store.SaveMessage(sender, "assistant", reply);
    assert log0 + [Message(sender, "user", text)] + [answerRow] == log0 + [Message(sender, "user", text), answerRow];
    assert journal0 + [MessageSaved(Message(sender, "user", text)), GeneratorAsked(sender, history)] + [MessageSaved(answerRow)]
        == journal0 + AnswerSteps(sender, text, history, reply);
  }

  /** The journal of answering: save the message, ask the generator, save the reply. */
  function AnswerSteps(sender: UserId, text: string, history: seq<Turn>, reply: string): seq<Event>
  {
    [MessageSaved(Message(sender, "user", text)), GeneratorAsked(sender, history),
     MessageSaved(Message(sender, "assistant", reply))]
  }

  /**
   * `handle_message`. A subscribed user passes without touching the counter;
   * anyone else spends one unit of quota first. A refused user gets the prompt,
   * nothing is saved and the text generator is not asked; otherwise the user
   * is answered as `Answer` says, and a generator failure gives no quota back.
   * The journal fixes the order: the quota unit is spent before the message is
   * saved and the generator asked. The ghost `history` is what the generator
   * was given.
   */
  method HandleMessage(store: Store, sender: UserId, text: string, displayName: string,
                       now: Timestamp, today: Day, dailyLimit: int, generate: Generator)
    returns (out: MessageOutcome, ghost history: seq<Turn>)
    modifies store
    ensures store.subscriptions == old(store.subscriptions)
    ensures Active(Lookup(old(store.subscriptions), sender), now) ==>
      out.Answered? && store.limits == old(store.limits)
    ensures !Active(Lookup(old(store.subscriptions), sender), now) ==>
      var decision := Consume(Lookup(old(store.limits), sender), dailyLimit, today);
      && (out.LimitExceeded? <==> decision.None?)
      && store.limits == if decision.Some? then old(store.limits)[sender := decision.value] else old(store.limits)
    ensures out.LimitExceeded? ==> store.messages == old(store.messages) && store.journal == old(store.journal)
    ensures out.Answered? ==>
      history == Recent(old(store.messages), sender, AI_HISTORY_LIMIT - 1) + [Turn("user", text)]
    ensures out.Answered? ==>
      && var answer := generate(sender, now, history, text, displayName);
      && out.reply == (if answer.Some? then answer.value else AI_FAILURE_REPLY)
      && store.messages == old(store.messages) + [Message(sender, "user", text), Message(sender, "assistant", out.reply)]
    ensures out.Answered? ==>
      store.journal == old(store.journal)
        + (if Active(Lookup(old(store.subscriptions), sender), now) then [] else [QuotaSpent(sender)])
        + AnswerSteps(sender, text, history, out.reply)
  {
    ghost var spent: seq<Event> := [];
    var subscribed := store.IsUserSubscribed(sender, now);
    if !subscribed {
      var allowed := store.CheckAndIncrementLimit(sender, dailyLimit, today);
      if !allowed {
        return LimitExceeded, [];
      }
      spent := [QuotaSpent(sender)];
    }
    ghost var journal1 := store.journal;
    assert journal1 == old(store.journal) + spent;
    var reply;
    reply, history := Answer(store, sender, text, displayName, now, generate);
    out := Answered(reply);
    assert store.journal == old(store.journal) + spent + AnswerSteps(sender, text, history, reply);
  }

  // ---------------------------------------------------------------- payments

  /** The record `verify_and_consume_payment` hands back for a valid token. */
  datatype PaymentData = PaymentData(paymentType: string, packageCount: Option<int>)

  /** The `(valid, payment_data)` pair returned by `verify_and_consume_payment`. */
  datatype Verdict = Invalid | Valid(data: PaymentData)

  /** How `successful_payment_callback` ends. */
  datatype PaymentOutcome =
    | Rejected                  // invalid token: error reply, nothing granted
    | SubscriptionActivated     // 30 more days
    | MessagesAdded(count: int) // count purchased messages
    | Unhandled                 // a valid payment of another type: only logged
    | MissingPackageDetails     // a 'messages' payment without package details: the lookup raises

  /**
   * `successful_payment_callback`. The paying user is the sender of the
   * payment message; `verify` stands for `verify_and_consume_payment`, asked
   * about the token and that user. An invalid verdict grants nothing; a valid
   * one makes at most one ledger change, chosen by the payment type, and always
   * for the sender.
   */
  method SuccessfulPayment(store: Store, sender: UserId, token: string,
                           verify: (string, UserId) -> Verdict, now: Timestamp, today: Day)
    returns (out: PaymentOutcome)
    modifies store
    ensures store.messages == old(store.messages)
    ensures out.Rejected? <==> verify(token, sender).Invalid?
    ensures out.SubscriptionActivated? <==>
      verify(token, sender).Valid? && verify(token, sender).data.paymentType == "subscription"
    ensures out.SubscriptionActivated? ==>
      && store.subscriptions == old(store.subscriptions)[sender := Extend(Lookup(old(store.subscriptions), sender), SUBSCRIPTION_DAYS, now)]
      && store.limits == old(store.limits)
    ensures out.MessagesAdded? <==>
      && verify(token, sender).Valid?
      && verify(token, sender).data.paymentType == "messages"
      && verify(token, sender).data.packageCount.Some?
    ensures out.MessagesAdded? ==>
      && out.count == verify(token, sender).data.packageCount.value
      && store.limits == old(store.limits)[sender := Credit(Lookup(old(store.limits), sender), out.count, today)]
      && store.subscriptions == old(store.subscriptions)
    ensures out.MissingPackageDetails? <==>
      && verify(token, sender).Valid?
      && verify(token, sender).data.paymentType == "messages"
      && verify(token, sender).data.packageCount.None?
    ensures out.Unhandled? <==>
      && verify(token, sender).Valid?
      && verify(token, sender).data.paymentType != "subscription"
      && verify(token, sender).data.paymentType != "messages"
    ensures !out.SubscriptionActivated? && !out.MessagesAdded? ==>
      store.limits == old(store.limits) && store.subscriptions == old(store.subscriptions)
  {
    var verdict := verify(token, sender);
    if verdict.Invalid? {
      return Rejected;
    }
    var data := verdict.data;
    if data.paymentType == "subscription" {
      store.ActivateSubscription(sender, SUBSCRIPTION_DAYS, now);
      return SubscriptionActivated;
    } else if data.paymentType == "messages" {
      if data.packageCount.None? {
        return MissingPackageDetails;
      }
      var count := data.packageCount.value;
      store.IncreaseLimit(sender, count, today);
      return MessagesAdded(count);
    }
    return Unhandled;
  }

  // ---------------------------------------------------------------- buttons

  /** An entry of `MESSAGE_PACKAGES`. */
  datatype Package = Package(count: int, price: int)

  /** What a button press leads to. */
  datatype CallbackAction =
    | ShowStatus
    | ShowSubscriptionDetails
    | ShowMessagePackages
    | SendSubscriptionInvoice               // payment intent + invoice for the subscription
    | SendMessageInvoice(package: Package)  // payment intent + invoice for this package
    | UnknownPackage                        // error text, no intent, no invoice
    | NoAction

  predicate StartsWith(s: string, prefix: string)
  {
    |prefix| <= |s| && s[..|prefix|] == prefix
  }

  /** The callback data `show_message_packages` puts on the button of package `key`. */
  function PackageButtonData(key: string): (data: string)
    ensures StartsWith(data, BUY_MESSAGES_PREFIX) && data[|BUY_MESSAGES_PREFIX|..] == key
  {
    BUY_MESSAGES_PREFIX + key
  }

  /**
   * `handle_callback`: fixed navigation commands first, then any data with the
   * package prefix, whose remainder is looked up among the packages. Only a
   * known package leads to an invoice.
   */
  function HandleCallback(data: string, packages: map<string, Package>): (a: CallbackAction)
    ensures a.ShowStatus? <==> data == "back_to_status"
    ensures a.ShowSubscriptionDetails? <==> data == "show_sub_details"
    ensures a.ShowMessagePackages? <==> data == "show_message_packages_menu"
    ensures a.SendSubscriptionInvoice? <==> data == "final_buy_subscription"
    ensures (a.SendMessageInvoice? || a.UnknownPackage?) <==> StartsWith(data, BUY_MESSAGES_PREFIX)
    ensures StartsWith(data, BUY_MESSAGES_PREFIX) ==>
      (a.SendMessageInvoice? <==> data[|BUY_MESSAGES_PREFIX|..] in packages)
    ensures a.SendMessageInvoice? ==> a.package == packages[data[|BUY_MESSAGES_PREFIX|..]]
  {
    // None of the fixed commands carries the package prefix.
    if data == "back_to_status" then
      assert data[..|BUY_MESSAGES_PREFIX|][1] != BUY_MESSAGES_PREFIX[1];
      ShowStatus
    else if data == "show_sub_details" then
      assert data[..|BUY_MESSAGES_PREFIX|][0] != BUY_MESSAGES_PREFIX[0];
      ShowSubscriptionDetails
    else if data == "show_message_packages_menu" then
      assert data[..|BUY_MESSAGES_PREFIX|][0] != BUY_MESSAGES_PREFIX[0];
      ShowMessagePackages
    else if data == "final_buy_subscription" then
      assert data[..|BUY_MESSAGES_PREFIX|][0] != BUY_MESSAGES_PREFIX[0];
      SendSubscriptionInvoice
    else if StartsWith(data, BUY_MESSAGES_PREFIX) then
      var packageKey := data[8..];
      if packageKey in packages then SendMessageInvoice(packages[packageKey]) else UnknownPackage
    else NoAction
  }

  /** Every package button routes back to its own package; a stale key gets the error. */
  lemma PackageButtonRoutes(key: string, packages: map<string, Package>)
    ensures HandleCallback(PackageButtonData(key), packages)
         == if key in packages then SendMessageInvoice(packages[key]) else UnknownPackage
  {
    var data := PackageButtonData(key);
    assert data[..|BUY_MESSAGES_PREFIX|] == BUY_MESSAGES_PREFIX;
    assert data[|BUY_MESSAGES_PREFIX|..] == key;
  }

  // ---------------------------------------------------------------- /start

  /** The status part of the `/start` screen. */
  datatype StatusScreen =
    | SubscribedScreen(daysLeft: int)
    | FreeTierScreen(messagesLeft: MessagesLeft, dailyLimit: int)

  /**
   * `start_command`: the subscription text when `days_left` is set and
   * positive, otherwise `messages_left/DAILY_LIMIT`.
   */
  function StartCommand(store: Store, u: UserId, now: Timestamp, today: Day, dailyLimit: int): (s: StatusScreen)
    reads store
    ensures s.SubscribedScreen? <==> Active(Lookup(store.subscriptions, u), now)
    ensures s.SubscribedScreen? ==> s.daysLeft >= 1
    ensures s.SubscribedScreen? ==> DaysLeft(Lookup(store.subscriptions, u), now) == Some(s.daysLeft)
    ensures s.FreeTierScreen? ==> s.dailyLimit == dailyLimit && s.messagesLeft.Remaining?
    ensures s.FreeTierScreen? && dailyLimit >= 0 ==>
      s.messagesLeft == Remaining(Max(0, dailyLimit - UsedToday(Lookup(store.limits, u), today)))
  {
    var status := store.GetUserStatus(u, now, today, dailyLimit);
    if status.daysLeft.Some? && status.daysLeft.value > 0 then SubscribedScreen(status.daysLeft.value)
    else FreeTierScreen(status.messagesLeft, dailyLimit)
  }
}

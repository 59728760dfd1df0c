# Entitlement ledger of the AI chat bot, in Dafny

This project models the part of the Telegram chat bot that decides what a
user may do and records what they paid for.

- **The ledger** (`db_manager.py`) keeps two per-user tables:
  - `limits` holds a daily counter whose negative values stand for purchased messages.
  - `subscriptions` holds a window of unlimited access.
- **The transcript** is the `messages` table.
- **The handlers** (`bot_runner.py`) put rules around the ledger:
  - the quota gate in front of the text generator;
  - the dispatch of a verified payment to exactly one ledger change;
  - the routing of button presses;
  - the status screen of `/start`.

Files:

- `common.dfy`: `Option`, `Min`, `Max`.
- `chat_log.dfy` (module `ChatLog`): the `messages` table as a sequence of rows in id order. `Recent` is the history query. There are lemmas about what saving and deleting do to each user's rows.
- `ledger.dfy` (module `Ledger`): the row types. Pure functions give the meaning of each table operation: `Extend`, `Consume`, `Credit`, `DaysLeft`, `MessagesLeftFor`. Lemmas cover sequences of messages and purchases. The class `Store` holds the three tables as two maps and a sequence. Its methods change them as the SQL does, and their postconditions tie the new tables to those functions.
- `bot.dfy` (module `Bot`): `HandleMessage` and `SuccessfulPayment` change the `Store`. `HandleCallback` and `StartCommand` are pure decisions.

The wall clock becomes parameters:

- `now` is a timestamp in whole seconds and stands for `datetime.now()`.
- `today` is a day number and stands for `date.today()`.
- `timedelta(days=d)` is `d * 86400` seconds.
- `.days` of a positive difference is division by 86400.

`DAILY_LIMIT` and `MESSAGE_PACKAGES` come from a configuration file that is not part of this model. They are parameters.

The one notion that explains every counter operation is `UsedToday`: the stored count if the row is dated today, and 0 otherwise.

- `check_and_increment_limit` lets a message through exactly when `UsedToday < limit`. It then stores `(today, UsedToday + 1)`.
- `increase_limit(k)` stores `(today, UsedToday - k)`.
- `get_user_status` reports `max(0, limit - UsedToday)`.

So purchased credit is drawn down one unit per message within a day. It is discarded on the first message or purchase of a later day. A stale row, whatever its count, behaves exactly like a missing row (`CreditsLostAtRollover`). The design intent is that purchased messages never expire, and the invoice text at `bot_runner.py:126` says so too. This model follows the code as written.

`verify_and_consume_payment` and `create_payment_intent` are imported by `bot_runner.py` but defined in no file of this model. The verifier is a function parameter `verify(token, sender)` returning `Invalid` or `Valid(data)`. `generate_ai_response` is a function parameter. It receives the user id, the clock, the user's recent history, the text and the display name, and returns `None` where it raised.

`Store` also keeps a ghost journal, which is not a table. It records each write in the order it happens, and the moment a handler asks the text generator. The generator is a pure function here, so the journal is what fixes that `handle_message` spends the quota before it saves the message and asks.

## Model

| member | source | states |
|---|---|---|
| `Ledger.Store.constructor` | db_manager.py:29-62 | on a fresh database, the limits, subscriptions and messages tables all start empty |
| `Ledger.Store.IsUserSubscribed` | db_manager.py:80-97 | true iff the user has a subscription row whose end lies after `now` |
| `Ledger.Extend` | db_manager.py:112-124 | the new end is the old end plus the period while the old end is still ahead, else now plus the period, so the time left afterwards is the time left before plus the whole period; `start` is kept from an existing row and is `now` only for a new one |
| `Ledger.Store.ActivateSubscription` | db_manager.py:100-128 | only the caller's subscription row changes, to `Extend` of the old row; the limits and messages are untouched |
| `Ledger.RenewalsAccumulate` | db_manager.py:112-117 | one activation of at least a day opens the window; two activations at the same moment add twice the period to the time that was left |
| `Ledger.Consume` | db_manager.py:179-202 | a message is allowed iff today's count (0 for a missing or stale row) is below the limit; if allowed the row is dated today, holds that count plus one, and never exceeds the limit; a refusal writes nothing |
| `Ledger.Store.CheckAndIncrementLimit` | db_manager.py:167-207 | returns true iff today's count is below the limit; on true only the caller's row changes, as `Consume` says; on false no table changes |
| `Ledger.Credit` | db_manager.py:222-234 | the stored row is dated today and its count for today is the previous count for today minus the purchased amount |
| `Ledger.Store.IncreaseLimit` | db_manager.py:210-238 | only the caller's row changes, to `(today, count for today - k)`; the other users' rows and the other tables are untouched |
| `Ledger.SendManyAccepts` | db_manager.py:179-198 | of `n` messages on one day exactly `min(n, max(0, limit - count for today))` get through, and each raises today's count by one, so each unit of negative count lets one more message through |
| `Ledger.DailyLimitEnforced` | db_manager.py:190-198 | a user with no row or a stale row gets exactly `limit` messages through in a day, and the count ends at the limit however many more are sent |
| `Ledger.CreditAddsMessagesToday` | db_manager.py:222-227 | after buying `k` messages, `k` more messages get through that day |
| `Ledger.CreditsLostAtRollover` | db_manager.py:190-198 | a row from another day is treated like no row at all by the message check, by a purchase and by the status, whatever its count |
| `Ledger.DaysLeft` | db_manager.py:270-275 | absent iff no open window; otherwise at least 1, and the remaining seconds lie in `[(d-1)*86400, d*86400)` |
| `Ledger.MessagesLeftFor` | db_manager.py:288-297 | the unlimited marker iff days are left; otherwise `max(0, limit - count for today)` for any limit that is not negative, which the branch for balances above the limit does not change |
| `Ledger.StatusPredictsAllowance` | db_manager.py:284-297 | for a user without a subscription, the reported messages left is exactly how many of the next messages that day get through |
| `Ledger.Store.GetUserStatus` | db_manager.py:254-301 | days left is exactly `DaysLeft` of the user's subscription row: present iff the subscription is open, and then at least 1; messages left is unlimited iff subscribed, otherwise `max(0, limit - count for today)` |
| `ChatLog.Recent` | db_manager.py:136-148 | at most `limit` entries: the user's most recent `min(limit, count)` messages, oldest first |
| `Ledger.Store.GetChatHistory` | db_manager.py:131-149 | the user's most recent `min(limit, count)` messages from the table, oldest first |
| `ChatLog.OfUserAppend` | db_manager.py:157-160 | saving a message adds it to the end of its sender's rows and to no one else's |
| `Ledger.Store.SaveMessage` | db_manager.py:152-164 | the message table gains exactly the new row at the end; the ledger is untouched |
| `ChatLog.RecentAfterSave` | db_manager.py:136-160 | after a save, the sender's history for any positive limit is their previous `limit - 1` turns followed by the new message |
| `ChatLog.RecentAfterSaveOthers` | db_manager.py:136-160 | a save leaves every other user's history unchanged |
| `ChatLog.Without` | db_manager.py:246 | the log after deleting a user's rows holds no row of that user, only rows of the old log, and is no longer than it |
| `ChatLog.WithoutKeepsOthers` | db_manager.py:246 | deleting one user's rows leaves every other user's rows exactly as they were, in order |
| `ChatLog.WithoutRemovesExactly` | db_manager.py:246 | deleting one user's rows leaves none of them and removes nothing else |
| `ChatLog.RecentAfterClear` | db_manager.py:241-250 | after clearing, the user's history is empty and every other user's history is unchanged |
| `Ledger.Store.ClearUserHistory` | db_manager.py:241-250 | the user has no rows left; every other user's rows are unchanged; the ledger is untouched |
| `Bot.SaveAndAsk` | bot_runner.py:348-356 | the user's message is appended, and only then is the generator asked, with the user's previous 9 turns followed by that message; the reply is its answer or the fixed apology; the journal gains the save and then the call, and the ledger is untouched |
| `Bot.Answer` | bot_runner.py:348-367 | the ledger is untouched; the generator gets the user's previous 9 turns followed by the new message; the reply is the generator's answer, or the fixed apology when it failed; the message and then the reply are appended to the table; the journal gains exactly: message saved, generator asked, reply saved |
| `Bot.HandleMessage` | bot_runner.py:318-367 | a subscribed user is answered and the counter is not touched; otherwise the quota decision and the new limits table are those of `Consume`; a refused user gets the limit prompt, and neither the messages nor the journal change, so the generator is never asked; an answered user's journal is exactly the quota unit spent (unless subscribed), then the message saved, the generator asked with the previous 9 turns plus the new message, and the reply saved; the reply is the generator's answer or the fallback text, and the spent unit is kept either way |
| `Bot.SuccessfulPayment` | bot_runner.py:53-81 | an invalid verdict changes no entitlement; a valid subscription payment extends the sender's window by 30 days; a valid message payment with package details credits the sender with the package count; a valid message payment without them ends as missing details, and a valid payment of any other type ends as unhandled, both changing nothing; never more than one change |
| `Bot.PackageButtonData` | bot_runner.py:180-182 | the data on a package button is the `buy_msg_` prefix followed by exactly the package key |
| `Bot.HandleCallback` | bot_runner.py:276-315 | each of the four fixed commands (`back_to_status`, `show_sub_details`, `show_message_packages_menu`, `final_buy_subscription`) leads to its own action iff the data is exactly that command; data leads to an invoice or the unknown-package error iff it starts with `buy_msg_`; then the key is `data[8:]`, and there is an invoice iff the key is a known package, carrying that package |
| `Bot.PackageButtonRoutes` | bot_runner.py:300-315 | the data on the button of package `key` routes to an invoice for that very package, or to the error if the key is not a package |
| `Bot.StartCommand` | bot_runner.py:230-248 | the subscribed status is shown iff the subscription is open, with the `DaysLeft` of the subscription row, at least one day; otherwise the screen shows a number of messages left, never the unlimited marker, equal to `max(0, limit - count for today)` |

## Left out

- Telegram I/O is not modelled: invoices, keyboards, `reply_text` and `edit_message_text`, the typing action, `set_bot_commands`, the `show_*` menus, `pre_checkout_callback` (it always answers ok), `reset_command` (it only calls `clear_user_history`) and `main`. Handler effects are returned outcomes.
- The invoice `start_parameter` string (`payload_key`) is left out. It is formatting for the user interface.
- The inside of `generate_ai_response` in `ai_service.py` is not modelled: the prompt it builds and the call to the language model. It is a function parameter. It is given the user id, the clock (its prompt carries the date) and the history `get_chat_history(user_id, limit=10)` returns.
- Bot.HandleMessage: a reply that is `None` (an empty answer from the API that raises nothing) is not modelled. In the code it raises at `len(ai_response)`, outside the `try`. The user's message is then already saved and the quota spent, but no reply is saved. The model's generator returns a string or fails.
- The typing delay and `asyncio.sleep` are left out. They are floating-point waits with no effect on entitlements.
- The connection pool, SQL text, cursors, the `timestamp` column and the retention job are left out. Database failures and their exceptions are not modelled.
- Concurrency is not modelled. Each call is atomic, so the read-then-write race in `check_and_increment_limit` and `increase_limit` is not represented.
- `create_payment_intent` and `verify_and_consume_payment` are not part of this model. Token generation, expiry, single use and user binding are therefore not modelled or proved. The verifier is a parameter.
- Times are whole seconds, so microseconds of `datetime` are dropped.
- Ledger.Store.GetChatHistory: `limit` is a `nat`. A negative `LIMIT` is a database error, and every caller passes a positive constant.
- Bot.HandleMessage: the order of the Telegram reply relative to the saves is not observable, because the reply is a returned outcome. The order of the saves, the quota spend and the generator call is in the journal.
- Bot.SuccessfulPayment: the security log line and the reply texts are left out. Only the outcome kind is returned.
- Bot.StartCommand: the early return for an update that is neither a message nor a button press is left out.

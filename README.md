# Credit-metered Telegram assistant with PayPal top-ups — a Dafny model

The bot answers Telegram messages with an AI completion. Each answered message
costs one credit. A new user starts with five credits and can buy more through
PayPal. This project models the four Python files that make up that core:

- `database.py`: the SQLite tables `users`, `usage_history`,
  `conversation_context` and `user_preferences`. They are modelled as class
  `Database.Store`, whose maps and log each method reassigns.
- `bot.py`: one chat turn is registration, the credit gate, prompt
  construction, the completion, the debit and the usage log. Also modelled:
  model selection, the admin delete cascade, the button callbacks and the
  `/start` handler with its deep-link dispatch.
- `paypal_payment.py`: the credit-package catalog and the `payments` table
  (class `Payments.PaymentTable`, with the `pending -> order_created ->
  completed` life cycle). Also the `custom_id` correlation string, order
  creation, `verify_payment`, `capture_paypal_payment` and the webhook.
- `paypal_bot_integration.py`: the `/comprar` keyboard, the `buy_package_` and
  `verify_payment_` callbacks, and the `/start payment_<id>` and
  `/start cancel_<id>` deep links.

Module `Text` models the Python string operations the handlers rely on:
`startswith`, `replace(pat, "")`, `split(':')`, `str(int)`, `int(str)` and
`strip()`. Their round trips are proved, because every callback payload, deep
link and `custom_id` is a string built with one of them and read back with
another.

The outside world is passed in as parameters:

- the clock: an integer `now`, in seconds;
- the OpenAI completion: `seq<Message> -> Option<string>`, where `None` is any
  exception;
- the tiktoken encoder: `Option<string -> nat>`, where `None` means loading it
  raised;
- the PayPal access-token fetch: `token: bool`;
- order creation, order lookup and capture: functions from what is sent to
  what PayPal answers;
- `uuid4()`: the `generated` id;
- `modelos.json`: a `models` map.

The model follows the code as written, flaws included. The flaws it
exhibits are listed under "Flaws modelled as written" below.

## Model

| member | source | states |
|---|---|---|
| Text.RemoveAll | paypal_bot_integration.py:86 | `s.replace(pat, "")` deletes non-overlapping occurrences left to right; the result is never longer than the input |
| Text.RemoveAllAbsent | paypal_bot_integration.py:86 | a string without the pattern comes out of `replace` unchanged |
| Text.RemoveAllShrinks | paypal_bot_integration.py:86 | if the pattern occurs, `replace` removes at least one whole occurrence |
| Text.RemoveTag | paypal_bot_integration.py:85-86 | prefix + payload starts with the prefix, and deleting the prefix gives back the payload if and only if the payload does not contain the prefix |
| Text.Split | paypal_payment.py:413 | `split(':')` yields at least one piece, and no piece contains the separator |
| Text.SplitField | paypal_payment.py:413 | a piece without separators splits into itself |
| Text.SplitAfterField | paypal_payment.py:413 | splitting `a:t`, where `a` has no colon, gives `a` followed by the pieces of `t` |
| Text.CountChar | paypal_payment.py:413 | a character count is at most the length |
| Text.CountCharZero | paypal_payment.py:413 | the count is zero exactly when the character is absent |
| Text.CountCharConcat | paypal_payment.py:413 | counts add up over concatenation |
| Text.SplitCount | paypal_payment.py:413-414 | `split` yields one more piece than there are separators |
| Text.DigitChar | paypal_payment.py:210 | a digit below ten is written as the ASCII digit of that value |
| Text.NatToString | paypal_payment.py:210 | `str(n)` is a non-empty run of digits with no leading zero |
| Text.IntToString | paypal_payment.py:210 | `str(i)` is non-empty and holds only digits and `-` |
| Text.ParseInt | paypal_payment.py:415-417 | `int(s)` succeeds only on a non-empty string |
| Text.DigitsValueOfNat | paypal_payment.py:415-417 | reading back the digits `str(n)` wrote gives `n` |
| Text.ParseIntToString | bot.py:260 | `int(str(i)) == i` for every integer |
| Text.StripLeading | bot.py:446 | the result is a suffix of the input, everything dropped is whitespace, and it does not start with whitespace |
| Text.StripTrailing | bot.py:446 | the result is a prefix of the input, everything dropped is whitespace, and it does not end with whitespace |
| Text.Strip | bot.py:446 | `strip()` is no longer than its input and neither starts nor ends with whitespace |
| Text.StripIsInfix | bot.py:446 | `strip()` is the stretch of the input that begins right after the leading whitespace |
| Text.StripRemovesOnlySpace | bot.py:446 | everything `strip()` removes, on either side, is whitespace |
| Database.Abs | database.py:175 | the logged amount is the magnitude of the delta |
| Database.Registered | database.py:101-113 | an unknown user is added with five credits, no admin flag and the registration time; a known user's names are replaced and the balance, flag and date are kept; other users are untouched; balances stay non-negative |
| Database.Credited | database.py:161-169 | an existing balance becomes `max(0, balance + delta)`; an unknown user is not added; nothing else changes |
| Database.CreditRow | database.py:171-175 | the logged row has no tokens and `abs(delta)` credits |
| Database.AdminSet | database.py:231-240 | a known user's flag is replaced; an unknown user is inserted with five credits and no names; others are untouched |
| Database.SweepPartitions | database.py:336-345 | the reported users and the kept conversations partition the stored ones, and kept transcripts are unchanged |
| Database.SweepIdempotent | database.py:336-345 | a second sweep with the same cutoff deletes nothing |
| Database.SweepMonotone | database.py:336-345 | a later cutoff never expires fewer conversations |
| Database.FreshContextSurvives | database.py:266-278 | a conversation just saved survives any sweep with a non-negative timeout |
| Database.ClearIdempotent | database.py:311-322 | clearing twice equals clearing once and leaves other users' transcripts intact |
| Database.CreditedTwice | database.py:161-175 | two non-negative credits equal one credit of the sum: the ledger has no per-payment guard |
| Database.History | database.py:296-303 | the stored transcript of a user, or the empty list when there is none |
| Database.Expired | database.py:336-341 | a user is reported exactly when a conversation is stored for them and was last written before the cutoff |
| Database.Surviving | database.py:336-345 | a conversation is kept exactly when it was last written at or after the cutoff, and a kept one is unchanged |
| Database.Store.constructor | database.py:16-74 | a fresh database is empty and valid |
| Database.Store.RegisterUser | database.py:91-131 | the users table becomes `Registered(...)`, and the other tables are unchanged |
| Database.Store.GetUserCredits | database.py:136-146 | the stored balance, or 5 for a user with no row; never negative in a valid store |
| Database.Store.UpdateUserCredits | database.py:151-181 | the users table becomes `Credited(...)` and exactly one `CreditRow` is appended |
| Database.Store.RecordUsage | database.py:186-201 | exactly one row with the given fields is appended; nothing else changes |
| Database.Store.SetAdminStatus | database.py:221-246 | the users table becomes `AdminSet(...)` |
| Database.Store.IsAdmin | database.py:357-367 | true exactly for a known user whose flag is set |
| Database.Store.SaveConversationContext | database.py:252-285 | an upsert of this user's transcript with a fresh timestamp; reading it back gives the saved messages |
| Database.Store.GetConversationContext | database.py:290-306 | the stored transcript, or the empty list |
| Database.Store.ClearConversationContext | database.py:311-322 | only this user's transcript is removed, and reading it back gives the empty list |
| Database.Store.ClearInactiveConversations | database.py:327-352 | one cutoff `now - 60*timeout` decides both the reported users and the deleted transcripts |
| Payments.FindPackage | paypal_payment.py:32-36 | a package is found exactly for the three catalog ids, with the catalog's values |
| Payments.CatalogShape | paypal_payment.py:32-36 | the listing order names each package once, and every package grants positive credits |
| Payments.NewRecord | paypal_payment.py:86-89 | a new record is pending, for the given user, with the package's price, currency and credits, and has no PayPal ids |
| Payments.WithStatus | paypal_payment.py:107-123 | the status and `updated_at` always change; the order and capture ids change only when a truthy value is given; nothing else changes |
| Payments.CompletingChangesOnlyThatRecord | paypal_payment.py:107-123 | marking one record completed changes that record only, and keeps its user and credits |
| Payments.NoRegressionTransitive | paypal_payment.py:98-130 | "no record lost, no status moved back" composes across consecutive operations |
| Payments.PaymentTable.constructor | paypal_payment.py:39-68 | an empty, valid payments table |
| Payments.PaymentTable.CreatePaymentRecord | paypal_payment.py:70-96 | an unknown package or a taken id inserts nothing and yields `None`; otherwise one pending catalog record is inserted under the supplied id, or under the generated id when none is supplied |
| Payments.PaymentTable.UpdatePaymentStatus | paypal_payment.py:98-130 | only the named record is rewritten, as `WithStatus` says; an unknown id changes nothing |
| Payments.PaymentTable.GetPaymentInfo | paypal_payment.py:132-150 | the record exactly when it exists |
| Payments.ParseCustomId | paypal_payment.py:413-417 | a parsed payment id never contains a colon |
| Payments.CustomId | paypal_payment.py:210 | when neither id contains a colon, the `:`-separated fields of the `custom_id` are exactly user, payment id, package id and credits |
| Payments.IntToStringHasNoColon | paypal_payment.py:210 | a written integer contains no colon |
| Payments.CustomIdParses | paypal_payment.py:210 | when neither id contains a colon, parsing the `custom_id` gives back the user, payment id and credits |
| Payments.CustomIdWithColonIsDropped | paypal_payment.py:413-414 | a colon in either id makes the webhook drop the event |
| Payments.CustomIdRoundTrip | paypal_payment.py:210 | the `custom_id` round trip succeeds if and only if neither id contains a colon |
| Payments.FirstApprove | paypal_payment.py:241-245 | the index of the first approve link, or the length when there is none |
| Payments.ApproveHref | paypal_payment.py:240-245 | a checkout URL is the `href` of an approve link with no approve link before it; with no approve link there is none |
| Payments.FindApproveLink | paypal_payment.py:241-245 | the loop returns the `href` of the first approve link, or `None` if there is none |
| Payments.RequestOrder | paypal_payment.py:193-256 | with no token, or a rejected order, the record stays pending and there is no link; an accepted order moves the record to `order_created` with its order id, and the link is returned only when the approve `href` is truthy |
| Payments.OrderRequestFor | paypal_payment.py:204-223 | the order is referenced by the payment id and charges the package's price in its currency |
| Payments.OrderCarriesCustomRef | paypal_payment.py:210 | the webhook reads the buyer, the payment and the credits back from the order's `custom_id` exactly when neither id contains a colon |
| Payments.PurchaseDescription | paypal_payment.py:301 | the description logged with a purchase's credit row, `Compra de <credits> créditos`; it defines a value and has no contract |
| Payments.VerifyPays | paypal_payment.py:261-317 | the success condition of `verify_payment`: a stored record with a truthy order id, a token, and PayPal reporting COMPLETED, or APPROVED with a completed capture; it is a definition and has no contract |
| Payments.CreatePaypalPaymentLink | paypal_payment.py:179-259 | an unknown package or a taken id creates nothing; otherwise a pending record is created first and kept when there is no token or the order is rejected; an accepted order moves it to `order_created` even when no link is returned; statuses never move back |
| Payments.CapturePaypalPayment | paypal_payment.py:319-378 | a COMPLETED capture of a known payment stores the capture id, marks the record completed and grants the record's credits to the record's user, whatever the earlier status; anything else returns false and changes nothing; `true` means exactly that record was completed and credited |
| Payments.VerifyPayment | paypal_payment.py:261-317 | a missing record, a missing order id, no token, a failed lookup or any other status returns false and changes nothing; COMPLETED marks the record completed and credits it; APPROVED defers to the capture; `true` holds exactly when the record exists with a truthy order id, a token was obtained and PayPal reports COMPLETED, or APPROVED with a completed capture (`VerifyPays`); `true` means only that record changed, it is completed, and its credits went to its user with one usage row |
| Payments.HandlePaypalWebhook | paypal_payment.py:381-446 | only a capture-completed event with a well-formed `custom_id` acts; it completes the named record, if any, and grants the credits named in the `custom_id` |
| Payments.VerifyTwiceCreditsTwice | paypal_payment.py:285-305 | two verifications of an order PayPal reports COMPLETED both return true and grant the credits twice |
| Payments.WebhookAfterVerifyCreditsAgain | paypal_payment.py:393-435 | a webhook that arrives after a successful verification grants the credits a second time |
| PaymentIntegration.ParsePaymentCallback | paypal_bot_integration.py:85-122 | the `buy_package_` test comes first and the `verify_payment_` test second; the argument is what `replace` leaves |
| PaymentIntegration.BuyData | paypal_bot_integration.py:53 | a package button's data is `buy_package_` followed by exactly the package id |
| PaymentIntegration.VerifyData | paypal_bot_integration.py:98 | a verify button's data is `verify_payment_` followed by exactly the payment id (also built at paypal_bot_integration.py:144 and 211) |
| PaymentIntegration.BuyDataRoundTrip | paypal_bot_integration.py:50-54 | a package button selects its own package if and only if the id does not contain `buy_package_` |
| PaymentIntegration.VerifyDataRoundTrip | paypal_bot_integration.py:121-122 | a verify button verifies its own payment if and only if the id does not contain `verify_payment_` |
| PaymentIntegration.ComprarCommand | paypal_bot_integration.py:44-74 | the balance shown and one button per package, in catalog order, labelled `buy_package_<id>` |
| PaymentIntegration.CatalogButtonsSelectPackages | paypal_bot_integration.py:50-54 | every `/comprar` button parses back to a known package, and different buttons name different packages |
| PaymentIntegration.HandlePaymentCallback | paypal_bot_integration.py:76-167 | unknown data does nothing; a purchase of an unknown package replies "invalid" and changes nothing; a purchase offer carries the verify button of a record for this user with the package's credits, in `order_created`; a verification is confirmed exactly when `Payments.VerifyPays` holds for the stored records, the token and PayPal's answers; a confirmed one completed that record and no other, granted its credits to the record's user with one usage row, and reports the caller's balance; otherwise it shows the status read before verifying and a retry button, and nothing changes |
| PaymentIntegration.ParseStartArgs | paypal_bot_integration.py:192-223 | only the first argument counts; the `payment_` test comes first |
| PaymentIntegration.ReturnArgRoundTrip | paypal_payment.py:222 | a return link's start parameter gives back the payment id if and only if the id does not contain `payment_` |
| PaymentIntegration.CancelArgRoundTrip | paypal_payment.py:223 | a cancel link's start parameter gives back the payment id if and only if the id does not contain `cancel_` |
| PaymentIntegration.PaymentIdSurvivesEveryChannel | paypal_payment.py:208-223 | a uuid payment id survives intact through the `custom_id`, the return link, the cancel link and the verify button |
| PaymentIntegration.HandleDeepLinkStart | paypal_bot_integration.py:187-230 | `payment_<id>` verifies that payment, confirmed exactly when `Payments.VerifyPays` holds: a confirmed one completed that record and no other and granted its credits to the record's user with one usage row, and the reply shows the caller's balance; otherwise a retry button and no change; `cancel_<id>` only acknowledges; anything else is left alone; the value returned to the caller is falsy on every branch |
| PaymentIntegration.DeepLinkHandledAsWritten | paypal_bot_integration.py:228-230 | as written, the handler's result is falsy for every argument list |
| PaymentIntegration.DeepLinkHandled | paypal_bot_integration.py:228-230 | corrected: the result is truthy exactly when a payment or cancel link was answered |
| Bot.UnknownModelFallsBack | bot.py:418-420 | an unknown model key behaves like `assistant`; with no `assistant` entry the defaults apply; a user with no preference gets `assistant` |
| Bot.ResolveModel | bot.py:418 | a key with an entry gets that entry; the result is always an entry of the models file or the empty configuration |
| Bot.SystemPrompt | bot.py:419 | the model's `prompt_start`, or the default prompt; it defines a value and has no contract |
| Bot.ParseMode | bot.py:420 | the model's `parse_mode`, or `html`; it defines a value and has no contract |
| Bot.SelectedModel | bot.py:486-494 | the selected model key is `assistant` or one of the stored preference values |
| Bot.IsMarkdownMode | bot.py:540 | the parse mode lower-cases to `markdown`; it is a definition and has no contract |
| Bot.RenderingFor | bot.py:540-543 | Markdown for a mode that lower-cases to `markdown`, HTML for every other mode; it defines a value and has no contract |
| Bot.Recent | bot.py:431 | `conversation[-10:]`: the last `min(10, n)` stored messages |
| Bot.Prompt | bot.py:426-435 | the system prompt, then the most recent `min(10, n)` stored messages in order, then the user's text |
| Bot.BuildPrompt | bot.py:426-435 | the loop builds exactly `Prompt(...)` |
| Bot.CountTokens | bot.py:70-77 | the encoder's count, or `len(text) // 4` when the encoder cannot be loaded |
| Bot.AiAnswer | bot.py:446-456 | the stripped completion with the model's parse mode, or the apology in `html` when the call failed |
| Bot.GenerateAiResponse | bot.py:414-456 | the answer is computed from the stored history; a successful completion appends the user and assistant turns to the whole stored history; a failure changes nothing; the other tables are unchanged |
| Bot.TurnRows | bot.py:530-534 | a charged turn logs two rows, each worth one credit: the debit with no tokens, then the exchange with the user's text |
| Bot.ChargedTurn | bot.py:527-546 | one credit is taken and two rows are logged whether or not the completion succeeded; the remaining balance is one less than before |
| Bot.HandleMessage | bot.py:472-555 | the sender is registered first; below one credit the reply is "no credits" and only registration happened; otherwise the turn is charged as `ChargedTurn` says, from the registered state; the new balances are one step of `Turns` from the registered ones, and a message is answered exactly when that step answers one |
| Bot.Charge | bot.py:530-546 | the balance goes down by exactly one credit (clamped at zero) and the two turn rows are appended |
| Bot.Turns | bot.py:503-534 | `n` consecutive turns answer at most `n` messages and keep the set of users |
| Bot.OneTurn | bot.py:503-534 | one step of `Turns` is the gate and debit of `handle_message`: below one credit nothing changes and nothing is answered, otherwise one credit is debited and one message answered |
| Bot.TurnsSpendBalance | bot.py:503-534 | a balance `b` pays for exactly `min(n, b)` of `n` turns, and drops by that much |
| Bot.NewUserGetsFiveMessages | bot.py:478-509 | a first-time user gets exactly five answered messages |
| Bot.WithoutUserRows | bot.py:291 | deleting a user's usage rows keeps every other row, and only rows from the log |
| Bot.RowsOf | bot.py:291 | the rows of one user |
| Bot.DeletionKeepsOtherHistories | bot.py:287-293 | deletion leaves every other user's usage history exactly as it was, order included, and the deleted user with none |
| Bot.WithoutUserPreferences | bot.py:290 | exactly the other users' preferences remain, with their values |
| Bot.DeleteUserRecords | bot.py:287-293 | the conversation, preferences, usage rows and user row of that user go, in that order; payments stay |
| Bot.EliminarCommand | bot.py:342-412 | a non-admin or a non-numeric argument changes nothing; without arguments the user ids are listed; an unknown id changes nothing; otherwise the cascade runs |
| Bot.ParseButtonData | bot.py:218-310 | the `if`/`elif` chain in its order |
| Bot.SelectModelRoundTrip | bot.py:223-224 | a model button selects its own model if and only if the key does not contain `select_model_` |
| Bot.IdArgRoundTrip | bot.py:260 | a user id written after an underscore-bearing prefix comes back from `int(replace(...))` |
| Bot.DeleteButtonsRoundTrip | bot.py:255-280 | the delete and confirm buttons of a user id parse back to that id |
| Bot.HandleButtonCallback | bot.py:209-311 | only a known model key is stored; only an admin can ask for or confirm a deletion; confirming runs the cascade even for an id that does not exist; `buy_credits` shows the `/comprar` keyboard; every other button changes nothing |
| Bot.Start | bot.py:79-123 | the user is registered, this user's conversation is cleared, `isNew` exactly when there was no row, and the balance shown is the stored one |
| Bot.RunsStartAsWritten | bot.py:642-644 | as written, `start` runs after every `/start`, deep links included |
| Bot.ReturnLinkAlsoRunsStart | bot.py:642-644 | the return link for payment `abc` is answered as a payment and then handled again by `start` |
| Bot.StartCommandAsWritten | bot.py:642-644 | as written, `start` runs whenever the deep-link handler's result is falsy, which is always; even after a deep link the user is re-registered and left without a conversation |
| Bot.RunsStart | bot.py:642-644 | corrected: `start` runs exactly for a plain `/start` |
| Bot.ReturnLinksSkipStart | bot.py:642-644 | corrected: payment and cancel links for a uuid skip `start`, and a bare `/start` does not |
| Bot.StartCommand | bot.py:642-644 | corrected handler: `start` runs only for a plain `/start`; a deep link keeps the conversation; a cancel link changes nothing |

## Left out

- `paypal_routes.py`, the Flask web server that receives PayPal redirects and webhooks, is not part of this model. The webhook body is reduced to `Payments.WebhookEvent`.
- The OpenAI, tiktoken and PayPal HTTP calls are function parameters and the access token is a boolean. Timeouts, request bodies and headers are not modelled.
- Message texts, emoji and inline keyboards are reduced to the values they show (balances, ids, callback data).
- Admin notifications (`send_admin_notification`) and the `new_users.txt` file are I/O and are left out.
- The cleanup thread (`cleanup_inactive_conversations`, `time.sleep`) is left out. Only its database step, `ClearInactiveConversations`, is modelled.
- Concurrency and SQLite transactions are not modelled: each operation runs alone, from start to end.
- Prices are floats in the source. They are integer cents here, and the formatting of amounts for PayPal is not modelled.
- Timestamps: SQLite's `CURRENT_TIMESTAMP` (UTC) and Python's `datetime.now()` (local time) are one integer clock here. The sweep's mixing of the two is not modelled.
- `Text.ParseInt`: accepts an optional sign and ASCII digits only. Python's `int()` also accepts surrounding whitespace, underscores and non-ASCII digits.
- `Text.IsSpace` covers Python's whitespace characters; no other Unicode handling (case folding beyond `LowersTo`, normalisation) is modelled.
- `help_command`, `credits_command`, `models_command`, `select_model_command`, `admin_command` and `reset_command` only read data or call modelled operations (`reset` is `ClearConversationContext`), and have no rows of their own.
- `load_models` and `modelos.json` are replaced by the `models` map parameter.
- The start-up call at bot.py:54-56 that flags `ADMIN_USER_ID` as admin is a plain `Database.Store.SetAdminStatus` call and has no row of its own.
- `get_all_users` returns a list; the model uses the set of user ids (`EliminarReply.UserList`), so its order is not modelled.
- Database.Store.ClearInactiveConversations: the source returns a list of user ids (database.py:329, 341-349); the model returns their set, so the order is not modelled.
- `update_user_credits`'s `transaction_type` argument is never stored, so it is not modelled.
- The webhook's order lookup through the capture's `up` link is abstracted into `WebhookEvent.customId`. That loop has no `break`. Only an `up` link whose order lookup succeeds (it has an href, a token is obtained, the response is 200 with non-empty `purchase_units`) overwrites `custom_id`, so the last such link wins. A succeeding lookup without `custom_id` resets it to none; a failing one keeps the earlier value. None of this is modelled.
- Payments.CapturePaypalPayment: takes no token. The re-fetch when `access_token` is missing (paypal_payment.py:322-325) is not modelled, because the only call site (paypal_payment.py:308) passes the token `verify_payment` already holds, so that branch is unreachable from the modelled code.
- Exceptions from SQLite, which make each database function return its default, are not modelled. Only the exception paths the handlers rely on are modelled: a failed `int()`, and a record that disappeared during capture.
- The callback-handler patterns at bot.py:654 and paypal_bot_integration.py:176-179 decide which handler gets a button. `ParseButtonData` and `ParsePaymentCallback` model each handler's own tests, not the routing regex.
- The fallback that sends a new message when `edit_message_text` fails is not modelled.
- PaymentIntegration.HandlePaymentCallback: for a purchase it states the reply and the shape of the new record. It does not repeat the full order-creation effect, which `Payments.CreatePaypalPaymentLink` states.
- Bot.ChargedTurn: the `except` branch of `handle_message` (bot.py:548-555) is not modelled. Every call before the debit catches its own errors, so only errors after the debit can reach that branch: a Telegram send error, or a model entry whose `parse_mode` is not a string (bot.py:540 calls `.lower()` on it). That branch then tells the user no credit was taken, yet the credit is already gone.

## Flaws modelled as written

- The same payment id can be credited more than once. `verify_payment` does not look at the stored status, so verifying an order that PayPal already reports COMPLETED credits it again each time (`Payments.VerifyTwiceCreditsTwice`).
- `handle_paypal_webhook` credits the user and the amount written in `custom_id`, without consulting the stored record. A webhook after a successful verification therefore credits a second time (`Payments.WebhookAfterVerifyCreditsAgain`, `Database.CreditedTwice`).
- The comment at bot.py:532 says credits are deducted only if the message was processed successfully. But `generate_ai_response` turns a failed completion into an apology, and `handle_message` still debits one credit and logs the turn for it (`Bot.ChargedTurn`). The `except` reply at bot.py:553 says no credits were deducted, yet it can only be reached after the debit.
- A verify button does not check that the payment belongs to the user who pressed it; the reply shows the presser's balance.
- The confirm-delete button runs the cascade without checking that the user exists. `/eliminar <id>` does check.

## Notes

- `handle_message` registers the sender before the credit check (bot.py:476), as its comment intends, so even a refused message updates the user row.

## Findings

| source | as written | input that shows it | evidently intended | confidence | as-written member | corrected member |
|---|---|---|---|---|---|---|
| bot.py:642-644 and paypal_bot_integration.py:187-230 | `handle_deep_link_start` returns `None` on every branch, so `handle_deep_link_start(...) or start(...)` also runs `start` after a payment or cancel link. That re-registers the user, wipes the conversation and sends the welcome text after the payment reply | `/start payment_abc` (args `["payment_abc"]`) | the deep-link handler reports that it answered, so `start` runs only for a plain `/start` ("Let the regular start handler take over" on the last branch) | not executed | PaymentIntegration.DeepLinkHandledAsWritten, Bot.RunsStartAsWritten, Bot.ReturnLinkAlsoRunsStart, Bot.StartCommandAsWritten | PaymentIntegration.DeepLinkHandled, Bot.RunsStart, Bot.ReturnLinksSkipStart, Bot.StartCommand |

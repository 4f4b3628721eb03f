# Edir payment-report bot, modelled in Dafny

This project models the payment-report workflow of a Telegram bot run by a community savings
association (an *edir*). Members send a payment report from the bot's mini app and then a photo
or document of their receipt. An admin approves or rejects each report with inline buttons.
The repository holds two versions of the bot, and each is modelled on its own, as written:

- `bot.py` (module `EdirPro`, file `edir_pro.dfy`) is JavaScript despite its extension.
  Members have a tier (Basic, Pro, Elite) that is recomputed from their number of APPROVED
  payments. A report through the `manual` gateway waits for its receipt. A report through any
  other gateway is inserted at once with no file. The decision handler checks neither who
  clicked nor the row's current status.
- `bot.js` (module `EdirPay`, file `edir_pay.dfy`). Every report gets a random `#EUDE` transaction
  id and waits for its receipt. The receipt becomes one PENDING row. That row is posted to a
  group and sent to the single admin. Only that admin may decide, and only a PENDING row is
  decided. Approval adds the row's amount to the member's balance.

Module `Decimal` (`common.dfy`) covers how a JavaScript template literal prints an integer and
how a `\d+` group reads it back. Module `Optional` holds the Option type.

Each bot is modelled at two levels:

- A value `State` holds the members table, the payments table (a map from row id, plus the
  next AUTOINCREMENT id), the per-user session drafts, and a log of the messages sent.
  Step functions (`StartStep`, `SubmitStep`, `FileStep`, `DecideStep`, `UpdateTierStep`) state
  what each handler does to that state.
- A class `Bot` keeps the same stores as fields and updates them in place. Each handler method
  is proved to produce exactly the state its step function gives. `EdirPro.Bot.NotifyAdmins`
  keeps the loop of `bot.py` over `ADMIN_IDS`.

Inputs that come from outside the core are parameters: the user's id, name and file id, the
callback data, the timestamp, the value `Math.random()` returned, and (in `bot.js`, where control
flow depends on them) whether each Telegram send succeeded.

What the proofs show about the code as written:

- In `bot.py`, a report through a non-manual gateway is inserted, but its draft stays set. A
  later receipt then inserts a second row for the same report
  (`DigitalReportThenFileInsertsTwice`).
- In `bot.py`, rejecting a row after approving it lowers the approved count but leaves the
  tier computed at approval (`RejectAfterApproveLeavesTierStale`).
- In `bot.js`, every member's balance equals the total of their APPROVED payments, and every
  handler keeps this, with one exception. An approval for a user with no members row credits
  nobody. If that user sends `/start` later, they get a balance of 0 beside the approved
  payment (`LateRegistrationLosesCredit`). `StartPreservesBalances` therefore needs the new
  member to have no approved payment yet.
- In `bot.js`, the admin photo can fail to send after the row is inserted. The draft then stays,
  but its tx_id is taken, so every later receipt for it fails the UNIQUE insert
  (`FailedAdminSendBlocksRetry`).

## Model

| member | source | states |
|---|---|---|
| `Decimal.NatToString` | bot.py:238-239 | the decimal text of a row id is non-empty, all ASCII digits, and has no leading zero |
| `Decimal.ParseNat` | bot.py:258-259 | a `\d+` group matches exactly the non-empty all-digit texts |
| `Decimal.IntToString` | bot.js:73-74 | an integer prints as non-empty text, all digits when non-negative and starting with a minus sign when negative |
| `Decimal.DigitsValueOfNatToString` | bot.py:258-259 | reading the digits of a printed number gives the number back |
| `Decimal.ParseNatToString` | bot.py:238-239 | a printed id matches `\d+` and parses back to the same id |
| `Decimal.NatToStringInjective` | bot.js:158 | distinct ids print as distinct texts |
| `Decimal.IntToStringInjective` | bot.js:74 | distinct amounts print as distinct texts |
| `Decimal.FourDigitNumeral` | bot.js:64 | every number from 1000 to 9999 prints as four digits with no leading zero |
| `EdirPro.TierFor` | bot.py:67-78 | the tier is Elite for 12 or more approved payments, Pro for 5 to 11, and Basic for 0 to 4 |
| `EdirPro.TierForMonotone` | bot.py:69-78 | more approved payments never give a lower tier |
| `EdirPro.TierLabel` | bot.py:76-78 | only Basic is stored as `መሠረታዊ`, so the announcement guard's label comparison is a comparison with the Basic tier |
| `EdirPro.TierLabelInjective` | bot.py:268 | the three stored tier labels are distinct, so comparing two stored labels compares tiers |
| `EdirPro.ApprovedBelow` | bot.py:75 | the number of APPROVED rows of a user among the ids below `n` is at most `n`, and is zero exactly when there is no such row |
| `EdirPro.ApprovedCount` | bot.py:75 | the COUNT over the whole table is zero exactly when the user has no APPROVED row, and never exceeds the number of ids given out |
| `EdirPro.ApprovedBelowUpdate` | bot.py:75 | changing the row at one id changes the approved count only by that row's own contribution |
| `EdirPro.IndexOf` | bot.py:258 | returns the position of the first `_`, or none when there is no `_` |
| `EdirPro.CallbackDataParts` | bot.py:238-239 | the button data opens with `p_app_` for approve and `p_rej_` for reject, then carries the row id's digits, a `_` and the submitter id |
| `EdirPro.ParseCallback` | bot.py:258-259 | the handler's pattern matches exactly the data with one of the two prefixes and a `_` with a non-empty run of digits on either side, and then yields the prefix's action and the two runs read as numbers, leading zeros allowed |
| `EdirPro.CallbackDataRoundTrip` | bot.py:238-239 | `p_app_<id>_<uid>` and `p_rej_<id>_<uid>` parse back to the same action, id and uid; a negative uid does not match the pattern |
| `EdirPro.CallbackDataInjective` | bot.py:238-239 | different buttons never carry the same callback data, whatever the submitter id |
| `EdirPro.AdminPrompts` | bot.py:242-252 | one prompt per entry of ADMIN_IDS |
| `EdirPro.AdminPromptsAt` | bot.py:242-252 | the i-th prompt goes to the i-th entry of ADMIN_IDS, with the file and both buttons |
| `EdirPro.AdminPromptsDecideRow` | bot.py:235-253 | each admin's two buttons lead the decision handler back to the inserted row and its submitter |
| `EdirPro.StartStep` | bot.py:171-176 | insert-or-ignore: an existing member keeps their whole row, including the tier; a new member starts at Basic under `username` or N/A; nothing else changes |
| `EdirPro.SubmitStep` | bot.py:194-215 | a payment report overwrites the user's draft; a manual report inserts no row; any other gateway inserts exactly one AWAIT_APPROVAL row with no file at a fresh id above every existing id, prompts the admins, and leaves the draft set; other data changes nothing |
| `EdirPro.FileStep` | bot.py:218-230 | with no draft nothing changes; otherwise exactly one row is inserted with the file id and the draft's gateway, purpose, amount and timestamp, the admins are prompted, and the draft is cleared |
| `EdirPro.UpdateTierStep` | bot.py:74-82 | only the given member's tier changes, and it becomes the tier earned by their APPROVED count |
| `EdirPro.SetStatus` | bot.py:263 | `UPDATE ... WHERE id = ?` changes only the status of that row, and nothing when there is no such row |
| `EdirPro.UpdateTierIdempotent` | bot.py:74-82 | recomputing a tier with no approval in between changes nothing |
| `EdirPro.DecideStep` | bot.py:258-275 | data that does not match changes nothing; otherwise only the named row's status changes, whatever its old status; on approve, only the tier of the uid in the data is recomputed, and it is announced when above Basic and a group is set; reject leaves members unchanged; either way the only other message is the decision notice to the uid in the data |
| `EdirPro.ApproveCountsOnce` | bot.py:75-78 | approving a row of the user that is not yet approved raises their approved count by one |
| `EdirPro.RejectUncountsApproved` | bot.py:263 | rejecting an approved row lowers its user's approved count by one |
| `EdirPro.LaterDecisionWins` | bot.py:258-263 | with no prior-status check, the later of two clicks on a row decides its status |
| `EdirPro.RejectAfterApproveLeavesTierStale` | bot.py:263-267 | approving a fifth payment and then rejecting it leaves the member at Pro with four approved payments |
| `EdirPro.SecondFileIgnored` | bot.py:219-228 | once a receipt is bound, an immediate second file changes nothing |
| `EdirPro.DigitalReportThenFileInsertsTwice` | bot.py:199-228 | a non-manual report followed by a file gives two rows for the same report, one without the file and one with it |
| `EdirPro.Bot.constructor` | bot.py:40-61 | the bot starts with empty tables and sessions, and row ids start at 1 |
| `EdirPro.Bot.Start` | bot.py:171-176 | updates the tables in place exactly as `StartStep` says |
| `EdirPro.Bot.NotifyAdmins` | bot.py:235-253 | the loop over ADMIN_IDS appends exactly the prompts of `AdminPrompts` |
| `EdirPro.Bot.OnWebAppData` | bot.py:194-215 | updates the stores in place exactly as `SubmitStep` says |
| `EdirPro.Bot.OnFile` | bot.py:218-230 | updates the stores in place exactly as `FileStep` says |
| `EdirPro.Bot.UpdateMemberTier` | bot.py:74-82 | returns the tier for the user's APPROVED count and updates the members table as `UpdateTierStep` says |
| `EdirPro.Bot.OnDecision` | bot.py:258-275 | updates the stores in place exactly as `DecideStep` says, and never reads the clicking user's id |
| `EdirPay.TxNumber` | bot.js:64 | `Math.floor(1000 + r * 9000)` lies in 1000..9999 for every r in [0, 1) |
| `EdirPay.TxNumberCovers` | bot.js:64 | every number in 1000..9999 can be drawn |
| `EdirPay.GenerateTxId` | bot.js:63-64 | a generated id is `#EUDE` and four digits, the first not zero, and those digits read back as the drawn number |
| `EdirPay.IsAdmin` | bot.js:61 | defines the admin check: the clicking user is the one configured ADMIN_ID |
| `EdirPay.CallbackData` | bot.js:158 | the button data opens with `approve_` for approve and `reject_` for reject |
| `EdirPay.ParseCallback` | bot.js:174 | the handler's pattern matches exactly `approve_` or `reject_` followed by a non-empty run of digits, and then yields that action and the digits read as a number, leading zeros allowed |
| `EdirPay.CallbackDataRoundTrip` | bot.js:158 | `approve_<id>` and `reject_<id>` parse through the handler's pattern back to the same action and id |
| `EdirPay.CallbackDataInjective` | bot.js:158 | different buttons never carry the same callback data |
| `EdirPay.FormatGroupReport` | bot.js:67-77 | the report opens with the header naming the tx id, member, purpose, period and amount, and closes with the status text |
| `EdirPay.ReportText` | bot.js:146-204 | the group report's text for a row ends with the line of its status: waiting, approved or rejected |
| `EdirPay.ReportTextShowsStatus` | bot.js:146-204 | the waiting, approved and rejected reports of the same row are three different texts |
| `EdirPay.GroupReportShowsPositivePenalty` | bot.js:67-77 | all penalties of zero or less give the same report, and a positive penalty gives a report that differs from the one for any other penalty |
| `EdirPay.ApprovedSumUpdate` | bot.js:181-188 | changing the row at one id changes a member's approved total only by what that row credits |
| `EdirPay.StartStep` | bot.js:82-87 | insert-or-ignore: an existing member keeps their row and balance; a new member gets balance 0 and the join time; nothing else changes |
| `EdirPay.SubmitStep` | bot.js:100-118 | a payment report only sets the user's draft, with the report's fields, a `#EUDE` transaction id and the time, and writes no row; other data changes nothing |
| `EdirPay.TxIdTaken` | bot.js:43 | defines when an insert fails on the UNIQUE tx_id column: some row already holds that tx_id |
| `EdirPay.FileStep` | bot.js:121-171 | with no draft, or a draft whose tx_id is already in the table, nothing changes; otherwise exactly one PENDING row with the file id and the draft's fields is inserted, linked to the group message when the post succeeds; the only messages are the waiting report to the group when it was posted and then the admin's photo with both buttons when every send succeeded, and the draft is cleared exactly then |
| `EdirPay.Credit` | bot.js:188 | `UPDATE members SET balance = balance + ?` moves only that member's balance, by the amount, and changes nothing when the member has no row |
| `EdirPay.DecideStep` | bot.js:174-213 | a non-admin click, or a click on a missing or non-PENDING row, changes nothing; otherwise only that row's status changes, approve adds exactly its amount to its member's balance, and reject leaves every balance unchanged; the only messages are the notice to the submitter when it is reached, then the edit of the row's group message when there is one |
| `EdirPay.DecisionSends` | bot.js:190-206 | defines the messages after a decision: the notice to the submitter and, only when that send succeeded and the row has a group message, the edit of that message |
| `EdirPay.DecidedRowIsFinal` | bot.js:180-183 | APPROVED and REJECTED rows are final: no click on their buttons changes anything |
| `EdirPay.DecisionIdempotent` | bot.js:180-188 | a duplicate click has no further effect, so an approval is credited once |
| `EdirPay.ApproveAddsAmountToTotal` | bot.js:187-188 | approving a PENDING row raises its member's approved total by exactly its amount, and no other total moves |
| `EdirPay.DecidePreservesBalances` | bot.js:180-188 | a decision keeps every balance equal to the member's approved total |
| `EdirPay.FilePreservesBalances` | bot.js:133-152 | a receipt keeps every balance equal to the member's approved total |
| `EdirPay.SubmitPreservesBalances` | bot.js:103-108 | a report keeps every balance equal to the member's approved total |
| `EdirPay.StartPreservesBalances` | bot.js:38 | `/start` keeps balances matching when the user is already a member or has no approved payment yet |
| `EdirPay.LateRegistrationLosesCredit` | bot.js:85-87 | an approval for a user with no members row credits nobody, and a later `/start` gives them balance 0 beside an approved payment of 100 |
| `EdirPay.FailedAdminSendBlocksRetry` | bot.js:161-170 | after the admin photo fails, every further receipt for the same draft fails on the UNIQUE tx_id and changes nothing |
| `EdirPay.DecisionEditsPostedReport` | bot.js:145-206 | the group message id a delivered receipt stores is the one the admin's decision then edits, after the notice to the member |
| `EdirPay.SecondFileIgnored` | bot.js:124-126 | once a receipt is delivered and the draft cleared, an immediate second file changes nothing |
| `EdirPay.Bot.constructor` | bot.js:31-58 | the bot starts with empty tables and sessions, and row ids start at 1 |
| `EdirPay.Bot.Start` | bot.js:82-97 | updates the members table in place exactly as `StartStep` says |
| `EdirPay.Bot.OnWebAppData` | bot.js:100-118 | updates the session drafts in place exactly as `SubmitStep` says |
| `EdirPay.Bot.OnFile` | bot.js:121-171 | updates the stores in place exactly as `FileStep` says |
| `EdirPay.Bot.OnDecision` | bot.js:174-213 | updates the stores in place exactly as `DecideStep` says |

## Left out

- Telegram transport is left out: replies to the user, keyboards, `answerCbQuery`, the edit of the admin's own message, and `bot.launch`. These are foreign calls with no effect on the tables. Messages that carry model data are recorded in an outbox log, in both bots: admin prompts or photos, tier announcements, group posts and edits, and member notices. A group post or edit is recorded by the row's report fields and the status it shows; `ReportText` gives the text sent.
- `isAdmin` in `bot.py` (bot.py:64) guards only the keyboards and the admin commands, which are left out. Its decision handler never consults it.
- `bot.py` catches every failure of its admin sends, so its log records each attempt. In `bot.js`, the outcome of each send that decides what happens next is an input.
- In `bot.py`, the tier announcement waits on `getChatMember`, which may fail and would then also end the handler before the member notice. The model always records the announcement and the notice.
- The HTTP health servers, the backup timer and file sending, environment loading, `process.exit`, the admin summary and report commands, and the admin/user mode switches are I/O or presentation with no workflow logic. `ADMIN_IDS`, `ADMIN_ID` and the group id are constructor parameters. A group id of 0 stands for an unset one.
- `Math.random` is an input `r` in [0, 1), and the draw uses exact reals. IEEE-754 rounding is not modelled.
- `toLocaleString` timestamps are input strings.
- Both bots call `JSON.parse` on the result of `ctx.webAppData.data.json()` (bot.py:196, bot.js:102), so the payload is parsed twice. Whether a report survives that depends on what Telegraf's `.json()` returns, which is not part of this model. If it returns an object, every report ends in the handler's catch, which is the `Unparsable` case. The model assumes the report arrives as described next.
- `JSON.parse` is replaced by an already-parsed payload: a payment report, other data, or text that does not parse. A payment report whose fields are missing or of another type (stored as NULL or as text) is not modelled. Its fields are assumed present, and amounts and penalties are integers.
- SQLite REAL amounts are integers. Storage failures other than the UNIQUE tx_id violation are not modelled.
- Session drafts are keyed by user id. Telegraf's session key also includes the chat id, so a private chat with the bot is assumed. Sessions are not lost on restart.
- `parseInt` precision above 2^53 is not modelled. Callback ids are read as exact naturals.
- Handlers run one at a time. The unawaited `notifyAdmins` and tier announcement in `bot.py` are treated as completing within their handler.

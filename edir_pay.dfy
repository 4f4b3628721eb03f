/** bot.js, "EdirPay" v4.5: a mini-app payment report gets a random `#EUDE` transaction id and is
    held as the user's active draft; the receipt file turns the draft into one PENDING row, which
    is announced to the group and sent to the one admin with approve/reject buttons; only that
    admin may decide, only a PENDING row is decided, and approval credits the row's amount to the
    member's balance. */
module EdirPay {
  import opened Optional
  import opened Decimal

  // ---------------------------------------------------------------- records

  /** members.balance starts at the column default 0. */
  datatype Member = Member(username: string, fullName: string, balance: int, joinedAt: string)

  /** payments.status; a new row gets the column default PENDING. */
  datatype Status = Pending | Approved | Rejected

  datatype Payment = Payment(
    txId: string,
    userId: int,
    username: string,
    purpose: string,
    period: string,
    amount: int,
    penalty: int,
    fileId: string,
    status: Status,
    groupMsgId: Option<nat>,
    timestamp: string)

  /** ctx.session.activePayment: the report, its transaction id and the time it arrived. */
  datatype Draft = Draft(purpose: string, period: string, amount: int, penalty: int, txId: string, time: string)

  /** The mini app's message after JSON.parse: a payment report, some other type, or text
      that does not parse. */
  datatype WebAppData =
    | PaymentReport(purpose: string, period: string, amount: int, penalty: int)
    | OtherData
    | Unparsable

  datatype Action = Approve | Reject

  /** What the decision handler's regular expression extracts from a button's callback data. */
  datatype Decision = Decision(action: Action, paymentId: nat)

  /** Messages the core sends: the group report and its later edit, the admin's photo with two
      buttons, and the decision notice to the member. A group message is recorded by the row's
      report fields and the status it shows; the text sent is `ReportText(report, status)`. */
  datatype Outgoing =
    | GroupPost(chat: int, report: ReportFields, status: Status)
    | GroupEdit(chat: int, messageId: nat, report: ReportFields, status: Status)
    | AdminPhoto(chat: int, fileId: string, approveData: string, rejectData: string)
    | MemberNotice(chat: int, approved: bool, txId: string)

  /** ADMIN_ID and TEST_GROUP_ID; a group id of 0 stands for the unset (null, falsy) one. */
  datatype Config = Config(adminId: int, groupId: int)

  /** The members and payments tables, the next AUTOINCREMENT id, every user's active draft,
      and the messages sent so far. */
  datatype State = State(
    members: map<int, Member>,
    payments: map<nat, Payment>,
    nextId: nat,
    sessions: map<int, Draft>,
    outbox: seq<Outgoing>)

  /** No two rows share a tx_id (the column is UNIQUE). */
  predicate UniqueTxIds(p: map<nat, Payment>) {
    forall i, j :: i in p && j in p && i != j ==> p[i].txId != p[j].txId
  }

  /** AUTOINCREMENT numbers rows from 1 below the next id to be given, and tx_id is UNIQUE. */
  predicate Wf(s: State) {
    && s.nextId >= 1
    && (forall id :: id in s.payments ==> 1 <= id < s.nextId)
    && UniqueTxIds(s.payments)
  }

  const Initial: State := State(map[], map[], 1, map[], [])

  /** isAdmin: the single configured ADMIN_ID. */
  predicate IsAdmin(cfg: Config, id: int) {
    id == cfg.adminId
  }

  /** `ctx.from.username || 'N/A'`, as /start records it. */
  function NameOrNA(username: Option<string>): string {
    if username.Some? && username.value != "" then username.value else "N/A"
  }

  /** `ctx.from.username || ctx.from.first_name`, as the receipt handler records it. */
  function NameOrFirst(username: Option<string>, firstName: string): string {
    if username.Some? && username.value != "" then username.value else firstName
  }

  // ------------------------------------------------------- transaction ids

  /** The number in a transaction id: Math.floor(1000 + r * 9000) for r = Math.random(). */
  function TxNumber(r: real): (n: int)
    requires 0.0 <= r < 1.0
    ensures 1000 <= n <= 9999
  {
    (1000.0 + r * 9000.0).Floor
  }

  /** Every number from 1000 to 9999 is drawn by some r. */
  lemma TxNumberCovers(n: int)
    requires 1000 <= n <= 9999
    ensures TxNumber((n - 1000) as real / 9000.0) == n
  {
  }

  /** `#EUDE` followed by four digits, the first not zero. */
  predicate IsTxId(s: string) {
    |s| == 9 && s[..5] == "#EUDE" && AllDigits(s[5..]) && s[5] != '0'
  }

  /** generateTXID, given the value Math.random() returned: an id of the `#EUDE` shape whose
      digits read back as the drawn number. */
  function GenerateTxId(r: real): (id: string)
    requires 0.0 <= r < 1.0
    ensures IsTxId(id)
    ensures ParseNat(id[5..]) == Some(TxNumber(r))
  {
    var n := TxNumber(r);
    FourDigitNumeral(n);
    ParseNatToString(n);
    assert ("#EUDE" + NatToString(n))[5..] == NatToString(n);
    "#EUDE" + NatToString(n)
  }

  // ------------------------------------------------------- callback data

  function DecisionStatus(a: Action): Status {
    if a == Approve then Approved else Rejected
  }

  /** The data of an approve button: `approve_` and a non-empty run of digits. */
  predicate ApproveShape(data: string) {
    |data| > 8 && data[..8] == "approve_" && AllDigits(data[8..])
  }

  /** The data of a reject button: `reject_` and a non-empty run of digits. */
  predicate RejectShape(data: string) {
    |data| > 7 && data[..7] == "reject_" && AllDigits(data[7..])
  }

  /** The admin's button data: `approve_<id>` and `reject_<id>`; it opens with the prefix of
      its action. */
  function CallbackData(action: Action, id: nat): (r: string)
    ensures action == Approve ==> |r| > 8 && r[..8] == "approve_"
    ensures action == Reject ==> |r| > 7 && r[..7] == "reject_"
  {
    (if action == Approve then "approve_" else "reject_") + NatToString(id)
  }

  /** The decision handler's pattern `^(approve|reject)_(\d+)$`: it matches exactly the two
      button shapes, and yields the action and the digits read as a number (leading zeros
      allowed, as SQLite's integer affinity reads them). */
  function ParseCallback(data: string): (r: Option<Decision>)
    ensures r.Some? <==> ApproveShape(data) || RejectShape(data)
    ensures ApproveShape(data) ==> r == Some(Decision(Approve, DigitsValue(data[8..])))
    ensures RejectShape(data) ==> r == Some(Decision(Reject, DigitsValue(data[7..])))
  {
    assert RejectShape(data) ==> data[0] == data[..7][0] == 'r';
    if |data| >= 8 && data[..8] == "approve_" then
      match ParseNat(data[8..])
      case Some(id) => Some(Decision(Approve, id))
      case None => None
    else if |data| >= 7 && data[..7] == "reject_" then
      match ParseNat(data[7..])
      case Some(id) => Some(Decision(Reject, id))
      case None => None
    else None
  }

  /** A button's data parses back to the action and row it was made from. */
  lemma CallbackDataRoundTrip(action: Action, id: nat)
    ensures ParseCallback(CallbackData(action, id)) == Some(Decision(action, id))
  {
    DigitsValueOfNatToString(id);
  }

  /** Distinct buttons carry distinct data. */
  lemma CallbackDataInjective(a1: Action, id1: nat, a2: Action, id2: nat)
    requires CallbackData(a1, id1) == CallbackData(a2, id2)
    ensures a1 == a2 && id1 == id2
  {
    CallbackDataRoundTrip(a1, id1);
    CallbackDataRoundTrip(a2, id2);
  }

  // ---------------------------------------------------------- group report

  /** The fields formatGroupReport reads from a row. */
  datatype ReportFields = ReportFields(txId: string, username: string, purpose: string, period: string, amount: int, penalty: int)

  function ReportOf(p: Payment): ReportFields {
    ReportFields(p.txId, p.username, p.purpose, p.period, p.amount, p.penalty)
  }

  /** The penalty line's value: the amount in birr when above zero, otherwise "none". */
  function PenaltyText(penalty: int): string {
    if penalty > 0 then IntToString(penalty) + " ብር" else "የለም"
  }

  /** Everything formatGroupReport writes before the penalty value. */
  function ReportHead(p: ReportFields): string {
    "📋 **የክፍያ ሪፖርት " + p.txId + "**\n"
    + "━━━━━━━━━━━━━━━━━━\n"
    + "👤 **አባል:** @" + p.username + "\n"
    + "🎯 **ዓላማ:** " + p.purpose + "\n"
    + "📅 **ጊዜ:** " + p.period + "\n"
    + "💰 **መጠን:** " + IntToString(p.amount) + " ብር\n"
    + "⚠️ **ቅጣት:** "
  }

  /** Everything formatGroupReport writes after the penalty value. */
  function ReportTail(emoji: string, statusText: string): string {
    "\n" + "━━━━━━━━━━━━━━━━━━\n" + emoji + " **ሁኔታ:** " + statusText
  }

  /** formatGroupReport: it opens with the header naming the tx id, member, purpose, period
      and amount, and closes with the status text. */
  function FormatGroupReport(p: ReportFields, emoji: string, statusText: string): (r: string)
    ensures ReportHead(p) <= r
    ensures EndsWith(r, statusText)
  {
    var r := ReportHead(p) + PenaltyText(p.penalty) + ReportTail(emoji, statusText);
    assert r[|r| - |statusText|..] == statusText;
    r
  }

  /** `t` is the last part of `s`. */
  predicate EndsWith(s: string, t: string) {
    |t| <= |s| && s[|s| - |t|..] == t
  }

  /** The line formatGroupReport ends with for each status of the row. */
  function StatusText(status: Status): string {
    match status
    case Pending => "በመጠባበቅ ላይ"
    case Approved => "ተረጋግጦ ጽድቋል"
    case Rejected => "ውድቅ ተደርጓል (ደረሰኝ ስህተት)"
  }

  /** The group report's text: waiting (⏳) when posted, approved (✅) or rejected (❌) when edited. */
  function ReportText(p: ReportFields, status: Status): (r: string)
    ensures EndsWith(r, StatusText(status))
  {
    match status
    case Pending => FormatGroupReport(p, "⏳", StatusText(status))
    case Approved => FormatGroupReport(p, "✅", StatusText(status))
    case Rejected => FormatGroupReport(p, "❌", StatusText(status))
  }

  /** A report's text tells the three statuses apart: its last character differs. */
  lemma ReportTextShowsStatus(p: ReportFields, s1: Status, s2: Status)
    requires ReportText(p, s1) == ReportText(p, s2)
    ensures s1 == s2
  {
    var r := ReportText(p, s1);
    var t1, t2 := StatusText(s1), StatusText(s2);
    assert r[|r| - 1] == t1[|t1| - 1];
    assert r[|r| - 1] == t2[|t2| - 1];
  }

  lemma MiddleDiffers(a: string, x: string, y: string, b: string)
    requires x != y
    ensures a + x + b != a + y + b
  {
    if |x| == |y| {
      var i :| 0 <= i < |x| && x[i] != y[i];
      assert (a + x + b)[|a| + i] == x[i];
      assert (a + y + b)[|a| + i] == y[i];
    } else {
      assert |a + x + b| != |a + y + b|;
    }
  }

  /** The report shows the penalty only when it is above zero: all penalties of zero or less
      give the same report, and a positive penalty is told apart from every other value. */
  lemma GroupReportShowsPositivePenalty(p: ReportFields, k: int, emoji: string, statusText: string)
    ensures p.penalty <= 0 && k <= 0 ==>
      FormatGroupReport(p, emoji, statusText) == FormatGroupReport(p.(penalty := k), emoji, statusText)
    ensures p.penalty > 0 && k != p.penalty ==>
      FormatGroupReport(p, emoji, statusText) != FormatGroupReport(p.(penalty := k), emoji, statusText)
  {
    if p.penalty > 0 && k != p.penalty {
      var x, y := PenaltyText(p.penalty), PenaltyText(k);
      if k > 0 {
        if x == y {
          assert IntToString(p.penalty) == x[..|x| - 3] == y[..|y| - 3] == IntToString(k);
          IntToStringInjective(p.penalty, k);
        }
      } else {
        assert x[0] != y[0];
      }
      assert ReportHead(p.(penalty := k)) == ReportHead(p);
      MiddleDiffers(ReportHead(p), x, y, ReportTail(emoji, statusText));
    }
  }

  // ------------------------------------------------------------ aggregates

  predicate ApprovedOf(p: map<nat, Payment>, uid: int, id: nat) {
    id in p && p[id].userId == uid && p[id].status == Approved
  }

  /** What row `id` has credited to `uid`: its amount if it is an APPROVED row of `uid`. */
  function Credited(p: map<nat, Payment>, uid: int, id: nat): int {
    if ApprovedOf(p, uid, id) then p[id].amount else 0
  }

  /** The total amount of the APPROVED rows of `uid` among the ids below `n`. */
  function ApprovedSumBelow(p: map<nat, Payment>, uid: int, n: nat): int {
    if n == 0 then 0 else ApprovedSumBelow(p, uid, n - 1) + Credited(p, uid, n - 1)
  }

  function ApprovedTotal(s: State, uid: int): int {
    ApprovedSumBelow(s.payments, uid, s.nextId)
  }

  /** Every member's balance is the total of their approved payments. */
  predicate BalancesMatch(s: State) {
    forall uid :: uid in s.members ==> s.members[uid].balance == ApprovedTotal(s, uid)
  }

  /** Changing the rows at one id changes the total by what that id credits. */
  lemma {:induction false} ApprovedSumUpdate(p: map<nat, Payment>, q: map<nat, Payment>, uid: int, n: nat, k0: nat)
    requires forall k :: 0 <= k < n && k != k0 ==> Credited(p, uid, k) == Credited(q, uid, k)
    ensures ApprovedSumBelow(q, uid, n) - ApprovedSumBelow(p, uid, n)
         == if k0 < n then Credited(q, uid, k0) - Credited(p, uid, k0) else 0
  {
    if n > 0 {
      ApprovedSumUpdate(p, q, uid, n - 1, k0);
    }
  }

  // ------------------------------------------------------------- handlers

  /** /start: INSERT OR IGNORE INTO members, with balance 0 and the join time. */
  function StartStep(s: State, uid: int, username: Option<string>, firstName: string, time: string): (s': State)
    ensures s'.members.Keys == s.members.Keys + {uid}
    ensures forall u :: u in s.members ==> s'.members[u] == s.members[u]
    ensures uid !in s.members ==> s'.members[uid] == Member(NameOrNA(username), firstName, 0, time)
    ensures s'.payments == s.payments && s'.nextId == s.nextId
    ensures s'.sessions == s.sessions && s'.outbox == s.outbox
  {
    if uid in s.members then s
    else s.(members := s.members[uid := Member(NameOrNA(username), firstName, 0, time)])
  }

  /** web_app_data: a payment report becomes the user's active draft, with a fresh transaction
      id and the time; nothing is written to the tables. Other data, and text that does not
      parse, change nothing. */
  function SubmitStep(s: State, uid: int, data: WebAppData, random: real, time: string): (s': State)
    requires 0.0 <= random < 1.0
    ensures !data.PaymentReport? ==> s' == s
    ensures data.PaymentReport? ==>
      && s' == s.(sessions := s'.sessions)
      && s'.sessions.Keys == s.sessions.Keys + {uid}
      && (forall u :: u in s.sessions && u != uid ==> s'.sessions[u] == s.sessions[u])
      && s'.sessions[uid] == Draft(data.purpose, data.period, data.amount, data.penalty, s'.sessions[uid].txId, time)
      && IsTxId(s'.sessions[uid].txId)
  {
    match data
    case PaymentReport(purpose, period, amount, penalty) =>
      s.(sessions := s.sessions[uid := Draft(purpose, period, amount, penalty, GenerateTxId(random), time)])
    case _ => s
  }

  /** Whether some row already holds this tx_id, so that an insert with it fails. */
  predicate TxIdTaken(p: map<nat, Payment>, txId: string) {
    exists id :: id in p && p[id].txId == txId
  }

  /** Whether the receipt handler reaches the line that clears the draft: the group report
      (when a group is configured) and the admin's photo were both sent. */
  predicate ReceiptDelivered(cfg: Config, groupSent: Option<nat>, adminSent: bool) {
    (cfg.groupId == 0 || groupSent.Some?) && adminSent
  }

  /** photo/document. With no active draft nothing changes. If the draft's tx_id is already in
      the table the insert fails and nothing changes. Otherwise one PENDING row is inserted; the
      group report is sent (its message id stored in the row) when a group is configured, then
      the admin's photo; each send's failure ends the handler, so the draft is cleared only when
      both sends succeed. `groupSent` is the sent group message's id, or None if sending failed;
      `adminSent` says whether the photo to the admin was sent. */
  function FileStep(cfg: Config, s: State, uid: int, username: Option<string>, firstName: string, fileId: string,
                    groupSent: Option<nat>, adminSent: bool): (s': State)
    requires Wf(s)
    ensures Wf(s')
    ensures uid !in s.sessions || TxIdTaken(s.payments, s.sessions[uid].txId) ==> s' == s
    ensures uid in s.sessions && !TxIdTaken(s.payments, s.sessions[uid].txId) ==>
      var d := s.sessions[uid];
      var id := s.nextId;
      && id !in s.payments
      && s'.payments.Keys == s.payments.Keys + {id}
      && (forall k :: k in s.payments ==> s'.payments[k] == s.payments[k])
      && s'.payments[id] == Payment(d.txId, uid, NameOrFirst(username, firstName), d.purpose, d.period,
                                    d.amount, d.penalty, fileId, Pending, s'.payments[id].groupMsgId, d.time)
      && s'.payments[id].groupMsgId == (if cfg.groupId != 0 then groupSent else None)
      && s'.nextId == id + 1
      && s'.members == s.members
      && s'.sessions == (if ReceiptDelivered(cfg, groupSent, adminSent) then s.sessions - {uid} else s.sessions)
      && s'.outbox == s.outbox
           + (if cfg.groupId != 0 && groupSent.Some? then [GroupPost(cfg.groupId, ReportOf(s'.payments[id]), Pending)] else [])
           + (if ReceiptDelivered(cfg, groupSent, adminSent)
              then [AdminPhoto(cfg.adminId, fileId, CallbackData(Approve, id), CallbackData(Reject, id))] else [])
  {
    if uid !in s.sessions then s
    else
      var d := s.sessions[uid];
      if TxIdTaken(s.payments, d.txId) then s
      else
        var id := s.nextId;
        var row := Payment(d.txId, uid, NameOrFirst(username, firstName), d.purpose, d.period,
                           d.amount, d.penalty, fileId, Pending, None, d.time);
        var s1 := s.(payments := s.payments[id := row], nextId := id + 1);
        if cfg.groupId != 0 && groupSent.None? then s1
        else
          var s2 :=
            if cfg.groupId == 0 then s1
            else s1.(payments := s1.payments[id := row.(groupMsgId := groupSent)],
                     outbox := s1.outbox + [GroupPost(cfg.groupId, ReportOf(row), Pending)]);
          if !adminSent then s2
          else s2.(outbox := s2.outbox + [AdminPhoto(cfg.adminId, fileId, CallbackData(Approve, id), CallbackData(Reject, id))],
                   sessions := s2.sessions - {uid})
  }

  /** UPDATE members SET balance = balance + amount WHERE user_id = uid: only that member's
      balance moves, by the amount, and with no such member nothing changes. */
  function Credit(m: map<int, Member>, uid: int, amount: int): (m': map<int, Member>)
    ensures m'.Keys == m.Keys
    ensures forall u :: u in m && u != uid ==> m'[u] == m[u]
    ensures uid in m ==> m'[uid] == m[uid].(balance := m[uid].balance + amount)
  {
    if uid in m then m[uid := m[uid].(balance := m[uid].balance + amount)] else m
  }

  /** The approve/reject handler. Callback data the pattern rejects never reaches it; a click by
      anyone but the admin, or on a row that is missing or no longer PENDING, changes nothing.
      Otherwise the row takes the decided status and, on approve, its amount (not its penalty)
      is added to its member's balance. The member is then told, and if that send succeeds and
      the row has a group message, the group report is edited; `memberReached` says whether the
      send to the member succeeded. */
  function DecideStep(cfg: Config, s: State, actor: int, data: string, memberReached: bool): (s': State)
    requires Wf(s)
    ensures Wf(s')
    ensures ParseCallback(data).None? || !IsAdmin(cfg, actor) ==> s' == s
    ensures ParseCallback(data).Some? ==>
      var id := ParseCallback(data).value.paymentId;
      id !in s.payments || s.payments[id].status != Pending ==> s' == s
    ensures ParseCallback(data).Some? && IsAdmin(cfg, actor) ==>
      var d := ParseCallback(data).value;
      d.paymentId in s.payments && s.payments[d.paymentId].status == Pending ==>
        var row := s.payments[d.paymentId];
        && s'.payments.Keys == s.payments.Keys
        && (forall k :: k in s.payments && k != d.paymentId ==> s'.payments[k] == s.payments[k])
        && s'.payments[d.paymentId] == row.(status := DecisionStatus(d.action))
        && s'.nextId == s.nextId && s'.sessions == s.sessions
        && s'.members.Keys == s.members.Keys
        && (forall u :: u in s.members && u != row.userId ==> s'.members[u] == s.members[u])
        && (d.action == Reject ==> s'.members == s.members)
        && (d.action == Approve && row.userId in s.members ==>
              s'.members[row.userId] == s.members[row.userId].(balance := s.members[row.userId].balance + row.amount))
        && s'.outbox == s.outbox
             + (if memberReached then [MemberNotice(row.userId, d.action == Approve, row.txId)] else [])
             + (if memberReached && cfg.groupId != 0 && row.groupMsgId.Some? && row.groupMsgId.value != 0
                then [GroupEdit(cfg.groupId, row.groupMsgId.value, ReportOf(row), DecisionStatus(d.action))] else [])

  {
    match ParseCallback(data)
    case None => s
    case Some(d) =>
      if !IsAdmin(cfg, actor) then s
      else if d.paymentId !in s.payments || s.payments[d.paymentId].status != Pending then s
      else
        var row := s.payments[d.paymentId];
        s.(payments := s.payments[d.paymentId := row.(status := DecisionStatus(d.action))],
           members := if d.action == Approve then Credit(s.members, row.userId, row.amount) else s.members,
           outbox := s.outbox + DecisionSends(cfg, row, d.action, memberReached))
  }

  /** What the decision handler sends once the row is updated: the notice to the submitter,
      and when that send succeeds and the row has a group message, the edit of that message;
      a failed notice ends the handler. */
  function DecisionSends(cfg: Config, row: Payment, action: Action, memberReached: bool): seq<Outgoing> {
    if !memberReached then []
    else
      [MemberNotice(row.userId, action == Approve, row.txId)]
      + (if cfg.groupId != 0 && row.groupMsgId.Some? && row.groupMsgId.value != 0
         then [GroupEdit(cfg.groupId, row.groupMsgId.value, ReportOf(row), DecisionStatus(action))] else [])
  }

  // ------------------------------------------------- workflow properties

  /** The message id a receipt stores is the one its decision edits: after a delivered receipt
      whose group post got message `msg`, the admin's click tells the member and rewrites that
      very message with the decided report. */
  lemma DecisionEditsPostedReport(cfg: Config, s: State, uid: int, username: Option<string>, firstName: string,
                                  fileId: string, msg: nat, action: Action)
    requires Wf(s) && cfg.groupId != 0 && msg != 0
    requires uid in s.sessions && !TxIdTaken(s.payments, s.sessions[uid].txId)
    ensures var s1 := FileStep(cfg, s, uid, username, firstName, fileId, Some(msg), true);
      var row := s1.payments[s.nextId];
      DecideStep(cfg, s1, cfg.adminId, CallbackData(action, s.nextId), true).outbox
        == s1.outbox + [MemberNotice(uid, action == Approve, row.txId), GroupEdit(cfg.groupId, msg, ReportOf(row), DecisionStatus(action))]
  {
    CallbackDataRoundTrip(action, s.nextId);
  }

  /** Once a row is APPROVED or REJECTED, no click on either of its buttons changes anything. */
  lemma DecidedRowIsFinal(cfg: Config, s: State, actor: int, action: Action, id: nat, memberReached: bool)
    requires Wf(s) && id in s.payments && s.payments[id].status != Pending
    ensures DecideStep(cfg, s, actor, CallbackData(action, id), memberReached) == s
  {
    CallbackDataRoundTrip(action, id);
  }

  /** A duplicate click, by any admin and whatever the outcome of its sends, has no further
      effect: in particular an approval is credited once. */
  lemma DecisionIdempotent(cfg: Config, s: State, actor: int, action: Action, id: nat, r1: bool, r2: bool)
    requires Wf(s)
    ensures var s1 := DecideStep(cfg, s, actor, CallbackData(action, id), r1);
      DecideStep(cfg, s1, actor, CallbackData(action, id), r2) == s1
  {
  }

  /** Approving a PENDING row raises its member's approved total by exactly its amount; no
      other member's total moves. */
  lemma ApproveAddsAmountToTotal(cfg: Config, s: State, id: nat, uid: int, memberReached: bool)
    requires Wf(s) && id in s.payments && s.payments[id].status == Pending
    ensures var s' := DecideStep(cfg, s, cfg.adminId, CallbackData(Approve, id), memberReached);
      ApprovedTotal(s', uid) == ApprovedTotal(s, uid) + (if uid == s.payments[id].userId then s.payments[id].amount else 0)
  {
    CallbackDataRoundTrip(Approve, id);
    var s' := DecideStep(cfg, s, cfg.adminId, CallbackData(Approve, id), memberReached);
    ApprovedSumUpdate(s.payments, s'.payments, uid, s.nextId, id);
  }

  /** A decision keeps every member's balance equal to their approved total. */
  lemma DecidePreservesBalances(cfg: Config, s: State, actor: int, data: string, memberReached: bool)
    requires Wf(s) && BalancesMatch(s)
    ensures BalancesMatch(DecideStep(cfg, s, actor, data, memberReached))
  {
    var s' := DecideStep(cfg, s, actor, data, memberReached);
    if s' != s {
      var d := ParseCallback(data).value;
      var row := s.payments[d.paymentId];
      forall uid | uid in s'.members
        ensures s'.members[uid].balance == ApprovedTotal(s', uid)
      {
        ApprovedSumUpdate(s.payments, s'.payments, uid, s.nextId, d.paymentId);
      }
    }
  }

  /** A receipt adds only a PENDING row, so no approved total and no balance moves. */
  lemma FilePreservesBalances(cfg: Config, s: State, uid: int, username: Option<string>, firstName: string,
                              fileId: string, groupSent: Option<nat>, adminSent: bool)
    requires Wf(s) && BalancesMatch(s)
    ensures BalancesMatch(FileStep(cfg, s, uid, username, firstName, fileId, groupSent, adminSent))
  {
    var s' := FileStep(cfg, s, uid, username, firstName, fileId, groupSent, adminSent);
    if s' != s {
      forall u | u in s'.members
        ensures s'.members[u].balance == ApprovedTotal(s', u)
      {
        ApprovedSumUpdate(s.payments, s'.payments, u, s.nextId, s.nextId);
        assert Credited(s'.payments, u, s.nextId) == 0;
      }
    }
  }

  /** A report only sets a draft, so balances still match. */
  lemma SubmitPreservesBalances(s: State, uid: int, data: WebAppData, random: real, time: string)
    requires 0.0 <= random < 1.0 && BalancesMatch(s)
    ensures BalancesMatch(SubmitStep(s, uid, data, random, time))
  {
  }

  /** /start keeps balances matching when the user is already a member or has no approved
      payment yet, since a new member always starts at 0. */
  lemma StartPreservesBalances(s: State, uid: int, username: Option<string>, firstName: string, time: string)
    requires BalancesMatch(s)
    requires uid in s.members || ApprovedTotal(s, uid) == 0
    ensures BalancesMatch(StartStep(s, uid, username, firstName, time))
  {
  }

  /** An approval for a user with no members row credits nobody, and a later /start gives
      them balance 0 beside an approved payment of 100. */
  lemma LateRegistrationLosesCredit()
    ensures var row := Payment("#EUDE1234", 7, "abebe", "Monthly Fee", "Jan", 100, 0, "f", Pending, None, "t");
      var s := State(map[], map[1 := row], 2, map[], []);
      var cfg := Config(1, 0);
      var s1 := DecideStep(cfg, s, 1, "approve_1", false);
      var s2 := StartStep(s1, 7, None, "Abebe", "t");
      && BalancesMatch(s)
      && s2.members[7].balance == 0
      && ApprovedTotal(s2, 7) == 100
  {
  }

  /** Once the admin's photo has failed, the draft stays but its tx_id is taken, so every
      further receipt for that draft fails its insert and changes nothing. */
  lemma FailedAdminSendBlocksRetry(cfg: Config, s: State, uid: int, username: Option<string>, firstName: string,
                                   f1: string, g1: Option<nat>, f2: string, g2: Option<nat>, a2: bool)
    requires Wf(s) && uid in s.sessions
    ensures var s1 := FileStep(cfg, s, uid, username, firstName, f1, g1, false);
      FileStep(cfg, s1, uid, username, firstName, f2, g2, a2) == s1
  {
  }

  /** A delivered receipt clears the draft, so an immediate second file is not inserted. */
  lemma SecondFileIgnored(cfg: Config, s: State, uid: int, username: Option<string>, firstName: string,
                          f1: string, g1: Option<nat>, f2: string, g2: Option<nat>, a2: bool)
    requires Wf(s) && ReceiptDelivered(cfg, g1, true)
    ensures var s1 := FileStep(cfg, s, uid, username, firstName, f1, g1, true);
      FileStep(cfg, s1, uid, username, firstName, f2, g2, a2) == s1
  {
  }

  // ------------------------------------------------------------ the bot

  /** The running bot: its tables, session drafts and sent messages, changed in place by the
      handlers. */
  class Bot {
    const cfg: Config
    var members: map<int, Member>
    var payments: map<nat, Payment>
    var nextId: nat
    var sessions: map<int, Draft>
    var outbox: seq<Outgoing>

    function Snapshot(): State
      reads this
    {
      State(members, payments, nextId, sessions, outbox)
    }

    predicate Valid()
      reads this
    {
      Wf(Snapshot())
    }

    constructor (adminId: int, groupId: int)
      ensures Valid() && cfg == Config(adminId, groupId) && Snapshot() == Initial
    {
      cfg := Config(adminId, groupId);
      members, payments, nextId, sessions, outbox := map[], map[], 1, map[], [];
    }

    method Start(uid: int, username: Option<string>, firstName: string, time: string)
      requires Valid()
      modifies this
      ensures Snapshot() == StartStep(old(Snapshot()), uid, username, firstName, time)
      ensures Valid()
    {
      if uid !in members {
        members := members[uid := Member(NameOrNA(username), firstName, 0, time)];
      }
    }

    method OnWebAppData(uid: int, data: WebAppData, random: real, time: string)
      requires Valid() && 0.0 <= random < 1.0
      modifies this
      ensures Snapshot() == SubmitStep(old(Snapshot()), uid, data, random, time)
      ensures Valid()
    {
      if data.PaymentReport? {
        var txId := GenerateTxId(random);
        sessions := sessions[uid := Draft(data.purpose, data.period, data.amount, data.penalty, txId, time)];
      }
    }

    method OnFile(uid: int, username: Option<string>, firstName: string, fileId: string,
                  groupSent: Option<nat>, adminSent: bool)
      requires Valid()
      modifies this
      ensures Snapshot() == FileStep(cfg, old(Snapshot()), uid, username, firstName, fileId, groupSent, adminSent)
      ensures Valid()
    {
      if uid !in sessions {
        return;
      }
      var draft := sessions[uid];
      if TxIdTaken(payments, draft.txId) {
        return;
      }
      var id := nextId;
      var row := Payment(draft.txId, uid, NameOrFirst(username, firstName), draft.purpose, draft.period,
                         draft.amount, draft.penalty, fileId, Pending, None, draft.time);
      payments := payments[id := row];
      nextId := nextId + 1;
      if cfg.groupId != 0 {
        if groupSent.None? {
          return;
        }
        outbox := outbox + [GroupPost(cfg.groupId, ReportOf(row), Pending)];
        payments := payments[id := row.(groupMsgId := groupSent)];
      }
      if !adminSent {
        return;
      }
      outbox := outbox + [AdminPhoto(cfg.adminId, fileId, CallbackData(Approve, id), CallbackData(Reject, id))];
      sessions := sessions - {uid};
    }

    method OnDecision(actor: int, data: string, memberReached: bool)
      requires Valid()
      modifies this
      ensures Snapshot() == DecideStep(cfg, old(Snapshot()), actor, data, memberReached)
      ensures Valid()
    {
      ghost var s0 := Snapshot();
      var parsed := ParseCallback(data);
      if parsed.None? || !IsAdmin(cfg, actor) {
        return;
      }
      var d := parsed.value;
      if d.paymentId !in payments || payments[d.paymentId].status != Pending {
        return;
      }
      var row := payments[d.paymentId];
      payments := payments[d.paymentId := row.(status := DecisionStatus(d.action))];
      if d.action == Approve && row.userId in members {
        members := members[row.userId := members[row.userId].(balance := members[row.userId].balance + row.amount)];
      }
      assert members == if d.action == Approve then Credit(s0.members, row.userId, row.amount) else s0.members;
      if !memberReached {
        return;
      }
      outbox := outbox + [MemberNotice(row.userId, d.action == Approve, row.txId)];
      if cfg.groupId != 0 && row.groupMsgId.Some? && row.groupMsgId.value != 0 {
        outbox := outbox + [GroupEdit(cfg.groupId, row.groupMsgId.value, ReportOf(row), DecisionStatus(d.action))];
      }
      assert outbox == s0.outbox + DecisionSends(cfg, row, d.action, memberReached);
    }
  }
}

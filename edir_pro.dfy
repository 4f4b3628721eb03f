/** bot.py, "Edir Digital Pro v3.6": members carry a tier recomputed from their number of
    approved payments; a mini-app payment report is held as a per-user pending draft until a
    receipt file arrives (manual gateway) or is logged at once (any other gateway); admins
    approve or reject through inline buttons whose callback data names the row and the
    submitter. The decision handler checks neither who clicked nor the row's current status. */
module EdirPro {
  import opened Optional
  import opened Decimal

  // ------------------------------------------------------------------ tiers

  datatype Tier = Basic | Pro | Elite

  /** The text stored in members.tier; Basic's label is also the column's default, and it is
      the label the announcement guard compares with. */
  function TierLabel(t: Tier): (r: string)
    ensures r == "መሠረታዊ" <==> t == Basic
  {
    match t
    case Basic => "መሠረታዊ"
    case Pro => "ፕሮ (Pro)"
    case Elite => "ልዩ (Elite)"
  }

  function TierRank(t: Tier): nat {
    match t
    case Basic => 0
    case Pro => 1
    case Elite => 2
  }

  /** The tier earned by a number of approved payments: 0-4 Basic, 5-11 Pro, 12 or more Elite. */
  function TierFor(approved: nat): (t: Tier)
    ensures t == Elite <==> approved >= 12
    ensures t == Pro <==> 5 <= approved <= 11
    ensures t == Basic <==> approved <= 4
  {
    if approved >= 12 then Elite else if approved >= 5 then Pro else Basic
  }

  /** More approved payments never earn a lower tier. */
  lemma TierForMonotone(a: nat, b: nat)
    requires a <= b
    ensures TierRank(TierFor(a)) <= TierRank(TierFor(b))
  {
  }

  /** The three stored labels are distinct, so comparing two stored labels compares tiers. */
  lemma TierLabelInjective(t: Tier, u: Tier)
    requires TierLabel(t) == TierLabel(u)
    ensures t == u
  {
  }

  // ---------------------------------------------------------------- records

  datatype Member = Member(username: string, fullName: string, tier: Tier)

  /** payments.status; a new row gets the column default AWAIT_APPROVAL. */
  datatype Status = AwaitApproval | Approved | Rejected

  datatype Payment = Payment(
    userId: int,
    username: string,
    gateway: string,
    purpose: string,
    totalAmount: int,
    fileId: Option<string>,
    status: Status,
    timestamp: string)

  /** ctx.session.pendingPayment: the report's fields and the time it arrived. */
  datatype Draft = Draft(gateway: string, purpose: string, totalAmount: int, timestamp: string)

  /** The mini app's message after JSON.parse: a payment report, some other type, or text
      that does not parse. */
  datatype WebAppData =
    | PaymentReport(gateway: string, purpose: string, totalAmount: int)
    | OtherData
    | Unparsable

  datatype Action = Approve | Reject

  /** What the decision handler's regular expression extracts from a button's callback data. */
  datatype Decision = Decision(action: Action, paymentId: nat, targetUid: int)

  /** Messages the core sends: a prompt with two buttons to an admin (with the receipt photo
      when there is one), a tier announcement to the group, and the decision told to the
      submitter. */
  datatype Outgoing =
    | AdminPrompt(chat: int, photo: Option<string>, approveData: string, rejectData: string)
    | TierAnnouncement(chat: int, member: int, tier: Tier)
    | MemberNotice(chat: int, approved: bool)

  /** ADMIN_IDS and TEST_GROUP_ID; a group id of 0 is falsy and disables announcements. */
  datatype Config = Config(adminIds: seq<int>, groupId: int)

  /** The members and payments tables, the next AUTOINCREMENT id, every user's pending
      draft, and the messages sent so far. */
  datatype State = State(
    members: map<int, Member>,
    payments: map<nat, Payment>,
    nextId: nat,
    sessions: map<int, Draft>,
    outbox: seq<Outgoing>)

  /** AUTOINCREMENT numbers rows from 1 and every row id is below the next one to be given. */
  predicate Wf(s: State) {
    s.nextId >= 1 && forall id :: id in s.payments ==> 1 <= id < s.nextId
  }

  const Initial: State := State(map[], map[], 1, map[], [])

  /** `ctx.from.username || 'N/A'`: a missing or empty username becomes N/A. */
  function NameOrNA(username: Option<string>): string {
    if username.Some? && username.value != "" then username.value else "N/A"
  }

  // ------------------------------------------------------------ aggregates

  predicate ApprovedOf(p: map<nat, Payment>, uid: int, id: nat) {
    id in p && p[id].userId == uid && p[id].status == Approved
  }

  /** The number of APPROVED rows of `uid` among the ids below `n`: at most `n`, and zero
      exactly when no such row exists. */
  function ApprovedBelow(p: map<nat, Payment>, uid: int, n: nat): (r: nat)
    ensures r <= n
    ensures r > 0 <==> exists id :: 0 <= id < n && ApprovedOf(p, uid, id)
  {
    if n == 0 then 0 else ApprovedBelow(p, uid, n - 1) + (if ApprovedOf(p, uid, n - 1) then 1 else 0)
  }

  /** SELECT COUNT(*) FROM payments WHERE user_id = uid AND status = 'APPROVED'. */
  function ApprovedCount(s: State, uid: int): (r: nat)
    ensures r <= s.nextId
    ensures Wf(s) ==> (r > 0 <==> exists id :: ApprovedOf(s.payments, uid, id))
  {
    ApprovedBelow(s.payments, uid, s.nextId)
  }

  /** Changing the rows at one id changes the count by what that id contributes. */
  lemma {:induction false} ApprovedBelowUpdate(p: map<nat, Payment>, q: map<nat, Payment>, uid: int, n: nat, k0: nat)
    requires forall k :: 0 <= k < n && k != k0 ==> (ApprovedOf(p, uid, k) <==> ApprovedOf(q, uid, k))
    ensures ApprovedBelow(q, uid, n) + (if k0 < n && ApprovedOf(p, uid, k0) then 1 else 0)
         == ApprovedBelow(p, uid, n) + (if k0 < n && ApprovedOf(q, uid, k0) then 1 else 0)
  {
    if n > 0 {
      ApprovedBelowUpdate(p, q, uid, n - 1, k0);
    }
  }

  // ------------------------------------------------------- callback data

  function DecisionStatus(a: Action): Status {
    if a == Approve then Approved else Rejected
  }

  /** The two prefixes the decision handler's pattern accepts. */
  predicate HasPrefix(data: string) {
    |data| >= 6 && (data[..6] == "p_app_" || data[..6] == "p_rej_")
  }

  /** After the prefix, a `_` at `i` with a non-empty run of digits on either side. */
  predicate SplitsAt(data: string, i: int) {
    6 < i < |data| - 1 && data[i] == '_' && AllDigits(data[6..i]) && AllDigits(data[i + 1..])
  }

  /** notifyAdmins' button data: `p_app_<id>_<uid>` and `p_rej_<id>_<uid>`. */
  function CallbackData(action: Action, id: nat, uid: int): string {
    (if action == Approve then "p_app_" else "p_rej_") + NatToString(id) + "_" + IntToString(uid)
  }

  /** The position of the first `c` in `s`, if any. */
  function IndexOf(s: string, c: char): (r: Option<nat>)
    ensures r.Some? ==> r.value < |s| && s[r.value] == c
    ensures forall j :: 0 <= j < |s| && (r.None? || j < r.value) ==> s[j] != c
  {
    if s == [] then None
    else if s[0] == c then Some(0)
    else match IndexOf(s[1..], c)
      case None => None
      case Some(i) => Some(i + 1)
  }

  /** A `_` preceded only by digits is the first `_`. */
  lemma UnderscoreAfterDigits(s: string, j: nat)
    requires j < |s| && s[j] == '_' && AllDigits(s[..j])
    ensures IndexOf(s, '_') == Some(j)
  {
  }

  /** Wherever the data splits, that is its first `_` after the prefix. */
  lemma FirstUnderscore(data: string)
    requires |data| >= 6
    ensures forall i :: SplitsAt(data, i) ==> IndexOf(data[6..], '_') == Some(i - 6)
  {
    forall i | SplitsAt(data, i)
      ensures IndexOf(data[6..], '_') == Some(i - 6)
    {
      assert data[6..][..i - 6] == data[6..i];
      UnderscoreAfterDigits(data[6..], i - 6);
    }
  }

  /** The decision handler's pattern `^(p_app|p_rej)_(\d+)_(\d+)$`: it matches exactly the data
      with one of the two prefixes and a split into two digit runs, and yields the prefix's
      action and the two runs read as numbers (leading zeros allowed, as `parseInt` and
      SQLite's integer affinity read them). Digits never contain `_`, so there is at most one
      split; the implementation takes the first `_` after the prefix. */
  function ParseCallback(data: string): (r: Option<Decision>)
    ensures r.Some? ==> HasPrefix(data) && exists i :: (SplitsAt(data, i) &&
      r.value == Decision(if data[..6] == "p_app_" then Approve else Reject,
                          DigitsValue(data[6..i]), DigitsValue(data[i + 1..])))
    ensures forall i :: HasPrefix(data) && SplitsAt(data, i) ==>
      r == Some(Decision(if data[..6] == "p_app_" then Approve else Reject,
                         DigitsValue(data[6..i]), DigitsValue(data[i + 1..])))
  {
    if !HasPrefix(data) then None
    else
      var action := if data[..6] == "p_app_" then Approve else Reject;
      var rest := data[6..];
      FirstUnderscore(data);
      match IndexOf(rest, '_')
      case None => None
      case Some(i) =>
        assert rest[..i] == data[6..6 + i] && rest[i + 1..] == data[6 + i + 1..];
        match (ParseNat(rest[..i]), ParseNat(rest[i + 1..]))
        case (Some(id), Some(uid)) =>
          assert SplitsAt(data, 6 + i);
          Some(Decision(action, id, uid))
        case _ => None
  }

  /** A button's data parses back to the action, row and submitter it was made from; a
      negative submitter id would not match `\d+` at all. */
  lemma CallbackDataRoundTrip(action: Action, id: nat, uid: int)
    ensures uid >= 0 ==> ParseCallback(CallbackData(action, id, uid)) == Some(Decision(action, id, uid))
    ensures uid < 0 ==> ParseCallback(CallbackData(action, id, uid)) == None
  {
    var a, b := NatToString(id), IntToString(uid);
    var rest := CallbackData(action, id, uid)[6..];
    CallbackDataParts(action, id, uid);
    UnderscoreAfterDigits(rest, |a|);
    ParseNatToString(id);
    if uid >= 0 {
      ParseNatToString(uid);
    } else {
      assert !IsDigit(b[0]);
    }
  }

  /** The button data is its action's prefix, then the row id's digits, a `_`, and the
      submitter id's text. */
  lemma CallbackDataParts(action: Action, id: nat, uid: int)
    ensures var data := CallbackData(action, id, uid);
      HasPrefix(data) && (data[..6] == "p_app_" <==> action == Approve)
    ensures var rest, x := CallbackData(action, id, uid)[6..], NatToString(id);
      && |rest| > |x| && rest[..|x|] == x && rest[|x|] == '_' && rest[|x| + 1..] == IntToString(uid)
  {
    var x := NatToString(id);
    var rest := x + "_" + IntToString(uid);
    assert CallbackData(action, id, uid) == (if action == Approve then "p_app_" else "p_rej_") + rest;
    assert rest[..|x|] == x && rest[|x| + 1..] == IntToString(uid);
  }

  /** Distinct buttons carry distinct data, for every submitter id. */
  lemma CallbackDataInjective(a1: Action, id1: nat, uid1: int, a2: Action, id2: nat, uid2: int)
    requires CallbackData(a1, id1, uid1) == CallbackData(a2, id2, uid2)
    ensures a1 == a2 && id1 == id2 && uid1 == uid2
  {
    var rest := CallbackData(a1, id1, uid1)[6..];
    var x1, x2 := NatToString(id1), NatToString(id2);
    CallbackDataParts(a1, id1, uid1);
    CallbackDataParts(a2, id2, uid2);
    UnderscoreAfterDigits(rest, |x1|);
    UnderscoreAfterDigits(rest, |x2|);
    NatToStringInjective(id1, id2);
    assert IntToString(uid1) == rest[|x1| + 1..] == IntToString(uid2);
    IntToStringInjective(uid1, uid2);
  }

  /** The prompts notifyAdmins sends, one per entry of ADMIN_IDS, in order. */
  function AdminPrompts(admins: seq<int>, id: nat, uid: int, fileId: Option<string>): (r: seq<Outgoing>)
    ensures |r| == |admins|
  {
    if admins == [] then []
    else
      AdminPrompts(admins[..|admins| - 1], id, uid, fileId)
        + [AdminPrompt(admins[|admins| - 1], fileId, CallbackData(Approve, id, uid), CallbackData(Reject, id, uid))]
  }

  /** The i-th prompt goes to the i-th admin, with the file and both buttons. */
  lemma {:induction false} AdminPromptsAt(admins: seq<int>, id: nat, uid: int, fileId: Option<string>, i: nat)
    requires i < |admins|
    ensures AdminPrompts(admins, id, uid, fileId)[i]
         == AdminPrompt(admins[i], fileId, CallbackData(Approve, id, uid), CallbackData(Reject, id, uid))
    decreases |admins|
  {
    if i < |admins| - 1 {
      AdminPromptsAt(admins[..|admins| - 1], id, uid, fileId, i);
    }
  }

  /** The prompts for one more admin are the earlier prompts and that admin's prompt. */
  lemma AdminPromptsStep(admins: seq<int>, i: nat, id: nat, uid: int, fileId: Option<string>)
    requires i < |admins|
    ensures AdminPrompts(admins[..i + 1], id, uid, fileId)
         == AdminPrompts(admins[..i], id, uid, fileId)
            + [AdminPrompt(admins[i], fileId, CallbackData(Approve, id, uid), CallbackData(Reject, id, uid))]
  {
    assert admins[..i + 1][..i] == admins[..i];
  }

  /** Every admin's two buttons lead the decision handler back to the inserted row and its
      submitter. */
  lemma AdminPromptsDecideRow(admins: seq<int>, id: nat, uid: int, fileId: Option<string>, i: nat)
    requires uid >= 0 && i < |admins|
    ensures var approve, reject := CallbackData(Approve, id, uid), CallbackData(Reject, id, uid);
      && AdminPrompts(admins, id, uid, fileId)[i] == AdminPrompt(admins[i], fileId, approve, reject)
      && ParseCallback(approve) == Some(Decision(Approve, id, uid))
      && ParseCallback(reject) == Some(Decision(Reject, id, uid))
  {
    AdminPromptsAt(admins, id, uid, fileId, i);
    CallbackDataRoundTrip(Approve, id, uid);
    CallbackDataRoundTrip(Reject, id, uid);
  }

  // ------------------------------------------------------------- handlers

  /** /start: INSERT OR IGNORE INTO members; a new member starts at the Basic tier. */
  function StartStep(s: State, uid: int, username: Option<string>, firstName: string): (s': State)
    ensures s'.members.Keys == s.members.Keys + {uid}
    ensures forall u :: u in s.members ==> s'.members[u] == s.members[u]
    ensures uid !in s.members ==> s'.members[uid] == Member(NameOrNA(username), firstName, Basic)
    ensures s'.payments == s.payments && s'.nextId == s.nextId
    ensures s'.sessions == s.sessions && s'.outbox == s.outbox
  {
    if uid in s.members then s
    else s.(members := s.members[uid := Member(NameOrNA(username), firstName, Basic)])
  }

  /** INSERT INTO payments at the next id, then notifyAdmins(row id, submitter, file). */
  function InsertAndNotify(cfg: Config, s: State, row: Payment): State {
    s.(payments := s.payments[s.nextId := row],
       nextId := s.nextId + 1,
       outbox := s.outbox + AdminPrompts(cfg.adminIds, s.nextId, row.userId, row.fileId))
  }

  /** web_app_data: a payment report overwrites the user's pending draft; a manual report
      then waits for its receipt, any other gateway is inserted at once with no file, and the
      draft stays set. Other data, and text that does not parse, change nothing. */
  function SubmitStep(cfg: Config, s: State, uid: int, username: Option<string>, data: WebAppData, time: string): (s': State)
    requires Wf(s)
    ensures Wf(s')
    ensures !data.PaymentReport? ==> s' == s
    ensures data.PaymentReport? ==>
      && s'.sessions == s.sessions[uid := Draft(data.gateway, data.purpose, data.totalAmount, time)]
      && s'.members == s.members
    ensures data.PaymentReport? && data.gateway == "manual" ==>
      s'.payments == s.payments && s'.nextId == s.nextId && s'.outbox == s.outbox
    ensures data.PaymentReport? && data.gateway != "manual" ==>
      && (forall id :: id in s.payments ==> id < s.nextId)
      && s'.payments == s.payments[s.nextId :=
           Payment(uid, NameOrNA(username), data.gateway, data.purpose, data.totalAmount, None, AwaitApproval, time)]
      && s'.nextId == s.nextId + 1
      && s'.outbox == s.outbox + AdminPrompts(cfg.adminIds, s.nextId, uid, None)
  {
    match data
    case PaymentReport(gateway, purpose, amount) =>
      var s1 := s.(sessions := s.sessions[uid := Draft(gateway, purpose, amount, time)]);
      if gateway == "manual" then s1
      else InsertAndNotify(cfg, s1, Payment(uid, NameOrNA(username), gateway, purpose, amount, None, AwaitApproval, time))
    case _ => s
  }

  /** photo/document: with no pending draft nothing happens; otherwise exactly one row is
      inserted from the draft and the file, the admins are prompted, and the draft is cleared. */
  function FileStep(cfg: Config, s: State, uid: int, username: Option<string>, fileId: string): (s': State)
    requires Wf(s)
    ensures Wf(s')
    ensures uid !in s.sessions ==> s' == s
    ensures uid in s.sessions ==>
      var d := s.sessions[uid];
      && s.nextId !in s.payments
      && s'.payments == s.payments[s.nextId :=
           Payment(uid, NameOrNA(username), d.gateway, d.purpose, d.totalAmount, Some(fileId), AwaitApproval, d.timestamp)]
      && s'.nextId == s.nextId + 1
      && s'.sessions == s.sessions - {uid}
      && s'.members == s.members
      && s'.outbox == s.outbox + AdminPrompts(cfg.adminIds, s.nextId, uid, Some(fileId))
  {
    if uid !in s.sessions then s
    else
      var d := s.sessions[uid];
      var s1 := InsertAndNotify(cfg, s, Payment(uid, NameOrNA(username), d.gateway, d.purpose, d.totalAmount, Some(fileId), AwaitApproval, d.timestamp));
      s1.(sessions := s1.sessions - {uid})
  }

  /** updateMemberTier: the tier of `uid`, if a member, becomes the one its approved count earns;
      nothing else changes. */
  function UpdateTierStep(s: State, uid: int): (s': State)
    ensures s'.members.Keys == s.members.Keys
    ensures forall u :: u in s.members && u != uid ==> s'.members[u] == s.members[u]
    ensures uid in s.members ==> s'.members[uid] == s.members[uid].(tier := TierFor(ApprovedCount(s, uid)))
    ensures s'.payments == s.payments && s'.nextId == s.nextId
    ensures s'.sessions == s.sessions && s'.outbox == s.outbox
  {
    if uid in s.members then s.(members := s.members[uid := s.members[uid].(tier := TierFor(ApprovedCount(s, uid)))])
    else s
  }

  /** Recomputing a tier with no approval in between gives the same state. */
  lemma UpdateTierIdempotent(s: State, uid: int)
    ensures UpdateTierStep(UpdateTierStep(s, uid), uid) == UpdateTierStep(s, uid)
  {
  }

  /** UPDATE payments SET status = ? WHERE id = ?: only that row's status changes, and with
      no such row nothing changes. */
  function SetStatus(p: map<nat, Payment>, id: nat, st: Status): (q: map<nat, Payment>)
    ensures q.Keys == p.Keys
    ensures forall k :: k in p && k != id ==> q[k] == p[k]
    ensures id in p ==> q[id] == p[id].(status := st)
  {
    if id in p then p[id := p[id].(status := st)] else p
  }

  /** The approve/reject handler. Callback data the pattern rejects never reaches it. Otherwise
      the named row, if any, takes the decided status whatever its status was and whoever
      clicked; on approve the tier of the uid written in the data is recomputed and, when it
      is above Basic and a group is configured, announced. Either way that uid is then told
      the decision. */
  function DecideStep(cfg: Config, s: State, data: string): (s': State)
    requires Wf(s)
    ensures Wf(s')
    ensures ParseCallback(data).None? ==> s' == s
    ensures ParseCallback(data).Some? ==>
      var d := ParseCallback(data).value;
      && s'.payments.Keys == s.payments.Keys
      && (forall id :: id in s.payments && id != d.paymentId ==> s'.payments[id] == s.payments[id])
      && (d.paymentId in s.payments ==>
            s'.payments[d.paymentId] == s.payments[d.paymentId].(status := DecisionStatus(d.action)))
      && s'.nextId == s.nextId && s'.sessions == s.sessions
      && s'.members.Keys == s.members.Keys
      && (forall u :: u in s.members && u != d.targetUid ==> s'.members[u] == s.members[u])
    ensures ParseCallback(data).Some? && ParseCallback(data).value.action == Reject ==>
      s'.members == s.members && s'.outbox == s.outbox + [MemberNotice(ParseCallback(data).value.targetUid, false)]
    ensures ParseCallback(data).Some? && ParseCallback(data).value.action == Approve ==>
      var d := ParseCallback(data).value;
      var tier := TierFor(ApprovedCount(s', d.targetUid));
      && (d.targetUid in s.members ==> s'.members[d.targetUid] == s.members[d.targetUid].(tier := tier))
      && s'.outbox == s.outbox + (if cfg.groupId != 0 && tier != Basic then [TierAnnouncement(cfg.groupId, d.targetUid, tier)] else [])
                              + [MemberNotice(d.targetUid, true)]
  {
    match ParseCallback(data)
    case None => s
    case Some(d) =>
      var s1 := s.(payments := SetStatus(s.payments, d.paymentId, DecisionStatus(d.action)));
      var s3 :=
        if d.action == Reject then s1
        else
          var s2 := UpdateTierStep(s1, d.targetUid);
          var tier := TierFor(ApprovedCount(s1, d.targetUid));
          if cfg.groupId != 0 && tier != Basic
          then s2.(outbox := s2.outbox + [TierAnnouncement(cfg.groupId, d.targetUid, tier)])
          else s2;
      s3.(outbox := s3.outbox + [MemberNotice(d.targetUid, d.action == Approve)])
  }

  // ------------------------------------------------- workflow properties

  /** Approving a row of `uid` that was not yet approved raises that user's approved count by one. */
  lemma ApproveCountsOnce(cfg: Config, s: State, id: nat, uid: int)
    requires Wf(s) && uid >= 0
    requires id in s.payments && s.payments[id].userId == uid && s.payments[id].status != Approved
    ensures ApprovedCount(DecideStep(cfg, s, CallbackData(Approve, id, uid)), uid) == ApprovedCount(s, uid) + 1
  {
    CallbackDataRoundTrip(Approve, id, uid);
    var s' := DecideStep(cfg, s, CallbackData(Approve, id, uid));
    ApprovedBelowUpdate(s.payments, s'.payments, uid, s.nextId, id);
  }

  /** Rejecting an approved row of `uid` lowers that user's approved count by one. */
  lemma RejectUncountsApproved(cfg: Config, s: State, id: nat, uid: int)
    requires Wf(s) && uid >= 0
    requires id in s.payments && s.payments[id].userId == uid && s.payments[id].status == Approved
    ensures ApprovedCount(DecideStep(cfg, s, CallbackData(Reject, id, uid)), uid) + 1 == ApprovedCount(s, uid)
  {
    CallbackDataRoundTrip(Reject, id, uid);
    var s' := DecideStep(cfg, s, CallbackData(Reject, id, uid));
    ApprovedBelowUpdate(s.payments, s'.payments, uid, s.nextId, id);
  }

  /** With no prior-status check, a later click overrides an earlier decision on the same row. */
  lemma LaterDecisionWins(cfg: Config, s: State, id: nat, first: Action, second: Action, uid1: int, uid2: int)
    requires Wf(s) && uid1 >= 0 && uid2 >= 0 && id in s.payments
    ensures var s2 := DecideStep(cfg, DecideStep(cfg, s, CallbackData(first, id, uid1)), CallbackData(second, id, uid2));
      id in s2.payments && s2.payments[id].status == DecisionStatus(second)
  {
    CallbackDataRoundTrip(first, id, uid1);
    CallbackDataRoundTrip(second, id, uid2);
  }

  /** Approving a member's fifth payment and then rejecting it leaves them at Pro with only
      four approved payments: reject never recomputes the tier. */
  lemma RejectAfterApproveLeavesTierStale(cfg: Config, s: State, id: nat, uid: int)
    requires Wf(s) && uid >= 0 && uid in s.members
    requires id in s.payments && s.payments[id].userId == uid && s.payments[id].status == AwaitApproval
    requires ApprovedCount(s, uid) == 4
    ensures var s2 := DecideStep(cfg, DecideStep(cfg, s, CallbackData(Approve, id, uid)), CallbackData(Reject, id, uid));
      s2.members[uid].tier == Pro && ApprovedCount(s2, uid) == 4
  {
    var s1 := DecideStep(cfg, s, CallbackData(Approve, id, uid));
    ApproveCountsOnce(cfg, s, id, uid);
    CallbackDataRoundTrip(Approve, id, uid);
    assert s1.members[uid].tier == Pro;
    RejectUncountsApproved(cfg, s1, id, uid);
    CallbackDataRoundTrip(Reject, id, uid);
  }

  /** Once a file has been bound the draft is gone, so an immediate second file is ignored. */
  lemma SecondFileIgnored(cfg: Config, s: State, uid: int, username: Option<string>, f1: string, f2: string)
    requires Wf(s)
    ensures var s1 := FileStep(cfg, s, uid, username, f1);
      FileStep(cfg, s1, uid, username, f2) == s1
  {
  }

  /** A report through a non-manual gateway is inserted at once but its draft stays set, so a
      later file inserts a second row for the same report. */
  lemma DigitalReportThenFileInsertsTwice(cfg: Config, s: State, uid: int, username: Option<string>, data: WebAppData, time: string, fileId: string)
    requires Wf(s) && data.PaymentReport? && data.gateway != "manual"
    ensures var s2 := FileStep(cfg, SubmitStep(cfg, s, uid, username, data, time), uid, username, fileId);
      && s2.nextId == s.nextId + 2
      && s.nextId !in s.payments && s.nextId + 1 !in s.payments
      && s2.payments[s.nextId].fileId == None && s2.payments[s.nextId + 1].fileId == Some(fileId)
      && s2.payments[s.nextId].(fileId := Some(fileId)) == s2.payments[s.nextId + 1]
  {
  }

  // ------------------------------------------------------------ the bot

  /** The running bot: its tables, session drafts and sent messages, changed in place by the
      handlers. */
  class Bot {
    const cfg: Config
    var members: map<int, Member>
    var payments: map<nat, Payment>
    var nextId: nat
    var sessions: map<int, Draft>
    var outbox: seq<Outgoing>

    function Snapshot(): State
      reads this
    {
      State(members, payments, nextId, sessions, outbox)
    }

    predicate Valid()
      reads this
    {
      Wf(Snapshot())
    }

    constructor (adminIds: seq<int>, groupId: int)
      ensures Valid() && cfg == Config(adminIds, groupId) && Snapshot() == Initial
    {
      cfg := Config(adminIds, groupId);
      members, payments, nextId, sessions, outbox := map[], map[], 1, map[], [];
    }

    method Start(uid: int, username: Option<string>, firstName: string)
      requires Valid()
      modifies this
      ensures Snapshot() == StartStep(old(Snapshot()), uid, username, firstName)
      ensures Valid()
    {
      if uid !in members {
        members := members[uid := Member(NameOrNA(username), firstName, Basic)];
      }
    }

    /** notifyAdmins: one prompt per configured admin, in list order; a failed send is caught
        and logged by bot.py, so every attempt is recorded here. */
    method NotifyAdmins(id: nat, uid: int, fileId: Option<string>)
      modifies this`outbox
      ensures outbox == old(outbox) + AdminPrompts(cfg.adminIds, id, uid, fileId)
    {
      var approveData := CallbackData(Approve, id, uid);
      var rejectData := CallbackData(Reject, id, uid);
      var i := 0;
      while i < |cfg.adminIds|
        invariant 0 <= i <= |cfg.adminIds|
        invariant outbox == old(outbox) + AdminPrompts(cfg.adminIds[..i], id, uid, fileId)
      {
        AdminPromptsStep(cfg.adminIds, i, id, uid, fileId);
        outbox := outbox + [AdminPrompt(cfg.adminIds[i], fileId, approveData, rejectData)];
        i := i + 1;
      }
      assert cfg.adminIds[..i] == cfg.adminIds;
    }

    method OnWebAppData(uid: int, username: Option<string>, data: WebAppData, time: string)
      requires Valid()
      modifies this
      ensures Snapshot() == SubmitStep(cfg, old(Snapshot()), uid, username, data, time)
      ensures Valid()
    {
      if data.PaymentReport? {
        sessions := sessions[uid := Draft(data.gateway, data.purpose, data.totalAmount, time)];
        if data.gateway != "manual" {
          var id := nextId;
          payments := payments[id := Payment(uid, NameOrNA(username), data.gateway, data.purpose, data.totalAmount, None, AwaitApproval, time)];
          nextId := nextId + 1;
          NotifyAdmins(id, uid, None);
        }
      }
    }

    method OnFile(uid: int, username: Option<string>, fileId: string)
      requires Valid()
      modifies this
      ensures Snapshot() == FileStep(cfg, old(Snapshot()), uid, username, fileId)
      ensures Valid()
    {
      if uid !in sessions {
        return;
      }
      var pending := sessions[uid];
      var id := nextId;
      payments := payments[id := Payment(uid, NameOrNA(username), pending.gateway, pending.purpose, pending.totalAmount, Some(fileId), AwaitApproval, pending.timestamp)];
      nextId := nextId + 1;
      NotifyAdmins(id, uid, Some(fileId));
      sessions := sessions - {uid};
    }

    method UpdateMemberTier(uid: int) returns (tier: Tier)
      requires Valid()
      modifies this
      ensures Snapshot() == UpdateTierStep(old(Snapshot()), uid)
      ensures Valid()
      ensures tier == TierFor(ApprovedCount(old(Snapshot()), uid))
    {
      tier := TierFor(ApprovedBelow(payments, uid, nextId));
      if uid in members {
        members := members[uid := members[uid].(tier := tier)];
      }
    }

    /** The approve/reject handler; `actor`, the admin who clicked, is never consulted. */
    method OnDecision(actor: int, data: string)
      requires Valid()
      modifies this
      ensures Snapshot() == DecideStep(cfg, old(Snapshot()), data)
      ensures Valid()
    {
      var parsed := ParseCallback(data);
      if parsed.None? {
        return;
      }
      var d := parsed.value;
      if d.paymentId in payments {
        payments := payments[d.paymentId := payments[d.paymentId].(status := DecisionStatus(d.action))];
      }
      if d.action == Approve {
        var tier := UpdateMemberTier(d.targetUid);
        if cfg.groupId != 0 && tier != Basic {
          outbox := outbox + [TierAnnouncement(cfg.groupId, d.targetUid, tier)];
        }
      }
      outbox := outbox + [MemberNotice(d.targetUid, d.action == Approve)];
    }
  }
}

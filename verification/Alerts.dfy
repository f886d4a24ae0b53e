/**
 AML alerts (bdpay/compliance/alerts.py): the alert state machine with its payment holds, subject freezes, four-eyes case
 closure and escalation sweep. Instants and ages are in seconds.
 */
module Alerts {
  import opened Common
  import opened Approvals

  const CASE_CLOSE := "aml_case_close"

  datatype Status = RAISED | TRIAGING | IN_CASE | STR_FILED | CLOSED

  datatype Alert = Alert(
    key: string,
    subject: string,
    payments: seq<string>,
    status: Status,
    raisedAt: int,
    triagedAt: Option<int>,
    caseOpened: bool,
    freezeApplied: bool,
    escalations: nat)

  type Rows = map<string, Alert>

  /** A hold placed on, or released from, a contributing payment. */
  datatype Hold = Hold(placed: bool, alert: string, payment: string)

  datatype Limits = Limits(raisedAge: int, triagingAge: int)

  /** `order` is the order of creation; `holds` and `notices` are the events sent, `notices` by alert. */
  datatype State = State(
    rows: Rows,
    order: seq<string>,
    requests: Requests,
    frozen: set<string>,
    holds: seq<Hold>,
    notices: seq<string>)

  const EMPTY := State(map[], [], map[], {}, [], [])

  /** `kernelUp` is false when the kernel's freeze or unfreeze raises, which aborts the transition. */
  datatype Event =
    | Raise(id: string, key: string, subject: string, payments: seq<string>, now: int)
    | Triage(id: string, isAnalyst: bool, now: int)
    | OpenCase(id: string, isAnalyst: bool, freeze: bool, kernelUp: bool)
    | MarkStrFiled(id: string, isCamlco: bool, declared: bool)
    | Close(id: string, isAnalyst: bool, reasonOk: bool, kernelUp: bool, request: string, actor: string, now: int)
    | CompleteClose(id: string, request: string, kernelUp: bool)
    | Escalate(now: int)
    | Gateway(op: Approvals.Op)

  // ------------------------------------------------------------------ transitions

  predicate HasKey(rows: Rows, key: string) {
    exists id :: id in rows && rows[id].key == key
  }

  function Holds(placed: bool, alert: string, payments: seq<string>): seq<Hold> {
    if payments == [] then []
    else Holds(placed, alert, payments[..|payments| - 1]) + [Hold(placed, alert, payments[|payments| - 1])]
  }

  predicate Opens(s: State, id: string, isAnalyst: bool, freeze: bool, kernelUp: bool) {
    id in s.rows && s.rows[id].status == TRIAGING && isAnalyst && s.rows[id].payments != [] && (freeze ==> kernelUp)
  }

  function Opened(s: State, id: string, freeze: bool): State
    requires id in s.rows
  {
    var a := s.rows[id];
    s.(rows := s.rows[id := a.(status := IN_CASE, caseOpened := true, freezeApplied := a.freezeApplied || freeze)],
    frozen := if freeze then s.frozen + {a.subject} else s.frozen,
    holds := if freeze then s.holds + Holds(true, id, a.payments) else s.holds)
  }

  predicate Closes(a: Alert, kernelUp: bool) {
    a.freezeApplied ==> kernelUp
  }

  function Finalized(s: State, id: string): State
    requires id in s.rows
  {
    var a := s.rows[id];
    s.(rows := s.rows[id := a.(status := CLOSED, freezeApplied := false)],
    frozen := if a.freezeApplied then s.frozen - {a.subject} else s.frozen,
    holds := if a.freezeApplied then s.holds + Holds(false, id, a.payments) else s.holds)
  }

  /** The approval names this alert's closure and is granted. */
  predicate Permits(requests: Requests, request: string, id: string) {
    request in requests && requests[request].state == APPROVED && requests[request].subject == id &&
    requests[request].action == CASE_CLOSE
  }

  function Age(a: Alert, status: Status, now: int): int {
    now - if status == TRIAGING && a.triagedAt.Some? then a.triagedAt.value else a.raisedAt
  }

  predicate Due(a: Alert, status: Status, age: int, already: nat, now: int) {
    a.status == status && (status == TRIAGING ==> a.triagedAt.Some?) && Age(a, status, now) > age &&
    a.escalations <= already
  }

  /** The alerts of one stage the sweep notifies, in order of creation. */
  function DueIds(rows: Rows, order: seq<string>, status: Status, age: int, already: nat, now: int): seq<string> {
    if order == [] then []
    else
      var rest := DueIds(rows, order[..|order| - 1], status, age, already, now);
      var id := order[|order| - 1];
      if id in rows && Due(rows[id], status, age, already, now) then rest + [id] else rest
  }

  function Bumped(rows: Rows, ids: seq<string>): Rows {
    map id | id in rows :: if id in ids then rows[id].(escalations := rows[id].escalations + 1) else rows[id]
  }

  function Stage(s: State, status: Status, age: int, already: nat, now: int): State {
    var ids := DueIds(s.rows, s.order, status, age, already, now);
    s.(rows := Bumped(s.rows, ids), notices := s.notices + ids)
  }

  function Escalated(l: Limits, s: State, now: int): State {
    Stage(Stage(s, RAISED, l.raisedAge, 0, now), TRIAGING, l.triagingAge, 1, now)
  }

  function Step(l: Limits, s: State, e: Event): State {
    match e
    case Raise(id, key, subject, payments, now) =>
      if HasKey(s.rows, key) || id in s.rows then s
      else
        var a := Alert(key, subject, payments, RAISED, now, None, false, false, 0);
        s.(rows := s.rows[id := a], order := s.order + [id])
    case Triage(id, isAnalyst, now) =>
      if id !in s.rows || s.rows[id].status != RAISED || !isAnalyst then s
      else s.(rows := s.rows[id := s.rows[id].(status := TRIAGING, triagedAt := Some(now))])
    case OpenCase(id, isAnalyst, freeze, kernelUp) =>
      if Opens(s, id, isAnalyst, freeze, kernelUp) then Opened(s, id, freeze) else s
    case MarkStrFiled(id, isCamlco, declared) =>
      if id !in s.rows || s.rows[id].status != IN_CASE || !isCamlco || !declared then s
      else s.(rows := s.rows[id := s.rows[id].(status := STR_FILED)])
    case Close(id, isAnalyst, reasonOk, kernelUp, request, actor, now) =>
      if id !in s.rows || !isAnalyst || !reasonOk then s
      else if s.rows[id].status == IN_CASE then
        s.(requests := Approvals.Step(s.requests, Ask(request, CASE_CLOSE, id, actor, now)))
      else if s.rows[id].status == TRIAGING && Closes(s.rows[id], kernelUp) then Finalized(s, id)
      else s
    case CompleteClose(id, request, kernelUp) =>
      if id !in s.rows || s.rows[id].status != IN_CASE || !Permits(s.requests, request, id) ||
         !Closes(s.rows[id], kernelUp)
      then s
      else Finalized(s, id)
    case Escalate(now) => Escalated(l, s, now)
    case Gateway(op) => s.(requests := Approvals.Step(s.requests, op))
  }

  function Run(l: Limits, s: State, es: seq<Event>): State {
    if es == [] then s else Step(l, Run(l, s, es[..|es| - 1]), es[|es| - 1])
  }

  // ------------------------------------------------------------------ invariants

  predicate RowOk(a: Alert) {
    && (a.status == RAISED || a.status == TRIAGING ==> !a.caseOpened && !a.freezeApplied)
    && (a.status == IN_CASE || a.status == STR_FILED ==> a.caseOpened)
    && (a.caseOpened ==> a.payments != [])
    && (a.status == CLOSED ==> !a.freezeApplied)
    && (a.status == RAISED ==> a.escalations <= 1)
    && a.escalations <= 2
  }

  ghost predicate RowsOk(s: State) {
    && (forall id :: id in s.rows ==> RowOk(s.rows[id]))
    && (forall id :: id in s.order <==> id in s.rows)
    && (forall i, j :: 0 <= i < j < |s.order| ==> s.order[i] != s.order[j])
    && (forall a, b :: a in s.rows && b in s.rows && s.rows[a].key == s.rows[b].key ==> a == b)
  }

  /** Holds placed minus holds released. */
  function Net(holds: seq<Hold>, alert: string, payment: string): int {
    if holds == [] then 0
    else
      var h := holds[|holds| - 1];
      Net(holds[..|holds| - 1], alert, payment) +
      (if h.alert != alert || h.payment != payment then 0 else if h.placed then 1 else -1)
  }

  /** What the row says should be held: every contributing payment, as often as it is listed, while the freeze applies. */
  function Held(rows: Rows, alert: string, payment: string): int {
    if alert in rows && rows[alert].freezeApplied then multiset(rows[alert].payments)[payment] else 0
  }

  ghost predicate HoldsBalance(s: State) {
    forall alert, payment :: Net(s.holds, alert, payment) == Held(s.rows, alert, payment)
  }

  ghost predicate ClosureGranted(requests: Requests, id: string) {
    exists r :: r in requests && requests[r].action == CASE_CLOSE && requests[r].subject == id && FourEyes(requests[r])
  }

  ghost predicate CasesApproved(s: State) {
    Approvals.Sound(s.requests) &&
    forall id :: id in s.rows && s.rows[id].status == CLOSED && s.rows[id].caseOpened ==> ClosureGranted(s.requests, id)
  }

  ghost predicate NoticesMatch(s: State) {
    forall id :: multiset(s.notices)[id] == if id in s.rows then s.rows[id].escalations else 0
  }

  // ------------------------------------------------------------------ rows

  lemma {:induction false} DueIdsAre(rows: Rows, order: seq<string>, status: Status, age: int, already: nat, now: int,
                                     id: string)
    requires forall i, j :: 0 <= i < j < |order| ==> order[i] != order[j]
    ensures multiset(DueIds(rows, order, status, age, already, now))[id] ==
            if id in order && id in rows && Due(rows[id], status, age, already, now) then 1 else 0
    decreases |order|
  {
    if order != [] {
      var rest, last := order[..|order| - 1], order[|order| - 1];
      DueIdsAre(rows, rest, status, age, already, now, id);
      assert order == rest + [last];
      assert last !in rest;
    }
  }

  lemma StageEffect(s: State, status: Status, age: int, already: nat, now: int, id: string)
    requires RowsOk(s) && id in s.rows
    ensures var s' := Stage(s, status, age, already, now);
            var due := Due(s.rows[id], status, age, already, now);
            s'.rows.Keys == s.rows.Keys &&
            s'.rows[id] == s.rows[id].(escalations := s.rows[id].escalations + if due then 1 else 0) &&
            multiset(s'.notices)[id] == multiset(s.notices)[id] + if due then 1 else 0
  {
    var ids := DueIds(s.rows, s.order, status, age, already, now);
    DueIdsAre(s.rows, s.order, status, age, already, now, id);
    assert id in ids <==> multiset(ids)[id] > 0;
    assert multiset(s.notices + ids) == multiset(s.notices) + multiset(ids);
  }

  lemma StageKeepsRows(s: State, status: Status, age: int, already: nat, now: int)
    requires RowsOk(s) && ((status == RAISED && already == 0) || (status == TRIAGING && already == 1))
    ensures RowsOk(Stage(s, status, age, already, now))
  {
    var s' := Stage(s, status, age, already, now);
    forall id | id in s.rows ensures id in s'.rows && RowOk(s'.rows[id]) && s'.rows[id].key == s.rows[id].key {
      StageEffect(s, status, age, already, now, id);
    }
  }

  lemma StageKeepsNotices(s: State, status: Status, age: int, already: nat, now: int)
    requires RowsOk(s) && NoticesMatch(s)
    ensures NoticesMatch(Stage(s, status, age, already, now))
  {
    var s' := Stage(s, status, age, already, now);
    forall id ensures multiset(s'.notices)[id] == if id in s'.rows then s'.rows[id].escalations else 0 {
      if id in s.rows {
        StageEffect(s, status, age, already, now, id);
      } else {
        DueIdsAre(s.rows, s.order, status, age, already, now, id);
        var ids := DueIds(s.rows, s.order, status, age, already, now);
        assert multiset(s.notices + ids) == multiset(s.notices) + multiset(ids);
      }
    }
  }

  lemma UpdateKeepsRows(s: State, s': State, id: string, a: Alert)
    requires RowsOk(s) && id in s.rows && RowOk(a) && a.key == s.rows[id].key
    requires s'.rows == s.rows[id := a] && s'.order == s.order
    ensures RowsOk(s')
  {
  }

  lemma RaiseKeepsRows(l: Limits, s: State, e: Event)
    requires RowsOk(s) && e.Raise?
    ensures RowsOk(Step(l, s, e))
  {
    if !HasKey(s.rows, e.key) && e.id !in s.rows {
      var s' := Step(l, s, e);
      assert s'.order == s.order + [e.id];
      forall a, b | a in s'.rows && b in s'.rows && s'.rows[a].key == s'.rows[b].key ensures a == b {
        assert forall id :: id in s.rows ==> s.rows[id].key != e.key;
      }
    }
  }

  lemma StepKeepsRows(l: Limits, s: State, e: Event)
    requires RowsOk(s)
    ensures RowsOk(Step(l, s, e))
  {
    if e.Raise? {
      RaiseKeepsRows(l, s, e);
    } else if e.Escalate? {
      SweepKeepsRows(l, s, e.now);
    } else if !e.Gateway? && e.id in s.rows {
      var s' := Step(l, s, e);
      assert e.id in s'.rows && RowOk(s.rows[e.id]);
      assert RowOk(s'.rows[e.id]) && s'.rows == s.rows[e.id := s'.rows[e.id]];
      UpdateKeepsRows(s, s', e.id, s'.rows[e.id]);
    }
  }

  lemma SweepKeepsRows(l: Limits, s: State, now: int)
    requires RowsOk(s)
    ensures RowsOk(Escalated(l, s, now))
  {
    StageKeepsRows(s, RAISED, l.raisedAge, 0, now);
    StageKeepsRows(Stage(s, RAISED, l.raisedAge, 0, now), TRIAGING, l.triagingAge, 1, now);
  }

  lemma SweepKeepsNotices(l: Limits, s: State, now: int)
    requires RowsOk(s) && NoticesMatch(s)
    ensures NoticesMatch(Escalated(l, s, now))
  {
    StageKeepsRows(s, RAISED, l.raisedAge, 0, now);
    StageKeepsNotices(s, RAISED, l.raisedAge, 0, now);
    StageKeepsNotices(Stage(s, RAISED, l.raisedAge, 0, now), TRIAGING, l.triagingAge, 1, now);
  }

  lemma MoveKeepsNotices(l: Limits, s: State, e: Event)
    requires NoticesMatch(s) && !e.Escalate?
    ensures NoticesMatch(Step(l, s, e))
  {
  }

  lemma StepKeepsNotices(l: Limits, s: State, e: Event)
    requires RowsOk(s) && NoticesMatch(s)
    ensures NoticesMatch(Step(l, s, e))
  {
    if e.Escalate? {
      SweepKeepsNotices(l, s, e.now);
    } else {
      MoveKeepsNotices(l, s, e);
    }
  }

  // ------------------------------------------------------------------ holds

  lemma {:induction false} NetOfAppend(a: seq<Hold>, b: seq<Hold>, alert: string, payment: string)
    ensures Net(a + b, alert, payment) == Net(a, alert, payment) + Net(b, alert, payment)
    decreases |b|
  {
    if b == [] {
      assert a + b == a;
    } else {
      NetOfAppend(a, b[..|b| - 1], alert, payment);
      assert (a + b)[..|a + b| - 1] == a + b[..|b| - 1];
    }
  }

  function Signed(placed: bool, n: int): int {
    if placed then n else -n
  }

  lemma {:induction false} NetOfHolds(placed: bool, id: string, payments: seq<string>, alert: string, payment: string)
    ensures Net(Holds(placed, id, payments), alert, payment) ==
            if alert == id then Signed(placed, multiset(payments)[payment]) else 0
    decreases |payments|
  {
    if payments != [] {
      var rest, last := payments[..|payments| - 1], payments[|payments| - 1];
      NetOfHolds(placed, id, rest, alert, payment);
      NetOfAppend(Holds(placed, id, rest), [Hold(placed, id, last)], alert, payment);
      assert payments == rest + [last];
      assert [Hold(placed, id, last)][..0] == [];
    }
  }

  lemma OpenedKeepsHolds(s: State, id: string, freeze: bool)
    requires HoldsBalance(s) && id in s.rows && !s.rows[id].freezeApplied
    ensures HoldsBalance(Opened(s, id, freeze))
  {
    var s' := Opened(s, id, freeze);
    forall alert, payment ensures Net(s'.holds, alert, payment) == Held(s'.rows, alert, payment) {
      assert Net(s.holds, alert, payment) == Held(s.rows, alert, payment);
      if freeze {
        NetOfAppend(s.holds, Holds(true, id, s.rows[id].payments), alert, payment);
        NetOfHolds(true, id, s.rows[id].payments, alert, payment);
      }
    }
  }

  lemma FinalizedKeepsHolds(s: State, id: string)
    requires HoldsBalance(s) && id in s.rows
    ensures HoldsBalance(Finalized(s, id))
  {
    var s' := Finalized(s, id);
    forall alert, payment ensures Net(s'.holds, alert, payment) == Held(s'.rows, alert, payment) {
      assert Net(s.holds, alert, payment) == Held(s.rows, alert, payment);
      if s.rows[id].freezeApplied {
        NetOfAppend(s.holds, Holds(false, id, s.rows[id].payments), alert, payment);
        NetOfHolds(false, id, s.rows[id].payments, alert, payment);
      }
    }
  }

  /** A transition that sends no hold and leaves every row's freeze and payments alone. */
  lemma QuietKeepsHolds(s: State, s': State)
    requires HoldsBalance(s) && s'.holds == s.holds
    requires forall id :: id in s.rows ==>
               id in s'.rows && s'.rows[id].freezeApplied == s.rows[id].freezeApplied &&
               s'.rows[id].payments == s.rows[id].payments
    requires forall id :: id in s'.rows && id !in s.rows ==> !s'.rows[id].freezeApplied
    ensures HoldsBalance(s')
  {
    forall alert, payment ensures Net(s'.holds, alert, payment) == Held(s'.rows, alert, payment) {
      assert Net(s.holds, alert, payment) == Held(s.rows, alert, payment);
    }
  }

  lemma StepKeepsHolds(l: Limits, s: State, e: Event)
    requires RowsOk(s) && HoldsBalance(s)
    ensures HoldsBalance(Step(l, s, e))
  {
    var s' := Step(l, s, e);
    if e.OpenCase? && Opens(s, e.id, e.isAnalyst, e.freeze, e.kernelUp) {
      OpenedKeepsHolds(s, e.id, e.freeze);
    } else if (e.Close? || e.CompleteClose?) && e.id in s.rows && s' == Finalized(s, e.id) {
      FinalizedKeepsHolds(s, e.id);
    } else {
      assert s'.holds == s.holds;
      forall id | id in s.rows
        ensures id in s'.rows && s'.rows[id].freezeApplied == s.rows[id].freezeApplied &&
                s'.rows[id].payments == s.rows[id].payments
      {
        if e.Escalate? {
          EscalationKeepsRows(l, s, e.now, id);
        }
      }
      QuietKeepsHolds(s, s');
    }
  }

  // ------------------------------------------------------------------ approvals

  lemma GatewayKeepsClosures(requests: Requests, op: Approvals.Op, id: string)
    requires ClosureGranted(requests, id)
    ensures ClosureGranted(Approvals.Step(requests, op), id)
  {
    var r :| r in requests && requests[r].action == CASE_CLOSE && requests[r].subject == id && FourEyes(requests[r]);
    StepCarries(requests, op, r);
  }

  lemma GatewayKeepsCases(s: State, op: Approvals.Op)
    requires CasesApproved(s)
    ensures CasesApproved(s.(requests := Approvals.Step(s.requests, op)))
  {
    StepKeepsSound(s.requests, op);
    forall id | id in s.rows && s.rows[id].status == CLOSED && s.rows[id].caseOpened
      ensures ClosureGranted(Approvals.Step(s.requests, op), id)
    {
      GatewayKeepsClosures(s.requests, op, id);
    }
  }

  lemma EscalationKeepsRows(l: Limits, s: State, now: int, id: string)
    requires RowsOk(s) && id in s.rows
    ensures id in Escalated(l, s, now).rows &&
            Escalated(l, s, now).rows[id] == s.rows[id].(escalations := Escalated(l, s, now).rows[id].escalations)
  {
    StageEffect(s, RAISED, l.raisedAge, 0, now, id);
    StageKeepsRows(s, RAISED, l.raisedAge, 0, now);
    StageEffect(Stage(s, RAISED, l.raisedAge, 0, now), TRIAGING, l.triagingAge, 1, now, id);
  }

  lemma StepKeepsCases(l: Limits, s: State, e: Event)
    requires RowsOk(s) && CasesApproved(s)
    ensures CasesApproved(Step(l, s, e))
  {
    match e
    case Gateway(op) => GatewayKeepsCases(s, op);
    case Close(id, _, _, _, request, actor, now) => GatewayKeepsCases(s, Ask(request, CASE_CLOSE, id, actor, now));
    case Escalate(now) =>
      forall id | id in s.rows
        ensures id in Escalated(l, s, now).rows &&
                Escalated(l, s, now).rows[id].status == s.rows[id].status &&
                Escalated(l, s, now).rows[id].caseOpened == s.rows[id].caseOpened
      {
        EscalationKeepsRows(l, s, now, id);
      }
    case CompleteClose(id, request, _) =>
      if Permits(s.requests, request, id) {
        assert FourEyes(s.requests[request]);
        assert ClosureGranted(s.requests, id);
      }
    case _ =>
  }

  // ------------------------------------------------------------------ over every run

  ghost predicate Inv(s: State) {
    RowsOk(s) && HoldsBalance(s) && CasesApproved(s) && NoticesMatch(s)
  }

  lemma StepKeepsInv(l: Limits, s: State, e: Event)
    requires Inv(s)
    ensures Inv(Step(l, s, e))
  {
    StepKeepsRows(l, s, e);
    StepKeepsHolds(l, s, e);
    StepKeepsCases(l, s, e);
    StepKeepsNotices(l, s, e);
  }

  lemma {:induction false} RunKeepsInv(l: Limits, es: seq<Event>)
    ensures Inv(Run(l, EMPTY, es))
    decreases |es|
  {
    if es != [] {
      var rest := es[..|es| - 1];
      RunKeepsInv(l, rest);
      StepKeepsInv(l, Run(l, EMPTY, rest), es[|es| - 1]);
    }
  }

  /** Holds conserve: placed minus released is the payment's multiplicity while the freeze applies and nothing otherwise. */
  lemma EveryRunConservesHolds(l: Limits, es: seq<Event>, alert: string, payment: string)
    ensures var s := Run(l, EMPTY, es);
            Net(s.holds, alert, payment) ==
            (if alert in s.rows && s.rows[alert].freezeApplied then multiset(s.rows[alert].payments)[payment] else 0)
  {
    RunKeepsInv(l, es);
    var s := Run(l, EMPTY, es);
    assert Net(s.holds, alert, payment) == Held(s.rows, alert, payment);
  }

  /** Nobody closes a case alone: it was granted, for this very alert, by someone other than the one who asked. */
  lemma EveryClosedCaseHadTwoPeople(l: Limits, es: seq<Event>, id: string)
    requires var s := Run(l, EMPTY, es); id in s.rows && s.rows[id].status == CLOSED && s.rows[id].caseOpened
    ensures exists r :: r in Run(l, EMPTY, es).requests &&
                        var q := Run(l, EMPTY, es).requests[r];
                        q.action == CASE_CLOSE && q.subject == id && Granted(q.state) && q.approver.Some? &&
                        q.approver.value != q.initiator
  {
    RunKeepsInv(l, es);
    var s := Run(l, EMPTY, es);
    assert ClosureGranted(s.requests, id);
    var r :| r in s.requests && s.requests[r].action == CASE_CLOSE && s.requests[r].subject == id && FourEyes(s.requests[r]);
    var q := s.requests[r];
  }

  /** No alert is ever notified more than twice, nor more than once before triage. */
  lemma EveryAlertIsNotifiedTwiceAtMost(l: Limits, es: seq<Event>, id: string)
    ensures multiset(Run(l, EMPTY, es).notices)[id] <= 2
    ensures var s := Run(l, EMPTY, es); id in s.rows && s.rows[id].status == RAISED ==> multiset(s.notices)[id] <= 1
  {
    RunKeepsInv(l, es);
  }

  /** One alert per rule, subject and window, however often the trigger is replayed. */
  lemma ReplayRaisesNothing(l: Limits, es: seq<Event>, again: Event)
    requires again.Raise? && HasKey(Run(l, EMPTY, es).rows, again.key)
    ensures Run(l, EMPTY, es + [again]) == Run(l, EMPTY, es)
    ensures var rows := Run(l, EMPTY, es).rows;
            forall a, b :: a in rows && b in rows && rows[a].key == rows[b].key ==> a == b
  {
    RunKeepsInv(l, es);
    assert (es + [again])[..|es|] == es;
  }

  /** A filed or closed alert never changes again; a filed one keeps its freeze and all its holds. */
  lemma {:induction false} TerminalIsForever(l: Limits, s: State, es: seq<Event>, id: string)
    requires Inv(s) && id in s.rows && (s.rows[id].status == STR_FILED || s.rows[id].status == CLOSED)
    ensures var t := Run(l, s, es);
            Inv(t) && id in t.rows && t.rows[id] == s.rows[id] &&
            forall payment :: Net(t.holds, id, payment) == Net(s.holds, id, payment)
    decreases |es|
  {
    if es != [] {
      var rest := es[..|es| - 1];
      TerminalIsForever(l, s, rest, id);
      var before, e := Run(l, s, rest), es[|es| - 1];
      StepKeepsInv(l, before, e);
      TerminalStep(l, before, e, id);
      var t := Run(l, s, es);
      forall payment ensures Net(t.holds, id, payment) == Net(s.holds, id, payment) {
        assert Net(t.holds, id, payment) == Held(t.rows, id, payment);
        assert Net(s.holds, id, payment) == Held(s.rows, id, payment);
      }
    }
  }

  predicate Finished(a: Alert) {
    a.status == STR_FILED || a.status == CLOSED
  }

  lemma MoveLeavesFinished(l: Limits, s: State, e: Event, id: string)
    requires id in s.rows && Finished(s.rows[id]) && !e.Escalate?
    ensures id in Step(l, s, e).rows && Step(l, s, e).rows[id] == s.rows[id]
  {
  }

  lemma StageLeavesFinished(s: State, status: Status, age: int, already: nat, now: int, id: string)
    requires RowsOk(s) && id in s.rows && Finished(s.rows[id]) && (status == RAISED || status == TRIAGING)
    ensures id in Stage(s, status, age, already, now).rows && Stage(s, status, age, already, now).rows[id] == s.rows[id]
  {
    StageEffect(s, status, age, already, now, id);
  }

  lemma TerminalStep(l: Limits, s: State, e: Event, id: string)
    requires RowsOk(s) && id in s.rows && Finished(s.rows[id])
    ensures id in Step(l, s, e).rows && Step(l, s, e).rows[id] == s.rows[id]
  {
    if e.Escalate? {
      StageLeavesFinished(s, RAISED, l.raisedAge, 0, e.now, id);
      StageKeepsRows(s, RAISED, l.raisedAge, 0, e.now);
      StageLeavesFinished(Stage(s, RAISED, l.raisedAge, 0, e.now), TRIAGING, l.triagingAge, 1, e.now, id);
    } else {
      MoveLeavesFinished(l, s, e, id);
    }
  }

  /** The transition table with its guards. */
  predicate Legal(s: State, e: Event, id: string, to: Status)
    requires id in s.rows
  {
    var a := s.rows[id];
    match to
    case RAISED => false
    case TRIAGING => a.status == RAISED && e.Triage? && e.id == id && e.isAnalyst
    case IN_CASE =>
      a.status == TRIAGING && e.OpenCase? && e.id == id && e.isAnalyst && a.payments != [] && (e.freeze ==> e.kernelUp)
    case STR_FILED => a.status == IN_CASE && e.MarkStrFiled? && e.id == id && e.isCamlco && e.declared
    case CLOSED =>
      || (a.status == TRIAGING && e.Close? && e.id == id && e.isAnalyst && e.reasonOk)
      || (a.status == IN_CASE && e.CompleteClose? && e.id == id && (a.freezeApplied ==> e.kernelUp)
          && e.request in s.requests && s.requests[e.request].state == APPROVED
          && s.requests[e.request].subject == id && s.requests[e.request].action == "aml_case_close")
  }

  /** An alert changes status exactly by the table: right state, right operation, right role, guards met. */
  lemma EveryMoveIsLegal(l: Limits, s: State, e: Event, id: string)
    requires RowsOk(s) && id in s.rows
    ensures id in Step(l, s, e).rows
    ensures forall to :: to != s.rows[id].status ==> (Step(l, s, e).rows[id].status == to <==> Legal(s, e, id, to))
  {
    if e.Escalate? {
      EscalationKeepsRows(l, s, e.now, id);
    }
  }

  /** What an alert is about is never changed; it is dated by its triage, and freezes from the opening of a case with a freeze to
      its closing. */
  lemma AlertsCarry(l: Limits, s: State, e: Event, id: string)
    requires RowsOk(s) && id in s.rows
    ensures id in Step(l, s, e).rows
    ensures var a, b := s.rows[id], Step(l, s, e).rows[id];
            && b.key == a.key && b.subject == a.subject && b.payments == a.payments && b.raisedAt == a.raisedAt
            && b.triagedAt == (if Legal(s, e, id, TRIAGING) then Some(e.now) else a.triagedAt)
            && (!e.Escalate? ==> b.escalations == a.escalations)
  {
    if e.Escalate? {
      EscalationKeepsRows(l, s, e.now, id);
    }
  }

  lemma CasesCarry(l: Limits, s: State, e: Event, id: string)
    requires RowsOk(s) && id in s.rows
    ensures id in Step(l, s, e).rows
    ensures var a, b := s.rows[id], Step(l, s, e).rows[id];
            && b.caseOpened == (a.caseOpened || Legal(s, e, id, IN_CASE))
            && b.freezeApplied == if Legal(s, e, id, IN_CASE) then e.freeze else a.freezeApplied && !Legal(s, e, id, CLOSED)
  {
    if e.Escalate? {
      EscalationKeepsRows(l, s, e.now, id);
    } else {
      CasesOpenCarry(l, s, e, id);
      FreezesCarry(l, s, e, id);
    }
  }

  lemma CasesOpenCarry(l: Limits, s: State, e: Event, id: string)
    requires RowsOk(s) && id in s.rows && !e.Escalate?
    ensures id in Step(l, s, e).rows && Step(l, s, e).rows[id].caseOpened == (s.rows[id].caseOpened || Legal(s, e, id, IN_CASE))
  {
  }

  lemma FreezesCarry(l: Limits, s: State, e: Event, id: string)
    requires RowsOk(s) && id in s.rows && !e.Escalate?
    ensures id in Step(l, s, e).rows
    ensures Step(l, s, e).rows[id].freezeApplied ==
            if Legal(s, e, id, IN_CASE) then e.freeze else s.rows[id].freezeApplied && !Legal(s, e, id, CLOSED)
  {
  }

  /** An alert appears exactly when its trigger is new: raised at that time, with nothing done about it yet. */
  lemma AlertsAppearExactly(l: Limits, s: State, e: Event, id: string)
    requires id !in s.rows
    ensures id in Step(l, s, e).rows <==>
            e.Raise? && e.id == id && forall other :: other in s.rows ==> s.rows[other].key != e.key
    ensures id in Step(l, s, e).rows ==>
              Step(l, s, e).rows[id] == Alert(e.key, e.subject, e.payments, RAISED, e.now, None, false, false, 0)
  {
    if e.Escalate? {
      StageKeys(s, RAISED, l.raisedAge, 0, e.now);
      StageKeys(Stage(s, RAISED, l.raisedAge, 0, e.now), TRIAGING, l.triagingAge, 1, e.now);
    }
  }

  lemma StageKeys(s: State, status: Status, age: int, already: nat, now: int)
    ensures Stage(s, status, age, already, now).rows.Keys == s.rows.Keys
  {
  }

  /** A subject becomes frozen exactly when a case on it is opened with a freeze, and is thawed exactly when a case that froze it
      is closed. */
  lemma FrozenExactly(l: Limits, s: State, e: Event, subject: string)
    requires RowsOk(s)
    ensures subject in Step(l, s, e).frozen <==>
            || (e.OpenCase? && e.id in s.rows && s.rows[e.id].subject == subject && e.freeze && Legal(s, e, e.id, IN_CASE))
            || (subject in s.frozen &&
                !((e.Close? || e.CompleteClose?) && e.id in s.rows && s.rows[e.id].subject == subject &&
                  s.rows[e.id].freezeApplied && Legal(s, e, e.id, CLOSED)))
  {
  }

  /** Closing a case only asks for its approval; nothing else but the gateway itself touches the requests. */
  lemma RequestsFollow(l: Limits, s: State, e: Event)
    ensures Step(l, s, e).requests ==
            if e.Gateway? then Approvals.Step(s.requests, e.op)
            else if e.Close? && e.id in s.rows && e.isAnalyst && e.reasonOk && s.rows[e.id].status == IN_CASE
            then Approvals.Step(s.requests, Ask(e.request, "aml_case_close", e.id, e.actor, e.now))
            else s.requests
  {
  }

  /** When an alert was raised and when it was triaged, from the run. */
  function RaisedAt(l: Limits, es: seq<Event>, id: string): Option<int>
    decreases |es|
  {
    if es == [] then None
    else
      var p, e := es[..|es| - 1], es[|es| - 1];
      if id !in Run(l, EMPTY, p).rows && id in Run(l, EMPTY, es).rows && e.Raise? then Some(e.now) else RaisedAt(l, p, id)
  }

  function TriagedAt(l: Limits, es: seq<Event>, id: string): Option<int>
    decreases |es|
  {
    if es == [] then None
    else
      var p, e := es[..|es| - 1], es[|es| - 1];
      var s := Run(l, EMPTY, p);
      if id in s.rows && s.rows[id].status == RAISED && e.Triage? && e.id == id && e.isAnalyst then Some(e.now)
      else TriagedAt(l, p, id)
  }

  /** Over every run an alert carries the time at which it was raised and the time at which it was triaged. */
  lemma {:induction false} EveryAlertIsDated(l: Limits, es: seq<Event>, id: string)
    ensures var s := Run(l, EMPTY, es);
            id in s.rows ==> RaisedAt(l, es, id) == Some(s.rows[id].raisedAt) && TriagedAt(l, es, id) == s.rows[id].triagedAt
    ensures id !in Run(l, EMPTY, es).rows ==> TriagedAt(l, es, id) == None
    decreases |es|
  {
    if es != [] {
      var p, e := es[..|es| - 1], es[|es| - 1];
      EveryAlertIsDated(l, p, id);
      RunKeepsInv(l, p);
      if id in Run(l, EMPTY, p).rows {
        AlertsCarry(l, Run(l, EMPTY, p), e, id);
      } else {
        AlertsAppearExactly(l, Run(l, EMPTY, p), e, id);
      }
    }
  }

  /** A sweep notifies exactly the alerts overdue in their stage and not yet notified for it, once each. */
  lemma SweepNotifiesExactlyTheOverdue(l: Limits, s: State, now: int, id: string)
    requires RowsOk(s) && id in s.rows
    ensures var a := s.rows[id];
            var overdue := (a.status == RAISED && now - a.raisedAt > l.raisedAge && a.escalations == 0) ||
                           (a.status == TRIAGING && a.triagedAt.Some? && now - a.triagedAt.value > l.triagingAge &&
                            a.escalations <= 1);
            multiset(Escalated(l, s, now).notices)[id] == multiset(s.notices)[id] + if overdue then 1 else 0
  {
    StageEffect(s, RAISED, l.raisedAge, 0, now, id);
    StageKeepsRows(s, RAISED, l.raisedAge, 0, now);
    StageEffect(Stage(s, RAISED, l.raisedAge, 0, now), TRIAGING, l.triagingAge, 1, now, id);
  }

  // ------------------------------------------------------------------ what does not hold, and exactly when it does

  /**
   Two overdue sweeps bring any alert in triage to two notices. So triage sends a single notice exactly when one was sent
   before triage began; an alert triaged early is notified twice for the same stage.
   */
  lemma TriageNotifiesOnceExactlyAfterAnEarlierNotice(l: Limits, s: State, id: string, now: int, later: int)
    requires RowsOk(s) && NoticesMatch(s) && id in s.rows && s.rows[id].status == TRIAGING && s.rows[id].triagedAt.Some?
    requires now - s.rows[id].triagedAt.value > l.triagingAge && later >= now
    ensures var t := Escalated(l, Escalated(l, s, now), later);
            id in t.rows && t.rows[id].escalations == 2 &&
            (multiset(t.notices)[id] - multiset(s.notices)[id] <= 1 <==> multiset(s.notices)[id] >= 1)
  {
    TriageSweep(l, s, id, now);
    var m := Escalated(l, s, now);
    SweepKeepsMatch(l, s, now);
    TriageSweep(l, m, id, later);
    SweepKeepsMatch(l, m, later);
    var t := Escalated(l, m, later);
    assert multiset(t.notices)[id] == 2 && multiset(s.notices)[id] == s.rows[id].escalations;
  }

  lemma SweepKeepsMatch(l: Limits, s: State, now: int)
    requires RowsOk(s) && NoticesMatch(s)
    ensures RowsOk(Escalated(l, s, now)) && NoticesMatch(Escalated(l, s, now))
  {
    SweepKeepsRows(l, s, now);
    SweepKeepsNotices(l, s, now);
  }

  lemma TriageSweep(l: Limits, s: State, id: string, now: int)
    requires RowsOk(s) && id in s.rows && s.rows[id].status == TRIAGING && s.rows[id].triagedAt.Some?
    requires now - s.rows[id].triagedAt.value > l.triagingAge
    ensures var t := Escalated(l, s, now);
            id in t.rows && t.rows[id] == s.rows[id].(escalations := Min(2, s.rows[id].escalations + 1))
  {
    StageEffect(s, RAISED, l.raisedAge, 0, now, id);
    StageKeepsRows(s, RAISED, l.raisedAge, 0, now);
    StageEffect(Stage(s, RAISED, l.raisedAge, 0, now), TRIAGING, l.triagingAge, 1, now, id);
  }

  /** Every subject of an alert whose freeze applies is frozen. */
  ghost predicate Covered(s: State) {
    forall id :: id in s.rows && s.rows[id].freezeApplied ==> s.rows[id].subject in s.frozen
  }

  ghost predicate SharesFreeze(s: State, id: string)
    requires id in s.rows
  {
    exists other :: other in s.rows && other != id && s.rows[other].freezeApplied && s.rows[other].subject == s.rows[id].subject
  }

  /** Closing a freezing case thaws the whole subject: others keep theirs frozen exactly when none shares the subject. */
  lemma ClosingKeepsCoverExactlyWhenAlone(s: State, id: string)
    requires Covered(s) && id in s.rows && s.rows[id].freezeApplied
    ensures Covered(Finalized(s, id)) <==> !SharesFreeze(s, id)
  {
    var t := Finalized(s, id);
    if SharesFreeze(s, id) {
      var other :| other in s.rows && other != id && s.rows[other].freezeApplied &&
                   s.rows[other].subject == s.rows[id].subject;
      assert other in t.rows && t.rows[other] == s.rows[other];
    } else {
      forall other | other in t.rows && t.rows[other].freezeApplied ensures t.rows[other].subject in t.frozen {
        assert other != id && t.rows[other] == s.rows[other];
      }
    }
  }

  /** Nothing else disturbs the cover: every step but such a closure keeps it. */
  lemma OtherStepsKeepCover(l: Limits, s: State, e: Event)
    requires RowsOk(s) && Covered(s)
    requires !(e.Close? || e.CompleteClose?) || e.id !in s.rows || !s.rows[e.id].freezeApplied
    ensures Covered(Step(l, s, e))
  {
    if e.Escalate? {
      forall id | id in s.rows
        ensures id in Escalated(l, s, e.now).rows &&
                Escalated(l, s, e.now).rows[id].freezeApplied == s.rows[id].freezeApplied &&
                Escalated(l, s, e.now).rows[id].subject == s.rows[id].subject
      {
        EscalationKeepsRows(l, s, e.now, id);
      }
    }
  }

  /** This step closes a case whose freeze another alert on the same subject still relies on. */
  ghost predicate ThawsShared(s: State, e: Event) {
    && e.CompleteClose? && e.id in s.rows && s.rows[e.id].status == IN_CASE && s.rows[e.id].freezeApplied
    && Permits(s.requests, e.request, e.id) && e.kernelUp && SharesFreeze(s, e.id)
  }

  lemma StepKeepsCoverExactly(l: Limits, s: State, e: Event)
    requires RowsOk(s) && Covered(s)
    ensures Covered(Step(l, s, e)) <==> !ThawsShared(s, e)
  {
    if (e.Close? || e.CompleteClose?) && e.id in s.rows && s.rows[e.id].freezeApplied {
      if Step(l, s, e).rows != s.rows {
        ClosingKeepsCoverExactlyWhenAlone(s, e.id);
      }
    } else {
      OtherStepsKeepCover(l, s, e);
    }
  }

  ghost predicate AlwaysCovered(l: Limits, es: seq<Event>) {
    es == [] || (AlwaysCovered(l, es[..|es| - 1]) && Covered(Run(l, EMPTY, es)))
  }

  ghost predicate NeverThawsShared(l: Limits, es: seq<Event>) {
    es == [] || (NeverThawsShared(l, es[..|es| - 1]) && !ThawsShared(Run(l, EMPTY, es[..|es| - 1]), es[|es| - 1]))
  }

  /** Over a whole run a subject stays frozen for every alert that relies on it exactly when no case is closed whose freeze is
      shared. */
  lemma {:induction false} CoverHoldsExactlyWithoutASharedThaw(l: Limits, es: seq<Event>)
    ensures AlwaysCovered(l, es) <==> NeverThawsShared(l, es)
    decreases |es|
  {
    if es != [] {
      var p := es[..|es| - 1];
      CoverHoldsExactlyWithoutASharedThaw(l, p);
      RunKeepsInv(l, p);
      if AlwaysCovered(l, p) {
        assert Covered(Run(l, EMPTY, p));
        StepKeepsCoverExactly(l, Run(l, EMPTY, p), es[|es| - 1]);
      }
    }
  }

  // ------------------------------------------------------------------ two runs

  lemma RunPush(l: Limits, es: seq<Event>, e: Event)
    ensures Run(l, EMPTY, es + [e]) == Step(l, Run(l, EMPTY, es), e)
  {
    PushLast(es, e);
  }

  /** Triaged at time 0 and notified n times. */
  ghost predicate InTriage(s: State, id: string, n: nat) {
    && RowsOk(s) && NoticesMatch(s) && id in s.rows && s.rows[id].status == TRIAGING && s.rows[id].triagedAt == Some(0)
    && s.rows[id].escalations == n && multiset(s.notices)[id] == n
  }

  lemma TriagedAtOnce(l: Limits, id: string, key: string, subject: string, payments: seq<string>)
    ensures InTriage(Run(l, EMPTY, [Raise(id, key, subject, payments, 0)] + [Triage(id, true, 0)]), id, 0)
  {
    var raise, triage := Raise(id, key, subject, payments, 0), Triage(id, true, 0);
    assert [] + [raise] == [raise];
    RunPush(l, [], raise);
    RunPush(l, [raise], triage);
    RunKeepsInv(l, [raise] + [triage]);
  }

  lemma SweepInTriage(l: Limits, s: State, id: string, n: nat, now: int)
    requires InTriage(s, id, n) && n <= 1 && now > l.triagingAge
    ensures InTriage(Escalated(l, s, now), id, n + 1)
  {
    TriageSweep(l, s, id, now);
    SweepKeepsMatch(l, s, now);
    var t := Escalated(l, s, now);
    assert t.rows[id].escalations == n + 1;
    assert multiset(t.notices)[id] == n + 1;
  }

  lemma StepSweeps(l: Limits, s: State, now: int)
    ensures Step(l, s, Escalate(now)) == Escalated(l, s, now)
  {
  }

  lemma RunSweeps(l: Limits, es: seq<Event>, now: int)
    ensures Run(l, EMPTY, es + [Escalate(now)]) == Escalated(l, Run(l, EMPTY, es), now)
  {
    RunPush(l, es, Escalate(now));
    StepSweeps(l, Run(l, EMPTY, es), now);
  }

  lemma SweepNotifiesTriaged(l: Limits, es: seq<Event>, id: string, n: nat, now: int)
    requires InTriage(Run(l, EMPTY, es), id, n) && n <= 1 && now > l.triagingAge
    ensures InTriage(Run(l, EMPTY, es + [Escalate(now)]), id, n + 1)
  {
    RunSweeps(l, es, now);
    SweepInTriage(l, Run(l, EMPTY, es), id, n, now);
  }

  /** An alert triaged at once and left there: the second overdue sweep notifies it again for the same stage. */
  lemma TriagedEarlyIsNotifiedTwice(l: Limits, id: string, key: string, subject: string, payments: seq<string>)
    ensures var es := [Raise(id, key, subject, payments, 0)] + [Triage(id, true, 0)];
            var once := es + [Escalate(l.triagingAge + 1)];
            && InTriage(Run(l, EMPTY, es), id, 0) && InTriage(Run(l, EMPTY, once), id, 1)
            && InTriage(Run(l, EMPTY, once + [Escalate(l.triagingAge + 2)]), id, 2)
  {
    var es := [Raise(id, key, subject, payments, 0)] + [Triage(id, true, 0)];
    TriagedAtOnce(l, id, key, subject, payments);
    SweepNotifiesTriaged(l, es, id, 0, l.triagingAge + 1);
    SweepNotifiesTriaged(l, es + [Escalate(l.triagingAge + 1)], id, 1, l.triagingAge + 2);
  }

  const FIRST := Alert("k1", "subject", ["p"], RAISED, 0, None, false, false, 0)
  const SECOND := Alert("k2", "subject", ["q"], RAISED, 0, None, false, false, 0)

  function InCase(a: Alert): Alert {
    a.(status := IN_CASE, triagedAt := Some(0), caseOpened := true, freezeApplied := true)
  }

  const RAISING: seq<Event> := [Raise("a", "k1", "subject", ["p"], 0), Raise("b", "k2", "subject", ["q"], 0)]
  const OPENING: seq<Event> :=
    RAISING + [Triage("a", true, 0)] + [OpenCase("a", true, true, true)] + [Triage("b", true, 0)] + [OpenCase("b", true, true, true)]
  const BOTH_OPEN := State(map["a" := InCase(FIRST), "b" := InCase(SECOND)], ["a", "b"], map[], {"subject"},
                           [Hold(true, "a", "p"), Hold(true, "b", "q")], [])

  lemma BothRaised(l: Limits)
    ensures Run(l, EMPTY, RAISING) == State(map["a" := FIRST, "b" := SECOND], ["a", "b"], map[], {}, [], [])
  {
    RunPush(l, [], RAISING[0]);
    RunPush(l, [RAISING[0]], RAISING[1]);
    assert [] + [RAISING[0]] == [RAISING[0]] && [RAISING[0]] + [RAISING[1]] == RAISING;
  }

  lemma OneOpened(l: Limits, s: State, id: string, payment: string)
    requires id in s.rows && s.rows[id].status == RAISED && s.rows[id].payments == [payment]
    ensures var t := Step(l, Step(l, s, Triage(id, true, 0)), OpenCase(id, true, true, true));
            t == s.(rows := s.rows[id := InCase(s.rows[id])], frozen := s.frozen + {s.rows[id].subject},
                    holds := s.holds + [Hold(true, id, payment)])
  {
    assert Holds(true, id, [payment]) == [Hold(true, id, payment)] by {
      assert [payment][..0] == [];
    }
  }

  lemma BothOpened(l: Limits)
    ensures Run(l, EMPTY, OPENING) == BOTH_OPEN
  {
    BothRaised(l);
    var one := RAISING + [Triage("a", true, 0)];
    var two := one + [OpenCase("a", true, true, true)];
    var three := two + [Triage("b", true, 0)];
    RunPush(l, RAISING, Triage("a", true, 0));
    RunPush(l, one, OpenCase("a", true, true, true));
    RunPush(l, two, Triage("b", true, 0));
    RunPush(l, three, OpenCase("b", true, true, true));
    OneOpened(l, Run(l, EMPTY, RAISING), "a", "p");
    OneOpened(l, Run(l, EMPTY, two), "b", "q");
    assert {} + {"subject"} + {"subject"} == {"subject"};
  }

  lemma FirstClosed(l: Limits)
    ensures var s1 := Step(l, BOTH_OPEN, Close("a", true, true, true, "r", "maker", 0));
            var s2 := Step(l, s1, Gateway(Approve("r", "checker", 1)));
            var t := Step(l, s2, CompleteClose("a", "r", true));
            "b" in t.rows && t.rows["b"] == InCase(SECOND) && t.frozen == {}
  {
    var r := Request(CASE_CLOSE, "a", "maker", None, PENDING_SECOND_APPROVER, TTL_HOURS * 3600);
    var s1 := BOTH_OPEN.(requests := map["r" := r]);
    assert Step(l, BOTH_OPEN, Close("a", true, true, true, "r", "maker", 0)) == s1;
    var s2 := BOTH_OPEN.(requests := map["r" := r.(state := APPROVED, approver := Some("checker"))]);
    assert Step(l, s1, Gateway(Approve("r", "checker", 1))) == s2;
    assert Permits(s2.requests, "r", "a");
  }

  /** Two freezing cases on one subject, one of them closed by two people: the other still relies on the freeze and its subject
      is thawed. */
  lemma ClosingOneCaseThawsTheOther(l: Limits)
    ensures var es := OPENING + [Close("a", true, true, true, "r", "maker", 0)] + [Gateway(Approve("r", "checker", 1))]
                      + [CompleteClose("a", "r", true)];
            var t := Run(l, EMPTY, es);
            "b" in t.rows && t.rows["b"].status == IN_CASE && t.rows["b"].freezeApplied && t.rows["b"].subject !in t.frozen
  {
    var one := OPENING + [Close("a", true, true, true, "r", "maker", 0)];
    var two := one + [Gateway(Approve("r", "checker", 1))];
    BothOpened(l);
    RunPush(l, OPENING, Close("a", true, true, true, "r", "maker", 0));
    RunPush(l, one, Gateway(Approve("r", "checker", 1)));
    RunPush(l, two, CompleteClose("a", "r", true));
    FirstClosed(l);
  }
}

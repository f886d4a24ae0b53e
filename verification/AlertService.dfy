/** The alert service as an object: each operation is one step of `Alerts.Step`. */
module AlertService {
  import opened Common
  import opened Alerts
  import Approvals

  /** One hold event per contributing payment, in order. */
  method SendHolds(sent: seq<Hold>, placed: bool, alert: string, payments: seq<string>) returns (holds: seq<Hold>)
    ensures holds == sent + Holds(placed, alert, payments)
  {
    holds := sent;
    var i := 0;
    while i < |payments|
      invariant 0 <= i <= |payments|
      invariant holds == sent + Holds(placed, alert, payments[..i])
    {
      assert payments[..i + 1][..i] == payments[..i];
      holds := holds + [Hold(placed, alert, payments[i])];
      i := i + 1;
    }
    assert payments[..i] == payments;
  }

  lemma DueIdsWithin(rows: Rows, order: seq<string>, status: Status, age: int, already: nat, now: int, id: string)
    requires Distinct(order)
    ensures id in DueIds(rows, order, status, age, already, now) <==>
            id in order && id in rows && Due(rows[id], status, age, already, now)
  {
    DueIdsAre(rows, order, status, age, already, now, id);
    var ids := DueIds(rows, order, status, age, already, now);
    assert id in ids <==> multiset(ids)[id] > 0;
  }

  lemma NotYetDue(rows: Rows, order: seq<string>, i: nat, status: Status, age: int, already: nat, now: int)
    requires Distinct(order) && i < |order|
    ensures order[i] !in DueIds(rows, order[..i], status, age, already, now)
  {
    DueIdsWithin(rows, order[..i], status, age, already, now, order[i]);
    assert order[i] !in order[..i];
  }

  lemma BumpedNone(rows: Rows)
    ensures Bumped(rows, []) == rows
  {
  }

  lemma BumpedNext(rows: Rows, ids: seq<string>, id: string)
    requires id in rows && id !in ids
    ensures Bumped(rows, ids + [id]) == Bumped(rows, ids)[id := rows[id].(escalations := rows[id].escalations + 1)]
  {
  }

  /** The key index and the creation order agree with the rows. */
  ghost predicate Indexed(rows: Rows, order: seq<string>, byKey: map<string, string>) {
    && Distinct(order) && (forall id :: id in order <==> id in rows)
    && (forall id :: id in rows ==> rows[id].key in byKey && byKey[rows[id].key] == id)
    && (forall key :: key in byKey ==> byKey[key] in rows && rows[byKey[key]].key == key)
  }

  lemma SaveKeepsIndex(rows: Rows, order: seq<string>, byKey: map<string, string>, id: string, alert: Alert)
    requires Indexed(rows, order, byKey) && id in rows && alert.key == rows[id].key
    ensures Indexed(rows[id := alert], order, byKey)
  {
  }

  lemma InsertKeepsIndex(rows: Rows, order: seq<string>, byKey: map<string, string>, id: string, alert: Alert)
    requires Indexed(rows, order, byKey) && id !in rows && alert.key !in byKey
    ensures Indexed(rows[id := alert], order + [id], byKey[alert.key := id])
  {
  }

  lemma BumpKeepsIndex(rows: Rows, order: seq<string>, byKey: map<string, string>, ids: seq<string>)
    requires Indexed(rows, order, byKey)
    ensures Indexed(Bumped(rows, ids), order, byKey)
  {
    var saved := Bumped(rows, ids);
    assert forall id :: id in rows ==> id in saved && saved[id].key == rows[id].key;
  }

  lemma KeyTaken(rows: Rows, order: seq<string>, byKey: map<string, string>, key: string)
    requires Indexed(rows, order, byKey)
    ensures HasKey(rows, key) <==> key in byKey
  {
    if key in byKey {
      assert rows[byKey[key]].key == key;
    }
  }

  // ------------------------------------------------------------------ what the caller is told

  datatype Why =
    NotFound | WrongState | WrongRole | NoPayments | KernelFailed | NoDeclaration | NoReason | AlreadyAsked | NotApproved | OtherMatter

  datatype Told = Done | Asked | Refused(why: Why)

  /** An operation by a person on one alert. */
  predicate OnAlert(e: Event) {
    e.Triage? || e.OpenCase? || e.MarkStrFiled? || e.Close? || e.CompleteClose?
  }

  function Reply(s: State, e: Event): Told
    requires OnAlert(e)
  {
    if e.id !in s.rows then Refused(NotFound)
    else
      var a := s.rows[e.id];
      match e
      case Triage(_, isAnalyst, _) =>
        if a.status != RAISED then Refused(WrongState) else if !isAnalyst then Refused(WrongRole) else Done
      case OpenCase(_, isAnalyst, freeze, kernelUp) =>
        if a.status != TRIAGING then Refused(WrongState)
        else if !isAnalyst then Refused(WrongRole)
        else if a.payments == [] then Refused(NoPayments)
        else if freeze && !kernelUp then Refused(KernelFailed) else Done
      case MarkStrFiled(_, isCamlco, declared) =>
        if a.status != IN_CASE then Refused(WrongState)
        else if !isCamlco then Refused(WrongRole)
        else if !declared then Refused(NoDeclaration) else Done
      case Close(id, isAnalyst, reasonOk, kernelUp, request, _, _) =>
        if a.status != TRIAGING && a.status != IN_CASE then Refused(WrongState)
        else if !isAnalyst then Refused(WrongRole)
        else if !reasonOk then Refused(NoReason)
        else if a.status == IN_CASE then
          if Approvals.Asks(s.requests, request, CASE_CLOSE, id) then Asked else Refused(AlreadyAsked)
        else if Closes(a, kernelUp) then Done else Refused(KernelFailed)
      case CompleteClose(id, request, kernelUp) =>
        if a.status != IN_CASE then Refused(WrongState)
        else if request !in s.requests || s.requests[request].state != Approvals.APPROVED then Refused(NotApproved)
        else if s.requests[request].subject != id || s.requests[request].action != CASE_CLOSE then Refused(OtherMatter)
        else if Closes(a, kernelUp) then Done else Refused(KernelFailed)
  }

  /** The states an operation works on. */
  predicate Works(e: Event, status: Status)
    requires OnAlert(e)
  {
    match e
    case Triage(_, _, _) => status == RAISED
    case OpenCase(_, _, _, _) => status == TRIAGING
    case Close(_, _, _, _, _, _, _) => status == TRIAGING || status == IN_CASE
    case _ => status == IN_CASE
  }

  /** The caller may do it: STRs are the CAMLCO's, and completing a close needs no role of its own. */
  predicate Entitled(e: Event)
    requires OnAlert(e)
  {
    match e
    case MarkStrFiled(_, isCamlco, _) => isCamlco
    case CompleteClose(_, _, _) => true
    case _ => e.isAnalyst
  }

  /** The kernel has to be told about the payments and cannot be. */
  predicate KernelMissed(a: Alert, e: Event)
    requires OnAlert(e)
  {
    match e
    case OpenCase(_, _, freeze, kernelUp) => freeze && !kernelUp
    case Close(_, _, _, kernelUp, _, _, _) => a.status == TRIAGING && !Closes(a, kernelUp)
    case CompleteClose(_, _, kernelUp) => !Closes(a, kernelUp)
    case _ => false
  }

  /** A refusal names the first thing wrong: the alert, its state, the caller's role, and then what the operation itself needs. */
  lemma RefusalsSayWhy(s: State, e: Event)
    requires OnAlert(e)
    ensures Reply(s, e) == Refused(NotFound) <==> e.id !in s.rows
    ensures e.id in s.rows ==>
              var a, told := s.rows[e.id], Reply(s, e);
              && (told == Refused(WrongState) <==> !Works(e, a.status))
              && (told == Refused(WrongRole) <==> Works(e, a.status) && !Entitled(e))
    ensures e.id in s.rows && Works(e, s.rows[e.id].status) && Entitled(e) ==>
              var a, told := s.rows[e.id], Reply(s, e);
              && (told == Refused(NoPayments) <==> e.OpenCase? && a.payments == [])
              && (told == Refused(NoDeclaration) <==> e.MarkStrFiled? && !e.declared)
              && (told == Refused(NoReason) <==> e.Close? && !e.reasonOk)
              && (told == Refused(AlreadyAsked) <==>
                    e.Close? && e.reasonOk && a.status == IN_CASE && !Approvals.Asks(s.requests, e.request, "aml_case_close", e.id))
              && (told == Refused(NotApproved) <==>
                    e.CompleteClose? && (e.request in s.requests ==> s.requests[e.request].state != Approvals.APPROVED))
              && (told == Refused(OtherMatter) <==>
                    e.CompleteClose? && e.request in s.requests && s.requests[e.request].state == Approvals.APPROVED &&
                    !(s.requests[e.request].subject == e.id && s.requests[e.request].action == "aml_case_close"))
    ensures Reply(s, e) == Refused(KernelFailed) ==> KernelMissed(s.rows[e.id], e)
    ensures e.id in s.rows && Reply(s, e) == Done ==> !KernelMissed(s.rows[e.id], e)
  {
  }

  function Target(e: Event): Status
    requires OnAlert(e)
  {
    match e
    case Triage(_, _, _) => TRIAGING
    case OpenCase(_, _, _, _) => IN_CASE
    case MarkStrFiled(_, _, _) => STR_FILED
    case _ => CLOSED
  }

  /** The caller is told the truth: refused exactly when nothing at all changed, done exactly when the alert has moved to the
      operation's target. */
  lemma RepliesAreTrue(l: Limits, s: State, e: Event)
    requires OnAlert(e)
    ensures Reply(s, e).Refused? <==> Step(l, s, e) == s
    ensures Reply(s, e) == Done <==>
              e.id in s.rows && e.id in Step(l, s, e).rows && s.rows[e.id].status != Step(l, s, e).rows[e.id].status == Target(e)
  {
    if e.id in s.rows {
      var t := Step(l, s, e);
      if Reply(s, e) == Done {
        assert t.rows[e.id].status == Target(e);
      } else if Reply(s, e) == Asked {
        assert e.request in t.requests && e.request !in s.requests;
      }
    }
  }

  lemma DueIdsNext(rows: Rows, order: seq<string>, i: nat, status: Status, age: int, already: nat, now: int)
    requires i < |order| && order[i] in rows
    ensures DueIds(rows, order[..i + 1], status, age, already, now) ==
            DueIds(rows, order[..i], status, age, already, now) +
            if Due(rows[order[i]], status, age, already, now) then [order[i]] else []
  {
    assert order[..i + 1][..i] == order[..i];
  }

  lemma StageNext(rows: Rows, order: seq<string>, i: nat, status: Status, age: int, already: nat, now: int)
    requires Distinct(order) && i < |order| && order[i] in rows
    ensures var ids, id := DueIds(rows, order[..i], status, age, already, now), order[i];
            if Due(rows[id], status, age, already, now) then
              && DueIds(rows, order[..i + 1], status, age, already, now) == ids + [id]
              && Bumped(rows, ids + [id]) == Bumped(rows, ids)[id := rows[id].(escalations := rows[id].escalations + 1)]
            else
              DueIds(rows, order[..i + 1], status, age, already, now) == ids
  {
    DueIdsNext(rows, order, i, status, age, already, now);
    if Due(rows[order[i]], status, age, already, now) {
      NotYetDue(rows, order, i, status, age, already, now);
      BumpedNext(rows, DueIds(rows, order[..i], status, age, already, now), order[i]);
    }
  }

  /** One stage of the sweep: visit the stage's alerts in order, saving each one notified. */
  method SweepStage(rows: Rows, order: seq<string>, status: Status, age: int, already: nat, now: int)
    returns (saved: Rows, ids: seq<string>)
    requires Distinct(order) && forall id :: id in order <==> id in rows
    ensures ids == DueIds(rows, order, status, age, already, now) && saved == Bumped(rows, ids)
  {
    saved, ids := rows, [];
    BumpedNone(rows);
    var i := 0;
    while i < |order|
      invariant 0 <= i <= |order|
      invariant ids == DueIds(rows, order[..i], status, age, already, now)
      invariant saved == Bumped(rows, ids)
    {
      var id := order[i];
      assert id in order;
      StageNext(rows, order, i, status, age, already, now);
      var alert := rows[id];
      if Due(alert, status, age, already, now) {
        saved := saved[id := alert.(escalations := alert.escalations + 1)];
        ids := ids + [id];
      }
      i := i + 1;
    }
    TakeWhole(order);
  }

  class AmlAlertService {
    const limits: Limits
    var rows: Rows
    var order: seq<string>
    var byKey: map<string, string>
    var requests: Approvals.Requests
    var frozen: set<string>
    var holds: seq<Hold>
    var notices: seq<string>

    function Value(): State
      reads this
    {
      State(rows, order, requests, frozen, holds, notices)
    }

    ghost predicate Valid()
      reads this
    {
      Indexed(rows, order, byKey)
    }

    constructor (limits: Limits)
      ensures this.limits == limits && Valid() && Value() == EMPTY
    {
      this.limits := limits;
      rows := map[];
      order := [];
      byKey := map[];
      requests := map[];
      frozen := {};
      holds := [];
      notices := [];
    }

    /** The alert already raised for this key, or a new one; None when the new id is taken. */
    method RaiseAlert(id: string, key: string, subject: string, payments: seq<string>, now: int)
      returns (alert: Option<string>)
      requires Valid()
      modifies this
      ensures Valid() && Value() == Step(limits, old(Value()), Raise(id, key, subject, payments, now))
      ensures alert.Some? ==> alert.value in rows && rows[alert.value].key == key
      ensures alert.None? <==> id in old(rows) && !HasKey(old(rows), key)
    {
      KeyTaken(rows, order, byKey, key);
      if key in byKey {
        return Some(byKey[key]);
      }
      if id in rows {
        return None;
      }
      var alert' := Alert(key, subject, payments, RAISED, now, None, false, false, 0);
      InsertKeepsIndex(rows, order, byKey, id, alert');
      rows := rows[id := alert'];
      order := order + [id];
      byKey := byKey[key := id];
      return Some(id);
    }

    method StartTriage(id: string, isAnalyst: bool, now: int) returns (told: Told)
      requires Valid()
      modifies this
      ensures Valid() && Value() == Step(limits, old(Value()), Triage(id, isAnalyst, now))
      ensures told == Reply(old(Value()), Triage(id, isAnalyst, now))
    {
      if id !in rows {
        return Refused(NotFound);
      }
      if rows[id].status != RAISED {
        return Refused(WrongState);
      }
      if !isAnalyst {
        return Refused(WrongRole);
      }
      rows := rows[id := rows[id].(status := TRIAGING, triagedAt := Some(now))];
      return Done;
    }

    method Open(id: string, isAnalyst: bool, freeze: bool, kernelUp: bool) returns (told: Told)
      requires Valid()
      modifies this
      ensures Valid() && Value() == Step(limits, old(Value()), OpenCase(id, isAnalyst, freeze, kernelUp))
      ensures told == Reply(old(Value()), OpenCase(id, isAnalyst, freeze, kernelUp))
    {
      if id !in rows {
        return Refused(NotFound);
      }
      if rows[id].status != TRIAGING {
        return Refused(WrongState);
      }
      if !isAnalyst {
        return Refused(WrongRole);
      }
      if rows[id].payments == [] {
        return Refused(NoPayments);
      }
      if freeze && !kernelUp {
        return Refused(KernelFailed);
      }
      var alert := rows[id];
      var inCase := alert.(status := IN_CASE, caseOpened := true, freezeApplied := alert.freezeApplied || freeze);
      SaveKeepsIndex(rows, order, byKey, id, inCase);
      rows := rows[id := inCase];
      if freeze {
        frozen := frozen + {alert.subject};
        holds := SendHolds(holds, true, id, alert.payments);
      }
      return Done;
    }

    method FileStr(id: string, isCamlco: bool, declared: bool) returns (told: Told)
      requires Valid()
      modifies this
      ensures Valid() && Value() == Step(limits, old(Value()), MarkStrFiled(id, isCamlco, declared))
      ensures told == Reply(old(Value()), MarkStrFiled(id, isCamlco, declared))
    {
      if id !in rows {
        return Refused(NotFound);
      }
      if rows[id].status != IN_CASE {
        return Refused(WrongState);
      }
      if !isCamlco {
        return Refused(WrongRole);
      }
      if !declared {
        return Refused(NoDeclaration);
      }
      rows := rows[id := rows[id].(status := STR_FILED)];
      return Done;
    }

    /** Unfreeze first: a kernel failure leaves everything as it was. */
    method FinalizeClose(id: string, kernelUp: bool) returns (told: Told)
      requires id in rows
      modifies this`rows, this`frozen, this`holds
      ensures told == if Closes(old(rows)[id], kernelUp) then Done else Refused(KernelFailed)
      ensures Value() == if Closes(old(rows)[id], kernelUp) then Finalized(old(Value()), id) else old(Value())
    {
      var alert := rows[id];
      if alert.freezeApplied {
        if !kernelUp {
          return Refused(KernelFailed);
        }
        frozen := frozen - {alert.subject};
      }
      rows := rows[id := alert.(status := CLOSED, freezeApplied := false)];
      if alert.freezeApplied {
        holds := SendHolds(holds, false, id, alert.payments);
      }
      return Done;
    }

    /** Closes from triage at once; from a case it only asks for the second pair of eyes. */
    method RequestClose(id: string, isAnalyst: bool, reasonOk: bool, kernelUp: bool, request: string, actor: string, now: int)
      returns (told: Told)
      requires Valid()
      modifies this
      ensures Valid()
      ensures Value() == Step(limits, old(Value()), Close(id, isAnalyst, reasonOk, kernelUp, request, actor, now))
      ensures told == Reply(old(Value()), Close(id, isAnalyst, reasonOk, kernelUp, request, actor, now))
    {
      if id !in rows {
        return Refused(NotFound);
      }
      if rows[id].status != TRIAGING && rows[id].status != IN_CASE {
        return Refused(WrongState);
      }
      if !isAnalyst {
        return Refused(WrongRole);
      }
      if !reasonOk {
        return Refused(NoReason);
      }
      if rows[id].status == IN_CASE {
        told := if Approvals.Asks(requests, request, CASE_CLOSE, id) then Asked else Refused(AlreadyAsked);
        requests := Approvals.Step(requests, Approvals.Ask(request, CASE_CLOSE, id, actor, now));
      } else {
        told := FinalizeClose(id, kernelUp);
      }
    }

    method CompleteInCaseClose(id: string, request: string, kernelUp: bool) returns (told: Told)
      requires Valid()
      modifies this
      ensures Valid() && Value() == Step(limits, old(Value()), CompleteClose(id, request, kernelUp))
      ensures told == Reply(old(Value()), CompleteClose(id, request, kernelUp))
    {
      if id !in rows {
        return Refused(NotFound);
      }
      if rows[id].status != IN_CASE {
        return Refused(WrongState);
      }
      if request !in requests || requests[request].state != Approvals.APPROVED {
        return Refused(NotApproved);
      }
      if requests[request].subject != id || requests[request].action != CASE_CLOSE {
        return Refused(OtherMatter);
      }
      told := FinalizeClose(id, kernelUp);
    }

    method NotifyStage(status: Status, age: int, already: nat, now: int) returns (ids: seq<string>)
      requires Valid()
      modifies this`rows, this`notices
      ensures Valid() && Value() == Stage(old(Value()), status, age, already, now)
      ensures notices == old(notices) + ids
    {
      var saved;
      saved, ids := SweepStage(rows, order, status, age, already, now);
      BumpKeepsIndex(rows, order, byKey, ids);
      rows, notices := saved, notices + ids;
    }

    /** The ids notified by this tick, raised alerts before those in triage. */
    method RunEscalations(now: int) returns (escalated: seq<string>)
      requires Valid()
      modifies this
      ensures Valid() && Value() == Step(limits, old(Value()), Escalate(now))
      ensures notices == old(notices) + escalated
    {
      var first := NotifyStage(RAISED, limits.raisedAge, 0, now);
      var second := NotifyStage(TRIAGING, limits.triagingAge, 1, now);
      Regroup(old(notices), first, second);
      escalated := first + second;
    }
  }
}

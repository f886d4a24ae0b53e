/**
 The STR workflow as an object, its two filing sweeps and the CAMLCO overdue lane (bdpay/compliance/str_workflow.py,
 bdpay/app.py, bdpay/compliance/camlco.py). Every method may be called whatever the sweeps have open; while a sweep awaits
 the connector, `Suspend` lets any pieces of the other sweep and any requests run.
 */
module StrWorkflow {
  import opened Common
  import opened StrFiling
  import opened StrTick
  import opened StrMeeting

  // ------------------------------------------------------------------ the CAMLCO overdue lane

  predicate FilingOverdue(r: Report, now: int) {
    r.dueAt.Some? && r.status != FILING_CONFIRMED && r.status != WITHDRAWN && now > r.dueAt.value
  }

  function Overdue(reports: Reports, ids: seq<string>, now: int): seq<string>
    requires forall id :: id in ids ==> id in reports
  {
    if ids == [] then []
    else (if FilingOverdue(reports[ids[0]], now) then [ids[0]] else []) + Overdue(reports, ids[1..], now)
  }

  function OverdueLane(reports: Reports, order: seq<string>, now: int): seq<string>
    requires Distinct(order) && forall id :: id in order <==> id in reports
  {
    ByStatusLists(reports, order, CAMLCO_APPROVED);
    ByStatusLists(reports, order, FILING_PENDING);
    ByStatusLists(reports, order, FILING_FAILED);
    ByStatusLists(reports, order, FILING_SUBMITTED);
    Overdue(reports, ByStatus(reports, order, CAMLCO_APPROVED), now) +
    Overdue(reports, ByStatus(reports, order, FILING_PENDING), now) +
    Overdue(reports, ByStatus(reports, order, FILING_FAILED), now) +
    Overdue(reports, ByStatus(reports, order, FILING_SUBMITTED), now)
  }

  lemma {:induction false} OverdueLists(reports: Reports, ids: seq<string>, now: int)
    requires forall id :: id in ids ==> id in reports
    ensures forall id :: id in Overdue(reports, ids, now) <==> id in ids && FilingOverdue(reports[id], now)
    decreases |ids|
  {
    if ids != [] {
      OverdueLists(reports, ids[1..], now);
      assert ids == [ids[0]] + ids[1..];
    }
  }

  lemma LaneOf(reports: Reports, order: seq<string>, status: Status, now: int, id: string)
    requires Distinct(order) && (forall other :: other in order <==> other in reports) && id in order
    ensures forall other :: other in ByStatus(reports, order, status) ==> other in reports
    ensures id in Overdue(reports, ByStatus(reports, order, status), now) <==>
            reports[id].status == status && FilingOverdue(reports[id], now)
  {
    ByStatusLists(reports, order, status);
    OverdueLists(reports, ByStatus(reports, order, status), now);
  }

  lemma LaneHas(reports: Reports, order: seq<string>, now: int, id: string)
    requires Distinct(order) && (forall other :: other in order <==> other in reports) && id in order
    ensures id in OverdueLane(reports, order, now) <==>
            !BeforeDecision(reports[id].status) && FilingOverdue(reports[id], now)
  {
    LaneOf(reports, order, CAMLCO_APPROVED, now, id);
    LaneOf(reports, order, FILING_PENDING, now, id);
    LaneOf(reports, order, FILING_FAILED, now, id);
    LaneOf(reports, order, FILING_SUBMITTED, now, id);
  }

  /**
   No approved filing goes unseen: in every sound store, the overdue lane holds exactly the approved reports that are not
   confirmed when the filing clock has run out, counted from their approval.
   */
  lemma OverdueLaneIsExact(c: Config, reports: Reports, order: seq<string>, now: int, id: string)
    requires StoreOk(c, reports, order) && id in reports
    ensures id in OverdueLane(reports, order, now) <==>
            reports[id].approvedAt.Some? && reports[id].status != FILING_CONFIRMED &&
            now > reports[id].approvedAt.value + c.filingClock
  {
    LaneHas(reports, order, now, id);
    assert Sound(c, reports[id]);
  }

  // ------------------------------------------------------------------ runs around a sweep

  predicate ByFiling(p: Piece) {
    p.FilingStart? || p.FilingResume? || p.NewTick?
  }

  predicate ByRetry(p: Piece) {
    p.RetryStart? || p.RetryResume? || p.NewTick?
  }

  /** From `w` to `t` by pieces that are not the filing sweep's. */
  ghost predicate BesideFiling(c: Config, w: World, t: World) {
    exists es :: (forall i :: 0 <= i < |es| ==> !ByFiling(es[i])) && t == After(c, w, es)
  }

  ghost predicate BesideRetry(c: Config, w: World, t: World) {
    exists es :: (forall i :: 0 <= i < |es| ==> !ByRetry(es[i])) && t == After(c, w, es)
  }

  lemma {:induction false} FilingWaits(c: Config, w: World, es: seq<Piece>)
    requires forall i :: 0 <= i < |es| ==> !ByFiling(es[i])
    ensures After(c, w, es).filing == w.filing && InTick(es)
    decreases |es|
  {
    if es != [] {
      FilingWaits(c, w, es[..|es| - 1]);
    }
  }

  lemma {:induction false} RetryWaits(c: Config, w: World, es: seq<Piece>)
    requires forall i :: 0 <= i < |es| ==> !ByRetry(es[i])
    ensures After(c, w, es).retry == w.retry && InTick(es)
    decreases |es|
  {
    if es != [] {
      RetryWaits(c, w, es[..|es| - 1]);
      RetryWaitsStep(c, After(c, w, es[..|es| - 1]), es[|es| - 1]);
    }
  }

  lemma RetryWaitsStep(c: Config, w: World, p: Piece)
    requires !ByRetry(p)
    ensures Next(c, w, p).retry == w.retry
  {
    match p
    case FilingStart(ok) => FilingLeavesRetry(w, ByStatus(w.reports, w.order, CAMLCO_APPROVED), ok);
    case FilingResume(outcome, ok) =>
      if w.filing.FilingFirst? || w.filing.FilingSecond? {
        FilingLeavesRetry(Land(c, w, w.filing.call, outcome), w.filing.todo, ok);
      }
    case _ =>
  }

  lemma FilingLeavesRetry(w: World, todo: seq<string>, ok: bool)
    ensures FilePending(w, todo, ok).retry == w.retry && FileApproved(w, todo, ok).retry == w.retry
  {
  }

  /** `t` is reached within the tick whose filing sweep starts in `w`; if `good`, with every payload at hand. */
  ghost predicate FilingReached(c: Config, w: World, t: World, good: bool) {
    exists ok, es :: (good ==> ok) && Leads(c, Next(c, w, FilingStart(ok)), t, es, good)
  }

  /** The pieces `es`, all within one tick, lead from `w` to `t`. */
  ghost predicate Leads(c: Config, w: World, t: World, es: seq<Piece>, good: bool) {
    InTick(es) && (good ==> PayloadsOk(es)) && t == After(c, w, es)
  }

  lemma LeadsNext(c: Config, w: World, t: World, es: seq<Piece>, good: bool, p: Piece)
    requires Leads(c, w, t, es, good) && !p.NewTick? && (good && p.FilingResume? ==> p.ok)
    ensures Leads(c, w, Next(c, t, p), es + [p], good)
  {
    AfterPush(c, w, es, p);
  }

  lemma LeadsOn(c: Config, w: World, t: World, es: seq<Piece>, good: bool, u: World, more: seq<Piece>)
    requires Leads(c, w, t, es, good) && Leads(c, t, u, more, good)
    ensures Leads(c, w, u, es + more, good)
  {
    AfterConcat(c, w, es, more);
  }

  ghost predicate RetryReached(c: Config, w: World, t: World) {
    exists ok, es :: Leads(c, Next(c, w, RetryStart(ok)), t, es, false)
  }

  /** Wherever the sweep goes next from this gap between two calls, it is reached. */
  ghost predicate FilingHeads(c: Config, start: World, w: World, todo: seq<string>, first: bool, good: bool) {
    forall ok :: (good ==> ok) ==> FilingReached(c, start, if first then FileApproved(w, todo, ok) else FilePending(w, todo, ok), good)
  }

  ghost predicate RetryHeads(c: Config, start: World, w: World, todo: seq<string>) {
    forall ok :: RetryReached(c, start, RetryNext(c, w, todo, ok))
  }

  lemma FilingHeadsAtStart(c: Config, w: World, good: bool)
    requires w.filing.FilingIdle?
    ensures FilingHeads(c, w, w, ByStatus(w.reports, w.order, CAMLCO_APPROVED), true, good)
  {
    forall ok | good ==> ok ensures FilingReached(c, w, FileApproved(w, ByStatus(w.reports, w.order, CAMLCO_APPROVED), ok), good) {
      assert Leads(c, Next(c, w, FilingStart(ok)), Next(c, w, FilingStart(ok)), [], good);
    }
  }

  lemma RetryHeadsAtStart(c: Config, w: World)
    requires w.retry.RetryIdle? && !w.filing.FilingIdle?
    ensures RetryHeads(c, w, w, DueIds(c, w.reports, w.order, w.now))
  {
    forall ok ensures RetryReached(c, w, RetryNext(c, w, DueIds(c, w.reports, w.order, w.now), ok)) {
      assert Leads(c, Next(c, w, RetryStart(ok)), Next(c, w, RetryStart(ok)), [], false);
    }
  }

  lemma FilingGoesOn(c: Config, start: World, w: World, t: World, good: bool)
    requires FilingReached(c, start, w, good) && BesideFiling(c, w, t)
    ensures FilingReached(c, start, t, good) && t.filing == w.filing
  {
    var ok, es :| (good ==> ok) && Leads(c, Next(c, start, FilingStart(ok)), w, es, good);
    var more :| (forall i :: 0 <= i < |more| ==> !ByFiling(more[i])) && t == After(c, w, more);
    FilingWaits(c, w, more);
    LeadsOn(c, Next(c, start, FilingStart(ok)), w, es, good, t, more);
  }

  lemma RetryGoesOn(c: Config, start: World, w: World, t: World)
    requires RetryReached(c, start, w) && BesideRetry(c, w, t)
    ensures RetryReached(c, start, t) && t.retry == w.retry
  {
    var ok, es :| Leads(c, Next(c, start, RetryStart(ok)), w, es, false);
    var more :| (forall i :: 0 <= i < |more| ==> !ByRetry(more[i])) && t == After(c, w, more);
    RetryWaits(c, w, more);
    LeadsOn(c, Next(c, start, RetryStart(ok)), w, es, false, t, more);
  }

  lemma FilingReachesNext(c: Config, start: World, w: World, p: Piece, good: bool)
    requires FilingReached(c, start, w, good) && !p.NewTick? && (good && p.FilingResume? ==> p.ok)
    ensures FilingReached(c, start, Next(c, w, p), good)
  {
    var ok, es :| (good ==> ok) && Leads(c, Next(c, start, FilingStart(ok)), w, es, good);
    LeadsNext(c, Next(c, start, FilingStart(ok)), w, es, good, p);
  }

  lemma RetryReachesNext(c: Config, start: World, w: World, p: Piece)
    requires RetryReached(c, start, w) && !p.NewTick?
    ensures RetryReached(c, start, Next(c, w, p))
  {
    var ok, es :| Leads(c, Next(c, start, RetryStart(ok)), w, es, false);
    LeadsNext(c, Next(c, start, RetryStart(ok)), w, es, false, p);
  }

  lemma FilingHeadsOn(c: Config, start: World, w: World, outcome: Outcome, good: bool)
    requires FilingReached(c, start, w, good) && (w.filing.FilingFirst? || w.filing.FilingSecond?)
    ensures FilingHeads(c, start, Land(c, w, w.filing.call, outcome), w.filing.todo, w.filing.FilingFirst?, good)
  {
    var l, todo, first := Land(c, w, w.filing.call, outcome), w.filing.todo, w.filing.FilingFirst?;
    forall ok | good ==> ok
      ensures FilingReached(c, start, if first then FileApproved(l, todo, ok) else FilePending(l, todo, ok), good)
    {
      FilingReachesNext(c, start, w, FilingResume(outcome, ok), good);
      assert Next(c, w, FilingResume(outcome, ok)) == if first then FileApproved(l, todo, ok) else FilePending(l, todo, ok);
    }
  }

  lemma RetryHeadsOn(c: Config, start: World, w: World, outcome: Outcome)
    requires RetryReached(c, start, w) && w.retry.RetryOpen?
    ensures RetryHeads(c, start, Land(c, w, w.retry.call, outcome), w.retry.todo)
  {
    var l, todo := Land(c, w, w.retry.call, outcome), w.retry.todo;
    forall ok ensures RetryReached(c, start, RetryNext(c, l, todo, ok)) {
      RetryReachesNext(c, start, w, RetryResume(outcome, ok));
      assert Next(c, w, RetryResume(outcome, ok)) == RetryNext(c, l, todo, ok);
    }
  }

  /** One operation on one report, and what its caller is told. */
  ghost predicate Performed(c: Config, before: Reports, after: Reports, id: string, op: Op, reply: Reply) {
    if id !in before then reply == NotFound && after == before
    else reply == Answer(c, before[id], op) && after == before[id := Advance(c, before[id], op)]
  }

  class Workflow {
    const config: Config
    var reports: Reports
    var order: seq<string>
    /** The reports the connector was called for, ever and in this tick. */
    var calls: seq<string>
    var made: seq<string>
    /** The clock, and the last reading that this tick makes of it. */
    var now: int
    ghost var until: int
    ghost var filing: Filing
    ghost var retry: Retrying

    ghost function Value(): World
      reads this
    {
      World(reports, order, calls, made, filing, retry, now, until)
    }

    ghost predicate Valid()
      reads this
    {
      Positive(config) && WorldOk(config, Value())
    }

    constructor (config: Config)
      requires Positive(config)
      ensures this.config == config && Valid() && Value() == EMPTY
    {
      this.config := config;
      reports, order, calls, made, now, until := map[], [], [], [], 0, 0;
      filing, retry := FilingIdle, RetryIdle;
    }

    /** Suspicion alone creates a report; an id that already exists is refused. */
    method CreateReport(id: string) returns (ok: bool)
      requires Valid()
      modifies this`reports, this`order
      ensures Valid() && Value() == Next(config, old(Value()), Create(id))
      ensures ok <==> id !in old(reports)
    {
      StepKeepsOk(config, Value(), Create(id));
      if id in reports {
        return false;
      }
      reports := reports[id := CREATED];
      order := order + [id];
      return true;
    }

    /** The decision starts the filing clock and queues the report at once; a payload that cannot be built leaves it decided. */
    method CamlcoApprove(id: string, at: int, isCamlco: bool, declared: bool, payloadOk: bool) returns (reply: Reply)
      requires Valid()
      modifies this`reports
      ensures Valid() && Value() == Next(config, old(Value()), Request(id, Approve(at, isCamlco, declared, payloadOk)))
      ensures Performed(config, old(reports), reports, id, Approve(at, isCamlco, declared, payloadOk), reply)
    {
      StepKeepsOk(config, Value(), Request(id, Approve(at, isCamlco, declared, payloadOk)));
      if id !in reports {
        return NotFound;
      }
      var report := reports[id];
      if report.status != PENDING_CAMLCO_REVIEW {
        return TransitionDenied;
      }
      if !isCamlco {
        return NotCamlco;
      }
      if !declared {
        return DeclarationRequired;
      }
      var approved := report.(status := CAMLCO_APPROVED, approvedAt := Some(at), dueAt := Some(at + config.filingClock));
      if payloadOk {
        approved := approved.(status := FILING_PENDING);
      }
      assert approved == Advance(config, report, Approve(at, isCamlco, declared, payloadOk));
      reports := reports[id := approved];
      return if payloadOk then Done else PayloadInvalid;
    }

    method WithdrawReport(id: string, isCamlco: bool, reasonGiven: bool) returns (reply: Reply)
      requires Valid()
      modifies this`reports
      ensures Valid() && Value() == Next(config, old(Value()), Request(id, Withdraw(isCamlco, reasonGiven)))
      ensures Performed(config, old(reports), reports, id, Withdraw(isCamlco, reasonGiven), reply)
    {
      StepKeepsOk(config, Value(), Request(id, Withdraw(isCamlco, reasonGiven)));
      if id !in reports {
        return NotFound;
      }
      var report := reports[id];
      if report.status != PENDING_CAMLCO_REVIEW {
        return TransitionDenied;
      }
      if !isCamlco {
        return NotCamlco;
      }
      if !reasonGiven {
        return ReasonRequired;
      }
      reports := reports[id := report.(status := WITHDRAWN)];
      return Done;
    }

    method ConfirmFiling(id: string, ref: string) returns (reply: Reply)
      requires Valid()
      modifies this`reports
      ensures Valid() && Value() == Next(config, old(Value()), Request(id, Confirm(ref)))
      ensures Performed(config, old(reports), reports, id, Confirm(ref), reply)
    {
      StepKeepsOk(config, Value(), Request(id, Confirm(ref)));
      if id !in reports {
        return NotFound;
      }
      var report := reports[id];
      if report.status != FILING_SUBMITTED {
        return TransitionDenied;
      }
      if report.goamlRef.Some? && report.goamlRef.value != ref {
        return RefMismatch;
      }
      reports := reports[id := report.(status := FILING_CONFIRMED)];
      return Done;
    }

    method QueueFiling(id: string, payloadOk: bool) returns (reply: Reply)
      requires Valid()
      modifies this`reports
      ensures Valid() && Performed(config, old(reports), reports, id, Queue(payloadOk), reply)
    {
      if id !in reports {
        return NotFound;
      }
      var report := reports[id];
      AdvanceKeepsSound(config, report, Queue(payloadOk));
      RewriteKeepsOk(config, Value(), id, Advance(config, report, Queue(payloadOk)));
      if report.status != CAMLCO_APPROVED {
        return TransitionDenied;
      }
      if !payloadOk {
        return PayloadInvalid;
      }
      reports := reports[id := report.(status := FILING_PENDING)];
      return Done;
    }

    method RetryFiling(id: string) returns (reply: Reply)
      requires Valid()
      modifies this`reports
      ensures Valid() && Performed(config, old(reports), reports, id, Retry, reply)
    {
      if id !in reports {
        return NotFound;
      }
      var report := reports[id];
      AdvanceKeepsSound(config, report, Retry);
      RewriteKeepsOk(config, Value(), id, Advance(config, report, Retry));
      if report.status != FILING_FAILED {
        return TransitionDenied;
      }
      if report.retries >= config.maxRetry {
        return RetryExhausted;
      }
      reports := reports[id := report.(status := FILING_PENDING, retryAt := None)];
      return Done;
    }

    /** The first half of an attempt, up to the connector call; None when it is refused. */
    method BeginAttempt(id: string, payloadOk: bool) returns (call: Option<Call>)
      requires Valid()
      modifies this`calls, this`made
      ensures Valid()
      ensures call.Some? <==> id in reports && reports[id].status == FILING_PENDING && payloadOk
      ensures call.None? ==> Value() == old(Value())
      ensures call.Some? ==> call.value == Call(id, reports[id], now) && Value() == Count(old(Value()), id)
    {
      if id !in reports || reports[id].status != FILING_PENDING || !payloadOk {
        return None;
      }
      CountKeepsOk(config, Value(), id);
      calls := calls + [id];
      made := made + [id];
      return Some(Call(id, reports[id], now));
    }

    /** The second half: the row read before the call is written back with its outcome. */
    method LandAttempt(call: Call, outcome: Outcome)
      requires Valid() && CallOk(config, reports, call)
      modifies this`reports
      ensures Valid() && Value() == Land(config, old(Value()), call, outcome)
    {
      LandKeepsOk(config, Value(), call, outcome);
      var report := call.snapshot;
      match outcome
      case Filed(ref) => reports := reports[call.id := report.(status := FILING_SUBMITTED, goamlRef := ref)];
      case Failed =>
        var failures := report.retries + 1;
        var exhausted := failures >= config.maxRetry;
        reports := reports[call.id := report.(status := FILING_FAILED, retries := failures,
                                              escalated := exhausted || report.escalated,
                                              retryAt := if exhausted then None else Some(call.at + Delay(config, failures)))];
    }

    /** The filing sweep awaits the connector: retry pieces and requests run. */
    method Suspend()
      requires Valid()
      modifies this
      ensures Valid() && BesideFiling(config, old(Value()), Value())
    {
      assert Value() == After(config, Value(), []);
    }

    /** The retry sweep awaits the connector: filing pieces and requests run. */
    method SuspendRetry()
      requires Valid()
      modifies this
      ensures Valid() && BesideRetry(config, old(Value()), Value())
    {
      assert Value() == After(config, Value(), []);
    }

    method AwaitFiling(call: Call, outcome: Outcome, ghost start: World, ghost good: bool)
      requires Valid() && FilingReached(config, start, Value(), good)
      requires (filing.FilingFirst? || filing.FilingSecond?) && filing.call == call
      modifies this
      ensures Valid() && FilingHeads(config, start, Value(), old(filing).todo, old(filing).FilingFirst?, good)
    {
      Suspend();
      FilingGoesOn(config, start, old(Value()), Value(), good);
      FilingHeadsOn(config, start, Value(), outcome, good);
      LandAttempt(call, outcome);
    }

    method AwaitRetry(call: Call, outcome: Outcome, ghost start: World)
      requires Valid() && RetryReached(config, start, Value()) && retry.RetryOpen? && retry.call == call
      modifies this
      ensures Valid() && RetryHeads(config, start, Value(), old(retry).todo)
    {
      SuspendRetry();
      RetryGoesOn(config, start, old(Value()), Value());
      RetryHeadsOn(config, start, Value(), outcome);
      LandAttempt(call, outcome);
    }

    /** Queue an approved report and make its call; None when either is refused, which breaks the sweep off. */
    method CallApproved(ids: seq<string>, i: nat, payloadOk: bool) returns (call: Option<Call>)
      requires Valid() && i < |ids|
      modifies this
      ensures Valid() && Value() == FileApproved(old(Value()), ids[i..], payloadOk)
      ensures if call.Some? then filing == FilingFirst(ids[i + 1..], call.value) else filing == FilingOver(true)
    {
      DropNext(ids, i);
      ghost var w := Value();
      FileApprovedKeepsOk(config, w, ids[i..], payloadOk);
      var reply := QueueFiling(ids[i], payloadOk);
      if reply != Done {
        filing := FilingOver(true);
        return None;
      }
      call := BeginAttempt(ids[i], payloadOk);
      filing := FilingFirst(ids[i + 1..], call.value);
    }

    /** Queue and call for the next approved report, and take in the answer; false when the sweep is cut short there. */
    method VisitApproved(ids: seq<string>, i: nat, payloadOk: bool, outcome: Outcome, ghost start: World, ghost good: bool)
      returns (ok: bool)
      requires Valid() && i < |ids| && FilingHeads(config, start, Value(), ids[i..], true, good) && (good ==> payloadOk)
      modifies this
      ensures Valid()
      ensures ok ==> FilingHeads(config, start, Value(), ids[i + 1..], true, good)
      ensures !ok ==> FilingReached(config, start, Value(), good) && filing == FilingOver(true)
    {
      assert FilingReached(config, start, FileApproved(Value(), ids[i..], payloadOk), good);
      var call := CallApproved(ids, i, payloadOk);
      if call.None? {
        return false;
      }
      AwaitFiling(call.value, outcome, start, good);
      return true;
    }

    method VisitPending(ids: seq<string>, i: nat, payloadOk: bool, outcome: Outcome, ghost start: World, ghost good: bool)
      returns (ok: bool)
      requires Valid() && i < |ids| && FilingHeads(config, start, Value(), ids[i..], false, good) && (good ==> payloadOk)
      modifies this
      ensures Valid()
      ensures ok ==> FilingHeads(config, start, Value(), ids[i + 1..], false, good)
      ensures !ok ==> FilingReached(config, start, Value(), good) && filing == FilingOver(true)
    {
      DropNext(ids, i);
      ghost var w := Value();
      assert FilingReached(config, start, FilePending(w, ids[i..], payloadOk), good);
      var call := BeginAttempt(ids[i], payloadOk);
      if call.None? {
        filing := FilingOver(true);
        assert Value() == FilePending(w, ids[i..], payloadOk);
        return false;
      }
      filing := FilingSecond(ids[i + 1..], call.value);
      assert Value() == FilePending(w, ids[i..], payloadOk);
      FilePendingKeepsOk(config, w, ids[i..], payloadOk);
      AwaitFiling(call.value, outcome, start, good);
      return true;
    }

    method VisitFailed(ids: seq<string>, i: nat, payloadOk: bool, outcome: Outcome, ghost start: World) returns (ok: bool)
      requires Valid() && i < |ids| && RetryHeads(config, start, Value(), ids[i..])
      modifies this
      ensures Valid()
      ensures ok ==> RetryHeads(config, start, Value(), ids[i + 1..])
      ensures !ok ==> RetryReached(config, start, Value()) && retry == RetryOver(true)
    {
      DropNext(ids, i);
      ghost var w := Value();
      assert RetryReached(config, start, RetryNext(config, w, ids[i..], payloadOk));
      var reply := RetryFiling(ids[i]);
      if reply != Done {
        retry := RetryOver(true);
        assert Value() == RetryNext(config, w, ids[i..], payloadOk);
        return false;
      }
      var call := BeginAttempt(ids[i], payloadOk);
      if call.None? {
        retry := RetryOver(true);
        assert Value() == RetryNext(config, w, ids[i..], payloadOk);
        return false;
      }
      retry := RetryOpen(ids[i + 1..], call.value);
      assert Value() == RetryNext(config, w, ids[i..], payloadOk);
      RetryNextKeepsOk(config, w, ids[i..], payloadOk);
      AwaitRetry(call.value, outcome, start);
      return true;
    }

    /** The first loop of the filing sweep; false when it was cut short. */
    method FileApprovedReports(payloadOk: int -> bool, outcome: int -> Outcome, ghost good: bool) returns (ok: bool)
      requires Valid() && filing.FilingIdle? && (good ==> forall k :: payloadOk(k))
      modifies this
      ensures Valid()
      ensures ok ==> FilingHeads(config, old(Value()), Value(), [], true, good)
      ensures !ok ==> FilingReached(config, old(Value()), Value(), good) && filing == FilingOver(true)
    {
      var ids := ByStatus(reports, order, CAMLCO_APPROVED);
      FilingHeadsAtStart(config, Value(), good);
      assert ids[0..] == ids;
      var i := 0;
      while i < |ids|
        invariant i <= |ids| && Valid() && FilingHeads(config, old(Value()), Value(), ids[i..], true, good)
      {
        ok := VisitApproved(ids, i, payloadOk(i), outcome(i), old(Value()), good);
        if !ok {
          return;
        }
        i := i + 1;
      }
      assert ids[i..] == [];
      return true;
    }

    /** The second loop, over the reports pending when it starts. */
    method FilePendingReports(payloadOk: int -> bool, outcome: int -> Outcome, ghost start: World, ghost good: bool)
      requires Valid() && FilingHeads(config, start, Value(), [], true, good) && (good ==> forall k :: payloadOk(k))
      modifies this
      ensures Valid() && FilingReached(config, start, Value(), good) && filing.FilingOver?
    {
      var ids := ByStatus(reports, order, FILING_PENDING);
      assert FilingHeads(config, start, Value(), ids, false, good) by {
        PendingFollows(config, start, Value(), good);
      }
      assert ids[0..] == ids;
      var i := 0;
      while i < |ids|
        invariant i <= |ids| && Valid() && FilingHeads(config, start, Value(), ids[i..], false, good)
      {
        var ok := VisitPending(ids, i, payloadOk(i), outcome(i), start, good);
        if !ok {
          return;
        }
        i := i + 1;
      }
      assert ids[i..] == [];
      PendingEnds(config, start, Value(), good);
      filing := FilingOver(false);
    }

    /**
     The filing sweep, with the retry sweep and any requests running whenever it awaits the connector: what it does is a run
     of the tick; when it is not cut short, every report due at its start has been called; and when the sweeps of the tick are
     apart, no report was called twice and only a payload that cannot be built cuts it short.
     */
    method FilingSweep(payloadOk: (int, int) -> bool, outcome: (int, int) -> Outcome)
      requires Valid() && filing.FilingIdle? && retry.RetryIdle?
      modifies this
      ensures Valid() && FilingReached(config, old(Value()), Value(), AllBuilt(payloadOk)) && filing.FilingOver?
      ensures filing == FilingOver(false) ==>
                forall id :: id in old(reports) && DueForFiling(old(reports)[id]) ==> id in made
      ensures Calm(config, old(Value())) && Apart(config, old(Value())) ==>
                Distinct(made) && (AllBuilt(payloadOk) ==> filing == FilingOver(false))
    {
      ghost var good := AllBuilt(payloadOk);
      var ok := FileApprovedReports(k => payloadOk(0, k), k => outcome(0, k), good);
      if ok {
        FilePendingReports(k => payloadOk(1, k), k => outcome(1, k), old(Value()), good);
      }
      TickReport(config, old(Value()), Value(), good);
    }

    /** The retry sweep, likewise beside the filing sweep of its tick, which has started. */
    method RetrySweep(payloadOk: int -> bool, outcome: int -> Outcome)
      requires Valid() && retry.RetryIdle? && !filing.FilingIdle?
      modifies this
      ensures Valid() && RetryReached(config, old(Value()), Value()) && retry.RetryOver?
    {
      var ids := DueIds(config, reports, order, now);
      RetryHeadsAtStart(config, Value());
      assert ids[0..] == ids;
      var i := 0;
      while i < |ids|
        invariant i <= |ids| && Valid() && RetryHeads(config, old(Value()), Value(), ids[i..])
      {
        var ok := VisitFailed(ids, i, payloadOk(i), outcome(i), old(Value()));
        if !ok {
          return;
        }
        i := i + 1;
      }
      assert ids[i..] == [];
      assert RetryReached(config, old(Value()), RetryNext(config, Value(), [], true));
      retry := RetryOver(false);
    }
  }

  ghost predicate AllBuilt(payloadOk: (int, int) -> bool) {
    forall half, k :: payloadOk(half, k)
  }

  lemma PendingFollows(c: Config, start: World, w: World, good: bool)
    requires FilingHeads(c, start, w, [], true, good)
    ensures FilingHeads(c, start, w, ByStatus(w.reports, w.order, FILING_PENDING), false, good)
  {
    forall ok | good ==> ok ensures FilingReached(c, start, FilePending(w, ByStatus(w.reports, w.order, FILING_PENDING), ok), good) {
      assert FilingReached(c, start, FileApproved(w, [], ok), good);
    }
  }

  lemma PendingEnds(c: Config, start: World, w: World, good: bool)
    requires FilingHeads(c, start, w, [], false, good)
    ensures FilingReached(c, start, w.(filing := FilingOver(false)), good)
  {
    assert FilingReached(c, start, FilePending(w, [], true), good);
  }

  lemma TickReport(c: Config, w: World, t: World, good: bool)
    requires Positive(c) && WorldOk(c, w) && w.filing.FilingIdle? && w.retry.RetryIdle? && FilingReached(c, w, t, good)
    ensures t.filing == FilingOver(false) ==> forall id :: id in w.reports && DueForFiling(w.reports[id]) ==> id in t.made
    ensures Calm(c, w) && Apart(c, w) ==> Distinct(t.made) && (good ==> t.filing != FilingOver(true))
  {
    var ok, es :| (good ==> ok) && Leads(c, Next(c, w, FilingStart(ok)), t, es, good);
    if t.filing == FilingOver(false) {
      forall id | id in w.reports && DueForFiling(w.reports[id]) ensures id in t.made {
        FilingReachesAllDue(c, w, ok, es, id);
      }
    }
    if Calm(c, w) && Apart(c, w) {
      ApartTickCallsOnce(c, w, ok, es);
      if good {
        ApartSweepIsNotCutShort(c, w, es);
      }
    }
  }
}

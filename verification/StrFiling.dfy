/**
 One suspicious-transaction report from creation to confirmation (bdpay/compliance/str_workflow.py).

 An attempt reads the row, awaits the connector and writes the row it read back with the result, so it is two steps with a
 snapshot between them. `Run` lets attempts overlap, as the two filing tasks of one scheduler tick can make them do;
 `Guarded` runs are those in which no call is made while another for the same report is open.
 */
module StrFiling {
  import opened Common

  datatype Status =
    | PENDING_CAMLCO_REVIEW
    | CAMLCO_APPROVED
    | FILING_PENDING
    | FILING_SUBMITTED
    | FILING_CONFIRMED
    | FILING_FAILED
    | WITHDRAWN

  /** Delays and instants in seconds. */
  datatype Config = Config(filingClock: int, maxRetry: int, initialDelay: int, maxDelay: int)

  predicate Positive(c: Config) {
    c.filingClock > 0 && c.maxRetry > 0 && c.initialDelay > 0 && c.maxDelay > 0
  }

  datatype Report = Report(
    status: Status,
    approvedAt: Option<int>,
    dueAt: Option<int>,
    escalated: bool,
    goamlRef: Option<string>,
    retries: nat,
    retryAt: Option<int>)

  const CREATED := Report(PENDING_CAMLCO_REVIEW, None, None, false, None, 0, None)

  /** What the connector call came back with. */
  datatype Outcome = Filed(ref: Option<string>) | Failed

  // ------------------------------------------------------------------ transitions

  function Delay(c: Config, failures: nat): int
    requires failures > 0
  {
    Min(c.initialDelay * Power2(failures - 1), c.maxDelay)
  }

  function Queued(r: Report): Report {
    r.(status := FILING_PENDING)
  }

  function Approved(c: Config, r: Report, now: int): Report {
    r.(status := CAMLCO_APPROVED, approvedAt := Some(now), dueAt := Some(now + c.filingClock))
  }

  /** The row an attempt writes: the one it read at `now`, with the connector's outcome. */
  function Landed(c: Config, r: Report, now: int, outcome: Outcome): Report {
    match outcome
    case Filed(ref) => r.(status := FILING_SUBMITTED, goamlRef := ref)
    case Failed =>
      var failures := r.retries + 1;
      var exhausted := failures >= c.maxRetry;
      r.(status := FILING_FAILED, retries := failures, escalated := exhausted || r.escalated,
      retryAt := if exhausted then None else Some(now + Delay(c, failures)))
  }

  datatype Op =
    | Approve(now: int, isCamlco: bool, declared: bool, payloadOk: bool)
    | Withdraw(isCamlco: bool, reasonGiven: bool)
    | Queue(payloadOk: bool)
    | Retry
    | Confirm(ref: string)

  /** The transitions that do not wait for the connector; a denied one leaves the row alone. */
  function Advance(c: Config, r: Report, op: Op): Report {
    match op
    case Approve(now, isCamlco, declared, payloadOk) =>
      if r.status != PENDING_CAMLCO_REVIEW || !isCamlco || !declared then r
      else if payloadOk then Queued(Approved(c, r, now))
      else Approved(c, r, now)
    case Withdraw(isCamlco, reasonGiven) =>
      if r.status != PENDING_CAMLCO_REVIEW || !isCamlco || !reasonGiven then r else r.(status := WITHDRAWN)
    case Queue(payloadOk) =>
      if r.status != CAMLCO_APPROVED || !payloadOk then r else Queued(r)
    case Retry =>
      if r.status != FILING_FAILED || r.retries >= c.maxRetry then r else r.(status := FILING_PENDING, retryAt := None)
    case Confirm(ref) =>
      if r.status != FILING_SUBMITTED || (r.goamlRef.Some? && r.goamlRef.value != ref) then r
      else r.(status := FILING_CONFIRMED)
  }

  datatype Reply =
    | Done
    | NotFound
    | TransitionDenied
    | NotCamlco
    | DeclarationRequired
    | ReasonRequired
    | PayloadInvalid
    | RetryExhausted
    | RefMismatch

  /** What the caller is told; the checks come in the workflow's order. */
  function Answer(c: Config, r: Report, op: Op): Reply {
    match op
    case Approve(_, isCamlco, declared, payloadOk) =>
      if r.status != PENDING_CAMLCO_REVIEW then TransitionDenied
      else if !isCamlco then NotCamlco
      else if !declared then DeclarationRequired
      else if payloadOk then Done
      else PayloadInvalid
    case Withdraw(isCamlco, reasonGiven) =>
      if r.status != PENDING_CAMLCO_REVIEW then TransitionDenied
      else if !isCamlco then NotCamlco
      else if reasonGiven then Done
      else ReasonRequired
    case Queue(payloadOk) =>
      if r.status != CAMLCO_APPROVED then TransitionDenied else if payloadOk then Done else PayloadInvalid
    case Retry =>
      if r.status != FILING_FAILED then TransitionDenied else if r.retries >= c.maxRetry then RetryExhausted else Done
    case Confirm(ref) =>
      if r.status != FILING_SUBMITTED then TransitionDenied
      else if r.goamlRef.Some? && r.goamlRef.value != ref then RefMismatch
      else Done
  }

  /** A refusal changes nothing, but for an approval whose payload cannot be built: the decision stands, unqueued. */
  lemma RefusalsChangeNothing(c: Config, r: Report, op: Op)
    ensures Answer(c, r, op) != Done ==>
              Advance(c, r, op) == r || (op.Approve? && Answer(c, r, op) == PayloadInvalid && Advance(c, r, op) == Approved(c, r, op.now))
    ensures Answer(c, r, op) == Done ==>
              Advance(c, r, op).status != r.status && (op.Approve? || op.Queue? || op.Retry? <==> Advance(c, r, op).status == FILING_PENDING)
  {
  }

  // ------------------------------------------------------------------ runs

  datatype Flight = Flight(snapshot: Report, now: int)

  /** `calls` counts the connector calls made for this report. */
  datatype Row = Row(report: Report, flights: seq<Flight>, calls: nat)

  const NEW := Row(CREATED, [], 0)

  datatype Event =
    | Do(op: Op)
    | Begin(payloadOk: bool, now: int)
    | Finish(i: nat, outcome: Outcome)

  function Step(c: Config, row: Row, e: Event): Row {
    match e
    case Do(op) => row.(report := Advance(c, row.report, op))
    case Begin(payloadOk, now) =>
      if row.report.status != FILING_PENDING || !payloadOk then row
      else row.(flights := row.flights + [Flight(row.report, now)], calls := row.calls + 1)
    case Finish(i, outcome) =>
      if i >= |row.flights| then row
      else
        var f := row.flights[i];
        row.(report := Landed(c, f.snapshot, f.now, outcome), flights := row.flights[..i] + row.flights[i + 1..])
  }

  function Run(c: Config, row: Row, es: seq<Event>): Row {
    if es == [] then row else Step(c, Run(c, row, es[..|es| - 1]), es[|es| - 1])
  }

  /** The event makes a connector call while another for the same report is open. */
  predicate Overlaps(row: Row, e: Event) {
    e.Begin? && e.payloadOk && row.report.status == FILING_PENDING && row.flights != []
  }

  predicate Guarded(c: Config, row: Row, es: seq<Event>) {
    es == [] || (Guarded(c, row, es[..|es| - 1]) && !Overlaps(Run(c, row, es[..|es| - 1]), es[|es| - 1]))
  }

  // ------------------------------------------------------------------ the book of one report

  predicate BeforeDecision(s: Status) {
    s == PENDING_CAMLCO_REVIEW || s == WITHDRAWN
  }

  predicate Delivered(s: Status) {
    s == FILING_SUBMITTED || s == FILING_CONFIRMED
  }

  /** Calls already answered: one per failure, and one more once the filing was accepted. */
  function Answered(r: Report): nat {
    r.retries + if Delivered(r.status) then 1 else 0
  }

  /** What a row says about itself, whatever is in flight. */
  predicate Sound(c: Config, r: Report) {
    && r.retries <= c.maxRetry
    && (BeforeDecision(r.status) ==> r == CREATED.(status := r.status))
    && (!BeforeDecision(r.status) ==> r.approvedAt.Some? && r.dueAt == Some(r.approvedAt.value + c.filingClock))
    && (r.status == CAMLCO_APPROVED ==> r.retries == 0)
    && (r.status == FILING_FAILED ==> r.retries > 0)
    && (r.status != FILING_FAILED ==> r.retries < c.maxRetry)
    && (r.escalated <==> r.status == FILING_FAILED && r.retries == c.maxRetry)
    && (r.retryAt.Some? <==> r.status == FILING_FAILED && r.retries < c.maxRetry)
  }

  /** `open` attempts are waiting for the connector. */
  predicate Book(c: Config, r: Report, open: nat, calls: nat) {
    Sound(c, r) && calls == Answered(r) + open && open <= 1 && (open == 1 ==> r.status == FILING_PENDING)
  }

  predicate RowBook(c: Config, row: Row) {
    Book(c, row.report, |row.flights|, row.calls) &&
    forall i :: 0 <= i < |row.flights| ==> row.flights[i].snapshot == row.report
  }

  lemma AdvanceKeepsSound(c: Config, r: Report, op: Op)
    requires Positive(c) && Sound(c, r)
    ensures Sound(c, Advance(c, r, op)) && Answered(Advance(c, r, op)) == Answered(r)
    ensures r.status == FILING_PENDING ==> Advance(c, r, op) == r
  {
  }

  lemma LandedKeepsSound(c: Config, r: Report, now: int, outcome: Outcome)
    requires Positive(c) && Sound(c, r) && r.status == FILING_PENDING
    ensures Sound(c, Landed(c, r, now, outcome)) && Answered(Landed(c, r, now, outcome)) == Answered(r) + 1
  {
  }

  // ------------------------------------------------------------------ what every run keeps

  /** The row, and every snapshot in flight, is sound; what is in flight was pending. */
  predicate AllSound(c: Config, row: Row) {
    && Sound(c, row.report)
    && forall i :: 0 <= i < |row.flights| ==> Sound(c, row.flights[i].snapshot) && row.flights[i].snapshot.status == FILING_PENDING
  }

  lemma StepKeepsAllSound(c: Config, row: Row, e: Event)
    requires Positive(c) && AllSound(c, row)
    ensures AllSound(c, Step(c, row, e))
  {
    match e
    case Do(op) => AdvanceKeepsSound(c, row.report, op);
    case Begin(_, _) =>
    case Finish(i, outcome) =>
      if i < |row.flights| {
        LandedKeepsSound(c, row.flights[i].snapshot, row.flights[i].now, outcome);
      }
  }

  /**
   In every run, overlapping attempts included: a pending filing has budget left, the manual-escalation flag holds exactly
   in FILING_FAILED with the budget spent, a retry time exists exactly in FILING_FAILED with budget left, and a decided
   report carries its due time.
   */
  lemma {:induction false} EveryRunIsSound(c: Config, es: seq<Event>)
    requires Positive(c)
    ensures AllSound(c, Run(c, NEW, es))
    decreases |es|
  {
    if es != [] {
      EveryRunIsSound(c, es[..|es| - 1]);
      StepKeepsAllSound(c, Run(c, NEW, es[..|es| - 1]), es[|es| - 1]);
    }
  }

  // ------------------------------------------------------------------ what overlapping attempts break, and exactly when

  lemma StepKeepsBook(c: Config, row: Row, e: Event)
    requires Positive(c) && RowBook(c, row) && !Overlaps(row, e)
    ensures RowBook(c, Step(c, row, e))
  {
    match e
    case Do(op) => AdvanceKeepsSound(c, row.report, op);
    case Begin(_, _) =>
    case Finish(i, outcome) =>
      if i < |row.flights| {
        LandedKeepsSound(c, row.report, row.flights[i].now, outcome);
      }
  }

  /** Starting an attempt keeps the book if and only if none is open or the payload cannot be built. */
  lemma BeginKeepsBookExactlyWhenIdle(c: Config, row: Row, payloadOk: bool, now: int)
    requires Positive(c) && RowBook(c, row)
    ensures RowBook(c, Step(c, row, Begin(payloadOk, now))) <==> row.flights == [] || !payloadOk
  {
    if row.flights == [] || !payloadOk {
      StepKeepsBook(c, row, Begin(payloadOk, now));
    }
  }

  /** Without overlap the connector calls made are those answered and the one open, so never more than the budget. */
  lemma {:induction false} EveryGuardedRunKeepsTheBook(c: Config, es: seq<Event>)
    requires Positive(c) && Guarded(c, NEW, es)
    ensures RowBook(c, Run(c, NEW, es)) && Run(c, NEW, es).calls <= c.maxRetry
    decreases |es|
  {
    if es != [] {
      var rest := es[..|es| - 1];
      EveryGuardedRunKeepsTheBook(c, rest);
      StepKeepsBook(c, Run(c, NEW, rest), es[|es| - 1]);
    }
  }

  lemma {:induction false} GuardedPrefix(c: Config, es: seq<Event>, k: nat)
    requires k <= |es| && Guarded(c, NEW, es)
    ensures Guarded(c, NEW, es[..k])
    decreases |es|
  {
    if k < |es| {
      GuardedPrefix(c, es[..|es| - 1], k);
      assert es[..|es| - 1][..k] == es[..k];
    } else {
      TakeWhole(es);
    }
  }

  ghost predicate AlwaysBalanced(c: Config, es: seq<Event>) {
    forall k :: 0 <= k <= |es| ==> RowBook(c, Run(c, NEW, es[..k]))
  }

  /** The book is kept throughout a run if and only if no call of the run met an open one. */
  lemma {:induction false} BookIsKeptExactlyWithoutOverlap(c: Config, es: seq<Event>)
    requires Positive(c)
    ensures AlwaysBalanced(c, es) <==> Guarded(c, NEW, es)
    decreases |es|
  {
    if Guarded(c, NEW, es) {
      forall k | 0 <= k <= |es| ensures RowBook(c, Run(c, NEW, es[..k])) {
        GuardedPrefix(c, es, k);
        EveryGuardedRunKeepsTheBook(c, es[..k]);
      }
    }
    if AlwaysBalanced(c, es) && es != [] {
      var rest, last := es[..|es| - 1], es[|es| - 1];
      forall k | 0 <= k <= |rest| ensures RowBook(c, Run(c, NEW, rest[..k])) {
        assert rest[..k] == es[..k];
      }
      BookIsKeptExactlyWithoutOverlap(c, rest);
      TakeWhole(es);
      assert RowBook(c, Run(c, NEW, es[..|es| - 1])) && RowBook(c, Run(c, NEW, es[..|es|]));
      if last.Begin? {
        BeginKeepsBookExactlyWhenIdle(c, Run(c, NEW, rest), last.payloadOk, last.now);
      }
    }
  }

  // ------------------------------------------------------------------ approved is for ever, even when attempts overlap

  /** A decided row, and every snapshot of it in flight, carries the same decision and the same due time. */
  predicate Decided(row: Row, approvedAt: int, dueAt: int) {
    && Carries(row.report, approvedAt, dueAt)
    && forall i :: 0 <= i < |row.flights| ==> Carries(row.flights[i].snapshot, approvedAt, dueAt)
  }

  predicate Carries(r: Report, approvedAt: int, dueAt: int) {
    !BeforeDecision(r.status) && r.approvedAt == Some(approvedAt) && r.dueAt == Some(dueAt)
  }

  /** Whatever happens afterwards, overlapping attempts included, an approved report is never withdrawn or moved. */
  lemma {:induction false} ApprovedIsForever(c: Config, row: Row, approvedAt: int, dueAt: int, es: seq<Event>)
    requires Decided(row, approvedAt, dueAt)
    ensures Decided(Run(c, row, es), approvedAt, dueAt)
    decreases |es|
  {
    if es != [] {
      var rest := es[..|es| - 1];
      ApprovedIsForever(c, row, approvedAt, dueAt, rest);
      var before, after := Run(c, row, rest), Run(c, row, es);
      forall i | 0 <= i < |after.flights| ensures Carries(after.flights[i].snapshot, approvedAt, dueAt) {
        if es[|es| - 1].Finish? && es[|es| - 1].i < |before.flights| && i >= es[|es| - 1].i {
          assert after.flights[i] == before.flights[i + 1];
        } else if i < |before.flights| {
          assert after.flights[i] == before.flights[i];
        }
      }
    }
  }

  // ------------------------------------------------------------------ overlapping attempts at reachable inputs

  function Begins(n: nat): seq<Event> {
    seq(n, _ => Begin(true, 0))
  }

  /** Overlapping attempts are not held by the budget: any number of calls can be open at once. */
  lemma {:induction false} OverlapIsUnbounded(c: Config, n: nat)
    requires Positive(c)
    ensures var row := Run(c, NEW, [Do(Approve(0, true, true, true))] + Begins(n));
            row.calls == n && row.report.status == FILING_PENDING
    decreases n
  {
    var first := [Do(Approve(0, true, true, true))];
    if n == 0 {
      assert first + Begins(0) == first && first[..0] == [];
    } else {
      OverlapIsUnbounded(c, n - 1);
      var es := first + Begins(n);
      assert es[..|es| - 1] == first + Begins(n - 1);
      assert es[|es| - 1] == Begin(true, 0);
    }
  }

  /** Approved, attempted twice at once, filed by the first attempt and confirmed. */
  function ConfirmedWhileOpen(ref: string): seq<Event> {
    TwoOpen() + [Finish(0, Filed(Some(ref)))] + [Do(Confirm(ref))]
  }

  function TwoOpen(): seq<Event> {
    [Do(Approve(0, true, true, true))] + [Begin(true, 0)] + [Begin(true, 0)]
  }

  /** A second attempt still open at confirmation writes its old snapshot back over the confirmed filing. */
  lemma OverlapLosesConfirmation(c: Config, ref: string)
    requires Positive(c)
    ensures Run(c, NEW, ConfirmedWhileOpen(ref)).report.status == FILING_CONFIRMED
    ensures Run(c, NEW, ConfirmedWhileOpen(ref) + [Finish(0, Failed)]).report.status == FILING_FAILED
  {
    var r := Queued(Approved(c, CREATED, 0));
    var f := Flight(r, 0);
    TwoInFlight(c);
    RunPush(c, NEW, TwoOpen(), Finish(0, Filed(Some(ref))));
    assert [f, f][..0] + [f, f][1..] == [f];
    RunPush(c, NEW, TwoOpen() + [Finish(0, Filed(Some(ref)))], Do(Confirm(ref)));
    RunPush(c, NEW, ConfirmedWhileOpen(ref), Finish(0, Failed));
  }

  /** A confirmed filing stays confirmed, whatever comes, if and only if no attempt on it is still open. */
  lemma ConfirmationLastsExactlyWhenIdle(c: Config, row: Row)
    requires row.report.status == FILING_CONFIRMED
    ensures (forall es :: Run(c, row, es).report.status == FILING_CONFIRMED) <==> row.flights == []
  {
    if row.flights == [] {
      forall es ensures Run(c, row, es).report.status == FILING_CONFIRMED {
        IdleStaysConfirmed(c, row, es);
      }
    } else {
      RunPush(c, row, [], Finish(0, Failed));
      assert Run(c, row, []) == row;
      assert Run(c, row, [] + [Finish(0, Failed)]).report.status == FILING_FAILED;
    }
  }

  lemma {:induction false} IdleStaysConfirmed(c: Config, row: Row, es: seq<Event>)
    requires row.report.status == FILING_CONFIRMED && row.flights == []
    ensures Run(c, row, es).report.status == FILING_CONFIRMED && Run(c, row, es).flights == []
    decreases |es|
  {
    if es != [] {
      IdleStaysConfirmed(c, row, es[..|es| - 1]);
    }
  }

  lemma TwoInFlight(c: Config)
    requires Positive(c)
    ensures var r := Queued(Approved(c, CREATED, 0));
            Run(c, NEW, TwoOpen()) == Row(r, [Flight(r, 0), Flight(r, 0)], 2)
  {
    var first, begin := [Do(Approve(0, true, true, true))], Begin(true, 0);
    var r := Queued(Approved(c, CREATED, 0));
    assert first[..0] == [];
    assert Run(c, NEW, first) == Row(r, [], 0);
    RunPush(c, NEW, first, begin);
    assert Run(c, NEW, first + [begin]) == Row(r, [Flight(r, 0)], 1);
    RunPush(c, NEW, first + [begin], begin);
  }

  lemma RunPush(c: Config, row: Row, es: seq<Event>, e: Event)
    ensures Run(c, row, es + [e]) == Step(c, Run(c, row, es), e)
  {
    PushLast(es, e);
  }

  // ------------------------------------------------------------------ back-off

  lemma {:induction false} PowersGrow(n: nat)
    ensures 1 <= Power2(n) < Power2(n + 1)
    decreases n
  {
    if n > 0 {
      PowersGrow(n - 1);
    }
  }

  /** The retry delay is at least a second, never shrinks from one failure to the next and never passes the cap. */
  lemma DelaysGrow(c: Config, failures: nat)
    requires Positive(c) && failures > 0
    ensures 1 <= Delay(c, failures) <= Delay(c, failures + 1) <= c.maxDelay
    ensures c.initialDelay * Power2(failures) <= c.maxDelay ==> Delay(c, failures + 1) == 2 * Delay(c, failures)
  {
    PowersGrow(failures - 1);
    var p := Power2(failures - 1);
    assert Power2(failures) == 2 * p;
    assert c.initialDelay * (2 * p) == 2 * (c.initialDelay * p);
    assert c.initialDelay * p >= c.initialDelay by {
      assert (c.initialDelay) * (p - 1) >= 0;
    }
  }

  /**
   In a balanced row with an attempt open, a failure is the `calls`-th: it is put off by the initial delay doubled once for
   each earlier call, up to the cap, or escalated when it was the last one allowed.
   */
  lemma EveryFailureBacksOff(c: Config, row: Row)
    requires Positive(c) && RowBook(c, row) && |row.flights| == 1
    ensures var r := Step(c, row, Finish(0, Failed)).report;
            r.status == FILING_FAILED && r.retries == row.calls && row.calls > 0 &&
            (row.calls < c.maxRetry ==>
               r.retryAt == Some(row.flights[0].now + Min(c.initialDelay * Power2(row.calls - 1), c.maxDelay)) && !r.escalated) &&
            (row.calls == c.maxRetry ==> r.retryAt.None? && r.escalated)
  {
  }

  /** A filing is confirmed under the reference the connector gave it and no other. */
  lemma ConfirmsOnlyItsReference(c: Config, r: Report, now: int, given: string, ref: string)
    ensures Answer(c, Landed(c, r, now, Filed(Some(given))), Confirm(ref)) == Done <==> ref == given
  {
  }

  // ------------------------------------------------------------------ exactly what moves a report

  /** The decision on a report: the first approval by the CAMLCO with the declaration, or withdrawal by the CAMLCO with a reason. */
  datatype Decision = Open | ApprovedThen(at: int) | WithdrawnThen

  function DecisionOf(es: seq<Event>): Decision
    decreases |es|
  {
    if es == [] then Open
    else
      var before, e := DecisionOf(es[..|es| - 1]), es[|es| - 1];
      if before != Open || !e.Do? then before
      else if e.op.Approve? && e.op.isCamlco && e.op.declared then ApprovedThen(e.op.now)
      else if e.op.Withdraw? && e.op.isCamlco && e.op.reasonGiven then WithdrawnThen
      else Open
  }

  /** Over every run, overlapping attempts included, a report is under review until the first such decision, and afterwards
      withdrawn, or approved at its time with the filing clock running from it. */
  lemma {:induction false} FirstDecisionCounts(c: Config, es: seq<Event>)
    requires Positive(c)
    ensures var r := Run(c, NEW, es).report;
            match DecisionOf(es)
            case Open => r == CREATED && Run(c, NEW, es).flights == []
            case WithdrawnThen => r == CREATED.(status := WITHDRAWN) && Run(c, NEW, es).flights == []
            case ApprovedThen(at) => Decided(Run(c, NEW, es), at, at + c.filingClock)
    decreases |es|
  {
    if es != [] {
      var p, e := es[..|es| - 1], es[|es| - 1];
      FirstDecisionCounts(c, p);
      if DecisionOf(p).ApprovedThen? {
        ApprovedIsForever(c, Run(c, NEW, p), DecisionOf(p).at, DecisionOf(p).at + c.filingClock, [e]);
        RunPush(c, Run(c, NEW, p), [], e);
        assert [] + [e] == [e];
      }
    }
  }

  /** What brings a report to a status it was not in. */
  predicate BringsTo(c: Config, row: Row, e: Event, to: Status) {
    var r := row.report;
    match to
    case PENDING_CAMLCO_REVIEW => false
    case WITHDRAWN => r.status == PENDING_CAMLCO_REVIEW && e.Do? && e.op.Withdraw? && e.op.isCamlco && e.op.reasonGiven
    case CAMLCO_APPROVED =>
      r.status == PENDING_CAMLCO_REVIEW && e.Do? && e.op.Approve? && e.op.isCamlco && e.op.declared && !e.op.payloadOk
    case FILING_PENDING =>
      e.Do? && (|| (r.status == PENDING_CAMLCO_REVIEW && e.op.Approve? && e.op.isCamlco && e.op.declared && e.op.payloadOk)
                || (r.status == CAMLCO_APPROVED && e.op.Queue? && e.op.payloadOk)
                || (r.status == FILING_FAILED && e.op.Retry? && r.retries < c.maxRetry))
    case FILING_SUBMITTED => e.Finish? && e.i < |row.flights| && e.outcome.Filed?
    case FILING_FAILED => e.Finish? && e.i < |row.flights| && e.outcome.Failed?
    case FILING_CONFIRMED =>
      r.status == FILING_SUBMITTED && e.Do? && e.op.Confirm? && (r.goamlRef.None? || r.goamlRef.value == e.op.ref)
  }

  /** A report changes status exactly as the table says, and the caller is told Done exactly when it has moved on. */
  lemma ReportsMoveExactly(c: Config, row: Row, e: Event)
    ensures forall to :: to != row.report.status ==> (Step(c, row, e).report.status == to <==> BringsTo(c, row, e, to))
    ensures e.Do? ==> (Answer(c, row.report, e.op) == Done <==> exists to :: to != CAMLCO_APPROVED && BringsTo(c, row, e, to))
    ensures e.Begin? ==>
              Step(c, row, e).calls == row.calls + if row.report.status == FILING_PENDING && e.payloadOk then 1 else 0
  {
    if e.Do? && Answer(c, row.report, e.op) == Done {
      assert BringsTo(c, row, e, Step(c, row, e).report.status);
    }
  }

  /** A refusal names the first check that fails: the state, then the role, then what the operation itself asks for. */
  lemma RefusalsSayWhy(c: Config, r: Report, op: Op)
    ensures Answer(c, r, op) == TransitionDenied <==>
            || ((op.Approve? || op.Withdraw?) && r.status != PENDING_CAMLCO_REVIEW) || (op.Queue? && r.status != CAMLCO_APPROVED)
            || (op.Retry? && r.status != FILING_FAILED) || (op.Confirm? && r.status != FILING_SUBMITTED)
    ensures Answer(c, r, op) == NotCamlco <==>
            (op.Approve? || op.Withdraw?) && r.status == PENDING_CAMLCO_REVIEW && !op.isCamlco
    ensures Answer(c, r, op) == DeclarationRequired <==>
            op.Approve? && r.status == PENDING_CAMLCO_REVIEW && op.isCamlco && !op.declared
    ensures Answer(c, r, op) == ReasonRequired <==>
            op.Withdraw? && r.status == PENDING_CAMLCO_REVIEW && op.isCamlco && !op.reasonGiven
    ensures Answer(c, r, op) == RetryExhausted <==> op.Retry? && r.status == FILING_FAILED && r.retries >= c.maxRetry
    ensures Answer(c, r, op) == RefMismatch <==>
            op.Confirm? && r.status == FILING_SUBMITTED && r.goamlRef.Some? && r.goamlRef.value != op.ref
  {
  }

  // ------------------------------------------------------------------ due and settled within a tick

  predicate DueForFiling(r: Report) {
    r.status == CAMLCO_APPROVED || r.status == FILING_PENDING
  }

  predicate DueForRetry(c: Config, r: Report, now: int) {
    r.status == FILING_FAILED && r.retries < c.maxRetry && !(r.retryAt.Some? && r.retryAt.value > now)
  }
}

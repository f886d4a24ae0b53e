/**
 The report store under the scheduler (bdpay/app.py, bdpay/platform/scheduler.py, bdpay/compliance/str_workflow.py).

 In each tick the scheduler gathers its due tasks, so the filing sweep and the retry sweep run beside each other: a sweep
 runs from one connector call to the next without interruption, and whenever it awaits the connector the other sweep and
 any request may run. The filing sweep starts first, being listed first. The clock may move on between any two pieces of a
 tick, up to `until`, the last reading made in it.
 */
module StrTick {
  import opened Common
  import opened StrFiling

  type Reports = map<string, Report>

  /** A connector call that has not been answered: the row it will write back was read when it was made. */
  datatype Call = Call(id: string, snapshot: Report, at: int)

  /** The filing sweep: over the approved reports, then over the pending ones; `todo` is what is left of the list. */
  datatype Filing =
    | FilingIdle
    | FilingFirst(todo: seq<string>, call: Call)
    | FilingSecond(todo: seq<string>, call: Call)
    | FilingOver(aborted: bool)

  datatype Retrying =
    | RetryIdle
    | RetryOpen(todo: seq<string>, call: Call)
    | RetryOver(aborted: bool)

  /** `calls` are the connector calls ever made, `made` those of this tick, by report. */
  datatype World = World(
    reports: Reports,
    order: seq<string>,
    calls: seq<string>,
    made: seq<string>,
    filing: Filing,
    retry: Retrying,
    now: int,
    until: int)

  const EMPTY := World(map[], [], [], [], FilingIdle, RetryIdle, 0, 0)

  // ------------------------------------------------------------------ store queries

  /** The reports that satisfy `p`, in the order they were created. */
  function Select(reports: Reports, order: seq<string>, p: Report -> bool): seq<string> {
    if order == [] then []
    else (if order[0] in reports && p(reports[order[0]]) then [order[0]] else []) + Select(reports, order[1..], p)
  }

  function ByStatus(reports: Reports, order: seq<string>, status: Status): seq<string> {
    Select(reports, order, (r: Report) => r.status == status)
  }

  function DueIds(c: Config, reports: Reports, order: seq<string>, now: int): seq<string> {
    Select(reports, order, (r: Report) => DueForRetry(c, r, now))
  }

  lemma {:induction false} SelectLists(reports: Reports, order: seq<string>, p: Report -> bool)
    requires Distinct(order)
    ensures forall id :: id in Select(reports, order, p) <==> id in order && id in reports && p(reports[id])
    ensures Distinct(Select(reports, order, p))
    decreases |order|
  {
    if order != [] {
      SelectLists(reports, order[1..], p);
      assert order == [order[0]] + order[1..];
      assert order[0] !in order[1..];
    }
  }

  lemma ByStatusLists(reports: Reports, order: seq<string>, status: Status)
    requires Distinct(order) && forall id :: id in order <==> id in reports
    ensures forall id :: id in ByStatus(reports, order, status) <==> id in reports && reports[id].status == status
    ensures Distinct(ByStatus(reports, order, status))
  {
    SelectLists(reports, order, (r: Report) => r.status == status);
  }

  lemma DueIdsList(c: Config, reports: Reports, order: seq<string>, now: int)
    requires Distinct(order) && forall id :: id in order <==> id in reports
    ensures forall id :: id in DueIds(c, reports, order, now) <==> id in reports && DueForRetry(c, reports[id], now)
    ensures Distinct(DueIds(c, reports, order, now))
  {
    SelectLists(reports, order, (r: Report) => DueForRetry(c, r, now));
  }

  // ------------------------------------------------------------------ pieces

  datatype Piece =
    | Create(id: string)
    | Request(id: string, op: Op)
    | NewTick(now: int, until: int)
    | Pass(now: int)
    | FilingStart(ok: bool)
    | FilingResume(outcome: Outcome, ok: bool)
    | RetryStart(ok: bool)
    | RetryResume(outcome: Outcome, ok: bool)

  function Rewrite(w: World, id: string, r: Report): World {
    w.(reports := w.reports[id := r])
  }

  function Count(w: World, id: string): World {
    w.(calls := w.calls + [id], made := w.made + [id])
  }

  function Land(c: Config, w: World, call: Call, outcome: Outcome): World {
    Rewrite(w, call.id, Landed(c, call.snapshot, call.at, outcome))
  }

  /** The pending list from its next report on; `ok` says whether that report's payload can be built. */
  function FilePending(w: World, todo: seq<string>, ok: bool): World {
    if todo == [] then w.(filing := FilingOver(false))
    else
      var id := todo[0];
      if id !in w.reports || w.reports[id].status != FILING_PENDING || !ok then w.(filing := FilingOver(true))
      else Count(w, id).(filing := FilingSecond(todo[1..], Call(id, w.reports[id], w.now)))
  }

  /** The approved list from its next report on; at its end the pending reports are listed. */
  function FileApproved(w: World, todo: seq<string>, ok: bool): World {
    if todo == [] then FilePending(w, ByStatus(w.reports, w.order, FILING_PENDING), ok)
    else
      var id := todo[0];
      if id !in w.reports || w.reports[id].status != CAMLCO_APPROVED || !ok then w.(filing := FilingOver(true))
      else
        var queued := Queued(w.reports[id]);
        Count(Rewrite(w, id, queued), id).(filing := FilingFirst(todo[1..], Call(id, queued, w.now)))
  }

  /** The retry list from its next report on: the report is reopened before its payload is built. */
  function RetryNext(c: Config, w: World, todo: seq<string>, ok: bool): World {
    if todo == [] then w.(retry := RetryOver(false))
    else
      var id := todo[0];
      if id !in w.reports || Answer(c, w.reports[id], Retry) != Done then w.(retry := RetryOver(true))
      else
        var reopened := Advance(c, w.reports[id], Retry);
        if !ok then Rewrite(w, id, reopened).(retry := RetryOver(true))
        else Count(Rewrite(w, id, reopened), id).(retry := RetryOpen(todo[1..], Call(id, reopened, w.now)))
  }

  /** Only requests of these kinds come from outside the sweeps. */
  predicate Background(op: Op) {
    op.Approve? || op.Withdraw? || op.Confirm?
  }

  predicate Resting(w: World) {
    (w.filing.FilingIdle? || w.filing.FilingOver?) && (w.retry.RetryIdle? || w.retry.RetryOver?)
  }

  function Next(c: Config, w: World, e: Piece): World {
    match e
    case Create(id) => if id in w.reports then w else Rewrite(w, id, CREATED).(order := w.order + [id])
    case Request(id, op) =>
      if id !in w.reports || !Background(op) then w else Rewrite(w, id, Advance(c, w.reports[id], op))
    case NewTick(now, until) =>
      if Resting(w) && now <= until
      then w.(made := [], filing := FilingIdle, retry := RetryIdle, now := now, until := until) else w
    case Pass(now) => if w.now <= now <= w.until then w.(now := now) else w
    case FilingStart(ok) =>
      if w.filing.FilingIdle? then FileApproved(w, ByStatus(w.reports, w.order, CAMLCO_APPROVED), ok) else w
    case FilingResume(outcome, ok) =>
      if w.filing.FilingFirst? then FileApproved(Land(c, w, w.filing.call, outcome), w.filing.todo, ok)
      else if w.filing.FilingSecond? then FilePending(Land(c, w, w.filing.call, outcome), w.filing.todo, ok)
      else w
    case RetryStart(ok) =>
      if w.retry.RetryIdle? && !w.filing.FilingIdle? then RetryNext(c, w, DueIds(c, w.reports, w.order, w.now), ok) else w
    case RetryResume(outcome, ok) =>
      if w.retry.RetryOpen? then RetryNext(c, Land(c, w, w.retry.call, outcome), w.retry.todo, ok) else w
  }

  function After(c: Config, w: World, es: seq<Piece>): World {
    if es == [] then w else Next(c, After(c, w, es[..|es| - 1]), es[|es| - 1])
  }

  lemma AfterPush(c: Config, w: World, es: seq<Piece>, e: Piece)
    ensures After(c, w, es + [e]) == Next(c, After(c, w, es), e)
  {
    PushLast(es, e);
  }

  lemma {:induction false} AfterConcat(c: Config, w: World, a: seq<Piece>, b: seq<Piece>)
    ensures After(c, w, a + b) == After(c, After(c, w, a), b)
    decreases |b|
  {
    if b == [] {
      assert a + b == a;
    } else {
      var rest, last := b[..|b| - 1], b[|b| - 1];
      AfterConcat(c, w, a, rest);
      assert a + b == (a + rest) + [last];
      AfterPush(c, w, a + rest, last);
    }
  }

  // ------------------------------------------------------------------ what every run keeps

  ghost predicate StoreOk(c: Config, reports: Reports, order: seq<string>) {
    Distinct(order) && (forall id :: id in order <==> id in reports) && forall id :: id in reports ==> Sound(c, reports[id])
  }

  /** A decided report stays decided, with the same approval and due times. */
  predicate Keeps(r: Report, r': Report) {
    !BeforeDecision(r.status) ==> !BeforeDecision(r'.status) && r'.approvedAt == r.approvedAt && r'.dueAt == r.dueAt
  }

  ghost predicate CallOk(c: Config, reports: Reports, call: Call) {
    && call.id in reports && Sound(c, call.snapshot) && call.snapshot.status == FILING_PENDING
    && Keeps(call.snapshot, reports[call.id])
  }

  ghost predicate Known(reports: Reports, ids: seq<string>) {
    forall id :: id in ids ==> id in reports
  }

  ghost predicate TasksOk(c: Config, w: World) {
    && (w.filing.FilingFirst? || w.filing.FilingSecond? ==> CallOk(c, w.reports, w.filing.call))
    && (w.retry.RetryOpen? ==> CallOk(c, w.reports, w.retry.call))
  }

  /** Every report and every snapshot in flight is sound, in every run. */
  ghost predicate WorldOk(c: Config, w: World) {
    StoreOk(c, w.reports, w.order) && Known(w.reports, w.calls) && Known(w.reports, w.made) && TasksOk(c, w)
  }

  lemma RewriteKeepsOk(c: Config, w: World, id: string, r: Report)
    requires WorldOk(c, w) && id in w.reports && Sound(c, r) && Keeps(w.reports[id], r)
    ensures WorldOk(c, Rewrite(w, id, r))
  {
  }

  lemma CountKeepsOk(c: Config, w: World, id: string)
    requires WorldOk(c, w) && id in w.reports
    ensures WorldOk(c, Count(w, id))
  {
  }

  lemma LandKeepsOk(c: Config, w: World, call: Call, outcome: Outcome)
    requires Positive(c) && WorldOk(c, w) && CallOk(c, w.reports, call)
    ensures WorldOk(c, Land(c, w, call, outcome))
  {
    LandedKeepsSound(c, call.snapshot, call.at, outcome);
    RewriteKeepsOk(c, w, call.id, Landed(c, call.snapshot, call.at, outcome));
  }

  lemma FilePendingKeepsOk(c: Config, w: World, todo: seq<string>, ok: bool)
    requires WorldOk(c, w)
    ensures WorldOk(c, FilePending(w, todo, ok))
  {
    if todo != [] && todo[0] in w.reports {
      CountKeepsOk(c, w, todo[0]);
    }
  }

  lemma FileApprovedKeepsOk(c: Config, w: World, todo: seq<string>, ok: bool)
    requires Positive(c) && WorldOk(c, w)
    ensures WorldOk(c, FileApproved(w, todo, ok))
  {
    if todo == [] {
      FilePendingKeepsOk(c, w, ByStatus(w.reports, w.order, FILING_PENDING), ok);
    } else if todo[0] in w.reports && w.reports[todo[0]].status == CAMLCO_APPROVED {
      var queued := Queued(w.reports[todo[0]]);
      assert Sound(c, queued);
      RewriteKeepsOk(c, w, todo[0], queued);
      CountKeepsOk(c, Rewrite(w, todo[0], queued), todo[0]);
    }
  }

  lemma RetryNextKeepsOk(c: Config, w: World, todo: seq<string>, ok: bool)
    requires Positive(c) && WorldOk(c, w)
    ensures WorldOk(c, RetryNext(c, w, todo, ok))
  {
    if todo != [] && todo[0] in w.reports && Answer(c, w.reports[todo[0]], Retry) == Done {
      var reopened := Advance(c, w.reports[todo[0]], Retry);
      AdvanceKeepsSound(c, w.reports[todo[0]], Retry);
      RewriteKeepsOk(c, w, todo[0], reopened);
      CountKeepsOk(c, Rewrite(w, todo[0], reopened), todo[0]);
    }
  }

  lemma CreateKeepsOk(c: Config, w: World, id: string)
    requires Positive(c) && WorldOk(c, w) && id !in w.reports
    ensures WorldOk(c, Rewrite(w, id, CREATED).(order := w.order + [id]))
  {
    assert Sound(c, CREATED);
  }

  lemma StepKeepsOk(c: Config, w: World, e: Piece)
    requires Positive(c) && WorldOk(c, w)
    ensures WorldOk(c, Next(c, w, e))
  {
    match e
    case Create(id) => if id !in w.reports { CreateKeepsOk(c, w, id); }
    case Request(id, op) =>
      if id in w.reports && Background(op) {
        AdvanceKeepsSound(c, w.reports[id], op);
        RewriteKeepsOk(c, w, id, Advance(c, w.reports[id], op));
      }
    case NewTick(_, _) =>
    case Pass(_) =>
    case FilingStart(ok) => FileApprovedKeepsOk(c, w, ByStatus(w.reports, w.order, CAMLCO_APPROVED), ok);
    case FilingResume(outcome, ok) =>
      if w.filing.FilingFirst? || w.filing.FilingSecond? {
        LandKeepsOk(c, w, w.filing.call, outcome);
        FileApprovedKeepsOk(c, Land(c, w, w.filing.call, outcome), w.filing.todo, ok);
        FilePendingKeepsOk(c, Land(c, w, w.filing.call, outcome), w.filing.todo, ok);
      }
    case RetryStart(ok) => RetryNextKeepsOk(c, w, DueIds(c, w.reports, w.order, w.now), ok);
    case RetryResume(outcome, ok) =>
      if w.retry.RetryOpen? {
        LandKeepsOk(c, w, w.retry.call, outcome);
        RetryNextKeepsOk(c, Land(c, w, w.retry.call, outcome), w.retry.todo, ok);
      }
  }

  /** Whatever the sweeps and the requests do, in any interleaving, every stored report stays sound. */
  lemma {:induction false} RunKeepsOk(c: Config, w: World, es: seq<Piece>)
    requires Positive(c) && WorldOk(c, w)
    ensures WorldOk(c, After(c, w, es))
    decreases |es|
  {
    if es != [] {
      RunKeepsOk(c, w, es[..|es| - 1]);
      StepKeepsOk(c, After(c, w, es[..|es| - 1]), es[|es| - 1]);
    }
  }

  ghost predicate AllKept(a: Reports, b: Reports) {
    forall id :: id in a ==> id in b && Keeps(a[id], b[id])
  }

  lemma LandKeepsDecisions(c: Config, w: World, call: Call, outcome: Outcome)
    requires CallOk(c, w.reports, call)
    ensures AllKept(w.reports, Land(c, w, call, outcome).reports)
  {
  }

  lemma FilingKeepsDecisions(w: World, todo: seq<string>, ok: bool)
    ensures FilePending(w, todo, ok).reports == w.reports
    ensures AllKept(w.reports, FileApproved(w, todo, ok).reports)
  {
  }

  lemma RetryKeepsDecisions(c: Config, w: World, todo: seq<string>, ok: bool)
    ensures AllKept(w.reports, RetryNext(c, w, todo, ok).reports)
  {
  }

  lemma StepKeepsDecisions(c: Config, w: World, e: Piece)
    requires Positive(c) && WorldOk(c, w)
    ensures AllKept(w.reports, Next(c, w, e).reports)
  {
    match e
    case FilingStart(ok) => FilingKeepsDecisions(w, ByStatus(w.reports, w.order, CAMLCO_APPROVED), ok);
    case FilingResume(outcome, ok) =>
      if w.filing.FilingFirst? || w.filing.FilingSecond? {
        LandKeepsDecisions(c, w, w.filing.call, outcome);
        FilingKeepsDecisions(Land(c, w, w.filing.call, outcome), w.filing.todo, ok);
      }
    case RetryStart(ok) => RetryKeepsDecisions(c, w, DueIds(c, w.reports, w.order, w.now), ok);
    case RetryResume(outcome, ok) =>
      if w.retry.RetryOpen? {
        LandKeepsDecisions(c, w, w.retry.call, outcome);
        RetryKeepsDecisions(c, Land(c, w, w.retry.call, outcome), w.retry.todo, ok);
      }
    case _ =>
  }

  /** An approved report is never withdrawn or lost and keeps its due time, however the sweeps overlap. */
  lemma {:induction false} ApprovedStaysApproved(c: Config, w: World, es: seq<Piece>, id: string)
    requires Positive(c) && WorldOk(c, w) && id in w.reports
    ensures id in After(c, w, es).reports && Keeps(w.reports[id], After(c, w, es).reports[id])
    decreases |es|
  {
    if es != [] {
      var rest := es[..|es| - 1];
      ApprovedStaysApproved(c, w, rest, id);
      RunKeepsOk(c, w, rest);
      StepKeepsDecisions(c, After(c, w, rest), es[|es| - 1]);
    }
  }

  /** The retry sweep at its next report: over when the list is; broken off when the report is not failed with budget left, or when
      its payload cannot be built, then with the report reopened all the same; and else calling for it. */
  lemma RetryTurnsExactly(c: Config, w: World, todo: seq<string>, ok: bool)
    ensures var t := RetryNext(c, w, todo, ok);
            && (t.retry == RetryOver(false) <==> todo == [])
            && (todo != [] ==>
                  var reopens := todo[0] in w.reports && w.reports[todo[0]].status == FILING_FAILED && w.reports[todo[0]].retries < c.maxRetry;
                  && (t.retry == RetryOver(true) <==> !reopens || !ok)
                  && t.reports == (if reopens
                                   then w.reports[todo[0] := w.reports[todo[0]].(status := FILING_PENDING, retryAt := None)]
                                   else w.reports)
                  && t.made == (if reopens && ok then w.made + [todo[0]] else w.made))
            && t.filing == w.filing
  {
  }

  /** The filing sweep at its next pending report: over when the list is, broken off when the report is not pending any more or
      cannot be built, and else calling for it. */
  lemma FilingTurnsExactly(w: World, todo: seq<string>, ok: bool)
    ensures var t := FilePending(w, todo, ok);
            && t.reports == w.reports && t.retry == w.retry
            && (t.filing == FilingOver(false) <==> todo == [])
            && (todo != [] ==>
                  var files := todo[0] in w.reports && w.reports[todo[0]].status == FILING_PENDING && ok;
                  && (t.filing == FilingOver(true) <==> !files)
                  && t.made == (if files then w.made + [todo[0]] else w.made)
                  && (files ==> t.filing == FilingSecond(todo[1..], Call(todo[0], w.reports[todo[0]], w.now))))
  {
  }

  /** From outside come decisions, withdrawals and confirmations, on the report they name; queueing and retrying are the sweeps'. */
  lemma RequestsActExactly(c: Config, w: World, id: string, op: Op)
    ensures var t := Next(c, w, Request(id, op));
            t == if id in w.reports && (op.Approve? || op.Withdraw? || op.Confirm?)
                 then w.(reports := w.reports[id := Advance(c, w.reports[id], op)]) else w
  {
  }

  // ------------------------------------------------------------------ one call per report and tick

  function Opens(w: World, id: string): nat {
    (if (w.filing.FilingFirst? || w.filing.FilingSecond?) && w.filing.call.id == id then 1 else 0) +
    (if w.retry.RetryOpen? && w.retry.call.id == id then 1 else 0)
  }

  /** Every connector call made for a report is answered in it or open. */
  predicate BookOf(c: Config, w: World, id: string) {
    id in w.reports ==> Book(c, w.reports[id], Opens(w, id), multiset(w.calls)[id])
  }

  /** What an open call will write back is the report as it stands. */
  predicate Current(w: World, call: Call) {
    call.id in w.reports && call.snapshot == w.reports[call.id]
  }

  ghost predicate Balanced(c: Config, w: World) {
    && (forall id :: BookOf(c, w, id))
    && (w.filing.FilingFirst? || w.filing.FilingSecond? ==> Current(w, w.filing.call))
    && (w.retry.RetryOpen? ==> Current(w, w.retry.call))
  }

  ghost predicate NoneDue(c: Config, w: World) {
    forall id :: id in w.reports ==> !DueForRetry(c, w.reports[id], w.until)
  }

  ghost predicate NoneApproved(w: World) {
    forall id :: id in w.reports ==> w.reports[id].status != CAMLCO_APPROVED
  }

  /** A call on this report made at `at`, should it fail, is not due for retry by `until`. */
  predicate Quiet(c: Config, r: Report, at: int, until: int) {
    r.retries + 1 >= c.maxRetry || until < at + Delay(c, r.retries + 1)
  }

  ghost predicate NoneComesBack(c: Config, w: World) {
    forall id :: id in w.reports && DueForFiling(w.reports[id]) ==> Quiet(c, w.reports[id], w.now, w.until)
  }

  /** The sweeps of this tick cannot meet: there is nothing to queue or nothing to retry, and nothing to be filed can fail and
      be due for retry before the tick is over. */
  ghost predicate Apart(c: Config, w: World) {
    (NoneApproved(w) || NoneDue(c, w)) && NoneComesBack(c, w)
  }

  /** Whatever is filed from now on, no failure is due for retry in this tick. */
  predicate AllQuiet(c: Config, w: World) {
    c.maxRetry <= 1 || w.until < w.now + Delay(c, 1)
  }

  /** Not to be called again in this tick: accepted, or failed with its retry spent, still ahead at the end of the tick or
      missed by a retry sweep that has made its list. */
  predicate Spent(c: Config, w: World, id: string) {
    id in w.reports &&
    (Delivered(w.reports[id].status) ||
     (w.reports[id].status == FILING_FAILED && (!DueForRetry(c, w.reports[id], w.until) || !w.retry.RetryIdle?)))
  }

  /** A report called in this tick is still waiting for its answer, or spent. */
  predicate MadeOf(c: Config, w: World, id: string) {
    id in w.made ==> id in w.reports && (Opens(w, id) > 0 || Spent(c, w, id))
  }

  ghost predicate CalledOnce(c: Config, w: World) {
    Distinct(w.made) && forall id :: MadeOf(c, w, id)
  }

  ghost predicate ApprovedList(w: World, todo: seq<string>) {
    Distinct(todo) && forall id :: id in todo ==> id in w.reports && w.reports[id].status == CAMLCO_APPROVED
  }

  ghost predicate PendingList(c: Config, w: World, todo: seq<string>) {
    Distinct(todo) &&
    forall id :: id in todo ==>
      id in w.reports && w.reports[id].status == FILING_PENDING && Opens(w, id) == 0 && Quiet(c, w.reports[id], w.now, w.until)
  }

  ghost predicate DueList(c: Config, w: World, todo: seq<string>) {
    Distinct(todo) && forall id :: id in todo ==> id in w.reports && DueForRetry(c, w.reports[id], w.until) && id !in w.made
  }

  /** While approved reports are being filed nothing is due for retry; what is listed is still as it was listed; and no call of
      the filing sweep can come back in this tick. */
  ghost predicate ListsOk(c: Config, w: World) {
    && w.now <= w.until
    && (w.filing.FilingIdle? ==> w.retry.RetryIdle?)
    && (w.filing.FilingFirst? ==> NoneDue(c, w) && AllQuiet(c, w) && !w.retry.RetryOpen? && ApprovedList(w, w.filing.todo))
    && (w.filing.FilingSecond? ==> PendingList(c, w, w.filing.todo))
    && (w.filing.FilingFirst? || w.filing.FilingSecond? ==> Quiet(c, w.filing.call.snapshot, w.filing.call.at, w.until))
    && (w.retry.RetryOpen? ==> DueList(c, w, w.retry.todo))
  }

  ghost predicate Calm(c: Config, w: World) {
    WorldOk(c, w) && Balanced(c, w) && CalledOnce(c, w) && ListsOk(c, w)
  }

  // One report's book.

  lemma AdvanceBook(c: Config, r: Report, op: Op, open: nat, calls: nat)
    requires Positive(c) && Book(c, r, open, calls)
    ensures Book(c, Advance(c, r, op), open, calls)
  {
    AdvanceKeepsSound(c, r, op);
  }

  lemma CallBook(c: Config, r: Report, calls: nat)
    requires Book(c, r, 0, calls) && r.status == FILING_PENDING
    ensures Book(c, r, 1, calls + 1)
  {
  }

  lemma LandedBook(c: Config, r: Report, calls: nat, at: int, outcome: Outcome)
    requires Positive(c) && Book(c, r, 1, calls)
    ensures Book(c, Landed(c, r, at, outcome), 0, calls)
  {
    LandedKeepsSound(c, r, at, outcome);
  }

  lemma {:induction false} FirstDelayIsShortest(c: Config, failures: nat)
    requires Positive(c) && failures > 0
    ensures Delay(c, 1) <= Delay(c, failures)
  {
    if failures > 1 {
      FirstDelayIsShortest(c, failures - 1);
      DelaysGrow(c, failures - 1);
    }
  }

  lemma QuietTickBringsNoneBack(c: Config, w: World)
    requires Positive(c) && AllQuiet(c, w)
    ensures NoneComesBack(c, w)
  {
    forall id | id in w.reports ensures Quiet(c, w.reports[id], w.now, w.until) {
      FirstDelayIsShortest(c, w.reports[id].retries + 1);
    }
  }

  lemma QuietStaysQuiet(c: Config, w: World, r: Report, now: int)
    requires Quiet(c, r, w.now, w.until) && w.now <= now
    ensures Quiet(c, r, now, w.until)
  {
  }

  lemma CallsCount(s: seq<string>, x: string, id: string)
    ensures multiset(s + [x])[id] == multiset(s)[id] + if x == id then 1 else 0
  {
    assert multiset(s + [x]) == multiset(s) + multiset{x};
  }

  // Requests and creations.

  lemma CreateKeepsCalm(c: Config, w: World, id: string)
    requires Positive(c) && Calm(c, w) && id !in w.reports
    ensures Calm(c, Rewrite(w, id, CREATED).(order := w.order + [id]))
  {
    CreateKeepsOk(c, w, id);
    var t := Rewrite(w, id, CREATED).(order := w.order + [id]);
    assert multiset(w.calls)[id] == 0;
    forall x ensures BookOf(c, t, x) && MadeOf(c, t, x) {
      assert BookOf(c, w, x) && MadeOf(c, w, x);
    }
  }

  /** Only reports under review and submitted ones move on request, and those no sweep has on its list. */
  lemma RequestKeepsCalm(c: Config, w: World, id: string, op: Op)
    requires Positive(c) && Calm(c, w) && id in w.reports && Background(op)
    ensures Calm(c, Rewrite(w, id, Advance(c, w.reports[id], op)))
  {
    var r, r' := w.reports[id], Advance(c, w.reports[id], op);
    if r' == r {
      assert Rewrite(w, id, r') == w;
    } else {
      StepKeepsOk(c, w, Request(id, op));
      if Book(c, r, 0, multiset(w.calls)[id]) {
        AdvanceBook(c, r, op, 0, multiset(w.calls)[id]);
      }
      MovedKeepsCalm(c, w, id, r');
    }
  }

  /** A report under review decided, or a submitted one confirmed. */
  predicate Moves(r: Report, r': Report) {
    (r.status == PENDING_CAMLCO_REVIEW && r'.status != FILING_FAILED && !Delivered(r'.status)) ||
    (r.status == FILING_SUBMITTED && r'.status == FILING_CONFIRMED)
  }

  lemma MovedKeepsCalm(c: Config, w: World, id: string, r: Report)
    requires Calm(c, w) && WorldOk(c, Rewrite(w, id, r)) && id in w.reports && Moves(w.reports[id], r)
    requires Book(c, w.reports[id], 0, multiset(w.calls)[id]) ==> Book(c, r, 0, multiset(w.calls)[id])
    ensures Calm(c, Rewrite(w, id, r))
  {
    assert BookOf(c, w, id);
    assert Opens(w, id) == 0;
    MovedKeepsBooks(c, w, id, r);
  }

  lemma MovedKeepsBooks(c: Config, w: World, id: string, r: Report)
    requires Calm(c, w) && id in w.reports && Moves(w.reports[id], r) && Opens(w, id) == 0
    requires Book(c, w.reports[id], 0, multiset(w.calls)[id]) ==> Book(c, r, 0, multiset(w.calls)[id])
    ensures forall x :: BookOf(c, Rewrite(w, id, r), x) && MadeOf(c, Rewrite(w, id, r), x)
  {
    var t := Rewrite(w, id, r);
    forall x ensures BookOf(c, t, x) && MadeOf(c, t, x) {
      assert BookOf(c, w, x) && MadeOf(c, w, x) && Opens(t, x) == Opens(w, x);
    }
  }

  // Between two calls of a sweep: the last one has been answered, the next one not made.

  function FilingGap(w: World): World {
    w.(filing := FilingOver(false))
  }

  function RetryGap(w: World): World {
    w.(retry := RetryOver(false))
  }

  lemma TouchBook(c: Config, w: World, t: World, id: string)
    requires forall x :: x != id ==> BookOf(c, w, x) && MadeOf(c, w, x)
    requires t.until == w.until && (t.retry.RetryIdle? ==> w.retry.RetryIdle?)
    requires forall x :: x != id ==> (x in t.reports <==> x in w.reports) && (x in w.reports ==> t.reports[x] == w.reports[x])
    requires forall x :: x != id ==>
               Opens(t, x) == Opens(w, x) && multiset(t.calls)[x] == multiset(w.calls)[x] && (x in t.made <==> x in w.made)
    requires BookOf(c, t, id) && MadeOf(c, t, id)
    ensures forall x :: BookOf(c, t, x) && MadeOf(c, t, x)
  {
    forall x ensures BookOf(c, t, x) && MadeOf(c, t, x) {
      if x != id {
        assert BookOf(c, w, x) && MadeOf(c, w, x);
      }
    }
  }

  lemma LandedReport(c: Config, w: World, call: Call, outcome: Outcome)
    requires Positive(c) && BookOf(c, w, call.id) && Current(w, call) && Opens(w, call.id) >= 1
    ensures var r := Landed(c, call.snapshot, call.at, outcome);
            Opens(w, call.id) == 1 && Book(c, r, 0, multiset(w.calls)[call.id]) &&
            (Delivered(r.status) || r.status == FILING_FAILED) &&
            (Quiet(c, call.snapshot, call.at, w.until) ==> !DueForRetry(c, r, w.until))
  {
    LandedBook(c, call.snapshot, multiset(w.calls)[call.id], call.at, outcome);
  }

  lemma FilingLandKeepsBooks(c: Config, w: World, outcome: Outcome)
    requires Positive(c) && Calm(c, w) && (w.filing.FilingFirst? || w.filing.FilingSecond?)
    ensures var t := FilingGap(Land(c, w, w.filing.call, outcome)); forall x :: BookOf(c, t, x) && MadeOf(c, t, x)
  {
    var call := w.filing.call;
    assert BookOf(c, w, call.id);
    LandedReport(c, w, call, outcome);
    TouchBook(c, w, FilingGap(Land(c, w, call, outcome)), call.id);
  }

  lemma FilingLandKeepsCalm(c: Config, w: World, outcome: Outcome)
    requires Positive(c) && Calm(c, w) && (w.filing.FilingFirst? || w.filing.FilingSecond?)
    ensures Calm(c, FilingGap(Land(c, w, w.filing.call, outcome)))
  {
    LandKeepsOk(c, w, w.filing.call, outcome);
    FilingLandKeepsBooks(c, w, outcome);
    assert BookOf(c, w, w.filing.call.id);
  }

  lemma FilingLandKeepsLists(c: Config, w: World, outcome: Outcome)
    requires Positive(c) && Calm(c, w) && (w.filing.FilingFirst? || w.filing.FilingSecond?)
    ensures var t := FilingGap(Land(c, w, w.filing.call, outcome));
            (w.filing.FilingFirst? ==> NoneDue(c, t) && AllQuiet(c, t) && !t.retry.RetryOpen? && ApprovedList(t, w.filing.todo)) &&
            (w.filing.FilingSecond? ==> PendingList(c, t, w.filing.todo))
  {
    var call := w.filing.call;
    assert BookOf(c, w, call.id);
    LandedReport(c, w, call, outcome);
  }

  /** A call on a pending report nobody has open, not called in this tick. */
  lemma CallIsFirst(c: Config, w: World, id: string)
    requires CalledOnce(c, w) && id in w.reports && Opens(w, id) == 0 && !Spent(c, w, id)
    ensures id !in w.made && Distinct(w.made + [id])
  {
    assert MadeOf(c, w, id);
  }

  lemma FilePendingKeepsCalm(c: Config, w: World, todo: seq<string>, ok: bool)
    requires Positive(c) && Calm(c, w) && w.filing.FilingOver? && PendingList(c, w, todo)
    ensures Calm(c, FilePending(w, todo, ok))
  {
    FilePendingKeepsOk(c, w, todo, ok);
    var t := FilePending(w, todo, ok);
    if todo == [] || !ok {
      OverKeepsCalm(c, w, t);
    } else {
      var id := todo[0];
      assert BookOf(c, w, id);
      CallBook(c, w.reports[id], multiset(w.calls)[id]);
      CallIsFirst(c, w, id);
      forall x ensures multiset(t.calls)[x] == multiset(w.calls)[x] + if x == id then 1 else 0 {
        CallsCount(w.calls, id, x);
      }
      TouchBook(c, w, t, id);
      RestIsListed(todo);
    }
  }

  lemma OverKeepsCalm(c: Config, w: World, t: World)
    requires Calm(c, w) && w.filing.FilingOver? && t.filing.FilingOver? && t == w.(filing := t.filing)
    ensures Calm(c, t)
  {
    forall x ensures BookOf(c, t, x) && MadeOf(c, t, x) {
      assert BookOf(c, w, x) && MadeOf(c, w, x) && Opens(t, x) == Opens(w, x);
    }
  }

  lemma RestIsListed(todo: seq<string>)
    requires todo != [] && Distinct(todo)
    ensures Distinct(todo[1..]) && todo[0] !in todo[1..] && forall id :: id in todo[1..] ==> id in todo
  {
  }

  lemma PendingAreListed(c: Config, w: World)
    requires Calm(c, w) && w.filing.FilingOver? && !w.retry.RetryOpen? && NoneComesBack(c, w)
    ensures PendingList(c, w, ByStatus(w.reports, w.order, FILING_PENDING))
  {
    ByStatusLists(w.reports, w.order, FILING_PENDING);
  }

  lemma FileApprovedKeepsCalm(c: Config, w: World, todo: seq<string>, ok: bool)
    requires Positive(c) && Calm(c, w) && w.filing.FilingOver? && !w.retry.RetryOpen?
    requires ApprovedList(w, todo) && (todo != [] ==> NoneDue(c, w) && AllQuiet(c, w)) && NoneComesBack(c, w)
    ensures Calm(c, FileApproved(w, todo, ok))
  {
    FileApprovedKeepsOk(c, w, todo, ok);
    var t := FileApproved(w, todo, ok);
    if todo == [] {
      PendingAreListed(c, w);
      FilePendingKeepsCalm(c, w, ByStatus(w.reports, w.order, FILING_PENDING), ok);
    } else if !ok {
      OverKeepsCalm(c, w, t);
    } else {
      var id := todo[0];
      assert BookOf(c, w, id);
      AdvanceBook(c, w.reports[id], Queue(true), 0, multiset(w.calls)[id]);
      CallBook(c, Queued(w.reports[id]), multiset(w.calls)[id]);
      CallIsFirst(c, w, id);
      forall x ensures multiset(t.calls)[x] == multiset(w.calls)[x] + if x == id then 1 else 0 {
        CallsCount(w.calls, id, x);
      }
      TouchBook(c, w, t, id);
      RestIsListed(todo);
    }
  }

  lemma RetryLandKeepsCalm(c: Config, w: World, outcome: Outcome)
    requires Positive(c) && Calm(c, w) && w.retry.RetryOpen?
    ensures Calm(c, RetryGap(Land(c, w, w.retry.call, outcome)))
    ensures DueList(c, RetryGap(Land(c, w, w.retry.call, outcome)), w.retry.todo)
  {
    var call := w.retry.call;
    var t := RetryGap(Land(c, w, call, outcome));
    LandKeepsOk(c, w, call, outcome);
    assert BookOf(c, w, call.id);
    LandedReport(c, w, call, outcome);
    TouchBook(c, w, t, call.id);
  }

  lemma RetryOverKeepsCalm(c: Config, w: World, t: World)
    requires Calm(c, w) && w.retry.RetryOver? && t.retry.RetryOver? && t == w.(retry := t.retry)
    ensures Calm(c, t)
  {
    forall x ensures BookOf(c, t, x) && MadeOf(c, t, x) {
      assert BookOf(c, w, x) && MadeOf(c, w, x) && Opens(t, x) == Opens(w, x);
    }
  }

  /** Reopening a due report, with or without the call that follows. */
  lemma ReopenKeepsCalm(c: Config, w: World, todo: seq<string>, ok: bool)
    requires Positive(c) && Calm(c, w) && w.retry.RetryOver? && DueList(c, w, todo) && todo != []
    ensures Calm(c, RetryNext(c, w, todo, ok))
  {
    RetryNextKeepsOk(c, w, todo, ok);
    var id, t := todo[0], RetryNext(c, w, todo, ok);
    assert BookOf(c, w, id);
    AdvanceBook(c, w.reports[id], Retry, 0, multiset(w.calls)[id]);
    CallBook(c, Advance(c, w.reports[id], Retry), multiset(w.calls)[id]);
    if ok {
      forall x ensures multiset(t.calls)[x] == multiset(w.calls)[x] + if x == id then 1 else 0 {
        CallsCount(w.calls, id, x);
      }
    }
    TouchBook(c, w, t, id);
    RestIsListed(todo);
  }

  lemma RetryNextKeepsCalm(c: Config, w: World, todo: seq<string>, ok: bool)
    requires Positive(c) && Calm(c, w) && w.retry.RetryOver? && DueList(c, w, todo)
    ensures Calm(c, RetryNext(c, w, todo, ok))
  {
    if todo == [] {
      RetryOverKeepsCalm(c, w, RetryNext(c, w, todo, ok));
    } else {
      ReopenKeepsCalm(c, w, todo, ok);
    }
  }

  lemma IdleGapIsCalm(c: Config, w: World, g: World)
    requires Calm(c, w)
    requires (w.filing.FilingIdle? && g == FilingGap(w)) || (w.retry.RetryIdle? && !w.filing.FilingIdle? && g == RetryGap(w))
    ensures Calm(c, g)
  {
    forall x ensures BookOf(c, g, x) && MadeOf(c, g, x) {
      assert BookOf(c, w, x) && MadeOf(c, w, x) && Opens(g, x) == Opens(w, x);
    }
  }

  lemma GapFilesAlike(w: World, todo: seq<string>, ok: bool)
    ensures FileApproved(FilingGap(w), todo, ok) == FileApproved(w, todo, ok)
    ensures FilePending(FilingGap(w), todo, ok) == FilePending(w, todo, ok)
  {
  }

  /** A retry piece goes on from the gap as if from the world it is in. */
  lemma RetryPieces(c: Config, w: World, outcome: Outcome, ok: bool)
    ensures w.retry.RetryIdle? && !w.filing.FilingIdle? ==>
              Next(c, w, RetryStart(ok)) == RetryNext(c, RetryGap(w), DueIds(c, w.reports, w.order, w.now), ok)
    ensures w.retry.RetryOpen? ==>
              Next(c, w, RetryResume(outcome, ok)) ==
              RetryNext(c, RetryGap(Land(c, w, w.retry.call, outcome)), w.retry.todo, ok)
  {
  }

  // The kinds of steps.

  lemma FilingStartKeepsCalm(c: Config, w: World, ok: bool)
    requires Positive(c) && Calm(c, w) && w.filing.FilingIdle? && Apart(c, w)
    ensures Calm(c, Next(c, w, FilingStart(ok)))
  {
    var g, todo := FilingGap(w), ByStatus(w.reports, w.order, CAMLCO_APPROVED);
    ByStatusLists(w.reports, w.order, CAMLCO_APPROVED);
    IdleGapIsCalm(c, w, g);
    if todo != [] {
      assert todo[0] in todo && Sound(c, w.reports[todo[0]]);
    }
    FileApprovedKeepsCalm(c, g, todo, ok);
    GapFilesAlike(w, todo, ok);
  }

  lemma FilingResumeKeepsCalm(c: Config, w: World, outcome: Outcome, ok: bool)
    requires Positive(c) && Calm(c, w) && (w.filing.FilingFirst? || w.filing.FilingSecond?)
    ensures Calm(c, Next(c, w, FilingResume(outcome, ok)))
  {
    var l := Land(c, w, w.filing.call, outcome);
    var g, todo := FilingGap(l), w.filing.todo;
    FilingLandKeepsCalm(c, w, outcome);
    FilingLandKeepsLists(c, w, outcome);
    if w.filing.FilingFirst? {
      QuietTickBringsNoneBack(c, g);
      FileApprovedKeepsCalm(c, g, todo, ok);
      GapFilesAlike(l, todo, ok);
    } else {
      FilePendingKeepsCalm(c, g, todo, ok);
      GapFilesAlike(l, todo, ok);
    }
  }

  lemma DueAtStart(c: Config, w: World)
    requires Calm(c, w) && w.retry.RetryIdle? && !w.filing.FilingIdle?
    ensures DueList(c, RetryGap(w), DueIds(c, w.reports, w.order, w.now))
  {
    DueIdsList(c, w.reports, w.order, w.now);
    forall id | id in DueIds(c, w.reports, w.order, w.now) ensures id !in w.made {
      assert MadeOf(c, w, id) && BookOf(c, w, id);
    }
  }

  lemma RetryStartKeepsCalm(c: Config, w: World, ok: bool)
    requires Positive(c) && Calm(c, w) && w.retry.RetryIdle? && !w.filing.FilingIdle?
    ensures Calm(c, Next(c, w, RetryStart(ok)))
  {
    DueAtStart(c, w);
    IdleGapIsCalm(c, w, RetryGap(w));
    RetryNextKeepsCalm(c, RetryGap(w), DueIds(c, w.reports, w.order, w.now), ok);
    RetryPieces(c, w, Failed, ok);
  }

  lemma RetryResumeKeepsCalm(c: Config, w: World, outcome: Outcome, ok: bool)
    requires Positive(c) && Calm(c, w) && w.retry.RetryOpen?
    ensures Calm(c, Next(c, w, RetryResume(outcome, ok)))
  {
    RetryLandKeepsCalm(c, w, outcome);
    RetryNextKeepsCalm(c, RetryGap(Land(c, w, w.retry.call, outcome)), w.retry.todo, ok);
    RetryPieces(c, w, outcome, ok);
  }

  lemma PassKeepsCalm(c: Config, w: World, now: int)
    requires Positive(c) && Calm(c, w) && w.now <= now <= w.until
    ensures Calm(c, Next(c, w, Pass(now)))
  {
    var t := Next(c, w, Pass(now));
    forall x ensures BookOf(c, t, x) && MadeOf(c, t, x) {
      assert BookOf(c, w, x) && MadeOf(c, w, x);
    }
    if w.filing.FilingSecond? {
      forall id | id in w.filing.todo ensures Quiet(c, w.reports[id], now, w.until) {
        QuietStaysQuiet(c, w, w.reports[id], now);
      }
    }
  }

  lemma NewTickKeepsCalm(c: Config, w: World, now: int, until: int)
    requires Positive(c) && Calm(c, w) && Resting(w) && now <= until
    ensures Calm(c, Next(c, w, NewTick(now, until)))
  {
    var t := Next(c, w, NewTick(now, until));
    forall x ensures BookOf(c, t, x) && MadeOf(c, t, x) {
      assert BookOf(c, w, x) && Opens(t, x) == Opens(w, x);
    }
  }

  lemma StepKeepsCalm(c: Config, w: World, e: Piece)
    requires Positive(c) && Calm(c, w) && (e.FilingStart? && w.filing.FilingIdle? ==> Apart(c, w))
    ensures Calm(c, Next(c, w, e))
  {
    match e
    case Create(id) => if id !in w.reports { CreateKeepsCalm(c, w, id); }
    case Request(id, op) => if id in w.reports && Background(op) { RequestKeepsCalm(c, w, id, op); }
    case NewTick(now, until) => if Resting(w) && now <= until { NewTickKeepsCalm(c, w, now, until); }
    case Pass(now) => if w.now <= now <= w.until { PassKeepsCalm(c, w, now); }
    case FilingStart(ok) => if w.filing.FilingIdle? { FilingStartKeepsCalm(c, w, ok); }
    case FilingResume(outcome, ok) =>
      if w.filing.FilingFirst? || w.filing.FilingSecond? { FilingResumeKeepsCalm(c, w, outcome, ok); }
    case RetryStart(ok) => if w.retry.RetryIdle? && !w.filing.FilingIdle? { RetryStartKeepsCalm(c, w, ok); }
    case RetryResume(outcome, ok) => if w.retry.RetryOpen? { RetryResumeKeepsCalm(c, w, outcome, ok); }
  }

  /** Every tick of the run starts with its sweeps apart. */
  ghost predicate AlwaysApart(c: Config, w: World, es: seq<Piece>) {
    forall k :: 0 <= k < |es| && es[k].FilingStart? && After(c, w, es[..k]).filing.FilingIdle? ==> Apart(c, After(c, w, es[..k]))
  }

  lemma {:induction false} RunKeepsCalm(c: Config, w: World, es: seq<Piece>)
    requires Positive(c) && Calm(c, w) && AlwaysApart(c, w, es)
    ensures Calm(c, After(c, w, es))
    decreases |es|
  {
    if es != [] {
      var rest := es[..|es| - 1];
      forall k | 0 <= k < |rest| && rest[k].FilingStart? && After(c, w, rest[..k]).filing.FilingIdle?
        ensures Apart(c, After(c, w, rest[..k]))
      {
        assert rest[..k] == es[..k] && rest[k] == es[k];
      }
      RunKeepsCalm(c, w, rest);
      StepKeepsCalm(c, After(c, w, rest), es[|es| - 1]);
    }
  }

  /**
   Over every run, of any number of ticks, whose ticks all start with the sweeps apart: in each tick the connector is called
   at most once per report, and in all of them never more often than the budget allows.
   */
  lemma EveryApartRunKeepsTheBudget(c: Config, es: seq<Piece>, id: string)
    requires Positive(c) && AlwaysApart(c, EMPTY, es)
    ensures var w := After(c, EMPTY, es);
            Distinct(w.made) && multiset(w.calls)[id] <= c.maxRetry
  {
    EmptyIsCalm(c);
    RunKeepsCalm(c, EMPTY, es);
    var w := After(c, EMPTY, es);
    assert BookOf(c, w, id);
    assert id in w.calls ==> id in w.reports;
  }

  lemma EmptyIsCalm(c: Config)
    ensures Calm(c, EMPTY)
  {
  }
}

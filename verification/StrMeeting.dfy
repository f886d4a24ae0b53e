/**
 When the two sweeps of one tick can meet (bdpay/app.py, bdpay/platform/scheduler.py): the exact condition for one connector
 call per report, and a run that reaches the other case.
 */
module StrMeeting {
  import opened Common
  import opened StrFiling
  import opened StrTick

  // ------------------------------------------------------------------ when both have work, they can meet

  predicate InTick(es: seq<Piece>) {
    forall i :: 0 <= i < |es| ==> !es[i].NewTick?
  }

  lemma {:induction false} StartedStaysStarted(c: Config, w: World, es: seq<Piece>)
    requires !w.filing.FilingIdle? && InTick(es)
    ensures !After(c, w, es).filing.FilingIdle?
    decreases |es|
  {
    if es != [] {
      StartedStaysStarted(c, w, es[..|es| - 1]);
      StartedStep(c, After(c, w, es[..|es| - 1]), es[|es| - 1]);
    }
  }

  lemma StartedStep(c: Config, w: World, e: Piece)
    requires !w.filing.FilingIdle? && !e.NewTick?
    ensures !Next(c, w, e).filing.FilingIdle?
  {
    match e
    case FilingResume(outcome, ok) =>
      if w.filing.FilingFirst? || w.filing.FilingSecond? {
        FilingHasStarted(Land(c, w, w.filing.call, outcome), w.filing.todo, ok);
      }
    case _ =>
  }

  lemma FilingHasStarted(w: World, todo: seq<string>, ok: bool)
    ensures !FilePending(w, todo, ok).filing.FilingIdle? && !FileApproved(w, todo, ok).filing.FilingIdle?
  {
  }

  lemma ApartTickCallsOnce(c: Config, w: World, ok: bool, es: seq<Piece>)
    requires Positive(c) && Calm(c, w) && w.filing.FilingIdle? && Apart(c, w) && InTick(es)
    ensures Distinct(After(c, Next(c, w, FilingStart(ok)), es).made)
  {
    var t := Next(c, w, FilingStart(ok));
    FilingStartKeepsCalm(c, w, ok);
    forall k | 0 <= k < |es| ensures !After(c, t, es[..k]).filing.FilingIdle? {
      StartedStaysStarted(c, t, es[..k]);
    }
    RunKeepsCalm(c, t, es);
  }

  const GO := FilingResume(Filed(None), true)

  lemma AfterFrom(c: Config, w: World, e: Piece, es: seq<Piece>)
    ensures After(c, w, [e] + es) == After(c, Next(c, w, e), es)
  {
    AfterConcat(c, w, [e], es);
    AfterPush(c, w, [], e);
    assert [] + [e] == [e];
  }

  lemma CalledTwice(made: seq<string>, y: string)
    requires y in made
    ensures multiset(made + [y])[y] >= 2 && !Distinct(made + [y])
  {
    CallsCount(made, y, y);
    assert y in multiset(made);
    var i :| 0 <= i < |made| && made[i] == y;
    assert (made + [y])[i] == (made + [y])[|made|];
  }

  /** The filing sweep works down its pending list and reaches `y`, which this tick has called already. */
  lemma {:induction false} SecondReaches(c: Config, w: World, y: string) returns (es: seq<Piece>)
    requires w.filing.FilingSecond? && y in w.filing.todo && y in w.made && Distinct(w.filing.todo)
    requires w.filing.call.id !in w.filing.todo
    requires forall id :: id in w.filing.todo ==> id in w.reports && w.reports[id].status == FILING_PENDING
    ensures InTick(es) && !Distinct(After(c, w, es).made)
    decreases |w.filing.todo|
  {
    var t, next := Next(c, w, GO), w.filing.todo[0];
    RestIsListed(w.filing.todo);
    assert t.made == w.made + [next];
    if next == y {
      es := [GO];
      CalledTwice(w.made, y);
      AfterPush(c, w, [], GO);
      assert [] + [GO] == [GO];
    } else {
      assert t.filing == FilingSecond(w.filing.todo[1..], Call(next, w.reports[next], w.now));
      var rest := SecondReaches(c, t, y);
      es := [GO] + rest;
      AfterFrom(c, w, GO, rest);
    }
  }

  /** From its approved list it goes on to the pending ones, where a report just reopened now stands. */
  lemma {:induction false} FirstReaches(c: Config, w: World, y: string) returns (es: seq<Piece>)
    requires StoreOk(c, w.reports, w.order) && w.filing.FilingFirst? && ApprovedList(w, w.filing.todo)
    requires w.filing.call.id in w.reports && w.filing.call.id !in w.filing.todo && Positive(c)
    requires CallOk(c, w.reports, w.filing.call)
    requires y in w.made && y in w.reports && w.reports[y].status == FILING_PENDING && y != w.filing.call.id
    ensures InTick(es) && !Distinct(After(c, w, es).made)
    decreases |w.filing.todo|
  {
    var l, t := Land(c, w, w.filing.call, Filed(None)), Next(c, w, GO);
    LandedKeepsSound(c, w.filing.call.snapshot, w.filing.call.at, Filed(None));
    if w.filing.todo == [] {
      es := ListReaches(c, w, l, y);
    } else {
      var next := w.filing.todo[0];
      RestIsListed(w.filing.todo);
      assert l.reports[next].status == CAMLCO_APPROVED;
      assert t == FileApproved(l, w.filing.todo, true);
      assert Sound(c, Queued(l.reports[next]));
      var rest := FirstReaches(c, t, y);
      es := [GO] + rest;
      AfterFrom(c, w, GO, rest);
    }
  }

  lemma ListReaches(c: Config, w: World, l: World, y: string) returns (es: seq<Piece>)
    requires StoreOk(c, l.reports, l.order) && w.filing.FilingFirst? && w.filing.todo == []
    requires l == Land(c, w, w.filing.call, Filed(None))
    requires y in l.made && y in l.reports && l.reports[y].status == FILING_PENDING
    ensures InTick(es) && !Distinct(After(c, w, es).made)
  {
    var list, t := ByStatus(l.reports, l.order, FILING_PENDING), Next(c, w, GO);
    ByStatusLists(l.reports, l.order, FILING_PENDING);
    assert y in list && t == FilePending(l, list, true);
    RestIsListed(list);
    var next := list[0];
    assert next in list;
    if next == y {
      es := [GO];
      CalledTwice(l.made, y);
      AfterPush(c, w, [], GO);
      assert [] + [GO] == [GO];
    } else {
      var rest := SecondReaches(c, t, y);
      es := [GO] + rest;
      AfterFrom(c, w, GO, rest);
    }
  }

  /** Filing awaits its first approved report, retry reopens and calls the first due one, and filing then lists that one. */
  lemma MeetingTick(c: Config, w: World) returns (es: seq<Piece>)
    requires Positive(c) && Calm(c, w) && w.filing.FilingIdle? && !NoneApproved(w) && !NoneDue(c, w)
    ensures InTick(es) && !Distinct(After(c, Next(c, w, FilingStart(true)), es).made)
  {
    var w1 := Next(c, w, FilingStart(true));
    var x := FilingAwaits(c, w);
    var w2 := Next(c, w1, Pass(w1.until));
    StepKeepsOk(c, w1, Pass(w1.until));
    var rest := RetryMeets(c, w, w2, x);
    es := [Pass(w1.until)] + ([RetryStart(true)] + rest);
    AfterFrom(c, w2, RetryStart(true), rest);
    AfterFrom(c, w1, Pass(w1.until), [RetryStart(true)] + rest);
  }

  /** `x` is queued and called first; the rest of the approved list waits. */
  ghost predicate Awaits(w: World, w1: World, x: string) {
    && w1.retry.RetryIdle? && w1.until == w.until && w1.now <= w1.until
    && w1.filing.FilingFirst? && w1.filing.call.id == x && x !in w1.filing.todo && ApprovedList(w1, w1.filing.todo)
    && x in w.reports && w.reports[x].status == CAMLCO_APPROVED && w1.reports == w.reports[x := Queued(w.reports[x])]
  }

  lemma FirstApproved(w: World) returns (x: string)
    requires Distinct(w.order) && (forall id :: id in w.order <==> id in w.reports) && !NoneApproved(w)
    ensures var list := ByStatus(w.reports, w.order, CAMLCO_APPROVED);
            list != [] && list[0] == x && ApprovedList(w, list)
  {
    ByStatusLists(w.reports, w.order, CAMLCO_APPROVED);
    var list := ByStatus(w.reports, w.order, CAMLCO_APPROVED);
    var a :| a in w.reports && w.reports[a].status == CAMLCO_APPROVED;
    assert a in list;
    x := list[0];
    assert x in list;
  }

  lemma StartAwaits(w: World, list: seq<string>, x: string)
    requires list != [] && list[0] == x && ApprovedList(w, list) && w.retry.RetryIdle? && w.now <= w.until
    ensures Awaits(w, FileApproved(w, list, true), x)
  {
    RestIsListed(list);
  }

  lemma FilingAwaits(c: Config, w: World) returns (x: string)
    requires Positive(c) && WorldOk(c, w) && w.filing.FilingIdle? && w.retry.RetryIdle? && !NoneApproved(w) && w.now <= w.until
    ensures Awaits(w, Next(c, w, FilingStart(true)), x) && WorldOk(c, Next(c, w, FilingStart(true)))
  {
    x := FirstApproved(w);
    StartAwaits(w, ByStatus(w.reports, w.order, CAMLCO_APPROVED), x);
    StepKeepsOk(c, w, FilingStart(true));
  }

  lemma RetryMeets(c: Config, w: World, w1: World, x: string) returns (es: seq<Piece>)
    requires Positive(c) && WorldOk(c, w1) && Awaits(w, w1, x) && w1.now == w1.until && !NoneDue(c, w)
    ensures InTick(es) && !Distinct(After(c, Next(c, w1, RetryStart(true)), es).made)
  {
    var d :| d in w.reports && DueForRetry(c, w.reports[d], w.until);
    assert DueForRetry(c, w1.reports[d], w1.now);
    var y := RetryReopens(c, w1, d);
    es := FirstReaches(c, Next(c, w1, RetryStart(true)), y);
  }

  /** The first due report is reopened and called, beside whatever the filing sweep awaits. */
  lemma RetryReopens(c: Config, w: World, d: string) returns (y: string)
    requires Positive(c) && WorldOk(c, w) && w.retry.RetryIdle? && !w.filing.FilingIdle?
    requires d in w.reports && DueForRetry(c, w.reports[d], w.now)
    ensures var t := Next(c, w, RetryStart(true));
            WorldOk(c, t) && t.filing == w.filing && y in w.reports && DueForRetry(c, w.reports[y], w.now) &&
            t.reports == w.reports[y := Advance(c, w.reports[y], Retry)] && y in t.made
  {
    var due := DueIds(c, w.reports, w.order, w.now);
    DueIdsList(c, w.reports, w.order, w.now);
    assert d in due;
    y := due[0];
    assert y in due;
    StepKeepsOk(c, w, RetryStart(true));
  }

  /**
   A tick that starts in good order calls the connector at most once per report, whatever runs beside whatever and however
   its clock readings fall, if and only if when it starts there is nothing to queue or nothing to retry by its end, and
   nothing to be filed can fail and be due for retry by then.
   */
  lemma TickCallsOnceExactlyWhenApart(c: Config, w: World)
    requires Positive(c) && Calm(c, w) && w.filing.FilingIdle?
    ensures (forall ok, es :: InTick(es) ==> Distinct(After(c, Next(c, w, FilingStart(ok)), es).made)) <==> Apart(c, w)
  {
    if Apart(c, w) {
      forall ok, es | InTick(es) ensures Distinct(After(c, Next(c, w, FilingStart(ok)), es).made) {
        ApartTickCallsOnce(c, w, ok, es);
      }
    } else if !NoneComesBack(c, w) {
      var es := ComingBackTick(c, w);
    } else {
      var es := MeetingTick(c, w);
    }
  }

  // ------------------------------------------------------------------ a failure that comes back within its tick

  /** The filing sweep alone: what it has listed is as it was listed. */
  ghost predicate Solo(c: Config, w: World) {
    && WorldOk(c, w) && CallsMade(w) && w.retry.RetryIdle? && w.now <= w.until
    && (w.filing.FilingFirst? || w.filing.FilingSecond?) && w.filing.call.id !in w.filing.todo
    && (w.filing.FilingFirst? ==> ApprovedList(w, w.filing.todo))
    && (w.filing.FilingSecond? ==> Distinct(w.filing.todo) &&
                                   forall id :: id in w.filing.todo ==> id in w.reports && w.reports[id].status == FILING_PENDING)
  }

  /** Going on from a list, alone: to the next call, or to the end of the sweep. */
  lemma SoloSecond(c: Config, w: World, todo: seq<string>)
    requires WorldOk(c, w) && CallsMade(RetryGap(FilingGap(w))) && w.retry.RetryIdle? && w.now <= w.until && Distinct(todo)
    requires forall id :: id in todo ==> id in w.reports && w.reports[id].status == FILING_PENDING
    ensures todo == [] || Solo(c, FilePending(w, todo, true))
  {
    FilePendingKeepsOk(c, w, todo, true);
    if todo != [] {
      RestIsListed(todo);
      assert todo[0] in todo;
    }
  }

  lemma SoloFirst(c: Config, w: World, todo: seq<string>)
    requires Positive(c) && WorldOk(c, w) && CallsMade(RetryGap(FilingGap(w))) && w.retry.RetryIdle? && w.now <= w.until
    requires ApprovedList(w, todo)
    ensures FileApproved(w, todo, true).filing == FilingOver(false) || Solo(c, FileApproved(w, todo, true))
  {
    FileApprovedKeepsOk(c, w, todo, true);
    if todo == [] {
      ByStatusLists(w.reports, w.order, FILING_PENDING);
      SoloSecond(c, w, ByStatus(w.reports, w.order, FILING_PENDING));
    } else {
      RestIsListed(todo);
      assert todo[0] in todo;
    }
  }

  lemma SoloNext(c: Config, w: World)
    requires Positive(c) && Solo(c, w)
    ensures Next(c, w, GO).filing == FilingOver(false) || Solo(c, Next(c, w, GO))
  {
    var l := Land(c, w, w.filing.call, Filed(None));
    LandKeepsOk(c, w, w.filing.call, Filed(None));
    if w.filing.FilingFirst? {
      SoloFirst(c, l, w.filing.todo);
    } else {
      SoloSecond(c, l, w.filing.todo);
    }
  }

  /** The call in flight is the one for `y`, made from `y` as it stood when the sweep started. */
  ghost predicate OpenOn(start: World, w: World, y: string) {
    && Opened(w) && w.filing.call.id == y && y in start.reports && w.filing.call.snapshot.retries == start.reports[y].retries
    && w.filing.call.at == start.now == w.now && w.until == start.until
  }

  predicate Opened(w: World) {
    w.filing.FilingFirst? || w.filing.FilingSecond?
  }

  /** A sweep that is not over has called the next report on its list, and no other. */
  lemma NextCall(c: Config, w: World, y: string)
    requires Opened(w) && y !in w.made && y in Next(c, w, GO).made
    ensures var t := Next(c, w, GO);
            Opened(t) && t.filing.call.id == y && t.filing.call.at == w.now && y in Land(c, w, w.filing.call, Filed(None)).reports &&
            t.filing.call.snapshot.retries == Land(c, w, w.filing.call, Filed(None)).reports[y].retries
  {
  }

  lemma ClockStands(c: Config, w: World)
    ensures Next(c, w, GO).now == w.now && Next(c, w, GO).until == w.until
  {
  }

  /** Left alone, with `y` due for filing at the start: called in time, and still ahead unless its call is open. */
  ghost predicate ComingTo(c: Config, start: World, w: World, y: string) {
    && Solo(c, w) && Pursued(start.reports, w) && y in start.reports && DueForFiling(start.reports[y])
    && w.now == start.now && w.until == start.until && (y in w.made ==> OpenOn(start, w, y))
  }

  lemma ComesCloser(c: Config, start: World, w: World, y: string)
    requires Positive(c) && ComingTo(c, start, w, y) && y !in w.made
    ensures ComingTo(c, start, Next(c, w, GO), y)
  {
    var t := Next(c, w, GO);
    SoloNext(c, w);
    ClockStands(c, w);
    ResumePursues(c, start.reports, w, Filed(None), true);
    if y in t.made {
      NextCall(c, w, y);
    }
  }

  /** It comes to every report that was due for filing when it started. */
  lemma {:induction false} SweepComesTo(c: Config, start: World, w: World, y: string) returns (es: seq<Piece>)
    requires Positive(c) && ComingTo(c, start, w, y)
    ensures var t := After(c, w, es); InTick(es) && Solo(c, t) && OpenOn(start, t, y)
    decreases if w.filing.FilingFirst? then 1 else 0, |w.filing.todo|
  {
    if y in w.made {
      es := [];
    } else {
      ComesCloser(c, start, w, y);
      SweepShortens(c, w);
      var rest := SweepComesTo(c, start, Next(c, w, GO), y);
      es := [GO] + rest;
      AfterFrom(c, w, GO, rest);
    }
  }

  lemma SweepShortens(c: Config, w: World)
    requires Opened(w) && Opened(Next(c, w, GO))
    ensures var t := Next(c, w, GO);
            if t.filing.FilingFirst? then w.filing.FilingFirst? && |t.filing.todo| < |w.filing.todo|
            else w.filing.FilingFirst? || |t.filing.todo| < |w.filing.todo|
  {
  }

  /** The retry sweep works down its list and reaches `y`, which this tick has called already. */
  lemma {:induction false} RetryComesTo(c: Config, w: World, y: string) returns (es: seq<Piece>)
    requires w.retry.RetryOpen? && y in w.retry.todo && y in w.made && Distinct(w.retry.todo)
    requires w.retry.call.id !in w.retry.todo
    requires forall id :: id in w.retry.todo ==> id in w.reports && DueForRetry(c, w.reports[id], w.until)
    ensures InTick(es) && !Distinct(After(c, w, es).made)
    decreases |w.retry.todo|
  {
    var e, next := RetryResume(Filed(None), true), w.retry.todo[0];
    var t := Next(c, w, e);
    RestIsListed(w.retry.todo);
    assert next in w.retry.todo;
    RetryCalls(c, Land(c, w, w.retry.call, Filed(None)), w.retry.todo);
    if next == y {
      es := [e];
      CalledTwice(w.made, y);
      AfterPush(c, w, [], e);
      assert [] + [e] == [e];
    } else {
      var rest := RetryComesTo(c, t, y);
      es := [e] + rest;
      AfterFrom(c, w, e, rest);
    }
  }

  lemma RetryCalls(c: Config, w: World, todo: seq<string>)
    requires todo != [] && todo[0] in w.reports && DueForRetry(c, w.reports[todo[0]], w.until)
    ensures var t, next := RetryNext(c, w, todo, true), todo[0];
            && t.made == w.made + [next] && t.until == w.until && t.retry.RetryOpen? && t.retry.todo == todo[1..]
            && t.retry.call.id == next && t.reports == w.reports[next := Advance(c, w.reports[next], Retry)]
  {
  }

  /** A due report is on the list of a retry sweep that starts at the end of the tick; it is reached. */
  lemma RetryStartComesTo(c: Config, w: World, y: string) returns (es: seq<Piece>)
    requires WorldOk(c, w) && w.retry.RetryIdle? && !w.filing.FilingIdle? && w.now == w.until
    requires y in w.reports && DueForRetry(c, w.reports[y], w.until) && y in w.made
    ensures InTick(es) && !Distinct(After(c, w, es).made)
  {
    var e, due := RetryStart(true), DueIds(c, w.reports, w.order, w.now);
    DueIdsList(c, w.reports, w.order, w.now);
    assert y in due;
    RestIsListed(due);
    assert due[0] in due;
    RetryCalls(c, w, due);
    if due[0] == y {
      es := [e];
      CalledTwice(w.made, y);
      AfterPush(c, w, [], e);
      assert [] + [e] == [e];
    } else {
      var rest := RetryComesTo(c, Next(c, w, e), y);
      es := [e] + rest;
      AfterFrom(c, w, e, rest);
    }
  }

  lemma FailureIsDue(c: Config, r: Report, at: int, until: int)
    requires !Quiet(c, r, at, until)
    ensures DueForRetry(c, Landed(c, r, at, Failed), until)
  {
  }

  /** The answer is written and the next payload cannot be built: nothing else happens. */
  lemma CutAfterAnswer(c: Config, w: World)
    requires Opened(w)
    ensures var t := Next(c, w, FilingResume(Failed, false));
            t.filing.FilingOver? && t == Land(c, w, w.filing.call, Failed).(filing := t.filing)
  {
  }

  /** The call for `y` fails, and by the end of the tick `y` is due for retry. */
  lemma FailureComesDue(c: Config, start: World, w: World, y: string)
    requires Positive(c) && Solo(c, w) && OpenOn(start, w, y) && !Quiet(c, start.reports[y], start.now, start.until)
    ensures var t := Next(c, w, FilingResume(Failed, false));
            && WorldOk(c, t) && t.retry.RetryIdle? && t.filing.FilingOver? && t.now <= t.until && y in t.made
            && y in t.reports && DueForRetry(c, t.reports[y], t.until)
  {
    StepKeepsOk(c, w, FilingResume(Failed, false));
    CutAfterAnswer(c, w);
    FailureIsDue(c, w.filing.call.snapshot, w.filing.call.at, w.until);
  }

  /** The call in flight fails, the clock moves on, and retry calls for the same report. */
  lemma FailedThenRetried(c: Config, start: World, w: World, y: string) returns (es: seq<Piece>)
    requires Positive(c) && Solo(c, w) && OpenOn(start, w, y) && !Quiet(c, start.reports[y], start.now, start.until)
    ensures InTick(es) && !Distinct(After(c, w, es).made)
  {
    var fails := FilingResume(Failed, false);
    FailureComesDue(c, start, w, y);
    var w1 := Next(c, w, fails);
    var passes := Pass(w1.until);
    StepKeepsOk(c, w1, passes);
    var last := RetryStartComesTo(c, w1.(now := w1.until), y);
    es := [fails] + ([passes] + last);
    AfterFrom(c, w1, passes, last);
    AfterFrom(c, w, fails, [passes] + last);
  }

  /** Filing comes to a report whose call can fail and be due again within the tick. */
  lemma ComingBackTick(c: Config, w: World) returns (es: seq<Piece>)
    requires Positive(c) && Calm(c, w) && w.filing.FilingIdle? && !NoneComesBack(c, w)
    ensures InTick(es) && !Distinct(After(c, Next(c, w, FilingStart(true)), es).made)
  {
    var y :| y in w.reports && DueForFiling(w.reports[y]) && !Quiet(c, w.reports[y], w.now, w.until);
    var todo := ByStatus(w.reports, w.order, CAMLCO_APPROVED);
    NotYetCalled(c, w, y);
    SoloStarts(c, w, todo, y);
    es := BackFrom(c, w, FileApproved(w, todo, true), y);
    StartIs(c, w);
  }

  lemma StartIs(c: Config, w: World)
    requires w.filing.FilingIdle?
    ensures Next(c, w, FilingStart(true)) == FileApproved(w, ByStatus(w.reports, w.order, CAMLCO_APPROVED), true)
  {
  }

  lemma BackFrom(c: Config, start: World, w: World, y: string) returns (es: seq<Piece>)
    requires Positive(c) && ComingTo(c, start, w, y) && !Quiet(c, start.reports[y], start.now, start.until)
    ensures InTick(es) && !Distinct(After(c, w, es).made)
  {
    var first := SweepComesTo(c, start, w, y);
    var rest := FailedThenRetried(c, start, After(c, w, first), y);
    es := first + rest;
    AfterConcat(c, w, first, rest);
  }

  /** A report due for filing has not been called in a tick that is about to start. */
  lemma NotYetCalled(c: Config, w: World, y: string)
    requires Calm(c, w) && w.filing.FilingIdle? && y in w.reports && DueForFiling(w.reports[y])
    ensures y !in w.made && StoreOk(c, w.reports, w.order) && w.retry.RetryIdle? && w.now <= w.until
  {
    assert MadeOf(c, w, y);
  }

  lemma SoloStarts(c: Config, w: World, todo: seq<string>, y: string)
    requires Positive(c) && WorldOk(c, w) && y in w.reports && DueForFiling(w.reports[y]) && y !in w.made
    requires w.retry.RetryIdle? && w.now <= w.until && todo == ByStatus(w.reports, w.order, CAMLCO_APPROVED)
    ensures ComingTo(c, w, FileApproved(w, todo, true), y)
  {
    ByStatusLists(w.reports, w.order, CAMLCO_APPROVED);
    SoloFirst(c, w, todo);
    FileApprovedPursues(c, w.reports, w, todo, true);
    StartCalls(w, todo, y);
  }

  lemma StartCalls(w: World, todo: seq<string>, y: string)
    requires y !in w.made && y in w.reports
    ensures var t := FileApproved(w, todo, true);
            && t.now == w.now && t.until == w.until
            && (t.filing == FilingOver(false) ==> y !in t.made)
            && (y in t.made ==> OpenOn(w, t, y))
  {
  }

  // ------------------------------------------------------------------ such a tick is reachable

  /**
   One report filed and failed; another decided while its payload could not be built, so that it rests in CAMLCO_APPROVED;
   and a new tick when the failed one's retry time has come.
   */
  function MeetingHistory(c: Config): seq<Piece> {
    FirstTick() + [FilingResume(Failed, true)] + [RetryStart(true)] + [Request("x", Approve(0, true, true, false))] +
    [NewTick(Delay(c, 1), Delay(c, 1))]
  }

  function FirstTick(): seq<Piece> {
    Submitted() + [FilingStart(true)]
  }

  function Submitted(): seq<Piece> {
    [Create("x")] + [Create("y")] + [Request("y", Approve(0, true, true, true))]
  }

  function Filer(c: Config): Report {
    Queued(Approved(c, CREATED, 0))
  }

  // The worlds it passes through.

  function W0(c: Config): World {
    World(map["x" := CREATED, "y" := Filer(c)], ["x", "y"], [], [], FilingIdle, RetryIdle, 0, 0)
  }

  function W1(c: Config): World {
    W0(c).(calls := ["y"], made := ["y"], filing := FilingSecond([], Call("y", Filer(c), 0)))
  }

  function W2(c: Config): World {
    W1(c).(reports := map["x" := CREATED, "y" := Landed(c, Filer(c), 0, Failed)], filing := FilingOver(false))
  }

  function W3(c: Config): World {
    W2(c).(retry := RetryOver(false))
  }

  function W4(c: Config): World {
    W3(c).(reports := map["x" := Approved(c, CREATED, 0), "y" := Landed(c, Filer(c), 0, Failed)])
  }

  function W5(c: Config): World {
    W4(c).(made := [], filing := FilingIdle, retry := RetryIdle, now := Delay(c, 1), until := Delay(c, 1))
  }

  lemma SubmittedWorld(c: Config)
    ensures After(c, EMPTY, Submitted()) == W0(c)
  {
    var e1, e2 := [Create("x")], [Create("y")];
    assert "x"[0] != "y"[0];
    assert e1[..0] == [];
    assert After(c, EMPTY, e1) == World(map["x" := CREATED], ["x"], [], [], FilingIdle, RetryIdle, 0, 0);
    AfterPush(c, EMPTY, e1, Create("y"));
    assert After(c, EMPTY, e1 + e2) == World(map["x" := CREATED, "y" := CREATED], ["x", "y"], [], [], FilingIdle, RetryIdle, 0, 0);
    AfterPush(c, EMPTY, e1 + e2, Request("y", Approve(0, true, true, true)));
  }

  lemma Singleton(s: seq<string>, x: string)
    requires Distinct(s) && forall id :: id in s <==> id == x
    ensures s == [x]
  {
    assert x in s;
    forall i | 0 <= i < |s| ensures s[i] == x {
      assert s[i] in s;
    }
    if |s| > 1 {
      TwoDiffer(s, x);
    }
  }

  lemma TwoDiffer(s: seq<string>, x: string)
    requires Distinct(s) && |s| > 1
    ensures exists id :: id in s && id != x
  {
    assert s[0] in s && s[1] in s;
  }

  lemma HasFirst(s: seq<string>)
    requires s != []
    ensures exists id :: id in s
  {
    assert s[0] in s;
  }

  lemma Nothing(s: seq<string>)
    requires forall id :: id !in s
    ensures s == []
  {
    if s != [] {
      HasFirst(s);
    }
  }

  lemma FilingCalls(c: Config)
    ensures Next(c, W0(c), FilingStart(true)) == W1(c)
  {
    var w := W0(c);
    assert "x"[0] != "y"[0];
    ByStatusLists(w.reports, w.order, CAMLCO_APPROVED);
    Nothing(ByStatus(w.reports, w.order, CAMLCO_APPROVED));
    ByStatusLists(w.reports, w.order, FILING_PENDING);
    Singleton(ByStatus(w.reports, w.order, FILING_PENDING), "y");
    assert ["y"][1..] == [];
  }

  lemma CallFails(c: Config)
    ensures Next(c, W1(c), FilingResume(Failed, true)) == W2(c)
  {
    assert "x"[0] != "y"[0];
    assert W1(c).reports["y" := Landed(c, Filer(c), 0, Failed)] == W2(c).reports;
  }

  lemma NothingToRetry(c: Config)
    requires Positive(c)
    ensures Next(c, W2(c), RetryStart(true)) == W3(c)
  {
    var w := W2(c);
    assert "x"[0] != "y"[0];
    DelaysGrow(c, 1);
    DueIdsList(c, w.reports, w.order, w.now);
    Nothing(DueIds(c, w.reports, w.order, w.now));
  }

  lemma DecidedUnqueued(c: Config)
    ensures Next(c, W3(c), Request("x", Approve(0, true, true, false))) == W4(c)
  {
    assert "x"[0] != "y"[0];
    assert W3(c).reports["x" := Approved(c, CREATED, 0)] == W4(c).reports;
  }

  lemma MeetingWorld(c: Config)
    requires Positive(c)
    ensures After(c, EMPTY, MeetingHistory(c)) == W5(c)
  {
    SubmittedWorld(c);
    FilingCalls(c);
    AfterPush(c, EMPTY, Submitted(), FilingStart(true));
    CallFails(c);
    AfterPush(c, EMPTY, FirstTick(), FilingResume(Failed, true));
    NothingToRetry(c);
    AfterPush(c, EMPTY, FirstTick() + [FilingResume(Failed, true)], RetryStart(true));
    DecidedUnqueued(c);
    var e := FirstTick() + [FilingResume(Failed, true)] + [RetryStart(true)];
    AfterPush(c, EMPTY, e, Request("x", Approve(0, true, true, false)));
    AfterPush(c, EMPTY, e + [Request("x", Approve(0, true, true, false))], NewTick(Delay(c, 1), Delay(c, 1)));
  }

  lemma MeetingIsCalm(c: Config)
    requires Positive(c) && c.maxRetry >= 2
    ensures Calm(c, After(c, EMPTY, MeetingHistory(c)))
  {
    MeetingWorld(c);
    var w := W5(c);
    RunKeepsOk(c, EMPTY, MeetingHistory(c));
    assert "x"[0] != "y"[0];
    forall id ensures BookOf(c, w, id) && MadeOf(c, w, id) {
      assert multiset(["y"])[id] == if id == "y" then 1 else 0;
    }
  }

  /**
   With a budget of at least two calls, a tick in which the sweeps meet is reachable: the connector is called twice for the
   same report within it.
   */
  lemma MeetingIsReachable(c: Config) returns (es: seq<Piece>)
    requires Positive(c) && c.maxRetry >= 2
    ensures !Distinct(After(c, EMPTY, es).made)
  {
    MeetingWorld(c);
    MeetingIsCalm(c);
    var w := W5(c);
    assert "x"[0] != "y"[0];
    assert "x" in w.reports && w.reports["x"].status == CAMLCO_APPROVED;
    assert "y" in w.reports && DueForRetry(c, w.reports["y"], w.until);
    var rest := MeetingTick(c, w);
    es := MeetingHistory(c) + ([FilingStart(true)] + rest);
    AfterConcat(c, EMPTY, MeetingHistory(c), [FilingStart(true)] + rest);
    AfterFrom(c, w, FilingStart(true), rest);
  }

  /**
   With nothing approved and nothing due for retry when it starts, a tick that lasts as long as the first retry delay can still
   call the connector twice for one report: filing calls for it, the call fails, and retry finds it due.
   */
  lemma ComingBackIsReachable(c: Config) returns (es: seq<Piece>)
    requires Positive(c) && c.maxRetry >= 2
    ensures var w := After(c, EMPTY, Submitted() + [NewTick(0, Delay(c, 1))]);
            NoneApproved(w) && NoneDue(c, w) && InTick(es) && !Distinct(After(c, Next(c, w, FilingStart(true)), es).made)
  {
    var w := W0(c).(until := Delay(c, 1));
    SubmittedWorld(c);
    DelaysGrow(c, 1);
    AfterPush(c, EMPTY, Submitted(), NewTick(0, Delay(c, 1)));
    EmptyIsCalm(c);
    RunKeepsCalm(c, EMPTY, Submitted() + [NewTick(0, Delay(c, 1))]);
    assert "x"[0] != "y"[0];
    assert "y" in w.reports && DueForFiling(w.reports["y"]) && !Quiet(c, w.reports["y"], 0, w.until);
    es := ComingBackTick(c, w);
  }

  /** With a budget of one call nothing is ever due for retry, so the sweeps never meet. */
  lemma OneCallNeverMeets(c: Config, w: World)
    requires Positive(c) && WorldOk(c, w) && c.maxRetry == 1
    ensures Apart(c, w)
  {
    forall id | id in w.reports ensures !DueForRetry(c, w.reports[id], w.until) {
      assert Sound(c, w.reports[id]);
    }
  }

  // ------------------------------------------------------------------ no due report is passed over

  ghost predicate CallsMade(w: World) {
    && (w.filing.FilingFirst? || w.filing.FilingSecond? ==> w.filing.call.id in w.made)
    && (w.retry.RetryOpen? ==> w.retry.call.id in w.made)
  }

  /** Reports due for filing at the start and not called yet are as they were, and still ahead on the sweep's lists. */
  ghost predicate Pursued(start: Reports, w: World) {
    forall id :: id in start && DueForFiling(start[id]) && id !in w.made ==>
      && id in w.reports && w.reports[id] == start[id]
      && (w.filing.FilingFirst? && start[id].status == CAMLCO_APPROVED ==> id in w.filing.todo)
      && (w.filing.FilingSecond? ==> id in w.filing.todo)
      && w.filing != FilingOver(false)
  }

  /** The same between two calls, with the list still to do. */
  ghost predicate PursuedGap(start: Reports, w: World, todo: seq<string>, first: bool) {
    forall id :: id in start && DueForFiling(start[id]) && id !in w.made ==>
      id in w.reports && w.reports[id] == start[id] && (!first || start[id].status == CAMLCO_APPROVED ==> id in todo)
  }

  lemma FilePendingPursues(start: Reports, w: World, todo: seq<string>, ok: bool)
    requires PursuedGap(start, w, todo, false)
    ensures Pursued(start, FilePending(w, todo, ok))
  {
    if todo != [] {
      assert forall id :: id in todo ==> id == todo[0] || id in todo[1..];
    }
  }

  lemma FileApprovedPursues(c: Config, start: Reports, w: World, todo: seq<string>, ok: bool)
    requires StoreOk(c, w.reports, w.order) && PursuedGap(start, w, todo, true)
    ensures Pursued(start, FileApproved(w, todo, ok))
  {
    if todo == [] {
      ByStatusLists(w.reports, w.order, FILING_PENDING);
      FilePendingPursues(start, w, ByStatus(w.reports, w.order, FILING_PENDING), ok);
    } else {
      assert forall id :: id in todo ==> id == todo[0] || id in todo[1..];
    }
  }

  lemma RetryPursues(c: Config, start: Reports, w: World, todo: seq<string>, ok: bool)
    requires Pursued(start, w)
    ensures Pursued(start, RetryNext(c, w, todo, ok))
  {
  }

  lemma LandedGap(c: Config, start: Reports, w: World, outcome: Outcome)
    requires WorldOk(c, w) && CallsMade(w) && Pursued(start, w) && (w.filing.FilingFirst? || w.filing.FilingSecond?)
    ensures PursuedGap(start, Land(c, w, w.filing.call, outcome), w.filing.todo, w.filing.FilingFirst?)
  {
  }

  lemma FirstResumes(c: Config, start: Reports, w: World, l: World, ok: bool)
    requires StoreOk(c, l.reports, l.order) && w.filing.FilingFirst? && PursuedGap(start, l, w.filing.todo, true)
    ensures Pursued(start, FileApproved(l, w.filing.todo, ok))
  {
    FileApprovedPursues(c, start, l, w.filing.todo, ok);
  }

  lemma ResumeIs(c: Config, w: World, outcome: Outcome, ok: bool)
    requires w.filing.FilingFirst? || w.filing.FilingSecond?
    ensures var l := Land(c, w, w.filing.call, outcome);
            Next(c, w, FilingResume(outcome, ok)) ==
            if w.filing.FilingFirst? then FileApproved(l, w.filing.todo, ok) else FilePending(l, w.filing.todo, ok)
  {
  }

  lemma ResumePursues(c: Config, start: Reports, w: World, outcome: Outcome, ok: bool)
    requires Positive(c) && WorldOk(c, w) && CallsMade(w) && Pursued(start, w)
    requires w.filing.FilingFirst? || w.filing.FilingSecond?
    ensures Pursued(start, Next(c, w, FilingResume(outcome, ok)))
  {
    ResumeIs(c, w, outcome, ok);
    LandedGap(c, start, w, outcome);
    if w.filing.FilingFirst? {
      LandKeepsOk(c, w, w.filing.call, outcome);
      FirstResumes(c, start, w, Land(c, w, w.filing.call, outcome), ok);
    } else {
      FilePendingPursues(start, Land(c, w, w.filing.call, outcome), w.filing.todo, ok);
    }
  }

  lemma NextPursues(c: Config, start: Reports, w: World, p: Piece)
    requires Positive(c) && WorldOk(c, w) && CallsMade(w) && Pursued(start, w) && !w.filing.FilingIdle? && !p.NewTick?
    ensures Pursued(start, Next(c, w, p))
  {
    match p
    case FilingResume(outcome, ok) =>
      if w.filing.FilingFirst? || w.filing.FilingSecond? {
        ResumePursues(c, start, w, outcome, ok);
      }
    case RetryStart(ok) => RetryPursues(c, start, w, DueIds(c, w.reports, w.order, w.now), ok);
    case RetryResume(outcome, ok) =>
      if w.retry.RetryOpen? {
        RetryPursues(c, start, Land(c, w, w.retry.call, outcome), w.retry.todo, ok);
      }
    case _ =>
  }

  lemma NextKeepsCallsMade(c: Config, w: World, p: Piece)
    requires CallsMade(w)
    ensures CallsMade(Next(c, w, p))
  {
  }

  lemma {:induction false} TickPursues(c: Config, start: Reports, w: World, es: seq<Piece>)
    requires Positive(c) && WorldOk(c, w) && CallsMade(w) && Pursued(start, w) && !w.filing.FilingIdle? && InTick(es)
    ensures CallsMade(After(c, w, es)) && Pursued(start, After(c, w, es))
    decreases |es|
  {
    if es != [] {
      var rest := es[..|es| - 1];
      TickPursues(c, start, w, rest);
      RunKeepsOk(c, w, rest);
      StartedStaysStarted(c, w, rest);
      NextKeepsCallsMade(c, After(c, w, rest), es[|es| - 1]);
      NextPursues(c, start, After(c, w, rest), es[|es| - 1]);
    }
  }

  /**
   Whatever runs beside it, a filing sweep that is not cut short by a payload it cannot build or a report changed under it
   has called the connector for every report that was due when it started.
   */
  lemma FilingReachesAllDue(c: Config, w: World, ok: bool, es: seq<Piece>, id: string)
    requires Positive(c) && WorldOk(c, w) && w.filing.FilingIdle? && w.retry.RetryIdle? && InTick(es)
    requires After(c, Next(c, w, FilingStart(ok)), es).filing == FilingOver(false)
    requires id in w.reports && DueForFiling(w.reports[id])
    ensures id in After(c, Next(c, w, FilingStart(ok)), es).made
  {
    var t := Next(c, w, FilingStart(ok));
    ByStatusLists(w.reports, w.order, CAMLCO_APPROVED);
    FileApprovedPursues(c, w.reports, w, ByStatus(w.reports, w.order, CAMLCO_APPROVED), ok);
    StepKeepsOk(c, w, FilingStart(ok));
    NextKeepsCallsMade(c, w, FilingStart(ok));
    FilingHasStarted(w, ByStatus(w.reports, w.order, CAMLCO_APPROVED), ok);
    TickPursues(c, w.reports, t, es);
  }

  /** Every payload the filing sweep needed could be built. */
  predicate PayloadsOk(es: seq<Piece>) {
    forall i :: 0 <= i < |es| && es[i].FilingResume? ==> es[i].ok
  }

  lemma ResumeIsNotCut(c: Config, w: World, outcome: Outcome)
    requires Positive(c) && Calm(c, w) && (w.filing.FilingFirst? || w.filing.FilingSecond?)
    ensures Next(c, w, FilingResume(outcome, true)).filing != FilingOver(true)
  {
    var l, todo, first := Land(c, w, w.filing.call, outcome), w.filing.todo, w.filing.FilingFirst?;
    FilingLandKeepsCalm(c, w, outcome);
    FilingLandKeepsLists(c, w, outcome);
    if first {
      QuietTickBringsNoneBack(c, FilingGap(l));
    }
    ListedIsFiled(c, FilingGap(l), todo, first);
    GapFilesAlike(l, todo, true);
  }

  lemma OthersLeaveFiling(c: Config, w: World, p: Piece)
    requires !p.FilingStart? && !p.FilingResume? && !p.NewTick?
    ensures Next(c, w, p).filing == w.filing
  {
  }

  lemma FilingIsNotCut(c: Config, w: World, p: Piece)
    requires Positive(c) && Calm(c, w) && (p.FilingResume? ==> p.ok) && !p.FilingStart? && !p.NewTick?
    requires w.filing != FilingOver(true)
    ensures Next(c, w, p).filing != FilingOver(true)
  {
    if !p.FilingResume? {
      OthersLeaveFiling(c, w, p);
    } else if w.filing.FilingFirst? || w.filing.FilingSecond? {
      ResumeIsNotCut(c, w, p.outcome);
    }
  }

  lemma ListedIsFiled(c: Config, w: World, todo: seq<string>, first: bool)
    requires Calm(c, w) && w.filing.FilingOver?
    requires if first then ApprovedList(w, todo) && !w.retry.RetryOpen? && NoneComesBack(c, w) else PendingList(c, w, todo)
    ensures (if first then FileApproved(w, todo, true) else FilePending(w, todo, true)).filing != FilingOver(true)
  {
    assert todo != [] ==> todo[0] in todo;
    if first && todo == [] {
      var pending := ByStatus(w.reports, w.order, FILING_PENDING);
      PendingAreListed(c, w);
      assert pending != [] ==> pending[0] in pending;
    }
  }

  lemma {:induction false} ApartSweepIsNotCutShort(c: Config, w: World, es: seq<Piece>)
    requires Positive(c) && Calm(c, w) && w.filing.FilingIdle? && Apart(c, w) && InTick(es) && PayloadsOk(es)
    ensures var t := After(c, Next(c, w, FilingStart(true)), es);
            Calm(c, t) && !t.filing.FilingIdle? && t.filing != FilingOver(true)
    decreases |es|
  {
    var w1 := Next(c, w, FilingStart(true));
    if es == [] {
      FilingStartKeepsCalm(c, w, true);
      var todo := ByStatus(w.reports, w.order, CAMLCO_APPROVED);
      ByStatusLists(w.reports, w.order, CAMLCO_APPROVED);
      IdleGapIsCalm(c, w, FilingGap(w));
      ListedIsFiled(c, FilingGap(w), todo, true);
      FilingHasStarted(w, todo, true);
      GapFilesAlike(w, todo, true);
    } else {
      var rest, last := es[..|es| - 1], es[|es| - 1];
      ApartSweepIsNotCutShort(c, w, rest);
      StepKeepsCalm(c, After(c, w1, rest), last);
      StartedStep(c, After(c, w1, rest), last);
      if !last.FilingStart? {
        FilingIsNotCut(c, After(c, w1, rest), last);
      }
    }
  }
}

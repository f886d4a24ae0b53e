/**
 Per-connector circuit breaker (bdpay/connectors/breaker.py).

 The failure window is tumbling: it is anchored at the first failure counted in it and a
 failure that arrives later than `window` after that anchor starts a new window with count 1.
 `Step` is one breaker call on one record; `Run` is any sequence of calls.
 */
module Breaker {
  import opened Common

  datatype Phase = CLOSED | OPEN | HALF_OPEN

  datatype Kind = SUBMIT | QUERY_STATUS | REVERSE | HEALTH

  datatype Config = Config(threshold: nat, window: nat, cooldown: nat, quota: nat, informational: bool)

  datatype Record = Record(phase: Phase, failures: nat, windowStart: Option<int>,
                           openedAt: Option<int>, successes: nat, probes: nat)

  const FRESH := Record(CLOSED, 0, None, None, 0, 0)

  /** One call on the breaker. `readable` is false when the state store raises on load. */
  datatype Event =
    | Admit(kind: Kind, now: int, readable: bool)
    | Observe(failure: bool, now: int, readable: bool)
    | Reset(now: int)
    | Peek(now: int, readable: bool)

  // ------------------------------------------------------------------ transitions

  function ToOpen(r: Record, now: int): Record {
    r.(phase := OPEN, openedAt := Some(now), successes := 0, probes := 0)
  }

  function ToHalfOpen(r: Record): Record {
    r.(phase := HALF_OPEN, successes := 0, probes := 0)
  }

  function Cooled(c: Config, r: Record, now: int): Record {
    if r.phase == OPEN && r.openedAt.Some? && now - r.openedAt.value >= c.cooldown
    then ToHalfOpen(r) else r
  }

  function AdmitRecord(c: Config, r: Record, kind: Kind, now: int): Record {
    if c.informational then r
    else
      var r1 := Cooled(c, r, now);
      if r1.phase == HALF_OPEN && kind == QUERY_STATUS && r1.probes < c.quota
      then r1.(probes := r1.probes + 1) else r1
  }

  predicate AdmitVerdict(c: Config, r: Record, kind: Kind, now: int) {
    var r1 := Cooled(c, r, now);
    || c.informational
    || r1.phase == CLOSED
    || (r1.phase == HALF_OPEN && (kind == HEALTH || (kind == QUERY_STATUS && r1.probes < c.quota)))
  }

  function Counted(c: Config, r: Record, now: int): Record {
    var expired := r.windowStart.None? || now - r.windowStart.value > c.window;
    var r1 := if expired then r.(windowStart := Some(now), failures := 1)
              else r.(failures := r.failures + 1);
    if r1.failures >= c.threshold then ToOpen(r1, now) else r1
  }

  function ObserveRecord(c: Config, r: Record, failure: bool, now: int): Record {
    match r.phase
    case OPEN => r
    case HALF_OPEN =>
      if failure then ToOpen(r, now)
      else if r.successes + 1 >= c.quota then FRESH
      else r.(successes := r.successes + 1)
    case CLOSED =>
      if failure then Counted(c, r, now) else r.(failures := 0, windowStart := None)
  }

  function Step(c: Config, r: Record, e: Event): Record {
    match e
    case Admit(kind, now, readable) => if readable then AdmitRecord(c, r, kind, now) else r
    case Observe(failure, now, readable) => if readable then ObserveRecord(c, r, failure, now) else r
    case Reset(now) => if r.phase == OPEN then ToHalfOpen(r) else r
    case Peek(now, readable) => if readable then Cooled(c, r, now) else r
  }

  /** The call was an `admit` that answered true. */
  predicate Admits(c: Config, r: Record, e: Event) {
    e.Admit? && e.readable && AdmitVerdict(c, r, e.kind, e.now)
  }

  function Run(c: Config, r: Record, es: seq<Event>): Record
    decreases |es|
  {
    if es == [] then r else Step(c, Run(c, r, es[..|es| - 1]), es[|es| - 1])
  }

  lemma RunPush(c: Config, r: Record, es: seq<Event>, e: Event)
    ensures Run(c, r, es + [e]) == Step(c, Run(c, r, es), e)
  {
    PushLast(es, e);
  }

  /** The injected clock never goes back. */
  ghost predicate Timed(es: seq<Event>) {
    forall i, j :: 0 <= i < j < |es| ==> es[i].now <= es[j].now
  }

  // ------------------------------------------------------------------ reachable records

  /** What every record reachable from FRESH satisfies, whatever the clock does. */
  predicate WellFormed(c: Config, r: Record) {
    && (r.phase == CLOSED ==> r.failures < Max(1, c.threshold) && (r.windowStart.None? <==> r.failures == 0))
    && (r.phase == OPEN ==> r.openedAt.Some?)
    && (r.phase == HALF_OPEN ==> r.probes <= c.quota && r.successes < Max(1, c.quota))
  }

  lemma {:induction false} ReachableIsWellFormed(c: Config, es: seq<Event>)
    ensures WellFormed(c, Run(c, FRESH, es))
    decreases |es|
  {
    if es != [] {
      ReachableIsWellFormed(c, es[..|es| - 1]);
    }
  }

  // ------------------------------------------------------------------ a trip has evidence

  /** The observations that reached the state machine, oldest first. */
  function Observations(es: seq<Event>): seq<Event>
    decreases |es|
  {
    if es == [] then [] else Observed(Observations(es[..|es| - 1]), es[|es| - 1])
  }

  function Observed(obs: seq<Event>, e: Event): seq<Event> {
    if e.Observe? && e.readable then obs + [e] else obs
  }

  lemma {:induction false} ObservationsAreEvents(es: seq<Event>, e: Event)
    requires e in Observations(es)
    ensures e.Observe? && e in es
    decreases |es|
  {
    var rest, last := es[..|es| - 1], es[|es| - 1];
    if e in Observations(rest) {
      ObservationsAreEvents(rest, e);
    }
  }

  /** The newest `n` observations are failures, the last at most `limit` after the first of them. */
  ghost predicate FailureTail(obs: seq<Event>, n: nat, limit: nat) {
    && n <= |obs|
    && (forall i :: |obs| - n <= i < |obs| ==> obs[i].Observe? && obs[i].failure)
    && (n > 0 ==> obs[|obs| - 1].now - obs[|obs| - n].now <= limit)
  }

  /** A CLOSED record's count is that of the newest observations, all failures in the window it opened. */
  ghost predicate Backed(c: Config, r: Record, obs: seq<Event>) {
    r.phase == CLOSED ==>
      && FailureTail(obs, r.failures, c.window)
      && (r.failures > 0 ==> r.windowStart == Some(obs[|obs| - r.failures].now))
  }

  lemma BackedStep(c: Config, r: Record, obs: seq<Event>, e: Event)
    requires WellFormed(c, r) && Backed(c, r, obs)
    ensures Backed(c, Step(c, r, e), Observed(obs, e))
    ensures r.phase == CLOSED && Step(c, r, e).phase == OPEN ==>
              FailureTail(Observed(obs, e), Max(1, c.threshold), c.window)
  {
  }

  lemma {:induction false} CountIsBackedByFailures(c: Config, es: seq<Event>)
    ensures Backed(c, Run(c, FRESH, es), Observations(es))
    decreases |es|
  {
    if es != [] {
      var p := es[..|es| - 1];
      CountIsBackedByFailures(c, p);
      ReachableIsWellFormed(c, p);
      BackedStep(c, Run(c, FRESH, p), Observations(p), es[|es| - 1]);
    }
  }

  /** Breaker safety: a trip from CLOSED means the last `threshold` observations were all failures
      and lie within one window. */
  lemma TripNeedsThresholdFailures(c: Config, es: seq<Event>, e: Event)
    requires Run(c, FRESH, es).phase == CLOSED
    requires Step(c, Run(c, FRESH, es), e).phase == OPEN
    ensures FailureTail(Observations(es + [e]), Max(1, c.threshold), c.window)
  {
    CountIsBackedByFailures(c, es);
    ReachableIsWellFormed(c, es);
    BackedStep(c, Run(c, FRESH, es), Observations(es), e);
    assert (es + [e])[..|es|] == es;
  }

  // ------------------------------------------------------------------ enough failures always trip

  /** Failures that suffice to open the breaker from any reachable non-OPEN record. */
  function TripBound(c: Config): nat {
    Max(Max(1, c.threshold), 2 * c.threshold - 2)
  }

  ghost predicate AllFailures(es: seq<Event>) {
    forall e :: e in es && e.Observe? ==> e.failure
  }

  /** No state along the run, first and last included, is OPEN. */
  predicate NeverOpen(c: Config, r: Record, es: seq<Event>)
    decreases |es|
  {
    Run(c, r, es).phase != OPEN && (es != [] ==> NeverOpen(c, r, es[..|es| - 1]))
  }

  lemma {:induction false} OpenedSomewhere(c: Config, r: Record, es: seq<Event>)
    requires !NeverOpen(c, r, es)
    ensures exists k :: 0 <= k <= |es| && Run(c, r, es[..k]).phase == OPEN
    decreases |es|
  {
    assert es[..|es|] == es;
    if Run(c, r, es).phase != OPEN {
      var p := es[..|es| - 1];
      OpenedSomewhere(c, r, p);
      var k :| 0 <= k <= |p| && Run(c, r, p[..k]).phase == OPEN;
      assert p[..k] == es[..k];
    }
  }

  /** A stretch of `m` failures that led from `r` to `q` without opening the breaker is short: either every
      failure was added to the window the stretch started in, or that window expired once and a new one,
      anchored inside the stretch, holds all but at most threshold - 2 of them. */
  predicate ShortStretch(c: Config, r: Record, q: Record, m: nat, first: int) {
    if r.phase == HALF_OPEN then m == 0 && q.phase == HALF_OPEN
    else
      && WellFormed(c, q) && q.phase == CLOSED
      && (|| (m + r.failures == q.failures && q.windowStart == r.windowStart)
          || (&& q.windowStart.Some? && q.windowStart.value >= first
              && m <= q.failures + (if r.failures == 0 then 0 else c.threshold - 2)))
  }

  lemma ShortStretchStep(c: Config, r: Record, q: Record, m: nat, first: int, e: Event)
    requires WellFormed(c, r) && r.phase != OPEN && ShortStretch(c, r, q, m, first)
    requires Step(c, q, e).phase != OPEN
    requires e.Observe? ==> e.failure
    requires e.Observe? && e.readable ==> first <= e.now <= first + c.window
    ensures ShortStretch(c, r, Step(c, q, e), if e.Observe? && e.readable then m + 1 else m, first)
  {
  }

  lemma {:induction false} UnopenedStretchIsShort(c: Config, r: Record, es: seq<Event>, first: int)
    requires WellFormed(c, r)
    requires NeverOpen(c, r, es)
    requires AllFailures(es)
    requires forall e :: e in Observations(es) ==> first <= e.now <= first + c.window
    ensures r.phase != OPEN
    ensures ShortStretch(c, r, Run(c, r, es), |Observations(es)|, first)
    decreases |es|
  {
    if es != [] {
      var p := es[..|es| - 1];
      var e := es[|es| - 1];
      assert e in es && forall x :: x in p ==> x in es;
      UnopenedStretchIsShort(c, r, p, first);
      assert forall x :: x in Observations(p) ==> x in Observations(es);
      assert e.Observe? && e.readable ==> e in Observations(es);
      ShortStretchStep(c, r, Run(c, r, p), |Observations(p)|, first, e);
    }
  }

  /** Breaker liveness: `TripBound` consecutive failures no more than one window apart open the breaker. */
  lemma EnoughFailuresTrip(c: Config, history: seq<Event>, es: seq<Event>)
    requires Run(c, FRESH, history).phase != OPEN
    requires AllFailures(es) && Timed(es)
    requires var obs := Observations(es);
             |obs| >= TripBound(c) && obs[|obs| - 1].now - obs[0].now <= c.window
    ensures exists k :: 0 <= k <= |es| && Run(c, Run(c, FRESH, history), es[..k]).phase == OPEN
  {
    var r := Run(c, FRESH, history);
    ReachableIsWellFormed(c, history);
    var obs := Observations(es);
    if NeverOpen(c, r, es) {
      ObservationsAreTimed(es);
      UnopenedStretchIsShort(c, r, es, obs[0].now);
      assert false;
    }
    OpenedSomewhere(c, r, es);
  }

  lemma {:induction false} ObservationsAreTimed(es: seq<Event>)
    requires Timed(es)
    ensures Timed(Observations(es))
    decreases |es|
  {
    if es != [] {
      var p := es[..|es| - 1];
      ObservationsAreTimed(p);
      assert forall e :: e in Observations(p) ==> e.now <= es[|es| - 1].now by {
        forall e | e in Observations(p) ensures e.now <= es[|es| - 1].now {
          ObservationsAreEvents(p, e);
        }
      }
    }
  }

  // ------------------------------------------------------------------ the bound is tight

  function Failures(n: nat, now: int): seq<Event> {
    if n == 0 then [] else Failures(n - 1, now) + [Observe(true, now, true)]
  }

  lemma {:induction false} FailuresAre(n: nat, now: int)
    ensures |Failures(n, now)| == n && forall i :: 0 <= i < n ==> Failures(n, now)[i] == Observe(true, now, true)
    decreases n
  {
    if n > 0 {
      FailuresAre(n - 1, now);
    }
  }

  lemma {:induction false} RunConcat(c: Config, r: Record, a: seq<Event>, b: seq<Event>)
    ensures Run(c, r, a + b) == Run(c, Run(c, r, a), b)
    ensures NeverOpen(c, r, a) && NeverOpen(c, Run(c, r, a), b) ==> NeverOpen(c, r, a + b)
    decreases |b|
  {
    if b == [] {
      assert a + b == a;
    } else {
      var b' := b[..|b| - 1];
      RunConcat(c, r, a, b');
      ConcatLast(a, b);
    }
  }

  lemma {:induction false} ObservationsConcat(a: seq<Event>, b: seq<Event>)
    ensures Observations(a + b) == Observations(a) + Observations(b)
    decreases |b|
  {
    if b == [] {
      assert a + b == a;
    } else {
      ObservationsConcat(a, b[..|b| - 1]);
      ConcatLast(a, b);
    }
  }

  lemma ConcatLast(a: seq<Event>, b: seq<Event>)
    requires b != []
    ensures (a + b)[..|a + b| - 1] == a + b[..|b| - 1] && (a + b)[|a + b| - 1] == b[|b| - 1]
  {
  }

  lemma OneObservation(c: Config, r: Record, e: Event)
    requires e.Observe? && e.readable && r.phase != OPEN && Step(c, r, e).phase != OPEN
    ensures Run(c, r, [e]) == Step(c, r, e) && NeverOpen(c, r, [e]) && Observations([e]) == [e]
  {
    assert [e][..0] == [];
    assert Run(c, r, []) == r;
  }

  /** threshold - 2 failures at the end of the old window, then threshold - 1 just after it expired. */
  function TwoWindows(c: Config): seq<Event>
    requires c.threshold >= 2
  {
    Failures(c.threshold - 2, c.window) + [Observe(true, c.window + 1, true)] + Failures(c.threshold - 2, c.window + 1)
  }

  lemma TwoWindowsAre(c: Config)
    requires c.threshold >= 2
    ensures var es := TwoWindows(c);
            |es| == 2 * c.threshold - 3 && (forall e :: e in es ==> e.Observe? && e.failure) &&
            forall i :: 0 <= i < |es| ==> es[i].now == if i < c.threshold - 2 then c.window else c.window + 1
  {
    FailuresAre(c.threshold - 2, c.window);
    FailuresAre(c.threshold - 2, c.window + 1);
  }

  /** Where `es` take `r` when they are all observations and never open it. */
  ghost function Quietly(c: Config, r: Record, es: seq<Event>): Option<Record> {
    if NeverOpen(c, r, es) && Observations(es) == es then Some(Run(c, r, es)) else None
  }

  lemma QuietConcat(c: Config, r: Record, a: seq<Event>, r1: Record, b: seq<Event>, r2: Record)
    requires Quietly(c, r, a) == Some(r1) && Quietly(c, r1, b) == Some(r2)
    ensures Quietly(c, r, a + b) == Some(r2)
  {
    RunConcat(c, r, a, b);
    ObservationsConcat(a, b);
  }

  lemma QuietThrice(c: Config, r0: Record, a: seq<Event>, r1: Record, b: seq<Event>, r2: Record, d: seq<Event>, r3: Record)
    requires Quietly(c, r0, a) == Some(r1) && Quietly(c, r1, b) == Some(r2) && Quietly(c, r2, d) == Some(r3)
    ensures Quietly(c, r0, a + b + d) == Some(r3)
  {
    QuietConcat(c, r0, a, r1, b, r2);
    QuietConcat(c, r0, a + b, r2, d, r3);
  }

  lemma QuietOne(c: Config, r: Record, now: int)
    requires r.phase == CLOSED && r.windowStart.Some? && now - r.windowStart.value <= c.window
    requires r.failures + 1 < c.threshold
    ensures Quietly(c, r, [Observe(true, now, true)]) == Some(r.(failures := r.failures + 1))
  {
    OneObservation(c, r, Observe(true, now, true));
  }

  lemma {:induction false} QuietFailures(c: Config, r: Record, n: nat, now: int)
    requires r.phase == CLOSED && r.windowStart.Some? && now - r.windowStart.value <= c.window
    requires r.failures + n < c.threshold
    ensures Quietly(c, r, Failures(n, now)) == Some(r.(failures := r.failures + n))
    decreases n
  {
    if n > 0 {
      var r1 := r.(failures := r.failures + (n - 1));
      QuietFailures(c, r, n - 1, now);
      QuietOne(c, r1, now);
      QuietConcat(c, r, Failures(n - 1, now), r1, [Observe(true, now, true)], r.(failures := r.failures + n));
    }
  }

  lemma QuietLate(c: Config, r: Record, now: int)
    requires r.phase == CLOSED && r.windowStart.Some? && now - r.windowStart.value > c.window && c.threshold >= 2
    ensures Quietly(c, r, [Observe(true, now, true)]) == Some(r.(failures := 1, windowStart := Some(now)))
  {
    OneObservation(c, r, Observe(true, now, true));
  }

  lemma StretchAcrossTwoWindows(c: Config, r0: Record)
    requires c.threshold >= 2
    requires r0 == FRESH.(failures := 1, windowStart := Some(0))
    ensures Quietly(c, r0, TwoWindows(c)).Some?
  {
    var n: nat := c.threshold - 2;
    var r1 := r0.(failures := 1 + n);
    var r2 := r1.(failures := 1, windowStart := Some(c.window + 1));
    QuietFailures(c, r0, n, c.window);
    QuietLate(c, r1, c.window + 1);
    QuietFailures(c, r2, n, c.window + 1);
    QuietThrice(c, r0, Failures(n, c.window), r1, [Observe(true, c.window + 1, true)], r2, Failures(n, c.window + 1),
                r2.(failures := 1 + n));
  }

  /** One failure fewer than the bound need not trip: for every threshold and every window of at least one tick
      there is a history and a stretch of TripBound - 1 failures, one tick wide, that stays CLOSED. */
  lemma TripBoundIsTight(c: Config) returns (history: seq<Event>, es: seq<Event>)
    requires c.window >= 1
    ensures Run(c, FRESH, history).phase == CLOSED
    ensures AllFailures(es) && Timed(history + es)
    ensures var obs := Observations(es);
            |obs| == TripBound(c) - 1 && (obs != [] ==> obs[|obs| - 1].now - obs[0].now <= c.window)
    ensures NeverOpen(c, Run(c, FRESH, history), es)
  {
    if c.threshold <= 1 {
      history, es := [], [];
    } else {
      history, es := [Observe(true, 0, true)], TwoWindows(c);
      TwoWindowsAre(c);
      assert Timed(history + es);
      OneObservation(c, FRESH, history[0]);
      StretchAcrossTwoWindows(c, Step(c, FRESH, history[0]));
    }
  }

  // ------------------------------------------------------------------ what may pass the breaker

  /** New money needs a CLOSED breaker. */
  lemma MoneyOnlyWhenClosed(c: Config, r: Record, e: Event)
    requires !c.informational && Admits(c, r, e)
    ensures e.kind in {SUBMIT, REVERSE} ==> r.phase == CLOSED
    ensures e.kind == QUERY_STATUS && r.phase != CLOSED ==> Step(c, r, e).phase == HALF_OPEN && Step(c, r, e).probes > 0
  {
  }

  /** From the moment it opens until the cooldown elapses or an operator resets it, the breaker is inert:
      nothing is admitted and no observation changes it. */
  lemma {:induction false} OpenIsInert(c: Config, r: Record, es: seq<Event>)
    requires !c.informational
    requires r.phase == OPEN && r.openedAt.Some?
    requires forall e :: e in es ==> !e.Reset? && e.now < r.openedAt.value + c.cooldown
    ensures Run(c, r, es) == r
    ensures forall e :: e in es ==> !Admits(c, r, e)
    decreases |es|
  {
    if es != [] {
      var p := es[..|es| - 1];
      OpenIsInert(c, r, p);
      assert es[|es| - 1] in es;
      assert es == p + [es[|es| - 1]];
    }
  }

  /** Status probes admitted since the breaker last entered HALF_OPEN (0 outside HALF_OPEN). */
  function EpisodeProbes(c: Config, es: seq<Event>): nat
    decreases |es|
  {
    if es == [] then 0
    else
      var p := es[..|es| - 1];
      var e := es[|es| - 1];
      var before := Run(c, FRESH, p);
      if Step(c, before, e).phase != HALF_OPEN then 0
      else (if before.phase == HALF_OPEN then EpisodeProbes(c, p) else 0)
           + (if Admits(c, before, e) && e.kind == QUERY_STATUS then 1 else 0)
  }

  lemma EpisodeProbesPush(c: Config, es: seq<Event>, e: Event)
    ensures var before := Run(c, FRESH, es);
            EpisodeProbes(c, es + [e]) ==
            if Step(c, before, e).phase != HALF_OPEN then 0
            else (if before.phase == HALF_OPEN then EpisodeProbes(c, es) else 0)
                 + (if Admits(c, before, e) && e.kind == QUERY_STATUS then 1 else 0)
  {
    PushLast(es, e);
  }

  /** Successful observations since the breaker last entered HALF_OPEN (0 outside HALF_OPEN). */
  function EpisodeSuccesses(c: Config, es: seq<Event>): nat
    decreases |es|
  {
    if es == [] then 0
    else
      var p := es[..|es| - 1];
      var e := es[|es| - 1];
      var before := Run(c, FRESH, p);
      if Step(c, before, e).phase != HALF_OPEN then 0
      else if before.phase != HALF_OPEN then 0
      else EpisodeSuccesses(c, p) + (if e.Observe? && e.readable && !e.failure then 1 else 0)
  }

  lemma {:induction false} EpisodeCounters(c: Config, es: seq<Event>)
    requires !c.informational
    ensures var r := Run(c, FRESH, es);
            r.phase == HALF_OPEN ==> r.probes == EpisodeProbes(c, es) && r.successes == EpisodeSuccesses(c, es)
    decreases |es|
  {
    if es != [] {
      EpisodeCounters(c, es[..|es| - 1]);
      ReachableIsWellFormed(c, es[..|es| - 1]);
    }
  }

  /** Each HALF_OPEN episode admits at most `quota` status probes, and the breaker closes again only on the
      success that completes the quota, so never before `quota` successes of one episode. */
  lemma HalfOpenIsRationed(c: Config, es: seq<Event>, e: Event)
    requires !c.informational
    ensures EpisodeProbes(c, es) <= c.quota
    ensures var r := Run(c, FRESH, es);
            r.phase == HALF_OPEN && Step(c, r, e).phase == CLOSED ==>
              e.Observe? && !e.failure && EpisodeSuccesses(c, es) + 1 == Max(1, c.quota)
  {
    EpisodeCounters(c, es);
    ReachableIsWellFormed(c, es);
  }

  // ------------------------------------------------------------------ exactly when it moves, exactly what it admits

  /** When an OPEN breaker opened. */
  function OpenedSince(c: Config, es: seq<Event>): Option<int>
    decreases |es|
  {
    if es == [] || Run(c, FRESH, es).phase != OPEN then None
    else if Run(c, FRESH, es[..|es| - 1]).phase != OPEN then Some(es[|es| - 1].now)
    else OpenedSince(c, es[..|es| - 1])
  }

  lemma {:induction false} OpenedAtIsTheOpening(c: Config, es: seq<Event>)
    requires Run(c, FRESH, es).phase == OPEN
    ensures OpenedSince(c, es).Some? && Run(c, FRESH, es).openedAt == OpenedSince(c, es)
    decreases |es|
  {
    if es != [] && Run(c, FRESH, es[..|es| - 1]).phase == OPEN {
      OpenedAtIsTheOpening(c, es[..|es| - 1]);
    }
  }

  /** The breaker is OPEN and its cooldown is over, or a call finds it HALF_OPEN already. */
  predicate Probing(c: Config, es: seq<Event>, now: int) {
    var phase := Run(c, FRESH, es).phase;
    phase == HALF_OPEN || (phase == OPEN && OpenedSince(c, es).Some? && now - OpenedSince(c, es).value >= c.cooldown)
  }

  /** What may pass after this history: everything while CLOSED; once the cooldown is over, health checks, and status queries
      while the episode has admitted fewer than `quota`; everything for an informational breaker; nothing at all when the state
      cannot be read. */
  predicate Admissible(c: Config, es: seq<Event>, kind: Kind, now: int, readable: bool) {
    readable && (|| c.informational
                 || Run(c, FRESH, es).phase == CLOSED
                 || (Probing(c, es, now) && (kind == HEALTH || (kind == QUERY_STATUS && EpisodeProbes(c, es) < c.quota))))
  }

  lemma AdmittedExactly(c: Config, es: seq<Event>, kind: Kind, now: int, readable: bool)
    ensures Admits(c, Run(c, FRESH, es), Admit(kind, now, readable)) <==> Admissible(c, es, kind, now, readable)
  {
    if !c.informational {
      EpisodeCounters(c, es);
      if Run(c, FRESH, es).phase == OPEN {
        OpenedAtIsTheOpening(c, es);
        assert EpisodeProbes(c, es) == 0;
      }
    }
  }

  /** In every run, exactly when the breaker moves: it opens on a failed probe or on the failure that completes the threshold
      within the window, goes HALF_OPEN on a reset or on the first call after the cooldown, and closes on the success that
      completes the quota. */
  lemma MovesExactly(c: Config, es: seq<Event>, e: Event)
    ensures var r, t := Run(c, FRESH, es), Step(c, Run(c, FRESH, es), e);
            match r.phase
            case CLOSED =>
              t.phase != HALF_OPEN && (t.phase == OPEN <==> Fails(e) && InWindow(c, r, e) + 1 >= c.threshold)
            case OPEN =>
              t.phase != CLOSED &&
              (t.phase == HALF_OPEN <==>
                 e.Reset? || (Looks(c, e) && OpenedSince(c, es).Some? && e.now - OpenedSince(c, es).value >= c.cooldown))
            case HALF_OPEN =>
              (t.phase == OPEN <==> Fails(e)) &&
              (!c.informational ==> (t.phase == CLOSED <==> Succeeds(e) && EpisodeSuccesses(c, es) + 1 >= c.quota))
  {
    if Run(c, FRESH, es).phase == OPEN {
      OpenedAtIsTheOpening(c, es);
    }
    if !c.informational {
      EpisodeCounters(c, es);
    }
  }

  /** A breaker nobody has configured opens on the fifth failure within 60 seconds, admits again after 30, and closes on the third
      success of a probe. */
  lemma DefaultsExactly(es: seq<Event>, e: Event)
    ensures var c := DEFAULT_CONFIG;
            var r, t := Run(c, FRESH, es), Step(c, Run(c, FRESH, es), e);
            && (r.phase == CLOSED ==>
                  (t.phase == OPEN <==> Fails(e) && r.failures >= 4 && r.windowStart.Some? && e.now - r.windowStart.value <= 60))
            && (r.phase == OPEN ==>
                  (t.phase == HALF_OPEN <==>
                     e.Reset? || ((e.Peek? || e.Admit?) && e.readable && OpenedSince(c, es).Some? && e.now - OpenedSince(c, es).value >= 30)))
            && (r.phase == HALF_OPEN ==> (t.phase == CLOSED <==> Succeeds(e) && EpisodeSuccesses(c, es) >= 2))
            && EpisodeProbes(c, es) <= 3
  {
    MovesExactly(DEFAULT_CONFIG, es, e);
    HalfOpenIsRationed(DEFAULT_CONFIG, es, e);
  }

  predicate Fails(e: Event) {
    e.Observe? && e.readable && e.failure
  }

  predicate Succeeds(e: Event) {
    e.Observe? && e.readable && !e.failure
  }

  /** A call that applies the cooldown. */
  predicate Looks(c: Config, e: Event) {
    (e.Peek? && e.readable) || (e.Admit? && e.readable && !c.informational)
  }

  /** The failures already counted in the window that this observation falls into. */
  function InWindow(c: Config, r: Record, e: Event): nat {
    if r.windowStart.Some? && e.now - r.windowStart.value <= c.window then r.failures else 0
  }

  // ------------------------------------------------------------------ the breaker object

  const DEFAULT_CONFIG := Config(5, 60, 30, 3, false)

  class CircuitBreaker {
    const configs: map<string, Config>
    var records: map<string, Record>

    constructor (configs: map<string, Config>)
      ensures this.configs == configs && records == map[]
    {
      this.configs := configs;
      this.records := map[];
    }

    function ConfigOf(id: string): Config {
      if id in configs then configs[id] else DEFAULT_CONFIG
    }

    /** A connector without a stored record evaluates as fresh. */
    function Lookup(id: string): Record
      reads this
    {
      if id in records then records[id] else FRESH
    }

    /** Read path: an unknown connector is evaluated but never persisted. */
    method DoAdmit(id: string, kind: Kind, now: int, readable: bool) returns (ok: bool)
      modifies this
      ensures ok == Admits(ConfigOf(id), old(Lookup(id)), Admit(kind, now, readable))
      ensures Lookup(id) == Step(ConfigOf(id), old(Lookup(id)), Admit(kind, now, readable))
      ensures records.Keys == old(records.Keys)
      ensures forall other :: other != id ==> Lookup(other) == old(Lookup(other))
    {
      if !readable {
        return false;
      }
      if ConfigOf(id).informational {
        return true;
      }
      MaybeCooldown(id, now);
      var record := Lookup(id);
      if record.phase == CLOSED {
        return true;
      }
      if record.phase == OPEN {
        return false;
      }
      if kind == HEALTH {
        return true;
      }
      if kind == QUERY_STATUS {
        if record.probes >= ConfigOf(id).quota {
          return false;
        }
        records := records[id := record.(probes := record.probes + 1)];
        return true;
      }
      return false;
    }

    method MaybeCooldown(id: string, now: int)
      modifies this
      ensures Lookup(id) == Cooled(ConfigOf(id), old(Lookup(id)), now)
      ensures records.Keys == old(records.Keys)
      ensures forall other :: other != id ==> Lookup(other) == old(Lookup(other))
    {
      var record := Lookup(id);
      if record.phase != OPEN || record.openedAt.None? {
        return;
      }
      var elapsed := now - record.openedAt.value;
      if elapsed >= ConfigOf(id).cooldown {
        record := record.(phase := HALF_OPEN);
        record := record.(successes := 0);
        record := record.(probes := 0);
        records := records[id := record];
      }
    }

    method DoObserve(id: string, failure: bool, now: int, readable: bool)
      modifies this
      ensures Lookup(id) == Step(ConfigOf(id), old(Lookup(id)), Observe(failure, now, readable))
      ensures readable ==> records.Keys == old(records.Keys) + {id}
      ensures !readable ==> records == old(records)
      ensures forall other :: other != id ==> Lookup(other) == old(Lookup(other))
    {
      if !readable {
        return;
      }
      var c := ConfigOf(id);
      var record := Lookup(id);
      records := records[id := record];
      if record.phase == OPEN {
        return;
      }
      if record.phase == HALF_OPEN {
        if failure {
          record := record.(phase := OPEN, openedAt := Some(now), successes := 0, probes := 0);
        } else {
          record := record.(successes := record.successes + 1);
          if record.successes >= c.quota {
            record := record.(phase := CLOSED, failures := 0, windowStart := None, openedAt := None);
            record := record.(successes := 0, probes := 0);
          }
        }
        records := records[id := record];
        return;
      }
      if !failure {
        record := record.(failures := 0, windowStart := None);
        records := records[id := record];
        return;
      }
      var expired := record.windowStart.None? || now - record.windowStart.value > c.window;
      if expired {
        record := record.(windowStart := Some(now), failures := 1);
      } else {
        record := record.(failures := record.failures + 1);
      }
      if record.failures >= c.threshold {
        record := record.(phase := OPEN, openedAt := Some(now), successes := 0, probes := 0);
      }
      records := records[id := record];
    }

    /** Legal only from OPEN; anything else is refused and changes nothing. */
    method DoReset(id: string, now: int) returns (ok: bool)
      modifies this
      ensures ok == (old(Lookup(id)).phase == OPEN)
      ensures Lookup(id) == Step(ConfigOf(id), old(Lookup(id)), Reset(now))
      ensures records.Keys == old(records.Keys)
      ensures forall other :: other != id ==> Lookup(other) == old(Lookup(other))
    {
      var record := Lookup(id);
      ok := record.phase == OPEN;
      if ok {
        record := record.(phase := HALF_OPEN, successes := 0, probes := 0);
        records := records[id := record];
      }
    }

    /** Reports OPEN when the store is unreadable. */
    method State(id: string, now: int, readable: bool) returns (phase: Phase)
      modifies this
      ensures Lookup(id) == Step(ConfigOf(id), old(Lookup(id)), Peek(now, readable))
      ensures phase == if readable then Lookup(id).phase else OPEN
      ensures records.Keys == old(records.Keys)
      ensures forall other :: other != id ==> Lookup(other) == old(Lookup(other))
    {
      if !readable {
        return OPEN;
      }
      MaybeCooldown(id, now);
      phase := Lookup(id).phase;
    }
  }
}

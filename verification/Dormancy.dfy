/**
 The dormant-reactivation rule of the transaction monitor (bdpay/compliance/monitor.py) for one subject, and what a restart
 does to it. The rule remembers the last charge and the last charge that followed a long quiet. The running monitor dates both
 by events; at start-up they are rebuilt from the stored times of the structuring window's charges alone.
 */
module Dormancy {
  import opened Common
  import opened Monitor

  /** What the monitor keeps of a subject: the charges, the last one's time, and when a dormancy last ended. */
  datatype Track = Track(seen: seq<Observation>, lastSeen: Option<int>, breakAt: Option<int>)

  const UNKNOWN := Track([], None, None)

  /** The dormancy is a positive number of days. */
  datatype Rule = Rule(dormancy: int, spike: int)

  predicate Sane(r: Rule) {
    r.dormancy >= 24 * HOUR && r.spike > 0
  }

  function Note(t: Track, o: Observation, r: Rule): Track {
    Track(t.seen + [o], Some(o.at),
          if t.lastSeen.Some? && o.at - t.lastSeen.value > r.dormancy then Some(o.at) else t.breakAt)
  }

  function NoteAll(t: Track, os: seq<Observation>, r: Rule): Track {
    if os == [] then t else Note(NoteAll(t, os[..|os| - 1], r), os[|os| - 1], r)
  }

  /** The verdict on a charge just noted. */
  function Baseline(t: Track, o: Observation, r: Rule): Verdict {
    if t.breakAt.None? || o.at - t.breakAt.value > 24 * HOUR then Verdict(PASSED, o.at, [], None)
    else
      var window := Within(t.seen, t.breakAt.value, o.at);
      if |window| >= r.spike then Verdict(ALERT_RAISED, t.breakAt.value, Intents(window), Some(Total(window)))
      else Verdict(NEAR_MISS, o.at, [], None)
  }

  /** The verdict on the `k`th of the charges `later`. */
  function VerdictAt(t: Track, later: seq<Observation>, k: nat, r: Rule): Verdict
    requires k < |later|
  {
    Baseline(NoteAll(t, later[..k + 1], r), later[k], r)
  }

  // ------------------------------------------------------------------ what a track says of its charges

  predicate InOrder(os: seq<Observation>) {
    forall i, j :: 0 <= i < j < |os| ==> os[i].at <= os[j].at
  }

  /** The position of the last charge that followed a quiet longer than the dormancy. */
  function LastBreak(os: seq<Observation>, r: Rule): (i: Option<nat>)
    ensures i.Some? ==> 0 < i.value < |os| && os[i.value].at - os[i.value - 1].at > r.dormancy
    ensures forall j :: 0 < j < |os| && os[j].at - os[j - 1].at > r.dormancy ==> i.Some? && j <= i.value
  {
    if |os| < 2 then None
    else if os[|os| - 1].at - os[|os| - 2].at > r.dormancy then Some(|os| - 1)
    else
      var p := os[..|os| - 1];
      assert forall j :: 0 <= j < |p| ==> p[j] == os[j];
      LastBreak(p, r)
  }

  function TimeAt(os: seq<Observation>, i: Option<nat>): Option<int>
    requires i.Some? ==> i.value < |os|
  {
    if i.None? then None else Some(os[i.value].at)
  }

  /** When the last dormancy ended. */
  function BreakTime(os: seq<Observation>, r: Rule): Option<int> {
    TimeAt(os, LastBreak(os, r))
  }

  function LastTime(os: seq<Observation>): Option<int> {
    if os == [] then None else Some(os[|os| - 1].at)
  }

  function Kept(os: seq<Observation>, r: Rule): Track {
    Track(os, LastTime(os), BreakTime(os, r))
  }

  lemma BreakNext(p: seq<Observation>, o: Observation, r: Rule)
    ensures BreakTime(p + [o], r) ==
            if LastTime(p).Some? && o.at - LastTime(p).value > r.dormancy then Some(o.at) else BreakTime(p, r)
  {
    var os := p + [o];
    assert os[..|os| - 1] == p && os[|os| - 1] == o;
    assert p != [] ==> os[|os| - 2] == p[|p| - 1];
    assert LastBreak(p, r).Some? ==> p[LastBreak(p, r).value] == os[LastBreak(p, r).value];
  }

  lemma KeptNext(p: seq<Observation>, o: Observation, r: Rule)
    ensures Kept(p + [o], r) == Note(Kept(p, r), o, r)
  {
    BreakNext(p, o, r);
    assert LastTime(p + [o]) == Some(o.at);
  }

  /** What is kept of a subject is its charges, the time of the last and of the last that ended a dormancy. */
  lemma {:induction false} TrackSays(os: seq<Observation>, r: Rule)
    ensures NoteAll(UNKNOWN, os, r) == Kept(os, r)
    decreases |os|
  {
    if os != [] {
      TrackSays(os[..|os| - 1], r);
      KeptNext(os[..|os| - 1], os[|os| - 1], r);
      CutLast(os);
    }
  }

  /** A charge ends a dormancy: the one before it lies further back than the rule's limit. */
  predicate EndsDormancy(os: seq<Observation>, i: nat, r: Rule) {
    0 < i < |os| && os[i].at - os[i - 1].at > r.dormancy
  }

  /** The last charge that ended a dormancy, up to charge `k`. */
  ghost predicate LastEnd(os: seq<Observation>, k: nat, i: nat, r: Rule) {
    i <= k && EndsDormancy(os, i, r) && forall j :: i < j <= k ==> !EndsDormancy(os, j, r)
  }

  /** How many of the charges up to `k` lie between two instants. */
  function CountBetween(os: seq<Observation>, n: nat, lo: int, hi: int): nat
    requires n <= |os|
  {
    if n == 0 then 0 else CountBetween(os, n - 1, lo, hi) + if lo <= os[n - 1].at <= hi then 1 else 0
  }

  lemma {:induction false} WithinPush(s: seq<Observation>, o: Observation, lo: int, hi: int)
    ensures Within(s + [o], lo, hi) == Within(s, lo, hi) + if lo <= o.at <= hi then [o] else []
    decreases |s|
  {
    if s == [] {
      assert s + [o] == [o] && [o][1..] == [];
    } else {
      WithinPush(s[1..], o, lo, hi);
      assert (s + [o])[1..] == s[1..] + [o];
    }
  }

  lemma {:induction false} CountIsWithin(os: seq<Observation>, n: nat, lo: int, hi: int)
    requires n <= |os|
    ensures |Within(os[..n], lo, hi)| == CountBetween(os, n, lo, hi)
    decreases n
  {
    if n > 0 {
      CountIsWithin(os, n - 1, lo, hi);
      TakeNext(os, n - 1);
      WithinPush(os[..n - 1], os[n - 1], lo, hi);
    }
  }

  /** The sum and the names of the charges between two times, among the first n. */
  function SumBetween(os: seq<Observation>, n: nat, lo: int, hi: int): int
    requires n <= |os|
  {
    if n == 0 then 0 else SumBetween(os, n - 1, lo, hi) + if lo <= os[n - 1].at <= hi then os[n - 1].amount else 0
  }

  function NamesBetween(os: seq<Observation>, n: nat, lo: int, hi: int): seq<string>
    requires n <= |os|
  {
    if n == 0 then [] else NamesBetween(os, n - 1, lo, hi) + if lo <= os[n - 1].at <= hi then [os[n - 1].intent] else []
  }

  lemma {:induction false} TotalPush(s: seq<Observation>, o: Observation)
    ensures Total(s + [o]) == Total(s) + o.amount && Intents(s + [o]) == Intents(s) + [o.intent]
    decreases |s|
  {
    if s == [] {
      assert s + [o] == [o] && [o][1..] == [];
    } else {
      TotalPush(s[1..], o);
      assert (s + [o])[1..] == s[1..] + [o];
    }
  }

  lemma {:induction false} BetweenIsWithin(os: seq<Observation>, n: nat, lo: int, hi: int)
    requires n <= |os|
    ensures Total(Within(os[..n], lo, hi)) == SumBetween(os, n, lo, hi)
    ensures Intents(Within(os[..n], lo, hi)) == NamesBetween(os, n, lo, hi)
    decreases n
  {
    if n > 0 {
      BetweenIsWithin(os, n - 1, lo, hi);
      TakeNext(os, n - 1);
      WithinPush(os[..n - 1], os[n - 1], lo, hi);
      var w := Within(os[..n - 1], lo, hi);
      TotalPush(w, os[n - 1]);
      assert w + [] == w;
    }
  }

  lemma LastBreakIsLastEnd(os: seq<Observation>, k: nat, i: nat, r: Rule)
    requires k < |os|
    ensures LastBreak(os[..k + 1], r) == Some(i) <==> LastEnd(os, k, i, r)
  {
    var p := os[..k + 1];
    assert forall j :: 0 <= j <= k ==> p[j] == os[j];
    assert forall j :: 0 < j <= k ==> (EndsDormancy(os, j, r) <==> p[j].at - p[j - 1].at > r.dormancy);
  }

  lemma VerdictFromBreak(os: seq<Observation>, k: nat, r: Rule)
    requires k < |os|
    ensures VerdictAt(UNKNOWN, os, k, r) == Baseline(Track(os[..k + 1], Some(os[k].at), BreakTime(os[..k + 1], r)), os[k], r)
  {
    TrackSays(os[..k + 1], r);
  }

  /** A charge passes the dormancy rule when no dormancy has ended yet. */
  lemma NoDormancyNoAlert(os: seq<Observation>, k: nat, r: Rule)
    requires k < |os| && forall i :: !LastEnd(os, k, i, r)
    ensures VerdictAt(UNKNOWN, os, k, r).result == PASSED
  {
    VerdictFromBreak(os, k, r);
    var i := LastBreak(os[..k + 1], r);
    if i.Some? {
      LastBreakIsLastEnd(os, k, i.value, r);
    }
  }

  /**
   Over every run of charges of a subject, once a dormancy has ended: a charge draws the alert exactly when the last one ended at
   most 24 hours before it and at least the rule's number of charges lie between that end and it; it passes exactly when the end
   lies further back, and is a near miss otherwise. The alert is dated by the end of the dormancy, and gives the names and the
   sum of those charges.
   */
  lemma DormancyAlertsExactly(os: seq<Observation>, k: nat, i: nat, r: Rule)
    requires k < |os| && LastEnd(os, k, i, r)
    ensures var v, n := VerdictAt(UNKNOWN, os, k, r), CountBetween(os, k + 1, os[i].at, os[k].at);
            && (v.result == PASSED <==> os[k].at - os[i].at > 86_400_000_000)
            && (v.result == ALERT_RAISED <==> os[k].at - os[i].at <= 86_400_000_000 && n >= r.spike)
            && (v.result == ALERT_RAISED ==> v.windowStart == os[i].at && |v.contributing| == n
                                             && v.contributing == NamesBetween(os, k + 1, os[i].at, os[k].at)
                                             && v.amount == Some(SumBetween(os, k + 1, os[i].at, os[k].at)))
  {
    VerdictFromBreak(os, k, r);
    BreakIsAt(os, k, i, r);
    CountIsWithin(os, k + 1, os[i].at, os[k].at);
    BetweenIsWithin(os, k + 1, os[i].at, os[k].at);
    JudgedFrom(os[..k + 1], os[i].at, os[k], r);
  }

  lemma BreakIsAt(os: seq<Observation>, k: nat, i: nat, r: Rule)
    requires k < |os| && LastEnd(os, k, i, r)
    ensures BreakTime(os[..k + 1], r) == Some(os[i].at)
  {
    LastBreakIsLastEnd(os, k, i, r);
  }

  lemma JudgedFrom(seen: seq<Observation>, at: int, o: Observation, r: Rule)
    ensures var v, n := Baseline(Track(seen, Some(o.at), Some(at)), o, r), |Within(seen, at, o.at)|;
            && (v.result == PASSED <==> o.at - at > 86_400_000_000)
            && (v.result == ALERT_RAISED <==> o.at - at <= 86_400_000_000 && n >= r.spike)
            && (v.result == ALERT_RAISED ==> v.windowStart == at && |v.contributing| == n
                                             && v.contributing == Intents(Within(seen, at, o.at))
                                             && v.amount == Some(Total(Within(seen, at, o.at))))
  {
    IntentsCount(Within(seen, at, o.at));
  }

  lemma {:induction false} IntentsCount(s: seq<Observation>)
    ensures |Intents(s)| == |s|
    decreases |s|
  {
    if s != [] {
      IntentsCount(s[1..]);
    }
  }

  // ------------------------------------------------------------------ one subject's payments, by event and by row

  function ByEvent(ps: seq<Payment>): seq<Observation> {
    seq(|ps|, i requires 0 <= i < |ps| => ps[i].Event().seen)
  }

  function ByRow(ps: seq<Payment>): seq<Observation> {
    seq(|ps|, i requires 0 <= i < |ps| => ps[i].Stored().seen)
  }

  /** Payments of one subject in order of both times, each event no earlier than its payment and no later than `now`. */
  ghost predicate History(ps: seq<Payment>, subject: string, now: int) {
    && InOrder(ByEvent(ps)) && InOrder(ByRow(ps))
    && forall i :: 0 <= i < |ps| ==> ps[i].subject == subject && ps[i].charged <= ps[i].occurred <= now
  }

  /** The first `n` payments were stored before the cut-off, the others were not. */
  ghost predicate CutsAt(ps: seq<Payment>, since: int, n: nat) {
    n <= |ps| && (forall i :: 0 <= i < n ==> ps[i].charged < since) && forall i :: n <= i < |ps| ==> ps[i].charged >= since
  }

  lemma {:induction false} RowsBack(subject: string, ps: seq<Payment>)
    requires forall i :: 0 <= i < |ps| ==> ps[i].subject == subject
    ensures ChargesOf(Rows(ps), subject) == ByRow(ps)
    decreases |ps|
  {
    if ps != [] {
      RowsBack(subject, ps[1..]);
      ViewsHead(ps);
      assert Rows(ps)[1..] == Rows(ps[1..]);
      assert ByRow(ps) == [ps[0].Stored().seen] + ByRow(ps[1..]);
    }
  }

  lemma InsertFirst(c: Charge, s: seq<Charge>)
    requires s == [] || c.seen.at <= s[0].seen.at
    ensures Insert(c, s) == [c] + s
  {
  }

  lemma ListHead(c: Charge, cs: seq<Charge>, since: int)
    ensures var rest := ListChargedSince(cs, since);
            ListChargedSince([c] + cs, since) == if c.seen.at >= since then Insert(c, rest) else rest
  {
    assert ([c] + cs)[1..] == cs;
  }

  /** The store lists the payments stored from the cut-off on. */
  lemma {:induction false} StoreListsTheRest(ps: seq<Payment>, since: int, n: nat)
    requires InOrder(ByRow(ps)) && CutsAt(ps, since, n)
    ensures ListChargedSince(Rows(ps), since) == Rows(ps[n..])
    decreases |ps|
  {
    if ps != [] {
      var rest := ps[1..];
      ViewsHead(ps);
      ListHead(ps[0].Stored(), Rows(rest), since);
      assert forall i :: 0 <= i < |rest| ==> ByRow(rest)[i] == ByRow(ps)[i + 1];
      if n > 0 {
        StoreListsTheRest(rest, since, n - 1);
        assert rest[n - 1..] == ps[n..];
      } else {
        StoreListsTheRest(rest, since, 0);
        assert rest[0..] == rest && ps[0..] == ps;
        assert rest != [] ==> ByRow(ps)[0].at <= ByRow(ps)[1].at;
        InsertFirst(ps[0].Stored(), Rows(rest));
      }
    }
  }

  /** The track a restarted monitor rebuilds from the store. */
  function Restarted(subject: string, ps: seq<Payment>, since: int, r: Rule): Track {
    NoteAll(UNKNOWN, ChargesOf(ListChargedSince(Rows(ps), since), subject), r)
  }

  lemma RestartedSays(subject: string, ps: seq<Payment>, since: int, n: nat, now: int, r: Rule)
    requires History(ps, subject, now) && CutsAt(ps, since, n)
    ensures Restarted(subject, ps, since, r) == Kept(ByRow(ps[n..]), r)
  {
    StoreListsTheRest(ps, since, n);
    RowsBack(subject, ps[n..]);
    TrackSays(ByRow(ps[n..]), r);
  }

  // ------------------------------------------------------------------ two tracks that judge alike

  predicate LongAgo(b: Option<int>, now: int) {
    b.None? || b.value < now - 24 * HOUR
  }

  /** The same payments, whatever their times. */
  ghost predicate Echo(v: seq<Observation>, w: seq<Observation>) {
    |v| == |w| && forall i :: 0 <= i < |v| ==> v[i].intent == w[i].intent && v[i].amount == w[i].amount
  }

  lemma {:induction false} EchoAgrees(v: seq<Observation>, w: seq<Observation>)
    requires Echo(v, w)
    ensures Intents(v) == Intents(w) && Total(v) == Total(w)
    decreases |v|
  {
    if v != [] {
      EchoAgrees(v[1..], w[1..]);
    }
  }

  lemma {:induction false} WithinSplit(a: seq<Observation>, b: seq<Observation>, lo: int, hi: int)
    ensures Within(a + b, lo, hi) == Within(a, lo, hi) + Within(b, lo, hi)
    decreases |a|
  {
    if a == [] {
      assert a + b == b;
    } else {
      WithinSplit(a[1..], b, lo, hi);
      assert (a + b)[0] == a[0] && (a + b)[1..] == a[1..] + b;
      Regroup(if lo <= a[0].at <= hi then [a[0]] else [], Within(a[1..], lo, hi), Within(b, lo, hi));
    }
  }

  /** A charge from before the restart: no later than `now`, nor than the last one seen unless that is newer still. */
  ghost predicate Past(pre: seq<Observation>, last: Option<int>, now: int) {
    forall i :: 0 <= i < |pre| ==> pre[i].at <= now && last.Some? && (last.value >= now || pre[i].at <= last.value)
  }

  ghost predicate EchoFrom(pa: seq<Observation>, pb: seq<Observation>, lo: int, now: int) {
    forall hi :: hi >= now ==> Echo(Within(pa, lo, hi), Within(pb, lo, hi))
  }

  /** Tracks that differ in the past only, and there in nothing that still matters. */
  ghost predicate Alike(a: Track, b: Track, pa: seq<Observation>, pb: seq<Observation>, common: seq<Observation>, now: int) {
    && a.seen == pa + common && b.seen == pb + common && a.lastSeen == b.lastSeen
    && Past(pa, a.lastSeen, now) && Past(pb, b.lastSeen, now)
    && SameBreak(a.breakAt, b.breakAt, pa, pb, now)
  }

  ghost predicate SameBreak(x: Option<int>, y: Option<int>, pa: seq<Observation>, pb: seq<Observation>, now: int) {
    (LongAgo(x, now) && LongAgo(y, now)) || (x == y && x.Some? && EchoFrom(pa, pb, x.value, now))
  }

  lemma {:induction false} NothingWithin(pre: seq<Observation>, lo: int, hi: int)
    requires forall i :: 0 <= i < |pre| ==> pre[i].at < lo
    ensures Within(pre, lo, hi) == []
    decreases |pre|
  {
    if pre != [] {
      NothingWithin(pre[1..], lo, hi);
    }
  }

  lemma PastEchoes(pa: seq<Observation>, pb: seq<Observation>, lo: int, now: int)
    requires forall i :: 0 <= i < |pa| ==> pa[i].at < lo
    requires forall i :: 0 <= i < |pb| ==> pb[i].at < lo
    ensures EchoFrom(pa, pb, lo, now)
  {
    forall hi | hi >= now ensures Echo(Within(pa, lo, hi), Within(pb, lo, hi)) {
      NothingWithin(pa, lo, hi);
      NothingWithin(pb, lo, hi);
    }
  }

  lemma AlikeNoted(a: Track, b: Track, pa: seq<Observation>, pb: seq<Observation>, common: seq<Observation>, now: int,
                   o: Observation, r: Rule)
    requires Sane(r) && Alike(a, b, pa, pb, common, now) && o.at >= now
    ensures Alike(Note(a, o, r), Note(b, o, r), pa, pb, common + [o], now)
  {
    Regroup(pa, common, [o]);
    Regroup(pb, common, [o]);
    if a.lastSeen.Some? && o.at - a.lastSeen.value > r.dormancy {
      PastEchoes(pa, pb, o.at, now);
    }
  }

  lemma AlikeJudge(a: Track, b: Track, pa: seq<Observation>, pb: seq<Observation>, common: seq<Observation>, now: int,
                   o: Observation, r: Rule)
    requires Alike(a, b, pa, pb, common, now) && o.at >= now
    ensures Baseline(a, o, r) == Baseline(b, o, r)
  {
    if !(LongAgo(a.breakAt, now) && LongAgo(b.breakAt, now)) {
      var lo := a.breakAt.value;
      WithinSplit(pa, common, lo, o.at);
      WithinSplit(pb, common, lo, o.at);
      assert Echo(Within(pa, lo, o.at), Within(pb, lo, o.at));
      EchoAgrees(Within(a.seen, lo, o.at), Within(b.seen, lo, o.at));
    }
  }

  predicate AllLater(later: seq<Observation>, now: int) {
    forall i :: 0 <= i < |later| ==> later[i].at >= now
  }

  lemma {:induction false} AlikeThroughout(a: Track, b: Track, pa: seq<Observation>, pb: seq<Observation>, now: int,
                                           later: seq<Observation>, r: Rule)
    requires Sane(r) && Alike(a, b, pa, pb, [], now) && AllLater(later, now)
    ensures Alike(NoteAll(a, later, r), NoteAll(b, later, r), pa, pb, later, now)
    decreases |later|
  {
    if later != [] {
      var p := later[..|later| - 1];
      AlikeThroughout(a, b, pa, pb, now, p, r);
      AlikeNoted(NoteAll(a, p, r), NoteAll(b, p, r), pa, pb, p, now, later[|later| - 1], r);
      assert p + [later[|later| - 1]] == later;
    }
  }

  /** Both tracks have been quiet so long that whatever comes next ends a dormancy. */
  ghost predicate BothDormant(a: Track, b: Track, now: int, r: Rule) {
    && a.lastSeen.Some? && now - a.lastSeen.value > r.dormancy && Past(a.seen, a.lastSeen, now)
    && b.lastSeen.Some? && now - b.lastSeen.value > r.dormancy && Past(b.seen, b.lastSeen, now)
  }

  lemma DormantNoted(a: Track, b: Track, now: int, o: Observation, r: Rule)
    requires Sane(r) && BothDormant(a, b, now, r) && o.at >= now
    ensures Alike(Note(a, o, r), Note(b, o, r), a.seen, b.seen, [o], now)
  {
    PastEchoes(a.seen, b.seen, o.at, now);
  }

  lemma {:induction false} DormantThroughout(a: Track, b: Track, now: int, later: seq<Observation>, r: Rule)
    requires Sane(r) && BothDormant(a, b, now, r) && AllLater(later, now) && later != []
    ensures Alike(NoteAll(a, later, r), NoteAll(b, later, r), a.seen, b.seen, later, now)
    decreases |later|
  {
    var p, o := later[..|later| - 1], later[|later| - 1];
    assert p + [o] == later;
    if p == [] {
      DormantNoted(a, b, now, o, r);
    } else {
      DormantThroughout(a, b, now, p, r);
      AlikeNoted(NoteAll(a, p, r), NoteAll(b, p, r), a.seen, b.seen, p, now, o, r);
    }
  }

  /** Whatever is charged from `now` on draws the same verdicts from both tracks. */
  ghost predicate JudgeAlike(a: Track, b: Track, now: int, r: Rule) {
    forall later, k: nat :: AllLater(later, now) && k < |later| ==> VerdictAt(a, later, k, r) == VerdictAt(b, later, k, r)
  }

  lemma AlikeAlwaysJudge(a: Track, b: Track, pa: seq<Observation>, pb: seq<Observation>, now: int, r: Rule)
    requires Sane(r) && Alike(a, b, pa, pb, [], now)
    ensures JudgeAlike(a, b, now, r)
  {
    forall later, k: nat | AllLater(later, now) && k < |later| ensures VerdictAt(a, later, k, r) == VerdictAt(b, later, k, r) {
      var upTo := later[..k + 1];
      AlikeThroughout(a, b, pa, pb, now, upTo, r);
      AlikeJudge(NoteAll(a, upTo, r), NoteAll(b, upTo, r), pa, pb, upTo, now, later[k], r);
    }
  }

  lemma DormantAlwaysJudge(a: Track, b: Track, now: int, r: Rule)
    requires Sane(r) && BothDormant(a, b, now, r)
    ensures JudgeAlike(a, b, now, r)
  {
    forall later, k: nat | AllLater(later, now) && k < |later| ensures VerdictAt(a, later, k, r) == VerdictAt(b, later, k, r) {
      var upTo := later[..k + 1];
      DormantThroughout(a, b, now, upTo, r);
      AlikeJudge(NoteAll(a, upTo, r), NoteAll(b, upTo, r), a.seen, b.seen, upTo, now, later[k], r);
    }
  }

  // ------------------------------------------------------------------ a spike of probes

  function Times(o: Observation, m: nat): seq<Observation> {
    seq(m, i => o)
  }

  /** Equal charges in a row: only the first can end a dormancy. */
  lemma {:induction false} Repeated(t: Track, o: Observation, m: nat, r: Rule)
    requires Sane(r) && m > 0
    ensures NoteAll(t, Times(o, m), r) == Track(t.seen + Times(o, m), Some(o.at), Note(t, o, r).breakAt)
    decreases m
  {
    var os := Times(o, m);
    assert os[..m - 1] == Times(o, m - 1) && os == Times(o, m - 1) + [o];
    if m == 1 {
      assert os[..0] == [];
      assert t.seen + [o] == t.seen + os;
    } else {
      Repeated(t, o, m - 1, r);
      Regroup(t.seen, Times(o, m - 1), [o]);
    }
  }

  lemma {:induction false} TimesWithin(o: Observation, m: nat, lo: int)
    requires lo <= o.at
    ensures Within(Times(o, m), lo, o.at) == Times(o, m)
    decreases m
  {
    if m > 0 {
      assert Times(o, m)[1..] == Times(o, m - 1);
      TimesWithin(o, m - 1, lo);
    }
  }

  lemma {:induction false} IntentsLength(w: seq<Observation>)
    ensures |Intents(w)| == |w|
    decreases |w|
  {
    if w != [] {
      IntentsLength(w[1..]);
    }
  }

  /** What a spike of equal charges draws: a dormancy end that still matters raises an alert dated by it. */
  lemma SpikeVerdict(t: Track, o: Observation, r: Rule)
    requires Sane(r)
    requires var b := Note(t, o, r).breakAt; b.Some? ==> b.value <= o.at
    ensures var v := VerdictAt(t, Times(o, r.spike), r.spike - 1, r);
            var b := Note(t, o, r).breakAt;
            if b.None? || o.at - b.value > 24 * HOUR then v.result == PASSED
            else v.result == ALERT_RAISED && v.windowStart == b.value
                 && |v.contributing| == |Within(t.seen, b.value, o.at)| + r.spike
  {
    var os := Times(o, r.spike);
    assert os[..r.spike] == os;
    Repeated(t, o, r.spike, r);
    var b := Note(t, o, r).breakAt;
    if b.Some? {
      WithinSplit(t.seen, os, b.value, o.at);
      TimesWithin(o, r.spike, b.value);
      IntentsLength(Within(t.seen + os, b.value, o.at));
    }
  }

  lemma SpikeShows(a: Track, b: Track, now: int, o: Observation, r: Rule)
    requires Sane(r) && o.at >= now
    requires VerdictAt(a, Times(o, r.spike), r.spike - 1, r) != VerdictAt(b, Times(o, r.spike), r.spike - 1, r)
    ensures !JudgeAlike(a, b, now, r)
  {
    assert AllLater(Times(o, r.spike), now);
  }

  // ------------------------------------------------------------------ exactly when the rule survives

  /** The last dormancy end the restarted monitor rebuilds: the charge before it must have been kept too. */
  function KeptBreak(ps: seq<Payment>, n: nat, r: Rule): (j: Option<nat>)
    requires n <= |ps|
    ensures j.Some? ==> j.value < |ps|
  {
    var j := LastBreak(ByRow(ps), r);
    if j.Some? && j.value > n then j else None
  }

  /** A dormancy end that still matters is dated alike; or none of the two still matters. */
  predicate BreakRemembered(ps: seq<Payment>, n: nat, now: int, r: Rule)
    requires n <= |ps|
  {
    var i, j := LastBreak(ByEvent(ps), r), KeptBreak(ps, n, r);
    || (LongAgo(TimeAt(ByEvent(ps), i), now) && LongAgo(TimeAt(ByRow(ps), j), now))
    || (i.Some? && i == j && ps[i.value].charged == ps[i.value].occurred)
  }

  /** Nothing was charged; or the last payment was kept and, unless the subject is dormant anyway, has one time and the last
      dormancy end is remembered. */
  predicate Remembers(ps: seq<Payment>, n: nat, now: int, r: Rule)
    requires n <= |ps|
  {
    ps == [] ||
    (n < |ps| &&
     var last := ps[|ps| - 1];
     now - last.occurred > r.dormancy || (last.charged == last.occurred && BreakRemembered(ps, n, now, r)))
  }

  lemma BreakOfRest(os: seq<Observation>, n: nat, r: Rule)
    requires n <= |os|
    ensures var i := LastBreak(os, r);
            BreakTime(os[n..], r) == if i.Some? && i.value > n then Some(os[i.value].at) else None
  {
    var rest, i := os[n..], LastBreak(os, r);
    var j := LastBreak(rest, r);
    if j.Some? {
      assert rest[j.value] == os[n + j.value] && rest[j.value - 1] == os[n + j.value - 1];
    }
    if i.Some? && i.value > n {
      assert rest[i.value - n] == os[i.value] && rest[i.value - n - 1] == os[i.value - 1];
    }
  }

  /** The two tracks of a history. */
  ghost predicate Tracks(a: Track, b: Track, ps: seq<Payment>, n: nat, r: Rule) {
    && n <= |ps|
    && a == Kept(ByEvent(ps), r)
    && b == Track(ByRow(ps)[n..], LastTime(ByRow(ps)[n..]), TimeAt(ByRow(ps), KeptBreak(ps, n, r)))
  }

  lemma TheTracks(subject: string, ps: seq<Payment>, since: int, n: nat, now: int, r: Rule)
    requires History(ps, subject, now) && CutsAt(ps, since, n)
    ensures Tracks(NoteAll(UNKNOWN, ByEvent(ps), r), Restarted(subject, ps, since, r), ps, n, r)
  {
    TrackSays(ByEvent(ps), r);
    RestartedSays(subject, ps, since, n, now, r);
    RowsFrom(ps, n);
    KeptBreakTime(ps, n, r);
  }

  lemma RowsFrom(ps: seq<Payment>, n: nat)
    requires n <= |ps|
    ensures ByRow(ps[n..]) == ByRow(ps)[n..]
  {
  }

  lemma KeptBreakTime(ps: seq<Payment>, n: nat, r: Rule)
    requires n <= |ps|
    ensures BreakTime(ByRow(ps)[n..], r) == TimeAt(ByRow(ps), KeptBreak(ps, n, r))
  {
    BreakOfRest(ByRow(ps), n, r);
  }

  lemma {:induction false} WithinIsSuffix(os: seq<Observation>, i: nat, lo: int, hi: int)
    requires i <= |os| && (forall k :: 0 <= k < i ==> os[k].at < lo) && forall k :: i <= k < |os| ==> lo <= os[k].at <= hi
    ensures Within(os, lo, hi) == os[i..]
    decreases |os|
  {
    if os != [] && i > 0 {
      WithinIsSuffix(os[1..], i - 1, lo, hi);
      assert os[1..][i - 1..] == os[i..];
      assert Within(os, lo, hi) == Within(os[1..], lo, hi);
    } else if os != [] {
      WithinIsSuffix(os[1..], 0, lo, hi);
      assert os[1..][0..] == os[1..] && os[0..] == os;
      CutFirst(os);
    }
  }

  lemma SuffixOfRest(os: seq<Observation>, n: nat, i: nat, now: int, hi: int)
    requires InOrder(os) && n < i < |os| && os[i - 1].at < os[i].at && hi >= now
    requires forall k :: 0 <= k < |os| ==> os[k].at <= now
    ensures Within(os[n..], os[i].at, hi) == os[i..]
  {
    var rest := os[n..];
    forall k | 0 <= k < |rest| ensures rest[k] == os[n + k] {
    }
    forall k | 0 <= k < i - n ensures rest[k].at < os[i].at {
      assert os[n + k].at <= os[i - 1].at;
    }
    WithinIsSuffix(rest, i - n, os[i].at, hi);
    assert rest[i - n..] == os[i..];
  }

  lemma ViewsEcho(ps: seq<Payment>, i: nat)
    requires i <= |ps|
    ensures Echo(ByEvent(ps)[i..], ByRow(ps)[i..])
  {
  }

  lemma EchoAt(es: seq<Observation>, rs: seq<Observation>, n: nat, i: nat, now: int, hi: int)
    requires InOrder(es) && InOrder(rs) && |es| == |rs| && n < i < |es| && hi >= now && Echo(es[i..], rs[i..])
    requires es[i - 1].at < es[i].at == rs[i].at && rs[i - 1].at < rs[i].at
    requires forall k :: 0 <= k < |es| ==> es[k].at <= now
    requires forall k :: 0 <= k < |rs| ==> rs[k].at <= now
    ensures Echo(Within(es, es[i].at, hi), Within(rs[n..], es[i].at, hi))
  {
    SuffixOfRest(es, 0, i, now, hi);
    assert es[0..] == es;
    SuffixOfRest(rs, n, i, now, hi);
  }

  lemma RememberedEchoes(ps: seq<Payment>, n: nat, subject: string, now: int, r: Rule)
    requires Sane(r) && History(ps, subject, now) && n <= |ps|
    requires LastBreak(ByEvent(ps), r).Some? && LastBreak(ByEvent(ps), r) == KeptBreak(ps, n, r)
    requires var i := LastBreak(ByEvent(ps), r).value; ps[i].charged == ps[i].occurred
    ensures var i := LastBreak(ByEvent(ps), r).value; EchoFrom(ByEvent(ps), ByRow(ps)[n..], ps[i].occurred, now)
  {
    var i := LastBreak(ByEvent(ps), r).value;
    ViewsEcho(ps, i);
    forall hi | hi >= now ensures Echo(Within(ByEvent(ps), ps[i].occurred, hi), Within(ByRow(ps)[n..], ps[i].occurred, hi)) {
      EchoAt(ByEvent(ps), ByRow(ps), n, i, now, hi);
    }
  }

  lemma AllPast(ps: seq<Payment>, n: nat, subject: string, now: int)
    requires History(ps, subject, now) && n < |ps|
    ensures Past(ByEvent(ps), LastTime(ByEvent(ps)), now) && Past(ByRow(ps)[n..], LastTime(ByRow(ps)[n..]), now)
  {
    assert forall k :: 0 <= k < |ps| - n ==> ByRow(ps)[n..][k] == ByRow(ps)[n + k];
  }

  lemma RememberingJudgesAlike(a: Track, b: Track, ps: seq<Payment>, n: nat, subject: string, now: int, r: Rule)
    requires Sane(r) && History(ps, subject, now) && Tracks(a, b, ps, n, r) && ps != [] && Remembers(ps, n, now, r)
    ensures JudgeAlike(a, b, now, r)
  {
    AllPast(ps, n, subject, now);
    assert ByRow(ps)[n..][|ps| - n - 1] == ByRow(ps)[|ps| - 1];
    if now - ps[|ps| - 1].occurred > r.dormancy {
      assert BothDormant(a, b, now, r);
      DormantAlwaysJudge(a, b, now, r);
    } else {
      RememberedBreak(a, b, ps, n, subject, now, r);
      assert a.seen + [] == a.seen && b.seen + [] == b.seen;
      AlikeAlwaysJudge(a, b, a.seen, b.seen, now, r);
    }
  }

  lemma RememberedBreak(a: Track, b: Track, ps: seq<Payment>, n: nat, subject: string, now: int, r: Rule)
    requires Sane(r) && History(ps, subject, now) && Tracks(a, b, ps, n, r) && BreakRemembered(ps, n, now, r)
    ensures SameBreak(a.breakAt, b.breakAt, a.seen, b.seen, now)
  {
    if !(LongAgo(a.breakAt, now) && LongAgo(b.breakAt, now)) {
      RememberedEchoes(ps, n, subject, now, r);
    }
  }

  /** Nothing kept: a reactivation long enough after the last payment is found by the running monitor only. */
  lemma LostHistoryShows(a: Track, b: Track, ps: seq<Payment>, n: nat, now: int, r: Rule)
    requires Sane(r) && Tracks(a, b, ps, n, r) && ps != [] && n == |ps|
    ensures !JudgeAlike(a, b, now, r)
  {
    var o := Observation("probe", 1, Max(now, ps[|ps| - 1].occurred + r.dormancy + 1));
    SpikeVerdict(a, o, r);
    SpikeVerdict(b, o, r);
    SpikeShows(a, b, now, o, r);
  }

  /** Two times of the last payment: one dormancy after its event the restarted monitor already sees a reactivation. */
  lemma TwoLastTimesShow(a: Track, b: Track, ps: seq<Payment>, n: nat, subject: string, now: int, r: Rule)
    requires Sane(r) && History(ps, subject, now) && Tracks(a, b, ps, n, r) && n < |ps|
    requires var last := ps[|ps| - 1]; now - last.occurred <= r.dormancy && last.charged != last.occurred
    ensures !JudgeAlike(a, b, now, r)
  {
    var last := ps[|ps| - 1];
    var o := Observation("probe", 1, last.occurred + r.dormancy);
    BreakInPast(ByEvent(ps), r);
    SpikeVerdict(a, o, r);
    SpikeVerdict(b, o, r);
    SpikeShows(a, b, now, o, r);
  }

  lemma BreakInPast(os: seq<Observation>, r: Rule)
    requires InOrder(os) && os != []
    ensures BreakTime(os, r).Some? ==> BreakTime(os, r).value <= os[|os| - 1].at
  {
  }

  /** A dormancy end that still matters and is not remembered shows at once. */
  lemma LostBreakShows(a: Track, b: Track, ps: seq<Payment>, n: nat, subject: string, now: int, r: Rule)
    requires Sane(r) && History(ps, subject, now) && Tracks(a, b, ps, n, r) && n < |ps|
    requires var last := ps[|ps| - 1]; now - last.occurred <= r.dormancy && last.charged == last.occurred
    requires !BreakRemembered(ps, n, now, r)
    ensures !JudgeAlike(a, b, now, r)
  {
    var o := Observation("probe", 1, now);
    NoBreakNow(a, b, ps, n, subject, now, o, r);
    SpikeVerdict(a, o, r);
    SpikeVerdict(b, o, r);
    if a.breakAt.Some? && a.breakAt == b.breakAt {
      BreaksApart(ps, n, subject, now, r);
    }
    SpikeShows(a, b, now, o, r);
  }

  lemma NoBreakNow(a: Track, b: Track, ps: seq<Payment>, n: nat, subject: string, now: int, o: Observation, r: Rule)
    requires Sane(r) && History(ps, subject, now) && Tracks(a, b, ps, n, r) && n < |ps| && o.at == now
    requires var last := ps[|ps| - 1]; now - last.occurred <= r.dormancy && last.charged == last.occurred
    ensures Note(a, o, r).breakAt == a.breakAt && (a.breakAt.Some? ==> a.breakAt.value <= now)
    ensures Note(b, o, r).breakAt == b.breakAt && (b.breakAt.Some? ==> b.breakAt.value <= now)
  {
    assert ByRow(ps)[n..][|ps| - n - 1] == ByRow(ps)[|ps| - 1];
  }

  /** Dormancies that ended at one time with different payments count different windows. */
  lemma BreaksApart(ps: seq<Payment>, n: nat, subject: string, now: int, r: Rule)
    requires Sane(r) && History(ps, subject, now) && n <= |ps|
    requires var i, j := LastBreak(ByEvent(ps), r), KeptBreak(ps, n, r);
             i.Some? && j.Some? && i != j && ps[i.value].occurred == ps[j.value].charged
    ensures var at := ps[LastBreak(ByEvent(ps), r).value].occurred;
            |Within(ByEvent(ps), at, now)| != |Within(ByRow(ps)[n..], at, now)|
  {
    WindowsApart(ByEvent(ps), ByRow(ps), n, LastBreak(ByEvent(ps), r).value, KeptBreak(ps, n, r).value, now);
  }

  lemma WindowsApart(es: seq<Observation>, rs: seq<Observation>, n: nat, i: nat, j: nat, now: int)
    requires InOrder(es) && InOrder(rs) && |es| == |rs| && 0 < i < |es| && n < j < |rs| && i != j
    requires es[i - 1].at < es[i].at == rs[j].at && rs[j - 1].at < rs[j].at
    requires forall k :: 0 <= k < |es| ==> es[k].at <= now
    requires forall k :: 0 <= k < |rs| ==> rs[k].at <= now
    ensures |Within(es, es[i].at, now)| != |Within(rs[n..], es[i].at, now)|
  {
    BreakLength(es, 0, i, now);
    assert es[0..] == es;
    BreakLength(rs, n, j, now);
  }

  lemma BreakLength(os: seq<Observation>, n: nat, i: nat, now: int)
    requires InOrder(os) && n < i < |os| && os[i - 1].at < os[i].at && forall k :: 0 <= k < |os| ==> os[k].at <= now
    ensures |Within(os[n..], os[i].at, now)| == |os| - i
  {
    SuffixOfRest(os, n, i, now, now);
  }

  /**
   The dormancy rule judges all later charges of a subject alike after a restart exactly when the monitor remembers. It
   misjudges a subject whose payments were all stored before the cut-off, one whose last payment has two times unless it is
   dormant anyway, and one whose dormancy ended in the last 24 hours with a payment that has two times or whose predecessor was
   not kept.
   */
  lemma DormancySurvivesExactlyWhenRemembered(subject: string, ps: seq<Payment>, since: int, n: nat, now: int, r: Rule)
    requires Sane(r) && History(ps, subject, now) && CutsAt(ps, since, n)
    ensures JudgeAlike(NoteAll(UNKNOWN, ByEvent(ps), r), Restarted(subject, ps, since, r), now, r) <==> Remembers(ps, n, now, r)
  {
    var a, b := NoteAll(UNKNOWN, ByEvent(ps), r), Restarted(subject, ps, since, r);
    TheTracks(subject, ps, since, n, now, r);
    if ps == [] {
      assert a == b;
    } else if n == |ps| {
      LostHistoryShows(a, b, ps, n, now, r);
    } else if Remembers(ps, n, now, r) {
      RememberingJudgesAlike(a, b, ps, n, subject, now, r);
    } else if ps[|ps| - 1].charged != ps[|ps| - 1].occurred {
      TwoLastTimesShow(a, b, ps, n, subject, now, r);
    } else {
      LostBreakShows(a, b, ps, n, subject, now, r);
    }
  }
}

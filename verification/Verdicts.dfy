/**
 What every verdict of the running monitor is about (bdpay/compliance/monitor.py): the payments of the subject that the run has
 evaluated up to and including this one, and that lie within the rule's window before it.
 */
module Verdicts {
  import opened Common
  import opened Rules
  import opened Monitor

  /** The subject's payments whose events lie between two instants, both included. */
  function Chosen(ps: seq<Payment>, subject: string, lo: int, hi: int): seq<Payment> {
    if ps == [] then []
    else (if ps[0].subject == subject && lo <= ps[0].occurred <= hi then [ps[0]] else []) + Chosen(ps[1..], subject, lo, hi)
  }

  function SumOf(ps: seq<Payment>): int {
    if ps == [] then 0 else ps[0].amount + SumOf(ps[1..])
  }

  function CountBelow(ps: seq<Payment>, bound: int): nat {
    if ps == [] then 0 else (if ps[0].amount < bound then 1 else 0) + CountBelow(ps[1..], bound)
  }

  predicate IsLargest(ps: seq<Payment>, max: int) {
    (exists i :: 0 <= i < |ps| && ps[i].amount == max) && forall i :: 0 <= i < |ps| ==> ps[i].amount <= max
  }

  function NamesOf(ps: seq<Payment>): seq<string> {
    seq(|ps|, i requires 0 <= i < |ps| => ps[i].intent)
  }

  /** The window of a rule of that many hours, as it stands when payment `p` is evaluated. */
  function WindowOf(ps: seq<Payment>, p: Payment, hours: int): seq<Payment> {
    Chosen(ps, p.subject, p.occurred - hours * 3_600_000_000, p.occurred)
  }

  // ------------------------------------------------------------------ the same in the monitor's terms

  function Seen(ps: seq<Payment>): seq<Observation> {
    seq(|ps|, i requires 0 <= i < |ps| => ps[i].Event().seen)
  }

  lemma SeenHead(ps: seq<Payment>)
    requires ps != []
    ensures Seen(ps) == [ps[0].Event().seen] + Seen(ps[1..]) && Seen(ps)[1..] == Seen(ps[1..])
  {
  }

  lemma EventsHead(ps: seq<Payment>)
    requires ps != []
    ensures Events(ps) == [ps[0].Event()] + Events(ps[1..]) && Events(ps)[1..] == Events(ps[1..])
  {
  }

  lemma WithinHead(o: Observation, rest: seq<Observation>, lo: int, hi: int)
    ensures Within([o] + rest, lo, hi) == (if lo <= o.at <= hi then [o] else []) + Within(rest, lo, hi)
  {
    assert ([o] + rest)[1..] == rest;
  }

  lemma ChargesHead(c: Charge, cs: seq<Charge>, subject: string)
    ensures ChargesOf([c] + cs, subject) == (if c.subject == subject then [c.seen] else []) + ChargesOf(cs, subject)
  {
    assert ([c] + cs)[1..] == cs;
  }

  lemma {:induction false} ChosenIsTheWindow(ps: seq<Payment>, subject: string, lo: int, hi: int)
    ensures Within(ChargesOf(Events(ps), subject), lo, hi) == Seen(Chosen(ps, subject, lo, hi))
    decreases |ps|
  {
    if ps != [] {
      var c, rest := ps[0].Event(), ChargesOf(Events(ps[1..]), subject);
      ChosenIsTheWindow(ps[1..], subject, lo, hi);
      EventsHead(ps);
      ChargesHead(c, Events(ps[1..]), subject);
      if c.subject == subject {
        WithinHead(c.seen, rest, lo, hi);
      } else {
        assert [] + rest == rest;
      }
    }
  }

  lemma {:induction false} SumIsTotal(ps: seq<Payment>)
    ensures Total(Seen(ps)) == SumOf(ps)
    decreases |ps|
  {
    if ps != [] {
      SeenHead(ps);
      SumIsTotal(ps[1..]);
    }
  }

  lemma {:induction false} CountIsBelow(ps: seq<Payment>, bound: int)
    ensures |Below(Seen(ps), bound)| == CountBelow(ps, bound)
    decreases |ps|
  {
    if ps != [] {
      SeenHead(ps);
      CountIsBelow(ps[1..], bound);
    }
  }

  lemma {:induction false} NamesAreIntents(ps: seq<Payment>)
    ensures Intents(Seen(ps)) == NamesOf(ps)
    decreases |ps|
  {
    if ps != [] {
      SeenHead(ps);
      NamesAreIntents(ps[1..]);
      assert NamesOf(ps) == [ps[0].intent] + NamesOf(ps[1..]);
    }
  }

  lemma {:induction false} LargestIs(s: seq<Observation>)
    requires s != []
    ensures (exists i :: 0 <= i < |s| && s[i].amount == Largest(s)) && forall i :: 0 <= i < |s| ==> s[i].amount <= Largest(s)
    decreases |s|
  {
    assert |s| == 1 ==> s[0].amount == Largest(s);
    if |s| > 1 {
      LargestIs(s[1..]);
      var i :| 0 <= i < |s| - 1 && s[1..][i].amount == Largest(s[1..]);
      assert s[i + 1].amount == Largest(s[1..]);
      assert forall k :: 1 <= k < |s| ==> s[k] == s[1..][k - 1];
    }
  }

  lemma LargestOfSeen(ps: seq<Payment>)
    requires ps != []
    ensures IsLargest(ps, Largest(Seen(ps)))
  {
    var s := Seen(ps);
    LargestIs(s);
    var i :| 0 <= i < |s| && s[i].amount == Largest(s);
    assert ps[i].amount == Largest(s);
    assert forall k :: 0 <= k < |ps| ==> ps[k].amount == s[k].amount;
  }

  // ------------------------------------------------------------------ what is evaluated, and against what

  /** The history a delivery is judged against ends with the delivery itself. */
  lemma JudgedAgainst(es: seq<Envelope>, k: nat, l: Limits)
    requires Positive(l) && k < |es| && AnswerAt(FRESH, es, k, l).Evaluated?
    ensures es[k].payload.Some? && es[k].pack.Some?
    ensures var c := es[k].payload.value.Event();
            var history := ChargesOf(Events(Evaluations(es[..k + 1])), c.subject);
            && c.seen in history
            && AnswerAt(FRESH, es, k, l) ==
               Evaluated(if es[k].pack.value.structuring then Some(Structuring(history, c.seen, l)) else None,
                         if es[k].pack.value.velocity then Some(Velocity(history, c.seen, l)) else None)
  {
    var c := es[k].payload.value.Event();
    TakeNext(es, k);
    PushLast(es[..k], es[k]);
    HistoryIsEvaluations(es[..k + 1], c.subject);
    var before := Of(After(FRESH, es[..k]), c.subject);
    assert (before + [c.seen])[|before|] == c.seen;
  }

  /** An alert names every payment of the window and their sum, and is dated by the earliest. */
  ghost predicate Reports(v: Verdict, w: seq<Payment>) {
    && v.contributing == NamesOf(w) && v.amount == Some(SumOf(w))
    && (exists i :: 0 <= i < |w| && w[i].occurred == v.windowStart) && forall i :: 0 <= i < |w| ==> v.windowStart <= w[i].occurred
  }

  lemma AboutIsReports(v: Verdict, w: seq<Payment>)
    requires AboutWindow(v, Seen(w))
    ensures Reports(v, w)
  {
    NamesAreIntents(w);
    SumIsTotal(w);
    var s := Seen(w);
    var i :| 0 <= i < |s| && s[i].at == v.windowStart;
    assert w[i].occurred == v.windowStart;
    assert forall k :: 0 <= k < |w| ==> w[k].occurred == s[k].at;
  }

  /** The structuring verdict on payment `p`, given the payments evaluated so far and the largest of its window. */
  ghost predicate StructuringJudges(ps: seq<Payment>, p: Payment, max: int, v: Verdict, l: Limits, t: Thresholds) {
    var w := WindowOf(ps, p, l.windowHours);
    && IsLargest(w, max)
    && (v.result == ALERT_RAISED <==>
          EvaluateRule(StructuringRule(l.minCount, l.aggregate), StructuringFacts(CountBelow(w, l.aggregate), SumOf(w), max), t)
          == Holds(true))
    && (v.result == NEAR_MISS <==> max < l.aggregate && |w| >= l.minCount && SumOf(w) < l.aggregate)
    && (v.result == ALERT_RAISED ==> Reports(v, w))
  }

  ghost predicate VelocityJudges(ps: seq<Payment>, p: Payment, v: Verdict, l: Limits) {
    var w := WindowOf(ps, p, 24);
    && (v.result == ALERT_RAISED <==>
          EvaluateRule(VelocityRule(), VelocityFacts(|w|, SumOf(w)), VelocityThresholds(l.velocityCount, l.velocityAmount))
          == Holds(true))
    && (v.result != ALERT_RAISED ==> v.result == PASSED)
    && (v.result == ALERT_RAISED ==> Reports(v, w))
  }

  lemma StructuringIsAboutItsWindow(ps: seq<Payment>, p: Payment, l: Limits, t: Thresholds)
    requires Positive(l) && p.Event().seen in ChargesOf(Events(ps), p.subject)
    ensures exists max :: StructuringJudges(ps, p, max, Structuring(ChargesOf(Events(ps), p.subject), p.Event().seen, l), l, t)
  {
    var h, o, w := ChargesOf(Events(ps), p.subject), p.Event().seen, WindowOf(ps, p, l.windowHours);
    StructuringIsTheSignedRule(h, o, l, t);
    ChosenIsTheWindow(ps, p.subject, o.at - l.windowHours * HOUR, o.at);
    assert Window(h, o.at, l.windowHours) == Seen(w);
    SumIsTotal(w);
    CountIsBelow(w, l.aggregate);
    LargestOfSeen(w);
    NearMisses(h, o, l);
    if Structuring(h, o, l).result == ALERT_RAISED {
      StructuringAlertIsAboutItsWindow(h, o, l);
      AboutIsReports(Structuring(h, o, l), w);
    }
    assert StructuringJudges(ps, p, Largest(Seen(w)), Structuring(h, o, l), l, t);
  }

  lemma NearMisses(h: seq<Observation>, o: Observation, l: Limits)
    requires Positive(l) && Window(h, o.at, l.windowHours) != []
    ensures var w := Window(h, o.at, l.windowHours);
            Structuring(h, o, l).result == NEAR_MISS <==> Largest(w) < l.aggregate && |w| >= l.minCount && Total(w) < l.aggregate
  {
    var w := Window(h, o.at, l.windowHours);
    LargestBounds(w, l.aggregate);
    if Largest(w) < l.aggregate {
      BelowIsAll(w, l.aggregate);
    }
  }

  lemma VelocityIsAboutItsWindow(ps: seq<Payment>, p: Payment, l: Limits)
    requires Positive(l) && p.Event().seen in ChargesOf(Events(ps), p.subject)
    ensures VelocityJudges(ps, p, Velocity(ChargesOf(Events(ps), p.subject), p.Event().seen, l), l)
  {
    var h, o, w := ChargesOf(Events(ps), p.subject), p.Event().seen, WindowOf(ps, p, 24);
    DayIsTheWindow(ps, p);
    VelocityFollowsTheRule(h, o, w, l);
    if Velocity(h, o, l).result == ALERT_RAISED {
      VelocityAlertIsAboutItsWindow(h, o, l);
      AboutIsReports(Velocity(h, o, l), w);
    }
  }

  lemma DayIsTheWindow(ps: seq<Payment>, p: Payment)
    ensures Window(ChargesOf(Events(ps), p.subject), p.Event().seen.at, 24) == Seen(WindowOf(ps, p, 24))
  {
    ChosenIsTheWindow(ps, p.subject, p.Event().seen.at - 24 * HOUR, p.Event().seen.at);
  }

  lemma VelocityFollowsTheRule(h: seq<Observation>, o: Observation, w: seq<Payment>, l: Limits)
    requires Positive(l) && o in h && Window(h, o.at, 24) == Seen(w)
    ensures var v := Velocity(h, o, l);
            && (v.result == ALERT_RAISED <==>
                  EvaluateRule(VelocityRule(), VelocityFacts(|w|, SumOf(w)), VelocityThresholds(l.velocityCount, l.velocityAmount))
                  == Holds(true))
            && (v.result != ALERT_RAISED ==> v.result == PASSED)
  {
    VelocityIsTheSignedRule(h, o, l);
    SumIsTotal(w);
  }

  /**
   Over every run from start-up: a delivery that is evaluated draws a verdict from each window rule its pack holds and from no
   other, and the verdict is what the signed rule says of the subject's payments evaluated so far, this one included, that lie in
   the window ending at this one.
   */
  lemma EveryVerdictIsAboutItsWindow(es: seq<Envelope>, k: nat, l: Limits, t: Thresholds)
    requires Positive(l) && k < |es| && AnswerAt(FRESH, es, k, l).Evaluated?
    ensures es[k].payload.Some? && es[k].pack.Some?
    ensures var reply, p, ps := AnswerAt(FRESH, es, k, l), es[k].payload.value, Evaluations(es[..k + 1]);
            && (reply.structuring.Some? <==> es[k].pack.value.structuring)
            && (reply.velocity.Some? <==> es[k].pack.value.velocity)
            && (reply.structuring.Some? ==> exists max :: StructuringJudges(ps, p, max, reply.structuring.value, l, t))
            && (reply.velocity.Some? ==> VelocityJudges(ps, p, reply.velocity.value, l))
  {
    JudgedAgainst(es, k, l);
    var p, ps := es[k].payload.value, Evaluations(es[..k + 1]);
    StructuringIsAboutItsWindow(ps, p, l, t);
    VelocityIsAboutItsWindow(ps, p, l);
  }

  /** The payments evaluated so far are those of the first deliveries that were well-formed charges met by an active pack, in
      order. */
  lemma {:induction false} EvaluationsAreFirstDeliveries(es: seq<Envelope>, l: Limits)
    requires Positive(l)
    ensures Evaluations(es) == Taken(es, |es|)
    decreases |es|
  {
    if es != [] {
      var n := |es| - 1;
      EvaluationsAreFirstDeliveries(es[..n], l);
      TakenIsPrefix(es, n);
      EvaluatedExactlyAtFirstDelivery(es, n, l);
    }
  }

  function Taken(es: seq<Envelope>, n: nat): seq<Payment>
    requires n <= |es|
  {
    if n == 0 then []
    else
      var e := es[n - 1];
      Taken(es, n - 1) +
      if e.eventId != "" && FirstDelivery(es, n - 1) && e.charged && e.payload.Some? && e.pack.Some? then [e.payload.value] else []
  }

  lemma {:induction false} TakenIsPrefix(es: seq<Envelope>, n: nat)
    requires n < |es|
    ensures Taken(es, n) == Taken(es[..n], n)
  {
    TakenUpTo(es, n, n);
  }

  lemma {:induction false} TakenUpTo(es: seq<Envelope>, n: nat, m: nat)
    requires m <= n < |es|
    ensures Taken(es, m) == Taken(es[..n], m)
    decreases m
  {
    if m > 0 {
      TakenUpTo(es, n, m - 1);
      assert es[..n][m - 1] == es[m - 1];
      assert FirstDelivery(es[..n], m - 1) <==> FirstDelivery(es, m - 1);
    }
  }
}

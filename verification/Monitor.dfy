/**
 The streaming transaction monitor (bdpay/compliance/monitor.py): intake with event de-duplication, the structuring and
 24-hour velocity evaluators, and the rehydration of the window history from the payment store at start-up.

 Instants are integers in microseconds, so `HOUR` is the length of one hour.
 */
module Monitor {
  import opened Common
  import opened Rules

  const HOUR: int := 3_600_000_000

  datatype Observation = Observation(intent: string, amount: int, at: int)

  /** The monitor's thresholds; the configuration object admits positive integers only. */
  datatype Limits = Limits(windowHours: int, minCount: int, aggregate: int, velocityCount: int, velocityAmount: int)

  predicate Positive(l: Limits) {
    l.windowHours > 0 && l.minCount > 0 && l.aggregate > 0 && l.velocityCount > 0 && l.velocityAmount > 0
  }

  datatype Result = PASSED | NEAR_MISS | ALERT_RAISED

  datatype Verdict = Verdict(result: Result, windowStart: int, contributing: seq<string>, amount: Option<int>)

  // ------------------------------------------------------------------ windows

  function Within(s: seq<Observation>, lo: int, hi: int): seq<Observation> {
    if s == [] then []
    else (if lo <= s[0].at <= hi then [s[0]] else []) + Within(s[1..], lo, hi)
  }

  function Window(history: seq<Observation>, endingAt: int, hours: int): seq<Observation> {
    Within(history, endingAt - hours * HOUR, endingAt)
  }

  function Below(s: seq<Observation>, bound: int): seq<Observation> {
    if s == [] then []
    else (if s[0].amount < bound then [s[0]] else []) + Below(s[1..], bound)
  }

  function Total(s: seq<Observation>): int {
    if s == [] then 0 else s[0].amount + Total(s[1..])
  }

  function Largest(s: seq<Observation>): int
    requires s != []
  {
    if |s| == 1 then s[0].amount else Max(s[0].amount, Largest(s[1..]))
  }

  function Earliest(s: seq<Observation>): int
    requires s != []
  {
    if |s| == 1 then s[0].at else Min(s[0].at, Earliest(s[1..]))
  }

  function Intents(s: seq<Observation>): seq<string> {
    if s == [] then [] else [s[0].intent] + Intents(s[1..])
  }

  // ------------------------------------------------------------------ evaluators

  function Structuring(history: seq<Observation>, o: Observation, l: Limits): Verdict
    requires Positive(l)
  {
    var window := Window(history, o.at, l.windowHours);
    var below := Below(window, l.aggregate);
    if exists i :: 0 <= i < |window| && window[i].amount >= l.aggregate then Verdict(PASSED, o.at, [], None)
    else if |below| >= l.minCount then
      if Total(below) >= l.aggregate then Verdict(ALERT_RAISED, Earliest(below), Intents(below), Some(Total(below)))
      else Verdict(NEAR_MISS, o.at, [], Some(Total(below)))
    else Verdict(PASSED, o.at, [], None)
  }

  function Velocity(history: seq<Observation>, o: Observation, l: Limits): Verdict
    requires Positive(l)
  {
    var window := Window(history, o.at, 24);
    if |window| >= l.velocityCount || Total(window) >= l.velocityAmount then
      Verdict(ALERT_RAISED, Earliest(window), Intents(window), Some(Total(window)))
    else Verdict(PASSED, o.at, [], None)
  }

  // ------------------------------------------------------------------ the signed rules say the same

  lemma {:induction false} BelowIsAll(s: seq<Observation>, bound: int)
    requires forall i :: 0 <= i < |s| ==> s[i].amount < bound
    ensures Below(s, bound) == s
    decreases |s|
  {
    if s != [] {
      BelowIsAll(s[1..], bound);
    }
  }

  lemma {:induction false} LargestBounds(s: seq<Observation>, bound: int)
    requires s != []
    ensures Largest(s) < bound <==> forall i :: 0 <= i < |s| ==> s[i].amount < bound
    decreases |s|
  {
    if |s| > 1 {
      LargestBounds(s[1..], bound);
      assert forall i :: 1 <= i < |s| ==> s[i] == s[1..][i - 1];
    }
  }

  lemma {:induction false} WithinKeeps(s: seq<Observation>, lo: int, hi: int, o: Observation)
    requires o in s && lo <= o.at <= hi
    ensures o in Within(s, lo, hi)
    decreases |s|
  {
    if s[0] != o {
      WithinKeeps(s[1..], lo, hi, o);
    }
  }

  /**
   The hand-written evaluator alerts on exactly the windows where the signed rule accepts the window's facts: how many are
   below the threshold, the sum and the largest over the whole window. Every intake appends the charge it evaluates, so the
   window is never empty.
   */
  lemma StructuringIsTheSignedRule(history: seq<Observation>, o: Observation, l: Limits, t: Thresholds)
    requires Positive(l) && o in history
    ensures Window(history, o.at, l.windowHours) != []
    ensures var w := Window(history, o.at, l.windowHours);
            Structuring(history, o, l).result.ALERT_RAISED? <==>
            EvaluateRule(StructuringRule(l.minCount, l.aggregate),
                         StructuringFacts(|Below(w, l.aggregate)|, Total(w), Largest(w)), t) == Holds(true)
  {
    WithinKeeps(history, o.at - l.windowHours * HOUR, o.at, o);
    var w := Window(history, o.at, l.windowHours);
    StructuringRuleMeans(l.minCount, l.aggregate, |Below(w, l.aggregate)|, Total(w), Largest(w), t);
    LargestBounds(w, l.aggregate);
    if Largest(w) < l.aggregate {
      BelowIsAll(w, l.aggregate);
    }
  }

  lemma VelocityIsTheSignedRule(history: seq<Observation>, o: Observation, l: Limits)
    requires Positive(l)
    ensures var w := Window(history, o.at, 24);
            Velocity(history, o, l).result.ALERT_RAISED? <==>
            EvaluateRule(VelocityRule(), VelocityFacts(|w|, Total(w)),
                         VelocityThresholds(l.velocityCount, l.velocityAmount)) == Holds(true)
  {
    var w := Window(history, o.at, 24);
    VelocityRuleMeans(|w|, Total(w), l.velocityCount, l.velocityAmount);
  }

  /** An alert is about its window: what it names, sums and dates itself by. */
  ghost predicate AboutWindow(v: Verdict, w: seq<Observation>) {
    v.contributing == Intents(w) && v.amount == Some(Total(w)) &&
    (exists i :: 0 <= i < |w| && w[i].at == v.windowStart) && forall i :: 0 <= i < |w| ==> v.windowStart <= w[i].at
  }

  lemma WindowHasAStart(history: seq<Observation>, o: Observation, hours: int)
    requires o in history && hours > 0
    ensures var w := Window(history, o.at, hours);
            w != [] && o.at - hours * HOUR <= Earliest(w) <= o.at &&
            (exists i :: 0 <= i < |w| && w[i].at == Earliest(w)) && forall i :: 0 <= i < |w| ==> Earliest(w) <= w[i].at
  {
    var lo := o.at - hours * HOUR;
    assert lo <= o.at;
    WithinKeeps(history, lo, o.at, o);
    WithinBounds(history, lo, o.at);
    EarliestIsLeast(Within(history, lo, o.at));
  }

  /**
   An alert names every payment of its window and their sum, and is dated by the earliest of them, which lies within the
   window's length before the charge that triggered it.
   */
  lemma StructuringAlertIsAboutItsWindow(history: seq<Observation>, o: Observation, l: Limits)
    requires Positive(l) && o in history && Structuring(history, o, l).result == ALERT_RAISED
    ensures var v := Structuring(history, o, l);
            AboutWindow(v, Window(history, o.at, l.windowHours)) && o.at - l.windowHours * HOUR <= v.windowStart <= o.at
  {
    WindowHasAStart(history, o, l.windowHours);
    BelowIsAll(Window(history, o.at, l.windowHours), l.aggregate);
  }

  lemma VelocityAlertIsAboutItsWindow(history: seq<Observation>, o: Observation, l: Limits)
    requires Positive(l) && o in history && Velocity(history, o, l).result == ALERT_RAISED
    ensures var v := Velocity(history, o, l);
            AboutWindow(v, Window(history, o.at, 24)) && o.at - 24 * HOUR <= v.windowStart <= o.at
  {
    WindowHasAStart(history, o, 24);
  }

  lemma {:induction false} WithinBounds(s: seq<Observation>, lo: int, hi: int)
    ensures forall i :: 0 <= i < |Within(s, lo, hi)| ==> lo <= Within(s, lo, hi)[i].at <= hi
    decreases |s|
  {
    if s != [] {
      WithinBounds(s[1..], lo, hi);
    }
  }

  // ------------------------------------------------------------------ verdicts ignore the order of the history

  /** Equal but for the order in which the contributing payments are listed. */
  ghost predicate SameVerdict(a: Verdict, b: Verdict) {
    a.result == b.result && a.windowStart == b.windowStart && a.amount == b.amount &&
    multiset(a.contributing) == multiset(b.contributing)
  }

  ghost function Count(s: seq<Observation>, x: Observation): nat {
    multiset(s)[x]
  }

  ghost predicate Permuted(a: seq<Observation>, b: seq<Observation>) {
    forall x :: Count(a, x) == Count(b, x)
  }

  lemma CountSplit(a: seq<Observation>, b: seq<Observation>, x: Observation)
    ensures Count(a + b, x) == Count(a, x) + Count(b, x)
  {
    assert multiset(a + b) == multiset(a) + multiset(b);
  }

  lemma {:induction false} WithinCounts(s: seq<Observation>, lo: int, hi: int, x: Observation)
    ensures Count(Within(s, lo, hi), x) == if lo <= x.at <= hi then Count(s, x) else 0
    decreases |s|
  {
    if s != [] {
      WithinCounts(s[1..], lo, hi, x);
      CountSplit([s[0]], s[1..], x);
      assert s == [s[0]] + s[1..];
      CountSplit(if lo <= s[0].at <= hi then [s[0]] else [], Within(s[1..], lo, hi), x);
    }
  }

  lemma {:induction false} BelowCounts(s: seq<Observation>, bound: int, x: Observation)
    ensures Count(Below(s, bound), x) == if x.amount < bound then Count(s, x) else 0
    decreases |s|
  {
    if s != [] {
      BelowCounts(s[1..], bound, x);
      CountSplit([s[0]], s[1..], x);
      assert s == [s[0]] + s[1..];
      CountSplit(if s[0].amount < bound then [s[0]] else [], Below(s[1..], bound), x);
    }
  }

  function Without(s: seq<Observation>, j: nat): seq<Observation>
    requires j < |s|
  {
    s[..j] + s[j + 1..]
  }

  lemma WithoutCounts(s: seq<Observation>, j: nat, x: Observation)
    requires j < |s|
    ensures Count(s, x) == Count(Without(s, j), x) + if s[j] == x then 1 else 0
  {
    assert s == s[..j] + [s[j]] + s[j + 1..];
    CountSplit(s[..j] + [s[j]], s[j + 1..], x);
    CountSplit(s[..j], [s[j]], x);
    CountSplit(s[..j], s[j + 1..], x);
  }

  lemma WithoutTail(s: seq<Observation>, j: nat)
    requires 0 < j < |s|
    ensures Without(s, j) != [] && Without(s, j)[0] == s[0] && Without(s, j)[1..] == Without(s[1..], j - 1)
  {
  }

  lemma {:induction false} Taken(s: seq<Observation>, j: nat)
    requires j < |s|
    ensures Total(s) == s[j].amount + Total(Without(s, j))
    ensures multiset(Intents(s)) == multiset{s[j].intent} + multiset(Intents(Without(s, j)))
    decreases j
  {
    if j == 0 {
      assert Without(s, 0) == s[1..];
    } else {
      Taken(s[1..], j - 1);
      WithoutTail(s, j);
      assert s[1..][j - 1] == s[j];
    }
  }

  /** Totals, lengths and contributing payments do not depend on the order. */
  lemma {:induction false} PermutedAgree(a: seq<Observation>, b: seq<Observation>)
    requires Permuted(a, b)
    ensures |a| == |b| && Total(a) == Total(b) && multiset(Intents(a)) == multiset(Intents(b))
    decreases |a|
  {
    assert multiset(a) == multiset(b) by {
      assert forall x :: multiset(a)[x] == Count(a, x) && multiset(b)[x] == Count(b, x);
    }
    assert |multiset(a)| == |a| && |multiset(b)| == |b|;
    if a != [] {
      assert a[0] in multiset(b);
      var j :| 0 <= j < |b| && b[j] == a[0];
      forall x ensures Count(a[1..], x) == Count(Without(b, j), x) {
        assert Count(a, x) == Count(b, x);
        WithoutCounts(a, 0, x);
        WithoutCounts(b, j, x);
        assert Without(a, 0) == a[1..];
      }
      PermutedAgree(a[1..], Without(b, j));
      Taken(b, j);
    }
  }

  lemma {:induction false} EarliestIsLeast(s: seq<Observation>)
    requires s != []
    ensures exists i :: 0 <= i < |s| && s[i].at == Earliest(s)
    ensures forall i :: 0 <= i < |s| ==> Earliest(s) <= s[i].at
    decreases |s|
  {
    if |s| == 1 || s[0].at <= Earliest(s[1..]) {
      assert s[0].at == Earliest(s);
    }
    if |s| > 1 {
      EarliestIsLeast(s[1..]);
      assert forall i :: 1 <= i < |s| ==> s[i] == s[1..][i - 1];
      if s[0].at > Earliest(s[1..]) {
        var i :| 0 <= i < |s[1..]| && s[1..][i].at == Earliest(s[1..]);
        assert s[i + 1].at == Earliest(s);
      }
    }
  }

  lemma PermutedEarliest(a: seq<Observation>, b: seq<Observation>)
    requires Permuted(a, b) && a != [] && b != []
    ensures Earliest(a) == Earliest(b)
  {
    EarliestIsLeast(a);
    EarliestIsLeast(b);
    var i :| 0 <= i < |a| && a[i].at == Earliest(a);
    var j :| 0 <= j < |b| && b[j].at == Earliest(b);
    PermutedMembers(a, b, a[i]);
    PermutedMembers(b, a, b[j]);
  }

  lemma PermutedMembers(a: seq<Observation>, b: seq<Observation>, x: Observation)
    requires Permuted(a, b) && x in a
    ensures x in b
  {
    assert x in multiset(a);
    assert Count(a, x) == Count(b, x);
    assert x in multiset(b);
  }

  /** Two histories that agree, up to order, on everything at or after `since`. */
  ghost predicate AgreeFrom(a: seq<Observation>, b: seq<Observation>, since: int) {
    forall x: Observation :: x.at >= since ==> Count(a, x) == Count(b, x)
  }

  lemma WithinAgree(a: seq<Observation>, b: seq<Observation>, since: int, lo: int, hi: int, x: Observation)
    requires AgreeFrom(a, b, since) && lo >= since
    ensures Count(Within(a, lo, hi), x) == Count(Within(b, lo, hi), x)
  {
    WithinCounts(a, lo, hi, x);
    WithinCounts(b, lo, hi, x);
    assert x.at >= since ==> Count(a, x) == Count(b, x);
  }

  lemma WindowsAgree(a: seq<Observation>, b: seq<Observation>, since: int, endingAt: int, hours: int)
    requires AgreeFrom(a, b, since) && endingAt - hours * HOUR >= since
    ensures Permuted(Window(a, endingAt, hours), Window(b, endingAt, hours))
  {
    var lo := endingAt - hours * HOUR;
    forall x: Observation ensures Count(Within(a, lo, endingAt), x) == Count(Within(b, lo, endingAt), x) {
      WithinAgree(a, b, since, lo, endingAt, x);
    }
  }

  lemma VelocityAgrees(a: seq<Observation>, b: seq<Observation>, since: int, o: Observation, l: Limits)
    requires Positive(l) && AgreeFrom(a, b, since) && o.at - 24 * HOUR >= since
    ensures SameVerdict(Velocity(a, o, l), Velocity(b, o, l))
  {
    WindowsAgree(a, b, since, o.at, 24);
    var v, w := Window(a, o.at, 24), Window(b, o.at, 24);
    PermutedAgree(v, w);
    if v != [] {
      PermutedEarliest(v, w);
    }
  }

  lemma BelowAgree(v: seq<Observation>, w: seq<Observation>, bound: int)
    requires Permuted(v, w)
    ensures Permuted(Below(v, bound), Below(w, bound))
  {
    forall x ensures Count(Below(v, bound), x) == Count(Below(w, bound), x) {
      BelowCounts(v, bound, x);
      BelowCounts(w, bound, x);
      assert Count(v, x) == Count(w, x);
    }
  }

  lemma AnyAtLeast(v: seq<Observation>, w: seq<Observation>, bound: int)
    requires Permuted(v, w)
    requires exists i :: 0 <= i < |v| && v[i].amount >= bound
    ensures exists i :: 0 <= i < |w| && w[i].amount >= bound
  {
    var i :| 0 <= i < |v| && v[i].amount >= bound;
    PermutedMembers(v, w, v[i]);
  }

  lemma StructuringAgrees(a: seq<Observation>, b: seq<Observation>, since: int, o: Observation, l: Limits)
    requires Positive(l) && AgreeFrom(a, b, since) && o.at - l.windowHours * HOUR >= since
    ensures SameVerdict(Structuring(a, o, l), Structuring(b, o, l))
  {
    WindowsAgree(a, b, since, o.at, l.windowHours);
    var v, w := Window(a, o.at, l.windowHours), Window(b, o.at, l.windowHours);
    BelowAgree(v, w, l.aggregate);
    PermutedAgree(Below(v, l.aggregate), Below(w, l.aggregate));
    if exists i :: 0 <= i < |v| && v[i].amount >= l.aggregate {
      AnyAtLeast(v, w, l.aggregate);
    } else if exists i :: 0 <= i < |w| && w[i].amount >= l.aggregate {
      AnyAtLeast(w, v, l.aggregate);
    } else if Below(v, l.aggregate) != [] {
      PermutedEarliest(Below(v, l.aggregate), Below(w, l.aggregate));
    }
  }

  // ------------------------------------------------------------------ intake

  /** A charge of a subject, dated by its event or by the payment store. */
  datatype Charge = Charge(subject: string, seen: Observation)

  /** A charged payment has two times: `charged` is stored with it, `occurred` is a later clock reading that dates its event. */
  datatype Payment = Payment(subject: string, intent: string, amount: int, charged: int, occurred: int) {
    function Event(): Charge {
      Charge(subject, Observation(intent, amount, occurred))
    }

    function Stored(): Charge {
      Charge(subject, Observation(intent, amount, charged))
    }
  }

  /** Which of the two window rules the active signed pack holds; a rule it does not hold is not evaluated. */
  datatype Pack = Pack(structuring: bool, velocity: bool)

  const FULL_PACK := Pack(true, true)

  /** `payload` is None when the payload is malformed, `pack` when no pack is active. `eventId` is empty when it is missing. */
  datatype Envelope = Envelope(eventId: string, charged: bool, payload: Option<Payment>, pack: Option<Pack>)

  datatype Reply =
    | Ignored
    | Raised
    | Evaluated(structuring: Option<Verdict>, velocity: Option<Verdict>)

  datatype Memory = Memory(seen: set<string>, history: map<string, seq<Observation>>)

  const FRESH := Memory({}, map[])

  function Of(m: Memory, subject: string): seq<Observation> {
    if subject in m.history then m.history[subject] else []
  }

  predicate Evaluates(m: Memory, e: Envelope) {
    e.eventId != "" && e.eventId !in m.seen && e.charged && e.pack.Some? && e.payload.Some?
  }

  function Intake(m: Memory, e: Envelope): Memory {
    if e.eventId == "" || e.eventId in m.seen then m
    else if !Evaluates(m, e) then m.(seen := m.seen + {e.eventId})
    else
      var c := e.payload.value.Event();
      Memory(m.seen + {e.eventId}, m.history[c.subject := Of(m, c.subject) + [c.seen]])
  }

  function Answer(m: Memory, e: Envelope, l: Limits): Reply
    requires Positive(l)
  {
    if e.eventId == "" then Raised
    else if e.eventId in m.seen || !e.charged then Ignored
    else if !Evaluates(m, e) then Raised
    else
      var c := e.payload.value.Event();
      var history := Of(m, c.subject) + [c.seen];
      Evaluated(if e.pack.value.structuring then Some(Structuring(history, c.seen, l)) else None,
                if e.pack.value.velocity then Some(Velocity(history, c.seen, l)) else None)
  }

  function After(m: Memory, es: seq<Envelope>): Memory {
    if es == [] then m else Intake(After(m, es[..|es| - 1]), es[|es| - 1])
  }

  /** What the `k`th delivery of a run answers. */
  function AnswerAt(m: Memory, es: seq<Envelope>, k: nat, l: Limits): Reply
    requires Positive(l) && k < |es|
  {
    Answer(After(m, es[..k]), es[k], l)
  }

  predicate FirstDelivery(es: seq<Envelope>, k: nat)
    requires k < |es|
  {
    forall j :: 0 <= j < k ==> es[j].eventId != es[k].eventId
  }

  lemma {:induction false} SeenIsDelivered(es: seq<Envelope>)
    ensures forall id :: id in After(FRESH, es).seen <==> id != "" && exists j :: 0 <= j < |es| && es[j].eventId == id
    decreases |es|
  {
    if es != [] {
      var rest, last := es[..|es| - 1], es[|es| - 1];
      SeenIsDelivered(rest);
      forall id
        ensures id in After(FRESH, es).seen <==> id != "" && exists j :: 0 <= j < |es| && es[j].eventId == id
      {
        if id in After(FRESH, rest).seen {
          var j :| 0 <= j < |rest| && rest[j].eventId == id;
          assert es[j].eventId == id;
        } else {
          assert forall j :: 0 <= j < |rest| ==> rest[j] == es[j];
        }
      }
    }
  }

  /**
   An event is evaluated at its first delivery or never: exactly when that first delivery is a well-formed charge and a rule
   pack is active at that moment. A redelivery after a refusal is not evaluated, because the id was recorded before the
   refusal. The caller is told of a missing id, and of a first delivery of a charge that cannot be evaluated.
   */
  lemma EvaluatedExactlyAtFirstDelivery(es: seq<Envelope>, k: nat, l: Limits)
    requires Positive(l) && k < |es|
    ensures AnswerAt(FRESH, es, k, l).Evaluated? <==>
            es[k].eventId != "" && FirstDelivery(es, k) && es[k].charged && es[k].payload.Some? && es[k].pack.Some?
    ensures AnswerAt(FRESH, es, k, l) == Raised <==>
            es[k].eventId == "" || (FirstDelivery(es, k) && es[k].charged && (es[k].payload.None? || es[k].pack.None?))
  {
    SeenIsDelivered(es[..k]);
    if es[k].eventId != "" {
      if es[k].eventId in After(FRESH, es[..k]).seen {
        var j :| 0 <= j < k && es[..k][j].eventId == es[k].eventId;
        assert es[j].eventId == es[k].eventId;
      } else {
        assert forall j :: 0 <= j < k ==> es[..k][j].eventId == es[j].eventId;
      }
    }
  }

  /** A charge refused for want of a pack is lost: its redelivery once a pack is loaded is ignored. */
  lemma RefusedChargeIsNeverEvaluated(id: string, c: Payment, l: Limits)
    requires Positive(l) && id != ""
    ensures var es := [Envelope(id, true, Some(c), None), Envelope(id, true, Some(c), Some(FULL_PACK))];
            AnswerAt(FRESH, es, 0, l) == Raised && AnswerAt(FRESH, es, 1, l) == Ignored
  {
    var es := [Envelope(id, true, Some(c), None), Envelope(id, true, Some(c), Some(FULL_PACK))];
    assert es[..0] == [] && es[..1] == [es[0]];
    assert [es[0]][..0] == [];
  }

  // ------------------------------------------------------------------ restart

  /** The payment store's charges at or after `since`, by time; equal times keep the store's order. */
  function Insert(c: Charge, s: seq<Charge>): seq<Charge> {
    if s == [] || c.seen.at <= s[0].seen.at then [c] + s else [s[0]] + Insert(c, s[1..])
  }

  function ListChargedSince(store: seq<Charge>, since: int): seq<Charge> {
    if store == [] then []
    else
      var rest := ListChargedSince(store[1..], since);
      if store[0].seen.at >= since then Insert(store[0], rest) else rest
  }

  function ChargesOf(store: seq<Charge>, subject: string): seq<Observation> {
    if store == [] then []
    else (if store[0].subject == subject then [store[0].seen] else []) + ChargesOf(store[1..], subject)
  }

  function Replay(history: map<string, seq<Observation>>, cs: seq<Charge>): map<string, seq<Observation>>
    decreases |cs|
  {
    if cs == [] then history
    else
      Replay(Added(history, cs[0]), cs[1..])
  }

  function Rehydrate(store: seq<Charge>, since: int): Memory {
    Memory({}, Replay(map[], ListChargedSince(store, since)))
  }

  function Added(history: map<string, seq<Observation>>, c: Charge): map<string, seq<Observation>> {
    history[c.subject := (if c.subject in history then history[c.subject] else []) + [c.seen]]
  }

  lemma AddedReads(history: map<string, seq<Observation>>, c: Charge, subject: string)
    ensures Of(Memory({}, Added(history, c)), subject) ==
            Of(Memory({}, history), subject) + if c.subject == subject then [c.seen] else []
  {
  }

  lemma {:induction false} ReplayAppends(history: map<string, seq<Observation>>, cs: seq<Charge>, subject: string)
    ensures Of(Memory({}, Replay(history, cs)), subject) == Of(Memory({}, history), subject) + ChargesOf(cs, subject)
    decreases |cs|
  {
    if cs != [] {
      ReplayAppends(Added(history, cs[0]), cs[1..], subject);
      AddedReads(history, cs[0], subject);
      Regroup(Of(Memory({}, history), subject), if cs[0].subject == subject then [cs[0].seen] else [], ChargesOf(cs[1..], subject));
    }
  }

  lemma {:induction false} InsertCounts(c: Charge, s: seq<Charge>, subject: string, x: Observation)
    ensures Count(ChargesOf(Insert(c, s), subject), x) ==
            Count(ChargesOf(s, subject), x) + (if c.subject == subject && c.seen == x then 1 else 0)
    decreases |s|
  {
    var head := if c.subject == subject then [c.seen] else [];
    if s == [] || c.seen.at <= s[0].seen.at {
      assert ([c] + s)[1..] == s;
      CountSplit(head, ChargesOf(s, subject), x);
    } else {
      var first := if s[0].subject == subject then [s[0].seen] else [];
      InsertCounts(c, s[1..], subject, x);
      assert Insert(c, s)[1..] == Insert(c, s[1..]);
      CountSplit(first, ChargesOf(Insert(c, s[1..]), subject), x);
      CountSplit(first, ChargesOf(s[1..], subject), x);
    }
  }

  lemma {:induction false} ListCounts(store: seq<Charge>, since: int, subject: string, x: Observation)
    ensures Count(ChargesOf(ListChargedSince(store, since), subject), x) ==
            if x.at >= since then Count(ChargesOf(store, subject), x) else 0
    decreases |store|
  {
    if store != [] {
      ListCounts(store[1..], since, subject, x);
      var head := if store[0].subject == subject then [store[0].seen] else [];
      CountSplit(head, ChargesOf(store[1..], subject), x);
      if store[0].seen.at >= since {
        InsertCounts(store[0], ListChargedSince(store[1..], since), subject, x);
      }
    }
  }

  // ------------------------------------------------------------------ what the store and the monitor know

  function Events(ps: seq<Payment>): seq<Charge> {
    seq(|ps|, i requires 0 <= i < |ps| => ps[i].Event())
  }

  /** The rows of the payment store. */
  function Rows(ps: seq<Payment>): seq<Charge> {
    seq(|ps|, i requires 0 <= i < |ps| => ps[i].Stored())
  }

  /** The payments a run from start-up has evaluated, in order. */
  function Evaluations(es: seq<Envelope>): seq<Payment> {
    if es == [] then []
    else
      var p, e := es[..|es| - 1], es[|es| - 1];
      Evaluations(p) + if Evaluates(After(FRESH, p), e) then [e.payload.value] else []
  }

  /** A well-formed charge is delivered for the first time while no rule pack is active. */
  predicate RefusedAt(es: seq<Envelope>, k: nat)
    requires k < |es|
  {
    es[k].eventId != "" && FirstDelivery(es, k) && es[k].charged && es[k].payload.Some? && es[k].pack.None?
  }

  /** The payments a run has refused for want of a rule pack. */
  function Refusals(es: seq<Envelope>): seq<Payment> {
    if es == [] then []
    else Refusals(es[..|es| - 1]) + if RefusedAt(es, |es| - 1) then [es[|es| - 1].payload.value] else []
  }

  /** Stored, but not evaluated: refused, or `ahead` of an event still to come. */
  function Unseen(es: seq<Envelope>, ahead: seq<Payment>): seq<Payment> {
    Refusals(es) + ahead
  }

  /** The payment store holds the payments the run evaluated and those it has not seen, under the store's own times. */
  ghost predicate StoreHolds(store: seq<Charge>, es: seq<Envelope>, ahead: seq<Payment>) {
    forall subject, x :: Count(ChargesOf(store, subject), x) ==
                         Count(ChargesOf(Rows(Evaluations(es)), subject), x) + Count(ChargesOf(Rows(Unseen(es, ahead)), subject), x)
  }

  /** A payment is charged once. */
  ghost predicate ChargedOnce(es: seq<Envelope>, ahead: seq<Payment>) {
    OneEach(Evaluations(es) + Unseen(es, ahead))
  }

  predicate OneEach(ps: seq<Payment>) {
    forall i, j :: 0 <= i < j < |ps| ==> ps[i].intent != ps[j].intent
  }

  lemma {:induction false} ChargesSplit(a: seq<Charge>, b: seq<Charge>, subject: string)
    ensures ChargesOf(a + b, subject) == ChargesOf(a, subject) + ChargesOf(b, subject)
    decreases |a|
  {
    if a == [] {
      assert a + b == b;
    } else {
      ChargesSplit(a[1..], b, subject);
      assert (a + b)[0] == a[0] && (a + b)[1..] == a[1..] + b;
      Regroup(if a[0].subject == subject then [a[0].seen] else [], ChargesOf(a[1..], subject), ChargesOf(b, subject));
    }
  }

  lemma {:induction false} ChargesMember(cs: seq<Charge>, subject: string, x: Observation)
    ensures Count(ChargesOf(cs, subject), x) > 0 <==> Charge(subject, x) in cs
    decreases |cs|
  {
    if cs != [] {
      ChargesMember(cs[1..], subject, x);
      CountSplit(if cs[0].subject == subject then [cs[0].seen] else [], ChargesOf(cs[1..], subject), x);
      assert cs == [cs[0]] + cs[1..];
    }
  }

  /** The running history is made of the evaluated payments, dated by their events. */
  lemma {:induction false} HistoryIsEvaluations(es: seq<Envelope>, subject: string)
    ensures Of(After(FRESH, es), subject) == ChargesOf(Events(Evaluations(es)), subject)
    decreases |es|
  {
    if es != [] {
      var p, e := es[..|es| - 1], es[|es| - 1];
      HistoryIsEvaluations(p, subject);
      if Evaluates(After(FRESH, p), e) {
        var c := e.payload.value.Event();
        assert Events(Evaluations(es)) == Events(Evaluations(p)) + [c];
        ChargesSplit(Events(Evaluations(p)), [c], subject);
        assert [c][1..] == [];
      } else {
        assert Evaluations(p) + [] == Evaluations(p);
        assert Of(After(FRESH, es), subject) == Of(After(FRESH, p), subject);
      }
    }
  }

  /** The running monitor has seen every stored charge exactly once, at its stored time, and nothing else. */
  ghost predicate InStep(m: Memory, store: seq<Charge>) {
    forall subject, x :: Count(Of(m, subject), x) == Count(ChargesOf(store, subject), x)
  }

  lemma StoredCount(es: seq<Envelope>, store: seq<Charge>, ahead: seq<Payment>, subject: string, x: Observation)
    requires StoreHolds(store, es, ahead)
    ensures Count(ChargesOf(store, subject), x) ==
            Count(ChargesOf(Rows(Evaluations(es)), subject), x) + Count(ChargesOf(Rows(Unseen(es, ahead)), subject), x)
  {
  }

  /** A payment's event stands in the running history, its row in the store. */
  lemma EventIsSeen(es: seq<Envelope>, p: Payment)
    requires p in Evaluations(es)
    ensures Count(Of(After(FRESH, es), p.subject), p.Event().seen) > 0
    ensures Count(ChargesOf(Rows(Evaluations(es)), p.subject), p.Stored().seen) > 0
  {
    var ps := Evaluations(es);
    var i :| 0 <= i < |ps| && ps[i] == p;
    HistoryIsEvaluations(es, p.subject);
    assert Events(ps)[i] == p.Event() && Rows(ps)[i] == p.Stored();
    ChargesMember(Events(ps), p.subject, p.Event().seen);
    ChargesMember(Rows(ps), p.subject, p.Stored().seen);
  }

  /** Where a payment is not evaluated at that time, the running history has nothing. */
  lemma OnlyItsEvent(es: seq<Envelope>, ahead: seq<Payment>, p: Payment, at: int)
    requires ChargedOnce(es, ahead) && p in Evaluations(es) + Unseen(es, ahead)
    requires p in Evaluations(es) ==> p.occurred != at
    ensures Count(Of(After(FRESH, es), p.subject), Observation(p.intent, p.amount, at)) == 0
  {
    var all, ps := Evaluations(es) + Unseen(es, ahead), Evaluations(es);
    HistoryIsEvaluations(es, p.subject);
    ChargesMember(Events(ps), p.subject, Observation(p.intent, p.amount, at));
    var j :| 0 <= j < |all| && all[j] == p;
    forall i | 0 <= i < |ps| ensures Events(ps)[i].seen != Observation(p.intent, p.amount, at) {
      assert all[i] == ps[i];
      assert i != j ==> all[i].intent != all[j].intent;
    }
  }

  /** The store has the row of an evaluated or unseen payment, and no other. */
  lemma StoredMember(es: seq<Envelope>, store: seq<Charge>, ahead: seq<Payment>, subject: string, x: Observation)
    requires StoreHolds(store, es, ahead)
    ensures Count(ChargesOf(store, subject), x) > 0 <==> Charge(subject, x) in Rows(Evaluations(es) + Unseen(es, ahead))
  {
    var ps, us := Evaluations(es), Unseen(es, ahead);
    StoredCount(es, store, ahead, subject, x);
    ChargesMember(Rows(ps), subject, x);
    ChargesMember(Rows(us), subject, x);
    RowsSplit(ps, us);
  }

  lemma RowsSplit(a: seq<Payment>, b: seq<Payment>)
    ensures Rows(a + b) == Rows(a) + Rows(b)
  {
  }

  /** Likewise the store. */
  lemma OnlyItsRow(es: seq<Envelope>, store: seq<Charge>, ahead: seq<Payment>, p: Payment, at: int)
    requires StoreHolds(store, es, ahead) && ChargedOnce(es, ahead) && p in Evaluations(es) && p.charged != at
    ensures Count(ChargesOf(store, p.subject), Observation(p.intent, p.amount, at)) == 0
  {
    var all, x := Evaluations(es) + Unseen(es, ahead), Observation(p.intent, p.amount, at);
    StoredMember(es, store, ahead, p.subject, x);
    var j :| 0 <= j < |Evaluations(es)| && Evaluations(es)[j] == p;
    forall i | 0 <= i < |all| ensures Rows(all)[i].seen != x {
      assert all[j] == p;
      assert i != j ==> all[i].intent != all[j].intent;
    }
  }

  lemma UnseenIsStored(es: seq<Envelope>, store: seq<Charge>, ahead: seq<Payment>, p: Payment)
    requires StoreHolds(store, es, ahead) && p in Unseen(es, ahead)
    ensures Count(ChargesOf(store, p.subject), p.Stored().seen) > 0
  {
    var ps := Unseen(es, ahead);
    var i :| 0 <= i < |ps| && ps[i] == p;
    assert Rows(ps)[i] == p.Stored();
    ChargesMember(Rows(ps), p.subject, p.Stored().seen);
    StoredCount(es, store, ahead, p.subject, p.Stored().seen);
  }

  /** Monitor and store are in step exactly when no payment was refused for want of a pack, none is ahead of its event, and none
      has two different times. */
  lemma InStepExactlyWhenNoneUnseen(es: seq<Envelope>, store: seq<Charge>, ahead: seq<Payment>)
    requires StoreHolds(store, es, ahead) && ChargedOnce(es, ahead)
    ensures InStep(After(FRESH, es), store) <==>
            && ahead == [] && (forall k :: 0 <= k < |es| ==> !RefusedAt(es, k))
            && forall p :: p in Evaluations(es) ==> p.charged == p.occurred
  {
    RefusalsAreRefused(es);
    if Unseen(es, ahead) != [] {
      UnseenIsOutOfStep(es, store, ahead);
    } else if p :| p in Evaluations(es) && p.charged != p.occurred {
      EventIsSeen(es, p);
      OnlyItsRow(es, store, ahead, p, p.occurred);
      OutOfStep(After(FRESH, es), store, p.subject, p.Event().seen);
    } else {
      OneTimeIsInStep(es, store, ahead);
    }
  }

  lemma OutOfStep(m: Memory, store: seq<Charge>, subject: string, x: Observation)
    requires Count(Of(m, subject), x) != Count(ChargesOf(store, subject), x)
    ensures !InStep(m, store)
  {
  }

  lemma UnseenIsOutOfStep(es: seq<Envelope>, store: seq<Charge>, ahead: seq<Payment>)
    requires StoreHolds(store, es, ahead) && ChargedOnce(es, ahead) && Unseen(es, ahead) != []
    ensures !InStep(After(FRESH, es), store)
  {
    var p := Unseen(es, ahead)[0];
    UnseenIsStored(es, store, ahead, p);
    NotEvaluated(es, ahead, p);
    OnlyItsEvent(es, ahead, p, p.charged);
    OutOfStep(After(FRESH, es), store, p.subject, p.Stored().seen);
  }

  lemma OneTimeIsInStep(es: seq<Envelope>, store: seq<Charge>, ahead: seq<Payment>)
    requires StoreHolds(store, es, ahead) && Unseen(es, ahead) == []
    requires forall p :: p in Evaluations(es) ==> p.charged == p.occurred
    ensures InStep(After(FRESH, es), store)
  {
    RowsAreEvents(Evaluations(es));
    assert Rows(Unseen(es, ahead)) == [];
    forall subject, x ensures Count(Of(After(FRESH, es), subject), x) == Count(ChargesOf(store, subject), x) {
      HistoryIsEvaluations(es, subject);
      StoredCount(es, store, ahead, subject, x);
      assert Count([], x) == 0;
    }
  }

  lemma RowsAreEvents(ps: seq<Payment>)
    requires forall p :: p in ps ==> p.charged == p.occurred
    ensures Rows(ps) == Events(ps)
  {
    assert forall i :: 0 <= i < |ps| ==> ps[i] in ps;
  }

  lemma NotEvaluated(es: seq<Envelope>, ahead: seq<Payment>, p: Payment)
    requires ChargedOnce(es, ahead) && p in Unseen(es, ahead)
    ensures p !in Evaluations(es)
  {
    var all, n := Evaluations(es) + Unseen(es, ahead), |Evaluations(es)|;
    var j :| 0 <= j < |Unseen(es, ahead)| && Unseen(es, ahead)[j] == p;
    forall i | 0 <= i < n ensures Evaluations(es)[i] != p {
      assert all[i].intent != all[n + j].intent;
    }
  }

  lemma {:induction false} RefusalsAreRefused(es: seq<Envelope>)
    ensures Refusals(es) == [] <==> forall k :: 0 <= k < |es| ==> !RefusedAt(es, k)
    decreases |es|
  {
    if es != [] {
      var p := es[..|es| - 1];
      RefusalsAreRefused(p);
      forall k | 0 <= k < |p| ensures RefusedAt(es, k) <==> RefusedAt(p, k) {
        assert forall j :: 0 <= j <= k ==> p[j] == es[j];
      }
    }
  }

  // ------------------------------------------------------------------ what a restart changes

  function Since(now: int, l: Limits): int {
    now - l.windowHours * HOUR
  }

  /** One of the payment's times is no earlier than `from` and known to the running or to the restarted monitor. */
  predicate InReach(p: Payment, since: int, from: int) {
    p.occurred >= from || (p.charged >= since && p.charged >= from)
  }

  /** A payment in reach was stored at or after the cut-off and has one time only. */
  predicate Timely(p: Payment, since: int, from: int) {
    InReach(p, since, from) ==> p.charged >= since && p.charged == p.occurred
  }

  /** Every evaluated payment in reach reads the same from its event and from the store. */
  ghost predicate AllTimely(es: seq<Envelope>, since: int, from: int) {
    forall p :: p in Evaluations(es) ==> Timely(p, since, from)
  }

  /** A stored payment the monitor never evaluated, stored no earlier than `from`, enters the history at start-up. */
  ghost predicate Regains(es: seq<Envelope>, ahead: seq<Payment>, from: int) {
    exists p :: p in Unseen(es, ahead) && p.charged >= from
  }

  /** A restarted monitor `b` beside the uninterrupted `a`, which had recorded the ids `before`. */
  ghost predicate Shadows(a: Memory, b: Memory, before: set<string>, since: int) {
    a.seen == before + b.seen &&
    forall subject :: AgreeFrom(Of(a, subject), Of(b, subject), since)
  }

  /** The rehydrated history holds, for every subject, exactly the stored charges since the cut-off. */
  lemma RehydratedCount(es: seq<Envelope>, store: seq<Charge>, ahead: seq<Payment>, since: int, subject: string, x: Observation)
    requires StoreHolds(store, es, ahead)
    ensures Count(Of(Rehydrate(store, since), subject), x) ==
            if x.at < since then 0 else Count(ChargesOf(store, subject), x)
  {
    ReplayAppends(map[], ListChargedSince(store, since), subject);
    assert Of(Rehydrate(store, since), subject) == ChargesOf(ListChargedSince(store, since), subject);
    ListCounts(store, since, subject, x);
  }

  lemma CountHead(c: Charge, cs: seq<Charge>, subject: string, x: Observation)
    ensures Count(ChargesOf([c] + cs, subject), x) == Count(ChargesOf(cs, subject), x) + if c == Charge(subject, x) then 1 else 0
  {
    assert ([c] + cs)[1..] == cs;
    CountSplit(if c.subject == subject then [c.seen] else [], ChargesOf(cs, subject), x);
  }

  lemma ViewsHead(ps: seq<Payment>)
    requires ps != []
    ensures Events(ps) == [ps[0].Event()] + Events(ps[1..]) && Rows(ps) == [ps[0].Stored()] + Rows(ps[1..])
  {
  }

  lemma TimelyOne(p: Payment, since: int, from: int, c: Charge)
    requires Timely(p, since, from) && c.seen.at >= from
    ensures p.Event() == c <==> c.seen.at >= since && p.Stored() == c
  {
  }

  /** Timely payments count alike by event and by row. */
  lemma {:induction false} TimelyCounts(ps: seq<Payment>, since: int, from: int, subject: string, x: Observation)
    requires forall i :: 0 <= i < |ps| ==> Timely(ps[i], since, from)
    requires x.at >= from
    ensures Count(ChargesOf(Events(ps), subject), x) == if x.at < since then 0 else Count(ChargesOf(Rows(ps), subject), x)
    decreases |ps|
  {
    if ps != [] {
      TimelyCounts(ps[1..], since, from, subject, x);
      ViewsHead(ps);
      TimelyOne(ps[0], since, from, Charge(subject, x));
      CountHead(ps[0].Event(), Events(ps[1..]), subject, x);
      CountHead(ps[0].Stored(), Rows(ps[1..]), subject, x);
    }
  }

  lemma NothingRegained(es: seq<Envelope>, ahead: seq<Payment>, from: int, subject: string, x: Observation)
    requires !Regains(es, ahead, from) && from <= x.at
    ensures Count(ChargesOf(Rows(Unseen(es, ahead)), subject), x) == 0
  {
    var ps := Unseen(es, ahead);
    ChargesMember(Rows(ps), subject, x);
    forall i | 0 <= i < |ps| ensures Rows(ps)[i] != Charge(subject, x) {
      assert ps[i] in ps;
    }
  }

  /** Both histories read the same from `from` on. */
  ghost predicate HistoriesAgree(es: seq<Envelope>, store: seq<Charge>, since: int, from: int) {
    forall subject :: AgreeFrom(Of(After(FRESH, es), subject), Of(Rehydrate(store, since), subject), from)
  }

  lemma RehydrationAgrees(es: seq<Envelope>, store: seq<Charge>, ahead: seq<Payment>, since: int, from: int)
    requires StoreHolds(store, es, ahead) && AllTimely(es, since, from) && !Regains(es, ahead, Max(since, from))
    ensures HistoriesAgree(es, store, since, from)
  {
    var m, r := After(FRESH, es), Rehydrate(store, since);
    forall subject ensures AgreeFrom(Of(m, subject), Of(r, subject), from) {
      HistoryIsEvaluations(es, subject);
      forall x: Observation | x.at >= from ensures Count(Of(m, subject), x) == Count(Of(r, subject), x) {
        RehydratedCount(es, store, ahead, since, subject, x);
        TimelyCounts(Evaluations(es), since, from, subject, x);
        if x.at >= since {
          StoredCount(es, store, ahead, subject, x);
          NothingRegained(es, ahead, Max(since, from), subject, x);
        }
      }
    }
  }

  lemma HistoriesDiffer(es: seq<Envelope>, store: seq<Charge>, since: int, from: int, subject: string, x: Observation)
    requires x.at >= from && Count(Of(After(FRESH, es), subject), x) != Count(Of(Rehydrate(store, since), subject), x)
    ensures !HistoriesAgree(es, store, since, from)
  {
    assert !AgreeFrom(Of(After(FRESH, es), subject), Of(Rehydrate(store, since), subject), from);
  }

  lemma UntimelyDiffers(es: seq<Envelope>, store: seq<Charge>, ahead: seq<Payment>, since: int, from: int, p: Payment)
    requires StoreHolds(store, es, ahead) && ChargedOnce(es, ahead) && p in Evaluations(es) && !Timely(p, since, from)
    ensures !HistoriesAgree(es, store, since, from)
  {
    EventIsSeen(es, p);
    if p.occurred >= from {
      var x := p.Event().seen;
      RehydratedCount(es, store, ahead, since, p.subject, x);
      if p.charged != p.occurred {
        OnlyItsRow(es, store, ahead, p, p.occurred);
      }
      HistoriesDiffer(es, store, since, from, p.subject, x);
    } else {
      var x := p.Stored().seen;
      RehydratedCount(es, store, ahead, since, p.subject, x);
      StoredCount(es, store, ahead, p.subject, x);
      OnlyItsEvent(es, ahead, p, p.charged);
      HistoriesDiffer(es, store, since, from, p.subject, x);
    }
  }

  lemma RegainedDiffers(es: seq<Envelope>, store: seq<Charge>, ahead: seq<Payment>, since: int, from: int, p: Payment)
    requires StoreHolds(store, es, ahead) && ChargedOnce(es, ahead) && p in Unseen(es, ahead)
    requires p.charged >= since && p.charged >= from
    ensures !HistoriesAgree(es, store, since, from)
  {
    var x := p.Stored().seen;
    UnseenIsStored(es, store, ahead, p);
    NotEvaluated(es, ahead, p);
    OnlyItsEvent(es, ahead, p, p.charged);
    RehydratedCount(es, store, ahead, since, p.subject, x);
    HistoriesDiffer(es, store, since, from, p.subject, x);
  }

  /** The two histories agree from a time on exactly when every evaluated payment in reach is timely and no unseen one returns. */
  lemma HistoriesAgreeExactly(es: seq<Envelope>, store: seq<Charge>, ahead: seq<Payment>, since: int, from: int)
    requires StoreHolds(store, es, ahead) && ChargedOnce(es, ahead)
    ensures HistoriesAgree(es, store, since, from) <==> AllTimely(es, since, from) && !Regains(es, ahead, Max(since, from))
  {
    if p :| p in Evaluations(es) && !Timely(p, since, from) {
      UntimelyDiffers(es, store, ahead, since, from, p);
    } else if p :| p in Unseen(es, ahead) && p.charged >= Max(since, from) {
      RegainedDiffers(es, store, ahead, since, from, p);
    } else {
      RehydrationAgrees(es, store, ahead, since, from);
    }
  }

  lemma AppendAgrees(a: seq<Observation>, b: seq<Observation>, since: int, o: Observation)
    requires AgreeFrom(a, b, since)
    ensures AgreeFrom(a + [o], b + [o], since)
  {
    forall x: Observation | x.at >= since ensures Count(a + [o], x) == Count(b + [o], x) {
      CountSplit(a, [o], x);
      CountSplit(b, [o], x);
    }
  }

  lemma ShadowStep(a: Memory, b: Memory, before: set<string>, since: int, e: Envelope)
    requires Shadows(a, b, before, since) && e.eventId !in before
    ensures Shadows(Intake(a, e), Intake(b, e), before, since)
  {
    assert e.eventId in a.seen <==> e.eventId in b.seen;
    if !Evaluates(a, e) {
      assert forall subject :: Of(Intake(a, e), subject) == Of(a, subject) && Of(Intake(b, e), subject) == Of(b, subject);
    } else {
      var c := e.payload.value.Event();
      var a', b' := Intake(a, e), Intake(b, e);
      forall subject ensures AgreeFrom(Of(a', subject), Of(b', subject), since) {
        assert AgreeFrom(Of(a, subject), Of(b, subject), since);
        if subject == c.subject {
          AppendAgrees(Of(a, subject), Of(b, subject), since, c.seen);
        }
      }
    }
  }

  lemma {:induction false} ShadowRun(a: Memory, b: Memory, before: set<string>, since: int, es: seq<Envelope>)
    requires Shadows(a, b, before, since)
    requires forall k :: 0 <= k < |es| ==> es[k].eventId !in before
    ensures Shadows(After(a, es), After(b, es), before, since)
    decreases |es|
  {
    if es != [] {
      var rest := es[..|es| - 1];
      ShadowRun(a, b, before, since, rest);
      ShadowStep(After(a, rest), After(b, rest), before, since, es[|es| - 1]);
    }
  }

  ghost predicate SameIfAny(a: Option<Verdict>, b: Option<Verdict>) {
    a.Some? == b.Some? && (a.Some? ==> SameVerdict(a.value, b.value))
  }

  ghost predicate SameReply(a: Reply, b: Reply) {
    if a.Evaluated? && b.Evaluated? then SameIfAny(a.structuring, b.structuring) && SameIfAny(a.velocity, b.velocity)
    else a == b
  }

  /** Later deliveries are new events about charges no earlier than the restart. */
  predicate StrictlyLater(m: Memory, now: int, later: seq<Envelope>) {
    forall k :: 0 <= k < |later| ==>
      later[k].eventId !in m.seen && (later[k].payload.Some? ==> later[k].payload.value.occurred >= now)
  }

  /** What a later charge draws from two monitors that agree on everything from `from` on. */
  lemma ShadowsDrawTheSame(a: Memory, b: Memory, before: set<string>, from: int, e: Envelope, l: Limits)
    requires Positive(l) && Shadows(a, b, before, from) && e.eventId !in before
    requires e.payload.Some? ==> e.payload.value.occurred - 24 * HOUR >= from
    ensures SameVelocity(Answer(a, e, l), Answer(b, e, l))
    ensures (e.payload.Some? ==> e.payload.value.occurred - l.windowHours * HOUR >= from) ==>
            SameReply(Answer(a, e, l), Answer(b, e, l))
  {
    if Evaluates(a, e) {
      var c := e.payload.value.Event();
      ShadowStep(a, b, before, from, e);
      var ha, hb := Of(a, c.subject) + [c.seen], Of(b, c.subject) + [c.seen];
      assert Of(Intake(a, e), c.subject) == ha && Of(Intake(b, e), c.subject) == hb;
      assert AgreeFrom(ha, hb, from);
      VelocityAgrees(ha, hb, from, c.seen, l);
      if c.seen.at - l.windowHours * HOUR >= from {
        StructuringAgrees(ha, hb, from, c.seen, l);
      }
    }
  }

  /**
   A restart at `now` is invisible when every evaluated payment within reach of either window has one time, not before the
   cut-off, and no stored payment the monitor has not seen lies after it: every later delivery draws from the rehydrated
   monitor the same reply, structuring and velocity verdicts included, as from the monitor that never stopped.
   */
  lemma RestartIsInvisible(es: seq<Envelope>, store: seq<Charge>, ahead: seq<Payment>, now: int, later: seq<Envelope>, k: nat,
                           l: Limits)
    requires Positive(l) && StoreHolds(store, es, ahead) && StrictlyLater(After(FRESH, es), now, later) && k < |later|
    requires AllTimely(es, Since(now, l), Min(Since(now, l), now - 24 * HOUR)) && !Regains(es, ahead, Since(now, l))
    ensures SameReply(AnswerAt(After(FRESH, es), later, k, l), AnswerAt(Rehydrate(store, Since(now, l)), later, k, l))
  {
    var m, r := After(FRESH, es), Rehydrate(store, Since(now, l));
    var from := Min(Since(now, l), now - 24 * HOUR);
    RehydrationAgrees(es, store, ahead, Since(now, l), from);
    assert Shadows(m, r, m.seen, from);
    ShadowRun(m, r, m.seen, from, later[..k]);
    ShadowsDrawTheSame(After(m, later[..k]), After(r, later[..k]), m.seen, from, later[k], l);
  }

  // ------------------------------------------------------------------ exactly when velocity survives

  ghost predicate SameVelocity(a: Reply, b: Reply) {
    a.Evaluated? == b.Evaluated? && (a.Evaluated? ==> SameIfAny(a.velocity, b.velocity))
  }

  /** Whatever is delivered later draws the same velocity verdicts as from the monitor that never stopped. */
  ghost predicate VelocitySurvives(es: seq<Envelope>, store: seq<Charge>, now: int, l: Limits)
    requires Positive(l)
  {
    forall later, k: nat :: StrictlyLater(After(FRESH, es), now, later) && k < |later| ==>
      SameVelocity(AnswerAt(After(FRESH, es), later, k, l), AnswerAt(Rehydrate(store, Since(now, l)), later, k, l))
  }

  lemma AgreementKeepsVelocity(es: seq<Envelope>, store: seq<Charge>, now: int, l: Limits)
    requires Positive(l) && HistoriesAgree(es, store, Since(now, l), now - 24 * HOUR)
    ensures VelocitySurvives(es, store, now, l)
  {
    var m, r, from := After(FRESH, es), Rehydrate(store, Since(now, l)), now - 24 * HOUR;
    assert Shadows(m, r, m.seen, from);
    forall later, k: nat | StrictlyLater(m, now, later) && k < |later|
      ensures SameVelocity(AnswerAt(m, later, k, l), AnswerAt(r, later, k, l))
    {
      ShadowRun(m, r, m.seen, from, later[..k]);
      ShadowsDrawTheSame(After(m, later[..k]), After(r, later[..k]), m.seen, from, later[k], l);
    }
  }

  lemma {:induction false} AllShorter(ids: set<string>) returns (n: nat)
    ensures forall id :: id in ids ==> |id| < n
    decreases |ids|
  {
    if ids == {} {
      n := 0;
    } else {
      var one :| one in ids;
      n := AllShorter(ids - {one});
      n := Max(n, |one| + 1);
    }
  }

  lemma FreshId(ids: set<string>) returns (id: string)
    ensures id != "" && id !in ids
  {
    var n := AllShorter(ids);
    id := seq(n + 1, i => 'e');
  }

  lemma {:induction false} WithinAppend(s: seq<Observation>, o: Observation, lo: int, hi: int)
    requires lo <= o.at <= hi
    ensures Within(s + [o], lo, hi) == Within(s, lo, hi) + [o]
    decreases |s|
  {
    if s == [] {
      assert s + [o] == [o];
      assert Within([o][1..], lo, hi) == [];
    } else {
      WithinAppend(s[1..], o, lo, hi);
      assert (s + [o])[0] == s[0] && (s + [o])[1..] == s[1..] + [o];
      Regroup(if lo <= s[0].at <= hi then [s[0]] else [], Within(s[1..], lo, hi), [o]);
    }
  }

  lemma {:induction false} TotalAppend(s: seq<Observation>, o: Observation)
    ensures Total(s + [o]) == Total(s) + o.amount && |Intents(s + [o])| == |s| + 1
    decreases |s|
  {
    if s == [] {
      assert [o][1..] == [] && s + [o] == [o];
    } else {
      TotalAppend(s[1..], o);
      assert (s + [o])[1..] == s[1..] + [o];
    }
  }

  /** A charge large enough to alert in both monitors, so that the alerts show their windows. */
  function Probe(a: seq<Observation>, b: seq<Observation>, at: int, l: Limits): Observation {
    var wa, wb := Window(a, at, 24), Window(b, at, 24);
    Observation("probe", l.velocityAmount + Abs(Total(wa)) + Abs(Total(wb)), at)
  }

  lemma ProbeAlerts(h: seq<Observation>, a: seq<Observation>, b: seq<Observation>, at: int, l: Limits)
    requires Positive(l) && (h == a || h == b)
    ensures var o := Probe(a, b, at, l);
            var v := Velocity(h + [o], o, l);
            v.result == ALERT_RAISED && v.contributing == Intents(Window(h, at, 24) + [o])
  {
    var o := Probe(a, b, at, l);
    WithinAppend(h, o, at - 24 * HOUR, at);
    TotalAppend(Window(h, at, 24), o);
  }

  /** How often a payment stands in a window. */
  ghost function Named(w: seq<Observation>, intent: string): nat {
    multiset(Intents(w))[intent]
  }

  lemma {:induction false} NamedSplit(v: seq<Observation>, w: seq<Observation>, intent: string)
    ensures Named(v + w, intent) == Named(v, intent) + Named(w, intent)
    decreases |v|
  {
    if v == [] {
      assert v + w == w;
    } else {
      NamedSplit(v[1..], w, intent);
      assert (v + w)[0] == v[0] && (v + w)[1..] == v[1..] + w;
    }
  }

  lemma NamedOne(o: Observation, intent: string)
    ensures Named([o], intent) == if o.intent == intent then 1 else 0
  {
    assert [o][1..] == [];
    assert Intents([o]) == [o.intent];
  }

  lemma {:induction false} NamedFromStart(s: seq<Observation>, at: int, hi: int, intent: string)
    requires at <= hi
    ensures Named(Within(s, at, hi), intent) == Named(Within(s, at, at), intent) + Named(Within(s, at + 1, hi), intent)
    decreases |s|
  {
    if s != [] {
      NamedFromStart(s[1..], at, hi, intent);
      NamedOne(s[0], intent);
      NamedSplit(if at <= s[0].at <= hi then [s[0]] else [], Within(s[1..], at, hi), intent);
      NamedSplit(if at <= s[0].at <= at then [s[0]] else [], Within(s[1..], at, at), intent);
      NamedSplit(if at + 1 <= s[0].at <= hi then [s[0]] else [], Within(s[1..], at + 1, hi), intent);
    }
  }

  /** A payment has one amount at a time. */
  ghost predicate OneAmountAt(s: seq<Observation>, x: Observation) {
    forall y :: y in s && y.intent == x.intent && y.at == x.at ==> y == x
  }

  lemma {:induction false} NamedAtOnce(s: seq<Observation>, x: Observation)
    requires OneAmountAt(s, x)
    ensures Named(Within(s, x.at, x.at), x.intent) == Count(s, x)
    decreases |s|
  {
    if s != [] {
      assert s == [s[0]] + s[1..];
      assert OneAmountAt(s[1..], x);
      NamedAtOnce(s[1..], x);
      CountSplit([s[0]], s[1..], x);
      assert s[0] in s;
      NamedOne(s[0], x.intent);
      NamedSplit(if x.at <= s[0].at <= x.at then [s[0]] else [], Within(s[1..], x.at, x.at), x.intent);
    }
  }

  /** `x` is the last thing on which two histories differ. */
  ghost predicate LastDifference(a: seq<Observation>, b: seq<Observation>, x: Observation) {
    Count(a, x) != Count(b, x) && forall y: Observation :: y.at > x.at ==> Count(a, y) == Count(b, y)
  }

  lemma {:induction false} FindLastDifference(a: seq<Observation>, b: seq<Observation>, rest: seq<Observation>, x: Observation)
    returns (last: Observation)
    requires Count(a, x) != Count(b, x)
    requires forall y: Observation :: y.at > x.at && Count(a, y) != Count(b, y) ==> y in rest
    ensures LastDifference(a, b, last) && last.at >= x.at
    decreases |rest|
  {
    if rest == [] {
      last := x;
    } else {
      assert rest == [rest[0]] + rest[1..];
      if rest[0].at > x.at && Count(a, rest[0]) != Count(b, rest[0]) {
        last := FindLastDifference(a, b, rest[1..], rest[0]);
      } else {
        last := FindLastDifference(a, b, rest[1..], x);
      }
    }
  }

  lemma LaterIsNamedAlike(a: seq<Observation>, b: seq<Observation>, x: Observation, hi: int, intent: string)
    requires LastDifference(a, b, x)
    ensures Named(Within(a, x.at + 1, hi), intent) == Named(Within(b, x.at + 1, hi), intent)
  {
    var v, w := Within(a, x.at + 1, hi), Within(b, x.at + 1, hi);
    forall y ensures Count(v, y) == Count(w, y) {
      WithinCounts(a, x.at + 1, hi, y);
      WithinCounts(b, x.at + 1, hi, y);
    }
    PermutedAgree(v, w);
  }

  /** A window that opens at the last difference shows it. */
  lemma DifferenceIsNamed(a: seq<Observation>, b: seq<Observation>, x: Observation)
    requires LastDifference(a, b, x) && OneAmountAt(a, x) && OneAmountAt(b, x)
    ensures Named(Window(a, x.at + 24 * HOUR, 24), x.intent) != Named(Window(b, x.at + 24 * HOUR, 24), x.intent)
  {
    LaterIsNamedAlike(a, b, x, x.at + 24 * HOUR, x.intent);
    NamedByCount(a, x, x.at + 24 * HOUR);
    NamedByCount(b, x, x.at + 24 * HOUR);
  }

  lemma NamedByCount(s: seq<Observation>, x: Observation, hi: int)
    requires OneAmountAt(s, x) && x.at <= hi
    ensures Named(Within(s, x.at, hi), x.intent) == Count(s, x) + Named(Within(s, x.at + 1, hi), x.intent)
  {
    NamedFromStart(s, x.at, hi, x.intent);
    NamedAtOnce(s, x);
  }

  lemma DifferenceShows(a: seq<Observation>, b: seq<Observation>, x: Observation, l: Limits)
    requires Positive(l) && LastDifference(a, b, x) && OneAmountAt(a, x) && OneAmountAt(b, x)
    ensures var o := Probe(a, b, x.at + 24 * HOUR, l);
            !SameVerdict(Velocity(a + [o], o, l), Velocity(b + [o], o, l))
  {
    var at := x.at + 24 * HOUR;
    var o := Probe(a, b, at, l);
    ProbeAlerts(a, a, b, at, l);
    ProbeAlerts(b, a, b, at, l);
    DifferenceIsNamed(a, b, x);
    NamedSplit(Window(a, at, 24), [o], x.intent);
    NamedSplit(Window(b, at, 24), [o], x.intent);
  }

  /** Two observations of one payment have the same amount, whichever history they stand in. */
  lemma OneAmount(es: seq<Envelope>, store: seq<Charge>, ahead: seq<Payment>, since: int, subject: string, x: Observation,
                  y: Observation)
    requires StoreHolds(store, es, ahead) && ChargedOnce(es, ahead) && x.intent == y.intent
    requires x in Of(After(FRESH, es), subject) || x in Of(Rehydrate(store, since), subject)
    requires y in Of(After(FRESH, es), subject) || y in Of(Rehydrate(store, since), subject)
    ensures x.amount == y.amount
  {
    var all := Evaluations(es) + Unseen(es, ahead);
    var i := FromPayment(es, store, ahead, since, subject, x);
    var j := FromPayment(es, store, ahead, since, subject, y);
    assert all[i].intent == all[j].intent;
    assert i == j;
  }

  lemma FromEvent(es: seq<Envelope>, subject: string, x: Observation) returns (i: nat)
    requires x in Of(After(FRESH, es), subject)
    ensures var ps := Evaluations(es); i < |ps| && ps[i].intent == x.intent && ps[i].amount == x.amount
  {
    HistoryIsEvaluations(es, subject);
    assert x in multiset(Of(After(FRESH, es), subject));
    ChargesMember(Events(Evaluations(es)), subject, x);
    i :| 0 <= i < |Evaluations(es)| && Events(Evaluations(es))[i] == Charge(subject, x);
  }

  lemma FromRow(es: seq<Envelope>, store: seq<Charge>, ahead: seq<Payment>, since: int, subject: string, x: Observation)
    returns (i: nat)
    requires StoreHolds(store, es, ahead) && x in Of(Rehydrate(store, since), subject)
    ensures var all := Evaluations(es) + Unseen(es, ahead);
            i < |all| && all[i].intent == x.intent && all[i].amount == x.amount
  {
    var all := Evaluations(es) + Unseen(es, ahead);
    assert x in multiset(Of(Rehydrate(store, since), subject));
    RehydratedCount(es, store, ahead, since, subject, x);
    StoredMember(es, store, ahead, subject, x);
    i :| 0 <= i < |all| && Rows(all)[i] == Charge(subject, x);
  }

  lemma FromPayment(es: seq<Envelope>, store: seq<Charge>, ahead: seq<Payment>, since: int, subject: string, x: Observation)
    returns (i: nat)
    requires StoreHolds(store, es, ahead)
    requires x in Of(After(FRESH, es), subject) || x in Of(Rehydrate(store, since), subject)
    ensures var all := Evaluations(es) + Unseen(es, ahead);
            i < |all| && all[i].intent == x.intent && all[i].amount == x.amount
  {
    if x in Of(After(FRESH, es), subject) {
      i := FromEvent(es, subject, x);
    } else {
      i := FromRow(es, store, ahead, since, subject, x);
    }
  }

  /** A later charge that draws different velocity verdicts shows the restart. */
  lemma ProbeShows(es: seq<Envelope>, store: seq<Charge>, now: int, l: Limits, subject: string, o: Observation)
    requires Positive(l) && o.at >= now
    requires var a, b := Of(After(FRESH, es), subject), Of(Rehydrate(store, Since(now, l)), subject);
             !SameVerdict(Velocity(a + [o], o, l), Velocity(b + [o], o, l))
    ensures !VelocitySurvives(es, store, now, l)
  {
    var m, r := After(FRESH, es), Rehydrate(store, Since(now, l));
    var id := FreshId(m.seen);
    var later := [Envelope(id, true, Some(Payment(subject, o.intent, o.amount, o.at, o.at)), Some(FULL_PACK))];
    assert StrictlyLater(m, now, later);
    assert later[..0] == [];
    assert !SameVelocity(AnswerAt(m, later, 0, l), AnswerAt(r, later, 0, l));
  }

  lemma DisagreementLosesVelocity(es: seq<Envelope>, store: seq<Charge>, ahead: seq<Payment>, now: int, l: Limits)
    requires Positive(l) && StoreHolds(store, es, ahead) && ChargedOnce(es, ahead)
    requires !HistoriesAgree(es, store, Since(now, l), now - 24 * HOUR)
    ensures !VelocitySurvives(es, store, now, l)
  {
    var since := Since(now, l);
    var subject :| !AgreeFrom(Of(After(FRESH, es), subject), Of(Rehydrate(store, since), subject), now - 24 * HOUR);
    var a, b := Of(After(FRESH, es), subject), Of(Rehydrate(store, since), subject);
    var first: Observation :| first.at >= now - 24 * HOUR && Count(a, first) != Count(b, first);
    forall y: Observation | Count(a, y) != Count(b, y) ensures y in a + b {
      assert y in multiset(a) || y in multiset(b);
    }
    var x := FindLastDifference(a, b, a + b, first);
    assert x in multiset(a) || x in multiset(b);
    forall y | (y in a || y in b) && y.intent == x.intent && y.at == x.at ensures y == x {
      OneAmount(es, store, ahead, since, subject, x, y);
    }
    DifferenceShows(a, b, x, l);
    ProbeShows(es, store, now, l, subject, Probe(a, b, x.at + 24 * HOUR, l));
  }

  /**
   Velocity verdicts survive a restart exactly when every evaluated payment of the last 24 hours has one time, not before the
   cut-off, and no payment refused for want of a pack or ahead of its event was stored since.
   */
  lemma VelocitySurvivesExactly(es: seq<Envelope>, store: seq<Charge>, ahead: seq<Payment>, now: int, l: Limits)
    requires Positive(l) && StoreHolds(store, es, ahead) && ChargedOnce(es, ahead)
    ensures VelocitySurvives(es, store, now, l) <==>
            && AllTimely(es, Since(now, l), now - 24 * HOUR)
            && !Regains(es, ahead, Max(Since(now, l), now - 24 * HOUR))
  {
    HistoriesAgreeExactly(es, store, ahead, Since(now, l), now - 24 * HOUR);
    if HistoriesAgree(es, store, Since(now, l), now - 24 * HOUR) {
      AgreementKeepsVelocity(es, store, now, l);
    } else {
      DisagreementLosesVelocity(es, store, ahead, now, l);
    }
  }

  /** Every event is dated no earlier than its payment and at most `lag` later. */
  ghost predicate Lagging(es: seq<Envelope>, lag: int) {
    forall p :: p in Evaluations(es) ==> p.charged <= p.occurred <= p.charged + lag
  }

  /** An evaluated payment of the last 24 hours was stored before the cut-off. */
  ghost predicate Forgets(es: seq<Envelope>, now: int, l: Limits) {
    exists p :: p in Evaluations(es) && p.occurred >= now - 24 * HOUR && p.charged < Since(now, l)
  }

  /** No restart forgets a payment that velocity needs exactly when the structuring window outlasts 24 hours by the longest lag
      of an event behind its payment. */
  lemma NothingForgottenExactly(now: int, l: Limits, lag: int)
    requires Positive(l) && lag >= 0
    ensures l.windowHours * HOUR >= 24 * HOUR + lag <==> forall es :: Lagging(es, lag) ==> !Forgets(es, now, l)
  {
    if l.windowHours * HOUR < 24 * HOUR + lag {
      var p := Payment("subject", "earlier", 1, now - 24 * HOUR - lag, now - 24 * HOUR);
      var es := [Envelope("event", true, Some(p), Some(FULL_PACK))];
      assert es[..0] == [];
      assert Evaluations(es) == [p];
      assert p in Evaluations(es);
      assert Lagging(es, lag) && Forgets(es, now, l);
    }
  }

  // ------------------------------------------------------------------ short runs

  function VelocityOf(r: Reply): Option<Result> {
    if r.Evaluated? && r.velocity.Some? then Some(r.velocity.value.result) else None
  }

  function StartOf(r: Reply): Option<int> {
    if r.Evaluated? && r.velocity.Some? then Some(r.velocity.value.windowStart) else None
  }

  /** One charge refused for want of a pack, a restart, one later charge: the uninterrupted monitor passes it, the restarted
      one raises an alert. */
  lemma RefusedChargeReturnsAtRestart(now: int, l: Limits)
    requires Positive(l) && l.velocityCount >= 2 && l.velocityAmount >= 2
    ensures var p := Payment("subject", "refused", l.velocityAmount - 1, now, now);
            var es := [Envelope("first", true, Some(p), None)];
            var later := [Envelope("second", true, Some(Payment("subject", "later", 1, now, now)), Some(FULL_PACK))];
            var m, r := After(FRESH, es), Rehydrate([p.Stored()], Since(now, l));
            && StoreHolds([p.Stored()], es, []) && StrictlyLater(m, now, later)
            && VelocityOf(AnswerAt(m, later, 0, l)) == Some(PASSED)
            && VelocityOf(AnswerAt(r, later, 0, l)) == Some(ALERT_RAISED)
  {
    var p := Payment("subject", "refused", l.velocityAmount - 1, now, now);
    var es := [Envelope("first", true, Some(p), None)];
    var later := [Envelope("second", true, Some(Payment("subject", "later", 1, now, now)), Some(FULL_PACK))];
    assert es[..0] == [] && later[..0] == [];
    assert Refusals(es) == [p] && Evaluations(es) == [];
    assert Unseen(es, []) == [p];
    assert Rows([p]) == [p.Stored()] && Rows([]) == [];
    assert StoreHolds([p.Stored()], es, []);
    var m, r := After(FRESH, es), Rehydrate([p.Stored()], Since(now, l));
    assert m.seen == {"first"};
    assert Of(m, "subject") == [];
    OneRehydrated(p.Stored(), now, l);
    TwoInWindow(p.Stored().seen, later[0].payload.value.Event().seen, now);
  }

  lemma OneEvaluated(p: Payment, id: string)
    requires id != ""
    ensures var es := [Envelope(id, true, Some(p), Some(FULL_PACK))];
            && Evaluations(es) == [p] && Refusals(es) == [] && After(FRESH, es) == Memory({id}, map[p.subject := [p.Event().seen]])
            && StoreHolds([p.Stored()], es, [])
  {
    var es := [Envelope(id, true, Some(p), Some(FULL_PACK))];
    assert es[..0] == [];
    assert Of(FRESH, p.subject) + [p.Event().seen] == [p.Event().seen];
    assert Evaluations(es) == [p];
    assert Refusals(es[..0]) == [] && Refusals(es) == Refusals(es[..0]) + [];
    assert Unseen(es, []) == [];
    assert Rows([p]) == [p.Stored()] && Rows([]) == [];
  }

  /** An event dated one instant after its payment, a restart, one later charge: both monitors alert, under different window
      starts, so as two alerts. */
  lemma DelayedEventAlertsTwice(now: int, l: Limits)
    requires Positive(l)
    ensures var p := Payment("subject", "paid", l.velocityAmount, now - 1, now);
            var es := [Envelope("first", true, Some(p), Some(FULL_PACK))];
            var later := [Envelope("second", true, Some(Payment("subject", "later", 1, now, now)), Some(FULL_PACK))];
            var m, r := After(FRESH, es), Rehydrate([p.Stored()], Since(now, l));
            && StoreHolds([p.Stored()], es, []) && StrictlyLater(m, now, later)
            && VelocityOf(AnswerAt(m, later, 0, l)) == VelocityOf(AnswerAt(r, later, 0, l)) == Some(ALERT_RAISED)
            && StartOf(AnswerAt(m, later, 0, l)) == Some(now) && StartOf(AnswerAt(r, later, 0, l)) == Some(now - 1)
  {
    var p := Payment("subject", "paid", l.velocityAmount, now - 1, now);
    var later := [Envelope("second", true, Some(Payment("subject", "later", 1, now, now)), Some(FULL_PACK))];
    assert later[..0] == [];
    OneEvaluated(p, "first");
    OneRehydrated(p.Stored(), now, l);
    var o := Observation("later", 1, now);
    PairInWindow(p.Event().seen, o);
    PairInWindow(p.Stored().seen, o);
  }

  lemma PairInWindow(x: Observation, o: Observation)
    requires o.at - 24 * HOUR <= x.at <= o.at
    ensures Window([x] + [o], o.at, 24) == [x, o] && Total([x, o]) == x.amount + o.amount && Earliest([x, o]) == x.at
  {
    WithinAppend([], x, o.at - 24 * HOUR, o.at);
    WithinAppend([x], o, o.at - 24 * HOUR, o.at);
    TotalAppend([], x);
    TotalAppend([x], o);
    assert [] + [x] == [x] && [x] + [o] == [x, o] && [x, o][1..] == [o];
  }

  /** The ids already seen do not survive a restart: whatever ran before, a redelivery that would have been ignored is evaluated
      again exactly when it is a well-formed charge and a pack is active. */
  lemma RedeliveryAfterRestartIsEvaluatedAgain(es: seq<Envelope>, store: seq<Charge>, since: int, e: Envelope, l: Limits)
    requires Positive(l) && exists j :: 0 <= j < |es| && es[j].eventId == e.eventId != ""
    ensures Answer(After(FRESH, es), e, l) == Ignored
    ensures Answer(Rehydrate(store, since), e, l).Evaluated? <==> e.charged && e.payload.Some? && e.pack.Some?
  {
    SeenIsDelivered(es);
  }

  /** Its charge then counts twice. */
  lemma RedeliveredChargeCountsTwice(now: int, l: Limits, id: string, p: Payment)
    requires Positive(l) && id != "" && p.charged == p.occurred == now
    ensures var e := Envelope(id, true, Some(p), Some(FULL_PACK));
            var m, r := After(FRESH, [e]), Rehydrate([p.Stored()], Since(now, l));
            && StoreHolds([p.Stored()], [e], []) && Answer(m, e, l) == Ignored
            && Answer(r, e, l).Evaluated? && Of(Intake(r, e), p.subject) == [p.Event().seen, p.Event().seen]
  {
    OneEvaluated(p, id);
    OneRehydrated(p.Stored(), now, l);
  }

  lemma OneRehydrated(c: Charge, now: int, l: Limits)
    requires Positive(l) && c.seen.at >= Since(now, l)
    ensures Of(Rehydrate([c], Since(now, l)), c.subject) == [c.seen]
  {
    assert [c][1..] == [];
    assert ListChargedSince([c], Since(now, l)) == [c];
    ReplayAppends(map[], [c], c.subject);
  }

  lemma TwoInWindow(x: Observation, o: Observation, now: int)
    requires x.at == now && o.at == now
    ensures Window([] + [o], now, 24) == [o] && Total([o]) == o.amount
    ensures Window([x] + [o], now, 24) == [x, o] && Total([x, o]) == x.amount + o.amount
  {
    WithinAppend([], o, now - 24 * HOUR, now);
    TotalAppend([], o);
    assert [] + [o] == [o];
    PairInWindow(x, o);
  }

  // ------------------------------------------------------------------ the monitor object

  class TransactionMonitor {
    const limits: Limits
    var seenEventIds: set<string>
    var history: map<string, seq<Observation>>

    function Value(): Memory
      reads this
    {
      Memory(seenEventIds, history)
    }

    /** Start-up: replay the store's recent charges into the window history. */
    constructor (limits: Limits, store: seq<Charge>, now: int)
      requires Positive(limits)
      ensures this.limits == limits
      ensures Value() == Rehydrate(store, now - limits.windowHours * HOUR)
    {
      this.limits := limits;
      seenEventIds := {};
      history := map[];
      new;
      var charges := ListChargedSince(store, now - limits.windowHours * HOUR);
      var i := 0;
      while i < |charges|
        invariant 0 <= i <= |charges|
        invariant seenEventIds == {} && Replay(history, charges[i..]) == Replay(map[], charges)
      {
        var c := charges[i];
        assert charges[i..][0] == c && charges[i..][1..] == charges[i + 1..];
        history := history[c.subject := (if c.subject in history then history[c.subject] else []) + [c.seen]];
        i := i + 1;
      }
    }

    method IntakeEvent(e: Envelope) returns (reply: Reply)
      requires Positive(limits)
      modifies this
      ensures Value() == Intake(old(Value()), e)
      ensures reply == Answer(old(Value()), e, limits)
    {
      if e.eventId == "" {
        return Raised;
      }
      if e.eventId in seenEventIds {
        return Ignored;
      }
      seenEventIds := seenEventIds + {e.eventId};
      if !e.charged {
        return Ignored;
      }
      if e.pack.None? || e.payload.None? {
        return Raised;
      }
      var c := e.payload.value.Event();
      var observations := (if c.subject in history then history[c.subject] else []) + [c.seen];
      history := history[c.subject := observations];
      var pack := e.pack.value;
      reply := Evaluated(if pack.structuring then Some(Structuring(observations, c.seen, limits)) else None,
                         if pack.velocity then Some(Velocity(observations, c.seen, limits)) else None);
    }
  }
}

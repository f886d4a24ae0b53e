/**
 Rule-condition evaluation of signed rule packs (bdpay/compliance/packs.py).

 Facts and literals are integers, booleans and strings; a float anywhere is refused. `all`/`any` stop at the first child
 that decides, as Python's do, so an error in a later child is not reached.
 */
module Rules {
  import opened Common
  import opened Ordering

  datatype Value = I(n: int) | B(b: bool) | S(s: string) | Float

  datatype Expected = Lit(value: Value) | OneOf(values: seq<Value>) | ThresholdRef(name: string)

  datatype Operator = Eq | Ne | Gt | Ge | Lt | Le | In | Unrecognised

  datatype Atom = Atom(fact: string, op: Operator, expected: Expected)

  datatype Node = All(children: seq<Node>) | Any(children: seq<Node>) | AnyOf(atoms: seq<Atom>) | Leaf(atom: Atom)

  datatype Error = FloatRejected | ThresholdUnresolved | UnknownOperator | TypeMismatch

  datatype Outcome = Holds(verdict: bool) | Refused(error: Error)

  type Facts = map<string, Value>
  type Thresholds = map<string, int>

  // ------------------------------------------------------------------ Python comparison

  /** Python's bool is the integer 0 or 1. */
  function Number(v: Value): Option<int> {
    match v
    case I(n) => Some(n)
    case B(b) => Some(if b then 1 else 0)
    case _ => None
  }

  predicate Equal(a: Value, b: Value) {
    if Number(a).Some? && Number(b).Some? then Number(a) == Number(b) else a == b
  }

  predicate Comparable(a: Value, b: Value) {
    (Number(a).Some? && Number(b).Some?) || (a.S? && b.S?)
  }

  predicate Less(a: Value, b: Value)
    requires Comparable(a, b)
  {
    if a.S? then StringLess(a.s, b.s) else Number(a).value < Number(b).value
  }

  predicate Substring(a: string, b: string) {
    |a| <= |b| && (b[..|a|] == a || (b != [] && Substring(a, b[1..])))
  }

  // ------------------------------------------------------------------ evaluation

  function Compare(op: Operator, actual: Value, expected: Expected): Outcome
    requires !expected.ThresholdRef?
  {
    match expected
    case OneOf(values) =>
      if op == Eq then Holds(false)
      else if op == Ne then Holds(true)
      else if op == In then Holds(exists i :: 0 <= i < |values| && Equal(actual, values[i]))
      else if op == Unrecognised then Refused(UnknownOperator)
      else Refused(TypeMismatch)
    case Lit(v) =>
      match op
      case Eq => Holds(Equal(actual, v))
      case Ne => Holds(!Equal(actual, v))
      case Gt => if Comparable(actual, v) then Holds(Less(v, actual)) else Refused(TypeMismatch)
      case Ge => if Comparable(actual, v) then Holds(Less(v, actual) || Equal(actual, v)) else Refused(TypeMismatch)
      case Lt => if Comparable(actual, v) then Holds(Less(actual, v)) else Refused(TypeMismatch)
      case Le => if Comparable(actual, v) then Holds(Less(actual, v) || Equal(actual, v)) else Refused(TypeMismatch)
      case In => if actual.S? && v.S? then Holds(Substring(actual.s, v.s)) else Refused(TypeMismatch)
      case Unrecognised => Refused(UnknownOperator)
  }

  function EvalAtom(a: Atom, facts: Facts, thresholds: Thresholds): Outcome {
    if a.expected.ThresholdRef? && a.expected.name !in thresholds then Refused(ThresholdUnresolved)
    else if a.expected.Lit? && a.expected.value.Float? then Refused(FloatRejected)
    else if a.fact !in facts then Holds(false)
    else if facts[a.fact].Float? then Refused(FloatRejected)
    else Compare(a.op, facts[a.fact], if a.expected.ThresholdRef? then Lit(I(thresholds[a.expected.name])) else a.expected)
  }

  function EvalAnyAtom(atoms: seq<Atom>, facts: Facts, thresholds: Thresholds): Outcome {
    if atoms == [] then Holds(false)
    else
      var first := EvalAtom(atoms[0], facts, thresholds);
      if first == Holds(false) then EvalAnyAtom(atoms[1..], facts, thresholds) else first
  }

  function EvalAll(nodes: seq<Node>, facts: Facts, thresholds: Thresholds): Outcome {
    if nodes == [] then Holds(true)
    else
      var first := Eval(nodes[0], facts, thresholds);
      if first == Holds(true) then EvalAll(nodes[1..], facts, thresholds) else first
  }

  function EvalAny(nodes: seq<Node>, facts: Facts, thresholds: Thresholds): Outcome {
    if nodes == [] then Holds(false)
    else
      var first := Eval(nodes[0], facts, thresholds);
      if first == Holds(false) then EvalAny(nodes[1..], facts, thresholds) else first
  }

  function Eval(node: Node, facts: Facts, thresholds: Thresholds): Outcome {
    match node
    case All(children) => EvalAll(children, facts, thresholds)
    case Any(children) => EvalAny(children, facts, thresholds)
    case AnyOf(atoms) => EvalAnyAtom(atoms, facts, thresholds)
    case Leaf(atom) => EvalAtom(atom, facts, thresholds)
  }

  /** A rule whose `conditions` list must hold throughout. */
  function EvaluateRule(conditions: seq<Node>, facts: Facts, thresholds: Thresholds): Outcome {
    EvalAll(conditions, facts, thresholds)
  }

  // ------------------------------------------------------------------ what the verdict depends on

  ghost predicate Mentions(node: Node, fact: string) {
    match node
    case All(children) => exists c :: c in children && Mentions(c, fact)
    case Any(children) => exists c :: c in children && Mentions(c, fact)
    case AnyOf(atoms) => exists a :: a in atoms && a.fact == fact
    case Leaf(atom) => atom.fact == fact
  }

  ghost predicate AgreeOn(node: Node, f: Facts, g: Facts) {
    forall k :: Mentions(node, k) ==> (k in f <==> k in g) && (k in f ==> f[k] == g[k])
  }

  ghost predicate AllAgree(nodes: seq<Node>, f: Facts, g: Facts) {
    forall i :: 0 <= i < |nodes| ==> AgreeOn(nodes[i], f, g)
  }

  /** The verdict, errors included, depends only on the facts the tree mentions. */
  lemma {:induction false} EvalIsLocal(node: Node, f: Facts, g: Facts, t: Thresholds)
    requires AgreeOn(node, f, g)
    ensures Eval(node, f, t) == Eval(node, g, t)
    decreases node, 0
  {
    match node
    case All(children) =>
      ChildrenAgree(node, children, f, g);
      AllIsLocal(children, f, g, t);
    case Any(children) =>
      ChildrenAgree(node, children, f, g);
      AnyIsLocal(children, f, g, t);
    case AnyOf(atoms) =>
      assert forall i :: 0 <= i < |atoms| ==> Mentions(node, atoms[i].fact) by {
        assert forall i :: 0 <= i < |atoms| ==> atoms[i] in atoms;
      }
      AnyAtomIsLocal(atoms, f, g, t);
    case Leaf(atom) =>
      assert Mentions(node, atom.fact);
  }

  lemma ChildrenAgree(node: Node, children: seq<Node>, f: Facts, g: Facts)
    requires (node.All? || node.Any?) && node.children == children && AgreeOn(node, f, g)
    ensures AllAgree(children, f, g)
  {
    forall i, k | 0 <= i < |children| && Mentions(children[i], k)
      ensures (k in f <==> k in g) && (k in f ==> f[k] == g[k])
    {
      assert children[i] in children;
      assert Mentions(node, k);
    }
  }

  lemma {:induction false} AllIsLocal(nodes: seq<Node>, f: Facts, g: Facts, t: Thresholds)
    requires AllAgree(nodes, f, g)
    ensures EvalAll(nodes, f, t) == EvalAll(nodes, g, t)
    decreases nodes, 1
  {
    if nodes != [] {
      EvalIsLocal(nodes[0], f, g, t);
      AllIsLocal(nodes[1..], f, g, t);
    }
  }

  lemma {:induction false} AnyIsLocal(nodes: seq<Node>, f: Facts, g: Facts, t: Thresholds)
    requires AllAgree(nodes, f, g)
    ensures EvalAny(nodes, f, t) == EvalAny(nodes, g, t)
    decreases nodes, 1
  {
    if nodes != [] {
      EvalIsLocal(nodes[0], f, g, t);
      AnyIsLocal(nodes[1..], f, g, t);
    }
  }

  lemma {:induction false} AnyAtomIsLocal(atoms: seq<Atom>, f: Facts, g: Facts, t: Thresholds)
    requires forall i :: 0 <= i < |atoms| ==>
               (atoms[i].fact in f <==> atoms[i].fact in g) && (atoms[i].fact in f ==> f[atoms[i].fact] == g[atoms[i].fact])
    ensures EvalAnyAtom(atoms, f, t) == EvalAnyAtom(atoms, g, t)
    decreases |atoms|
  {
    if atoms != [] {
      AnyAtomIsLocal(atoms[1..], f, g, t);
    }
  }

  // An empty `all` holds of anything; it is the only way a tree can hold without facts.
  ghost predicate NoEmptyAll(node: Node) {
    match node
    case All(children) => children != [] && forall c :: c in children ==> NoEmptyAll(c)
    case Any(children) => forall c :: c in children ==> NoEmptyAll(c)
    case _ => true
  }

  /** Refusal first: with no facts, no tree free of empty `all` nodes is satisfied. */
  lemma {:induction false} NothingHoldsWithoutFacts(node: Node, t: Thresholds)
    requires NoEmptyAll(node)
    ensures Eval(node, map[], t) != Holds(true)
    decreases node, 0
  {
    match node
    case All(children) =>
      assert children[0] in children;
      NothingHoldsWithoutFacts(children[0], t);
    case Any(children) => NoneHoldsWithoutFacts(children, t);
    case AnyOf(atoms) => NoAtomHoldsWithoutFacts(atoms, t);
    case Leaf(atom) =>
  }

  lemma {:induction false} NoneHoldsWithoutFacts(nodes: seq<Node>, t: Thresholds)
    requires forall c :: c in nodes ==> NoEmptyAll(c)
    ensures EvalAny(nodes, map[], t) != Holds(true)
    decreases nodes, 1
  {
    if nodes != [] {
      assert nodes[0] in nodes;
      NothingHoldsWithoutFacts(nodes[0], t);
      NoneHoldsWithoutFacts(nodes[1..], t);
    }
  }

  lemma {:induction false} NoAtomHoldsWithoutFacts(atoms: seq<Atom>, t: Thresholds)
    ensures EvalAnyAtom(atoms, map[], t) != Holds(true)
    decreases |atoms|
  {
    if atoms != [] {
      NoAtomHoldsWithoutFacts(atoms[1..], t);
    }
  }

  // ------------------------------------------------------------------ the two seed rules the monitor hand-codes

  // ------------------------------------------------------------------ what the operators mean

  /** Integers compare as integers. */
  lemma IntegersCompare(m: int, n: int)
    ensures Compare(Eq, I(m), Lit(I(n))) == Holds(m == n) && Compare(Ne, I(m), Lit(I(n))) == Holds(m != n)
    ensures Compare(Gt, I(m), Lit(I(n))) == Holds(m > n) && Compare(Ge, I(m), Lit(I(n))) == Holds(m >= n)
    ensures Compare(Lt, I(m), Lit(I(n))) == Holds(m < n) && Compare(Le, I(m), Lit(I(n))) == Holds(m <= n)
    ensures Compare(In, I(m), Lit(I(n))) == Refused(TypeMismatch)
  {
  }

  /** Truth values compare as one and zero. */
  lemma TruthIsOneOrZero(op: Operator, b: bool, v: Value)
    requires v.I? || v.B?
    ensures Compare(op, B(b), Lit(v)) == Compare(op, I(if b then 1 else 0), Lit(v))
    ensures Compare(op, v, Lit(B(b))) == Compare(op, v, Lit(I(if b then 1 else 0)))
  {
  }

  /** Texts compare as Python compares them, one way or the other or equal. */
  lemma TextsCompare(a: string, b: string)
    ensures Compare(Eq, S(a), Lit(S(b))) == Holds(a == b) && Compare(Ne, S(a), Lit(S(b))) == Holds(a != b)
    ensures Compare(Lt, S(a), Lit(S(b))) == Holds(StringLess(a, b)) && Compare(Gt, S(a), Lit(S(b))) == Holds(StringLess(b, a))
    ensures Compare(Le, S(a), Lit(S(b))) == Holds(!StringLess(b, a)) && Compare(Ge, S(a), Lit(S(b))) == Holds(!StringLess(a, b))
  {
    OneOfThree(a, b);
  }

  lemma OneOfThree(a: string, b: string)
    ensures a == b ==> !StringLess(a, b) && !StringLess(b, a)
    ensures a != b ==> (StringLess(a, b) <==> !StringLess(b, a))
  {
    StringLessIrreflexive(a);
    if a != b {
      StringLessConnected(a, b);
      if StringLess(a, b) {
        StringLessIsOneWay(a, b);
      }
    }
  }

  predicate OccursAt(a: string, b: string, i: int) {
    0 <= i && i + |a| <= |b| && b[i..i + |a|] == a
  }

  /** `in` looks for a piece of the text. */
  lemma InLooksForAPiece(a: string, b: string)
    ensures Compare(In, S(a), Lit(S(b))) == Holds(exists i :: OccursAt(a, b, i))
  {
    SubstringMeans(a, b);
  }

  lemma {:induction false} SubstringMeans(a: string, b: string)
    ensures Substring(a, b) <==> exists i :: OccursAt(a, b, i)
    decreases |b|
  {
    if |a| <= |b| && b[..|a|] == a {
      assert OccursAt(a, b, 0);
    } else if b != [] {
      SubstringMeans(a, b[1..]);
      forall i ensures OccursAt(a, b[1..], i) <==> i >= 0 && OccursAt(a, b, i + 1) {
        OccursLater(a, b, i);
      }
      assert !OccursAt(a, b, 0);
      if i :| OccursAt(a, b, i) {
        assert OccursAt(a, b[1..], i - 1);
      }
    }
  }

  lemma OccursLater(a: string, b: string, i: int)
    requires b != []
    ensures OccursAt(a, b[1..], i) <==> i >= 0 && OccursAt(a, b, i + 1)
  {
    if 0 <= i && i + 1 + |a| <= |b| {
      assert b[1..][i..i + |a|] == b[i + 1..i + 1 + |a|];
    }
  }

  /** A text and a number are never equal and cannot be ordered. */
  lemma KindsDoNotMix(a: Value, v: Value, op: Operator)
    requires (a.S? && (v.I? || v.B?)) || (v.S? && (a.I? || a.B?))
    ensures Compare(Eq, a, Lit(v)) == Holds(false) && Compare(Ne, a, Lit(v)) == Holds(true)
    ensures op == Gt || op == Ge || op == Lt || op == Le || op == In ==> Compare(op, a, Lit(v)) == Refused(TypeMismatch)
  {
  }

  /** A list holds what equals one of its items; it equals nothing and cannot be ordered. */
  lemma ListsOnlyHold(a: Value, values: seq<Value>, op: Operator)
    ensures Compare(In, a, OneOf(values)) == Holds(exists i :: 0 <= i < |values| && Compare(Eq, a, Lit(values[i])) == Holds(true))
    ensures Compare(Eq, a, OneOf(values)) == Holds(false) && Compare(Ne, a, OneOf(values)) == Holds(true)
    ensures op == Gt || op == Ge || op == Lt || op == Le ==> Compare(op, a, OneOf(values)) == Refused(TypeMismatch)
  {
    assert forall i :: 0 <= i < |values| ==> (Compare(Eq, a, Lit(values[i])) == Holds(true) <==> Equal(a, values[i]));
  }

  /** A condition is refused for a threshold nobody resolved or a float in the rule, before its fact is looked for; a fact that is
      missing makes it false; a float among the facts or an operator nobody knows refuses it. */
  lemma ConditionsSay(a: Atom, facts: Facts, t: Thresholds)
    ensures EvalAtom(a, facts, t) == Refused(ThresholdUnresolved) <==> a.expected.ThresholdRef? && a.expected.name !in t
    ensures a.expected.Lit? && a.expected.value.Float? ==> EvalAtom(a, facts, t) == Refused(FloatRejected)
    ensures !(a.expected.ThresholdRef? && a.expected.name !in t) && !(a.expected.Lit? && a.expected.value.Float?) ==>
              && (a.fact !in facts ==> EvalAtom(a, facts, t) == Holds(false))
              && (a.fact in facts && facts[a.fact].Float? ==> EvalAtom(a, facts, t) == Refused(FloatRejected))
              && (a.fact in facts && !facts[a.fact].Float? && a.op == Unrecognised ==> EvalAtom(a, facts, t) == Refused(UnknownOperator))
              && (a.fact in facts && !facts[a.fact].Float? && a.expected.ThresholdRef? ==>
                    EvalAtom(a, facts, t) == Compare(a.op, facts[a.fact], Lit(I(t[a.expected.name]))))
              && (a.fact in facts && !facts[a.fact].Float? && !a.expected.ThresholdRef? ==>
                    EvalAtom(a, facts, t) == Compare(a.op, facts[a.fact], a.expected))
  {
  }

  /** `first` is the outcome of the first of these nodes that does not come out as `skip`; None when all do. */
  ghost predicate FirstOther(nodes: seq<Node>, facts: Facts, t: Thresholds, skip: Outcome, i: nat) {
    i <= |nodes| && (forall j :: 0 <= j < i ==> Eval(nodes[j], facts, t) == skip) && (i < |nodes| ==> Eval(nodes[i], facts, t) != skip)
  }

  /** A conjunction holds exactly when every part does, and otherwise comes out as the first part that does not: false, or
      refused. */
  lemma {:induction false} AllMeans(nodes: seq<Node>, facts: Facts, t: Thresholds) returns (i: nat)
    ensures FirstOther(nodes, facts, t, Holds(true), i)
    ensures EvalAll(nodes, facts, t) == if i == |nodes| then Holds(true) else Eval(nodes[i], facts, t)
    decreases |nodes|
  {
    if nodes == [] || Eval(nodes[0], facts, t) != Holds(true) {
      i := 0;
    } else {
      var k := AllMeans(nodes[1..], facts, t);
      i := k + 1;
      assert forall j :: 1 <= j < |nodes| ==> nodes[j] == nodes[1..][j - 1];
    }
  }

  /** A disjunction is false exactly when every part is, and otherwise comes out as the first part that is not: true, or
      refused. */
  lemma {:induction false} AnyMeans(nodes: seq<Node>, facts: Facts, t: Thresholds) returns (i: nat)
    ensures FirstOther(nodes, facts, t, Holds(false), i)
    ensures EvalAny(nodes, facts, t) == if i == |nodes| then Holds(false) else Eval(nodes[i], facts, t)
    decreases |nodes|
  {
    if nodes == [] || Eval(nodes[0], facts, t) != Holds(false) {
      i := 0;
    } else {
      var k := AnyMeans(nodes[1..], facts, t);
      i := k + 1;
      assert forall j :: 1 <= j < |nodes| ==> nodes[j] == nodes[1..][j - 1];
    }
  }

  function Leaves(atoms: seq<Atom>): seq<Node> {
    seq(|atoms|, i requires 0 <= i < |atoms| => Leaf(atoms[i]))
  }

  /** The trees of a rule: each kind of node means what its children mean, and a rule is the conjunction of its conditions. */
  lemma {:induction false} TreesMean(children: seq<Node>, atoms: seq<Atom>, facts: Facts, t: Thresholds)
    ensures Eval(All(children), facts, t) == EvalAll(children, facts, t) == EvaluateRule(children, facts, t)
    ensures Eval(Any(children), facts, t) == EvalAny(children, facts, t)
    ensures Eval(AnyOf(atoms), facts, t) == EvalAny(Leaves(atoms), facts, t)
    decreases |atoms|
  {
    if atoms != [] {
      TreesMean(children, atoms[1..], facts, t);
      assert Leaves(atoms)[1..] == Leaves(atoms[1..]);
      assert Eval(AnyOf(atoms[1..]), facts, t) == EvalAnyAtom(atoms[1..], facts, t);
    }
  }

  // ------------------------------------------------------------------ the two window rules

  /** `rule_structuring_detection_3day` with its signed parameters. */
  function StructuringRule(minCount: int, aggregate: int): seq<Node> {
    [Leaf(Atom("txn_count_72h_below_threshold", Ge, Lit(I(minCount)))),
     Leaf(Atom("txn_sum_72h_minor", Ge, Lit(I(aggregate)))),
     Leaf(Atom("max_single_txn_72h_minor", Lt, Lit(I(aggregate))))]
  }

  /** `rule_velocity_24h_spike`: its limits come from the thresholds artifact. */
  function VelocityRule(): seq<Node> {
    [AnyOf([Atom("txn_count_24h", Ge, ThresholdRef("VELOCITY_24H_COUNT_THRESHOLD")),
            Atom("txn_sum_24h_minor", Ge, ThresholdRef("VELOCITY_24H_AMOUNT_THRESHOLD_MINOR"))])]
  }

  function StructuringFacts(count: int, sum: int, max: int): Facts {
    map["txn_count_72h_below_threshold" := I(count), "txn_sum_72h_minor" := I(sum), "max_single_txn_72h_minor" := I(max)]
  }

  lemma StructuringRuleMeans(minCount: int, aggregate: int, count: int, sum: int, max: int, t: Thresholds)
    ensures EvaluateRule(StructuringRule(minCount, aggregate), StructuringFacts(count, sum, max), t) ==
            Holds(count >= minCount && sum >= aggregate && max < aggregate)
  {
    var facts := StructuringFacts(count, sum, max);
    assert "txn_count_72h_below_threshold"[4] != "txn_sum_72h_minor"[4];
    assert "max_single_txn_72h_minor"[0] != "txn_sum_72h_minor"[0];
    var r := StructuringRule(minCount, aggregate);
    assert Eval(r[0], facts, t) == Holds(count >= minCount);
    assert Eval(r[1], facts, t) == Holds(sum >= aggregate);
    assert Eval(r[2], facts, t) == Holds(max < aggregate);
    assert r[1..][0] == r[1] && r[1..][1..] == [r[2]] && [r[2]][1..] == [];
    assert EvalAll([r[2]], facts, t) == Holds(max < aggregate);
    assert EvalAll(r[1..], facts, t) == Holds(sum >= aggregate && max < aggregate);
  }

  function VelocityFacts(count: int, sum: int): Facts {
    map["txn_count_24h" := I(count), "txn_sum_24h_minor" := I(sum)]
  }

  function VelocityThresholds(countLimit: int, sumLimit: int): Thresholds {
    map["VELOCITY_24H_COUNT_THRESHOLD" := countLimit, "VELOCITY_24H_AMOUNT_THRESHOLD_MINOR" := sumLimit]
  }

  lemma VelocityRuleMeans(count: int, sum: int, countLimit: int, sumLimit: int)
    ensures EvaluateRule(VelocityRule(), VelocityFacts(count, sum), VelocityThresholds(countLimit, sumLimit)) ==
            Holds(count >= countLimit || sum >= sumLimit)
  {
    var facts, t := VelocityFacts(count, sum), VelocityThresholds(countLimit, sumLimit);
    assert "VELOCITY_24H_COUNT_THRESHOLD"[13] != "VELOCITY_24H_AMOUNT_THRESHOLD_MINOR"[13];
    assert "txn_count_24h"[4] != "txn_sum_24h_minor"[4];
    var atoms := VelocityRule()[0].atoms;
    assert EvalAtom(atoms[0], facts, t) == Holds(count >= countLimit);
    assert EvalAtom(atoms[1], facts, t) == Holds(sum >= sumLimit);
    assert atoms[1..] == [atoms[1]] && [atoms[1]][1..] == [];
    assert EvalAnyAtom([atoms[1]], facts, t) == Holds(sum >= sumLimit);
    var r := VelocityRule();
    assert r == [r[0]] && r[1..] == [];
    assert EvalAll(r[1..], facts, t) == Holds(true);
    assert Eval(r[0], facts, t) == Holds(count >= countLimit || sum >= sumLimit);
  }
}

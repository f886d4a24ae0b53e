/**
 Transfer builders of the certification battery (bdpay/connectors/certification_pso.py): the greedy reconstruction of a
 transfer set from net positions, the Net Debit Cap derived from them, and the seeded demo transfers.
 */
module Netting {
  import opened Common
  import opened Ordering

  datatype Transfer = Transfer(payer: string, payee: string, amount: int, sequence: nat)

  datatype Outcome = NotZeroSum | OneSided | Built(transfers: seq<Transfer>)

  datatype Side = Side(id: string, amount: int)

  // ------------------------------------------------------------------ positions

  function SumOver(positions: map<string, int>, ids: seq<string>): int
    requires forall i :: 0 <= i < |ids| ==> ids[i] in positions
    decreases |ids|
  {
    if ids == [] then 0 else SumOver(positions, ids[..|ids| - 1]) + positions[ids[|ids| - 1]]
  }

  function Ids(positions: map<string, int>): (ids: seq<string>)
    ensures forall i :: 0 <= i < |ids| ==> ids[i] in positions
    ensures forall i, j :: 0 <= i < j < |ids| ==> ids[i] != ids[j]
    ensures forall id :: id in positions ==> id in ids
  {
    var ids := SortedStrings(positions.Keys);
    assert forall i :: 0 <= i < |ids| ==> ids[i] in Elements(ids);
    assert forall id :: id in positions ==> id in Elements(ids);
    StringLessIsStrictTotal();
    ids
  }

  function Total(positions: map<string, int>): int {
    SumOver(positions, Ids(positions))
  }

  /** The net a participant should end with; 0 when absent. */
  function NetOf(positions: map<string, int>, id: string): int {
    if id in positions then positions[id] else 0
  }

  // ------------------------------------------------------------------ what a transfer list does

  function Effect(t: Transfer, id: string): int {
    (if t.payee == id then t.amount else 0) - (if t.payer == id then t.amount else 0)
  }

  /** Received minus paid. */
  function Net(ts: seq<Transfer>, id: string): int
    decreases |ts|
  {
    if ts == [] then 0 else Net(ts[..|ts| - 1], id) + Effect(ts[|ts| - 1], id)
  }

  lemma NetAppend(ts: seq<Transfer>, t: Transfer, id: string)
    ensures Net(ts + [t], id) == Net(ts, id) + Effect(t, id)
  {
    assert (ts + [t])[..|ts|] == ts;
  }

  /** Between zero and the target, on the target's side. */
  predicate Within(x: int, target: int) {
    0 <= x <= target || target <= x <= 0
  }

  ghost predicate NeverOvershoots(ts: seq<Transfer>, positions: map<string, int>) {
    forall k, id :: 0 <= k <= |ts| ==> Within(Net(ts[..k], id), NetOf(positions, id))
  }

  // ------------------------------------------------------------------ the two sides

  /** What a participant owes (paying side) or is owed; not positive when it is not on that side. */
  function Owed(positions: map<string, int>, id: string, pays: bool): int {
    if pays then -NetOf(positions, id) else NetOf(positions, id)
  }

  /** The debtors (`pays`) with what they owe, or the creditors with what they are owed, in the order of `ids`. */
  function SideOf(positions: map<string, int>, ids: seq<string>, pays: bool): seq<Side>
    decreases |ids|
  {
    if ids == [] then []
    else
      var rest := SideOf(positions, ids[..|ids| - 1], pays);
      var id := ids[|ids| - 1];
      if Owed(positions, id, pays) > 0 then rest + [Side(id, Owed(positions, id, pays))] else rest
  }

  predicate Listed(s: seq<Side>, id: string) {
    exists i :: 0 <= i < |s| && s[i].id == id
  }

  lemma ListedAppend(s: seq<Side>, e: Side, id: string)
    ensures Listed(s + [e], id) <==> Listed(s, id) || e.id == id
  {
    if i :| 0 <= i < |s| && s[i].id == id {
      assert (s + [e])[i].id == id;
    }
    assert (s + [e])[|s|] == e;
  }

  /** A side lists, once each, exactly the ids with something owed. */
  ghost predicate GoodSide(positions: map<string, int>, ids: seq<string>, s: seq<Side>, pays: bool) {
    && (forall i :: 0 <= i < |s| ==> s[i].amount == Owed(positions, s[i].id, pays) > 0)
    && (forall i, j :: 0 <= i < j < |s| ==> s[i].id != s[j].id)
    && (forall id :: Listed(s, id) <==> id in ids && Owed(positions, id, pays) > 0)
  }

  lemma {:induction false} SideLists(positions: map<string, int>, ids: seq<string>, pays: bool)
    requires forall i, j :: 0 <= i < j < |ids| ==> ids[i] != ids[j]
    ensures GoodSide(positions, ids, SideOf(positions, ids, pays), pays)
    decreases |ids|
  {
    if ids != [] {
      var p := ids[..|ids| - 1];
      var id := ids[|ids| - 1];
      SideLists(positions, p, pays);
      var rest := SideOf(positions, p, pays);
      assert ids == p + [id];
      assert !Listed(rest, id);
      forall x ensures Listed(rest + [Side(id, Owed(positions, id, pays))], x) <==> Listed(rest, x) || x == id {
        ListedAppend(rest, Side(id, Owed(positions, id, pays)), x);
      }
      assert forall i :: 0 <= i < |rest| ==> Listed(rest, rest[i].id);
    }
  }

  function SideSum(s: seq<Side>): int
    decreases |s|
  {
    if s == [] then 0 else SideSum(s[..|s| - 1]) + s[|s| - 1].amount
  }

  lemma SideSumAppend(s: seq<Side>, e: Side)
    ensures SideSum(s + [e]) == SideSum(s) + e.amount
  {
    assert (s + [e])[..|s|] == s;
  }

  lemma {:induction false} SidesBalance(positions: map<string, int>, ids: seq<string>)
    requires forall i :: 0 <= i < |ids| ==> ids[i] in positions
    ensures SumOver(positions, ids) == SideSum(SideOf(positions, ids, false)) - SideSum(SideOf(positions, ids, true))
    decreases |ids|
  {
    if ids != [] {
      var p := ids[..|ids| - 1];
      SidesBalance(positions, p);
      var id := ids[|ids| - 1];
      SideSumAppend(SideOf(positions, p, true), Side(id, Owed(positions, id, true)));
      SideSumAppend(SideOf(positions, p, false), Side(id, Owed(positions, id, false)));
    }
  }

  lemma {:induction false} SideSumMonotone(s: seq<Side>, i: nat)
    requires i <= |s| && forall j :: 0 <= j < |s| ==> s[j].amount > 0
    ensures SideSum(s[..i]) <= SideSum(s) && (i < |s| ==> SideSum(s[..i]) < SideSum(s))
    decreases |s|
  {
    if i == |s| {
      assert s[..i] == s;
    } else {
      var p := s[..|s| - 1];
      SideSumMonotone(p, i);
      assert p[..i] == s[..i];
    }
  }

  lemma SideSumNext(s: seq<Side>, i: nat)
    requires i < |s|
    ensures SideSum(s[..i + 1]) == SideSum(s[..i]) + s[i].amount
  {
    assert s[..i + 1][..i] == s[..i];
  }

  // ------------------------------------------------------------------ the greedy loop

  /** Done so far on one side: the first `i` entries in full, entry `i` all but `left`. */
  predicate Progress(s: seq<Side>, i: nat, left: int) {
    && i <= |s|
    && (i < |s| ==> 0 < left <= s[i].amount)
    && (i == |s| ==> left == 0)
  }

  function Settled(s: seq<Side>, i: nat, left: int, j: nat): int
    requires j < |s|
  {
    if j < i then s[j].amount else if j == i then s[j].amount - left else 0
  }

  function SettledSum(s: seq<Side>, i: nat, left: int): int
    requires i <= |s|
  {
    SideSum(s[..i]) + (if i < |s| then s[i].amount - left else 0)
  }

  /** The nets produced so far are exactly what has been settled. */
  ghost predicate Books(ts: seq<Transfer>, debtors: seq<Side>, d: nat, dLeft: int,
                        creditors: seq<Side>, c: nat, cLeft: int)
  {
    && (forall j :: 0 <= j < |debtors| ==> Net(ts, debtors[j].id) == -Settled(debtors, d, dLeft, j))
    && (forall j :: 0 <= j < |creditors| ==> Net(ts, creditors[j].id) == Settled(creditors, c, cLeft, j))
    && (forall id :: !Listed(debtors, id) && !Listed(creditors, id) ==> Net(ts, id) == 0)
  }

  /** The two sides of a zero-sum position map. */
  ghost predicate Sides(positions: map<string, int>, debtors: seq<Side>, creditors: seq<Side>) {
    && (forall i, j :: 0 <= i < j < |debtors| ==> debtors[i].id != debtors[j].id)
    && (forall i, j :: 0 <= i < j < |creditors| ==> creditors[i].id != creditors[j].id)
    && (forall i, j :: 0 <= i < |debtors| && 0 <= j < |creditors| ==> debtors[i].id != creditors[j].id)
    && (forall i :: 0 <= i < |debtors| ==> debtors[i].amount == -NetOf(positions, debtors[i].id) > 0)
    && (forall i :: 0 <= i < |creditors| ==> creditors[i].amount == NetOf(positions, creditors[i].id) > 0)
    && (forall id :: !Listed(debtors, id) && !Listed(creditors, id) ==> NetOf(positions, id) == 0)
    && SideSum(creditors) == SideSum(debtors)
  }

  lemma GoodSidesAreSides(positions: map<string, int>, ids: seq<string>, debtors: seq<Side>, creditors: seq<Side>)
    requires GoodSide(positions, ids, debtors, true) && GoodSide(positions, ids, creditors, false)
    requires forall id :: id in positions ==> id in ids
    requires SideSum(creditors) == SideSum(debtors)
    ensures Sides(positions, debtors, creditors)
  {
  }

  lemma SidesHold(positions: map<string, int>)
    requires Total(positions) == 0
    ensures Sides(positions, SideOf(positions, Ids(positions), true), SideOf(positions, Ids(positions), false))
  {
    var ids := Ids(positions);
    SidesBalance(positions, ids);
    SidesFrom(positions, ids);
  }

  lemma SidesFrom(positions: map<string, int>, ids: seq<string>)
    requires forall i, j :: 0 <= i < j < |ids| ==> ids[i] != ids[j]
    requires forall id :: id in positions ==> id in ids
    requires SideSum(SideOf(positions, ids, false)) == SideSum(SideOf(positions, ids, true))
    ensures Sides(positions, SideOf(positions, ids, true), SideOf(positions, ids, false))
  {
    SideLists(positions, ids, true);
    SideLists(positions, ids, false);
    GoodSidesAreSides(positions, ids, SideOf(positions, ids, true), SideOf(positions, ids, false));
  }

  /** One transfer of the loop, on the books. */
  lemma TransferOnTheBooks(positions: map<string, int>, ts: seq<Transfer>, debtors: seq<Side>, d: nat, dLeft: int,
                           creditors: seq<Side>, c: nat, cLeft: int, t: Transfer)
    requires d < |debtors| && c < |creditors|
    requires Sides(positions, debtors, creditors)
    requires Books(ts, debtors, d, dLeft, creditors, c, cLeft)
    requires t.payer == debtors[d].id && t.payee == creditors[c].id
    ensures Books(ts + [t], debtors, d, dLeft - t.amount, creditors, c, cLeft - t.amount)
  {
    forall id ensures Net(ts + [t], id) == Net(ts, id) + Effect(t, id) {
      NetAppend(ts, t, id);
    }
  }

  lemma BooksAreWithin(ts: seq<Transfer>, positions: map<string, int>, debtors: seq<Side>, d: nat, dLeft: int,
                       creditors: seq<Side>, c: nat, cLeft: int, id: string)
    requires Sides(positions, debtors, creditors)
    requires 0 <= d <= |debtors| && 0 <= c <= |creditors|
    requires d < |debtors| ==> 0 <= dLeft <= debtors[d].amount
    requires c < |creditors| ==> 0 <= cLeft <= creditors[c].amount
    requires Books(ts, debtors, d, dLeft, creditors, c, cLeft)
    ensures Within(Net(ts, id), NetOf(positions, id))
  {
    if Listed(debtors, id) {
      var j :| 0 <= j < |debtors| && debtors[j].id == id;
      assert Net(ts, debtors[j].id) == -Settled(debtors, d, dLeft, j);
    } else if Listed(creditors, id) {
      var j :| 0 <= j < |creditors| && creditors[j].id == id;
      assert Net(ts, creditors[j].id) == Settled(creditors, c, cLeft, j);
    }
  }

  lemma MoveOn(ts: seq<Transfer>, debtors: seq<Side>, d: nat, dLeft: int, d1: nat, dLeft1: int,
               creditors: seq<Side>, c: nat, cLeft: int, c1: nat, cLeft1: int)
    requires d < |debtors| && c < |creditors|
    requires Books(ts, debtors, d, dLeft, creditors, c, cLeft)
    requires d1 == (if dLeft == 0 then d + 1 else d) && c1 == (if cLeft == 0 then c + 1 else c)
    requires dLeft1 == (if dLeft != 0 then dLeft else if d1 < |debtors| then debtors[d1].amount else 0)
    requires cLeft1 == (if cLeft != 0 then cLeft else if c1 < |creditors| then creditors[c1].amount else 0)
    ensures Books(ts, debtors, d1, dLeft1, creditors, c1, cLeft1)
    ensures SettledSum(debtors, d1, dLeft1) == SettledSum(debtors, d, dLeft)
    ensures SettledSum(creditors, c1, cLeft1) == SettledSum(creditors, c, cLeft)
  {
    SideSumNext(debtors, d);
    SideSumNext(creditors, c);
    forall j | 0 <= j < |debtors| ensures Settled(debtors, d1, dLeft1, j) == Settled(debtors, d, dLeft, j) {
    }
    forall j | 0 <= j < |creditors| ensures Settled(creditors, c1, cLeft1, j) == Settled(creditors, c, cLeft, j) {
    }
  }

  /** When one side is exhausted and both settled the same amount of equal totals, so is the other. */
  lemma ExhaustedTogether(debtors: seq<Side>, d: nat, dLeft: int, creditors: seq<Side>, c: nat, cLeft: int)
    requires Progress(debtors, d, dLeft) && Progress(creditors, c, cLeft)
    requires forall j :: 0 <= j < |debtors| ==> debtors[j].amount > 0
    requires forall j :: 0 <= j < |creditors| ==> creditors[j].amount > 0
    requires SideSum(debtors) == SideSum(creditors)
    requires SettledSum(debtors, d, dLeft) == SettledSum(creditors, c, cLeft)
    ensures d == |debtors| <==> c == |creditors|
  {
    if d < |debtors| {
      SideSumNext(debtors, d);
      SideSumMonotone(debtors, d + 1);
    } else {
      assert debtors[..d] == debtors;
    }
    if c < |creditors| {
      SideSumNext(creditors, c);
      SideSumMonotone(creditors, c + 1);
    } else {
      assert creditors[..c] == creditors;
    }
  }

  /** The matching of two sides: the first debtor pays the first creditor the smaller of what the two have left. */
  function Greedy(debtors: seq<Side>, creditors: seq<Side>, sequence: nat): seq<Transfer>
    decreases |debtors| + |creditors|
  {
    if debtors == [] || creditors == [] then []
    else
      var amount := Min(debtors[0].amount, creditors[0].amount);
      [Transfer(debtors[0].id, creditors[0].id, amount, sequence)] +
      Greedy(Less(debtors, amount), Less(creditors, amount), sequence + 1)
  }

  /** A side after its first entry has settled `amount`. */
  function Less(s: seq<Side>, amount: int): seq<Side>
    requires s != []
  {
    if s[0].amount == amount then s[1..] else [Side(s[0].id, s[0].amount - amount)] + s[1..]
  }

  /** What is left of a side at entry `i`, of which `left` is still to settle. */
  function Left(s: seq<Side>, i: nat, left: int): seq<Side>
    requires i <= |s|
  {
    if i == |s| then [] else [Side(s[i].id, left)] + s[i + 1..]
  }

  /** A side's position after settling `amount` of what is left of its entry. */
  predicate Moves(s: seq<Side>, i: nat, left: int, amount: int, i1: nat, left1: int) {
    && i1 == (if left == amount then i + 1 else i)
    && left1 == if left != amount then left - amount else if i1 < |s| then s[i1].amount else 0
  }

  lemma LeftMoves(s: seq<Side>, i: nat, left: int, amount: int, i1: nat, left1: int)
    requires i < |s| && Moves(s, i, left, amount, i1, left1)
    ensures i1 <= |s| && Less(Left(s, i, left), amount) == Left(s, i1, left1)
  {
    assert Left(s, i, left)[1..] == s[i + 1..];
    if left == amount && i + 1 < |s| {
      assert s[i + 1..] == [Side(s[i + 1].id, s[i + 1].amount)] + s[i + 2..];
    }
  }

  lemma GreedyHead(debtors: seq<Side>, creditors: seq<Side>, sequence: nat, amount: int)
    requires debtors != [] && creditors != [] && amount == Min(debtors[0].amount, creditors[0].amount)
    ensures Greedy(debtors, creditors, sequence) ==
            [Transfer(debtors[0].id, creditors[0].id, amount, sequence)] +
            Greedy(Less(debtors, amount), Less(creditors, amount), sequence + 1)
  {
  }

  /** The transfers so far are a beginning of the matching `goal`, and the rest of it starts from here. */
  ghost predicate OnCourse(goal: seq<Transfer>, ts: seq<Transfer>, debtors: seq<Side>, d: nat, dLeft: int,
                           creditors: seq<Side>, c: nat, cLeft: int)
  {
    d <= |debtors| && c <= |creditors| && goal == ts + Greedy(Left(debtors, d, dLeft), Left(creditors, c, cLeft), |ts|)
  }

  lemma TakeTransfer(goal: seq<Transfer>, ts: seq<Transfer>, debtors: seq<Side>, creditors: seq<Side>, t: Transfer)
    requires debtors != [] && creditors != [] && goal == ts + Greedy(debtors, creditors, |ts|)
    requires t == Transfer(debtors[0].id, creditors[0].id, Min(debtors[0].amount, creditors[0].amount), |ts|)
    ensures goal == ts + [t] + Greedy(Less(debtors, t.amount), Less(creditors, t.amount), |ts + [t]|)
  {
    GreedyHead(debtors, creditors, |ts|, t.amount);
    Regroup(ts, [t], Greedy(Less(debtors, t.amount), Less(creditors, t.amount), |ts| + 1));
  }

  /** One turn of the loop takes the next transfer of the matching. */
  lemma GreedyTurn(goal: seq<Transfer>, ts: seq<Transfer>, debtors: seq<Side>, d: nat, dLeft: int, creditors: seq<Side>,
                   c: nat, cLeft: int, t: Transfer, d1: nat, dLeft1: int, c1: nat, cLeft1: int)
    requires d < |debtors| && c < |creditors| && OnCourse(goal, ts, debtors, d, dLeft, creditors, c, cLeft)
    requires t == Transfer(debtors[d].id, creditors[c].id, Min(dLeft, cLeft), |ts|)
    requires Moves(debtors, d, dLeft, t.amount, d1, dLeft1) && Moves(creditors, c, cLeft, t.amount, c1, cLeft1)
    ensures OnCourse(goal, ts + [t], debtors, d1, dLeft1, creditors, c1, cLeft1)
  {
    LeftMoves(debtors, d, dLeft, t.amount, d1, dLeft1);
    LeftMoves(creditors, c, cLeft, t.amount, c1, cLeft1);
    TakeTransfer(goal, ts, Left(debtors, d, dLeft), Left(creditors, c, cLeft), t);
  }

  lemma CourseStarts(debtors: seq<Side>, creditors: seq<Side>)
    requires debtors != [] && creditors != []
    ensures OnCourse(Greedy(debtors, creditors, 0), [], debtors, 0, debtors[0].amount, creditors, 0, creditors[0].amount)
  {
    assert Left(debtors, 0, debtors[0].amount) == debtors && Left(creditors, 0, creditors[0].amount) == creditors;
    assert [] + Greedy(debtors, creditors, 0) == Greedy(debtors, creditors, 0);
  }

  lemma CourseEnds(goal: seq<Transfer>, ts: seq<Transfer>, debtors: seq<Side>, d: nat, dLeft: int, creditors: seq<Side>,
                   c: nat, cLeft: int)
    requires OnCourse(goal, ts, debtors, d, dLeft, creditors, c, cLeft) && (d == |debtors| || c == |creditors|)
    ensures ts == goal
  {
    assert ts + [] == ts;
  }

  /** Greedy debtor-to-creditor matching in id order: fails exactly when the positions are not zero-sum or have no payer
      and payee; otherwise both sides are exhausted together and the transfers reproduce every net exactly, never carry a
      participant past its final net on any prefix, and number at most debtors + creditors - 1. */
  method FixtureTransfers(positions: map<string, int>) returns (out: Outcome)
    ensures out == NotZeroSum <==> Total(positions) != 0
    ensures out == OneSided <==> Total(positions) == 0 && forall id :: id in positions ==> positions[id] == 0
    ensures out.Built? ==>
              var ts := out.transfers;
              && (forall id :: Net(ts, id) == NetOf(positions, id))
              && NeverOvershoots(ts, positions)
              && (forall i :: 0 <= i < |ts| ==> ts[i].amount > 0 && ts[i].payer != ts[i].payee && ts[i].sequence == i)
              && |ts| <= |SideOf(positions, Ids(positions), true)| + |SideOf(positions, Ids(positions), false)| - 1
              && ts == Greedy(SideOf(positions, Ids(positions), true), SideOf(positions, Ids(positions), false), 0)
  {
    if Total(positions) != 0 {
      return NotZeroSum;
    }
    var ids := Ids(positions);
    var debtors := SideOf(positions, ids, true);
    var creditors := SideOf(positions, ids, false);
    SidesHold(positions);
    if debtors == [] || creditors == [] {
      NoSidesMeansFlat(positions, debtors, creditors);
      return OneSided;
    }
    assert NetOf(positions, debtors[0].id) < 0;
    var ts := Match(positions, debtors, creditors);
    return Built(ts);
  }

  /** The matching is not the shortest: for -2, -3, +3, +2 in id order it makes three transfers where two do. */
  lemma GreedyIsNotMinimal()
    ensures var positions := map["a" := -2, "b" := -3, "c" := 3, "d" := 2];
            var two := [Transfer("b", "c", 3, 0), Transfer("a", "d", 2, 1)];
            && |Greedy(SideOf(positions, Ids(positions), true), SideOf(positions, Ids(positions), false), 0)| == 3
            && Total(positions) == 0 && forall id :: Net(two, id) == NetOf(positions, id)
  {
    var positions := map["a" := -2, "b" := -3, "c" := 3, "d" := 2];
    FourIds(positions);
    FourSides(positions);
    ThreeTransfers();
    forall id {
      TwoDo(positions, id);
    }
  }

  lemma TwoDo(positions: map<string, int>, id: string)
    requires positions == map["a" := -2, "b" := -3, "c" := 3, "d" := 2]
    ensures Net([Transfer("b", "c", 3, 0), Transfer("a", "d", 2, 1)], id) == NetOf(positions, id)
  {
    var two := [Transfer("b", "c", 3, 0), Transfer("a", "d", 2, 1)];
    assert two[..1] == [Transfer("b", "c", 3, 0)] && two[..1][..0] == [];
    assert Net(two[..1][..0], id) == 0;
    assert Net(two[..1], id) == Effect(two[0], id);
  }

  lemma ThreeTransfers()
    ensures Greedy([Side("a", 2), Side("b", 3)], [Side("c", 3), Side("d", 2)], 0) ==
            [Transfer("a", "c", 2, 0), Transfer("b", "c", 1, 1), Transfer("b", "d", 2, 2)]
  {
    assert Less([Side("a", 2), Side("b", 3)], 2) == [Side("b", 3)];
    assert Less([Side("c", 3), Side("d", 2)], 2) == [Side("c", 1), Side("d", 2)];
    assert Less([Side("b", 3)], 1) == [Side("b", 2)];
    assert Less([Side("c", 1), Side("d", 2)], 1) == [Side("d", 2)];
    assert Less([Side("b", 2)], 2) == [] && Less([Side("d", 2)], 2) == [];
    assert Greedy([Side("b", 2)], [Side("d", 2)], 2) == [Transfer("b", "d", 2, 2)];
    assert Greedy([Side("b", 3)], [Side("c", 1), Side("d", 2)], 1) == [Transfer("b", "c", 1, 1), Transfer("b", "d", 2, 2)];
  }

  lemma FourIds(positions: map<string, int>)
    requires positions.Keys == {"a", "b", "c", "d"}
    ensures Ids(positions) == ["a", "b", "c", "d"]
  {
    StringLessIsStrictTotal();
    var four := ["a", "b", "c", "d"];
    assert Elements(four) == {"a", "b", "c", "d"};
    assert Ascending(StringLess, four);
    AscendingIsUnique(StringLess, Ids(positions), four);
  }

  lemma FourSides(positions: map<string, int>)
    requires positions == map["a" := -2, "b" := -3, "c" := 3, "d" := 2]
    ensures SideOf(positions, ["a", "b", "c", "d"], true) == [Side("a", 2), Side("b", 3)]
    ensures SideOf(positions, ["a", "b", "c", "d"], false) == [Side("c", 3), Side("d", 2)]
    ensures SumOver(positions, ["a", "b", "c", "d"]) == 0
  {
    var four := ["a", "b", "c", "d"];
    assert four[..3] == ["a", "b", "c"] && ["a", "b", "c"][..2] == ["a", "b"] && ["a", "b"][..1] == ["a"] && ["a"][..0] == [];
    forall pays ensures SideOf(positions, [], pays) == [] {
    }
    assert SideOf(positions, ["a"], true) == [Side("a", 2)] && SideOf(positions, ["a"], false) == [];
    assert SideOf(positions, ["a", "b"], true) == [Side("a", 2), Side("b", 3)] && SideOf(positions, ["a", "b"], false) == [];
    assert SideOf(positions, ["a", "b", "c"], false) == [Side("c", 3)];
    assert SumOver(positions, ["a"]) == -2 && SumOver(positions, ["a", "b"]) == -5;
  }

  // ------------------------------------------------------------------ how few transfers can do

  /** The ids that pay (`pays`) or are paid. */
  function Parties(ts: seq<Transfer>, pays: bool): set<string>
    decreases |ts|
  {
    if ts == [] then {}
    else Parties(ts[..|ts| - 1], pays) + {if pays then ts[|ts| - 1].payer else ts[|ts| - 1].payee}
  }

  lemma {:induction false} PartiesAreFew(ts: seq<Transfer>, pays: bool)
    ensures |Parties(ts, pays)| <= |ts|
    decreases |ts|
  {
    if ts != [] {
      PartiesAreFew(ts[..|ts| - 1], pays);
    }
  }

  /** Who never pays owes nothing in the end, and who is never paid is owed nothing. */
  lemma {:induction false} OnlyPartiesMove(ts: seq<Transfer>, pays: bool, id: string)
    requires id !in Parties(ts, pays) && forall i :: 0 <= i < |ts| ==> ts[i].amount > 0
    ensures if pays then Net(ts, id) >= 0 else Net(ts, id) <= 0
    decreases |ts|
  {
    if ts != [] {
      OnlyPartiesMove(ts[..|ts| - 1], pays, id);
    }
  }

  function IdsOn(s: seq<Side>): set<string> {
    set i | 0 <= i < |s| :: s[i].id
  }

  lemma {:induction false} IdsOnCount(s: seq<Side>)
    requires forall i, j :: 0 <= i < j < |s| ==> s[i].id != s[j].id
    ensures |IdsOn(s)| == |s|
    decreases |s|
  {
    if s != [] {
      var p := s[..|s| - 1];
      IdsOnCount(p);
      IdsOnNext(s);
      assert s[|s| - 1].id !in IdsOn(p);
    }
  }

  lemma IdsOnNext(s: seq<Side>)
    requires s != []
    ensures IdsOn(s) == IdsOn(s[..|s| - 1]) + {s[|s| - 1].id}
  {
    var p := s[..|s| - 1];
    forall id | id in IdsOn(s) ensures id in IdsOn(p) + {s[|s| - 1].id} {
      var i :| 0 <= i < |s| && s[i].id == id;
      if i < |p| {
        assert p[i].id == id;
      }
    }
    forall id | id in IdsOn(p) ensures id in IdsOn(s) {
      var i :| 0 <= i < |p| && p[i].id == id;
      assert s[i].id == id;
    }
  }

  lemma SubsetIsSmaller(a: set<string>, b: set<string>)
    requires a <= b
    ensures |a| <= |b|
  {
    assert b == a + (b - a);
  }

  ghost predicate Reproduces(ts: seq<Transfer>, positions: map<string, int>) {
    (forall i :: 0 <= i < |ts| ==> ts[i].amount > 0) && forall id :: Net(ts, id) == NetOf(positions, id)
  }

  /** Every debtor pays at least once and every creditor is paid at least once: no list of positive transfers that reproduces
      the nets is shorter than the longer side. */
  lemma SettlingTakesTheLongerSide(positions: map<string, int>, ts: seq<Transfer>, pays: bool)
    requires Reproduces(ts, positions)
    ensures |ts| >= |SideOf(positions, Ids(positions), pays)|
  {
    var side := SideOf(positions, Ids(positions), pays);
    SideLists(positions, Ids(positions), pays);
    forall id | id in IdsOn(side) ensures id in Parties(ts, pays) {
      var i :| 0 <= i < |side| && side[i].id == id;
      assert Owed(positions, id, pays) > 0;
      if id !in Parties(ts, pays) {
        OnlyPartiesMove(ts, pays, id);
      }
    }
    SubsetIsSmaller(IdsOn(side), Parties(ts, pays));
    IdsOnCount(side);
    PartiesAreFew(ts, pays);
  }

  lemma {:induction false} GreedyIsShort(debtors: seq<Side>, creditors: seq<Side>, sequence: nat)
    requires debtors != [] && creditors != []
    ensures |Greedy(debtors, creditors, sequence)| <= |debtors| + |creditors| - 1
    decreases |debtors| + |creditors|
  {
    var amount := Min(debtors[0].amount, creditors[0].amount);
    GreedyHead(debtors, creditors, sequence, amount);
    if Less(debtors, amount) != [] && Less(creditors, amount) != [] {
      GreedyIsShort(Less(debtors, amount), Less(creditors, amount), sequence + 1);
    }
  }

  /** With a single debtor or a single creditor the matching is a shortest list that reproduces the nets. */
  lemma GreedyIsShortestForOne(positions: map<string, int>, ts: seq<Transfer>)
    requires Reproduces(ts, positions)
    requires |SideOf(positions, Ids(positions), true)| == 1 || |SideOf(positions, Ids(positions), false)| == 1
    ensures |Greedy(SideOf(positions, Ids(positions), true), SideOf(positions, Ids(positions), false), 0)| <= |ts|
  {
    var debtors, creditors := SideOf(positions, Ids(positions), true), SideOf(positions, Ids(positions), false);
    SettlingTakesTheLongerSide(positions, ts, true);
    SettlingTakesTheLongerSide(positions, ts, false);
    if debtors != [] && creditors != [] {
      GreedyIsShort(debtors, creditors, 0);
    }
  }

  lemma NoSidesMeansFlat(positions: map<string, int>, debtors: seq<Side>, creditors: seq<Side>)
    requires Sides(positions, debtors, creditors)
    requires debtors == [] || creditors == []
    ensures forall id :: id in positions ==> positions[id] == 0
  {
    SideSumMonotone(debtors, 0);
    SideSumMonotone(creditors, 0);
    assert debtors[..0] == [] && creditors[..0] == [];
    assert debtors == [] && creditors == [];
    forall id | id in positions ensures positions[id] == 0 {
      assert NetOf(positions, id) == 0;
    }
  }

  method Match(positions: map<string, int>, debtors: seq<Side>, creditors: seq<Side>) returns (ts: seq<Transfer>)
    requires Sides(positions, debtors, creditors) && debtors != [] && creditors != []
    ensures Reconstructs(positions, ts, |debtors| + |creditors| - 1) && ts == Greedy(debtors, creditors, 0)
  {
    ts := [];
    var d: nat, c: nat := 0, 0;
    var dLeft, cLeft := debtors[0].amount, creditors[0].amount;
    TurningStarts(positions, debtors, creditors);
    CourseStarts(debtors, creditors);
    while d < |debtors| && c < |creditors|
      invariant Turning(positions, ts, debtors, d, dLeft, creditors, c, cLeft)
      invariant OnCourse(Greedy(debtors, creditors, 0), ts, debtors, d, dLeft, creditors, c, cLeft)
      decreases |debtors| + |creditors| - d - c
    {
      var amount := Min(dLeft, cLeft);
      var t := Transfer(debtors[d].id, creditors[c].id, amount, |ts|);
      ghost var ts0, d0, dLeft0, c0, cLeft0 := ts, d, dLeft, c, cLeft;
      ts := ts + [t];
      dLeft := dLeft - amount;
      cLeft := cLeft - amount;
      if dLeft == 0 {
        d := d + 1;
        dLeft := if d < |debtors| then debtors[d].amount else 0;
      }
      if cLeft == 0 {
        c := c + 1;
        cLeft := if c < |creditors| then creditors[c].amount else 0;
      }
      Turn(positions, ts0, debtors, d0, dLeft0, creditors, c0, cLeft0, t, d, dLeft, c, cLeft);
      GreedyTurn(Greedy(debtors, creditors, 0), ts0, debtors, d0, dLeft0, creditors, c0, cLeft0, t, d, dLeft, c, cLeft);
    }
    MatchEnds(positions, ts, debtors, d, dLeft, creditors, c, cLeft);
  }

  lemma MatchEnds(positions: map<string, int>, ts: seq<Transfer>, debtors: seq<Side>, d: nat, dLeft: int,
                  creditors: seq<Side>, c: nat, cLeft: int)
    requires Sides(positions, debtors, creditors) && debtors != [] && creditors != [] && (d >= |debtors| || c >= |creditors|)
    requires Turning(positions, ts, debtors, d, dLeft, creditors, c, cLeft)
    requires OnCourse(Greedy(debtors, creditors, 0), ts, debtors, d, dLeft, creditors, c, cLeft)
    ensures Reconstructs(positions, ts, |debtors| + |creditors| - 1) && ts == Greedy(debtors, creditors, 0)
  {
    CourseEnds(Greedy(debtors, creditors, 0), ts, debtors, d, dLeft, creditors, c, cLeft);
    TurningEnds(positions, ts, debtors, d, dLeft, creditors, c, cLeft);
  }

  /** At most `limit` proper transfers that end on every net and never pass one. */
  ghost predicate Reconstructs(positions: map<string, int>, ts: seq<Transfer>, limit: nat) {
    (forall id :: Net(ts, id) == NetOf(positions, id)) && NeverOvershoots(ts, positions) && Proper(ts) && |ts| <= limit
  }

  ghost predicate Proper(ts: seq<Transfer>) {
    forall i :: 0 <= i < |ts| ==> ts[i].amount > 0 && ts[i].payer != ts[i].payee && ts[i].sequence == i
  }

  /** What each turn of the loop keeps. */
  ghost predicate Turning(positions: map<string, int>, ts: seq<Transfer>, debtors: seq<Side>, d: nat, dLeft: int,
                          creditors: seq<Side>, c: nat, cLeft: int)
  {
    && Progress(debtors, d, dLeft) && Progress(creditors, c, cLeft)
    && Books(ts, debtors, d, dLeft, creditors, c, cLeft)
    && SettledSum(debtors, d, dLeft) == SettledSum(creditors, c, cLeft)
    && NeverOvershoots(ts, positions) && Proper(ts)
    && |ts| <= d + c - (if d == |debtors| then 1 else 0)
  }

  lemma TurningStarts(positions: map<string, int>, debtors: seq<Side>, creditors: seq<Side>)
    requires Sides(positions, debtors, creditors) && debtors != [] && creditors != []
    ensures Turning(positions, [], debtors, 0, debtors[0].amount, creditors, 0, creditors[0].amount)
  {
    assert debtors[..0] == [] && creditors[..0] == [];
  }

  lemma Turn(positions: map<string, int>, ts: seq<Transfer>, debtors: seq<Side>, d: nat, dLeft: int,
             creditors: seq<Side>, c: nat, cLeft: int, t: Transfer, d1: nat, dLeft1: int, c1: nat, cLeft1: int)
    requires Sides(positions, debtors, creditors) && d < |debtors| && c < |creditors|
    requires Turning(positions, ts, debtors, d, dLeft, creditors, c, cLeft)
    requires t == Transfer(debtors[d].id, creditors[c].id, Min(dLeft, cLeft), |ts|)
    requires d1 == (if dLeft == t.amount then d + 1 else d) && c1 == (if cLeft == t.amount then c + 1 else c)
    requires dLeft1 == if dLeft != t.amount then dLeft - t.amount else if d1 < |debtors| then debtors[d1].amount else 0
    requires cLeft1 == if cLeft != t.amount then cLeft - t.amount else if c1 < |creditors| then creditors[c1].amount else 0
    ensures Turning(positions, ts + [t], debtors, d1, dLeft1, creditors, c1, cLeft1)
  {
    var dl, cl := dLeft - t.amount, cLeft - t.amount;
    assert Books(ts + [t], debtors, d, dl, creditors, c, cl) by {
      TransferOnTheBooks(positions, ts, debtors, d, dLeft, creditors, c, cLeft, t);
    }
    assert NeverOvershoots(ts + [t], positions) by {
      OvershootStep(ts, t, positions, debtors, d, dl, creditors, c, cl);
    }
    MoveOn(ts + [t], debtors, d, dl, d1, dLeft1, creditors, c, cl, c1, cLeft1);
    assert Proper(ts + [t]);
    ExhaustedTogether(debtors, d1, dLeft1, creditors, c1, cLeft1);
  }

  lemma TurningEnds(positions: map<string, int>, ts: seq<Transfer>, debtors: seq<Side>, d: nat, dLeft: int,
                    creditors: seq<Side>, c: nat, cLeft: int)
    requires Sides(positions, debtors, creditors) && (d >= |debtors| || c >= |creditors|)
    requires Turning(positions, ts, debtors, d, dLeft, creditors, c, cLeft)
    ensures |ts| <= |debtors| + |creditors| - 1 && forall id :: Net(ts, id) == NetOf(positions, id)
  {
    ExhaustedTogether(debtors, d, dLeft, creditors, c, cLeft);
    forall id ensures Net(ts, id) == NetOf(positions, id) {
      FullBooks(ts, positions, debtors, creditors, id);
    }
  }

  lemma OvershootStep(ts: seq<Transfer>, t: Transfer, positions: map<string, int>, debtors: seq<Side>, d: nat, dLeft: int,
                      creditors: seq<Side>, c: nat, cLeft: int)
    requires Sides(positions, debtors, creditors) && NeverOvershoots(ts, positions)
    requires d < |debtors| && c < |creditors| && 0 <= dLeft <= debtors[d].amount && 0 <= cLeft <= creditors[c].amount
    requires Books(ts + [t], debtors, d, dLeft, creditors, c, cLeft)
    ensures NeverOvershoots(ts + [t], positions)
  {
    var ts1 := ts + [t];
    forall k, id | 0 <= k <= |ts1| ensures Within(Net(ts1[..k], id), NetOf(positions, id)) {
      if k <= |ts| {
        assert ts1[..k] == ts[..k];
      } else {
        assert ts1[..k] == ts1;
        BooksAreWithin(ts1, positions, debtors, d, dLeft, creditors, c, cLeft, id);
      }
    }
  }

  lemma FullBooks(ts: seq<Transfer>, positions: map<string, int>, debtors: seq<Side>, creditors: seq<Side>, id: string)
    requires Sides(positions, debtors, creditors)
    requires Books(ts, debtors, |debtors|, 0, creditors, |creditors|, 0)
    ensures Net(ts, id) == NetOf(positions, id)
  {
    if Listed(debtors, id) {
      var j :| 0 <= j < |debtors| && debtors[j].id == id;
      assert Net(ts, debtors[j].id) == -Settled(debtors, |debtors|, 0, j);
    } else if Listed(creditors, id) {
      var j :| 0 <= j < |creditors| && creditors[j].id == id;
      assert Net(ts, creditors[j].id) == Settled(creditors, |creditors|, 0, j);
    }
  }

  // ------------------------------------------------------------------ the cap

  function MaxAbs(positions: map<string, int>, ids: seq<string>): int
    requires forall i :: 0 <= i < |ids| ==> ids[i] in positions
    decreases |ids|
  {
    if ids == [] then 0 else Max(MaxAbs(positions, ids[..|ids| - 1]), Abs(positions[ids[|ids| - 1]]))
  }

  function FixtureCap(cap: int, positions: map<string, int>): int {
    Max(cap, 2 * MaxAbs(positions, Ids(positions)))
  }

  lemma {:induction false} MaxAbsBounds(positions: map<string, int>, ids: seq<string>, id: string)
    requires forall i :: 0 <= i < |ids| ==> ids[i] in positions
    requires id in ids
    ensures Abs(positions[id]) <= MaxAbs(positions, ids)
    decreases |ids|
  {
    var p := ids[..|ids| - 1];
    assert ids == p + [ids[|ids| - 1]];
    if id in p {
      MaxAbsBounds(positions, p, id);
    }
  }

  lemma {:induction false} MaxAbsNatural(positions: map<string, int>, ids: seq<string>)
    requires forall i :: 0 <= i < |ids| ==> ids[i] in positions
    ensures MaxAbs(positions, ids) >= 0
    decreases |ids|
  {
    if ids != [] {
      MaxAbsNatural(positions, ids[..|ids| - 1]);
    }
  }

  lemma {:induction false} MaxAbsIsReached(positions: map<string, int>, ids: seq<string>)
    requires forall i :: 0 <= i < |ids| ==> ids[i] in positions
    ensures ids == [] || exists id :: id in ids && Abs(positions[id]) == MaxAbs(positions, ids)
    decreases |ids|
  {
    if ids != [] {
      var p, last := ids[..|ids| - 1], ids[|ids| - 1];
      MaxAbsIsReached(positions, p);
      MaxAbsNatural(positions, p);
      assert last in ids && forall id :: id in p ==> id in ids;
    }
  }

  /** The cap is the given one or twice the largest net, whichever is larger. */
  lemma CapIsTheLarger(cap: int, positions: map<string, int>)
    requires positions != map[]
    ensures var c := FixtureCap(cap, positions);
            && c >= cap && (forall id :: id in positions ==> c >= 2 * positions[id] && c >= -2 * positions[id])
            && (c == cap || exists id :: id in positions && (c == 2 * positions[id] || c == -2 * positions[id]))
  {
    var ids := Ids(positions);
    forall id | id in positions ensures Abs(positions[id]) <= MaxAbs(positions, ids) {
      MaxAbsBounds(positions, ids, id);
    }
    MaxAbsIsReached(positions, ids);
    var x :| x in positions;
    assert x in ids;
  }

  /** No prefix of a list that never overshoots brings any participant past half the fixture cap. */
  lemma CapIsNeverReached(ts: seq<Transfer>, positions: map<string, int>, cap: int, k: nat, id: string)
    requires NeverOvershoots(ts, positions) && k <= |ts|
    ensures 2 * Abs(Net(ts[..k], id)) <= FixtureCap(cap, positions)
  {
    assert Within(Net(ts[..k], id), NetOf(positions, id));
    MaxAbsNatural(positions, Ids(positions));
    if id in positions {
      MaxAbsBounds(positions, Ids(positions), id);
    }
  }

  // ------------------------------------------------------------------ seeded demo transfers

  /** Routing and amount from three words of the digest. */
  function DemoTransfer(ordered: seq<string>, from: nat, hop: nat, amount: nat): Transfer
    requires |ordered| >= 2
  {
    var n := |ordered|;
    var f := from % n;
    Transfer(ordered[f], ordered[(f + 1 + hop % (n - 1)) % n], 100 + amount % 10000, 0)
  }

  lemma HopLeavesHome(n: nat, f: nat, h: nat)
    requires n >= 2 && f < n && h < n - 1
    ensures (f + 1 + h) % n != f
  {
    if f + 1 + h >= n {
      assert (f + 1 + h) % n == f + 1 + h - n;
    }
  }

  lemma HopReaches(n: nat, a: nat, b: nat)
    requires a < b < n
    ensures (a + 1 + (b - a - 1) % (n - 1)) % n == b
  {
    assert (b - a - 1) % (n - 1) == b - a - 1;
  }

  lemma DistinctPays(ordered: seq<string>, from: nat, hop: nat, amount: nat)
    requires |ordered| >= 2 && Distinct(ordered)
    ensures DemoTransfer(ordered, from, hop, amount).payer != DemoTransfer(ordered, from, hop, amount).payee
  {
    var n := |ordered|;
    HopLeavesHome(n, from % n, hop % (n - 1));
  }

  lemma RepeatPaysItself(ordered: seq<string>, i: nat, j: nat)
    requires i < j < |ordered| && ordered[i] == ordered[j]
    ensures DemoTransfer(ordered, i, j - i - 1, 0).payer == DemoTransfer(ordered, i, j - i - 1, 0).payee
  {
    var n := |ordered|;
    assert i % n == i;
    HopReaches(n, i, j);
  }

  ghost predicate PayersAlwaysDiffer(ordered: seq<string>)
    requires |ordered| >= 2
  {
    forall f, h, a :: DemoTransfer(ordered, f, h, a).payer != DemoTransfer(ordered, f, h, a).payee
  }

  lemma OrderedPayerDiffersExactlyWhenDistinct(ordered: seq<string>)
    requires |ordered| >= 2
    ensures PayersAlwaysDiffer(ordered) <==> Distinct(ordered)
  {
    if i, j :| 0 <= i < j < |ordered| && ordered[i] == ordered[j] {
      RepeatPaysItself(ordered, i, j);
    } else {
      forall f, h, a ensures DemoTransfer(ordered, f, h, a).payer != DemoTransfer(ordered, f, h, a).payee {
        DistinctPays(ordered, f, h, a);
      }
    }
  }

  /** The order in which the participants are given does not matter. */
  lemma DemoIgnoresGivenOrder(a: seq<string>, b: seq<string>)
    requires multiset(a) == multiset(b)
    ensures SortStrings(a) == SortStrings(b)
  {
    SortStringsSorts(a);
    SortStringsSorts(b);
    SortedAlike(SortStrings(a), SortStrings(b));
  }

  lemma {:induction false} DistinctCounts(s: seq<string>)
    ensures Distinct(s) <==> forall x :: multiset(s)[x] <= 1
    decreases |s|
  {
    if s != [] {
      var rest := s[1..];
      DistinctCounts(rest);
      assert s == [s[0]] + rest;
      if Distinct(s) {
        assert forall i, j :: 0 <= i < j < |rest| ==> rest[i] == s[i + 1] && rest[j] == s[j + 1];
        assert s[0] !in rest;
      } else if Distinct(rest) {
        var i, j :| 0 <= i < j < |s| && s[i] == s[j];
        assert i == 0 && rest[j - 1] == s[0];
        assert multiset(s)[s[0]] >= 2;
      } else {
        var x :| multiset(rest)[x] > 1;
        assert multiset(s)[x] > 1;
      }
    }
  }

  /** Payer and payee differ for every digest exactly when no participant is named twice. */
  lemma DemoPayerDiffersExactlyWhenDistinct(participants: seq<string>)
    requires |participants| >= 2
    ensures |SortStrings(participants)| == |participants|
    ensures PayersAlwaysDiffer(SortStrings(participants)) <==> Distinct(participants)
  {
    var ordered := SortStrings(participants);
    SortStringsLength(participants);
    SortStringsSorts(participants);
    DistinctCounts(ordered);
    DistinctCounts(participants);
    OrderedPayerDiffersExactlyWhenDistinct(ordered);
  }

  ghost predicate Derived(ordered: seq<string>, words: nat -> (nat, nat, nat), ts: seq<Transfer>)
    requires |ordered| >= 2
  {
    var n := |ordered|;
    forall i :: 0 <= i < |ts| ==>
      && ts[i].payer == ordered[words(i).0 % n]
      && ts[i].payee == ordered[(words(i).0 % n + 1 + words(i).1 % (n - 1)) % n]
      && ts[i].amount == 100 + words(i).2 % 10_000 && ts[i].sequence == i
  }

  lemma DerivedNext(ordered: seq<string>, words: nat -> (nat, nat, nat), ts: seq<Transfer>)
    requires |ordered| >= 2 && Derived(ordered, words, ts)
    ensures var (from, hop, amount) := words(|ts|);
            Derived(ordered, words, ts + [DemoTransfer(ordered, from, hop, amount).(sequence := |ts|)])
  {
  }

  method DeriveDemoTransfers(participants: seq<string>, count: nat, words: nat -> (nat, nat, nat))
    returns (out: Option<seq<Transfer>>)
    ensures |SortStrings(participants)| == |participants|
    ensures out.None? <==> |participants| < 2 || count < 1
    ensures out.Some? ==> |out.value| == count && Derived(SortStrings(participants), words, out.value)
  {
    SortStringsLength(participants);
    if |participants| < 2 || count < 1 {
      return None;
    }
    var ordered := SortStrings(participants);
    var ts: seq<Transfer> := [];
    for i := 0 to count
      invariant |ts| == i && Derived(ordered, words, ts)
    {
      DerivedNext(ordered, words, ts);
      ts := ts + [DemoTransfer(ordered, words(i).0, words(i).1, words(i).2).(sequence := i)];
    }
    return Some(ts);
  }
}

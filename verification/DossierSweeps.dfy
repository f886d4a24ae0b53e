/**
 Timeout sweeps over the export world: when a sweep works its list to the end, and two short runs that show what a death and an
 overtaken sweep leave behind.
 */
module DossierSweeps {
  import opened Common
  import opened DossierArchive
  import opened DossierExports

  // ------------------------------------------------------------------ one sweep's list

  function ListOf(w: World, sweeper: string): seq<string> {
    if sweeper in w.sweeps then w.sweeps[sweeper] else []
  }

  predicate Ends(w: World, id: string) {
    id in w.rows && Terminal(w.rows[id].phase)
  }

  /** The sweep's turn fails the first export on its list. */
  predicate FailsNext(w: World, e: Event, sweeper: string) {
    e == SweepNext(sweeper) && SweepTurn(w, sweeper) && !Ends(w, w.sweeps[sweeper][0])
  }

  /** The exports a sweep has failed in the course of a run, in order. */
  function FailedBy(digest: Digest, timeout: int, w: World, es: seq<Event>, sweeper: string): seq<string> {
    if es == [] then []
    else
      var p, e := es[..|es| - 1], es[|es| - 1];
      var u := Run(digest, timeout, w, p);
      FailedBy(digest, timeout, w, p, sweeper) + FailedNow(u, e, sweeper)
  }

  /** The sweep neither takes a new list nor dies. */
  predicate Stays(e: Event, sweeper: string) {
    e != Die(Sweeper(sweeper)) && !(e.List? && e.sweeper == sweeper)
  }

  predicate Steady(es: seq<Event>, sweeper: string) {
    forall i :: 0 <= i < |es| ==> Stays(es[i], sweeper)
  }

  /** Somebody else's event ends an export while it stands on the list. */
  ghost predicate EndsListed(digest: Digest, timeout: int, w: World, e: Event, sweeper: string) {
    !By(e, Sweeper(sweeper)) &&
    exists k :: 0 <= k < |ListOf(w, sweeper)| &&
                !Ends(w, ListOf(w, sweeper)[k]) && Ends(Step(digest, timeout, w, e), ListOf(w, sweeper)[k])
  }

  /** At some point of the run. */
  ghost predicate Overtaken(digest: Digest, timeout: int, w: World, es: seq<Event>, sweeper: string) {
    es != [] &&
    var p, e := es[..|es| - 1], es[|es| - 1];
    Overtaken(digest, timeout, w, p, sweeper) || EndsListed(digest, timeout, Run(digest, timeout, w, p), e, sweeper)
  }

  /** The listed exports are all different and none has ended. */
  ghost predicate AllOpen(w: World, ids: seq<string>) {
    Distinct(ids) && forall k :: 0 <= k < |ids| ==> ids[k] in w.rows && !Ends(w, ids[k])
  }

  lemma ListStep(digest: Digest, timeout: int, w: World, e: Event, sweeper: string)
    requires Stays(e, sweeper)
    ensures var t := Step(digest, timeout, w, e);
            ListOf(t, sweeper) ==
            if e == SweepNext(sweeper) && SweepTurn(w, sweeper)
            then if FailsNext(w, e, sweeper) then ListOf(w, sweeper)[1..] else []
            else ListOf(w, sweeper)
  {
  }

  function FailedNow(w: World, e: Event, sweeper: string): seq<string> {
    if FailsNext(w, e, sweeper) then [w.sweeps[sweeper][0]] else []
  }

  /** What has been failed and what is left make up the list, unless the rest was dropped. */
  ghost predicate Split(failed: seq<string>, left: seq<string>, ids: seq<string>) {
    failed + left == ids || (left == [] && failed < ids)
  }

  lemma SplitStep(digest: Digest, timeout: int, w: World, e: Event, sweeper: string, failed: seq<string>, ids: seq<string>)
    requires Stays(e, sweeper)
    requires Split(failed, ListOf(w, sweeper), ids)
    ensures var left := ListOf(Step(digest, timeout, w, e), sweeper);
            && Split(failed + FailedNow(w, e, sweeper), left, ids)
            && (failed + ListOf(w, sweeper) == ids && AllOpen(w, ListOf(w, sweeper)) ==>
                  failed + FailedNow(w, e, sweeper) + left == ids)
            && (failed < ids && ListOf(w, sweeper) == [] ==> FailedNow(w, e, sweeper) == [] && left == [])
            && (e == SweepNext(sweeper) && SweepTurn(w, sweeper) && !FailsNext(w, e, sweeper) ==> failed < ids)
  {
    ListStep(digest, timeout, w, e, sweeper);
    var list := ListOf(w, sweeper);
    if FailsNext(w, e, sweeper) {
      Regroup(failed, [list[0]], list[1..]);
      assert list == [list[0]] + list[1..];
    } else {
      assert failed + [] == failed;
    }
  }

  lemma {:induction false} FailedAndLeft(digest: Digest, timeout: int, w: World, es: seq<Event>, sweeper: string)
    requires Steady(es, sweeper)
    ensures Split(FailedBy(digest, timeout, w, es, sweeper), ListOf(Run(digest, timeout, w, es), sweeper), ListOf(w, sweeper))
    decreases |es|
  {
    if es != [] {
      var p := es[..|es| - 1];
      FailedAndLeft(digest, timeout, w, p, sweeper);
      SplitStep(digest, timeout, Run(digest, timeout, w, p), es[|es| - 1], sweeper,
                FailedBy(digest, timeout, w, p, sweeper), ListOf(w, sweeper));
    }
  }

  lemma OpenStep(digest: Digest, timeout: int, w: World, e: Event, sweeper: string)
    requires Inv(digest, w) && Stays(e, sweeper)
    requires AllOpen(w, ListOf(w, sweeper)) && !EndsListed(digest, timeout, w, e, sweeper)
    ensures AllOpen(Step(digest, timeout, w, e), ListOf(Step(digest, timeout, w, e), sweeper))
  {
    var t := Step(digest, timeout, w, e);
    var before, after := ListOf(w, sweeper), ListOf(t, sweeper);
    ListStep(digest, timeout, w, e, sweeper);
    forall k | 0 <= k < |after| ensures after[k] in t.rows && !Ends(t, after[k]) {
      if FailsNext(w, e, sweeper) {
        assert after[k] == before[k + 1] && before[k + 1] != before[0];
      } else {
        EveryMoveIsForward(digest, timeout, w, e, after[k]);
      }
    }
  }

  lemma {:induction false} OpenWhileNotOvertaken(digest: Digest, timeout: int, w: World, es: seq<Event>, sweeper: string)
    requires Inv(digest, w) && Steady(es, sweeper) && AllOpen(w, ListOf(w, sweeper))
    requires !Overtaken(digest, timeout, w, es, sweeper)
    ensures AllOpen(Run(digest, timeout, w, es), ListOf(Run(digest, timeout, w, es), sweeper))
    decreases |es|
  {
    if es != [] {
      var p := es[..|es| - 1];
      OpenWhileNotOvertaken(digest, timeout, w, p, sweeper);
      RunKeepsInv(digest, timeout, w, p);
      OpenStep(digest, timeout, Run(digest, timeout, w, p), es[|es| - 1], sweeper);
    }
  }

  lemma {:induction false} AllWorkedWhileNotOvertaken(digest: Digest, timeout: int, w: World, es: seq<Event>, sweeper: string)
    requires Inv(digest, w) && Steady(es, sweeper) && AllOpen(w, ListOf(w, sweeper))
    requires !Overtaken(digest, timeout, w, es, sweeper)
    ensures FailedBy(digest, timeout, w, es, sweeper) + ListOf(Run(digest, timeout, w, es), sweeper) == ListOf(w, sweeper)
    decreases |es|
  {
    if es != [] {
      var p := es[..|es| - 1];
      AllWorkedWhileNotOvertaken(digest, timeout, w, p, sweeper);
      OpenWhileNotOvertaken(digest, timeout, w, p, sweeper);
      SplitStep(digest, timeout, Run(digest, timeout, w, p), es[|es| - 1], sweeper,
                FailedBy(digest, timeout, w, p, sweeper), ListOf(w, sweeper));
    }
  }

  ghost predicate SomeEnded(w: World, ids: seq<string>) {
    exists k :: 0 <= k < |ids| && Ends(w, ids[k])
  }

  lemma EndedStaysListed(digest: Digest, timeout: int, w: World, e: Event, sweeper: string)
    requires Inv(digest, w) && Stays(e, sweeper)
    requires SomeEnded(w, ListOf(w, sweeper)) || EndsListed(digest, timeout, w, e, sweeper)
    ensures var t := Step(digest, timeout, w, e);
            SomeEnded(t, ListOf(t, sweeper)) ||
            (e == SweepNext(sweeper) && SweepTurn(w, sweeper) && ListOf(t, sweeper) == [] && !FailsNext(w, e, sweeper))
  {
    var t, ids := Step(digest, timeout, w, e), ListOf(w, sweeper);
    ListStep(digest, timeout, w, e, sweeper);
    if EndsListed(digest, timeout, w, e, sweeper) {
      assert ListOf(t, sweeper) == ids;
    } else {
      var k :| 0 <= k < |ids| && Ends(w, ids[k]);
      TerminalStep(digest, timeout, w, e, ids[k]);
      if FailsNext(w, e, sweeper) {
        assert ids[1..][k - 1] == ids[k];
      }
    }
  }

  lemma LeavesWorkStep(digest: Digest, timeout: int, w: World, e: Event, sweeper: string, failed: seq<string>, ids: seq<string>)
    requires Inv(digest, w) && Stays(e, sweeper)
    requires Split(failed, ListOf(w, sweeper), ids)
    requires WorkLeft(w, sweeper, failed, ids) || EndsListed(digest, timeout, w, e, sweeper)
    ensures WorkLeft(Step(digest, timeout, w, e), sweeper, failed + FailedNow(w, e, sweeper), ids)
  {
    SplitStep(digest, timeout, w, e, sweeper, failed, ids);
    if SomeEnded(w, ListOf(w, sweeper)) || EndsListed(digest, timeout, w, e, sweeper) {
      EndedStaysListed(digest, timeout, w, e, sweeper);
    }
    assert failed + [] == failed;
  }

  /** Of the list, an ended export is still there or the rest has been dropped. */
  ghost predicate WorkLeft(w: World, sweeper: string, failed: seq<string>, ids: seq<string>) {
    SomeEnded(w, ListOf(w, sweeper)) || (ListOf(w, sweeper) == [] && failed < ids)
  }

  lemma {:induction false} OvertakenLeavesWork(digest: Digest, timeout: int, w: World, es: seq<Event>, sweeper: string)
    requires Inv(digest, w) && Steady(es, sweeper) && Overtaken(digest, timeout, w, es, sweeper)
    ensures WorkLeft(Run(digest, timeout, w, es), sweeper, FailedBy(digest, timeout, w, es, sweeper), ListOf(w, sweeper))
    decreases |es|
  {
    if es != [] {
      var p := es[..|es| - 1];
      RunKeepsInv(digest, timeout, w, p);
      FailedAndLeft(digest, timeout, w, p, sweeper);
      if Overtaken(digest, timeout, w, p, sweeper) {
        OvertakenLeavesWork(digest, timeout, w, p, sweeper);
      }
      LeavesWorkStep(digest, timeout, Run(digest, timeout, w, p), es[|es| - 1], sweeper,
                     FailedBy(digest, timeout, w, p, sweeper), ListOf(w, sweeper));
    }
  }

  /**
   A sweep that has come to the end of its list has failed every export on it exactly when nobody else ended one while it
   stood there. Otherwise it stopped at that export and the rest of the list was dropped.
   */
  lemma ListIsWorkedToItsEndExactlyWhenNotOvertaken(digest: Digest, timeout: int, w: World, es: seq<Event>, sweeper: string)
    requires Inv(digest, w) && AllOpen(w, ListOf(w, sweeper)) && Steady(es, sweeper)
    requires ListOf(Run(digest, timeout, w, es), sweeper) == []
    ensures FailedBy(digest, timeout, w, es, sweeper) == ListOf(w, sweeper) <==> !Overtaken(digest, timeout, w, es, sweeper)
    ensures FailedBy(digest, timeout, w, es, sweeper) <= ListOf(w, sweeper)
  {
    FailedAndLeft(digest, timeout, w, es, sweeper);
    if Overtaken(digest, timeout, w, es, sweeper) {
      OvertakenLeavesWork(digest, timeout, w, es, sweeper);
    } else {
      AllWorkedWhileNotOvertaken(digest, timeout, w, es, sweeper);
    }
  }

  // ------------------------------------------------------------------ two runs

  lemma RunPush(digest: Digest, timeout: int, es: seq<Event>, e: Event)
    ensures Run(digest, timeout, EMPTY, es + [e]) == Step(digest, timeout, Run(digest, timeout, EMPTY, es), e)
  {
    PushLast(es, e);
  }

  /** Queued, claimed and failed by its worker. */
  const FAILING: seq<Event> := [Queue("a", 0), Claim("v", "a"), Append(Worker("v"), Begun("a")), Fail("v")]

  const PICKED := World(map["a" := Row(ASSEMBLING, 0, None)], {"a"}, map[], map["v" := Flight("a", None)], map[],
                        map[Begun("a") := Worker("v")], {}, [])

  lemma PickedWorld(digest: Digest, timeout: int)
    ensures Run(digest, timeout, EMPTY, [Queue("a", 0), Claim("v", "a")]) == PICKED
  {
    RunPush(digest, timeout, [], Queue("a", 0));
    RunPush(digest, timeout, [Queue("a", 0)], Claim("v", "a"));
    assert [] + [Queue("a", 0)] == [Queue("a", 0)];
    assert [Queue("a", 0)] + [Claim("v", "a")] == [Queue("a", 0), Claim("v", "a")];
  }

  lemma FailingWorld(digest: Digest, timeout: int)
    ensures Run(digest, timeout, EMPTY, FAILING) ==
            EMPTY.(rows := map["a" := Row(FAILED, 0, None)], claimed := {"a"}, owed := map[Over("a") := Worker("v")],
                   audit := [Begun("a")])
  {
    var two := [Queue("a", 0), Claim("v", "a")];
    PickedWorld(digest, timeout);
    RunPush(digest, timeout, two, Append(Worker("v"), Begun("a")));
    RunPush(digest, timeout, two + [Append(Worker("v"), Begun("a"))], Fail("v"));
    assert two + [Append(Worker("v"), Begun("a"))] + [Fail("v")] == FAILING;
    assert Appended(PICKED, Begun("a")) == PICKED.(owed := map[], audit := [Begun("a")]);
  }

  /** A worker dies after its save and before its audit event: the export is FAILED and its ending is never written. */
  lemma DeathSilencesAnEnding(digest: Digest, timeout: int)
    ensures var w := Run(digest, timeout, EMPTY, FAILING + [Die(Worker("v"))]);
            && "a" in w.rows && w.rows["a"].phase == FAILED && w.owed == map[] && Over("a") !in w.audit
  {
    FailingWorld(digest, timeout);
    RunPush(digest, timeout, FAILING, Die(Worker("v")));
  }

  // Two exports are picked up and listed together; the first one's worker fails it just before the sweep gets there.

  const BOTH_PICKED := World(map["a" := Row(ASSEMBLING, 0, None), "b" := Row(ASSEMBLING, 0, None)], {"a", "b"}, map[],
                             map["v" := Flight("a", None), "w" := Flight("b", None)], map[], map[], {}, [Begun("a"), Begun("b")])

  const FIRST_BEGUN := PICKED.(owed := map[], audit := [Begun("a")])

  const SECOND_QUEUED := FIRST_BEGUN.(rows := map["a" := Row(ASSEMBLING, 0, None), "b" := Row(QUEUED, 0, None)])

  const SECOND_CLAIMED := BOTH_PICKED.(owed := map[Begun("b") := Worker("w")], audit := [Begun("a")])

  lemma SecondQueued(digest: Digest, timeout: int)
    ensures Step(digest, timeout, PICKED, Append(Worker("v"), Begun("a"))) == FIRST_BEGUN
    ensures Step(digest, timeout, FIRST_BEGUN, Queue("b", 0)) == SECOND_QUEUED
  {
    assert Appended(PICKED, Begun("a")) == FIRST_BEGUN;
  }

  lemma SecondClaimed(digest: Digest, timeout: int)
    ensures Step(digest, timeout, SECOND_QUEUED, Claim("w", "b")) == SECOND_CLAIMED
  {
    assert Claimed(SECOND_QUEUED, "w", "b") == SECOND_CLAIMED;
  }

  lemma SecondBegun(digest: Digest, timeout: int)
    ensures Step(digest, timeout, SECOND_CLAIMED, Append(Worker("w"), Begun("b"))) == BOTH_PICKED
  {
    assert Appended(SECOND_CLAIMED, Begun("b")) == BOTH_PICKED;
  }

  lemma SecondPicked(digest: Digest, timeout: int)
    ensures var w1 := Step(digest, timeout, PICKED, Append(Worker("v"), Begun("a")));
            var w2 := Step(digest, timeout, Step(digest, timeout, w1, Queue("b", 0)), Claim("w", "b"));
            Step(digest, timeout, w2, Append(Worker("w"), Begun("b"))) == BOTH_PICKED
  {
    SecondQueued(digest, timeout);
    SecondClaimed(digest, timeout);
    SecondBegun(digest, timeout);
  }

  const BOTH_LISTED := BOTH_PICKED.(sweeps := map["s" := ["a", "b"]])

  const FIRST_FAILED := BOTH_LISTED.(rows := map["a" := Row(FAILED, 0, None), "b" := Row(ASSEMBLING, 0, None)],
                                     workers := map["w" := Flight("b", None)], owed := map[Over("a") := Worker("v")])

  lemma BothListed(digest: Digest, timeout: int)
    ensures Step(digest, timeout, BOTH_PICKED, List("s", ["a", "b"], timeout)) == BOTH_LISTED
  {
    assert !Busy(BOTH_PICKED, Sweeper("s"));
  }

  lemma FirstFails(digest: Digest, timeout: int)
    ensures Step(digest, timeout, BOTH_LISTED, Fail("v")) == FIRST_FAILED
  {
    var rows := BOTH_LISTED.rows["a" := Row(FAILED, 0, None)];
    assert !Busy(BOTH_LISTED, Worker("v")) && rows == FIRST_FAILED.rows;
    assert BOTH_LISTED.workers - {"v"} == FIRST_FAILED.workers;
  }

  lemma RestIsDropped(digest: Digest, timeout: int)
    ensures Step(digest, timeout, FIRST_FAILED, SweepNext("s")) == FIRST_FAILED.(sweeps := map["s" := []])
  {
    assert !Busy(FIRST_FAILED, Sweeper("s"));
  }

  lemma ListDropped(digest: Digest, timeout: int)
    ensures var w1 := Step(digest, timeout, BOTH_PICKED, List("s", ["a", "b"], timeout));
            var w2 := Step(digest, timeout, w1, Fail("v"));
            var w3 := Step(digest, timeout, w2, SweepNext("s"));
            && ListOf(w1, "s") == ["a", "b"] && AllOpen(w1, ["a", "b"])
            && ListOf(w3, "s") == [] && Stale(w3, "b", timeout, timeout)
  {
    BothListed(digest, timeout);
    FirstFails(digest, timeout);
    RestIsDropped(digest, timeout);
  }

  const OVERTAKING: seq<Event> :=
    [Queue("a", 0), Claim("v", "a"), Append(Worker("v"), Begun("a")), Queue("b", 0), Claim("w", "b"), Append(Worker("w"), Begun("b"))]

  /** A run in which an export ends while on a sweep's list: the sweep stops there, and the other stale export on the list is
      left assembling. */
  lemma OvertakenSweepDropsTheRest(digest: Digest, timeout: int)
    ensures var listed := Run(digest, timeout, EMPTY, OVERTAKING + [List("s", ["a", "b"], timeout)]);
            var w := Run(digest, timeout, EMPTY, OVERTAKING + [List("s", ["a", "b"], timeout)] + [Fail("v")] + [SweepNext("s")]);
            && ListOf(listed, "s") == ["a", "b"] && AllOpen(listed, ["a", "b"])
            && ListOf(w, "s") == [] && Stale(w, "b", timeout, timeout)
  {
    var two := [Queue("a", 0), Claim("v", "a")];
    var three := two + [Append(Worker("v"), Begun("a"))];
    var four := three + [Queue("b", 0)];
    var five := four + [Claim("w", "b")];
    PickedWorld(digest, timeout);
    RunPush(digest, timeout, two, Append(Worker("v"), Begun("a")));
    RunPush(digest, timeout, three, Queue("b", 0));
    RunPush(digest, timeout, four, Claim("w", "b"));
    RunPush(digest, timeout, five, Append(Worker("w"), Begun("b")));
    assert five + [Append(Worker("w"), Begun("b"))] == OVERTAKING;
    SecondPicked(digest, timeout);
    RunPush(digest, timeout, OVERTAKING, List("s", ["a", "b"], timeout));
    RunPush(digest, timeout, OVERTAKING + [List("s", ["a", "b"], timeout)], Fail("v"));
    RunPush(digest, timeout, OVERTAKING + [List("s", ["a", "b"], timeout)] + [Fail("v")], SweepNext("s"));
    ListDropped(digest, timeout);
  }
}

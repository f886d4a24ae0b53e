/**
 The export store and service as an object. Between the pieces of one call anybody else may run: `Suspend` stands for that,
 and changes the object by any events that are not this worker's or this sweep's.
 */
module DossierService {
  import opened Common
  import opened DossierArchive
  import opened DossierExports

  datatype Outcome = Unknown | Denied | Assembled | Rejected | Superseded

  function StaleIds(rows: map<string, Row>, order: seq<string>, now: int, timeout: int): (ids: seq<string>)
    ensures forall id :: id in ids <==>
              id in order && id in rows && rows[id].phase == ASSEMBLING && now - rows[id].createdAt >= timeout
  {
    if order == [] then []
    else
      var id, rest := order[0], StaleIds(rows, order[1..], now, timeout);
      assert order == [order[0]] + order[1..];
      if id in rows && rows[id].phase == ASSEMBLING && now - rows[id].createdAt >= timeout
      then [id] + rest else rest
  }

  lemma {:induction false} StaleIdsDistinct(rows: map<string, Row>, order: seq<string>, now: int, timeout: int)
    requires Distinct(order)
    ensures Distinct(StaleIds(rows, order, now, timeout))
    decreases |order|
  {
    if order != [] {
      StaleIdsDistinct(rows, order[1..], now, timeout);
      assert order[0] !in order[1..];
    }
  }

  predicate Precedes(ids: seq<string>, x: string, y: string) {
    exists i, j :: 0 <= i < j < |ids| && ids[i] == x && ids[j] == y
  }

  /** The stale exports are listed in the order of the store. */
  lemma {:induction false} StaleIdsInOrder(rows: map<string, Row>, order: seq<string>, now: int, timeout: int, p: nat, q: nat)
    requires p < q < |order|
    requires order[p] in StaleIds(rows, order, now, timeout) && order[q] in StaleIds(rows, order, now, timeout)
    ensures Precedes(StaleIds(rows, order, now, timeout), order[p], order[q])
    decreases |order|
  {
    var ids, rest := StaleIds(rows, order, now, timeout), StaleIds(rows, order[1..], now, timeout);
    assert order[1..][q - 1] == order[q];
    if p == 0 {
      var j :| 0 <= j < |rest| && rest[j] == order[q];
      assert ids[0] == order[0] && ids[j + 1] == order[q];
    } else {
      assert order[1..][p - 1] == order[p];
      StaleIdsInOrder(rows, order[1..], now, timeout, p - 1, q - 1);
      var i, j :| 0 <= i < j < |rest| && rest[i] == order[p] && rest[j] == order[q];
      var k := |ids| - |rest|;
      assert ids[i + k] == order[p] && ids[j + k] == order[q];
    }
  }

  lemma {:induction false} ListStays(digest: Digest, timeout: int, w: World, es: seq<Event>, sweeper: string)
    requires sweeper in w.sweeps && NoneBy(es, Sweeper(sweeper))
    ensures sweeper in Run(digest, timeout, w, es).sweeps && Run(digest, timeout, w, es).sweeps[sweeper] == w.sweeps[sweeper]
    decreases |es|
  {
    if es != [] {
      ListStays(digest, timeout, w, es[..|es| - 1], sweeper);
      ListKept(digest, timeout, Run(digest, timeout, w, es[..|es| - 1]), es[|es| - 1], sweeper);
    }
  }

  lemma ListKept(digest: Digest, timeout: int, w: World, e: Event, sweeper: string)
    requires sweeper in w.sweeps && !By(e, Sweeper(sweeper))
    ensures sweeper in Step(digest, timeout, w, e).sweeps && Step(digest, timeout, w, e).sweeps[sweeper] == w.sweeps[sweeper]
  {
  }

  /** Everything already ended in `before` reads the same in `after`. */
  ghost predicate EndingsKept(before: map<string, Row>, after: map<string, Row>) {
    forall id :: id in before && Terminal(before[id].phase) ==> id in after && after[id] == before[id]
  }

  ghost predicate AllFailed(rows: map<string, Row>, ids: seq<string>) {
    forall k :: 0 <= k < |ids| ==> ids[k] in rows && rows[ids[k]].phase == FAILED
  }

  ghost predicate AllWritten(audit: seq<Note>, ids: seq<string>) {
    forall k :: 0 <= k < |ids| ==> Over(ids[k]) in audit
  }

  lemma WrittenOnce(w: World, note: Note)
    requires Audited(w) && note in w.audit
    ensures multiset(w.audit)[note] == 1
  {
    assert Accounted(w, note);
    assert note in multiset(w.audit);
  }

  /** A claim leaves its worker with exactly the event of its start to append. */
  lemma ClaimOwesBegun(w: World, worker: string, id: string)
    requires Claims(w, worker, id)
    ensures OwedBy(Claimed(w, worker, id), Worker(worker)) == {Begun(id)}
  {
    var t := Claimed(w, worker, id);
    forall n ensures n in OwedBy(t, Worker(worker)) <==> n == Begun(id) {
      assert n in OwedBy(w, Worker(worker)) <==> n in w.owed && w.owed[n] == Worker(worker);
    }
  }

  class DossierExportService {
    const digest: Digest
    const timeout: int
    var rows: map<string, Row>
    /** Export ids in the order they were queued. */
    var order: seq<string>
    var claimed: set<string>
    var objects: map<string, Archive>
    var audit: seq<Note>
    ghost var workers: map<string, Flight>
    ghost var sweeps: map<string, seq<string>>
    ghost var owed: map<Note, Actor>
    ghost var lost: set<Note>

    ghost function Value(): World
      reads this
    {
      World(rows, claimed, objects, workers, sweeps, owed, lost, audit)
    }

    ghost predicate Valid()
      reads this
    {
      Inv(digest, Value()) && Distinct(order) && forall id :: id in order <==> id in rows
    }

    /** The events this actor has saved for and not yet appended. */
    ghost function Debts(actor: Actor): set<Note>
      reads this
    {
      OwedBy(Value(), actor)
    }

    constructor (digest: Digest, timeout: int)
      ensures this.digest == digest && this.timeout == timeout && Value() == EMPTY && Valid()
    {
      this.digest := digest;
      this.timeout := timeout;
      rows, order, claimed, objects, audit := map[], [], {}, map[], [];
      workers, sweeps, owed, lost := map[], map[], map[], {};
    }

    /** Queueing is idempotent: an export that exists is returned as it is. */
    method QueueExport(id: string, now: int) returns (row: Row)
      requires Valid()
      modifies this
      ensures Valid() && Value() == Step(digest, timeout, old(Value()), Queue(id, now))
      ensures id in rows && row == rows[id] && (id in old(rows) ==> row == old(rows)[id])
    {
      StepKeepsInv(digest, timeout, Value(), Queue(id, now));
      if id in rows {
        return rows[id];
      }
      row := Row(QUEUED, now, None);
      rows := rows[id := row];
      order := order + [id];
    }

    method BeginAssembly(ghost worker: string, id: string) returns (ok: bool)
      requires Valid() && worker !in workers && Debts(Worker(worker)) == {}
      modifies this
      ensures Valid() && Value() == Step(digest, timeout, old(Value()), Claim(worker, id))
      ensures ok <==> Claims(old(Value()), worker, id)
      ensures ok ==> worker in workers && workers[worker] == Flight(id, None) && Debts(Worker(worker)) == {Begun(id)}
    {
      StepKeepsInv(digest, timeout, Value(), Claim(worker, id));
      assert !Busy(Value(), Worker(worker));
      if id !in rows || rows[id].phase != QUEUED || id in claimed {
        return false;
      }
      ClaimOwesBegun(Value(), worker, id);
      claimed := claimed + {id};
      rows := rows[id := rows[id].(phase := ASSEMBLING)];
      workers := workers[worker := Flight(id, None)];
      owed := owed[Begun(id) := Worker(worker)];
      return true;
    }

    /** The event follows the save it reports. */
    method AppendEvent(ghost actor: Actor, note: Note)
      requires Valid() && Debts(actor) == {note}
      modifies this`audit, this`owed
      ensures Valid() && Value() == Step(digest, timeout, old(Value()), Append(actor, note))
      ensures audit == old(audit) + [note] && Debts(actor) == {}
    {
      ghost var w := Value();
      assert note in OwedBy(w, actor);
      StepKeepsInv(digest, timeout, Value(), Append(actor, note));
      audit := audit + [note];
      owed := owed - {note};
      assert OwedBy(Value(), actor) == OwedBy(w, actor) - {note};
    }

    /** The store refuses to save over a terminal row. */
    method SaveEnded(ghost actor: Actor, id: string, phase: Phase, manifest: Option<seq<ManifestRow>>) returns (ok: bool)
      requires id in rows && Debts(actor) == {}
      modifies this`rows, this`owed
      ensures Value() == Ended(old(Value()), actor, id, phase, manifest)
      ensures ok <==> !Terminal(old(rows)[id].phase)
      ensures Debts(actor) == if ok then {Over(id)} else {}
    {
      ghost var w := Value();
      if rows[id].phase == COMPLETED || rows[id].phase == FAILED {
        return false;
      }
      rows := rows[id := rows[id].(phase := phase, manifest := manifest)];
      owed := owed[Over(id) := actor];
      assert OwedBy(Value(), actor) == OwedBy(w, actor) + {Over(id)};
      return true;
    }

    /** Others run between two pieces of what `actor` does. */
    method Suspend(ghost actor: Actor)
      requires Valid()
      modifies this
      ensures Valid() && exists es :: NoneBy(es, actor) && Value() == Run(digest, timeout, old(Value()), es)
    {
      assert NoneBy([], actor) && Value() == Run(digest, timeout, Value(), []);
    }

    /** Meanwhile this worker's export stays as it was or is failed by a sweep; claim, archive and debts stay. */
    method Await(ghost worker: string)
      requires Valid() && worker in workers
      modifies this
      ensures Valid() && workers.Keys >= {worker}
      ensures old(workers)[worker].id in old(rows) && Untouched(old(Value()), Value(), worker)
      ensures DebtsKept(old(Value()), Value(), Worker(worker))
    {
      Suspend(Worker(worker));
      ghost var es :| NoneBy(es, Worker(worker)) && Value() == Run(digest, timeout, old(Value()), es);
      OnlyTheClaimantCompletes(digest, timeout, old(Value()), es, worker);
      OthersKeepDebts(digest, timeout, old(Value()), es, Worker(worker));
    }

    /** An export that has ended stays as it is until its event is appended. */
    method AppendLater(ghost actor: Actor, id: string)
      requires Valid() && Debts(actor) == {Over(id)}
      modifies this
      ensures Valid() && Debts(actor) == {} && old(audit) <= audit && Over(id) in audit && EndingsKept(old(rows), rows)
      ensures actor.Sweeper? && actor.name in old(sweeps) ==>
                actor.name in sweeps && sweeps[actor.name] == old(sweeps)[actor.name]
    {
      Suspend(actor);
      ghost var es :| NoneBy(es, actor) && Value() == Run(digest, timeout, old(Value()), es);
      OthersKeepDebts(digest, timeout, old(Value()), es, actor);
      forall x | x in old(rows) && Terminal(old(rows)[x].phase) ensures x in rows && rows[x] == old(rows)[x] {
        EndingIsForever(digest, timeout, old(Value()), es, x);
      }
      if actor.Sweeper? && actor.name in old(sweeps) {
        ListStays(digest, timeout, old(Value()), es, actor.name);
      }
      AppendEvent(actor, Over(id));
    }

    /** Seal, check and put the archive; false when the check of the sealed archive does not pass. */
    method SealAndPut(ghost worker: string, id: string, manifestBytes: Bytes, members: Members) returns (ok: bool)
      requires Valid() && worker in workers && workers[worker] == Flight(id, None) && Debts(Worker(worker)) == {}
      modifies this`objects, this`workers
      ensures Valid() && Value() == Step(digest, timeout, old(Value()), Store(worker, manifestBytes, members))
      ensures ok && worker in workers && workers[worker] == Flight(id, Some(Manifest(digest, members)))
    {
      StepKeepsInv(digest, timeout, Value(), Store(worker, manifestBytes, members));
      SealedVerifies(digest, manifestBytes, members);
      var archive, manifest := Seal(manifestBytes, members), Manifest(digest, members);
      ok := VerifySealed(digest, archive, manifest);
      objects := objects[id := archive];
      workers := workers[worker := Flight(id, Some(manifest))];
    }

    /** Save and, once accepted, its event. */
    method FinishComplete(ghost worker: string, id: string, manifest: seq<ManifestRow>) returns (ok: bool)
      requires Valid() && worker in workers && workers[worker] == Flight(id, Some(manifest)) && id in rows
      requires Debts(Worker(worker)) == {}
      modifies this
      ensures Valid() && Debts(Worker(worker)) == {} && old(audit) <= audit && id in rows
      ensures ok <==> !Terminal(old(rows)[id].phase)
      ensures ok ==> rows[id] == old(rows)[id].(phase := COMPLETED, manifest := Some(manifest)) && Over(id) in audit
      ensures !ok ==> rows[id] == old(rows)[id]
    {
      StepKeepsInv(digest, timeout, Value(), Complete(worker));
      ok := SaveEnded(Worker(worker), id, COMPLETED, Some(manifest));
      workers := workers - {worker};
      assert Value() == Step(digest, timeout, old(Value()), Complete(worker));
      if ok {
        AppendLater(Worker(worker), id);
      }
    }

    method FinishFail(ghost worker: string, id: string) returns (ok: bool)
      requires Valid() && worker in workers && workers[worker].id == id && id in rows && Debts(Worker(worker)) == {}
      modifies this
      ensures Valid() && Debts(Worker(worker)) == {} && old(audit) <= audit && id in rows
      ensures ok <==> !Terminal(old(rows)[id].phase)
      ensures ok ==> rows[id].phase == FAILED && Over(id) in audit
      ensures !ok ==> rows[id] == old(rows)[id]
    {
      StepKeepsInv(digest, timeout, Value(), Fail(worker));
      ok := SaveEnded(Worker(worker), id, FAILED, None);
      workers := workers - {worker};
      assert Value() == Step(digest, timeout, old(Value()), Fail(worker));
      if ok {
        AppendLater(Worker(worker), id);
      }
    }

    /** Claim an export and report the pickup; afterwards it is assembling, or a sweep has failed it. */
    method PickUp(ghost worker: string, id: string) returns (ok: bool)
      requires Valid() && worker !in workers && Debts(Worker(worker)) == {}
      modifies this
      ensures Valid() && (ok <==> Claims(old(Value()), worker, id))
      ensures !ok ==> Value() == old(Value())
      ensures ok ==> worker in workers && workers[worker] == Flight(id, None) && Debts(Worker(worker)) == {}
      ensures ok ==> id in rows && (rows[id].phase == ASSEMBLING || rows[id].phase == FAILED) && Begun(id) in audit
    {
      ok := BeginAssembly(worker, id);
      if ok {
        Await(worker);
        AppendEvent(Worker(worker), Begun(id));
      }
    }

    /** The second half of a worker pass, from sealed members to the saved row; false when a sweep ended the export first. */
    method StoreAndComplete(ghost worker: string, id: string, manifestBytes: Bytes, members: Members) returns (ok: bool)
      requires Valid() && worker in workers && workers[worker] == Flight(id, None) && Debts(Worker(worker)) == {}
      requires id in rows && (rows[id].phase == ASSEMBLING || rows[id].phase == FAILED)
      modifies this
      ensures Valid() && id in rows && old(audit) <= audit
      ensures ok ==> rows[id].phase == COMPLETED && rows[id].manifest == Some(Manifest(digest, members)) && Over(id) in audit
      ensures !ok ==> rows[id].phase == FAILED
    {
      ok := SealAndPut(worker, id, manifestBytes, members);
      Await(worker);
      ok := FinishComplete(worker, id, Manifest(digest, members));
    }

    /**
     One worker pass. `sources` is None when a member source fails. Whatever happens around it, the export ends COMPLETED with
     the manifest of exactly these members, or FAILED; `Superseded` means a sweep ended it first. The pickup is reported once,
     and so is an ending of the worker's own.
     */
    method Assemble(ghost worker: string, id: string, manifestBytes: Bytes, sources: Option<Members>)
      returns (outcome: Outcome)
      requires Valid() && worker !in workers && Debts(Worker(worker)) == {}
      modifies this
      ensures Valid()
      ensures outcome == Unknown <==> id !in old(rows)
      ensures outcome == Denied <==> id in old(rows) && !Claims(old(Value()), worker, id)
      ensures outcome == Unknown || outcome == Denied ==> Value() == old(Value())
      ensures outcome == Assembled ==>
                id in rows && rows[id].phase == COMPLETED && sources.Some? &&
                rows[id].manifest == Some(Manifest(digest, sources.value))
      ensures outcome == Rejected || outcome == Superseded ==> id in rows && rows[id].phase == FAILED
      ensures sources.None? ==> outcome != Assembled
      ensures outcome == Assembled || outcome == Rejected ==> multiset(audit)[Begun(id)] == 1 && multiset(audit)[Over(id)] == 1
      ensures outcome == Superseded ==> multiset(audit)[Begun(id)] == 1
    {
      if id !in rows {
        return Unknown;
      }
      var ok := PickUp(worker, id);
      if !ok {
        return Denied;
      }
      Await(worker);
      if sources.None? {
        ok := FinishFail(worker, id);
        outcome := if ok then Rejected else Superseded;
      } else {
        ok := StoreAndComplete(worker, id, manifestBytes, sources.value);
        outcome := if ok then Assembled else Superseded;
      }
      WrittenOnce(Value(), Begun(id));
      if ok {
        WrittenOnce(Value(), Over(id));
      }
    }

    /** The bytes served for an export, if it is completed. */
    method DownloadExport(id: string) returns (archive: Option<Archive>)
      requires Valid()
      ensures archive == Download(Value(), id)
      ensures archive.Some? <==> id in rows && rows[id].phase == COMPLETED
      ensures archive.Some? ==> rows[id].manifest.Some? && Verifies(digest, archive.value, rows[id].manifest.value)
    {
      assert id in rows && rows[id].phase == COMPLETED ==> Verified(digest, Value(), id, rows[id].manifest.value);
      if id !in rows || rows[id].phase != COMPLETED || id !in objects {
        return None;
      }
      return Some(objects[id]);
    }

    method AwaitSweep(ghost sweeper: string)
      requires Valid() && sweeper in sweeps
      modifies this
      ensures Valid() && sweeper in sweeps && sweeps[sweeper] == old(sweeps)[sweeper] && EndingsKept(old(rows), rows)
      ensures DebtsKept(old(Value()), Value(), Sweeper(sweeper))
    {
      Suspend(Sweeper(sweeper));
      ghost var es :| NoneBy(es, Sweeper(sweeper)) && Value() == Run(digest, timeout, old(Value()), es);
      ListStays(digest, timeout, old(Value()), es, sweeper);
      OthersKeepDebts(digest, timeout, old(Value()), es, Sweeper(sweeper));
      forall id | id in old(rows) && Terminal(old(rows)[id].phase) ensures id in rows && rows[id] == old(rows)[id] {
        EndingIsForever(digest, timeout, old(Value()), es, id);
      }
    }

    /** Fail the next listed export; false, dropping the rest of the list, when it has ended in the meantime. */
    method FailNext(ghost sweeper: string, id: string) returns (ok: bool)
      requires Valid() && sweeper in sweeps && sweeps[sweeper] != [] && sweeps[sweeper][0] == id && id in rows
      requires Debts(Sweeper(sweeper)) == {}
      modifies this
      ensures Valid() && Value() == Step(digest, timeout, old(Value()), SweepNext(sweeper))
      ensures ok <==> !Terminal(old(rows)[id].phase)
      ensures ok ==> sweeper in sweeps && sweeps[sweeper] == old(sweeps)[sweeper][1..]
      ensures EndingsKept(old(rows), rows) && id in rows && Terminal(rows[id].phase) && (ok ==> rows[id].phase == FAILED)
      ensures audit == old(audit) && Debts(Sweeper(sweeper)) == if ok then {Over(id)} else {}
    {
      StepKeepsInv(digest, timeout, Value(), SweepNext(sweeper));
      if rows[id].phase == COMPLETED || rows[id].phase == FAILED {
        sweeps := sweeps[sweeper := []];
        return false;
      }
      sweeps := sweeps[sweeper := sweeps[sweeper][1..]];
      ok := SaveEnded(Sweeper(sweeper), id, FAILED, None);
    }

    /** One listed export, with its event. */
    method FailOne(ghost sweeper: string, ghost left: seq<string>, id: string, ghost failed: seq<string>) returns (ok: bool)
      requires Valid() && sweeper in sweeps && sweeps[sweeper] == [id] + left && Debts(Sweeper(sweeper)) == {}
      requires AllFailed(rows, failed) && AllWritten(audit, failed)
      modifies this
      ensures Valid() && Debts(Sweeper(sweeper)) == {} && id in rows && Terminal(rows[id].phase)
      ensures ok ==> sweeper in sweeps && sweeps[sweeper] == left
      ensures ok ==> AllFailed(rows, failed + [id]) && AllWritten(audit, failed + [id])
      ensures !ok ==> AllFailed(rows, failed) && AllWritten(audit, failed)
    {
      AwaitSweep(sweeper);
      assert sweeps[sweeper][0] == id && sweeps[sweeper][1..] == left;
      ok := FailNext(sweeper, id);
      if ok {
        AppendLater(Sweeper(sweeper), id);
      }
    }

    /** Work down the list `ids` the sweep has taken. */
    method FailListed(ghost sweeper: string, ids: seq<string>) returns (failed: seq<string>, done: bool)
      requires Valid() && sweeper in sweeps && sweeps[sweeper] == ids && Debts(Sweeper(sweeper)) == {}
      modifies this
      ensures Valid() && failed <= ids && (done ==> failed == ids)
      ensures AllFailed(rows, failed) && AllWritten(audit, failed)
      ensures !done ==> |failed| < |ids| && ids[|failed|] in rows && Terminal(rows[ids[|failed|]].phase)
    {
      failed := [];
      var i := 0;
      while i < |ids|
        invariant i <= |ids| && failed == ids[..i] && Valid() && Debts(Sweeper(sweeper)) == {}
        invariant sweeper in sweeps && sweeps[sweeper] == ids[i..]
        invariant AllFailed(rows, failed) && AllWritten(audit, failed)
      {
        assert ids[i..] == [ids[i]] + ids[i + 1..];
        var ok := FailOne(sweeper, ids[i + 1..], ids[i], failed);
        if !ok {
          return failed, false;
        }
        TakeNext(ids, i);
        failed := failed + [ids[i]];
        i := i + 1;
      }
      done := true;
    }

    /**
     The timeout sweep. When it runs to the end, it has failed every export that was stale when it began; an export that
     ends on its own in between stops the sweep there. Every ending it brings about is reported once.
     */
    method SweepTimeouts(ghost sweeper: string, now: int) returns (failed: seq<string>, done: bool)
      requires Valid() && Debts(Sweeper(sweeper)) == {}
      modifies this
      ensures Valid()
      ensures forall id :: id in failed ==> Stale(old(Value()), id, now, timeout) && id in rows && rows[id].phase == FAILED
      ensures forall id :: id in failed ==> multiset(audit)[Over(id)] == 1
      ensures done ==> forall id :: Stale(old(Value()), id, now, timeout) ==> id in failed
      ensures !done ==> exists id :: Stale(old(Value()), id, now, timeout) && id !in failed &&
                                     id in rows && Terminal(rows[id].phase)
    {
      var ids := StaleIds(rows, order, now, timeout);
      StaleIdsDistinct(rows, order, now, timeout);
      StepKeepsInv(digest, timeout, Value(), List(sweeper, ids, now));
      sweeps := sweeps[sweeper := ids];
      failed, done := FailListed(sweeper, ids);
      forall id | id in failed ensures multiset(audit)[Over(id)] == 1 {
        WrittenOnce(Value(), Over(id));
      }
      if !done {
        assert ids[|failed|] in ids && ids[|failed|] !in failed;
      }
    }
  }
}

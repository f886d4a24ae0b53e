/**
 Dossier exports under racing workers and timeout sweeps (bdpay/compliance/dossier.py).

 A worker claims a queued export, seals and stores its archive, then saves the row; a sweep lists stale exports and then
 fails them one by one. Anybody may run, or die, between those pieces. A save is refused on a terminal row. The audit event of
 a pickup or an ending is appended in a piece of its own after the row was saved, so it can die with its author.
 */
module DossierExports {
  import opened Common
  import opened DossierArchive

  datatype Phase = QUEUED | ASSEMBLING | COMPLETED | FAILED

  datatype Row = Row(phase: Phase, createdAt: int, manifest: Option<seq<ManifestRow>>)

  /** A worker holding the claim on `id`; `stored` is the manifest of the archive it has put in the object store. */
  datatype Flight = Flight(id: string, stored: Option<seq<ManifestRow>>)

  datatype Actor = Worker(name: string) | Sweeper(name: string)

  /** The audit event of a pickup and of an ending. */
  datatype Note = Begun(id: string) | Over(id: string)

  /** `owed` are the events due from an actor that has saved its row and goes on to append; `lost` died with theirs. */
  datatype World = World(
    rows: map<string, Row>,
    claimed: set<string>,
    objects: map<string, Archive>,
    workers: map<string, Flight>,
    sweeps: map<string, seq<string>>,
    owed: map<Note, Actor>,
    lost: set<Note>,
    audit: seq<Note>)

  const EMPTY := World(map[], {}, map[], map[], map[], map[], {}, [])

  datatype Event =
    | Queue(id: string, now: int)
    | Claim(worker: string, id: string)
    | Store(worker: string, manifestBytes: Bytes, members: Members)
    | Complete(worker: string)
    | Fail(worker: string)
    | List(sweeper: string, ids: seq<string>, now: int)
    | SweepNext(sweeper: string)
    | Append(actor: Actor, note: Note)
    | Die(actor: Actor)

  predicate Terminal(p: Phase) {
    p == COMPLETED || p == FAILED
  }

  // ------------------------------------------------------------------ pieces

  predicate Owes(w: World, actor: Actor, note: Note) {
    note in w.owed && w.owed[note] == actor
  }

  function OwedBy(w: World, actor: Actor): set<Note> {
    set note | note in w.owed && w.owed[note] == actor
  }

  /** An actor with an event to append does nothing else first. */
  predicate Busy(w: World, actor: Actor) {
    OwedBy(w, actor) != {}
  }

  predicate Claims(w: World, worker: string, id: string) {
    worker !in w.workers && !Busy(w, Worker(worker)) && id in w.rows && w.rows[id].phase == QUEUED && id !in w.claimed
  }

  function Claimed(w: World, worker: string, id: string): World
    requires id in w.rows
  {
    w.(rows := w.rows[id := w.rows[id].(phase := ASSEMBLING)], claimed := w.claimed + {id},
    workers := w.workers[worker := Flight(id, None)], owed := w.owed[Begun(id) := Worker(worker)])
  }

  /** The save of a terminal row, refused when the row is terminal already; an accepted one leaves its event to append. */
  function Ended(w: World, actor: Actor, id: string, phase: Phase, manifest: Option<seq<ManifestRow>>): World
    requires id in w.rows
  {
    if Terminal(w.rows[id].phase) then w
    else w.(rows := w.rows[id := w.rows[id].(phase := phase, manifest := manifest)], owed := w.owed[Over(id) := actor])
  }

  function Leave(w: World, worker: string): World {
    w.(workers := w.workers - {worker})
  }

  function Appended(w: World, note: Note): World {
    w.(owed := w.owed - {note}, audit := w.audit + [note])
  }

  function Dead(w: World, actor: Actor): World {
    w.(workers := if actor.Worker? then w.workers - {actor.name} else w.workers,
    sweeps := if actor.Sweeper? then w.sweeps - {actor.name} else w.sweeps,
    owed := w.owed - OwedBy(w, actor), lost := w.lost + OwedBy(w, actor))
  }

  predicate Stale(w: World, id: string, now: int, timeout: int) {
    id in w.rows && w.rows[id].phase == ASSEMBLING && now - w.rows[id].createdAt >= timeout
  }

  /** The sweep is about to deal with an export on its list. */
  predicate SweepTurn(w: World, sweeper: string) {
    sweeper in w.sweeps && w.sweeps[sweeper] != [] && !Busy(w, Sweeper(sweeper)) && w.sweeps[sweeper][0] in w.rows
  }

  function Step(digest: Digest, timeout: int, w: World, e: Event): World {
    match e
    case Queue(id, now) => if id in w.rows then w else w.(rows := w.rows[id := Row(QUEUED, now, None)])
    case Claim(worker, id) => if Claims(w, worker, id) then Claimed(w, worker, id) else w
    case Store(worker, manifestBytes, members) =>
      if worker !in w.workers || Busy(w, Worker(worker)) || w.workers[worker].stored.Some? then w
      else
        var archive, rows := Seal(manifestBytes, members), Manifest(digest, members);
        if !Verifies(digest, archive, rows) then w
        else
          var id := w.workers[worker].id;
          w.(objects := w.objects[id := archive], workers := w.workers[worker := Flight(id, Some(rows))])
    case Complete(worker) =>
      if worker !in w.workers || Busy(w, Worker(worker)) || w.workers[worker].stored.None? || w.workers[worker].id !in w.rows
      then w
      else Leave(Ended(w, Worker(worker), w.workers[worker].id, COMPLETED, w.workers[worker].stored), worker)
    case Fail(worker) =>
      if worker !in w.workers || Busy(w, Worker(worker)) || w.workers[worker].id !in w.rows then w
      else Leave(Ended(w, Worker(worker), w.workers[worker].id, FAILED, None), worker)
    case List(sweeper, ids, now) =>
      if !Busy(w, Sweeper(sweeper)) && forall i :: 0 <= i < |ids| ==> Stale(w, ids[i], now, timeout)
      then w.(sweeps := w.sweeps[sweeper := ids]) else w
    case SweepNext(sweeper) =>
      if !SweepTurn(w, sweeper) then w
      else
        var id := w.sweeps[sweeper][0];
        if Terminal(w.rows[id].phase) then w.(sweeps := w.sweeps[sweeper := []])
        else Ended(w.(sweeps := w.sweeps[sweeper := w.sweeps[sweeper][1..]]), Sweeper(sweeper), id, FAILED, None)
    case Append(actor, note) => if Owes(w, actor, note) then Appended(w, note) else w
    case Die(actor) => Dead(w, actor)
  }

  function Run(digest: Digest, timeout: int, w: World, es: seq<Event>): World {
    if es == [] then w else Step(digest, timeout, Run(digest, timeout, w, es[..|es| - 1]), es[|es| - 1])
  }

  /** The archive served for download: only a completed export has one. */
  function Download(w: World, id: string): Option<Archive> {
    if id in w.rows && w.rows[id].phase == COMPLETED && id in w.objects then Some(w.objects[id]) else None
  }

  // ------------------------------------------------------------------ invariant

  /** The row is where this event says it is, or further. */
  predicate Due(w: World, note: Note) {
    note.id in w.rows && if note.Begun? then w.rows[note.id].phase != QUEUED else Terminal(w.rows[note.id].phase)
  }

  function One(b: bool): nat {
    if b then 1 else 0
  }

  /** Every event due is written, still owed, or lost: one of the three, once. */
  ghost predicate Accounted(w: World, note: Note) {
    multiset(w.audit)[note] + One(note in w.owed) + One(note in w.lost) == One(Due(w, note))
  }

  ghost predicate Audited(w: World) {
    forall note :: Accounted(w, note)
  }

  ghost predicate ClaimsOk(w: World) {
    forall id :: id in w.claimed <==> id in w.rows && w.rows[id].phase != QUEUED
  }

  predicate Verified(digest: Digest, w: World, id: string, manifest: seq<ManifestRow>) {
    id in w.objects && Verifies(digest, w.objects[id], manifest)
  }

  /** What a worker's claim rests on. */
  ghost predicate FlightOk(digest: Digest, w: World, f: Flight) {
    && f.id in w.rows && (w.rows[f.id].phase == ASSEMBLING || w.rows[f.id].phase == FAILED)
    && (f.stored.Some? ==> Verified(digest, w, f.id, f.stored.value))
  }

  ghost predicate Manned(digest: Digest, w: World) {
    && (forall worker :: worker in w.workers ==> FlightOk(digest, w, w.workers[worker]))
    && (forall a, b :: a in w.workers && b in w.workers && w.workers[a].id == w.workers[b].id ==> a == b)
  }

  ghost predicate Sealed(digest: Digest, w: World) {
    forall id :: id in w.rows && w.rows[id].phase == COMPLETED ==>
      w.rows[id].manifest.Some? && Verified(digest, w, id, w.rows[id].manifest.value)
  }

  ghost predicate Swept(w: World) {
    forall s, i :: s in w.sweeps && 0 <= i < |w.sweeps[s]| ==> w.sweeps[s][i] in w.rows && w.rows[w.sweeps[s][i]].phase != QUEUED
  }

  ghost predicate Inv(digest: Digest, w: World) {
    Audited(w) && ClaimsOk(w) && Manned(digest, w) && Sealed(digest, w) && Swept(w)
  }

  // ------------------------------------------------------------------ keeping it

  lemma ClaimKeepsAudit(w: World, worker: string, id: string)
    requires Audited(w) && Claims(w, worker, id)
    ensures Audited(Claimed(w, worker, id))
  {
    forall note ensures Accounted(Claimed(w, worker, id), note) {
      assert Accounted(w, note);
    }
  }

  lemma ClaimKeeps(digest: Digest, w: World, worker: string, id: string)
    requires Inv(digest, w) && Claims(w, worker, id)
    ensures Inv(digest, Claimed(w, worker, id))
  {
    var t := Claimed(w, worker, id);
    ClaimKeepsAudit(w, worker, id);
    forall a | a in t.workers ensures FlightOk(digest, t, t.workers[a]) && (a != worker ==> t.workers[a].id != id) {
      if a != worker {
        assert FlightOk(digest, w, w.workers[a]);
      }
    }
  }

  lemma EndKeepsAudit(w: World, actor: Actor, id: string, phase: Phase, manifest: Option<seq<ManifestRow>>)
    requires Audited(w) && id in w.rows && w.rows[id].phase != QUEUED && Terminal(phase)
    ensures Audited(Ended(w, actor, id, phase, manifest))
  {
    forall note ensures Accounted(Ended(w, actor, id, phase, manifest), note) {
      assert Accounted(w, note);
    }
  }

  lemma FailKeeps(digest: Digest, w: World, actor: Actor, id: string)
    requires Inv(digest, w) && id in w.rows && w.rows[id].phase != QUEUED
    ensures Inv(digest, Ended(w, actor, id, FAILED, None))
  {
    EndKeepsAudit(w, actor, id, FAILED, None);
    var t := Ended(w, actor, id, FAILED, None);
    forall a | a in t.workers ensures FlightOk(digest, t, t.workers[a]) {
      assert FlightOk(digest, w, w.workers[a]);
    }
  }

  /** A change that concerns neither rows, claims, archives nor the audit trail. */
  lemma FewerKeep(digest: Digest, w: World, t: World)
    requires Inv(digest, w) && t == w.(workers := t.workers, sweeps := t.sweeps)
    requires forall a :: a in t.workers ==> a in w.workers && t.workers[a] == w.workers[a]
    requires forall s :: s in t.sweeps ==> s in w.sweeps && t.sweeps[s] == w.sweeps[s]
    ensures Inv(digest, t)
  {
    forall note ensures Accounted(t, note) {
      assert Accounted(w, note);
    }
    forall a | a in t.workers ensures FlightOk(digest, t, t.workers[a]) {
      assert FlightOk(digest, w, w.workers[a]);
    }
  }

  lemma DeathKeepsAudit(w: World, actor: Actor)
    requires Audited(w)
    ensures Audited(Dead(w, actor))
  {
    forall note ensures Accounted(Dead(w, actor), note) {
      assert Accounted(w, note);
    }
  }

  /** A change to the audit side alone. */
  lemma AuditSideKeeps(digest: Digest, w: World, t: World)
    requires Inv(digest, w) && t == w.(owed := t.owed, lost := t.lost, audit := t.audit) && Audited(t)
    ensures Inv(digest, t)
  {
    forall a | a in t.workers ensures FlightOk(digest, t, t.workers[a]) {
      assert FlightOk(digest, w, w.workers[a]);
    }
  }

  lemma DeathKeeps(digest: Digest, w: World, actor: Actor)
    requires Inv(digest, w)
    ensures Inv(digest, Dead(w, actor))
  {
    var t := Dead(w, actor);
    var m := w.(workers := t.workers, sweeps := t.sweeps);
    FewerKeep(digest, w, m);
    DeathKeepsAudit(w, actor);
    AuditSideKeeps(digest, m, t);
  }

  lemma AppendKeepsAudit(w: World, note: Note)
    requires Audited(w) && note in w.owed
    ensures Audited(Appended(w, note))
  {
    forall n ensures Accounted(Appended(w, note), n) {
      assert Accounted(w, n);
      assert multiset(w.audit + [note]) == multiset(w.audit) + multiset{note};
    }
  }

  lemma AppendKeeps(digest: Digest, w: World, note: Note)
    requires Inv(digest, w) && note in w.owed
    ensures Inv(digest, Appended(w, note))
  {
    AppendKeepsAudit(w, note);
    AuditSideKeeps(digest, w, Appended(w, note));
  }

  lemma CompleteKeeps(digest: Digest, w: World, worker: string)
    requires Inv(digest, w) && worker in w.workers && w.workers[worker].stored.Some?
    ensures w.workers[worker].id in w.rows
    ensures Inv(digest, Leave(Ended(w, Worker(worker), w.workers[worker].id, COMPLETED, w.workers[worker].stored), worker))
  {
    var f := w.workers[worker];
    assert FlightOk(digest, w, f);
    EndKeepsAudit(w, Worker(worker), f.id, COMPLETED, f.stored);
    var m := Ended(w, Worker(worker), f.id, COMPLETED, f.stored);
    var t := Leave(m, worker);
    forall note ensures Accounted(t, note) {
      assert Accounted(m, note);
    }
    forall a | a in t.workers ensures FlightOk(digest, t, t.workers[a]) {
      assert FlightOk(digest, w, w.workers[a]) && w.workers[a].id != f.id;
    }
    forall id | id in t.rows && t.rows[id].phase == COMPLETED
      ensures t.rows[id].manifest.Some? && Verified(digest, t, id, t.rows[id].manifest.value)
    {
      if id == f.id {
        assert Verified(digest, w, f.id, f.stored.value);
      } else {
        assert Verified(digest, w, id, w.rows[id].manifest.value);
      }
    }
  }

  lemma StoreKeeps(digest: Digest, timeout: int, w: World, e: Event)
    requires Inv(digest, w) && e.Store? && e.worker in w.workers && w.workers[e.worker].stored.None?
    requires !Busy(w, Worker(e.worker))
    ensures Inv(digest, Step(digest, timeout, w, e))
  {
    var archive, rows, id := Seal(e.manifestBytes, e.members), Manifest(digest, e.members), w.workers[e.worker].id;
    SealedVerifies(digest, e.manifestBytes, e.members);
    var t := Step(digest, timeout, w, e);
    assert FlightOk(digest, w, w.workers[e.worker]);
    assert t == w.(objects := w.objects[id := archive], workers := w.workers[e.worker := Flight(id, Some(rows))]);
    StoredKeeps(digest, w, t, e.worker, archive, rows);
  }

  lemma StoredKeeps(digest: Digest, w: World, t: World, worker: string, archive: Archive, rows: seq<ManifestRow>)
    requires Inv(digest, w) && worker in w.workers && Verifies(digest, archive, rows)
    requires t == w.(objects := w.objects[w.workers[worker].id := archive],
                     workers := w.workers[worker := Flight(w.workers[worker].id, Some(rows))])
    ensures Inv(digest, t)
  {
    var id := w.workers[worker].id;
    assert FlightOk(digest, w, w.workers[worker]);
    forall note ensures Accounted(t, note) {
      assert Accounted(w, note);
    }
    forall a | a in t.workers ensures FlightOk(digest, t, t.workers[a]) {
      if a != worker {
        assert FlightOk(digest, w, w.workers[a]) && w.workers[a].id != id;
      }
    }
  }

  lemma QueueKeeps(digest: Digest, w: World, id: string, now: int)
    requires Inv(digest, w) && id !in w.rows
    ensures Inv(digest, w.(rows := w.rows[id := Row(QUEUED, now, None)]))
  {
    var t := w.(rows := w.rows[id := Row(QUEUED, now, None)]);
    forall note ensures Accounted(t, note) {
      assert Accounted(w, note);
    }
    forall a | a in t.workers ensures FlightOk(digest, t, t.workers[a]) {
      assert FlightOk(digest, w, w.workers[a]);
    }
  }

  lemma SweepsKeep(digest: Digest, w: World, sweeper: string, ids: seq<string>)
    requires Inv(digest, w)
    requires forall i :: 0 <= i < |ids| ==> ids[i] in w.rows && w.rows[ids[i]].phase != QUEUED
    ensures Inv(digest, w.(sweeps := w.sweeps[sweeper := ids]))
  {
    var t := w.(sweeps := w.sweeps[sweeper := ids]);
    forall note ensures Accounted(t, note) {
      assert Accounted(w, note);
    }
    forall a | a in t.workers ensures FlightOk(digest, t, t.workers[a]) {
      assert FlightOk(digest, w, w.workers[a]);
    }
  }

  lemma SweepNextKeeps(digest: Digest, timeout: int, w: World, e: Event)
    requires Inv(digest, w) && e.SweepNext?
    ensures Inv(digest, Step(digest, timeout, w, e))
  {
    if SweepTurn(w, e.sweeper) {
      var ids := w.sweeps[e.sweeper];
      if Terminal(w.rows[ids[0]].phase) {
        SweepsKeep(digest, w, e.sweeper, []);
      } else {
        SweepsKeep(digest, w, e.sweeper, ids[1..]);
        FailKeeps(digest, w.(sweeps := w.sweeps[e.sweeper := ids[1..]]), Sweeper(e.sweeper), ids[0]);
      }
    }
  }

  lemma WorkerFailKeeps(digest: Digest, w: World, worker: string)
    requires Inv(digest, w) && worker in w.workers
    ensures w.workers[worker].id in w.rows
    ensures Inv(digest, Leave(Ended(w, Worker(worker), w.workers[worker].id, FAILED, None), worker))
  {
    var id := w.workers[worker].id;
    assert FlightOk(digest, w, w.workers[worker]);
    FailKeeps(digest, w, Worker(worker), id);
    var m := Ended(w, Worker(worker), id, FAILED, None);
    FewerKeep(digest, m, Leave(m, worker));
  }

  lemma StepKeepsInv(digest: Digest, timeout: int, w: World, e: Event)
    requires Inv(digest, w)
    ensures Inv(digest, Step(digest, timeout, w, e))
  {
    if Step(digest, timeout, w, e) != w {
      match e
      case Queue(id, now) => QueueKeeps(digest, w, id, now);
      case Claim(worker, id) => ClaimKeeps(digest, w, worker, id);
      case Store(worker, _, _) => StoreKeeps(digest, timeout, w, e);
      case Complete(worker) => CompleteKeeps(digest, w, worker);
      case Fail(worker) => WorkerFailKeeps(digest, w, worker);
      case List(sweeper, ids, now) => SweepsKeep(digest, w, sweeper, ids);
      case SweepNext(_) => SweepNextKeeps(digest, timeout, w, e);
      case Append(_, note) => AppendKeeps(digest, w, note);
      case Die(actor) => DeathKeeps(digest, w, actor);
    }
  }

  lemma {:induction false} RunKeepsInv(digest: Digest, timeout: int, w: World, es: seq<Event>)
    requires Inv(digest, w)
    ensures Inv(digest, Run(digest, timeout, w, es))
    decreases |es|
  {
    if es != [] {
      RunKeepsInv(digest, timeout, w, es[..|es| - 1]);
      StepKeepsInv(digest, timeout, Run(digest, timeout, w, es[..|es| - 1]), es[|es| - 1]);
    }
  }

  // ------------------------------------------------------------------ over every interleaving

  /**
   Under any interleaving the pickup and the ending of an export are each written at most once, and exactly once when the row
   has got there, nobody is about to append the event and nobody died owing it.
   */
  lemma EveryEventIsWrittenOnce(digest: Digest, timeout: int, es: seq<Event>, note: Note)
    ensures var w := Run(digest, timeout, EMPTY, es);
            && multiset(w.audit)[note] <= 1
            && (multiset(w.audit)[note] == 1 <==>
                  Due(w, note) && note !in w.owed && !DiedOwing(digest, timeout, es, note))
  {
    RunKeepsInv(digest, timeout, EMPTY, es);
    assert Accounted(Run(digest, timeout, EMPTY, es), note);
    LostByDeath(digest, timeout, es, note);
  }

  /** At some point of the run somebody died between saving the row and appending this event. */
  ghost predicate DiedOwing(digest: Digest, timeout: int, es: seq<Event>, note: Note) {
    es != [] &&
    var p, e := es[..|es| - 1], es[|es| - 1];
    DiedOwing(digest, timeout, p, note) || (e.Die? && Owes(Run(digest, timeout, EMPTY, p), e.actor, note))
  }

  lemma {:induction false} LostByDeath(digest: Digest, timeout: int, es: seq<Event>, note: Note)
    ensures note in Run(digest, timeout, EMPTY, es).lost <==> DiedOwing(digest, timeout, es, note)
    decreases |es|
  {
    if es != [] {
      var p := es[..|es| - 1];
      LostByDeath(digest, timeout, p, note);
      LostGrows(digest, timeout, Run(digest, timeout, EMPTY, p), es[|es| - 1], note);
    }
  }

  lemma LostGrows(digest: Digest, timeout: int, w: World, e: Event, note: Note)
    ensures note in Step(digest, timeout, w, e).lost <==> note in w.lost || (e.Die? && Owes(w, e.actor, note))
  {
  }

  /** An export is held by at most one worker at a time. */
  lemma OneClaimant(digest: Digest, timeout: int, es: seq<Event>, a: string, b: string)
    ensures var w := Run(digest, timeout, EMPTY, es);
            a in w.workers && b in w.workers && w.workers[a].id == w.workers[b].id ==> a == b
  {
    RunKeepsInv(digest, timeout, EMPTY, es);
  }

  /** A download is served exactly for completed exports, and what it serves matches the stored manifest. */
  lemma DownloadIsCompletedAndVerified(digest: Digest, timeout: int, es: seq<Event>, id: string)
    ensures var w := Run(digest, timeout, EMPTY, es);
            (Download(w, id).Some? <==> id in w.rows && w.rows[id].phase == COMPLETED) &&
            (Download(w, id).Some? ==>
               w.rows[id].manifest.Some? && Verifies(digest, Download(w, id).value, w.rows[id].manifest.value))
  {
    RunKeepsInv(digest, timeout, EMPTY, es);
    var w := Run(digest, timeout, EMPTY, es);
    if id in w.rows && w.rows[id].phase == COMPLETED {
      assert Verified(digest, w, id, w.rows[id].manifest.value);
    }
  }

  ghost predicate StillEnded(w: World, t: World, id: string)
    requires id in w.rows
  {
    id in t.rows && t.rows[id] == w.rows[id] && Download(t, id) == Download(w, id)
  }

  lemma StoreLeavesEnded(digest: Digest, timeout: int, w: World, e: Event, id: string)
    requires Inv(digest, w) && id in w.rows && Terminal(w.rows[id].phase) && e.Store?
    ensures StillEnded(w, Step(digest, timeout, w, e), id)
  {
    if e.worker in w.workers {
      assert FlightOk(digest, w, w.workers[e.worker]);
    }
  }

  lemma EndLeavesEnded(digest: Digest, timeout: int, w: World, e: Event, id: string)
    requires id in w.rows && Terminal(w.rows[id].phase) && (e.Complete? || e.Fail? || e.SweepNext?)
    ensures StillEnded(w, Step(digest, timeout, w, e), id)
  {
  }

  lemma TerminalStep(digest: Digest, timeout: int, w: World, e: Event, id: string)
    requires Inv(digest, w) && id in w.rows && Terminal(w.rows[id].phase)
    ensures StillEnded(w, Step(digest, timeout, w, e), id)
  {
    if e.Store? {
      StoreLeavesEnded(digest, timeout, w, e, id);
    } else if e.Complete? || e.Fail? || e.SweepNext? {
      EndLeavesEnded(digest, timeout, w, e, id);
    }
  }

  /**
   The first ending wins for good: neither a late worker nor a late sweep changes the row, and the archive served for it
   stays the same.
   */
  lemma {:induction false} EndingIsForever(digest: Digest, timeout: int, w: World, es: seq<Event>, id: string)
    requires Inv(digest, w) && id in w.rows && Terminal(w.rows[id].phase)
    ensures StillEnded(w, Run(digest, timeout, w, es), id)
    decreases |es|
  {
    if es != [] {
      var rest := es[..|es| - 1];
      EndingIsForever(digest, timeout, w, rest, id);
      RunKeepsInv(digest, timeout, w, rest);
      TerminalStep(digest, timeout, Run(digest, timeout, w, rest), es[|es| - 1], id);
    }
  }

  /** What may move an export from one phase to the next. */
  predicate Moves(w: World, e: Event, id: string, to: Phase)
    requires id in w.rows
  {
    match to
    case QUEUED => false
    case ASSEMBLING =>
      w.rows[id].phase == QUEUED && e.Claim? && e.id == id && e.worker !in w.workers && OwedBy(w, Worker(e.worker)) == {}
    case COMPLETED =>
      w.rows[id].phase == ASSEMBLING && e.Complete? && e.worker in w.workers && w.workers[e.worker].id == id &&
      w.workers[e.worker].stored.Some? && OwedBy(w, Worker(e.worker)) == {}
    case FAILED =>
      w.rows[id].phase == ASSEMBLING &&
      ((e.Fail? && e.worker in w.workers && w.workers[e.worker].id == id && OwedBy(w, Worker(e.worker)) == {}) ||
       (e.SweepNext? && e.sweeper in w.sweeps && w.sweeps[e.sweeper] != [] && w.sweeps[e.sweeper][0] == id &&
        OwedBy(w, Sweeper(e.sweeper)) == {}))
  }

  /** From the export's row to `t`, as the event moves it. */
  predicate MovesRight(w: World, e: Event, id: string, t: Row)
    requires id in w.rows
  {
    && t.createdAt == w.rows[id].createdAt
    && (forall to :: to != w.rows[id].phase ==> (t.phase == to <==> Moves(w, e, id, to)))
    && (t.phase == w.rows[id].phase ==> t == w.rows[id])
    && (Moves(w, e, id, COMPLETED) ==> t.manifest == w.workers[e.worker].stored)
  }

  lemma CompleteMovesRight(digest: Digest, timeout: int, w: World, e: Event, id: string)
    requires Inv(digest, w) && id in w.rows && e.Complete?
    ensures id in Step(digest, timeout, w, e).rows && MovesRight(w, e, id, Step(digest, timeout, w, e).rows[id])
  {
    if e.worker in w.workers {
      assert FlightOk(digest, w, w.workers[e.worker]);
    }
  }

  lemma FailMovesRight(digest: Digest, timeout: int, w: World, e: Event, id: string)
    requires Inv(digest, w) && id in w.rows && e.Fail?
    ensures id in Step(digest, timeout, w, e).rows && MovesRight(w, e, id, Step(digest, timeout, w, e).rows[id])
  {
    if e.worker in w.workers {
      assert FlightOk(digest, w, w.workers[e.worker]);
    }
  }

  lemma SweepMovesRight(digest: Digest, timeout: int, w: World, e: Event, id: string)
    requires Inv(digest, w) && id in w.rows && e.SweepNext?
    ensures id in Step(digest, timeout, w, e).rows && MovesRight(w, e, id, Step(digest, timeout, w, e).rows[id])
  {
    if SweepTurn(w, e.sweeper) {
      assert w.rows[w.sweeps[e.sweeper][0]].phase != QUEUED;
    }
  }

  lemma ClaimMovesRight(digest: Digest, timeout: int, w: World, e: Event, id: string)
    requires ClaimsOk(w) && id in w.rows && e.Claim?
    ensures id in Step(digest, timeout, w, e).rows && MovesRight(w, e, id, Step(digest, timeout, w, e).rows[id])
  {
  }

  lemma OthersMoveNothing(digest: Digest, timeout: int, w: World, e: Event, id: string)
    requires id in w.rows && !(e.Claim? || e.Complete? || e.Fail? || e.SweepNext?)
    ensures id in Step(digest, timeout, w, e).rows && Step(digest, timeout, w, e).rows[id] == w.rows[id]
  {
  }

  /** Exports only move forward, exactly by a free worker that claims or ends its own or, to FAILED, by a free sweep that has it
      next on its list; a completed one carries the manifest its worker stored. */
  lemma EveryMoveIsForward(digest: Digest, timeout: int, w: World, e: Event, id: string)
    requires Inv(digest, w) && id in w.rows
    ensures id in Step(digest, timeout, w, e).rows && MovesRight(w, e, id, Step(digest, timeout, w, e).rows[id])
  {
    if e.Complete? {
      CompleteMovesRight(digest, timeout, w, e, id);
    } else if e.Fail? {
      FailMovesRight(digest, timeout, w, e, id);
    } else if e.SweepNext? {
      SweepMovesRight(digest, timeout, w, e, id);
    } else if e.Claim? {
      ClaimMovesRight(digest, timeout, w, e, id);
    } else {
      OthersMoveNothing(digest, timeout, w, e, id);
    }
  }

  /** An export appears exactly when it is queued for the first time. */
  lemma ExportsAppearExactly(digest: Digest, timeout: int, w: World, e: Event, id: string)
    requires Inv(digest, w) && id !in w.rows
    ensures var t := Step(digest, timeout, w, e);
            (id in t.rows <==> e.Queue? && e.id == id) && (id in t.rows ==> t.rows[id] == Row(QUEUED, e.now, None))
  {
    if (e.Complete? || e.Fail?) && e.worker in w.workers {
      assert FlightOk(digest, w, w.workers[e.worker]);
    }
  }

  /** A free worker with a claim and nothing stored yet stores the archive of these members and its manifest. */
  lemma StoresItsMembers(digest: Digest, timeout: int, w: World, worker: string, manifestBytes: Bytes, members: Members)
    requires worker in w.workers && w.workers[worker].stored.None? && OwedBy(w, Worker(worker)) == {}
    ensures var t, id := Step(digest, timeout, w, Store(worker, manifestBytes, members)), w.workers[worker].id;
            && id in t.objects && t.objects[id] == Seal(manifestBytes, members)
            && worker in t.workers && t.workers[worker] == Flight(id, Some(Manifest(digest, members)))
  {
    SealedVerifies(digest, manifestBytes, members);
  }

  /** A worker is at work on an export from its claim until it completes or fails it, or dies. */
  lemma AtWorkExactly(digest: Digest, timeout: int, w: World, e: Event, worker: string)
    requires Inv(digest, w)
    ensures var t, free := Step(digest, timeout, w, e), OwedBy(w, Worker(worker)) == {};
            if worker !in w.workers
            then worker in t.workers <==>
                 e.Claim? && e.worker == worker && free && e.id in w.rows && w.rows[e.id].phase == QUEUED
            else worker !in t.workers <==>
                 || e == Die(Worker(worker)) || (e == Fail(worker) && free)
                 || (e == Complete(worker) && free && w.workers[worker].stored.Some?)
  {
    if worker in w.workers {
      assert FlightOk(digest, w, w.workers[worker]);
    }
  }

  /** A sweep's list is dropped whole at its death or at the first ended export it meets, and else gets shorter by the one failed. */
  lemma ListsShrinkExactly(digest: Digest, timeout: int, w: World, e: Event, sweeper: string)
    requires Inv(digest, w) && sweeper in w.sweeps && !e.List?
    ensures var t, ids := Step(digest, timeout, w, e), w.sweeps[sweeper];
            if e == Die(Sweeper(sweeper)) then sweeper !in t.sweeps
            else
              sweeper in t.sweeps &&
              t.sweeps[sweeper] ==
              if e != SweepNext(sweeper) || OwedBy(w, Sweeper(sweeper)) != {} || ids == [] then ids
              else if w.rows[ids[0]].phase == ASSEMBLING then ids[1..] else []
  {
  }

  /** Nothing else writes an object. */
  lemma ObjectsStay(digest: Digest, timeout: int, w: World, e: Event, id: string)
    requires !(e.Store? && e.worker in w.workers && w.workers[e.worker].id == id && w.workers[e.worker].stored.None?
               && OwedBy(w, Worker(e.worker)) == {})
    ensures var t := Step(digest, timeout, w, e);
            (id in t.objects <==> id in w.objects) && (id in w.objects ==> t.objects[id] == w.objects[id])
  {
  }

  /** A sweep lists exactly what it is given when all of it is past the timeout, and is free to. */
  lemma ListsExactly(digest: Digest, timeout: int, w: World, sweeper: string, ids: seq<string>, now: int)
    ensures var t := Step(digest, timeout, w, List(sweeper, ids, now));
            if OwedBy(w, Sweeper(sweeper)) == {} &&
               forall i :: 0 <= i < |ids| ==>
                 ids[i] in w.rows && w.rows[ids[i]].phase == ASSEMBLING && w.rows[ids[i]].createdAt + timeout <= now
            then t == w.(sweeps := w.sweeps[sweeper := ids]) else t == w
  {
  }

  /** Some listing of this sweeper found the export stale. */
  ghost predicate WasStale(es: seq<Event>, sweeper: string, createdAt: int, timeout: int) {
    exists i :: 0 <= i < |es| && es[i].List? && es[i].sweeper == sweeper && es[i].now - createdAt >= timeout
  }

  /** No export is timed out early: whatever stands on a sweep's list was older than the timeout when it was listed. */
  lemma {:induction false} SweepsListOnlyStale(digest: Digest, timeout: int, es: seq<Event>, sweeper: string, k: nat)
    requires var w := Run(digest, timeout, EMPTY, es); sweeper in w.sweeps && k < |w.sweeps[sweeper]|
    ensures var w := Run(digest, timeout, EMPTY, es);
            var id := w.sweeps[sweeper][k];
            id in w.rows && WasStale(es, sweeper, w.rows[id].createdAt, timeout)
    decreases |es|
  {
    if es != [] {
      var rest, last := es[..|es| - 1], es[|es| - 1];
      var w := Run(digest, timeout, EMPTY, rest);
      var j := ListComesFrom(digest, timeout, w, last, sweeper, k);
      CutLast(es);
      if j.Some? {
        SweepsListOnlyStale(digest, timeout, rest, sweeper, j.value);
        ListedBefore(digest, timeout, w, rest, last, sweeper, w.sweeps[sweeper][j.value]);
      } else {
        ListedNow(Step(digest, timeout, w, last), rest, last, timeout, Step(digest, timeout, w, last).sweeps[sweeper][k]);
      }
    }
  }

  lemma ListedNow(t: World, rest: seq<Event>, last: Event, timeout: int, id: string)
    requires last.List? && Stale(t, id, last.now, timeout)
    ensures id in t.rows && WasStale(rest + [last], last.sweeper, t.rows[id].createdAt, timeout)
  {
    assert (rest + [last])[|rest|] == last;
  }

  lemma ListedBefore(digest: Digest, timeout: int, w: World, rest: seq<Event>, last: Event, sweeper: string, id: string)
    requires id in w.rows && WasStale(rest, sweeper, w.rows[id].createdAt, timeout)
    ensures var t := Step(digest, timeout, w, last);
            id in t.rows && WasStale(rest + [last], sweeper, t.rows[id].createdAt, timeout)
  {
    KeepsItsBirth(digest, timeout, w, last, id);
    WasStaleGrows(rest, last, sweeper, w.rows[id].createdAt, timeout);
  }

  lemma KeepsItsBirth(digest: Digest, timeout: int, w: World, e: Event, id: string)
    requires id in w.rows
    ensures id in Step(digest, timeout, w, e).rows && Step(digest, timeout, w, e).rows[id].createdAt == w.rows[id].createdAt
  {
  }

  lemma WasStaleGrows(es: seq<Event>, e: Event, sweeper: string, createdAt: int, timeout: int)
    requires WasStale(es, sweeper, createdAt, timeout)
    ensures WasStale(es + [e], sweeper, createdAt, timeout)
  {
    var i :| 0 <= i < |es| && es[i].List? && es[i].sweeper == sweeper && es[i].now - createdAt >= timeout;
    assert (es + [e])[i] == es[i];
  }

  /** An entry of a list was put there by this very event, or stood on the list before it. */
  lemma ListComesFrom(digest: Digest, timeout: int, w: World, e: Event, sweeper: string, k: nat) returns (j: Option<nat>)
    requires var t := Step(digest, timeout, w, e); sweeper in t.sweeps && k < |t.sweeps[sweeper]|
    ensures var t := Step(digest, timeout, w, e);
            if j.None? then e.List? && e.sweeper == sweeper && Stale(t, t.sweeps[sweeper][k], e.now, timeout)
            else sweeper in w.sweeps && j.value < |w.sweeps[sweeper]| && w.sweeps[sweeper][j.value] == t.sweeps[sweeper][k]
  {
    var t := Step(digest, timeout, w, e);
    if e.List? && e.sweeper == sweeper && t != w {
      return None;
    }
    return Some(if e.SweepNext? && e.sweeper == sweeper && t != w then k + 1 else k);
  }

  // ------------------------------------------------------------------ what others can do to a claimed export

  predicate By(e: Event, actor: Actor) {
    match e
    case Queue(_, _) => false
    case Claim(worker, _) => actor == Worker(worker)
    case Store(worker, _, _) => actor == Worker(worker)
    case Complete(worker) => actor == Worker(worker)
    case Fail(worker) => actor == Worker(worker)
    case List(sweeper, _, _) => actor == Sweeper(sweeper)
    case SweepNext(sweeper) => actor == Sweeper(sweeper)
    case Append(a, _) => actor == a
    case Die(a) => actor == a
  }

  /** While a worker works, others can fail its export but neither complete it nor touch its archive or its claim. */
  ghost predicate Untouched(w: World, t: World, worker: string)
    requires worker in w.workers && w.workers[worker].id in w.rows
  {
    var id := w.workers[worker].id;
    && worker in t.workers && t.workers[worker] == w.workers[worker]
    && id in t.rows && (t.rows[id] == w.rows[id] || t.rows[id] == w.rows[id].(phase := FAILED, manifest := None))
    && (id in w.objects <==> id in t.objects) && (id in w.objects ==> t.objects[id] == w.objects[id])
  }

  lemma OthersLeaveIt(digest: Digest, timeout: int, w: World, e: Event, worker: string)
    requires Inv(digest, w) && worker in w.workers && !By(e, Worker(worker))
    ensures w.workers[worker].id in w.rows && Untouched(w, Step(digest, timeout, w, e), worker)
  {
    assert FlightOk(digest, w, w.workers[worker]);
    match e
    case Claim(_, _) => ClaimLeavesIt(digest, timeout, w, e, worker);
    case Store(_, _, _) => StoreLeavesIt(digest, timeout, w, e, worker);
    case Complete(_) => EndLeavesIt(digest, timeout, w, e, worker);
    case Fail(_) => EndLeavesIt(digest, timeout, w, e, worker);
    case SweepNext(_) => SweepLeavesIt(digest, timeout, w, e, worker);
    case _ =>
  }

  lemma SweepLeavesIt(digest: Digest, timeout: int, w: World, e: Event, worker: string)
    requires Inv(digest, w) && worker in w.workers && e.SweepNext?
    ensures w.workers[worker].id in w.rows && Untouched(w, Step(digest, timeout, w, e), worker)
  {
    assert FlightOk(digest, w, w.workers[worker]);
  }

  /** `worker` holds a claim on an export that is not queued, and the event's worker holds none on the same. */
  ghost predicate Apart(w: World, e: Event, worker: string) {
    && (e.Store? || e.Complete? || e.Fail? || e.Claim?) && e.worker != worker
    && worker in w.workers && w.workers[worker].id in w.rows && w.rows[w.workers[worker].id].phase != QUEUED
    && (e.worker in w.workers ==> w.workers[e.worker].id != w.workers[worker].id)
  }

  lemma ClaimLeavesIt(digest: Digest, timeout: int, w: World, e: Event, worker: string)
    requires Apart(w, e, worker) && e.Claim?
    ensures Untouched(w, Step(digest, timeout, w, e), worker)
  {
  }

  lemma StoreLeavesIt(digest: Digest, timeout: int, w: World, e: Event, worker: string)
    requires Apart(w, e, worker) && e.Store?
    ensures Untouched(w, Step(digest, timeout, w, e), worker)
  {
  }

  lemma EndLeavesIt(digest: Digest, timeout: int, w: World, e: Event, worker: string)
    requires Apart(w, e, worker) && !e.Claim? && !e.Store?
    ensures Untouched(w, Step(digest, timeout, w, e), worker)
  {
  }

  ghost predicate NoneBy(es: seq<Event>, actor: Actor) {
    forall i :: 0 <= i < |es| ==> !By(es[i], actor)
  }

  /** Only the claimant can complete an export: over any run of the others it is as it was, or failed by a sweep. */
  lemma {:induction false} OnlyTheClaimantCompletes(digest: Digest, timeout: int, w: World, es: seq<Event>, worker: string)
    requires Inv(digest, w) && worker in w.workers && NoneBy(es, Worker(worker))
    ensures w.workers[worker].id in w.rows && Untouched(w, Run(digest, timeout, w, es), worker)
    decreases |es|
  {
    assert FlightOk(digest, w, w.workers[worker]);
    if es != [] {
      var rest := es[..|es| - 1];
      OnlyTheClaimantCompletes(digest, timeout, w, rest, worker);
      RunKeepsInv(digest, timeout, w, rest);
      OthersLeaveIt(digest, timeout, Run(digest, timeout, w, rest), es[|es| - 1], worker);
    }
  }

  /** An actor's debts are its own, and what was written stays written. */
  ghost predicate DebtsKept(w: World, t: World, actor: Actor) {
    w.audit <= t.audit && OwedBy(t, actor) == OwedBy(w, actor)
  }

  lemma ClaimLeavesDebts(digest: Digest, timeout: int, w: World, e: Event, actor: Actor)
    requires Audited(w) && e.Claim? && !By(e, actor)
    ensures DebtsKept(w, Step(digest, timeout, w, e), actor)
  {
    assert Accounted(w, Begun(e.id));
  }

  lemma EndLeavesDebts(digest: Digest, timeout: int, w: World, e: Event, actor: Actor)
    requires Audited(w) && (e.Complete? || e.Fail?) && !By(e, actor)
    ensures DebtsKept(w, Step(digest, timeout, w, e), actor)
  {
    if e.worker in w.workers {
      assert Accounted(w, Over(w.workers[e.worker].id));
    }
  }

  lemma SweepLeavesDebts(digest: Digest, timeout: int, w: World, e: Event, actor: Actor)
    requires Audited(w) && e.SweepNext? && !By(e, actor)
    ensures DebtsKept(w, Step(digest, timeout, w, e), actor)
  {
    if SweepTurn(w, e.sweeper) {
      assert Accounted(w, Over(w.sweeps[e.sweeper][0]));
    }
  }

  lemma AuditLeavesDebts(digest: Digest, timeout: int, w: World, e: Event, actor: Actor)
    requires (e.Append? || e.Die?) && !By(e, actor)
    ensures DebtsKept(w, Step(digest, timeout, w, e), actor)
  {
  }

  lemma OthersLeaveDebts(digest: Digest, timeout: int, w: World, e: Event, actor: Actor)
    requires Audited(w) && !By(e, actor)
    ensures DebtsKept(w, Step(digest, timeout, w, e), actor)
  {
    match e
    case Claim(_, _) => ClaimLeavesDebts(digest, timeout, w, e, actor);
    case Complete(_) => EndLeavesDebts(digest, timeout, w, e, actor);
    case Fail(_) => EndLeavesDebts(digest, timeout, w, e, actor);
    case SweepNext(_) => SweepLeavesDebts(digest, timeout, w, e, actor);
    case Append(_, _) => AuditLeavesDebts(digest, timeout, w, e, actor);
    case Die(_) => AuditLeavesDebts(digest, timeout, w, e, actor);
    case _ =>
  }

  lemma {:induction false} OthersKeepDebts(digest: Digest, timeout: int, w: World, es: seq<Event>, actor: Actor)
    requires Inv(digest, w) && NoneBy(es, actor)
    ensures DebtsKept(w, Run(digest, timeout, w, es), actor)
    decreases |es|
  {
    if es != [] {
      var rest := es[..|es| - 1];
      OthersKeepDebts(digest, timeout, w, rest, actor);
      RunKeepsInv(digest, timeout, w, rest);
      OthersLeaveDebts(digest, timeout, Run(digest, timeout, w, rest), es[|es| - 1], actor);
    }
  }
}

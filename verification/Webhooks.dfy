/**
 Inbound webhook pipeline (bdpay/connectors/webhooks.py).

 Rows are keyed by (connector_id, raw body); the content hash is taken to be injective. The only suspension point of an
 ingest or of the parked sweep is the kernel call, so a `Piece` is the code between two kernel calls and any
 interleaving of any number of ingests with one sweeper is a sequence of pieces. The kernel may accept, decline or raise.
 */
module Webhooks {
  import opened Common

  datatype Status = RECEIVED | VERIFIED | PARSED | HANDED_OFF | PROCESSED | PARKED | REJECTED | DUPLICATE

  datatype Reason = SignatureUnverifiable | ParseError | Unmatched

  datatype Key = Key(connectorId: string, body: string)

  datatype Row = Row(status: Status, reason: Option<Reason>, receivedAt: int, processedAt: Option<int>)

  /** What `verify_signature` did; only the literal True verifies. */
  datatype Check = LiteralTrue | OtherValue | RaisedCheck

  datatype Verdict = Accepts | Declines | Raises

  /** The one sweeper: the rows it listed, how many it has taken up, and whether it awaits the kernel on the last one. */
  datatype Sweep = Idle | Active(now: int, snapshot: seq<Key>, done: nat, waiting: bool)

  /** `inflight`: rows whose ingest awaits the kernel. `accepted`: bodies the kernel accepted, in order. `results`: WEBHOOK
      result rows by their webhook_inbound_id. `denied`: transitions refused by the FSM table. */
  datatype State = State(rows: map<Key, Row>, order: seq<Key>, results: seq<Key>, accepted: seq<Key>,
                         inflight: set<Key>, sweep: Sweep, denied: nat)

  const INITIAL := State(map[], [], [], [], {}, Idle, 0)
  const PARK_TTL := 24 * 3600

  datatype Piece =
    | Deliver(key: Key, now: int, handler: bool, check: Check, parses: bool)
    | Answer(key: Key, verdict: Verdict, now: int)
    | SweepBegin(now: int)
    | SweepVisit(handler: bool, parses: bool, now: int)
    | SweepAnswer(verdict: Verdict, now: int)

  // ------------------------------------------------------------------ the FSM table

  predicate Allowed(from: Status, to: Status) {
    match from
    case RECEIVED => to == VERIFIED || to == REJECTED
    case VERIFIED => to == PARSED || to == DUPLICATE
    case PARSED => to == HANDED_OFF || to == PARKED || to == REJECTED
    case HANDED_OFF => to == PROCESSED
    case PARKED => to == PARSED || to == REJECTED
    case _ => false
  }

  predicate Terminal(st: Status) {
    st == PROCESSED || st == REJECTED || st == DUPLICATE
  }

  function Moved(row: Row, to: Status, reason: Option<Reason>, now: int): Row {
    row.(status := to,
         reason := if reason.Some? then reason else row.reason,
         processedAt := if Terminal(to) then Some(now) else row.processedAt)
  }

  /** `_advance`, the only status writer. */
  function Advance(s: State, key: Key, to: Status, reason: Option<Reason>, now: int): State {
    if key in s.rows && Allowed(s.rows[key].status, to)
    then s.(rows := s.rows[key := Moved(s.rows[key], to, reason, now)])
    else s.(denied := s.denied + 1)
  }

  // ------------------------------------------------------------------ pieces

  /** Insert, verify, parse; an accepted delivery is left awaiting the kernel. */
  function Ingest(s: State, key: Key, now: int, check: Check, parses: bool): State {
    if key in s.rows then s
    else
      var s1 := s.(rows := s.rows[key := Row(RECEIVED, None, now, None)], order := s.order + [key]);
      if check != LiteralTrue then Advance(s1, key, REJECTED, Some(SignatureUnverifiable), now)
      else
        var s2 := Advance(Advance(s1, key, VERIFIED, None, now), key, PARSED, None, now);
        if parses then s2.(inflight := s2.inflight + {key})
        else Advance(s2, key, REJECTED, Some(ParseError), now)
  }

  /** The rest of `_handoff` once the kernel has answered (a raising kernel leaves the row PARSED). */
  function Handoff(s: State, key: Key, verdict: Verdict, now: int): State {
    match verdict
    case Raises => s
    case Declines => Advance(s, key, PARKED, None, now)
    case Accepts =>
      var s1 := s.(accepted := s.accepted + [key], results := s.results + [key]);
      Advance(Advance(s1, key, HANDED_OFF, None, now), key, PROCESSED, None, now)
  }

  function ParkedOf(rows: map<Key, Row>, order: seq<Key>): seq<Key>
    decreases |order|
  {
    if order == [] then []
    else
      var rest := ParkedOf(rows, order[..|order| - 1]);
      var key := order[|order| - 1];
      if key in rows && rows[key].status == PARKED then rest + [key] else rest
  }

  /** One turn of the sweep loop up to the kernel call or the end of the turn. */
  function Visit(s: State, handler: bool, parses: bool, now: int): State {
    if !s.sweep.Active? || s.sweep.waiting then s
    else if s.sweep.done >= |s.sweep.snapshot| then s.(sweep := Idle)
    else
      var key := s.sweep.snapshot[s.sweep.done];
      var taken := s.sweep.(done := s.sweep.done + 1);
      if key in s.rows && s.sweep.now - s.rows[key].receivedAt >= PARK_TTL then
        Advance(s, key, REJECTED, Some(Unmatched), now).(sweep := taken)
      else if !handler || !parses then s.(sweep := taken)
      else Advance(s, key, PARSED, None, now).(sweep := taken.(waiting := true))
  }

  function Step(s: State, p: Piece): State {
    match p
    case Deliver(key, now, handler, check, parses) => if handler then Ingest(s, key, now, check, parses) else s
    case Answer(key, verdict, now) =>
      if key in s.inflight then Handoff(s, key, verdict, now).(inflight := s.inflight - {key}) else s
    case SweepBegin(now) =>
      if s.sweep.Idle? then s.(sweep := Active(now, ParkedOf(s.rows, s.order), 0, false)) else s
    case SweepVisit(handler, parses, now) => Visit(s, handler, parses, now)
    case SweepAnswer(verdict, now) =>
      if s.sweep.Active? && s.sweep.waiting && 0 < s.sweep.done <= |s.sweep.snapshot| then
        var s1 := Handoff(s, s.sweep.snapshot[s.sweep.done - 1], verdict, now);
        s1.(sweep := if verdict == Raises then Idle else s.sweep.(waiting := false))
      else s
  }

  function Run(s: State, ps: seq<Piece>): State
    decreases |ps|
  {
    if ps == [] then s else Step(Run(s, ps[..|ps| - 1]), ps[|ps| - 1])
  }

  // ------------------------------------------------------------------ the invariant

  /** Rows rest only in these four states; RECEIVED, VERIFIED, HANDED_OFF are passed through, DUPLICATE is never stored. */
  predicate Resting(st: Status) {
    st == PARSED || st == PARKED || st == PROCESSED || st == REJECTED
  }

  ghost predicate RowsOk(s: State) {
    && s.denied == 0
    && Distinct(s.order) && (forall k :: k in s.order <==> k in s.rows)
    && (forall k :: k in s.rows ==> Resting(s.rows[k].status))
    && (forall k :: k in s.inflight ==> k in s.rows && s.rows[k].status == PARSED)
    && (forall k :: k in s.rows && s.rows[k].reason == Some(Unmatched) ==>
          s.rows[k].status == REJECTED)
  }

  /** Exactly the PROCESSED rows were accepted, each once, each with its one result row. */
  ghost predicate Accounted(s: State) {
    && s.results == s.accepted && Distinct(s.accepted)
    && (forall k :: k in s.accepted <==> k in s.rows && s.rows[k].status == PROCESSED)
  }

  /** The row the sweeper awaits the kernel on is PARSED and its own; rows not yet taken up are still PARKED; rows taken up
      are not overdue PARKED. */
  ghost predicate SweepOk(s: State) {
    s.sweep.Active? ==>
      var w := s.sweep;
      && w.done <= |w.snapshot| && (w.waiting ==> w.done > 0)
      && Distinct(w.snapshot) && (forall i :: 0 <= i < |w.snapshot| ==> w.snapshot[i] in s.rows)
      && (forall i :: 0 <= i < |w.snapshot| ==> w.snapshot[i] !in s.inflight)
      && (forall i :: w.done <= i < |w.snapshot| ==> s.rows[w.snapshot[i]].status == PARKED)
      && (w.waiting ==> s.rows[w.snapshot[w.done - 1]].status == PARSED
                        && w.now - s.rows[w.snapshot[w.done - 1]].receivedAt < PARK_TTL)
      && (forall i :: 0 <= i < w.done && s.rows[w.snapshot[i]].status == PARKED ==>
            w.now - s.rows[w.snapshot[i]].receivedAt < PARK_TTL)
  }

  ghost predicate Inv(s: State) {
    RowsOk(s) && Accounted(s) && SweepOk(s)
  }

  lemma {:induction false} ParkedOfLists(rows: map<Key, Row>, order: seq<Key>)
    ensures var p := ParkedOf(rows, order);
            && (forall k :: k in p <==> k in order && k in rows && rows[k].status == PARKED)
            && (Distinct(order) ==> Distinct(p))
    decreases |order|
  {
    if order != [] {
      ParkedOfLists(rows, order[..|order| - 1]);
      assert order == order[..|order| - 1] + [order[|order| - 1]];
    }
  }

  // What each piece does to the one row it works on.

  function FreshRow(now: int, check: Check, parses: bool): Row {
    if check != LiteralTrue then Row(REJECTED, Some(SignatureUnverifiable), now, Some(now))
    else if !parses then Row(REJECTED, Some(ParseError), now, Some(now))
    else Row(PARSED, None, now, None)
  }

  lemma IngestEffect(s: State, key: Key, now: int, check: Check, parses: bool)
    requires key !in s.rows
    ensures var row := FreshRow(now, check, parses);
            Ingest(s, key, now, check, parses) ==
            s.(rows := s.rows[key := row], order := s.order + [key],
               inflight := if row.status == PARSED then s.inflight + {key} else s.inflight)
  {
    var row := FreshRow(now, check, parses);
    var t := Ingest(s, key, now, check, parses);
    assert t.rows == s.rows[key := row];
  }

  function HandedRow(row: Row, verdict: Verdict, now: int): Row {
    match verdict
    case Raises => row
    case Declines => row.(status := PARKED)
    case Accepts => row.(status := PROCESSED, processedAt := Some(now))
  }

  lemma HandoffEffect(s: State, key: Key, verdict: Verdict, now: int)
    requires key in s.rows && s.rows[key].status == PARSED
    ensures Handoff(s, key, verdict, now) ==
            s.(rows := s.rows[key := HandedRow(s.rows[key], verdict, now)],
               accepted := if verdict == Accepts then s.accepted + [key] else s.accepted,
               results := if verdict == Accepts then s.results + [key] else s.results)
  {
    var t := Handoff(s, key, verdict, now);
    assert t.rows == s.rows[key := HandedRow(s.rows[key], verdict, now)];
  }

  function VisitedRow(row: Row, sweepNow: int, goes: bool, now: int): Row {
    if sweepNow - row.receivedAt >= PARK_TTL then Row(REJECTED, Some(Unmatched), row.receivedAt, Some(now))
    else if goes then row.(status := PARSED) else row
  }

  lemma VisitEffect(s: State, handler: bool, parses: bool, now: int)
    requires s.sweep.Active? && !s.sweep.waiting && s.sweep.done < |s.sweep.snapshot|
    requires var key := s.sweep.snapshot[s.sweep.done]; key in s.rows && s.rows[key].status == PARKED
    ensures var key := s.sweep.snapshot[s.sweep.done];
            var row := VisitedRow(s.rows[key], s.sweep.now, handler && parses, now);
            Visit(s, handler, parses, now) ==
            s.(rows := s.rows[key := row],
               sweep := s.sweep.(done := s.sweep.done + 1, waiting := row.status == PARSED))
  {
    var key := s.sweep.snapshot[s.sweep.done];
    var t := Visit(s, handler, parses, now);
    assert t.rows == s.rows[key := VisitedRow(s.rows[key], s.sweep.now, handler && parses, now)];
  }

  /** A new row, resting and unmatched by nothing, keeps the invariant. */
  lemma InsertKeepsInv(s: State, key: Key, row: Row, inflight: set<Key>)
    requires Inv(s) && key !in s.rows
    requires row.status == PARSED || row.status == REJECTED
    requires row.reason != Some(Unmatched)
    requires inflight == if row.status == PARSED then s.inflight + {key} else s.inflight
    ensures Inv(s.(rows := s.rows[key := row], order := s.order + [key], inflight := inflight))
  {
    var t := s.(rows := s.rows[key := row], order := s.order + [key], inflight := inflight);
    assert RowsOk(t);
    assert Accounted(t);
  }

  lemma IngestKeepsInv(s: State, key: Key, now: int, check: Check, parses: bool)
    requires Inv(s)
    ensures Inv(Ingest(s, key, now, check, parses))
  {
    if key !in s.rows {
      IngestEffect(s, key, now, check, parses);
      var row := FreshRow(now, check, parses);
      InsertKeepsInv(s, key, row, if row.status == PARSED then s.inflight + {key} else s.inflight);
    }
  }

  /** Completing a handoff of a PARSED row. */
  lemma HandoffKeepsRows(s: State, key: Key, verdict: Verdict, now: int, inflight: set<Key>)
    requires RowsOk(s) && Accounted(s) && key in s.rows && s.rows[key].status == PARSED
    requires inflight == s.inflight - {key}
    ensures var t := Handoff(s, key, verdict, now);
            RowsOk(t.(inflight := inflight)) && Accounted(t)
  {
    HandoffEffect(s, key, verdict, now);
  }

  lemma VisitKeepsInv(s: State, handler: bool, parses: bool, now: int)
    requires Inv(s)
    ensures Inv(Visit(s, handler, parses, now))
  {
    if s.sweep.Active? && !s.sweep.waiting && s.sweep.done < |s.sweep.snapshot| {
      VisitEffect(s, handler, parses, now);
    }
  }

  lemma AnswerKeepsInv(s: State, key: Key, verdict: Verdict, now: int)
    requires Inv(s) && key in s.inflight
    ensures Inv(Step(s, Answer(key, verdict, now)))
  {
    HandoffKeepsRows(s, key, verdict, now, s.inflight - {key});
    HandoffEffect(s, key, verdict, now);
  }

  lemma SweepAnswerKeepsInv(s: State, verdict: Verdict, now: int)
    requires Inv(s) && s.sweep.Active? && s.sweep.waiting
    ensures Inv(Step(s, SweepAnswer(verdict, now)))
  {
    var key := s.sweep.snapshot[s.sweep.done - 1];
    HandoffKeepsRows(s, key, verdict, now, s.inflight);
    HandoffEffect(s, key, verdict, now);
  }

  lemma SweepBeginKeepsInv(s: State, now: int)
    requires Inv(s)
    ensures Inv(Step(s, SweepBegin(now)))
  {
    ParkedOfLists(s.rows, s.order);
    if s.sweep.Idle? {
      var w := Step(s, SweepBegin(now)).sweep;
      assert forall i :: 0 <= i < |w.snapshot| ==> w.snapshot[i] in w.snapshot;
    }
  }

  lemma StepKeepsInv(s: State, p: Piece)
    requires Inv(s)
    ensures Inv(Step(s, p))
  {
    match p
    case Deliver(key, now, handler, check, parses) =>
      if handler {
        IngestKeepsInv(s, key, now, check, parses);
      }
    case Answer(key, verdict, now) =>
      if key in s.inflight {
        AnswerKeepsInv(s, key, verdict, now);
      }
    case SweepBegin(now) =>
      SweepBeginKeepsInv(s, now);
    case SweepVisit(handler, parses, now) =>
      VisitKeepsInv(s, handler, parses, now);
    case SweepAnswer(verdict, now) =>
      if s.sweep.Active? && s.sweep.waiting {
        SweepAnswerKeepsInv(s, verdict, now);
      }
  }

  lemma {:induction false} RunKeepsInv(s: State, ps: seq<Piece>)
    requires Inv(s)
    ensures Inv(Run(s, ps))
    decreases |ps|
  {
    if ps != [] {
      RunKeepsInv(s, ps[..|ps| - 1]);
      StepKeepsInv(Run(s, ps[..|ps| - 1]), ps[|ps| - 1]);
    }
  }

  // ------------------------------------------------------------------ main results

  /** Some delivery of this body was verified by a literal True. */
  ghost predicate VerifiedIn(ps: seq<Piece>, key: Key) {
    exists i :: 0 <= i < |ps| && ps[i].Deliver? && ps[i].key == key && ps[i].handler && ps[i].check == LiteralTrue
  }

  lemma {:induction false} PastVerificationWasVerified(ps: seq<Piece>, key: Key)
    requires key in Run(INITIAL, ps).rows && Run(INITIAL, ps).rows[key].status != REJECTED
    ensures VerifiedIn(ps, key)
    decreases |ps|
  {
    if ps != [] {
      var before := ps[..|ps| - 1];
      var s := Run(INITIAL, before);
      var p := ps[|ps| - 1];
      RunKeepsInv(INITIAL, before);
      if key in s.rows {
        if s.rows[key].status == REJECTED {
          TerminalStep(s, p, key);
          assert false;
        }
        PastVerificationWasVerified(before, key);
        var i :| 0 <= i < |before| && before[i].Deliver? && before[i].key == key && before[i].handler
                 && before[i].check == LiteralTrue;
        assert ps[i] == before[i];
      } else {
        RowsAppearByDelivery(s, p, key);
        assert ps[|ps| - 1] == p;
      }
    }
  }

  /** The row a piece may write, if any. */
  function Worked(s: State, p: Piece): Option<Key> {
    match p
    case Deliver(key, _, handler, _, _) => if handler && key !in s.rows then Some(key) else None
    case Answer(key, _, _) => if key in s.inflight then Some(key) else None
    case SweepBegin(_) => None
    case SweepVisit(_, _, _) =>
      if s.sweep.Active? && !s.sweep.waiting && s.sweep.done < |s.sweep.snapshot|
      then Some(s.sweep.snapshot[s.sweep.done]) else None
    case SweepAnswer(_, _) =>
      if s.sweep.Active? && s.sweep.waiting && 0 < s.sweep.done <= |s.sweep.snapshot|
      then Some(s.sweep.snapshot[s.sweep.done - 1]) else None
  }

  /** A piece writes only its own row, and that row is new, PARKED or PARSED. */
  lemma OnlyWorkedRowChanges(s: State, p: Piece)
    requires Inv(s)
    ensures var w := Worked(s, p);
            && (w.Some? && w.value in s.rows ==> s.rows[w.value].status == PARKED || s.rows[w.value].status == PARSED)
            && Step(s, p).rows.Keys == s.rows.Keys + (if w.Some? then {w.value} else {})
            && (forall k :: k in s.rows && w != Some(k) ==> Step(s, p).rows[k] == s.rows[k])
  {
    match p
    case Deliver(key, now, handler, check, parses) =>
      if handler && key !in s.rows {
        IngestEffect(s, key, now, check, parses);
      }
    case Answer(key, verdict, now) =>
      if key in s.inflight {
        HandoffEffect(s, key, verdict, now);
      }
    case SweepBegin(_) =>
    case SweepVisit(handler, parses, now) =>
      if Worked(s, p).Some? {
        VisitEffect(s, handler, parses, now);
      }
    case SweepAnswer(verdict, now) =>
      if Worked(s, p).Some? {
        HandoffEffect(s, Worked(s, p).value, verdict, now);
      }
  }

  lemma RowsAppearByDelivery(s: State, p: Piece, key: Key)
    requires Inv(s) && key !in s.rows && key in Step(s, p).rows
    ensures p.Deliver? && p.key == key && p.handler
    ensures Step(s, p).rows[key].status != REJECTED ==> p.check == LiteralTrue
  {
    OnlyWorkedRowChanges(s, p);
    if p.Deliver? {
      IngestEffect(s, p.key, p.now, p.check, p.parses);
    }
  }

  lemma TerminalStep(s: State, p: Piece, key: Key)
    requires Inv(s) && key in s.rows && Terminal(s.rows[key].status)
    ensures key in Step(s, p).rows && Step(s, p).rows[key] == s.rows[key]
  {
    OnlyWorkedRowChanges(s, p);
  }

  /** A delivery of bytes already on file, verified or not, changes nothing at all. */
  lemma RedeliveryChangesNothing(ps: seq<Piece>, p: Piece)
    requires p.Deliver? && p.key in Run(INITIAL, ps).rows
    ensures Run(INITIAL, ps + [p]) == Run(INITIAL, ps)
  {
    assert (ps + [p])[..|ps|] == ps;
  }

  /** The kernel's answer for this row arrives: its ingest awaits it, or the sweep does. */
  predicate AnsweredNow(s: State, p: Piece, key: Key, verdict: Verdict) {
    || (p.Answer? && p.key == key && key in s.inflight && p.verdict == verdict)
    || (p.SweepAnswer? && s.sweep.Active? && s.sweep.waiting && 0 < s.sweep.done <= |s.sweep.snapshot|
        && s.sweep.snapshot[s.sweep.done - 1] == key && p.verdict == verdict)
  }

  /** The sweep takes up this row. */
  predicate TakenUp(s: State, p: Piece, key: Key) {
    p.SweepVisit? && s.sweep.Active? && !s.sweep.waiting && s.sweep.done < |s.sweep.snapshot| && s.sweep.snapshot[s.sweep.done] == key
  }

  /** What brings a row that is on file to a status it was not in. */
  predicate BringsTo(s: State, p: Piece, key: Key, to: Status)
    requires key in s.rows
  {
    match to
    case PROCESSED => AnsweredNow(s, p, key, Accepts)
    case PARKED => AnsweredNow(s, p, key, Declines)
    case REJECTED => TakenUp(s, p, key) && s.sweep.now - s.rows[key].receivedAt >= 86_400
    case PARSED => TakenUp(s, p, key) && s.sweep.now - s.rows[key].receivedAt < 86_400 && p.handler && p.parses
    case _ => false
  }

  /** From `row` to `t`, as the piece brings it. */
  predicate MovesRight(s: State, p: Piece, key: Key, t: Row)
    requires key in s.rows
  {
    && (forall to :: to != s.rows[key].status ==> (t.status == to <==> BringsTo(s, p, key, to)))
    && t.receivedAt == s.rows[key].receivedAt && (t.status == s.rows[key].status ==> t == s.rows[key])
    && (BringsTo(s, p, key, REJECTED) ==> t.reason == Some(Unmatched))
    && (BringsTo(s, p, key, REJECTED) || BringsTo(s, p, key, PROCESSED) ==> t.processedAt == Some(p.now))
  }

  lemma StillIsRight(s: State, p: Piece, key: Key)
    requires Inv(s) && key in s.rows && Worked(s, p) != Some(key)
    ensures key in Step(s, p).rows && MovesRight(s, p, key, Step(s, p).rows[key])
  {
    OnlyWorkedRowChanges(s, p);
  }

  lemma AnswerIsRight(s: State, p: Piece, key: Key)
    requires Inv(s) && key in s.rows && p.Answer? && p.key == key && key in s.inflight
    ensures key in Step(s, p).rows && MovesRight(s, p, key, Step(s, p).rows[key])
  {
    HandoffEffect(s, key, p.verdict, p.now);
  }

  lemma SweepAnswerIsRight(s: State, p: Piece, key: Key)
    requires Inv(s) && key in s.rows && p.SweepAnswer? && Worked(s, p) == Some(key)
    ensures key in Step(s, p).rows && MovesRight(s, p, key, Step(s, p).rows[key])
  {
    HandoffEffect(s, key, p.verdict, p.now);
  }

  lemma VisitIsRight(s: State, p: Piece, key: Key)
    requires Inv(s) && key in s.rows && TakenUp(s, p, key)
    ensures key in Step(s, p).rows && MovesRight(s, p, key, Step(s, p).rows[key])
  {
    VisitEffect(s, p.handler, p.parses, p.now);
  }

  /** A row on file changes exactly as the table says. */
  lemma RowsMoveExactly(s: State, p: Piece, key: Key)
    requires Inv(s) && key in s.rows
    ensures key in Step(s, p).rows && MovesRight(s, p, key, Step(s, p).rows[key])
  {
    if Worked(s, p) != Some(key) {
      StillIsRight(s, p, key);
    } else if p.Answer? {
      AnswerIsRight(s, p, key);
    } else if p.SweepAnswer? {
      SweepAnswerIsRight(s, p, key);
    } else {
      VisitIsRight(s, p, key);
    }
  }

  /** A body becomes accepted exactly when the kernel answers it with an acceptance. */
  lemma AcceptedExactly(s: State, p: Piece, key: Key)
    ensures key in Step(s, p).accepted <==> key in s.accepted || AnsweredNow(s, p, key, Accepts)
  {
    if p.Answer? {
      HandoffAccepts(s, p.key, p.verdict, p.now, key);
    } else if p.SweepAnswer? && s.sweep.Active? && 0 < s.sweep.done <= |s.sweep.snapshot| {
      HandoffAccepts(s, s.sweep.snapshot[s.sweep.done - 1], p.verdict, p.now, key);
    }
  }

  lemma HandoffAccepts(s: State, k: Key, verdict: Verdict, now: int, key: Key)
    ensures key in Handoff(s, k, verdict, now).accepted <==> key in s.accepted || (k == key && verdict == Accepts)
  {
  }

  /** A sweep starts with the parked rows when none is at work, and is over exactly when its list is, or when the kernel raises. */
  lemma SweepsGoOnExactly(s: State, p: Piece)
    requires Inv(s)
    ensures s.sweep.Idle? ==>
              Step(s, p).sweep == if p.SweepBegin? then Active(p.now, ParkedOf(s.rows, s.order), 0, false) else Idle
    ensures s.sweep.Active? ==>
              (Step(s, p).sweep.Idle? <==>
                 || (p.SweepVisit? && !s.sweep.waiting && s.sweep.done == |s.sweep.snapshot|)
                 || (p.SweepAnswer? && s.sweep.waiting && p.verdict == Raises))
    ensures s.sweep.Active? && Step(s, p).sweep.Active? ==>
              && Step(s, p).sweep.snapshot == s.sweep.snapshot && Step(s, p).sweep.now == s.sweep.now
              && Step(s, p).sweep.done == s.sweep.done + if p.SweepVisit? && !s.sweep.waiting then 1 else 0
  {
  }

  /** Two parked rows stand on the list in the order in which they arrived. */
  ghost predicate InOrderOf(order: seq<Key>, list: seq<Key>, a: Key, b: Key) {
    forall i, j :: 0 <= i < j < |order| && order[i] == a && order[j] == b ==>
      exists m, n :: 0 <= m < n < |list| && list[m] == a && list[n] == b
  }

  lemma {:induction false} ParkedInOrder(rows: map<Key, Row>, order: seq<Key>, a: Key, b: Key)
    requires a in rows && rows[a].status == PARKED && b in rows && rows[b].status == PARKED
    ensures InOrderOf(order, ParkedOf(rows, order), a, b)
    decreases |order|
  {
    if order != [] {
      var p, last := order[..|order| - 1], order[|order| - 1];
      ParkedInOrder(rows, p, a, b);
      ParkedOfLists(rows, p);
      var list, rest := ParkedOf(rows, order), ParkedOf(rows, p);
      assert forall m :: 0 <= m < |rest| ==> list[m] == rest[m];
      forall i, j | 0 <= i < j < |order| && order[i] == a && order[j] == b
        ensures exists m, n :: 0 <= m < n < |list| && list[m] == a && list[n] == b
      {
        if j < |p| {
          assert p[i] == a && p[j] == b;
          var m, n :| 0 <= m < n < |rest| && rest[m] == a && rest[n] == b;
          assert list[m] == a && list[n] == b;
        } else {
          assert p[i] == a && a in p && a in rest;
          var m :| 0 <= m < |rest| && rest[m] == a;
          assert list[m] == a && list[|rest|] == b;
        }
      }
    }
  }

  /** A row appears exactly at the first delivery of its bytes to a connector with a handler: rejected unless the check said a
      literal True and the body parses, and else waiting for the kernel. */
  lemma RowsAppearExactly(s: State, p: Piece, key: Key)
    requires Inv(s) && key !in s.rows
    ensures key in Step(s, p).rows <==> p.Deliver? && p.key == key && p.handler
    ensures key in Step(s, p).rows ==>
              && Step(s, p).rows[key] == (if p.check != LiteralTrue then Row(REJECTED, Some(SignatureUnverifiable), p.now, Some(p.now))
                                          else if !p.parses then Row(REJECTED, Some(ParseError), p.now, Some(p.now))
                                          else Row(PARSED, None, p.now, None))
              && (key in Step(s, p).inflight <==> p.check == LiteralTrue && p.parses)
              && Step(s, p).order == s.order + [key]
  {
    if key in Step(s, p).rows {
      RowsAppearByDelivery(s, p, key);
    }
    if p.Deliver? && p.handler && p.key !in s.rows {
      IngestEffect(s, p.key, p.now, p.check, p.parses);
    }
  }

  /** In every run of one sweeper and any number of ingests: the FSM table never refuses the pipeline's own transition; the
      kernel accepts each (connector, body) at most once and only after a literal-True verification; a row is PROCESSED
      exactly when it was accepted; and exactly then it has exactly one WEBHOOK result row. */
  lemma EveryRunAcceptsOnce(ps: seq<Piece>, key: Key)
    ensures var s := Run(INITIAL, ps);
            && s.denied == 0
            && (key in s.accepted <==> key in s.rows && s.rows[key].status == PROCESSED)
            && Distinct(s.accepted) && s.results == s.accepted
            && (key in s.accepted ==> VerifiedIn(ps, key))
  {
    RunKeepsInv(INITIAL, ps);
    if key in Run(INITIAL, ps).accepted {
      PastVerificationWasVerified(ps, key);
    }
  }

  /** PROCESSED and REJECTED rows never change again. */
  lemma TerminalIsForever(ps: seq<Piece>, more: seq<Piece>, key: Key)
    requires key in Run(INITIAL, ps).rows && Terminal(Run(INITIAL, ps).rows[key].status)
    ensures var s := Run(INITIAL, ps);
            key in Run(s, more).rows && Run(s, more).rows[key] == s.rows[key]
  {
    RunKeepsInv(INITIAL, ps);
    TerminalRun(Run(INITIAL, ps), more, key);
  }

  lemma {:induction false} TerminalRun(s: State, more: seq<Piece>, key: Key)
    requires Inv(s) && key in s.rows && Terminal(s.rows[key].status)
    ensures key in Run(s, more).rows && Run(s, more).rows[key] == s.rows[key]
    decreases |more|
  {
    if more != [] {
      var m := more[..|more| - 1];
      TerminalRun(s, m, key);
      RunKeepsInv(s, m);
      TerminalStep(Run(s, m), more[|more| - 1], key);
    }
  }

  /** Between the start of a sweep and the visit that ends it, whatever ingests run beside it. */
  ghost predicate OneSweep(s: State, ps: seq<Piece>) {
    forall i :: 0 < i <= |ps| ==> Run(s, ps[..i]).sweep.Active? && Run(s, ps[..i]).sweep.snapshot == ParkedOf(s.rows, s.order)
                                  && Run(s, ps[..i]).sweep.now == ps[0].now
  }

  /** A sweep that runs to its end leaves no row of its list PARKED at age 24 hours or more. */
  lemma SweepExpires(history: seq<Piece>, ps: seq<Piece>, last: Piece, key: Key)
    requires var s := Run(INITIAL, history);
             && s.sweep.Idle? && ps != [] && ps[0].SweepBegin? && OneSweep(s, ps)
             && last.SweepVisit? && Step(Run(s, ps), last).sweep.Idle?
             && key in s.rows && s.rows[key].status == PARKED
    ensures var t := Step(Run(Run(INITIAL, history), ps), last);
            key in t.rows && (t.rows[key].status == PARKED ==> ps[0].now - t.rows[key].receivedAt < PARK_TTL)
  {
    var s := Run(INITIAL, history);
    RunKeepsInv(INITIAL, history);
    RunKeepsInv(s, ps);
    assert ps[..|ps|] == ps;
    ParkedOfLists(s.rows, s.order);
    assert key in Run(s, ps).sweep.snapshot;
  }

  predicate Expired(s: State, key: Key) {
    key in s.rows && s.rows[key].reason == Some(Unmatched)
  }

  lemma ExpiryStep(s: State, p: Piece, key: Key)
    requires Inv(s) && !Expired(s, key) && Expired(Step(s, p), key)
    ensures s.sweep.Active? && Step(s, p).rows[key].processedAt == Some(p.now)
    ensures s.sweep.now - Step(s, p).rows[key].receivedAt >= PARK_TTL
  {
    OnlyWorkedRowChanges(s, p);
    match p
    case Deliver(k, now, handler, check, parses) =>
      IngestEffect(s, k, now, check, parses);
    case Answer(k, verdict, now) =>
      HandoffEffect(s, k, verdict, now);
    case SweepVisit(handler, parses, now) =>
      VisitEffect(s, handler, parses, now);
    case SweepAnswer(verdict, now) =>
      HandoffEffect(s, key, verdict, now);
  }

  /** A row expires as unmatched only at age 24 hours or more. */
  lemma {:induction false} ExpiryIsNeverEarly(ps: seq<Piece>, key: Key)
    requires forall i, j :: 0 <= i < j < |ps| ==> ps[i].now <= ps[j].now
    requires Expired(Run(INITIAL, ps), key)
    ensures var r := Run(INITIAL, ps).rows[key];
            r.status == REJECTED && r.processedAt.Some? && r.processedAt.value - r.receivedAt >= PARK_TTL
    decreases |ps|
  {
    RunKeepsInv(INITIAL, ps);
    var before := ps[..|ps| - 1];
    var s := Run(INITIAL, before);
    RunKeepsInv(INITIAL, before);
    if Expired(s, key) {
      ExpiryIsNeverEarly(before, key);
      TerminalStep(s, ps[|ps| - 1], key);
    } else {
      ExpiryStep(s, ps[|ps| - 1], key);
      SweepNowIsPast(before);
    }
  }

  lemma {:induction false} SweepNowIsPast(ps: seq<Piece>)
    ensures var s := Run(INITIAL, ps);
            s.sweep.Active? ==> exists i :: 0 <= i < |ps| && ps[i].now == s.sweep.now
    decreases |ps|
  {
    if ps != [] {
      var before := ps[..|ps| - 1];
      SweepNowIsPast(before);
      var s := Run(INITIAL, before);
      if Run(INITIAL, ps).sweep.Active? {
        if ps[|ps| - 1].SweepBegin? && s.sweep.Idle? {
          assert ps[|ps| - 1].now == Run(INITIAL, ps).sweep.now;
        } else {
          var i :| 0 <= i < |before| && before[i].now == s.sweep.now;
          assert ps[i].now == s.sweep.now;
        }
      }
    }
  }

  // ------------------------------------------------------------------ the pipeline object

  predicate ByIngest(p: Piece) {
    p.Deliver? || p.Answer?
  }

  ghost predicate IngestsRan(s: State, t: State) {
    exists ps: seq<Piece> :: (forall i :: 0 <= i < |ps| ==> ByIngest(ps[i])) && t == Run(s, ps)
  }

  /** The rows the sweep has listed read the same. */
  ghost predicate ListedAlike(s: State, t: State) {
    s.sweep.Active? ==>
      forall i :: 0 <= i < |s.sweep.snapshot| && s.sweep.snapshot[i] in s.rows ==>
        s.sweep.snapshot[i] in t.rows && t.rows[s.sweep.snapshot[i]] == s.rows[s.sweep.snapshot[i]]
  }

  lemma IngestLeavesTheSweepAlone(s: State, p: Piece)
    requires Inv(s) && ByIngest(p)
    ensures Step(s, p).sweep == s.sweep && ListedAlike(s, Step(s, p))
  {
    if p.Deliver? && p.key !in s.rows {
      IngestEffect(s, p.key, p.now, p.check, p.parses);
    } else if p.Answer? && p.key in s.inflight {
      HandoffEffect(s, p.key, p.verdict, p.now);
    }
  }

  lemma {:induction false} IngestsLeaveTheSweepAlone(s: State, ps: seq<Piece>)
    requires Inv(s) && forall i :: 0 <= i < |ps| ==> ByIngest(ps[i])
    ensures Inv(Run(s, ps)) && Run(s, ps).sweep == s.sweep && ListedAlike(s, Run(s, ps))
    decreases |ps|
  {
    if ps != [] {
      var before := ps[..|ps| - 1];
      IngestsLeaveTheSweepAlone(s, before);
      var t := Run(s, before);
      var p := ps[|ps| - 1];
      StepKeepsInv(t, p);
      IngestLeavesTheSweepAlone(t, p);
    }
  }

  /** A listed row after its turn: expired, left parked, or handed to the kernel. */
  function Fate(row: Row, sweepNow: int, goes: bool, verdict: Verdict, now: int): Row {
    var visited := VisitedRow(row, sweepNow, goes, now);
    if visited.status == PARSED then HandedRow(visited, verdict, now) else visited
  }

  /** What one sweep is given: handlers, parsers, the kernel's answers and the time of each row's turn. */
  datatype Turns = Turns(now: int, handlers: set<string>, parses: Key -> bool, verdicts: Key -> Verdict, clock: Key -> int) {
    predicate Goes(key: Key) {
      key.connectorId in handlers && parses(key)
    }

    function FateOf(key: Key, row: Row): Row {
      Fate(row, now, Goes(key), verdicts(key), clock(key))
    }
  }

  /** The first n listed rows have met their fate and been reported; the others are as they were. */
  ghost predicate SweptTo(rows0: map<Key, Row>, rows: map<Key, Row>, listed: seq<Key>, n: nat, turns: Turns,
                          outcome: map<Key, Status>)
    requires n <= |listed|
  {
    && (forall i :: 0 <= i < |listed| ==> listed[i] in rows0 && listed[i] in rows)
    && (forall i :: 0 <= i < n ==>
          && rows[listed[i]] == turns.FateOf(listed[i], rows0[listed[i]])
          && listed[i] in outcome && outcome[listed[i]] == rows[listed[i]].status)
    && (forall i :: n <= i < |listed| ==> rows[listed[i]] == rows0[listed[i]])
    && (forall key :: key in outcome ==> key in listed)
  }

  /** Apart from `key`, the listed rows read the same. */
  ghost predicate OthersAlike(rows: map<Key, Row>, rows1: map<Key, Row>, listed: seq<Key>, key: Key) {
    forall i :: 0 <= i < |listed| && listed[i] != key && listed[i] in rows ==>
      listed[i] in rows1 && rows1[listed[i]] == rows[listed[i]]
  }

  lemma SweptOneMore(rows0: map<Key, Row>, rows: map<Key, Row>, rows1: map<Key, Row>, listed: seq<Key>, n: nat, turns: Turns,
                     outcome: map<Key, Status>)
    requires n < |listed| && Distinct(listed) && SweptTo(rows0, rows, listed, n, turns, outcome)
    requires OthersAlike(rows, rows1, listed, listed[n]) && listed[n] in rows1
    requires rows1[listed[n]] == turns.FateOf(listed[n], rows[listed[n]])
    ensures SweptTo(rows0, rows1, listed, n + 1, turns, outcome[listed[n] := rows1[listed[n]].status])
  {
  }

  /** The sweep ends early exactly when the kernel raises on a row that goes to it. */
  ghost predicate Calm(rows: map<Key, Row>, listed: seq<Key>, n: nat, turns: Turns)
    requires n <= |listed|
  {
    forall i :: 0 <= i < n && listed[i] in rows ==> !RaisesOn(listed[i], rows[listed[i]], turns)
  }

  predicate RaisesOn(key: Key, row: Row, turns: Turns) {
    turns.Goes(key) && turns.now - row.receivedAt < PARK_TTL && turns.verdicts(key) == Raises
  }

  /** What the caller of `ingest` is told, unless the row now awaits the kernel. */
  datatype Disposition = UnknownHandler | WasDuplicate | WasRejected | AwaitsKernel

  class WebhookPipeline {
    var rows: map<Key, Row>
    var order: seq<Key>
    var results: seq<Key>
    ghost var accepted: seq<Key>
    ghost var inflight: set<Key>
    ghost var sweep: Sweep
    ghost var denied: nat

    constructor ()
      ensures Value() == INITIAL
    {
      rows, order, results := map[], [], [];
      accepted, inflight, sweep, denied := [], {}, Idle, 0;
    }

    ghost function Value(): State
      reads this
    {
      State(rows, order, results, accepted, inflight, sweep, denied)
    }

    /** False stands for the ValueError of a refused transition. */
    method AdvanceRow(key: Key, to: Status, reason: Option<Reason>, now: int) returns (ok: bool)
      modifies this
      ensures Value() == Advance(old(Value()), key, to, reason, now)
      ensures ok <==> denied == old(denied)
    {
      if key !in rows || !Allowed(rows[key].status, to) {
        denied := denied + 1;
        return false;
      }
      var record := rows[key].(status := to);
      if reason.Some? {
        record := record.(reason := reason);
      }
      if to == PROCESSED || to == REJECTED || to == DUPLICATE {
        record := record.(processedAt := Some(now));
      }
      rows := rows[key := record];
      return true;
    }

    /** `ingest` up to the kernel call. */
    method IngestDelivery(key: Key, now: int, handler: bool, check: Check, parses: bool) returns (d: Disposition)
      requires Inv(Value())
      modifies this
      ensures Inv(Value()) && Value() == Step(old(Value()), Deliver(key, now, handler, check, parses))
      ensures d == if !handler then UnknownHandler
                   else if check != LiteralTrue then WasRejected
                   else if key in old(rows) then WasDuplicate
                   else if parses then AwaitsKernel else WasRejected
    {
      StepKeepsInv(Value(), Deliver(key, now, handler, check, parses));
      if !handler {
        return UnknownHandler;
      }
      var created := key !in rows;
      if created {
        rows := rows[key := Row(RECEIVED, None, now, None)];
        order := order + [key];
      }
      var verified := check == LiteralTrue;
      if !created {
        return if verified then WasDuplicate else WasRejected;
      }
      if !verified {
        var _ := AdvanceRow(key, REJECTED, Some(SignatureUnverifiable), now);
        return WasRejected;
      }
      var _ := AdvanceRow(key, VERIFIED, None, now);
      var _ := AdvanceRow(key, PARSED, None, now);
      if !parses {
        var _ := AdvanceRow(key, REJECTED, Some(ParseError), now);
        return WasRejected;
      }
      inflight := inflight + {key};
      return AwaitsKernel;
    }

    /** `_handoff` after the kernel answered. */
    method FinishHandoff(key: Key, verdict: Verdict, now: int)
      modifies this
      ensures Value() == Handoff(old(Value()), key, verdict, now)
    {
      if verdict == Raises {
        return;
      }
      if verdict == Declines {
        var _ := AdvanceRow(key, PARKED, None, now);
        return;
      }
      accepted := accepted + [key];
      results := results + [key];
      var _ := AdvanceRow(key, HANDED_OFF, None, now);
      var _ := AdvanceRow(key, PROCESSED, None, now);
    }

    /** Other coroutines run while the sweep awaits the kernel: any number of ingest pieces. */
    method Suspend()
      modifies this
      ensures IngestsRan(old(Value()), Value())
    {
      assert Value() == Run(Value(), []);
    }

    method ListParked() returns (parked: seq<Key>)
      ensures parked == ParkedOf(rows, order)
    {
      parked := [];
      for i := 0 to |order|
        invariant parked == ParkedOf(rows, order[..i])
      {
        TakeNext(order, i);
        if order[i] in rows && rows[order[i]].status == PARKED {
          parked := parked + [order[i]];
        }
      }
      TakeWhole(order);
    }

    /** The synchronous part of one turn of the sweep loop; true when the row now awaits the kernel. */
    method VisitRow(key: Key, handler: bool, parses: bool, sweepNow: int, now: int) returns (goes: bool)
      requires Inv(Value()) && sweep.Active? && !sweep.waiting && sweep.done < |sweep.snapshot|
      requires key == sweep.snapshot[sweep.done] && sweepNow == sweep.now
      modifies this
      ensures Inv(Value()) && Value() == Step(old(Value()), SweepVisit(handler, parses, now))
      ensures key in old(rows) && rows == old(rows)[key := VisitedRow(old(rows)[key], sweepNow, handler && parses, now)]
      ensures sweep == old(sweep).(done := old(sweep).done + 1, waiting := goes)
      ensures goes <==> handler && parses && sweepNow - old(rows)[key].receivedAt < PARK_TTL
      ensures goes <==> rows[key].status == PARSED
    {
      VisitKeepsInv(Value(), handler, parses, now);
      VisitEffect(Value(), handler, parses, now);
      goes := handler && parses;
      if sweepNow - rows[key].receivedAt >= PARK_TTL {
        var _ := AdvanceRow(key, REJECTED, Some(Unmatched), now);
        goes := false;
      } else if goes {
        var _ := AdvanceRow(key, PARSED, None, now);
      }
      sweep := sweep.(done := sweep.done + 1, waiting := goes);
    }

    /** One turn of the sweep loop on the listed row `key`, which meets its fate; false when the kernel raised. */
    method SweepRow(key: Key, handler: bool, parses: bool, verdict: Verdict, sweepNow: int, now: int) returns (ok: bool)
      requires Inv(Value()) && sweep.Active? && !sweep.waiting && sweep.done < |sweep.snapshot|
      requires key == sweep.snapshot[sweep.done] && sweepNow == sweep.now
      modifies this
      ensures Inv(Value()) && key in old(rows) && key in rows
      ensures rows[key] == Fate(old(rows)[key], sweepNow, handler && parses, verdict, now)
      ensures OthersAlike(old(rows), rows, old(sweep).snapshot, key)
      ensures ok <==> !(handler && parses && sweepNow - old(rows)[key].receivedAt < PARK_TTL && verdict == Raises)
      ensures sweep == if ok then old(sweep).(done := old(sweep).done + 1) else Idle
    {
      ghost var listed := sweep.snapshot;
      assert forall i :: 0 <= i < |listed| ==> listed[i] in rows;
      var goes := VisitRow(key, handler, parses, sweepNow, now);
      if !goes {
        return true;
      }
      ok := AwaitKernel(key, verdict, now);
    }

    /** The sweeper's kernel call: ingests run, then the answer is applied; false when the kernel raised. */
    method AwaitKernel(key: Key, verdict: Verdict, now: int) returns (ok: bool)
      requires Inv(Value()) && sweep.Active? && sweep.waiting && key == sweep.snapshot[sweep.done - 1]
      modifies this
      ensures Inv(Value()) && key in old(rows) && key in rows && rows[key] == HandedRow(old(rows)[key], verdict, now)
      ensures OthersAlike(old(rows), rows, old(sweep).snapshot, key)
      ensures ok <==> verdict != Raises
      ensures sweep == if ok then old(sweep).(waiting := false) else Idle
    {
      SuspendSweep();
      AnswerSweep(key, verdict, now);
      return verdict != Raises;
    }

    method AnswerSweep(key: Key, verdict: Verdict, now: int)
      requires Inv(Value()) && sweep.Active? && sweep.waiting && key == sweep.snapshot[sweep.done - 1]
      modifies this
      ensures Inv(Value()) && Value() == Step(old(Value()), SweepAnswer(verdict, now))
      ensures key in old(rows) && rows == old(rows)[key := HandedRow(old(rows)[key], verdict, now)]
      ensures sweep == if verdict == Raises then Idle else old(sweep).(waiting := false)
    {
      SweepAnswerKeepsInv(Value(), verdict, now);
      HandoffEffect(Value(), key, verdict, now);
      FinishHandoff(key, verdict, now);
      sweep := if verdict == Raises then Idle else sweep.(waiting := false);
    }

    method SuspendSweep()
      requires Inv(Value())
      modifies this
      ensures Inv(Value()) && sweep == old(sweep) && ListedAlike(old(Value()), Value())
    {
      ghost var s := Value();
      Suspend();
      ghost var ps: seq<Piece> :| (forall i :: 0 <= i < |ps| ==> ByIngest(ps[i])) && Value() == Run(s, ps);
      IngestsLeaveTheSweepAlone(s, ps);
    }

    /** The parked sweep, with ingests running at every kernel call. It ends early exactly when the kernel raises; otherwise
        every row it listed has met its fate, the outcome reports it, and none is still PARKED at age 24 hours or more. */
    method SweepParked(turns: Turns) returns (outcome: map<Key, Status>, ok: bool)
      requires Inv(Value()) && sweep.Idle?
      modifies this
      ensures Inv(Value()) && sweep.Idle?
      ensures ok <==> Calm(old(rows), ParkedOf(old(rows), old(order)), |ParkedOf(old(rows), old(order))|, turns)
      ensures ok ==> SweptTo(old(rows), rows, ParkedOf(old(rows), old(order)), |ParkedOf(old(rows), old(order))|, turns, outcome)
      ensures ok ==> forall key :: key in old(rows) && old(rows)[key].status == PARKED ==>
                key in rows && (rows[key].status == PARKED ==> turns.now - rows[key].receivedAt < PARK_TTL)
    {
      ghost var rows0, order0 := rows, order;
      var parked := ListParked();
      SweepBeginKeepsInv(Value(), turns.now);
      ParkedOfLists(rows, order);
      sweep := Active(turns.now, parked, 0, false);
      outcome := map[];
      for i := 0 to |parked|
        invariant Inv(Value())
        invariant sweep == Active(turns.now, parked, i, false)
        invariant SweptTo(rows0, rows, parked, i, turns, outcome)
        invariant Calm(rows0, parked, i, turns)
      {
        var key := parked[i];
        ghost var before := rows;
        ok := SweepRow(key, key.connectorId in turns.handlers, turns.parses(key), turns.verdicts(key), turns.now, turns.clock(key));
        if !ok {
          assert RaisesOn(parked[i], rows0[parked[i]], turns);
          return;
        }
        SweptOneMore(rows0, before, rows, parked, i, turns, outcome);
        outcome := outcome[key := rows[key].status];
      }
      assert forall key :: key in rows0 && rows0[key].status == PARKED ==> key in parked;
      sweep := Idle;
      ok := true;
    }
  }
}

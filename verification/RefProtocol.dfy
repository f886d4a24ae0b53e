/**
 The dispatch protocol of one (connector, connector_ref) pair (bdpay/connectors/runner.py, idempotency.py).

 All stores of the runner are keyed by that pair, and calls on one ref are serialized, so the calls on a ref form
 a sequence of transformations of its `Ledger`. What the registry, the breaker and the rail answer at each
 elementary call is an input (`Gate`), one per elementary call; any behaviour of theirs, and any interleaving with
 calls on other refs, is some sequence of gates. Adapters echo the connector_ref, as the SDK contract demands.
 */
module RefProtocol {
  import opened Common
  import opened Breaker

  datatype Status = SUCCESS | PENDING | FAILED | REJECTED | TIMED_OUT | REVERSED

  datatype Result = Result(status: Status, code: Option<string>, rail: Option<string>)

  /** One connector_results row of the ref. */
  datatype Row = Row(kind: Kind, result: Result)

  /** One adapter call that came back: `at` rows existed for the ref when the rail was touched. */
  datatype Touch = Touch(kind: Kind, at: nat, intended: bool)

  /** `dropped` are the adapter calls cancelled after the rail was touched: they leave no row. */
  datatype Ledger =
    Ledger(rows: seq<Row>, touches: seq<Touch>, recorded: Option<Result>, intent: Option<string>, dropped: seq<Touch>)

  const BLANK := Ledger([], [], None, None, [])

  datatype Answer = Returned(result: Result) | HardTimeout | Raised | Interrupted

  /** How far one elementary call got. */
  datatype Gate = Unregistered | Disabled | Isolated | CircuitOpen | NoAdapter | Reached(answer: Answer)

  datatype Reply = Got(result: Result) | RetryForbidden | UnknownConnector | Cancelled

  datatype Budget = Budget(retries: nat, initial: nat, cap: nat, polls: nat)

  const TRANSPORT_ERROR := Some("transport_error")
  const NOT_RECEIVED := Some("not_received")
  const MAX_SETTLE_POLLS := 3

  // ------------------------------------------------------------------ elementary calls

  predicate ReplaySafe(s: Status) {
    s in {SUCCESS, PENDING, REJECTED, REVERSED}
  }

  function Synthetic(s: Status, code: string): Result {
    Result(s, Some(code), None)
  }

  function Outcome(a: Answer): Result
    requires !a.Interrupted?
  {
    match a
    case Returned(result) => result
    case HardTimeout => Synthetic(TIMED_OUT, "hard_timeout")
    case Raised => Synthetic(FAILED, "transport_error")
  }

  /** The call reached the rail and came back. */
  predicate Lands(g: Gate) {
    g.Reached? && !g.answer.Interrupted?
  }

  function AnswerReply(a: Answer): Reply {
    if a.Interrupted? then Cancelled else Got(Outcome(a))
  }

  function Refusal(g: Gate): Reply
    requires !g.Reached?
  {
    match g
    case Unregistered => UnknownConnector
    case Disabled => Got(Synthetic(FAILED, "connector_disabled"))
    case Isolated => Got(Synthetic(FAILED, "sandbox_isolation_violation"))
    case CircuitOpen => Got(Synthetic(FAILED, "circuit_open"))
    case NoAdapter => UnknownConnector
  }

  predicate Replays(l: Ledger) {
    l.recorded.Some? && ReplaySafe(l.recorded.value.status)
  }

  function DispatchReply(l: Ledger, g: Gate): Reply {
    if g.Unregistered? then UnknownConnector
    else if Replays(l) then Got(l.recorded.value)
    else if !g.Reached? then Refusal(g)
    else AnswerReply(g.answer)
  }

  function DispatchLedger(l: Ledger, instruction: string, g: Gate): Ledger {
    if g.Unregistered? || Replays(l) || !g.Reached? then l
    else
      var intended := if l.intent.Some? then l.intent else Some(instruction);
      var touch := Touch(SUBMIT, |l.rows|, intended.Some?);
      if g.answer.Interrupted? then l.(intent := intended, dropped := l.dropped + [touch])
      else
        var result := Outcome(g.answer);
        Ledger(l.rows + [Row(SUBMIT, result)], l.touches + [touch],
               if ReplaySafe(result.status) && l.recorded.None? then Some(result) else l.recorded,
               intended, l.dropped)
  }

  function CallReply(g: Gate): Reply {
    if g.Reached? then AnswerReply(g.answer) else Refusal(g)
  }

  function CallLedger(l: Ledger, kind: Kind, g: Gate): Ledger {
    if !g.Reached? then l
    else
      var touch := Touch(kind, |l.rows|, l.intent.Some?);
      if g.answer.Interrupted? then l.(dropped := l.dropped + [touch])
      else l.(rows := l.rows + [Row(kind, Outcome(g.answer))], touches := l.touches + [touch])
  }

  // ------------------------------------------------------------------ submit: the retry engine

  /** `last_for`: the newest row of a kind. */
  function LastFor(rows: seq<Row>, kind: Kind): Option<Row>
    decreases |rows|
  {
    if rows == [] then None
    else if rows[|rows| - 1].kind == kind then Some(rows[|rows| - 1])
    else LastFor(rows[..|rows| - 1], kind)
  }

  predicate LastSubmitTimedOut(l: Ledger) {
    var last := LastFor(l.rows, SUBMIT);
    last.Some? && last.value.result.status == TIMED_OUT
  }

  predicate Retryable(r: Reply) {
    r.Got? && r.result.status == FAILED && r.result.code == TRANSPORT_ERROR
  }

  /** End of a composite call: its ledger, its reply, the sleeps it took and the gates it used. */
  datatype Ended = Ended(ledger: Ledger, reply: Reply, sleeps: seq<nat>, used: nat)

  function Retry(l: Ledger, instruction: string, reply: Reply, backoff: nat, cap: nat, left: nat,
                 gates: nat -> Gate, i: nat): Ended
    decreases left
  {
    if Retryable(reply) && left > 0 then
      var g := gates(i);
      var rest := Retry(DispatchLedger(l, instruction, g), instruction, DispatchReply(l, g),
                        Min(2 * backoff, cap), cap, left - 1, gates, i + 1);
      rest.(sleeps := [backoff] + rest.sleeps)
    else Ended(l, reply, [], i)
  }

  /** `goal` is where the retry loop ends from here, the sleeps `slept` included. */
  predicate Heading(goal: Ended, l: Ledger, instruction: string, reply: Reply, slept: seq<nat>, backoff: nat, cap: nat,
                    left: nat, gates: nat -> Gate, i: nat)
  {
    var rest := Retry(l, instruction, reply, backoff, cap, left, gates, i);
    goal == rest.(sleeps := slept + rest.sleeps)
  }

  /** One turn of the loop. */
  lemma RetryOnce(goal: Ended, l: Ledger, instruction: string, reply: Reply, slept: seq<nat>, backoff: nat, cap: nat,
                  left: nat, gates: nat -> Gate, i: nat)
    requires Retryable(reply) && left > 0 && Heading(goal, l, instruction, reply, slept, backoff, cap, left, gates, i)
    ensures Heading(goal, DispatchLedger(l, instruction, gates(i)), instruction, DispatchReply(l, gates(i)),
                    slept + [backoff], Min(2 * backoff, cap), cap, left - 1, gates, i + 1)
  {
    var rest := Retry(DispatchLedger(l, instruction, gates(i)), instruction, DispatchReply(l, gates(i)),
                      Min(2 * backoff, cap), cap, left - 1, gates, i + 1);
    Regroup(slept, [backoff], rest.sleeps);
  }

  lemma RetryEnds(goal: Ended, l: Ledger, instruction: string, reply: Reply, slept: seq<nat>, backoff: nat, cap: nat,
                  left: nat, gates: nat -> Gate, i: nat)
    requires !(Retryable(reply) && left > 0) && Heading(goal, l, instruction, reply, slept, backoff, cap, left, gates, i)
    ensures goal == Ended(l, reply, slept, i)
  {
    assert slept + [] == slept;
  }

  function Submit(l: Ledger, instruction: string, b: Budget, gates: nat -> Gate): Ended {
    if gates(0).Unregistered? then Ended(l, UnknownConnector, [], 0)
    else if LastSubmitTimedOut(l) then Ended(l, RetryForbidden, [], 0)
    else Retry(DispatchLedger(l, instruction, gates(0)), instruction, DispatchReply(l, gates(0)),
               b.initial, b.cap, b.retries, gates, 1)
  }

  // ------------------------------------------------------------------ after a timeout

  predicate Definitive(r: Reply) {
    r.Got? && r.result.status in {SUCCESS, REJECTED, REVERSED, FAILED} && r.result.code != TRANSPORT_ERROR
  }

  predicate NeverReceived(r: Reply) {
    r.Got? && r.result.status == FAILED && r.result.code == NOT_RECEIVED
  }

  datatype Polled = Polled(ledger: Ledger, last: Option<Reply>, used: nat)

  /** `poll_status`: up to `left` more queries, stopping at a definitive answer (or when a call raises). */
  function Poll(l: Ledger, last: Option<Reply>, left: nat, gates: nat -> Gate, i: nat): Polled
    decreases left
  {
    if left == 0 then Polled(l, last, i)
    else
      var r := CallReply(gates(i));
      var l1 := CallLedger(l, QUERY_STATUS, gates(i));
      if Definitive(r) || !r.Got? then Polled(l1, Some(r), i + 1)
      else Poll(l1, Some(r), left - 1, gates, i + 1)
  }

  function Resubmit(l: Ledger, instruction: string, b: Budget, gates: nat -> Gate): Ended {
    if gates(0).Unregistered? then Ended(l, UnknownConnector, [], 0)
    else if !LastSubmitTimedOut(l) then Ended(l, RetryForbidden, [], 0)
    else
      var p := Poll(l, None, b.polls, gates, 0);
      if p.last.None? then Ended(p.ledger, Got(Synthetic(TIMED_OUT, "status_unresolved")), [], p.used)
      else if NeverReceived(p.last.value) then
        var g := gates(p.used);
        Ended(DispatchLedger(p.ledger, instruction, g), DispatchReply(p.ledger, g), [], p.used + 1)
      else Ended(p.ledger, p.last.value, [], p.used)
  }

  predicate Settles(r: Reply) {
    !r.Got? || r.result.status in {SUCCESS, REJECTED, REVERSED} || NeverReceived(r)
  }

  datatype Settled = Settled(ledger: Ledger, reply: Reply, polls: seq<Reply>, reversed: bool)

  /** The poll loop of `settle_after_timeout` with `left` polls to go, then the reversal. */
  function SettleLoop(l: Ledger, left: nat, gates: nat -> Gate, i: nat): Settled
    decreases left
  {
    var g := gates(i);
    if left == 0 then Settled(CallLedger(l, REVERSE, g), CallReply(g), [], true)
    else
      var r := CallReply(g);
      var l1 := CallLedger(l, QUERY_STATUS, g);
      if Settles(r) then Settled(l1, r, [r], false)
      else
        var rest := SettleLoop(l1, left - 1, gates, i + 1);
        rest.(polls := [r] + rest.polls)
  }

  function Settle(l: Ledger, b: Budget, gates: nat -> Gate): Settled {
    if gates(0).Unregistered? then Settled(l, UnknownConnector, [], false)
    else if !LastSubmitTimedOut(l) then Settled(l, RetryForbidden, [], false)
    else SettleLoop(l, Min(b.polls, MAX_SETTLE_POLLS), gates, 0)
  }

  // ------------------------------------------------------------------ runs

  datatype Action =
    | DoDispatch(instruction: string, gates: nat -> Gate)
    | DoSubmit(instruction: string, budget: Budget, gates: nat -> Gate)
    | DoResubmit(instruction: string, budget: Budget, gates: nat -> Gate)
    | DoSettle(budget: Budget, gates: nat -> Gate)
    | DoQuery(gates: nat -> Gate)
    | DoReverse(gates: nat -> Gate)

  function Act(l: Ledger, a: Action): Ledger {
    match a
    case DoDispatch(instruction, gates) => DispatchLedger(l, instruction, gates(0))
    case DoSubmit(instruction, b, gates) => Submit(l, instruction, b, gates).ledger
    case DoResubmit(instruction, b, gates) => Resubmit(l, instruction, b, gates).ledger
    case DoSettle(b, gates) => Settle(l, b, gates).ledger
    case DoQuery(gates) => CallLedger(l, QUERY_STATUS, gates(0))
    case DoReverse(gates) => CallLedger(l, REVERSE, gates(0))
  }

  function Run(l: Ledger, actions: seq<Action>): Ledger
    decreases |actions|
  {
    if actions == [] then l else Act(Run(l, actions[..|actions| - 1]), actions[|actions| - 1])
  }

  // ------------------------------------------------------------------ the ledger invariant

  predicate IsSubmit(l: Ledger, j: nat)
    requires j < |l.rows|
  {
    l.rows[j].kind == SUBMIT
  }

  /** No submit was dropped after row `j` was there. */
  predicate NoDropAfter(l: Ledger, j: nat) {
    forall d :: 0 <= d < |l.dropped| && l.dropped[d].kind == SUBMIT ==> l.dropped[d].at <= j
  }

  /** Every rail touch that came back left exactly one row of its kind; every submit touch, dropped ones included, had a
      write-ahead intent; a replay-safe submit outcome is the recorded one and no submit touch of either sort follows it. */
  ghost predicate Sound(l: Ledger) {
    && |l.touches| == |l.rows|
    && (forall j :: 0 <= j < |l.rows| ==> l.touches[j].at == j && l.touches[j].kind == l.rows[j].kind)
    && (forall j :: 0 <= j < |l.rows| && IsSubmit(l, j) ==> l.touches[j].intended)
    && (forall j :: 0 <= j < |l.rows| && IsSubmit(l, j) && ReplaySafe(l.rows[j].result.status) ==>
          && l.recorded == Some(l.rows[j].result) && (forall k :: j < k < |l.rows| ==> !IsSubmit(l, k))
          && NoDropAfter(l, j))
    && (forall d :: 0 <= d < |l.dropped| ==> l.dropped[d].at <= |l.rows| && (l.dropped[d].kind == SUBMIT ==> l.dropped[d].intended))
    && (l.recorded.Some? ==> exists j :: 0 <= j < |l.rows| && IsSubmit(l, j) && l.rows[j].result == l.recorded.value
                                         && ReplaySafe(l.rows[j].result.status))
  }

  /** Stores only grow: rows and touches are append-only, the first recorded result and the first intent win. */
  ghost predicate Grown(l: Ledger, l1: Ledger) {
    && l.rows <= l1.rows && l.touches <= l1.touches
    && (l.recorded.Some? ==> l1.recorded == l.recorded)
    && (l.intent.Some? ==> l1.intent == l.intent)
    && l.dropped <= l1.dropped && forall d :: |l.dropped| <= d < |l1.dropped| ==> l1.dropped[d].at >= |l.rows|
  }

  predicate TimedOutSubmit(l: Ledger, j: nat)
    requires j < |l.rows|
  {
    l.rows[j].kind == SUBMIT && l.rows[j].result.status == TIMED_OUT
  }

  /** Some status query recorded strictly between rows `j` and `k` was told the rail never received the ref. */
  ghost predicate QueriedBetween(l: Ledger, j: int, k: int) {
    exists q :: j < q < k && 0 <= q < |l.rows| && l.rows[q].kind == QUERY_STATUS && NeverReceived(Got(l.rows[q].result))
  }

  /** The query-first rule: no submit follows a timed-out submit without a not-received answer in between. */
  ghost predicate QueryFirst(l: Ledger) {
    forall j, k :: 0 <= j < k < |l.rows| && TimedOutSubmit(l, j) && IsSubmit(l, k) ==> QueriedBetween(l, j, k)
  }

  /** Every timed-out submit has already been answered by a not-received. */
  ghost predicate ClearToSubmit(l: Ledger) {
    forall j :: 0 <= j < |l.rows| && TimedOutSubmit(l, j) ==> QueriedBetween(l, j, |l.rows|)
  }

  /** What runs keep; `strict` for runs that never call `dispatch` directly. */
  ghost predicate Kept(l: Ledger, strict: bool) {
    Sound(l) && (strict ==> QueryFirst(l))
  }

  /** A dropped call leaves rows and record alone; a dropped submit finds nothing recorded. */
  lemma DropKeepsSound(l: Ledger, l1: Ledger, touch: Touch)
    requires Sound(l) && l1.rows == l.rows && l1.touches == l.touches && l1.recorded == l.recorded
    requires l1.dropped == l.dropped + [touch] && touch.at == |l.rows|
    requires touch.kind == SUBMIT ==> touch.intended && !Replays(l)
    ensures Sound(l1)
  {
    assert forall j :: 0 <= j < |l.rows| ==> (IsSubmit(l1, j) <==> IsSubmit(l, j));
    forall j | 0 <= j < |l.rows| && IsSubmit(l1, j) && ReplaySafe(l1.rows[j].result.status) ensures NoDropAfter(l1, j) {
      assert IsSubmit(l, j) && NoDropAfter(l, j);
    }
    if l.recorded.Some? {
      var j :| 0 <= j < |l.rows| && IsSubmit(l, j) && l.rows[j].result == l.recorded.value
               && ReplaySafe(l.rows[j].result.status);
      assert IsSubmit(l1, j);
    }
  }

  lemma SubmitTouchKeepsSound(l: Ledger, instruction: string, g: Gate)
    requires Sound(l)
    ensures Sound(DispatchLedger(l, instruction, g))
  {
    var l1 := DispatchLedger(l, instruction, g);
    if g.Reached? && !Lands(g) && !Replays(l) {
      DropKeepsSound(l, l1, Touch(SUBMIT, |l.rows|, true));
    } else if l1 != l {
      assert l.recorded.None?;
      var n := |l.rows|;
      assert forall j :: 0 <= j < n ==> l1.rows[j] == l.rows[j] && l1.touches[j] == l.touches[j];
      forall j | 0 <= j < n && IsSubmit(l1, j) ensures !ReplaySafe(l1.rows[j].result.status) {
        assert IsSubmit(l, j);
      }
      assert IsSubmit(l1, n);
    }
  }

  lemma RowKeepsSound(l: Ledger, l1: Ledger, kind: Kind, result: Result)
    requires Sound(l) && kind != SUBMIT
    requires l1 == l.(rows := l.rows + [Row(kind, result)], touches := l.touches + [Touch(kind, |l.rows|, l.intent.Some?)])
    ensures Sound(l1)
  {
    var n := |l.rows|;
    assert forall j :: 0 <= j < n ==> l1.rows[j] == l.rows[j] && l1.touches[j] == l.touches[j];
    assert forall j :: 0 <= j < n ==> (IsSubmit(l1, j) <==> IsSubmit(l, j));
    assert !IsSubmit(l1, n);
    forall j | 0 <= j < n && IsSubmit(l, j) && ReplaySafe(l.rows[j].result.status) ensures NoDropAfter(l1, j) {
      assert NoDropAfter(l, j);
    }
    if l.recorded.Some? {
      var j :| 0 <= j < n && IsSubmit(l, j) && l.rows[j].result == l.recorded.value
               && ReplaySafe(l.rows[j].result.status);
      assert IsSubmit(l1, j) && l1.rows[j].result == l1.recorded.value;
    }
  }

  lemma CallKeepsSound(l: Ledger, kind: Kind, g: Gate)
    requires Sound(l) && kind != SUBMIT
    ensures Sound(CallLedger(l, kind, g))
  {
    if Lands(g) {
      RowKeepsSound(l, CallLedger(l, kind, g), kind, Outcome(g.answer));
    } else if g.Reached? {
      DropKeepsSound(l, CallLedger(l, kind, g), Touch(kind, |l.rows|, l.intent.Some?));
    }
  }

  ghost predicate NewestAt(rows: seq<Row>, kind: Kind, m: nat) {
    m < |rows| && rows[m].kind == kind && forall j :: m < j < |rows| ==> rows[j].kind != kind
  }

  lemma {:induction false} LastForIsNewest(rows: seq<Row>, kind: Kind)
    ensures var last := LastFor(rows, kind);
            if last.None? then forall j :: 0 <= j < |rows| ==> rows[j].kind != kind
            else exists m: nat :: NewestAt(rows, kind, m) && rows[m] == last.value
    decreases |rows|
  {
    if rows != [] {
      var p := rows[..|rows| - 1];
      if rows[|rows| - 1].kind == kind {
        assert NewestAt(rows, kind, |rows| - 1);
      } else {
        LastForIsNewest(p, kind);
        if LastFor(p, kind).Some? {
          var m: nat :| NewestAt(p, kind, m) && p[m] == LastFor(p, kind).value;
          assert NewestAt(rows, kind, m);
        }
      }
    }
  }

  lemma NotTimedOutIsClear(l: Ledger)
    requires QueryFirst(l) && !LastSubmitTimedOut(l)
    ensures ClearToSubmit(l)
  {
    LastForIsNewest(l.rows, SUBMIT);
    forall j | 0 <= j < |l.rows| && TimedOutSubmit(l, j) ensures QueriedBetween(l, j, |l.rows|) {
      var m: nat :| NewestAt(l.rows, SUBMIT, m) && l.rows[m] == LastFor(l.rows, SUBMIT).value;
      assert j < m && IsSubmit(l, m);
      assert QueriedBetween(l, j, m);
    }
  }

  lemma QueriedBetweenGrows(l: Ledger, l1: Ledger, j: int, k: int)
    requires l.rows <= l1.rows && QueriedBetween(l, j, k)
    ensures QueriedBetween(l1, j, k)
  {
    var q :| j < q < k && 0 <= q < |l.rows| && l.rows[q].kind == QUERY_STATUS && NeverReceived(Got(l.rows[q].result));
    assert l1.rows[q] == l.rows[q];
  }

  /** Appending a row keeps the query-first rule unless it is a submit that was not clear to go. */
  lemma AppendKeepsQueryFirst(l: Ledger, l1: Ledger, row: Row)
    requires QueryFirst(l) && l1.rows == l.rows + [row]
    requires row.kind == SUBMIT ==> ClearToSubmit(l)
    ensures QueryFirst(l1)
  {
    forall j, k | 0 <= j < k < |l1.rows| && TimedOutSubmit(l1, j) && IsSubmit(l1, k) ensures QueriedBetween(l1, j, k) {
      assert TimedOutSubmit(l, j);
      if k < |l.rows| {
        assert IsSubmit(l, k);
      }
      QueriedBetweenGrows(l, l1, j, k);
    }
  }

  lemma SameRowsQueryAlike(l: Ledger, l1: Ledger)
    ensures l1.rows == l.rows ==> (QueryFirst(l1) <==> QueryFirst(l))
  {
    if l1.rows == l.rows {
      assert forall j, k :: QueriedBetween(l1, j, k) <==> QueriedBetween(l, j, k);
      assert forall j :: 0 <= j < |l.rows| ==>
               (TimedOutSubmit(l1, j) <==> TimedOutSubmit(l, j)) && (IsSubmit(l1, j) <==> IsSubmit(l, j));
    }
  }

  lemma DispatchKeeps(l: Ledger, instruction: string, g: Gate, strict: bool)
    requires Kept(l, strict) && (strict ==> ClearToSubmit(l))
    ensures Kept(DispatchLedger(l, instruction, g), strict) && Grown(l, DispatchLedger(l, instruction, g))
  {
    SubmitTouchKeepsSound(l, instruction, g);
    if strict && DispatchLedger(l, instruction, g).rows != l.rows {
      AppendKeepsQueryFirst(l, DispatchLedger(l, instruction, g), Row(SUBMIT, Outcome(g.answer)));
    } else {
      SameRowsQueryAlike(l, DispatchLedger(l, instruction, g));
    }
  }

  lemma CallKeeps(l: Ledger, kind: Kind, g: Gate, strict: bool)
    requires Kept(l, strict) && kind != SUBMIT
    ensures Kept(CallLedger(l, kind, g), strict) && Grown(l, CallLedger(l, kind, g))
  {
    CallKeepsSound(l, kind, g);
    if strict && Lands(g) {
      AppendKeepsQueryFirst(l, CallLedger(l, kind, g), Row(kind, Outcome(g.answer)));
    } else {
      SameRowsQueryAlike(l, CallLedger(l, kind, g));
    }
  }

  /** A retryable reply was recorded as a failed submit, so the newest submit did not time out. */
  lemma RetryableIsRecorded(l: Ledger, instruction: string, g: Gate)
    requires Retryable(DispatchReply(l, g))
    ensures !LastSubmitTimedOut(DispatchLedger(l, instruction, g))
  {
  }

  lemma {:induction false} RetryKeeps(l: Ledger, instruction: string, reply: Reply, backoff: nat, cap: nat, left: nat,
                                      gates: nat -> Gate, i: nat, strict: bool)
    requires Kept(l, strict) && (strict && Retryable(reply) ==> !LastSubmitTimedOut(l))
    ensures var e := Retry(l, instruction, reply, backoff, cap, left, gates, i);
            Kept(e.ledger, strict) && Grown(l, e.ledger)
    decreases left
  {
    if Retryable(reply) && left > 0 {
      var g := gates(i);
      if strict {
        NotTimedOutIsClear(l);
      }
      DispatchKeeps(l, instruction, g, strict);
      if Retryable(DispatchReply(l, g)) {
        RetryableIsRecorded(l, instruction, g);
      }
      RetryKeeps(DispatchLedger(l, instruction, g), instruction, DispatchReply(l, g),
                 Min(2 * backoff, cap), cap, left - 1, gates, i + 1, strict);
    }
  }

  lemma SubmitKeeps(l: Ledger, instruction: string, b: Budget, gates: nat -> Gate, strict: bool)
    requires Kept(l, strict)
    ensures Kept(Submit(l, instruction, b, gates).ledger, strict) && Grown(l, Submit(l, instruction, b, gates).ledger)
  {
    var g := gates(0);
    if !g.Unregistered? && !LastSubmitTimedOut(l) {
      if strict {
        NotTimedOutIsClear(l);
      }
      DispatchKeeps(l, instruction, g, strict);
      if Retryable(DispatchReply(l, g)) {
        RetryableIsRecorded(l, instruction, g);
      }
      RetryKeeps(DispatchLedger(l, instruction, g), instruction, DispatchReply(l, g),
                 b.initial, b.cap, b.retries, gates, 1, strict);
    }
  }

  /** A poll that ends in not-received has put that answer on record, after everything else. */
  lemma {:induction false} PollKeeps(l: Ledger, last: Option<Reply>, left: nat, gates: nat -> Gate, i: nat, strict: bool)
    requires Kept(l, strict)
    requires last.Some? && NeverReceived(last.value) ==> QueriedBetween(l, |l.rows| - 2, |l.rows|)
    ensures var p := Poll(l, last, left, gates, i);
            && Kept(p.ledger, strict) && Grown(l, p.ledger)
            && (p.last.Some? && NeverReceived(p.last.value) ==> QueriedBetween(p.ledger, |p.ledger.rows| - 2, |p.ledger.rows|))
    decreases left
  {
    if left > 0 {
      var g := gates(i);
      var l1 := CallLedger(l, QUERY_STATUS, g);
      CallKeeps(l, QUERY_STATUS, g, strict);
      if NeverReceived(CallReply(g)) {
        assert l1.rows[|l.rows|] == Row(QUERY_STATUS, Outcome(g.answer));
      }
      if !Definitive(CallReply(g)) && CallReply(g).Got? {
        PollKeeps(l1, Some(CallReply(g)), left - 1, gates, i + 1, strict);
      }
    }
  }

  lemma FreshAnswerIsClear(l: Ledger)
    requires QueriedBetween(l, |l.rows| - 2, |l.rows|)
    ensures ClearToSubmit(l)
  {
    var q :| |l.rows| - 2 < q < |l.rows| && 0 <= q && l.rows[q].kind == QUERY_STATUS && NeverReceived(Got(l.rows[q].result));
    forall j | 0 <= j < |l.rows| && TimedOutSubmit(l, j) ensures QueriedBetween(l, j, |l.rows|) {
      assert j < q;
    }
  }

  lemma ResubmitKeeps(l: Ledger, instruction: string, b: Budget, gates: nat -> Gate, strict: bool)
    requires Kept(l, strict)
    ensures Kept(Resubmit(l, instruction, b, gates).ledger, strict) && Grown(l, Resubmit(l, instruction, b, gates).ledger)
  {
    if !gates(0).Unregistered? && LastSubmitTimedOut(l) {
      PollKeeps(l, None, b.polls, gates, 0, strict);
      var p := Poll(l, None, b.polls, gates, 0);
      if p.last.Some? && NeverReceived(p.last.value) {
        FreshAnswerIsClear(p.ledger);
        DispatchKeeps(p.ledger, instruction, gates(p.used), strict);
      }
    }
  }

  lemma {:induction false} SettleLoopKeeps(l: Ledger, left: nat, gates: nat -> Gate, i: nat, strict: bool)
    requires Kept(l, strict)
    ensures Kept(SettleLoop(l, left, gates, i).ledger, strict) && Grown(l, SettleLoop(l, left, gates, i).ledger)
    decreases left
  {
    var g := gates(i);
    if left == 0 {
      CallKeeps(l, REVERSE, g, strict);
    } else {
      CallKeeps(l, QUERY_STATUS, g, strict);
      if !Settles(CallReply(g)) {
        SettleLoopKeeps(CallLedger(l, QUERY_STATUS, g), left - 1, gates, i + 1, strict);
      }
    }
  }

  lemma ActKeeps(l: Ledger, a: Action, strict: bool)
    requires Kept(l, strict) && (strict ==> !a.DoDispatch?)
    ensures Kept(Act(l, a), strict) && Grown(l, Act(l, a))
  {
    match a
    case DoDispatch(instruction, gates) => DispatchKeeps(l, instruction, gates(0), strict);
    case DoSubmit(instruction, b, gates) => SubmitKeeps(l, instruction, b, gates, strict);
    case DoResubmit(instruction, b, gates) => ResubmitKeeps(l, instruction, b, gates, strict);
    case DoSettle(b, gates) =>
      SettleLoopKeeps(l, Min(b.polls, MAX_SETTLE_POLLS), gates, 0, strict);
    case DoQuery(gates) => CallKeeps(l, QUERY_STATUS, gates(0), strict);
    case DoReverse(gates) => CallKeeps(l, REVERSE, gates(0), strict);
  }

  lemma {:induction false} RunKeeps(l: Ledger, actions: seq<Action>, strict: bool)
    requires Kept(l, strict)
    requires strict ==> forall i :: 0 <= i < |actions| ==> !actions[i].DoDispatch?
    ensures Kept(Run(l, actions), strict) && Grown(l, Run(l, actions))
    decreases |actions|
  {
    if actions != [] {
      var p := actions[..|actions| - 1];
      RunKeeps(l, p, strict);
      ActKeeps(Run(l, p), actions[|actions| - 1], strict);
    }
  }

  // ------------------------------------------------------------------ main results

  /** Every run, raw dispatches included: one row per rail touch, an intent before every submit touch, at most one
      replay-safe submit outcome, recorded, and no submit touch after it. */
  lemma EveryRunIsSound(actions: seq<Action>)
    ensures Sound(Run(BLANK, actions))
  {
    RunKeeps(BLANK, actions, false);
  }

  /** Every run that goes through submit, resubmit_after_timeout, settle_after_timeout, query_status and reverse
      obeys the query-first rule. */
  lemma EveryGuardedRunQueriesFirst(actions: seq<Action>)
    requires forall i :: 0 <= i < |actions| ==> !actions[i].DoDispatch?
    ensures QueryFirst(Run(BLANK, actions))
  {
    RunKeeps(BLANK, actions, true);
  }

  /** A raw `dispatch` keeps the rule exactly when it adds no row or every timed-out submit has been
      answered by a not-received. */
  lemma DispatchQueriesFirstExactlyWhenClear(l: Ledger, instruction: string, g: Gate)
    requires QueryFirst(l)
    ensures QueryFirst(DispatchLedger(l, instruction, g)) <==> Replays(l) || !Lands(g) || ClearToSubmit(l)
  {
    var l1 := DispatchLedger(l, instruction, g);
    SameRowsQueryAlike(l, l1);
    if !Replays(l) && Lands(g) {
      if ClearToSubmit(l) {
        AppendKeepsQueryFirst(l, l1, Row(SUBMIT, Outcome(g.answer)));
      } else {
        var j :| 0 <= j < |l.rows| && TimedOutSubmit(l, j) && !QueriedBetween(l, j, |l.rows|);
        assert TimedOutSubmit(l1, j) && IsSubmit(l1, |l.rows|);
        assert !QueriedBetween(l1, j, |l.rows|);
      }
    }
  }

  /** Two raw dispatches, the first timing out, submit twice without asking the rail in between. */
  lemma RawDispatchCanBreakQueryFirst(instruction: string, result: Result)
    ensures var actions := [DoDispatch(instruction, (i: nat) => Reached(HardTimeout)),
                            DoDispatch(instruction, (i: nat) => Reached(Returned(result)))];
            !QueryFirst(Run(BLANK, actions))
  {
    var a := DoDispatch(instruction, (i: nat) => Reached(HardTimeout));
    var b := DoDispatch(instruction, (i: nat) => Reached(Returned(result)));
    assert [a, b][..1] == [a] && [a][..0] == [];
    var l := Run(BLANK, [a, b]);
    assert Run(BLANK, []) == BLANK;
    assert Run(BLANK, [a]) == DispatchLedger(BLANK, instruction, Reached(HardTimeout));
    assert l == DispatchLedger(Run(BLANK, [a]), instruction, Reached(Returned(result)));
    assert TimedOutSubmit(l, 0) && IsSubmit(l, 1);
  }

  lemma RunTwo(a: Action, b: Action)
    ensures Run(BLANK, [a, b]) == Act(Act(BLANK, a), b)
  {
    assert [a, b][..1] == [a] && [a][..0] == [];
    assert Run(BLANK, [a]) == Act(Run(BLANK, []), a);
  }

  lemma DroppedFirst(instruction: string, b: Budget, gates: nat -> Gate)
    requires gates(0) == Reached(Interrupted)
    ensures Submit(BLANK, instruction, b, gates).ledger == Ledger([], [], None, Some(instruction), [Touch(SUBMIT, 0, true)])
  {
  }

  /** A cancelled submit leaves no row, so the next `submit` neither replays nor asks: it touches the rail a second time with no
      status query in between, through the guarded entry point. */
  lemma CancelledSubmitIsSubmittedAgain(instruction: string, b: Budget, cancelled: nat -> Gate, gates: nat -> Gate)
    requires cancelled(0) == Reached(Interrupted) && Lands(gates(0))
    ensures var l := Run(BLANK, [DoSubmit(instruction, b, cancelled), DoSubmit(instruction, b, gates)]);
            && [Touch(SUBMIT, 0, true)] <= l.dropped
            && l.rows != [] && l.rows[0] == Row(SUBMIT, Outcome(gates(0).answer))
  {
    RunTwo(DoSubmit(instruction, b, cancelled), DoSubmit(instruction, b, gates));
    DroppedFirst(instruction, b, cancelled);
    var l := Submit(BLANK, instruction, b, cancelled).ledger;
    var l1 := DispatchLedger(l, instruction, gates(0));
    DispatchKeeps(l, instruction, gates(0), false);
    RetryKeeps(l1, instruction, DispatchReply(l, gates(0)), b.initial, b.cap, b.retries, gates, 1, false);
  }

  // ------------------------------------------------------------------ the rule for cancelled submits

  predicate DroppedSubmit(l: Ledger, d: nat)
    requires d < |l.dropped|
  {
    l.dropped[d].kind == SUBMIT
  }

  /** Every cancelled submit has been answered by a not-received since. */
  ghost predicate DropsResolved(l: Ledger) {
    forall d :: 0 <= d < |l.dropped| && DroppedSubmit(l, d) ==> QueriedBetween(l, l.dropped[d].at - 1, |l.rows|)
  }

  /** The query-first rule for every submit touch, rows and cancelled calls alike: none follows a submit whose outcome is unknown
      without a not-received answer in between. */
  ghost predicate AskedFirst(l: Ledger) {
    && QueryFirst(l)
    && (forall d, k :: 0 <= d < |l.dropped| && 0 <= k < |l.rows| && DroppedSubmit(l, d) && IsSubmit(l, k) && l.dropped[d].at <= k ==>
          QueriedBetween(l, l.dropped[d].at - 1, k))
    && (forall d, e :: 0 <= d < e < |l.dropped| && DroppedSubmit(l, d) && DroppedSubmit(l, e) ==>
          QueriedBetween(l, l.dropped[d].at - 1, l.dropped[e].at))
    && (forall j, e :: 0 <= j < |l.rows| && 0 <= e < |l.dropped| && TimedOutSubmit(l, j) && DroppedSubmit(l, e) &&
                       j < l.dropped[e].at ==>
          QueriedBetween(l, j, l.dropped[e].at))
  }

  ghost predicate AtsWithin(l: Ledger) {
    forall d :: 0 <= d < |l.dropped| ==> l.dropped[d].at <= |l.rows|
  }

  lemma LandingAsks(l: Ledger, l1: Ledger, row: Row)
    requires AskedFirst(l) && AtsWithin(l) && l1.rows == l.rows + [row] && l1.dropped == l.dropped && row.kind == SUBMIT
    requires ClearToSubmit(l) && DropsResolved(l)
    ensures AskedFirst(l1)
  {
    AppendKeepsQueryFirst(l, l1, row);
    forall d, k | 0 <= d < |l1.dropped| && 0 <= k < |l1.rows| && DroppedSubmit(l1, d) && IsSubmit(l1, k) && l1.dropped[d].at <= k
      ensures QueriedBetween(l1, l1.dropped[d].at - 1, k)
    {
      assert DroppedSubmit(l, d);
      if k < |l.rows| {
        assert IsSubmit(l, k);
      }
      QueriedBetweenGrows(l, l1, l.dropped[d].at - 1, k);
    }
    forall d, e | 0 <= d < e < |l1.dropped| && DroppedSubmit(l1, d) && DroppedSubmit(l1, e)
      ensures QueriedBetween(l1, l1.dropped[d].at - 1, l1.dropped[e].at)
    {
      assert DroppedSubmit(l, d) && DroppedSubmit(l, e);
      QueriedBetweenGrows(l, l1, l.dropped[d].at - 1, l.dropped[e].at);
    }
    forall j, e | 0 <= j < |l1.rows| && 0 <= e < |l1.dropped| && TimedOutSubmit(l1, j) && DroppedSubmit(l1, e) && j < l1.dropped[e].at
      ensures QueriedBetween(l1, j, l1.dropped[e].at)
    {
      assert TimedOutSubmit(l, j) && DroppedSubmit(l, e);
      QueriedBetweenGrows(l, l1, j, l.dropped[e].at);
    }
  }

  lemma DroppingAsks(l: Ledger, l1: Ledger, touch: Touch)
    requires AskedFirst(l) && AtsWithin(l) && l1.rows == l.rows && l1.dropped == l.dropped + [touch]
    requires touch.kind == SUBMIT && touch.at == |l.rows| && ClearToSubmit(l) && DropsResolved(l)
    ensures AskedFirst(l1)
  {
    SameRowsQueryAlike(l, l1);
    forall d | 0 <= d < |l.dropped| ensures l1.dropped[d] == l.dropped[d] && (DroppedSubmit(l1, d) <==> DroppedSubmit(l, d)) {
    }
    forall j, k | QueriedBetween(l, j, k) ensures QueriedBetween(l1, j, k) {
      QueriedBetweenGrows(l, l1, j, k);
    }
    assert forall j :: 0 <= j < |l.rows| ==>
               (TimedOutSubmit(l1, j) <==> TimedOutSubmit(l, j)) && (IsSubmit(l1, j) <==> IsSubmit(l, j));
  }

  /** Of the query between positions, the rows from `k` on say nothing. */
  lemma QueriedBefore(l: Ledger, l1: Ledger, j: int, k: int)
    requires l.rows <= l1.rows && k <= |l.rows| && QueriedBetween(l1, j, k)
    ensures QueriedBetween(l, j, k)
  {
    var q :| j < q < k && 0 <= q < |l1.rows| && l1.rows[q].kind == QUERY_STATUS && NeverReceived(Got(l1.rows[q].result));
    assert l.rows[q] == l1.rows[q];
  }

  lemma AskedMeansResolved(l: Ledger, l1: Ledger)
    requires AskedFirst(l1) && AtsWithin(l) && l.rows <= l1.rows && l.dropped <= l1.dropped
    requires (|l1.rows| == |l.rows| + 1 && IsSubmit(l1, |l.rows|)) ||
             (l1.rows == l.rows && |l1.dropped| == |l.dropped| + 1 && DroppedSubmit(l1, |l.dropped|) &&
              l1.dropped[|l.dropped|].at == |l.rows|)
    ensures ClearToSubmit(l) && DropsResolved(l)
  {
    var n := |l.rows|;
    forall j | 0 <= j < n && TimedOutSubmit(l, j) ensures QueriedBetween(l, j, n) {
      assert TimedOutSubmit(l1, j);
      QueriedBefore(l, l1, j, n);
    }
    forall d | 0 <= d < |l.dropped| && DroppedSubmit(l, d) ensures QueriedBetween(l, l.dropped[d].at - 1, n) {
      assert DroppedSubmit(l1, d);
      QueriedBefore(l, l1, l.dropped[d].at - 1, n);
    }
  }

  /** A dispatch keeps the rule exactly when it does not touch the rail or every submit of unknown outcome, timed out or
      cancelled, has been answered by a not-received. */
  lemma DispatchAsksFirstExactlyWhenResolved(l: Ledger, instruction: string, g: Gate)
    requires Sound(l) && AskedFirst(l)
    ensures AskedFirst(DispatchLedger(l, instruction, g)) <==>
            Replays(l) || !g.Reached? || (ClearToSubmit(l) && DropsResolved(l))
  {
    var l1 := DispatchLedger(l, instruction, g);
    if !Replays(l) && g.Reached? {
      if ClearToSubmit(l) && DropsResolved(l) {
        if Lands(g) {
          LandingAsks(l, l1, Row(SUBMIT, Outcome(g.answer)));
        } else {
          DroppingAsks(l, l1, Touch(SUBMIT, |l.rows|, true));
        }
      } else if AskedFirst(l1) {
        AskedMeansResolved(l, l1);
      }
    }
  }

  /** The rule for a ledger holds of every earlier one. */
  lemma AskedFirstBefore(l: Ledger, l1: Ledger)
    requires AskedFirst(l1) && AtsWithin(l) && l.rows <= l1.rows && l.dropped <= l1.dropped
    ensures AskedFirst(l)
  {
    forall j | 0 <= j < |l.rows|
      ensures (TimedOutSubmit(l1, j) <==> TimedOutSubmit(l, j)) && (IsSubmit(l1, j) <==> IsSubmit(l, j))
    {
    }
    forall d | 0 <= d < |l.dropped| ensures l1.dropped[d] == l.dropped[d] && (DroppedSubmit(l1, d) <==> DroppedSubmit(l, d)) {
    }
    forall j, k | k <= |l.rows| && QueriedBetween(l1, j, k) ensures QueriedBetween(l, j, k) {
      QueriedBefore(l, l1, j, k);
    }
  }

  lemma LandingLeavesDropsResolved(l: Ledger, instruction: string, g: Gate)
    requires DropsResolved(l) && !Replays(l) && Lands(g)
    ensures DropsResolved(DispatchLedger(l, instruction, g))
  {
    var l1 := DispatchLedger(l, instruction, g);
    forall d | 0 <= d < |l1.dropped| && DroppedSubmit(l1, d) ensures QueriedBetween(l1, l1.dropped[d].at - 1, |l1.rows|) {
      assert DroppedSubmit(l, d);
      QueriedBetweenGrows(l, l1, l.dropped[d].at - 1, |l.rows|);
    }
  }

  lemma RetryableHasLanded(l: Ledger, g: Gate)
    requires Retryable(DispatchReply(l, g))
    ensures !Replays(l) && Lands(g)
  {
  }

  lemma {:induction false} RetryAsksFirst(l: Ledger, instruction: string, reply: Reply, backoff: nat, cap: nat, left: nat,
                                          gates: nat -> Gate, i: nat)
    requires Sound(l) && AskedFirst(l) && (Retryable(reply) ==> !LastSubmitTimedOut(l) && DropsResolved(l))
    ensures AskedFirst(Retry(l, instruction, reply, backoff, cap, left, gates, i).ledger)
    decreases left
  {
    if Retryable(reply) && left > 0 {
      var g := gates(i);
      var l1 := DispatchLedger(l, instruction, g);
      NotTimedOutIsClear(l);
      DispatchAsksFirstExactlyWhenResolved(l, instruction, g);
      SubmitTouchKeepsSound(l, instruction, g);
      if Retryable(DispatchReply(l, g)) {
        RetryableIsRecorded(l, instruction, g);
        RetryableHasLanded(l, g);
        LandingLeavesDropsResolved(l, instruction, g);
      }
      RetryAsksFirst(l1, instruction, DispatchReply(l, g), Min(2 * backoff, cap), cap, left - 1, gates, i + 1);
    }
  }

  /** `submit` asks about timed-out submits only. With its retries it keeps the rule exactly when it does not touch the rail or
      every cancelled submit happens to have been answered by a not-received. */
  lemma SubmitAsksFirstExactlyWhenDropsResolved(l: Ledger, instruction: string, b: Budget, gates: nat -> Gate)
    requires Sound(l) && AskedFirst(l)
    ensures AskedFirst(Submit(l, instruction, b, gates).ledger) <==>
            LastSubmitTimedOut(l) || Replays(l) || !gates(0).Reached? || DropsResolved(l)
  {
    if !gates(0).Unregistered? && !LastSubmitTimedOut(l) {
      var g := gates(0);
      var l1, reply := DispatchLedger(l, instruction, g), DispatchReply(l, g);
      NotTimedOutIsClear(l);
      DispatchAsksFirstExactlyWhenResolved(l, instruction, g);
      SubmitTouchKeepsSound(l, instruction, g);
      if Retryable(reply) {
        RetryableIsRecorded(l, instruction, g);
        RetryableHasLanded(l, g);
      }
      if AskedFirst(l1) {
        if Retryable(reply) {
          LandingLeavesDropsResolved(l, instruction, g);
        }
        RetryAsksFirst(l1, instruction, reply, b.initial, b.cap, b.retries, gates, 1);
      } else {
        RetryStaysUnasked(l1, instruction, reply, b, gates);
      }
    }
  }

  lemma RetryStaysUnasked(l: Ledger, instruction: string, reply: Reply, b: Budget, gates: nat -> Gate)
    requires Sound(l) && !AskedFirst(l)
    ensures !AskedFirst(Retry(l, instruction, reply, b.initial, b.cap, b.retries, gates, 1).ledger)
  {
    var l1 := Retry(l, instruction, reply, b.initial, b.cap, b.retries, gates, 1).ledger;
    RetryKeeps(l, instruction, reply, b.initial, b.cap, b.retries, gates, 1, false);
    if AskedFirst(l1) {
      AskedFirstBefore(l, l1);
    }
  }

  // ------------------------------------------------------------------ what the caller is told

  /** A call stopped before the rail leaves the ledger alone, says why, and is not tried again; only a recorded result is
      answered all the same. */
  lemma StoppedCallsSayWhy(l: Ledger, instruction: string, kind: Kind, g: Gate)
    requires !g.Reached?
    ensures DispatchLedger(l, instruction, g) == l && CallLedger(l, kind, g) == l
    ensures g.Unregistered? || !Replays(l) ==> DispatchReply(l, g) == CallReply(g)
    ensures !Retryable(CallReply(g))
    ensures g.Unregistered? || g.NoAdapter? ==> CallReply(g) == UnknownConnector
    ensures g.Disabled? ==> CallReply(g) == Got(Result(FAILED, Some("connector_disabled"), None))
    ensures g.Isolated? ==> CallReply(g) == Got(Result(FAILED, Some("sandbox_isolation_violation"), None))
    ensures g.CircuitOpen? ==> CallReply(g) == Got(Result(FAILED, Some("circuit_open"), None))
  {
    assert "circuit_open"[0] != "transport_error"[0] && "sandbox_isolation_violation"[0] != "transport_error"[0];
    assert "connector_disabled"[0] != "transport_error"[0];
  }

  /** A call that reached the rail says what came back: a raising adapter is a transport error, the one answer that is tried
      again. */
  lemma ReachedCallsSayWhatCame(l: Ledger, answer: Answer)
    requires !Replays(l)
    ensures DispatchReply(l, Reached(answer)) == CallReply(Reached(answer))
    ensures answer.Raised? ==> CallReply(Reached(answer)) == Got(Result(FAILED, Some("transport_error"), None))
    ensures answer.HardTimeout? ==> CallReply(Reached(answer)) == Got(Result(TIMED_OUT, Some("hard_timeout"), None))
    ensures answer.Returned? ==> CallReply(Reached(answer)) == Got(answer.result)
    ensures answer.Interrupted? ==> CallReply(Reached(answer)) == Cancelled
    ensures Retryable(CallReply(Reached(answer))) <==>
            answer.Raised? || (answer.Returned? && answer.result.status == FAILED && answer.result.code == Some("transport_error"))
  {
  }

  /** An unregistered connector is told so, whatever is asked; `submit` is forbidden exactly after a timed-out submit, and the two
      ways out of a timeout exactly without one. */
  lemma ForbiddenExactly(l: Ledger, instruction: string, b: Budget, gates: nat -> Gate)
    ensures gates(0).Unregistered? ==>
              && Submit(l, instruction, b, gates) == Ended(l, UnknownConnector, [], 0)
              && Resubmit(l, instruction, b, gates) == Ended(l, UnknownConnector, [], 0)
              && Settle(l, b, gates) == Settled(l, UnknownConnector, [], false)
    ensures !gates(0).Unregistered? && LastSubmitTimedOut(l) ==> Submit(l, instruction, b, gates) == Ended(l, RetryForbidden, [], 0)
    ensures !gates(0).Unregistered? && !LastSubmitTimedOut(l) ==>
              && Resubmit(l, instruction, b, gates) == Ended(l, RetryForbidden, [], 0)
              && Settle(l, b, gates) == Settled(l, RetryForbidden, [], false)
  {
  }

  /** Neither failed nor timed out. */
  predicate Good(reply: Reply) {
    reply.Got? && reply.result.status != FAILED && reply.result.status != TIMED_OUT
  }

  /** A row carries this result. */
  ghost predicate OnRecord(l: Ledger, result: Result) {
    exists j :: 0 <= j < |l.rows| && l.rows[j].result == result
  }

  /** A good answer to a submit is the recorded result. */
  lemma DispatchIsBacked(l: Ledger, instruction: string, g: Gate)
    requires Sound(l) && Good(DispatchReply(l, g))
    ensures DispatchLedger(l, instruction, g).recorded == Some(DispatchReply(l, g).result)
  {
  }

  lemma {:induction false} RetryIsBacked(l: Ledger, instruction: string, reply: Reply, backoff: nat, cap: nat, left: nat,
                                         gates: nat -> Gate, i: nat)
    requires Sound(l) && (Good(reply) ==> l.recorded == Some(reply.result))
    ensures var e := Retry(l, instruction, reply, backoff, cap, left, gates, i);
            Good(e.reply) ==> e.ledger.recorded == Some(e.reply.result)
    decreases left
  {
    if Retryable(reply) && left > 0 {
      var g := gates(i);
      if Good(DispatchReply(l, g)) {
        DispatchIsBacked(l, instruction, g);
      }
      SubmitTouchKeepsSound(l, instruction, g);
      RetryIsBacked(DispatchLedger(l, instruction, g), instruction, DispatchReply(l, g), Min(2 * backoff, cap), cap, left - 1,
                    gates, i + 1);
    }
  }

  lemma SubmitIsBacked(l: Ledger, instruction: string, b: Budget, gates: nat -> Gate)
    requires Sound(l) && Good(Submit(l, instruction, b, gates).reply)
    ensures var e := Submit(l, instruction, b, gates); e.ledger.recorded == Some(e.reply.result)
  {
    var g := gates(0);
    if Good(DispatchReply(l, g)) {
      DispatchIsBacked(l, instruction, g);
    }
    SubmitTouchKeepsSound(l, instruction, g);
    RetryIsBacked(DispatchLedger(l, instruction, g), instruction, DispatchReply(l, g), b.initial, b.cap, b.retries, gates, 1);
  }

  lemma RecordedIsOnRecord(l: Ledger)
    requires Sound(l) && l.recorded.Some?
    ensures OnRecord(l, l.recorded.value)
  {
  }

  /** An answer to a query or a reversal that is not FAILED came from the rail and is the newest row. */
  lemma CallIsBacked(l: Ledger, kind: Kind, g: Gate)
    requires CallReply(g).Got? && CallReply(g).result.status != FAILED
    ensures CallLedger(l, kind, g).rows == l.rows + [Row(kind, CallReply(g).result)]
  {
  }

  lemma NewestIsOnRecord(l: Ledger, rows: seq<Row>, row: Row)
    requires l.rows == rows + [row]
    ensures OnRecord(l, row.result)
  {
    assert l.rows[|rows|] == row;
  }

  lemma {:induction false} PollIsBacked(l: Ledger, last: Option<Reply>, left: nat, gates: nat -> Gate, i: nat)
    requires last.Some? && Good(last.value) ==> OnRecord(l, last.value.result)
    ensures var p := Poll(l, last, left, gates, i);
            p.last.Some? && Good(p.last.value) ==> OnRecord(p.ledger, p.last.value.result)
    decreases left
  {
    if left > 0 {
      var r, l1 := CallReply(gates(i)), CallLedger(l, QUERY_STATUS, gates(i));
      if Good(r) {
        CallIsBacked(l, QUERY_STATUS, gates(i));
        NewestIsOnRecord(l1, l.rows, Row(QUERY_STATUS, r.result));
      }
      if !(Definitive(r) || !r.Got?) {
        PollIsBacked(l1, Some(r), left - 1, gates, i + 1);
      }
    }
  }

  lemma ResubmitIsBacked(l: Ledger, instruction: string, b: Budget, gates: nat -> Gate)
    requires Sound(l) && Good(Resubmit(l, instruction, b, gates).reply)
    ensures var e := Resubmit(l, instruction, b, gates); OnRecord(e.ledger, e.reply.result)
  {
    var p := Poll(l, None, b.polls, gates, 0);
    PollIsBacked(l, None, b.polls, gates, 0);
    if NeverReceived(p.last.value) {
      PollKeeps(l, None, b.polls, gates, 0, false);
      DispatchIsBacked(p.ledger, instruction, gates(p.used));
      SubmitTouchKeepsSound(p.ledger, instruction, gates(p.used));
      RecordedIsOnRecord(DispatchLedger(p.ledger, instruction, gates(p.used)));
    }
  }

  lemma {:induction false} SettleLoopIsBacked(l: Ledger, left: nat, gates: nat -> Gate, i: nat)
    requires Good(SettleLoop(l, left, gates, i).reply)
    ensures var s := SettleLoop(l, left, gates, i); OnRecord(s.ledger, s.reply.result)
    decreases left
  {
    var g := gates(i);
    if left == 0 {
      CallIsBacked(l, REVERSE, g);
      NewestIsOnRecord(CallLedger(l, REVERSE, g), l.rows, Row(REVERSE, CallReply(g).result));
    } else if Settles(CallReply(g)) {
      CallIsBacked(l, QUERY_STATUS, g);
      NewestIsOnRecord(CallLedger(l, QUERY_STATUS, g), l.rows, Row(QUERY_STATUS, CallReply(g).result));
    } else {
      SettleLoopIsBacked(CallLedger(l, QUERY_STATUS, g), left - 1, gates, i + 1);
    }
  }

  function ReplyTo(l: Ledger, a: Action): Reply {
    match a
    case DoDispatch(_, gates) => DispatchReply(l, gates(0))
    case DoSubmit(instruction, b, gates) => Submit(l, instruction, b, gates).reply
    case DoResubmit(instruction, b, gates) => Resubmit(l, instruction, b, gates).reply
    case DoSettle(b, gates) => Settle(l, b, gates).reply
    case DoQuery(gates) => CallReply(gates(0))
    case DoReverse(gates) => CallReply(gates(0))
  }

  /** In every run an answer that is neither FAILED nor TIMED_OUT stands in a row the rail has answered, and a submit's is the
      recorded result. */
  lemma EveryGoodAnswerIsOnRecord(actions: seq<Action>, a: Action)
    requires Good(ReplyTo(Run(BLANK, actions), a))
    ensures var l := Run(BLANK, actions);
            && OnRecord(Act(l, a), ReplyTo(l, a).result)
            && (a.DoDispatch? || a.DoSubmit? ==> Act(l, a).recorded == Some(ReplyTo(l, a).result))
  {
    var l := Run(BLANK, actions);
    RunKeeps(BLANK, actions, false);
    ActKeeps(l, a, false);
    match a
    case DoDispatch(instruction, gates) =>
      DispatchIsBacked(l, instruction, gates(0));
      RecordedIsOnRecord(Act(l, a));
    case DoSubmit(instruction, b, gates) =>
      SubmitIsBacked(l, instruction, b, gates);
      RecordedIsOnRecord(Act(l, a));
    case DoResubmit(instruction, b, gates) => ResubmitIsBacked(l, instruction, b, gates);
    case DoSettle(b, gates) => SettleLoopIsBacked(l, Min(b.polls, MAX_SETTLE_POLLS), gates, 0);
    case DoQuery(gates) =>
      CallIsBacked(l, QUERY_STATUS, gates(0));
      NewestIsOnRecord(Act(l, a), l.rows, Row(QUERY_STATUS, CallReply(gates(0)).result));
    case DoReverse(gates) =>
      CallIsBacked(l, REVERSE, gates(0));
      NewestIsOnRecord(Act(l, a), l.rows, Row(REVERSE, CallReply(gates(0)).result));
  }

  /** A landed submit that replays nothing is recorded exactly when it neither failed nor timed out. */
  lemma RecordedExactlyWhenGood(l: Ledger, instruction: string, g: Gate)
    requires Sound(l) && !Replays(l) && Lands(g)
    ensures DispatchLedger(l, instruction, g).recorded.Some? <==> Good(DispatchReply(l, g))
    ensures DispatchLedger(l, instruction, g).rows == l.rows + [Row(SUBMIT, Outcome(g.answer))]
  {
  }

  // ------------------------------------------------------------------ polling

  /** A status answer that settles nothing: still pending, timed out, or lost on the way. */
  predicate Unsettled(r: Result) {
    r.status == PENDING || r.status == TIMED_OUT || r.code == Some("transport_error")
  }

  /** `n` queries answered from gate `i` on: all but the last got an unsettled answer, and the last did not, unless the budget
      is spent. */
  ghost predicate PolledFor(gates: nat -> Gate, i: nat, n: nat, left: nat, last: Option<Reply>) {
    && n <= left
    && (forall k :: i <= k < i + n - 1 ==> CallReply(gates(k)).Got? && Unsettled(CallReply(gates(k)).result))
    && (n > 0 ==> last == Some(CallReply(gates(i + n - 1))))
    && (n < left ==> n > 0 && last.Some? && (last.value.Got? ==> !Unsettled(last.value.result)))
  }

  lemma {:induction false} PollsUntilSettled(l: Ledger, last: Option<Reply>, left: nat, gates: nat -> Gate, i: nat)
    ensures var p := Poll(l, last, left, gates, i);
            p.used >= i && PolledFor(gates, i, p.used - i, left, p.last) && (p.used == i ==> p.last == last && p.ledger == l)
    decreases left
  {
    if left > 0 {
      var r := CallReply(gates(i));
      if !(Definitive(r) || !r.Got?) {
        PollsUntilSettled(CallLedger(l, QUERY_STATUS, gates(i)), Some(r), left - 1, gates, i + 1);
      }
    }
  }

  /** How often the rail was asked to submit. */
  function SubmitTouches(l: Ledger): nat {
    |Submits(l.touches)| + |Submits(l.dropped)|
  }

  function Submits(touches: seq<Touch>): seq<Touch>
    decreases |touches|
  {
    if touches == [] then []
    else
      var rest := Submits(touches[..|touches| - 1]);
      if touches[|touches| - 1].kind == SUBMIT then rest + [touches[|touches| - 1]] else rest
  }

  lemma DispatchSubmitsOnce(l: Ledger, instruction: string, g: Gate)
    ensures SubmitTouches(DispatchLedger(l, instruction, g)) == SubmitTouches(l) + if !Replays(l) && g.Reached? then 1 else 0
  {
    PushLast(l.touches, Touch(SUBMIT, |l.rows|, true));
    PushLast(l.dropped, Touch(SUBMIT, |l.rows|, true));
  }

  lemma {:induction false} PollSubmitsNothing(l: Ledger, last: Option<Reply>, left: nat, gates: nat -> Gate, i: nat)
    ensures var p := Poll(l, last, left, gates, i).ledger; SubmitTouches(p) == SubmitTouches(l) && Replays(p) == Replays(l)
    decreases left
  {
    if left > 0 {
      PushLast(l.touches, Touch(QUERY_STATUS, |l.rows|, l.intent.Some?));
      PushLast(l.dropped, Touch(QUERY_STATUS, |l.rows|, l.intent.Some?));
      PollSubmitsNothing(CallLedger(l, QUERY_STATUS, gates(i)), Some(CallReply(gates(i))), left - 1, gates, i + 1);
    }
  }

  /** `resubmit_after_timeout` submits again, once, exactly when the newest submit timed out, the last status query was answered
      not-received, nothing replays and the call reaches the rail; what it answers is that submit's reply, or the last query's. */
  lemma ResubmitsExactlyWhenNotReceived(l: Ledger, instruction: string, b: Budget, gates: nat -> Gate)
    requires !gates(0).Unregistered?
    ensures var e, p := Resubmit(l, instruction, b, gates), Poll(l, None, b.polls, gates, 0);
            var notReceived := p.last.Some? && p.last.value.Got? && p.last.value.result.status == FAILED
                               && p.last.value.result.code == Some("not_received");
            && SubmitTouches(e.ledger) ==
               SubmitTouches(l) + (if LastSubmitTimedOut(l) && notReceived && !Replays(l) && gates(p.used).Reached? then 1 else 0)
            && (!LastSubmitTimedOut(l) ==> e.reply == RetryForbidden && e.ledger == l)
            && (LastSubmitTimedOut(l) && p.last.Some? && !notReceived ==> e.reply == p.last.value && e.ledger == p.ledger)
            && (LastSubmitTimedOut(l) && notReceived ==> e.reply == DispatchReply(p.ledger, gates(p.used)))
            && (LastSubmitTimedOut(l) && b.polls == 0 ==> e.reply == Got(Result(TIMED_OUT, Some("status_unresolved"), None)))
  {
    var p := Poll(l, None, b.polls, gates, 0);
    PollSubmitsNothing(l, None, b.polls, gates, 0);
    DispatchSubmitsOnce(p.ledger, instruction, gates(p.used));
  }

  // ------------------------------------------------------------------ replay

  /** In a sound ledger with a recorded result, `dispatch` and `submit` replay it: no touch, no sleep. */
  lemma RecordedResultReplays(l: Ledger, instruction: string, b: Budget, gates: nat -> Gate)
    requires Sound(l) && l.recorded.Some? && !gates(0).Unregistered?
    ensures ReplaySafe(l.recorded.value.status)
    ensures DispatchReply(l, gates(0)) == Got(l.recorded.value) && DispatchLedger(l, instruction, gates(0)) == l
    ensures Submit(l, instruction, b, gates) == Ended(l, Got(l.recorded.value), [], 1)
  {
    var j :| 0 <= j < |l.rows| && IsSubmit(l, j) && l.rows[j].result == l.recorded.value
             && ReplaySafe(l.rows[j].result.status);
    LastForIsNewest(l.rows, SUBMIT);
    var m: nat :| NewestAt(l.rows, SUBMIT, m) && l.rows[m] == LastFor(l.rows, SUBMIT).value;
    assert IsSubmit(l, m) && m == j;
  }

  lemma NoSubmitAfterRecorded(l: Ledger, l1: Ledger)
    requires Sound(l) && Sound(l1) && Grown(l, l1) && l.recorded.Some?
    ensures forall k :: |l.touches| <= k < |l1.touches| ==> l1.touches[k].kind != SUBMIT
    ensures forall d :: |l.dropped| <= d < |l1.dropped| ==> l1.dropped[d].kind != SUBMIT
  {
    var j :| 0 <= j < |l.rows| && IsSubmit(l, j) && ReplaySafe(l.rows[j].result.status);
    assert IsSubmit(l1, j) && l1.rows[j] == l.rows[j];
    assert NoDropAfter(l1, j);
    forall k | |l.touches| <= k < |l1.touches| ensures l1.touches[k].kind != SUBMIT {
      assert !IsSubmit(l1, k);
    }
  }

  /** Once a result is recorded it stays, no later action submits again, and every later `dispatch` or `submit`
      answers with it without a rail touch, whatever the registry, the breaker and the rail do. */
  lemma RecordedResultIsFinal(before: seq<Action>, after: seq<Action>, instruction: string, b: Budget, gates: nat -> Gate)
    requires Run(BLANK, before).recorded.Some? && !gates(0).Unregistered?
    ensures var l := Run(BLANK, before);
            var l1 := Run(l, after);
            && l1.recorded == l.recorded && l.touches <= l1.touches
            && (forall k :: |l.touches| <= k < |l1.touches| ==> l1.touches[k].kind != SUBMIT)
            && (forall d :: |l.dropped| <= d < |l1.dropped| ==> l1.dropped[d].kind != SUBMIT)
            && DispatchReply(l1, gates(0)) == Got(l.recorded.value) && DispatchLedger(l1, instruction, gates(0)) == l1
            && Submit(l1, instruction, b, gates) == Ended(l1, Got(l.recorded.value), [], 1)
  {
    var l := Run(BLANK, before);
    RunKeeps(BLANK, before, false);
    RunKeeps(l, after, false);
    var l1 := Run(l, after);
    NoSubmitAfterRecorded(l, l1);
    RecordedResultReplays(l1, instruction, b, gates);
  }

  /** The sleep before the (k+1)-th retry. */
  function Backoff(initial: nat, cap: nat, k: nat): nat {
    if k == 0 then initial else Min(initial * Power2(k), cap)
  }

  lemma BackoffDoubles(initial: nat, cap: nat, k: nat)
    ensures Min(2 * Backoff(initial, cap, k), cap) == Backoff(initial, cap, k + 1)
  {
    assert initial * Power2(k + 1) == 2 * (initial * Power2(k));
  }

  /** How often the rail was touched, whether or not the call came back. */
  function Touches(l: Ledger): nat {
    |l.touches| + |l.dropped|
  }

  lemma {:induction false} RetryIsBounded(l: Ledger, instruction: string, reply: Reply, initial: nat, cap: nat, done: nat,
                                          left: nat, gates: nat -> Gate, i: nat)
    ensures var e := Retry(l, instruction, reply, Backoff(initial, cap, done), cap, left, gates, i);
            && |e.sleeps| <= left && e.used == i + |e.sleeps|
            && Touches(e.ledger) <= Touches(l) + |e.sleeps|
            && (forall k :: 0 <= k < |e.sleeps| ==> e.sleeps[k] == Backoff(initial, cap, done + k))
            && (|e.sleeps| < left ==> !Retryable(e.reply))
    decreases left
  {
    if Retryable(reply) && left > 0 {
      var g := gates(i);
      BackoffDoubles(initial, cap, done);
      RetryIsBounded(DispatchLedger(l, instruction, g), instruction, DispatchReply(l, g), initial, cap, done + 1,
                     left - 1, gates, i + 1);
    }
  }

  /** One `submit` touches the rail at most 1 + retries times, sleeps before each retry only, and its k-th sleep is
      the initial backoff doubled k times, capped from the second one on; it gives up only when the budget is spent. */
  lemma SubmitIsBounded(l: Ledger, instruction: string, b: Budget, gates: nat -> Gate)
    ensures var e := Submit(l, instruction, b, gates);
            && |e.sleeps| <= b.retries
            && Touches(e.ledger) <= Touches(l) + 1 + |e.sleeps|
            && (forall k :: 0 <= k < |e.sleeps| ==> e.sleeps[k] == Backoff(b.initial, b.cap, k))
            && (|e.sleeps| < b.retries ==> !Retryable(e.reply))
  {
    if !gates(0).Unregistered? && !LastSubmitTimedOut(l) {
      var g := gates(0);
      RetryIsBounded(DispatchLedger(l, instruction, g), instruction, DispatchReply(l, g), b.initial, b.cap, 0,
                     b.retries, gates, 1);
    }
  }

  /** A settlement poll that leaves the outcome open: no answer from the rail, or still pending, timed out, or failed in a way
      that is not not-received. */
  predicate StillOpen(r: Reply) {
    r.Got? && (r.result.status == PENDING || r.result.status == TIMED_OUT ||
               (r.result.status == FAILED && r.result.code != Some("not_received")))
  }

  predicate AllOpen(polls: seq<Reply>) {
    forall k :: 0 <= k < |polls| ==> StillOpen(polls[k])
  }

  /** The polls are the rail's answers from gate `i` on. */
  predicate AnswersFrom(polls: seq<Reply>, gates: nat -> Gate, i: nat)
    decreases |polls|
  {
    polls == [] || (polls[0] == CallReply(gates(i)) && AnswersFrom(polls[1..], gates, i + 1))
  }

  lemma {:induction false} SettleLoopAsks(l: Ledger, left: nat, gates: nat -> Gate, i: nat)
    ensures var s := SettleLoop(l, left, gates, i);
            AnswersFrom(s.polls, gates, i) && (s.reversed ==> s.reply == CallReply(gates(i + left)))
    decreases left
  {
    if left > 0 && !Settles(CallReply(gates(i))) {
      SettleLoopAsks(CallLedger(l, QUERY_STATUS, gates(i)), left - 1, gates, i + 1);
      var rest := SettleLoop(CallLedger(l, QUERY_STATUS, gates(i)), left - 1, gates, i + 1).polls;
      assert ([CallReply(gates(i))] + rest)[1..] == rest;
    }
  }

  /** Where the polls stop: reversed after all of them, or at the first that settles. */
  predicate StopsRight(polls: seq<Reply>, reply: Reply, reversed: bool, left: nat)
    decreases |polls|
  {
    if polls == [] then reversed && left == 0
    else if !StillOpen(polls[0]) then |polls| == 1 && reply == polls[0] && !reversed && left > 0
    else left > 0 && StopsRight(polls[1..], reply, reversed, left - 1)
  }

  lemma {:induction false} SettleLoopStops(l: Ledger, left: nat, gates: nat -> Gate, i: nat)
    ensures var s := SettleLoop(l, left, gates, i); StopsRight(s.polls, s.reply, s.reversed, left)
    decreases left
  {
    if left > 0 && !Settles(CallReply(gates(i))) {
      SettleLoopStops(CallLedger(l, QUERY_STATUS, gates(i)), left - 1, gates, i + 1);
      var rest := SettleLoop(CallLedger(l, QUERY_STATUS, gates(i)), left - 1, gates, i + 1).polls;
      assert ([CallReply(gates(i))] + rest)[1..] == rest;
    }
  }

  lemma {:induction false} StopsMeans(polls: seq<Reply>, reply: Reply, reversed: bool, left: nat)
    requires StopsRight(polls, reply, reversed, left)
    ensures |polls| <= left && (reversed <==> |polls| == left && AllOpen(polls))
    ensures !reversed ==> polls != [] && reply == polls[|polls| - 1] && !StillOpen(reply)
    decreases |polls|
  {
    if polls != [] && StillOpen(polls[0]) {
      StopsMeans(polls[1..], reply, reversed, left - 1);
      CutFirst(polls);
    }
  }

  lemma {:induction false} SettleLoopRows(l: Ledger, left: nat, gates: nat -> Gate, i: nat)
    ensures var s := SettleLoop(l, left, gates, i);
            var n := |l.rows|;
            && l.rows <= s.ledger.rows && |s.ledger.rows| <= n + |s.polls| + (if s.reversed then 1 else 0)
            && (forall k :: n <= k < |s.ledger.rows| ==>
                  s.ledger.rows[k].kind == QUERY_STATUS
                  || (s.ledger.rows[k].kind == REVERSE && s.reversed && k == |s.ledger.rows| - 1))
    decreases left
  {
    if left > 0 && !Settles(CallReply(gates(i))) {
      SettleLoopRows(CallLedger(l, QUERY_STATUS, gates(i)), left - 1, gates, i + 1);
    }
  }

  /** `settle_after_timeout` asks at most three times, reverses at most once and last, and only after every poll it was
      allowed left the outcome open; otherwise it answers with the first poll that did not. */
  lemma SettleReversesOnlyUnresolved(l: Ledger, b: Budget, gates: nat -> Gate)
    requires !gates(0).Unregistered? && LastSubmitTimedOut(l)
    ensures var s := Settle(l, b, gates);
            var n := |l.rows|;
            && |s.polls| <= Min(b.polls, 3) && AnswersFrom(s.polls, gates, 0)
            && (forall k :: n <= k < |s.ledger.rows| ==>
                  s.ledger.rows[k].kind == QUERY_STATUS || (s.ledger.rows[k].kind == REVERSE && k == |s.ledger.rows| - 1))
            && (s.reversed <==> |s.polls| == Min(b.polls, 3) && AllOpen(s.polls))
            && (s.reversed ==> s.reply == CallReply(gates(Min(b.polls, 3))))
            && (!s.reversed ==> s.polls != [] && s.reply == s.polls[|s.polls| - 1] && !StillOpen(s.reply))
            && (n < |s.ledger.rows| && s.ledger.rows[|s.ledger.rows| - 1].kind == REVERSE ==> s.reversed)
  {
    SettleLoopAsks(l, Min(b.polls, MAX_SETTLE_POLLS), gates, 0);
    SettleLoopStops(l, Min(b.polls, MAX_SETTLE_POLLS), gates, 0);
    var s := Settle(l, b, gates);
    StopsMeans(s.polls, s.reply, s.reversed, Min(b.polls, 3));
    SettleLoopRows(l, Min(b.polls, MAX_SETTLE_POLLS), gates, 0);
  }
}

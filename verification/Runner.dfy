/**
 The runner's call paths as objects (bdpay/connectors/runner.py, bdpay/connectors/idempotency.py).

 `IdempotencyStore` is the pair of first-write-wins dictionaries; `ConnectorRunner` drives them and the append-only
 result rows. Each method is proved against the per-ref protocol of RefProtocol; what the registry, the breaker and
 the rail answer at each elementary call is the `gate` (or `gates`) argument.
 */
module Runner {
  import opened Common
  import opened Breaker
  import opened RefProtocol

  datatype Key = Key(connectorId: string, connectorRef: string)

  class IdempotencyStore {
    var recorded: map<Key, Result>
    var intents: map<Key, string>

    constructor ()
      ensures recorded == map[] && intents == map[]
    {
      recorded, intents := map[], map[];
    }

    function Get(key: Key): Option<Result>
      reads this`recorded
    {
      if key in recorded then Some(recorded[key]) else None
    }

    function Intent(key: Key): Option<string>
      reads this`intents
    {
      if key in intents then Some(intents[key]) else None
    }

    /** First write wins; a replay answers with the stored result. */
    method Put(key: Key, result: Result) returns (stored: Result)
      modifies this`recorded
      ensures Get(key) == Some(stored)
      ensures stored == if old(Get(key)).Some? then old(Get(key)).value else result
      ensures forall other :: other != key ==> Get(other) == old(Get(other))
    {
      if key in recorded {
        return recorded[key];
      }
      recorded := recorded[key := result];
      return result;
    }

    /** First intent wins. */
    method Begin(key: Key, instruction: string) returns (stored: string)
      modifies this`intents
      ensures Intent(key) == Some(stored)
      ensures stored == if old(Intent(key)).Some? then old(Intent(key)).value else instruction
      ensures forall other :: other != key ==> Intent(other) == old(Intent(other))
    {
      if key in intents {
        return intents[key];
      }
      intents := intents[key := instruction];
      return instruction;
    }
  }

  class ConnectorRunner {
    const idem: IdempotencyStore
    var rows: map<Key, seq<Row>>
    ghost var touches: map<Key, seq<Touch>>
    ghost var dropped: map<Key, seq<Touch>>

    constructor ()
      ensures fresh(idem)
      ensures forall key :: LedgerOf(key) == BLANK
    {
      idem := new IdempotencyStore();
      rows := map[];
      touches, dropped := map[], map[];
    }

    function RowsOf(key: Key): seq<Row>
      reads this`rows
    {
      if key in rows then rows[key] else []
    }

    ghost function LedgerOf(key: Key): Ledger
      reads this, idem
    {
      Ledger(RowsOf(key), if key in touches then touches[key] else [], idem.Get(key), idem.Intent(key),
             if key in dropped then dropped[key] else [])
    }

    /** An adapter call and the row that records its outcome; a cancelled one leaves no row. */
    method Touched(key: Key, kind: Kind, answer: Answer) returns (reply: Reply)
      modifies this
      ensures reply == AnswerReply(answer)
      ensures LedgerOf(key) == CallLedger(old(LedgerOf(key)), kind, Reached(answer))
      ensures forall other :: other != key ==> LedgerOf(other) == old(LedgerOf(other))
    {
      ghost var touch := Touch(kind, |RowsOf(key)|, idem.Intent(key).Some?);
      var result;
      match answer {
        case Interrupted =>
          dropped := dropped[key := LedgerOf(key).dropped + [touch]];
          return Cancelled;
        case Returned(r) => result := r;
        case HardTimeout => result := Synthetic(TIMED_OUT, "hard_timeout");
        case Raised => result := Synthetic(FAILED, "transport_error");
      }
      touches := touches[key := LedgerOf(key).touches + [touch]];
      rows := rows[key := RowsOf(key) + [Row(kind, result)]];
      return Got(result);
    }

    /** The rail call of a submit: intent first, then the touch, then the record of a replay-safe outcome. */
    method SubmitOnce(key: Key, instruction: string, answer: Answer) returns (reply: Reply)
      requires !Replays(LedgerOf(key))
      modifies this, idem
      ensures reply == AnswerReply(answer)
      ensures LedgerOf(key) == DispatchLedger(old(LedgerOf(key)), instruction, Reached(answer))
      ensures forall other :: other != key ==> LedgerOf(other) == old(LedgerOf(other))
    {
      ghost var l := LedgerOf(key);
      var _ := idem.Begin(key, instruction);
      assert forall other :: other != key ==> LedgerOf(other) == old(LedgerOf(other));
      reply := Touched(key, SUBMIT, answer);
      assert forall other :: other != key ==> LedgerOf(other) == old(LedgerOf(other));
      if reply.Got? && ReplaySafe(reply.result.status) {
        var _ := idem.Put(key, reply.result);
      }
      assert LedgerOf(key) == DispatchLedger(l, instruction, Reached(answer));
    }

    method Dispatch(key: Key, instruction: string, gate: Gate) returns (reply: Reply)
      modifies this, idem
      ensures reply == DispatchReply(old(LedgerOf(key)), gate)
      ensures LedgerOf(key) == DispatchLedger(old(LedgerOf(key)), instruction, gate)
      ensures forall other :: other != key ==> LedgerOf(other) == old(LedgerOf(other))
    {
      if gate.Unregistered? {
        return UnknownConnector;
      }
      var recorded := idem.Get(key);
      if recorded.Some? && ReplaySafe(recorded.value.status) {
        return Got(recorded.value);
      }
      match gate {
        case Disabled => return Got(Synthetic(FAILED, "connector_disabled"));
        case Isolated => return Got(Synthetic(FAILED, "sandbox_isolation_violation"));
        case CircuitOpen => return Got(Synthetic(FAILED, "circuit_open"));
        case NoAdapter => return UnknownConnector;
        case Reached(answer) =>
          reply := SubmitOnce(key, instruction, answer);
      }
    }

    /** `_call`: the guarded path of query_status and reverse. */
    method Call(key: Key, kind: Kind, gate: Gate) returns (reply: Reply)
      modifies this
      ensures reply == CallReply(gate)
      ensures LedgerOf(key) == CallLedger(old(LedgerOf(key)), kind, gate)
      ensures forall other :: other != key ==> LedgerOf(other) == old(LedgerOf(other))
    {
      match gate {
        case Unregistered => return UnknownConnector;
        case Disabled => return Got(Synthetic(FAILED, "connector_disabled"));
        case Isolated => return Got(Synthetic(FAILED, "sandbox_isolation_violation"));
        case CircuitOpen => return Got(Synthetic(FAILED, "circuit_open"));
        case NoAdapter => return UnknownConnector;
        case Reached(answer) =>
          reply := Touched(key, kind, answer);
      }
    }

    /** `last_for`: scans the rows of the ref from the newest. */
    method LastRow(key: Key, kind: Kind) returns (last: Option<Row>)
      ensures last == LastFor(RowsOf(key), kind)
    {
      var all := RowsOf(key);
      var n := |all|;
      assert all[..n] == all;
      while n > 0
        invariant n <= |all|
        invariant LastFor(all, kind) == LastFor(all[..n], kind)
      {
        if all[n - 1].kind == kind {
          return Some(all[n - 1]);
        }
        assert all[..n][..n - 1] == all[..n - 1];
        n := n - 1;
      }
      return None;
    }

    method SubmitWithRetries(key: Key, instruction: string, b: Budget, gates: nat -> Gate)
      returns (reply: Reply, sleeps: seq<nat>)
      modifies this, idem
      ensures var e := Submit(old(LedgerOf(key)), instruction, b, gates);
              LedgerOf(key) == e.ledger && reply == e.reply && sleeps == e.sleeps
      ensures forall other :: other != key ==> LedgerOf(other) == old(LedgerOf(other))
    {
      sleeps := [];
      if gates(0).Unregistered? {
        return UnknownConnector, sleeps;
      }
      var last := LastRow(key, SUBMIT);
      if last.Some? && last.value.result.status == TIMED_OUT {
        return RetryForbidden, sleeps;
      }
      var first := Dispatch(key, instruction, gates(0));
      reply, sleeps := RetryTransport(key, instruction, first, b, gates);
    }

    /** The retry loop: the same ref again after each transport error, while the budget lasts. */
    method RetryTransport(key: Key, instruction: string, first: Reply, b: Budget, gates: nat -> Gate)
      returns (reply: Reply, sleeps: seq<nat>)
      modifies this, idem
      ensures var e := Retry(old(LedgerOf(key)), instruction, first, b.initial, b.cap, b.retries, gates, 1);
              LedgerOf(key) == e.ledger && reply == e.reply && sleeps == e.sleeps
      ensures forall other :: other != key ==> LedgerOf(other) == old(LedgerOf(other))
    {
      ghost var goal := Retry(LedgerOf(key), instruction, first, b.initial, b.cap, b.retries, gates, 1);
      reply, sleeps := first, [];
      var backoff: nat := b.initial;
      var attempts: nat := 0;
      assert [] + goal.sleeps == goal.sleeps;
      while reply.Got? && reply.result.status == FAILED && reply.result.code == TRANSPORT_ERROR && attempts < b.retries
        invariant attempts <= b.retries
        invariant Heading(goal, LedgerOf(key), instruction, reply, sleeps, backoff, b.cap, b.retries - attempts, gates,
                          attempts + 1)
        invariant forall other :: other != key ==> LedgerOf(other) == old(LedgerOf(other))
      {
        RetryOnce(goal, LedgerOf(key), instruction, reply, sleeps, backoff, b.cap, b.retries - attempts, gates, attempts + 1);
        attempts := attempts + 1;
        sleeps := sleeps + [backoff];
        backoff := Min(2 * backoff, b.cap);
        reply := Dispatch(key, instruction, gates(attempts));
      }
      RetryEnds(goal, LedgerOf(key), instruction, reply, sleeps, backoff, b.cap, b.retries - attempts, gates, attempts + 1);
    }

    method PollStatus(key: Key, polls: nat, gates: nat -> Gate) returns (last: Option<Reply>, used: nat)
      modifies this
      ensures var p := Poll(old(LedgerOf(key)), None, polls, gates, 0);
              LedgerOf(key) == p.ledger && last == p.last && used == p.used
      ensures forall other :: other != key ==> LedgerOf(other) == old(LedgerOf(other))
    {
      last, used := None, 0;
      while used < polls
        invariant used <= polls
        invariant Poll(old(LedgerOf(key)), None, polls, gates, 0) == Poll(LedgerOf(key), last, polls - used, gates, used)
        invariant forall other :: other != key ==> LedgerOf(other) == old(LedgerOf(other))
      {
        var reply := Call(key, QUERY_STATUS, gates(used));
        last := Some(reply);
        used := used + 1;
        if Definitive(reply) || !reply.Got? {
          return;
        }
      }
    }

    method ResubmitAfterTimeout(key: Key, instruction: string, b: Budget, gates: nat -> Gate) returns (reply: Reply)
      modifies this, idem
      ensures var e := Resubmit(old(LedgerOf(key)), instruction, b, gates);
              LedgerOf(key) == e.ledger && reply == e.reply
      ensures forall other :: other != key ==> LedgerOf(other) == old(LedgerOf(other))
    {
      if gates(0).Unregistered? {
        return UnknownConnector;
      }
      var last := LastRow(key, SUBMIT);
      if last.None? || last.value.result.status != TIMED_OUT {
        return RetryForbidden;
      }
      var polled, used := PollStatus(key, b.polls, gates);
      if polled.Some? && polled.value.Got? && polled.value.result.status == FAILED
         && polled.value.result.code == NOT_RECEIVED {
        reply := Dispatch(key, instruction, gates(used));
        return;
      }
      if polled.None? {
        return Got(Synthetic(TIMED_OUT, "status_unresolved"));
      }
      return polled.value;
    }

    method SettleAfterTimeout(key: Key, b: Budget, gates: nat -> Gate) returns (reply: Reply)
      modifies this
      ensures var s := Settle(old(LedgerOf(key)), b, gates);
              LedgerOf(key) == s.ledger && reply == s.reply
      ensures forall other :: other != key ==> LedgerOf(other) == old(LedgerOf(other))
    {
      if gates(0).Unregistered? {
        return UnknownConnector;
      }
      var last := LastRow(key, SUBMIT);
      if last.None? || last.value.result.status != TIMED_OUT {
        return RetryForbidden;
      }
      reply := PollThenReverse(key, Min(b.polls, MAX_SETTLE_POLLS), gates);
    }

    method PollThenReverse(key: Key, attempts: nat, gates: nat -> Gate) returns (reply: Reply)
      modifies this
      ensures var s := SettleLoop(old(LedgerOf(key)), attempts, gates, 0);
              LedgerOf(key) == s.ledger && reply == s.reply
      ensures forall other :: other != key ==> LedgerOf(other) == old(LedgerOf(other))
    {
      ghost var goal := SettleLoop(LedgerOf(key), attempts, gates, 0);
      var i: nat := 0;
      while i < attempts
        invariant i <= attempts
        invariant var rest := SettleLoop(LedgerOf(key), attempts - i, gates, i);
                  rest.ledger == goal.ledger && rest.reply == goal.reply
        invariant forall other :: other != key ==> LedgerOf(other) == old(LedgerOf(other))
      {
        reply := Call(key, QUERY_STATUS, gates(i));
        if !reply.Got? || reply.result.status in {SUCCESS, REJECTED, REVERSED} {
          return;
        }
        if reply.result.status == FAILED && reply.result.code == NOT_RECEIVED {
          return;
        }
        i := i + 1;
      }
      reply := Call(key, REVERSE, gates(i));
    }
  }
}

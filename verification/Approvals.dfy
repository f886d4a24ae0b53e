/** The two-eyes approval gateway (bdpay/platform/approval.py), as far as closing an AML case depends on it. */
module Approvals {
  import opened Common

  const TTL_HOURS: int := 24

  datatype State = PENDING_SECOND_APPROVER | APPROVED | APPROVED_EXECUTION_FAILED | REJECTED | EXPIRED | WITHDRAWN

  datatype Request = Request(
    action: string,
    subject: string,
    initiator: string,
    approver: Option<string>,
    state: State,
    expiresAt: int)

  type Requests = map<string, Request>

  datatype Op =
    | Ask(id: string, action: string, subject: string, initiator: string, now: int)
    | Approve(id: string, approver: string, now: int)
    | Reject(id: string, approver: string, now: int)
    | Withdraw(id: string, actor: string, now: int)
    | ExpireDue(now: int)
    | MarkFailed(id: string)
    | MarkExecuted(id: string)

  predicate Live(r: Request) {
    r.state == PENDING_SECOND_APPROVER || r.state == APPROVED_EXECUTION_FAILED
  }

  predicate HasLive(b: Requests, action: string, subject: string) {
    exists id :: id in b && b[id].action == action && b[id].subject == subject && Live(b[id])
  }

  predicate Asks(b: Requests, id: string, action: string, subject: string) {
    id !in b && !HasLive(b, action, subject)
  }

  /** A decision finds the request pending and in time; one that comes too late expires it. */
  function Decide(r: Request, now: int, allowed: bool, decided: Request): Request {
    if r.state != PENDING_SECOND_APPROVER then r
    else if now >= r.expiresAt then r.(state := EXPIRED)
    else if allowed then decided
    else r
  }

  function Expire(r: Request, now: int): Request {
    if r.state == PENDING_SECOND_APPROVER && now >= r.expiresAt then r.(state := EXPIRED) else r
  }

  function Step(b: Requests, op: Op): Requests {
    match op
    case Ask(id, action, subject, initiator, now) =>
      if Asks(b, id, action, subject)
      then b[id := Request(action, subject, initiator, None, PENDING_SECOND_APPROVER, now + TTL_HOURS * 3600)]
      else b
    case Approve(id, approver, now) =>
      if id !in b then b
      else b[id := Decide(b[id], now, approver != b[id].initiator, b[id].(state := APPROVED, approver := Some(approver)))]
    case Reject(id, approver, now) =>
      if id !in b then b
      else b[id := Decide(b[id], now, approver != b[id].initiator, b[id].(state := REJECTED, approver := Some(approver)))]
    case Withdraw(id, actor, now) =>
      if id !in b then b
      else b[id := Decide(b[id], now, actor == b[id].initiator, b[id].(state := WITHDRAWN))]
    case ExpireDue(now) => map id | id in b :: Expire(b[id], now)
    case MarkFailed(id) =>
      if id !in b || b[id].state != APPROVED then b else b[id := b[id].(state := APPROVED_EXECUTION_FAILED)]
    case MarkExecuted(id) =>
      if id !in b || !Granted(b[id].state) then b else b[id := b[id].(state := APPROVED)]
  }

  function Run(b: Requests, ops: seq<Op>): Requests {
    if ops == [] then b else Step(Run(b, ops[..|ops| - 1]), ops[|ops| - 1])
  }

  predicate Granted(s: State) {
    s == APPROVED || s == APPROVED_EXECUTION_FAILED
  }

  /** Granted by somebody other than whoever asked. */
  predicate FourEyes(r: Request) {
    Granted(r.state) && r.approver.Some? && r.approver.value != r.initiator
  }

  ghost predicate Sound(b: Requests) {
    forall id :: id in b && Granted(b[id].state) ==> FourEyes(b[id])
  }

  predicate Undecided(r: Request) {
    r.state == PENDING_SECOND_APPROVER
  }

  predicate SameMatter(r: Request, r': Request) {
    r.action == r'.action && r.subject == r'.subject
  }

  ghost predicate OnePending(b: Requests) {
    forall i, j :: i in b && j in b && Undecided(b[i]) && Undecided(b[j]) && SameMatter(b[i], b[j]) ==> i == j
  }

  /** What one operation leaves of a request that is there: who asked for what, and a grant once given. */
  predicate Carried(r: Request, r': Request) {
    && r'.action == r.action && r'.subject == r.subject && r'.initiator == r.initiator
    && (Granted(r.state) ==> Granted(r'.state) && r'.approver == r.approver)
    && (r'.state == PENDING_SECOND_APPROVER ==> r.state == PENDING_SECOND_APPROVER)
  }

  lemma StepCarries(b: Requests, op: Op, id: string)
    requires id in b
    ensures id in Step(b, op) && Carried(b[id], Step(b, op)[id])
  {
  }

  lemma StepKeepsSound(b: Requests, op: Op)
    requires Sound(b)
    ensures Sound(Step(b, op))
  {
  }

  lemma StepKeepsOnePending(b: Requests, op: Op)
    requires OnePending(b)
    ensures OnePending(Step(b, op))
  {
    var b' := Step(b, op);
    forall i, j | i in b' && j in b' && Undecided(b'[i]) && Undecided(b'[j]) && SameMatter(b'[i], b'[j])
      ensures i == j
    {
      if i in b {
        StepCarries(b, op, i);
      }
      if j in b {
        StepCarries(b, op, j);
      }
    }
  }

  /** Over every run: a granted request was granted by somebody else, and one subject has one undecided request at most. */
  lemma {:induction false} EveryGrantIsFourEyes(ops: seq<Op>)
    ensures Sound(Run(map[], ops)) && OnePending(Run(map[], ops))
    decreases |ops|
  {
    if ops != [] {
      var rest := ops[..|ops| - 1];
      EveryGrantIsFourEyes(rest);
      StepKeepsSound(Run(map[], rest), ops[|ops| - 1]);
      StepKeepsOnePending(Run(map[], rest), ops[|ops| - 1]);
    }
  }

  /** A grant is never taken back: whatever the gateway does next, it stays granted by the same person. */
  lemma {:induction false} GrantIsForever(b: Requests, ops: seq<Op>, id: string)
    requires id in b && FourEyes(b[id])
    ensures id in Run(b, ops) && FourEyes(Run(b, ops)[id]) && Run(b, ops)[id].approver == b[id].approver &&
            Run(b, ops)[id].action == b[id].action && Run(b, ops)[id].subject == b[id].subject
    decreases |ops|
  {
    if ops != [] {
      var rest := ops[..|ops| - 1];
      GrantIsForever(b, rest, id);
      StepCarries(Run(b, rest), ops[|ops| - 1], id);
    }
  }

  /** The operation does not decide before `deadline`. */
  predicate NotBefore(op: Op, deadline: int) {
    op.Approve? ==> op.now >= deadline
  }

  /** A request nobody decided within its 24 hours is never granted. */
  lemma {:induction false} NoGrantAfterExpiry(b: Requests, ops: seq<Op>, id: string)
    requires id in b && !Granted(b[id].state)
    requires forall i :: 0 <= i < |ops| ==> NotBefore(ops[i], b[id].expiresAt)
    ensures id in Run(b, ops) && !Granted(Run(b, ops)[id].state) && Run(b, ops)[id].expiresAt == b[id].expiresAt
    decreases |ops|
  {
    if ops != [] {
      NoGrantAfterExpiry(b, ops[..|ops| - 1], id);
      LateStepGrantsNothing(Run(b, ops[..|ops| - 1]), ops[|ops| - 1], id);
    }
  }

  lemma LateStepGrantsNothing(b: Requests, op: Op, id: string)
    requires id in b && !Granted(b[id].state) && NotBefore(op, b[id].expiresAt)
    ensures id in Step(b, op) && !Granted(Step(b, op)[id].state) && Step(b, op)[id].expiresAt == b[id].expiresAt
  {
  }

  /**
   `one live request per action and subject` does not hold: an approved request is not live, so a second one may be asked
   for, and a failed execution brings the first back beside it.
   */
  lemma TwoLiveRequests(action: string, subject: string, asker: string, approver: string)
    requires asker != approver
    ensures var ops := [Ask("first", action, subject, asker, 0), Approve("first", approver, 1),
                        Ask("second", action, subject, asker, 2), MarkFailed("first")];
            var b := Run(map[], ops);
            "first" in b && "second" in b && Live(b["first"]) && Live(b["second"]) && SameMatter(b["first"], b["second"])
  {
    var o1, o2 := Ask("first", action, subject, asker, 0), Approve("first", approver, 1);
    var o3, o4 := Ask("second", action, subject, asker, 2), MarkFailed("first");
    var ops := [o1, o2, o3, o4];
    assert ops[..3] == [o1, o2, o3] && [o1, o2, o3][..2] == [o1, o2] && [o1, o2][..1] == [o1] && [o1][..0] == [];
    assert Run(map[], []) == map[] && Asks(map[], "first", action, subject);
    var b1 := Run(map[], [o1]);
    assert b1 == Step(map[], o1);
    assert b1 == map["first" := Request(action, subject, asker, None, PENDING_SECOND_APPROVER, 24 * 3600)];
    var b2 := Run(map[], [o1, o2]);
    assert b2 == map["first" := Request(action, subject, asker, Some(approver), APPROVED, 24 * 3600)];
    assert "second"[0] != "first"[0];
    assert Asks(b2, "second", action, subject);
    var b3 := Run(map[], [o1, o2, o3]);
    assert b3["first"] == b2["first"] && Live(b3["second"]);
  }

  // ------------------------------------------------------------------ exactly what happens to a request

  /** What brings a request that is there to a state it was not in. */
  predicate BringsTo(r: Request, op: Op, id: string, to: State) {
    var decided := (op.Approve? || op.Reject? || op.Withdraw?) && op.id == id && r.state == PENDING_SECOND_APPROVER;
    match to
    case PENDING_SECOND_APPROVER => false
    case APPROVED =>
      || (decided && op.Approve? && op.now < r.expiresAt && op.approver != r.initiator)
      || (op.MarkExecuted? && op.id == id && r.state == APPROVED_EXECUTION_FAILED)
    case APPROVED_EXECUTION_FAILED => op.MarkFailed? && op.id == id && r.state == APPROVED
    case REJECTED => decided && op.Reject? && op.now < r.expiresAt && op.approver != r.initiator
    case WITHDRAWN => decided && op.Withdraw? && op.now < r.expiresAt && op.actor == r.initiator
    case EXPIRED =>
      || (decided && op.now >= r.expiresAt)
      || (op.ExpireDue? && r.state == PENDING_SECOND_APPROVER && op.now >= r.expiresAt)
  }

  /** A request changes exactly as the table says, keeps who asked for what and until when, and records who decided it. */
  lemma RequestsMoveExactly(b: Requests, op: Op, id: string)
    requires id in b
    ensures id in Step(b, op)
    ensures var r, t := b[id], Step(b, op)[id];
            && (forall to :: to != r.state ==> (t.state == to <==> BringsTo(r, op, id, to)))
            && (t.state == r.state ==> t == r)
            && t == r.(state := t.state, approver := t.approver)
            && (t.approver != r.approver ==> (op.Approve? || op.Reject?) && t.approver == Some(op.approver))
            && (BringsTo(r, op, id, REJECTED) || (op.Approve? && BringsTo(r, op, id, APPROVED)) ==> t.approver == Some(op.approver))
  {
  }

  /** A request appears exactly when a new id is asked for a matter that has no live one: pending, undecided, for 24 hours. */
  lemma RequestsAppearExactly(b: Requests, op: Op, id: string)
    requires id !in b
    ensures id in Step(b, op) <==>
            op.Ask? && op.id == id &&
            forall other :: other in b && b[other].action == op.action && b[other].subject == op.subject ==>
              b[other].state != PENDING_SECOND_APPROVER && b[other].state != APPROVED_EXECUTION_FAILED
    ensures id in Step(b, op) ==>
              Step(b, op)[id] == Request(op.action, op.subject, op.initiator, None, PENDING_SECOND_APPROVER, op.now + 86_400)
  {
  }

  /** When a request was asked for. */
  function AskedAt(ops: seq<Op>, id: string): Option<int>
    decreases |ops|
  {
    if ops == [] then None
    else
      var p, op := ops[..|ops| - 1], ops[|ops| - 1];
      if id !in Run(map[], p) && id in Run(map[], ops) && op.Ask? then Some(op.now) else AskedAt(p, id)
  }

  /** Over every run a request expires a day after it was asked for, and is decided in time or not at all: a granted one was
      granted by an approval of somebody else within that day. */
  lemma EveryRequestLastsADay(ops: seq<Op>, id: string)
    requires id in Run(map[], ops)
    ensures AskedAt(ops, id).Some? && Run(map[], ops)[id].expiresAt == AskedAt(ops, id).value + 86_400
    ensures Granted(Run(map[], ops)[id].state) ==> ApprovedInTime(ops, id, AskedAt(ops, id).value + 86_400)
  {
    ExpiresAfterADay(ops, id);
    GrantedInTime(ops, id);
  }

  lemma {:induction false} ExpiresAfterADay(ops: seq<Op>, id: string)
    requires id in Run(map[], ops)
    ensures AskedAt(ops, id).Some? && Run(map[], ops)[id].expiresAt == AskedAt(ops, id).value + 86_400
    decreases |ops|
  {
    var p, op := ops[..|ops| - 1], ops[|ops| - 1];
    if id in Run(map[], p) {
      ExpiresAfterADay(p, id);
      GrantedNow(Run(map[], p), op, id);
    } else {
      RequestsAppearExactly(Run(map[], p), op, id);
    }
  }

  lemma {:induction false} GrantedInTime(ops: seq<Op>, id: string)
    requires id in Run(map[], ops)
    ensures Granted(Run(map[], ops)[id].state) ==> ApprovedInTime(ops, id, Run(map[], ops)[id].expiresAt)
    decreases |ops|
  {
    var p, op := ops[..|ops| - 1], ops[|ops| - 1];
    if id in Run(map[], p) {
      GrantedInTime(p, id);
      GrantedNow(Run(map[], p), op, id);
    } else {
      RequestsAppearExactly(Run(map[], p), op, id);
    }
  }

  lemma GrantedNow(b: Requests, op: Op, id: string)
    requires id in b
    ensures id in Step(b, op) && Step(b, op)[id].expiresAt == b[id].expiresAt
    ensures Granted(Step(b, op)[id].state) ==>
              || Granted(b[id].state)
              || (op.Approve? && op.id == id && op.now < b[id].expiresAt && op.approver != b[id].initiator)
  {
    RequestsMoveExactly(b, op, id);
  }

  /** Some approval of the request, by somebody other than its initiator, came before the deadline. */
  ghost predicate ApprovedInTime(ops: seq<Op>, id: string, deadline: int)
    decreases |ops|
  {
    ops != [] &&
    var p, op := ops[..|ops| - 1], ops[|ops| - 1];
    || ApprovedInTime(p, id, deadline)
    || (op.Approve? && op.id == id && op.now < deadline && id in Run(map[], p) && op.approver != Run(map[], p)[id].initiator)
  }

  ghost predicate OneLive(b: Requests) {
    forall i, j :: i in b && j in b && Live(b[i]) && Live(b[j]) && SameMatter(b[i], b[j]) ==> i == j
  }

  /** A failed execution is recorded while another request for the same action and subject is live. */
  predicate FailsBesideALive(b: Requests, op: Op) {
    op.MarkFailed? && op.id in b && b[op.id].state == APPROVED && HasLive(b, b[op.id].action, b[op.id].subject)
  }

  /** Only a new request or a failed execution makes a request live. */
  lemma BecomesLive(b: Requests, op: Op, id: string)
    requires id in Step(b, op) && Live(Step(b, op)[id]) && !(id in b && Live(b[id]))
    ensures if id in b then op.MarkFailed? && op.id == id && b[id].state == APPROVED
            else op.Ask? && op.id == id && !HasLive(b, op.action, op.subject)
    ensures id !in b ==> Step(b, op)[id].action == op.action && Step(b, op)[id].subject == op.subject
  {
  }

  lemma StepKeepsOneLive(b: Requests, op: Op)
    requires OneLive(b) && !FailsBesideALive(b, op)
    ensures OneLive(Step(b, op))
  {
    var b' := Step(b, op);
    forall i, j | i in b' && j in b' && Live(b'[i]) && Live(b'[j]) && SameMatter(b'[i], b'[j]) ensures i == j {
      if i in b && Live(b[i]) {
        LiveStaysAlone(b, op, i, j);
      } else if j in b && Live(b[j]) {
        LiveStaysAlone(b, op, j, i);
      } else {
        BecomesLive(b, op, i);
        BecomesLive(b, op, j);
      }
    }
  }

  lemma LiveStaysAlone(b: Requests, op: Op, i: string, j: string)
    requires OneLive(b) && !FailsBesideALive(b, op)
    requires var b' := Step(b, op); i in b' && j in b' && Live(b'[i]) && Live(b'[j]) && SameMatter(b'[i], b'[j])
    requires i in b && Live(b[i])
    ensures i == j
  {
    StepCarries(b, op, i);
    if j in b {
      StepCarries(b, op, j);
    }
    if !(j in b && Live(b[j])) {
      BecomesLive(b, op, j);
    }
  }

  lemma FailureBreaksOneLive(b: Requests, op: Op)
    requires FailsBesideALive(b, op)
    ensures !OneLive(Step(b, op))
  {
    var b' := Step(b, op);
    var id :| id in b && b[id].action == b[op.id].action && b[id].subject == b[op.id].subject && Live(b[id]);
    assert b'[id] == b[id] && Live(b'[op.id]) && SameMatter(b'[id], b'[op.id]);
  }

  ghost predicate AlwaysOneLive(ops: seq<Op>) {
    ops == [] || (AlwaysOneLive(ops[..|ops| - 1]) && OneLive(Run(map[], ops)))
  }

  ghost predicate NeverFailsBesideALive(ops: seq<Op>) {
    ops == [] || (NeverFailsBesideALive(ops[..|ops| - 1])
                  && !FailsBesideALive(Run(map[], ops[..|ops| - 1]), ops[|ops| - 1]))
  }

  /** Over a whole run there is never more than one live request per action and subject exactly when no failed execution is
      recorded while another request for the same matter is live. */
  lemma {:induction false} OneLiveExactlyWhenNoFailureBesideIt(ops: seq<Op>)
    ensures AlwaysOneLive(ops) <==> NeverFailsBesideALive(ops)
    decreases |ops|
  {
    if ops != [] {
      var p, op := ops[..|ops| - 1], ops[|ops| - 1];
      OneLiveExactlyWhenNoFailureBesideIt(p);
      if AlwaysOneLive(p) {
        assert OneLive(Run(map[], p));
        if FailsBesideALive(Run(map[], p), op) {
          FailureBreaksOneLive(Run(map[], p), op);
        } else {
          StepKeepsOneLive(Run(map[], p), op);
        }
      }
    }
  }
}

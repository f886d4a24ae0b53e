/**
 CTR rows: daily aggregation and filing (bdpay/compliance/ctr.py), with one filing loop whose connector call lets intakes
 and aggregations run in between.

 The loop works from a list taken at its start. The payload of a call is rebuilt from the store at the row's turn, while the
 answer is written over the row as it was listed. The connector takes one payload per row, until the portal rejects it; a row
 whose payload cannot be built raises out of the loop.
 */
module CtrFiling {
  import opened Common
  import opened Ordering
  import opened ReportDates
  import opened Ctr

  datatype Row = Row(cashIn: int, cashOut: int, threshold: int, count: nat, computedAt: int,
                     filed: bool, filedAt: Option<int>, goamlRef: Option<string>, batchYear: Option<int>)

  /** A row as the filing loop listed it. */
  datatype Listed = Listed(key: Key, row: Row)

  /** The figures a call reports to the portal. */
  datatype Payload = Payload(cashIn: int, cashOut: int, count: nat)

  /** What a call finds at the connector: an earlier filing of the row that stands, so that its own payload is dropped, or
      none; and whether the portal has rejected the new filing before the call is answered. */
  datatype Call = Standing | Fresh | Bounced

  /** The loop waits for the answer to the call for the first row still to do. */
  datatype Filer = Idle | Filing(todo: seq<Listed>, sent: Payload, call: Call)

  /** `told` holds, per row, the payload of the latest filing at the connector; `refused` the rows whose latest filing the
      portal has rejected. */
  datatype State = State(buckets: Buckets, rows: map<Key, Row>, filer: Filer, told: map<Key, Payload>, refused: set<Key>)

  /** Connector answer: an error, raised with the payload already taken or not, a reference still queued, or a reference
      already submitted to the portal. */
  datatype Filed = Fails(taken: bool) | Queued(ref: string) | Submitted(ref: string)

  datatype Op =
    | Intake(e: Event)
    | Aggregate(day: Date, now: int)
    | FileBegin
    | FileNext(outcome: Filed, now: int)
    | Reject(key: Key)

  const INITIAL := State(map[], map[], Idle, map[], {})

  // ------------------------------------------------------------------ keys in (date, account) order

  predicate DateLess(a: Date, b: Date) {
    a.year < b.year || (a.year == b.year && (a.month < b.month || (a.month == b.month && a.day < b.day)))
  }

  predicate KeyLess(a: Key, b: Key) {
    DateLess(a.day, b.day) || (a.day == b.day && StringLess(a.account, b.account))
  }

  lemma KeyLessIsStrictTotal()
    ensures StrictTotal(KeyLess)
  {
    StringLessIsStrictTotal();
  }

  lemma KeyLessIsOneWay(a: Key, b: Key)
    requires KeyLess(a, b)
    ensures a != b && !KeyLess(b, a)
  {
    KeyLessIsStrictTotal();
  }

  function SortedKeys(keys: set<Key>): (s: seq<Key>)
    ensures Ascending(KeyLess, s) && Elements(s) == keys && |s| == |keys|
    ensures forall k :: k in s <==> k in keys
    ensures forall i, j :: 0 <= i < j < |s| ==> s[i] != s[j]
  {
    KeyLessIsStrictTotal();
    var s := Sorted(KeyLess, keys);
    assert forall k :: k in s <==> k in Elements(s);
    s
  }

  // ------------------------------------------------------------------ steps

  predicate Crossed(r: Row) {
    r.cashIn + r.cashOut >= r.threshold
  }

  function RowOf(b: Bucket, existing: Option<Row>, threshold: int, now: int): Row {
    Row(b.cashIn, b.cashOut, threshold, b.count, now,
        existing.Some? && existing.value.filed,
        if existing.Some? then existing.value.filedAt else None,
        if existing.Some? then existing.value.goamlRef else None,
        if existing.Some? then existing.value.batchYear else None)
  }

  function Lookup(rows: map<Key, Row>, k: Key): Option<Row> {
    if k in rows then Some(rows[k]) else None
  }

  function Aggregated(rows: map<Key, Row>, bs: Buckets, day: Date, threshold: int, now: int): map<Key, Row> {
    rows + map k | k in bs && k.day == day :: RowOf(bs[k], Lookup(rows, k), threshold, now)
  }

  /** `crossed_unfiled`. */
  function Pending(rows: map<Key, Row>): seq<Listed> {
    var keys := SortedKeys(set k | k in rows && Crossed(rows[k]) && !rows[k].filed);
    assert forall i :: 0 <= i < |keys| ==> keys[i] in keys;
    seq(|keys|, i requires 0 <= i < |keys| => Listed(keys[i], rows[keys[i]]))
  }

  function Stamp(r: Row, outcome: Filed, now: int): Row {
    match outcome
    case Fails(_) => r
    case Queued(ref) => r.(goamlRef := Some(ref))
    case Submitted(ref) => r.(filed := true, filedAt := Some(now), goamlRef := Some(ref))
  }

  function Figures(r: Row): Payload {
    Payload(r.cashIn, r.cashOut, r.count)
  }

  /** The payload of a row passes its validation. */
  predicate Buildable(k: Key) {
    "acct_" <= k.account
  }

  function CallFor(told: map<Key, Payload>, refused: set<Key>, k: Key): Call {
    if k in told && k !in refused then Standing else Fresh
  }

  /** The loop at its next row: it ends after the last one, and breaks off when the payload of the next cannot be built. */
  function Turn(rows: map<Key, Row>, told: map<Key, Payload>, refused: set<Key>, todo: seq<Listed>): Filer {
    if todo == [] || todo[0].key !in rows || !Crossed(rows[todo[0].key]) || !Buildable(todo[0].key) then Idle
    else
      Filing(todo, Figures(rows[todo[0].key]), CallFor(told, refused, todo[0].key))
  }

  /** The answered call has left its payload with the connector. */
  predicate Takes(f: Filer, outcome: Filed) {
    f.Filing? && f.call != Standing && (outcome.Fails? ==> outcome.taken)
  }

  function Told(s: State, outcome: Filed): map<Key, Payload>
    requires s.filer.Filing? && s.filer.todo != []
  {
    if Takes(s.filer, outcome) then s.told[s.filer.todo[0].key := s.filer.sent] else s.told
  }

  function Refused(s: State, outcome: Filed): set<Key>
    requires s.filer.Filing? && s.filer.todo != []
  {
    if !Takes(s.filer, outcome) then s.refused
    else if s.filer.call == Bounced then s.refused + {s.filer.todo[0].key}
    else s.refused - {s.filer.todo[0].key}
  }

  function Step(threshold: int, s: State, op: Op): State {
    match op
    case Intake(e) => s.(buckets := Take(s.buckets, e))
    case Aggregate(day, now) => s.(rows := Aggregated(s.rows, s.buckets, day, threshold, now))
    case FileBegin => if s.filer.Idle? then s.(filer := Turn(s.rows, s.told, s.refused, Pending(s.rows))) else s
    case FileNext(outcome, now) =>
      if s.filer.Idle? || s.filer.todo == [] then s
      else
        var head := s.filer.todo[0];
        var rows := if outcome.Fails? then s.rows else s.rows[head.key := Stamp(head.row, outcome, now)];
        var told, refused := Told(s, outcome), Refused(s, outcome);
        State(s.buckets, rows, Turn(rows, told, refused, s.filer.todo[1..]), told, refused)
    case Reject(key) =>
      if s.filer.Filing? && s.filer.todo != [] && s.filer.todo[0].key == key && s.filer.call != Standing then
        s.(filer := s.filer.(call := Bounced))
      else if key in s.told then s.(refused := s.refused + {key})
      else s
  }

  function Run(threshold: int, s: State, ops: seq<Op>): State
    decreases |ops|
  {
    if ops == [] then s else Step(threshold, Run(threshold, s, ops[..|ops| - 1]), ops[|ops| - 1])
  }

  // ------------------------------------------------------------------ the invariant

  /** Figures p were once taken where figures q are now: every movement since has added a positive amount. */
  predicate Behind(p: Payload, q: Payload) {
    && 0 <= p.cashIn <= q.cashIn && 0 <= p.cashOut <= q.cashOut && p.count <= q.count
    && (p.count == q.count <==> p == q)
  }

  function FiguresOf(b: Bucket): Payload {
    Payload(b.cashIn, b.cashOut, b.count)
  }

  predicate Below(r: Row, b: Bucket) {
    Behind(Figures(r), FiguresOf(b))
  }

  ghost predicate RowsOk(threshold: int, s: State) {
    && (forall k :: k in s.buckets ==> s.buckets[k].cashIn >= 0 && s.buckets[k].cashOut >= 0)
    && (forall k :: k in s.rows ==> k in s.buckets && Below(s.rows[k], s.buckets[k]) && s.rows[k].threshold == threshold)
    && (forall k :: k in s.rows && s.rows[k].filed ==> Crossed(s.rows[k]))
  }

  /** What filing writes on a row. */
  function Stamps(r: Row): (bool, Option<int>, Option<string>) {
    (r.filed, r.filedAt, r.goamlRef)
  }

  /** A row still to do: crossed and unfiled when listed, and only its figures may have moved on since. */
  ghost predicate EntryOk(threshold: int, s: State, l: Listed) {
    && l.key in s.rows && l.key in s.buckets
    && Stamps(s.rows[l.key]) == Stamps(l.row) && Crossed(s.rows[l.key])
    && Below(l.row, s.buckets[l.key]) && Behind(Figures(l.row), Figures(s.rows[l.key]))
    && Crossed(l.row) && !l.row.filed && l.row.threshold == threshold
  }

  ghost predicate TodoOk(threshold: int, s: State, todo: seq<Listed>) {
    && (forall i, j :: 0 <= i < j < |todo| ==> todo[i].key != todo[j].key)
    && (forall i :: 0 <= i < |todo| ==> EntryOk(threshold, s, todo[i]))
  }

  ghost predicate Inv(threshold: int, s: State) {
    RowsOk(threshold, s) && (s.filer.Filing? ==> s.filer.todo != [] && TodoOk(threshold, s, s.filer.todo)
                                                    && Buildable(s.filer.todo[0].key))
  }

  /** Crossing and filing are never taken back. */
  ghost predicate Onward(s: State, t: State) {
    forall k :: k in s.rows ==>
      k in t.rows && (Crossed(s.rows[k]) ==> Crossed(t.rows[k])) && (s.rows[k].filed ==> t.rows[k].filed)
  }

  lemma IntakeKeeps(threshold: int, s: State, e: Event)
    requires Inv(threshold, s)
    ensures Inv(threshold, Step(threshold, s, Intake(e))) && Onward(s, Step(threshold, s, Intake(e)))
  {
  }

  lemma AggregateKeeps(threshold: int, s: State, day: Date, now: int)
    requires Inv(threshold, s)
    ensures var t := Step(threshold, s, Aggregate(day, now)); Inv(threshold, t) && Onward(s, t)
  {
    var t := Step(threshold, s, Aggregate(day, now));
    if s.filer.Filing? {
      forall i | 0 <= i < |s.filer.todo| ensures EntryOk(threshold, t, s.filer.todo[i]) {
        assert EntryOk(threshold, s, s.filer.todo[i]);
      }
    }
    forall k | k in t.rows
      ensures k in s.buckets && Below(t.rows[k], s.buckets[k]) && t.rows[k].threshold == threshold
      ensures t.rows[k].filed == (k in s.rows && s.rows[k].filed)
      ensures k in s.rows && Crossed(s.rows[k]) ==> Crossed(t.rows[k])
    {
    }
  }

  lemma PendingLists(rows: map<Key, Row>)
    ensures var p := Pending(rows);
            && (forall i, j :: 0 <= i < j < |p| ==> p[i].key != p[j].key)
            && (forall i :: 0 <= i < |p| ==>
                  p[i].key in rows && p[i].row == rows[p[i].key]
                  && p[i].row.cashIn + p[i].row.cashOut >= p[i].row.threshold && !p[i].row.filed)
            && (forall k :: k in rows && rows[k].cashIn + rows[k].cashOut >= rows[k].threshold && !rows[k].filed ==>
                  Listed(k, rows[k]) in p)
  {
    var want := set k | k in rows && Crossed(rows[k]) && !rows[k].filed;
    var keys := SortedKeys(want);
    var p := Pending(rows);
    forall i | 0 <= i < |p| ensures keys[i] in want {
      assert keys[i] in keys;
    }
    forall k | k in want ensures Listed(k, rows[k]) in p {
      var i :| 0 <= i < |keys| && keys[i] == k;
      assert p[i] == Listed(k, rows[k]);
    }
  }

  lemma PendingAscends(rows: map<Key, Row>, i: nat, j: nat)
    requires i < j < |Pending(rows)|
    ensures KeyLess(Pending(rows)[i].key, Pending(rows)[j].key)
  {
  }

  /** The list is in order of date, and of account within a date. */
  lemma ListedByDate(rows: map<Key, Row>, i: nat, j: nat)
    requires i < j < |Pending(rows)|
    ensures var a, b := Pending(rows)[i].key, Pending(rows)[j].key;
            var x, y := a.day, b.day;
            || x.year < y.year || (x.year == y.year && x.month < y.month)
            || (x.year == y.year && x.month == y.month && x.day < y.day)
            || (x == y && StringLess(a.account, b.account))
  {
    PendingAscends(rows, i, j);
  }

  lemma BeginKeeps(threshold: int, s: State)
    requires Inv(threshold, s)
    ensures var t := Step(threshold, s, FileBegin); Inv(threshold, t) && Onward(s, t)
    ensures s.filer.Idle? ==>
              var todo := Pending(s.rows);
              Step(threshold, s, FileBegin).filer.Idle? == (todo == [] || !Buildable(todo[0].key))
  {
    PendingLists(s.rows);
  }

  lemma RestIsOk(threshold: int, s: State, t: State)
    requires s.filer.Filing? && s.filer.todo != [] && TodoOk(threshold, s, s.filer.todo) && t.buckets == s.buckets
    requires forall k :: k in s.rows && k != s.filer.todo[0].key ==> k in t.rows && t.rows[k] == s.rows[k]
    ensures TodoOk(threshold, t, s.filer.todo[1..])
  {
    var todo := s.filer.todo;
    forall i | 0 <= i < |todo| - 1 ensures EntryOk(threshold, t, todo[1..][i]) {
      assert todo[1..][i] == todo[i + 1];
      assert EntryOk(threshold, s, todo[i + 1]);
    }
  }

  lemma FileNextRows(threshold: int, s: State, outcome: Filed, now: int)
    requires RowsOk(threshold, s) && s.filer.Filing? && s.filer.todo != [] && EntryOk(threshold, s, s.filer.todo[0])
    ensures var t := Step(threshold, s, FileNext(outcome, now)); RowsOk(threshold, t) && Onward(s, t)
  {
    var t, l := Step(threshold, s, FileNext(outcome, now)), s.filer.todo[0];
    assert Figures(Stamp(l.row, outcome, now)) == Figures(l.row) && Stamp(l.row, outcome, now).threshold == threshold;
    assert t.rows == if outcome.Fails? then s.rows else s.rows[l.key := Stamp(l.row, outcome, now)];
  }

  lemma FileNextKeeps(threshold: int, s: State, outcome: Filed, now: int)
    requires Inv(threshold, s)
    ensures var t := Step(threshold, s, FileNext(outcome, now)); Inv(threshold, t) && Onward(s, t)
  {
    if s.filer.Filing? {
      var t := Step(threshold, s, FileNext(outcome, now));
      assert EntryOk(threshold, s, s.filer.todo[0]);
      FileNextRows(threshold, s, outcome, now);
      RestIsOk(threshold, s, t);
      if t.filer.Filing? {
        assert EntryOk(threshold, t, t.filer.todo[0]);
      }
    }
  }

  lemma RejectKeeps(threshold: int, s: State, key: Key)
    requires Inv(threshold, s)
    ensures Inv(threshold, Step(threshold, s, Reject(key))) && Onward(s, Step(threshold, s, Reject(key)))
  {
    var t := Step(threshold, s, Reject(key));
    if s.filer.Filing? {
      forall i | 0 <= i < |s.filer.todo| ensures EntryOk(threshold, t, s.filer.todo[i]) {
        assert EntryOk(threshold, s, s.filer.todo[i]);
      }
    }
  }

  lemma StepKeeps(threshold: int, s: State, op: Op)
    requires Inv(threshold, s)
    ensures Inv(threshold, Step(threshold, s, op)) && Onward(s, Step(threshold, s, op))
  {
    match op
    case Intake(e) => IntakeKeeps(threshold, s, e);
    case Aggregate(day, now) => AggregateKeeps(threshold, s, day, now);
    case FileBegin => BeginKeeps(threshold, s);
    case FileNext(outcome, now) => FileNextKeeps(threshold, s, outcome, now);
    case Reject(key) => RejectKeeps(threshold, s, key);
  }

  /** Over every run with one filing loop, from any point on: a crossed row stays crossed, a filed row stays filed, and only
      crossed rows are ever filed. */
  lemma {:induction false} CrossingAndFilingAreForever(threshold: int, ops: seq<Op>, more: seq<Op>)
    ensures var s := Run(threshold, INITIAL, ops);
            var t := Run(threshold, s, more);
            Onward(s, t) && forall k :: k in t.rows && t.rows[k].filed ==> Crossed(t.rows[k])
    decreases |ops|, |more|
  {
    var s := Run(threshold, INITIAL, ops);
    RunKeeps(threshold, INITIAL, ops);
    RunKeeps(threshold, s, more);
  }

  lemma {:induction false} RunKeeps(threshold: int, s: State, ops: seq<Op>)
    requires Inv(threshold, s)
    ensures Inv(threshold, Run(threshold, s, ops)) && Onward(s, Run(threshold, s, ops))
    decreases |ops|
  {
    if ops != [] {
      RunKeeps(threshold, s, ops[..|ops| - 1]);
      StepKeeps(threshold, Run(threshold, s, ops[..|ops| - 1]), ops[|ops| - 1]);
    }
  }

  // ------------------------------------------------------------------ aggregation

  /** Equal apart from the time of computation. */
  predicate SameFigures(a: Row, b: Row) {
    a == b.(computedAt := a.computedAt)
  }

  /** After an aggregation the day's rows are exactly its buckets; other days are untouched; filing stamps survive; and
      aggregating again changes nothing but the time of computation. */
  lemma AggregationIsExactAndIdempotent(threshold: int, s: State, day: Date, now: int, later: int)
    ensures var t := Step(threshold, s, Aggregate(day, now));
            var u := Step(threshold, t, Aggregate(day, later));
            && (forall k :: k in s.buckets && k.day == day ==>
                  k in t.rows && t.rows[k].cashIn == s.buckets[k].cashIn && t.rows[k].cashOut == s.buckets[k].cashOut
                  && t.rows[k].count == s.buckets[k].count)
            && (forall k :: k in s.rows && k.day != day ==> k in t.rows && t.rows[k] == s.rows[k])
            && (forall k :: k in s.rows ==> k in t.rows && t.rows[k].filed == s.rows[k].filed
                                            && t.rows[k].filedAt == s.rows[k].filedAt && t.rows[k].goamlRef == s.rows[k].goamlRef)
            && t.rows.Keys == u.rows.Keys && (forall k :: k in t.rows ==> SameFigures(t.rows[k], u.rows[k]))
  {
  }

  // ------------------------------------------------------------------ how far the loop gets

  /** The number of listed rows before the first whose payload cannot be built. */
  function Stop(todo: seq<Listed>): (n: nat)
    ensures n <= |todo| && (forall i :: 0 <= i < n ==> Buildable(todo[i].key))
    ensures n < |todo| ==> !Buildable(todo[n].key)
  {
    if todo == [] || !Buildable(todo[0].key) then 0 else 1 + Stop(todo[1..])
  }

  /** The list of the latest loop. */
  function LatestList(threshold: int, ops: seq<Op>): seq<Listed>
    decreases |ops|
  {
    if ops == [] then []
    else
      var p := ops[..|ops| - 1];
      var s := Run(threshold, INITIAL, p);
      if ops[|ops| - 1].FileBegin? && s.filer.Idle? then Pending(s.rows) else LatestList(threshold, p)
  }

  /** The number of its rows whose call has been answered. */
  function Passed(threshold: int, ops: seq<Op>): nat
    decreases |ops|
  {
    if ops == [] then 0
    else
      var p, op := ops[..|ops| - 1], ops[|ops| - 1];
      var s := Run(threshold, INITIAL, p);
      if op.FileBegin? && s.filer.Idle? then 0
      else if op.FileNext? && s.filer.Filing? then Passed(threshold, p) + 1
      else Passed(threshold, p)
  }

  /** After n answered rows of its list the loop is at the next one, or it is over, at the first row whose payload cannot be
      built; the rows from there on carry the stamps with which they were listed. */
  ghost predicate Reached(l: seq<Listed>, n: nat, s: State) {
    && n <= Stop(l)
    && (if s.filer.Filing? then n < Stop(l) && s.filer.todo == l[n..] else n == Stop(l))
    && (forall i, j :: 0 <= i < j < |l| ==> l[i].key != l[j].key)
    && (forall i :: n <= i < |l| ==> l[i].key in s.rows && Stamps(s.rows[l[i].key]) == Stamps(l[i].row))
  }

  lemma ReachedAtBegin(threshold: int, s: State)
    requires Inv(threshold, s) && s.filer.Idle?
    ensures Reached(Pending(s.rows), 0, Step(threshold, s, FileBegin))
  {
    PendingLists(s.rows);
    BeginKeeps(threshold, s);
  }

  lemma ReachedThroughFiling(threshold: int, l: seq<Listed>, n: nat, s: State, outcome: Filed, now: int)
    requires Reached(l, n, s) && Inv(threshold, s) && s.filer.Filing?
    ensures Reached(l, n + 1, Step(threshold, s, FileNext(outcome, now)))
  {
    var t := Step(threshold, s, FileNext(outcome, now));
    LoopGoesOn(threshold, s, outcome, now);
    DropNext(l, n);
    assert s.filer.todo[0] == l[n] && (n + 1 < |l| ==> s.filer.todo[1] == l[n + 1]);
    forall i | n + 1 <= i < |l| ensures l[i].key in t.rows && Stamps(t.rows[l[i].key]) == Stamps(l[i].row) {
      assert l[i].key != l[n].key;
    }
  }

  lemma ReachedStep(threshold: int, l: seq<Listed>, n: nat, s: State, op: Op)
    requires Reached(l, n, s) && Inv(threshold, s)
    requires !(op.FileBegin? && s.filer.Idle?) && !(op.FileNext? && s.filer.Filing?)
    ensures Reached(l, n, Step(threshold, s, op))
  {
  }

  lemma {:induction false} RunReaches(threshold: int, ops: seq<Op>)
    ensures Reached(LatestList(threshold, ops), Passed(threshold, ops), Run(threshold, INITIAL, ops))
    decreases |ops|
  {
    if ops != [] {
      var p, op := ops[..|ops| - 1], ops[|ops| - 1];
      var s := Run(threshold, INITIAL, p);
      RunReaches(threshold, p);
      RunKeeps(threshold, INITIAL, p);
      if op.FileBegin? && s.filer.Idle? {
        ReachedAtBegin(threshold, s);
      } else if op.FileNext? && s.filer.Filing? {
        ReachedThroughFiling(threshold, LatestList(threshold, p), Passed(threshold, p), s, op.outcome, op.now);
      } else {
        ReachedStep(threshold, LatestList(threshold, p), Passed(threshold, p), s, op);
      }
    }
  }

  /** Whenever no loop is at work, the latest one has worked its list to the end exactly when the payload of every listed row
      can be built. If not, it stopped before the first that cannot, and the rest carry the stamps with which they were
      listed. */
  lemma LoopFinishesExactlyWhenBuildable(threshold: int, ops: seq<Op>)
    requires Run(threshold, INITIAL, ops).filer.Idle?
    ensures var s, l, n := Run(threshold, INITIAL, ops), LatestList(threshold, ops), Passed(threshold, ops);
            && n <= |l|
            && (n == |l| <==> forall i :: 0 <= i < |l| ==> Buildable(l[i].key))
            && (forall i :: 0 <= i < n ==> Buildable(l[i].key)) && (n < |l| ==> !Buildable(l[n].key))
            && (forall i :: n <= i < |l| ==> l[i].key in s.rows && Stamps(s.rows[l[i].key]) == Stamps(l[i].row))
  {
    RunReaches(threshold, ops);
  }

  function StampsAt(rows: map<Key, Row>, k: Key): (bool, Option<int>, Option<string>) {
    if k in rows then Stamps(rows[k]) else (false, None, None)
  }

  /** A row that cannot be built is pending, and any loop at work has it before it can come to row `other`. */
  ghost predicate Blocks(s: State, bad: Key, other: Key) {
    && !Buildable(bad) && bad in s.rows && Crossed(s.rows[bad]) && !s.rows[bad].filed
    && (s.filer.Filing? ==> exists i :: 0 <= i < |s.filer.todo| && Before(s.filer.todo, i, bad, other))
  }

  ghost predicate Before(todo: seq<Listed>, i: nat, bad: Key, other: Key)
    requires i < |todo|
  {
    todo[i].key == bad && forall j :: 0 <= j < i ==> todo[j].key != other
  }

  lemma ListBlocks(rows: map<Key, Row>, bad: Key, other: Key)
    requires bad in rows && Crossed(rows[bad]) && !rows[bad].filed && (other == bad || KeyLess(bad, other))
    ensures exists i :: 0 <= i < |Pending(rows)| && Before(Pending(rows), i, bad, other)
  {
    PendingLists(rows);
    var p := Pending(rows);
    var i :| 0 <= i < |p| && p[i] == Listed(bad, rows[bad]);
    forall j | 0 <= j < i ensures p[j].key != other {
      PendingAscends(rows, j, i);
      KeyLessIsOneWay(p[j].key, bad);
    }
    assert Before(p, i, bad, other);
  }

  lemma NextBlocks(threshold: int, s: State, bad: Key, other: Key, outcome: Filed, now: int)
    requires Inv(threshold, s) && Blocks(s, bad, other) && s.filer.Filing?
    ensures var t := Step(threshold, s, FileNext(outcome, now));
            Blocks(t, bad, other) && StampsAt(t.rows, other) == StampsAt(s.rows, other)
  {
    var t := Step(threshold, s, FileNext(outcome, now));
    var i :| 0 <= i < |s.filer.todo| && Before(s.filer.todo, i, bad, other);
    assert i != 0;
    if t.filer.Filing? {
      assert Before(t.filer.todo, i - 1, bad, other);
    }
  }

  lemma BlocksStep(threshold: int, s: State, bad: Key, other: Key, op: Op)
    requires Inv(threshold, s) && Blocks(s, bad, other) && (other == bad || KeyLess(bad, other))
    ensures var t := Step(threshold, s, op); Blocks(t, bad, other) && StampsAt(t.rows, other) == StampsAt(s.rows, other)
  {
    StepKeeps(threshold, s, op);
    if op.FileBegin? && s.filer.Idle? {
      ListBlocks(s.rows, bad, other);
    } else if op.FileNext? && s.filer.Filing? {
      NextBlocks(threshold, s, bad, other, op.outcome, op.now);
    }
  }

  /** As long as a crossed row whose payload cannot be built is unfiled, it and every row behind it in (date, account) order
      keep their stamps, over every run. */
  lemma {:induction false} UnbuildableRowBlocksTheRest(threshold: int, s: State, bad: Key, other: Key, ops: seq<Op>)
    requires Inv(threshold, s) && s.filer.Idle? && (other == bad || KeyLess(bad, other))
    requires !Buildable(bad) && bad in s.rows && Crossed(s.rows[bad]) && !s.rows[bad].filed
    ensures var t := Run(threshold, s, ops); Blocks(t, bad, other) && StampsAt(t.rows, other) == StampsAt(s.rows, other)
    decreases |ops|
  {
    if ops != [] {
      var p := ops[..|ops| - 1];
      UnbuildableRowBlocksTheRest(threshold, s, bad, other, p);
      RunKeeps(threshold, s, p);
      BlocksStep(threshold, Run(threshold, s, p), bad, other, ops[|ops| - 1]);
    }
  }

  /** Two crossed rows of one day: the one of account "A" cannot be built, and neither is ever filed. */
  lemma TwoRowsAndNeitherIsFiled(threshold: int, e: Event, f: Event, ops: seq<Op>)
    requires Movement(e) && e.account == "A" && e.amount.value >= threshold
    requires Movement(f) && f.account == "acct_1" && f.amount.value >= threshold && f.day == e.day
    ensures var s := Run(threshold, INITIAL, [Intake(e), Intake(f), Aggregate(e.day, 0)]);
            var t := Run(threshold, s, ops);
            && KeyOf(f) in s.rows && Crossed(s.rows[KeyOf(f)]) && Buildable(KeyOf(f))
            && Step(threshold, s, FileBegin).filer.Idle?
            && KeyOf(e) in t.rows && !t.rows[KeyOf(e)].filed && KeyOf(f) in t.rows && !t.rows[KeyOf(f)].filed
  {
    var s := Run(threshold, INITIAL, [Intake(e), Intake(f), Aggregate(e.day, 0)]);
    TwoDeposits(threshold, e, f);
    RunKeeps(threshold, INITIAL, [Intake(e), Intake(f), Aggregate(e.day, 0)]);
    assert StringLess("A", "acct_1");
    UnbuildableRowBlocksTheRest(threshold, s, KeyOf(e), KeyOf(e), ops);
    UnbuildableRowBlocksTheRest(threshold, s, KeyOf(e), KeyOf(f), ops);
    RunKeeps(threshold, s, ops);
    NoLoopStarts(threshold, s, KeyOf(e), KeyOf(f));
  }

  lemma TwoDeposits(threshold: int, e: Event, f: Event)
    requires Movement(e) && Movement(f) && e.account != f.account && f.day == e.day
    requires e.amount.value >= threshold && f.amount.value >= threshold
    ensures var s := Run(threshold, INITIAL, [Intake(e), Intake(f), Aggregate(e.day, 0)]);
            && s.rows.Keys == {KeyOf(e), KeyOf(f)} && s.filer.Idle?
            && (forall k :: k in s.rows ==> Crossed(s.rows[k]) && !s.rows[k].filed)
  {
    var ops := [Intake(e), Intake(f), Aggregate(e.day, 0)];
    var s0 := Step(threshold, INITIAL, Intake(e));
    var s1 := Step(threshold, s0, Intake(f));
    RunNext(threshold, ops, 0);
    RunNext(threshold, ops, 1);
    RunNext(threshold, ops, 2);
    TakeWhole(ops);
    assert Run(threshold, INITIAL, ops) == Step(threshold, s1, Aggregate(e.day, 0));
    assert s1.buckets.Keys == {KeyOf(e), KeyOf(f)};
  }

  /** A loop does not start at all when no listed row stands before one whose payload cannot be built. */
  lemma NoLoopStarts(threshold: int, s: State, bad: Key, other: Key)
    requires Inv(threshold, s) && s.filer.Idle? && !Buildable(bad) && bad in s.rows && Crossed(s.rows[bad]) && !s.rows[bad].filed
    requires forall k :: k in s.rows ==> k == bad || k == other
    requires KeyLess(bad, other)
    ensures Step(threshold, s, FileBegin).filer.Idle?
  {
    PendingLists(s.rows);
    BeginKeeps(threshold, s);
    ListBlocks(s.rows, bad, other);
  }

  // ------------------------------------------------------------------ filing on a stale list

  /** The position at which the loop now at work listed its rows. */
  function Began(threshold: int, ops: seq<Op>): nat
    decreases |ops|
  {
    if ops == [] then 0
    else
      var p := ops[..|ops| - 1];
      if ops[|ops| - 1].FileBegin? && Run(threshold, INITIAL, p).filer.Idle? then |p| else Began(threshold, p)
  }

  /** The aggregation at position i, if it is one of that day, found the bucket with the listed count. */
  ghost predicate FoundListed(threshold: int, ops: seq<Op>, i: nat, l: Listed)
    requires i < |ops|
  {
    var bs := Run(threshold, INITIAL, ops[..i]).buckets;
    ops[i].Aggregate? && ops[i].day == l.key.day && l.key in bs ==> bs[l.key].count == l.row.count
  }

  /** Every aggregation of the row's day from the loop's start up to position n found its bucket with the listed count. */
  ghost predicate Unmoved(threshold: int, ops: seq<Op>, n: nat, l: Listed)
    requires n <= |ops|
  {
    forall i :: Began(threshold, ops) <= i < n ==> FoundListed(threshold, ops, i, l)
  }

  ghost predicate Tracked(threshold: int, ops: seq<Op>, l: Listed, rows: map<Key, Row>) {
    l.key in rows && (l.row.count == rows[l.key].count <==> Unmoved(threshold, ops, |ops|, l))
  }

  ghost predicate AllTracked(threshold: int, ops: seq<Op>) {
    var s := Run(threshold, INITIAL, ops);
    s.filer.Filing? ==> forall i :: 0 <= i < |s.filer.todo| ==> Tracked(threshold, ops, s.filer.todo[i], s.rows)
  }

  lemma UnmovedStep(threshold: int, p: seq<Op>, op: Op, n: nat, l: Listed)
    requires !(op.FileBegin? && Run(threshold, INITIAL, p).filer.Idle?) && n <= |p|
    ensures Unmoved(threshold, p + [op], n, l) <==> Unmoved(threshold, p, n, l)
    ensures Unmoved(threshold, p + [op], |p| + 1, l) <==>
            Unmoved(threshold, p, |p|, l) && FoundListed(threshold, p + [op], |p|, l)
  {
    var q := p + [op];
    assert q[..|p|] == p;
    BeganInside(threshold, p);
    forall i | 0 <= i < |p| ensures FoundListed(threshold, q, i, l) <==> FoundListed(threshold, p, i, l) {
      assert q[..i] == p[..i];
    }
  }

  lemma {:induction false} BeganInside(threshold: int, ops: seq<Op>)
    ensures Began(threshold, ops) <= |ops|
    decreases |ops|
  {
    if ops != [] {
      BeganInside(threshold, ops[..|ops| - 1]);
    }
  }

  lemma TrackedThroughAggregation(threshold: int, p: seq<Op>, day: Date, now: int, l: Listed)
    requires var s := Run(threshold, INITIAL, p);
             && Inv(threshold, s) && l.key in s.rows && Behind(Figures(l.row), Figures(s.rows[l.key]))
             && Tracked(threshold, p, l, s.rows)
    ensures var s, q := Run(threshold, INITIAL, p), p + [Aggregate(day, now)];
            Tracked(threshold, q, l, Aggregated(s.rows, s.buckets, day, threshold, now))
  {
    UnmovedStep(threshold, p, Aggregate(day, now), |p|, l);
    assert (p + [Aggregate(day, now)])[..|p|] == p;
  }

  lemma TrackedThroughOther(threshold: int, p: seq<Op>, op: Op, l: Listed, rows: map<Key, Row>)
    requires !op.Aggregate? && !(op.FileBegin? && Run(threshold, INITIAL, p).filer.Idle?)
    requires Tracked(threshold, p, l, Run(threshold, INITIAL, p).rows)
    requires l.key in rows && rows[l.key] == Run(threshold, INITIAL, p).rows[l.key]
    ensures Tracked(threshold, p + [op], l, rows)
  {
    UnmovedStep(threshold, p, op, |p|, l);
  }

  lemma TrackedAtBegin(threshold: int, p: seq<Op>, l: Listed, rows: map<Key, Row>)
    requires Run(threshold, INITIAL, p).filer.Idle? && l.key in rows && rows[l.key] == l.row
    ensures Tracked(threshold, p + [FileBegin], l, rows)
  {
    var q := p + [FileBegin];
    assert q[..|p|] == p;
    assert Began(threshold, q) == |p|;
  }

  lemma TrackedThroughFiling(threshold: int, p: seq<Op>, op: Op, i: nat)
    requires op.FileNext? && AllTracked(threshold, p) && Inv(threshold, Run(threshold, INITIAL, p))
    requires var t := Step(threshold, Run(threshold, INITIAL, p), op); t.filer.Filing? && i < |t.filer.todo|
    ensures var t := Step(threshold, Run(threshold, INITIAL, p), op); Tracked(threshold, p + [op], t.filer.todo[i], t.rows)
  {
    var s := Run(threshold, INITIAL, p);
    var l := s.filer.todo[i + 1];
    assert Tracked(threshold, p, l, s.rows);
    assert s.filer.todo[0].key != l.key;
    TrackedThroughOther(threshold, p, op, l, Step(threshold, s, op).rows);
  }

  lemma TrackedByOthers(threshold: int, p: seq<Op>, op: Op, i: nat)
    requires AllTracked(threshold, p) && Inv(threshold, Run(threshold, INITIAL, p)) && !op.FileNext?
    requires var s := Run(threshold, INITIAL, p); s.filer.Filing? && i < |s.filer.todo|
    ensures var t := Step(threshold, Run(threshold, INITIAL, p), op);
            t.filer.Filing? && i < |t.filer.todo| && Tracked(threshold, p + [op], t.filer.todo[i], t.rows)
  {
    var s := Run(threshold, INITIAL, p);
    var l := s.filer.todo[i];
    assert EntryOk(threshold, s, l) && Tracked(threshold, p, l, s.rows);
    if op.Aggregate? {
      TrackedThroughAggregation(threshold, p, op.day, op.now, l);
    } else {
      TrackedThroughOther(threshold, p, op, l, s.rows);
    }
  }

  lemma TrackedFromBegin(threshold: int, p: seq<Op>, i: nat)
    requires Run(threshold, INITIAL, p).filer.Idle?
    requires var t := Step(threshold, Run(threshold, INITIAL, p), FileBegin); t.filer.Filing? && i < |t.filer.todo|
    ensures var t := Step(threshold, Run(threshold, INITIAL, p), FileBegin);
            Tracked(threshold, p + [FileBegin], t.filer.todo[i], t.rows)
  {
    var s := Run(threshold, INITIAL, p);
    PendingLists(s.rows);
    TrackedAtBegin(threshold, p, Pending(s.rows)[i], s.rows);
  }

  lemma TrackedEntry(threshold: int, p: seq<Op>, op: Op, i: nat)
    requires AllTracked(threshold, p) && Inv(threshold, Run(threshold, INITIAL, p))
    requires var t := Step(threshold, Run(threshold, INITIAL, p), op); t.filer.Filing? && i < |t.filer.todo|
    ensures var t := Step(threshold, Run(threshold, INITIAL, p), op);
            Tracked(threshold, p + [op], t.filer.todo[i], t.rows)
  {
    var s := Run(threshold, INITIAL, p);
    if op.FileNext? {
      TrackedThroughFiling(threshold, p, op, i);
    } else if s.filer.Idle? {
      TrackedFromBegin(threshold, p, i);
    } else {
      TrackedByOthers(threshold, p, op, i);
    }
  }

  lemma TrackedStep(threshold: int, p: seq<Op>, op: Op)
    requires AllTracked(threshold, p) && Inv(threshold, Run(threshold, INITIAL, p))
    ensures AllTracked(threshold, p + [op])
  {
    var t := Step(threshold, Run(threshold, INITIAL, p), op);
    PushLast(p, op);
    assert Run(threshold, INITIAL, p + [op]) == t;
    if t.filer.Filing? {
      forall i | 0 <= i < |t.filer.todo| {
        TrackedEntry(threshold, p, op, i);
      }
    }
  }

  lemma {:induction false} RunIsTracked(threshold: int, ops: seq<Op>)
    ensures AllTracked(threshold, ops)
    decreases |ops|
  {
    if ops != [] {
      var p := ops[..|ops| - 1];
      RunIsTracked(threshold, p);
      RunKeeps(threshold, INITIAL, p);
      TrackedStep(threshold, p, ops[|ops| - 1]);
      assert p + [ops[|ops| - 1]] == ops;
    }
  }

  /** An accepted filing leaves the row's totals as they were exactly when every aggregation of its day since the loop began
      found the bucket with the listed count. */
  lemma FilingKeepsTotalsExactlyWhenUnmoved(threshold: int, ops: seq<Op>, outcome: Filed, now: int)
    requires Run(threshold, INITIAL, ops).filer.Filing? && !outcome.Fails?
    ensures var s := Run(threshold, INITIAL, ops);
            var t := Step(threshold, s, FileNext(outcome, now));
            s.filer.todo != [] &&
            var l := s.filer.todo[0];
            && l.key in s.rows && l.key in t.rows
            && (Figures(t.rows[l.key]) == Figures(s.rows[l.key]) <==> Unmoved(threshold, ops, |ops|, l))
            && (!Unmoved(threshold, ops, |ops|, l) ==> t.rows[l.key].count < s.rows[l.key].count)
            && forall k :: k in s.rows && k != l.key ==> k in t.rows && s.rows[k] == t.rows[k]
  {
    RunKeeps(threshold, INITIAL, ops);
    RunIsTracked(threshold, ops);
  }

  /** With an overlap the totals do change: a second deposit aggregated while the connector is being called is overwritten by
      the figures the loop had listed, and the row is filed short. The next aggregation of the day puts the figures right. */
  lemma OverlapFilesShort(threshold: int, e: Event, f: Event, ref: string)
    requires Movement(e) && Movement(f) && e.direction == CREDIT && f.direction == CREDIT
    requires KeyOf(e) == KeyOf(f) && e.id != f.id && e.amount.value >= threshold && Buildable(KeyOf(e))
    ensures var k := KeyOf(e);
            var s1 := Step(threshold, Step(threshold, INITIAL, Intake(e)), Aggregate(k.day, 0));
            var s2 := Step(threshold, Step(threshold, Step(threshold, s1, FileBegin), Intake(f)), Aggregate(k.day, 1));
            var s3 := Step(threshold, s2, FileNext(Submitted(ref), 2));
            var s4 := Step(threshold, s3, Aggregate(k.day, 3));
            && k in s2.rows && s2.rows[k].cashIn == e.amount.value + f.amount.value
            && k in s3.rows && s3.rows[k].filed && s3.rows[k].cashIn == e.amount.value
            && k in s3.told && s3.told[k] == Payload(e.amount.value, 0, 1)
            && k in s4.rows && s4.rows[k].filed && s4.rows[k].cashIn == e.amount.value + f.amount.value
  {
    var k := KeyOf(e);
    FirstDeposit(threshold, e);
    var row := Row(e.amount.value, 0, threshold, 1, 0, false, None, None, None);
    var s1 := State(map[k := Bucket(e.amount.value, 0, 1, {e.id})], map[k := row], Idle, map[], {});
    BeginOnly(threshold, s1, k);
    var s2 := s1.(filer := Filing([Listed(k, row)], Payload(e.amount.value, 0, 1), Fresh));
    NextDeposit(threshold, s2, f, 1);
    var s3 := Step(threshold, Step(threshold, s2, Intake(f)), Aggregate(k.day, 1));
    AnswerOnly(threshold, s3, k, row, Submitted(ref), 2);
  }

  /** A loop over a single pending row: its start and its answer. */
  lemma BeginOnly(threshold: int, s: State, k: Key)
    requires s.filer.Idle? && s.rows.Keys == {k} && Crossed(s.rows[k]) && !s.rows[k].filed && Buildable(k)
    ensures Step(threshold, s, FileBegin) ==
            s.(filer := Filing([Listed(k, s.rows[k])], Figures(s.rows[k]), CallFor(s.told, s.refused, k)))
  {
    OnlyPending(s.rows, k);
  }

  lemma AnswerOnly(threshold: int, s: State, k: Key, row: Row, outcome: Filed, now: int)
    requires s.filer.Filing? && s.filer.todo == [Listed(k, row)] && s.filer.call != Bounced && !outcome.Fails?
    ensures Step(threshold, s, FileNext(outcome, now)) ==
            State(s.buckets, s.rows[k := Stamp(row, outcome, now)], Idle,
                  if s.filer.call == Fresh then s.told[k := s.filer.sent] else s.told,
                  if s.filer.call == Fresh then s.refused - {k} else s.refused)
  {
    assert s.filer.todo[1..] == [];
  }

  lemma FirstDeposit(threshold: int, e: Event)
    requires Movement(e) && e.direction == CREDIT
    ensures var k := KeyOf(e);
            Step(threshold, Step(threshold, INITIAL, Intake(e)), Aggregate(k.day, 0)) ==
            State(map[k := Bucket(e.amount.value, 0, 1, {e.id})],
                  map[k := Row(e.amount.value, 0, threshold, 1, 0, false, None, None, None)], Idle, map[], {})
  {
    var k := KeyOf(e);
    var s0 := Step(threshold, INITIAL, Intake(e));
    assert {} + {e.id} == {e.id};
    assert s0.buckets == map[k := Bucket(e.amount.value, 0, 1, {e.id})];
    var s1 := Step(threshold, s0, Aggregate(k.day, 0));
    assert s1.rows == map[k := Row(e.amount.value, 0, threshold, 1, 0, false, None, None, None)];
  }

  lemma NextDeposit(threshold: int, s: State, f: Event, now: int)
    requires Movement(f) && f.direction == CREDIT && KeyOf(f) in s.buckets && f.id !in s.buckets[KeyOf(f)].ids
    ensures var k := KeyOf(f);
            var t := Step(threshold, Step(threshold, s, Intake(f)), Aggregate(k.day, now));
            && t.filer == s.filer && t.told == s.told && t.refused == s.refused && k in t.rows && k in t.buckets
            && t.rows[k].cashIn == t.buckets[k].cashIn == s.buckets[k].cashIn + f.amount.value
            && t.rows.Keys == s.rows.Keys + set x | x in s.buckets && x.day == k.day
            && Stamps(t.rows[k]) == StampsAt(s.rows, k) && t.rows[k].threshold == threshold
            && t.rows[k].cashOut == s.buckets[k].cashOut
  {
  }

  lemma OnlyPending(rows: map<Key, Row>, k: Key)
    requires rows.Keys == {k} && Crossed(rows[k]) && !rows[k].filed
    ensures Pending(rows) == [Listed(k, rows[k])]
  {
    PendingLists(rows);
    var p := Pending(rows);
    assert Listed(k, rows[k]) in p;
    assert |p| == 1;
  }

  // ------------------------------------------------------------------ what the portal was told

  /** The loop moves on to another row. */
  predicate Turns(s: State, op: Op) {
    (op.FileBegin? && s.filer.Idle?) || (op.FileNext? && s.filer.Filing?)
  }

  /** The answer written on row k is that of this step. */
  predicate Writes(s: State, op: Op, k: Key) {
    op.FileNext? && !op.outcome.Fails? && s.filer.Filing? && s.filer.todo != [] && s.filer.todo[0].key == k
  }

  /** The number of steps taken when the figures stored for a row were read off its bucket. */
  function StoredFrom(threshold: int, ops: seq<Op>, k: Key): nat
    decreases |ops|
  {
    if ops == [] then 0
    else
      var p, op := ops[..|ops| - 1], ops[|ops| - 1];
      var s := Run(threshold, INITIAL, p);
      if op.Aggregate? && op.day == k.day && k in s.buckets then |p|
      else if Writes(s, op, k) then ListedFrom(threshold, p, k)
      else StoredFrom(threshold, p, k)
  }

  /** ... and those with which the latest loop listed it. */
  function ListedFrom(threshold: int, ops: seq<Op>, k: Key): nat
    decreases |ops|
  {
    if ops == [] then 0
    else
      var p := ops[..|ops| - 1];
      if ops[|ops| - 1].FileBegin? && Run(threshold, INITIAL, p).filer.Idle? then StoredFrom(threshold, p, k)
      else ListedFrom(threshold, p, k)
  }

  /** ... and those of the payload of the call now in flight. */
  function SentFrom(threshold: int, ops: seq<Op>): nat
    decreases |ops|
  {
    if ops == [] then 0
    else
      var p := ops[..|ops| - 1];
      var t := Run(threshold, INITIAL, ops);
      if Turns(Run(threshold, INITIAL, p), ops[|ops| - 1]) && t.filer.Filing? && t.filer.todo != [] then
        StoredFrom(threshold, ops, t.filer.todo[0].key)
      else SentFrom(threshold, p)
  }

  /** ... and those of the payload at the connector. */
  function ToldFrom(threshold: int, ops: seq<Op>, k: Key): nat
    decreases |ops|
  {
    if ops == [] then 0
    else
      var p, op := ops[..|ops| - 1], ops[|ops| - 1];
      var s := Run(threshold, INITIAL, p);
      if op.FileNext? && Takes(s.filer, op.outcome) && s.filer.todo != [] && s.filer.todo[0].key == k then SentFrom(threshold, p)
      else ToldFrom(threshold, p, k)
  }

  // ------------------------------------------------------------------ which payload the connector holds

  /** A filing of the row stands at the connector: it has one, not rejected, and no newer one is on its way. */
  predicate Stands(s: State, k: Key) {
    && k in s.told && k !in s.refused
    && (s.filer.Filing? && s.filer.todo != [] && s.filer.todo[0].key == k ==> s.filer.call == Standing)
  }

  lemma StandsStep(threshold: int, s: State, op: Op, k: Key)
    requires Inv(threshold, s) && Stands(s, k) && op != Reject(k)
    ensures Stands(Step(threshold, s, op), k) && Step(threshold, s, op).told[k] == s.told[k]
  {
    if op.FileNext? && s.filer.Filing? && |s.filer.todo| > 1 {
      assert s.filer.todo[0].key != s.filer.todo[1].key;
    }
  }

  /** Whatever is called and counted, a filing that stands keeps its payload until the portal rejects it. */
  lemma {:induction false} StandsUntilRejected(threshold: int, s: State, ops: seq<Op>, k: Key)
    requires Inv(threshold, s) && Stands(s, k) && Reject(k) !in ops
    ensures Stands(Run(threshold, s, ops), k) && Run(threshold, s, ops).told[k] == s.told[k]
    decreases |ops|
  {
    if ops != [] {
      var p := ops[..|ops| - 1];
      StandsUntilRejected(threshold, s, p, k);
      RunKeeps(threshold, s, p);
      CutLast(ops);
      StandsStep(threshold, Run(threshold, s, p), ops[|ops| - 1], k);
    }
  }

  /** A call made when none stands leaves its payload unless it failed before the connector took it, and that filing then stands
      exactly when the portal has not rejected it during the call; no other row's filing is touched. */
  lemma CallsLeaveTheirPayload(threshold: int, s: State, outcome: Filed, now: int)
    requires Inv(threshold, s) && s.filer.Filing?
    ensures var t, k := Step(threshold, s, FileNext(outcome, now)), s.filer.todo[0].key;
            && (if s.filer.call != Standing && (outcome.Fails? ==> outcome.taken)
                then k in t.told && t.told[k] == s.filer.sent && (k in t.refused <==> s.filer.call == Bounced)
                else t.told == s.told && t.refused == s.refused)
            && forall other :: other != k ==>
                 (other in t.told <==> other in s.told) && (other in s.told ==> t.told[other] == s.told[other])
                 && (other in t.refused <==> other in s.refused)
  {
  }

  /** A turn finds a filing that stands exactly when there is one that the portal has not rejected. */
  lemma TurnsFindStanding(threshold: int, s: State, op: Op)
    requires Inv(threshold, s) && Turns(s, op) && Step(threshold, s, op).filer.Filing?
    ensures var t := Step(threshold, s, op);
            t.filer.todo != [] &&
            t.filer.call == if t.filer.todo[0].key in t.told && t.filer.todo[0].key !in t.refused then Standing else Fresh
  {
  }

  /** A rejection falls on the filing on its way, if there is one, and else on the one at the connector. */
  lemma RejectionsFall(threshold: int, s: State, k: Key)
    requires Inv(threshold, s)
    ensures var t := Step(threshold, s, Reject(k));
            && t.told == s.told
            && (if s.filer.Filing? && s.filer.todo[0].key == k && s.filer.call != Standing
                then t.refused == s.refused && t.filer == s.filer.(call := Bounced)
                else t.filer == s.filer && t.refused == if k in s.told then s.refused + {k} else s.refused)
  {
  }

  // ------------------------------------------------------------------ what the portal holds and what is filed

  /** The figures stood in the row's bucket after n steps. */
  ghost predicate Dated(threshold: int, ops: seq<Op>, n: nat, k: Key, f: Payload) {
    n <= |ops| && var bs := BucketsAt(threshold, ops, n); k in bs && FiguresOf(bs[k]) == f
  }

  ghost predicate StoredDated(threshold: int, ops: seq<Op>, k: Key) {
    var s := Run(threshold, INITIAL, ops);
    k in s.rows ==> Dated(threshold, ops, StoredFrom(threshold, ops, k), k, Figures(s.rows[k]))
  }

  ghost predicate ToldDated(threshold: int, ops: seq<Op>, k: Key) {
    var s := Run(threshold, INITIAL, ops);
    k in s.told ==> Dated(threshold, ops, ToldFrom(threshold, ops, k), k, s.told[k])
  }

  ghost predicate ListedDated(threshold: int, ops: seq<Op>, i: nat) {
    var s := Run(threshold, INITIAL, ops);
    s.filer.Filing? && i < |s.filer.todo| ==>
      var l := s.filer.todo[i];
      Dated(threshold, ops, ListedFrom(threshold, ops, l.key), l.key, Figures(l.row))
  }

  ghost predicate SentDated(threshold: int, ops: seq<Op>) {
    var s := Run(threshold, INITIAL, ops);
    s.filer.Filing? && s.filer.todo != [] ==>
      && Dated(threshold, ops, SentFrom(threshold, ops), s.filer.todo[0].key, s.filer.sent)
      && (s.filer.call == Standing ==> s.filer.todo[0].key in s.told)
  }

  ghost predicate AllDated(threshold: int, ops: seq<Op>) {
    && (forall k :: StoredDated(threshold, ops, k)) && (forall k :: ToldDated(threshold, ops, k))
    && (forall i :: ListedDated(threshold, ops, i)) && SentDated(threshold, ops)
  }

  lemma DatedPush(threshold: int, p: seq<Op>, op: Op, n: nat, k: Key, f: Payload)
    requires Dated(threshold, p, n, k, f)
    ensures Dated(threshold, p + [op], n, k, f)
  {
    assert (p + [op])[..n] == p[..n];
  }

  lemma StoredPush(threshold: int, p: seq<Op>, op: Op, k: Key)
    requires AllDated(threshold, p)
    ensures StoredDated(threshold, p + [op], k)
  {
    var s, t := Run(threshold, INITIAL, p), Step(threshold, Run(threshold, INITIAL, p), op);
    PushLast(p, op);
    if k in t.rows && !(op.Aggregate? && op.day == k.day && k in s.buckets) {
      if Writes(s, op, k) {
        assert ListedDated(threshold, p, 0);
        DatedPush(threshold, p, op, ListedFrom(threshold, p, k), k, Figures(t.rows[k]));
      } else {
        assert StoredDated(threshold, p, k);
        DatedPush(threshold, p, op, StoredFrom(threshold, p, k), k, Figures(t.rows[k]));
      }
    }
  }

  lemma ToldPush(threshold: int, p: seq<Op>, op: Op, k: Key)
    requires AllDated(threshold, p)
    ensures ToldDated(threshold, p + [op], k)
  {
    var s, t := Run(threshold, INITIAL, p), Step(threshold, Run(threshold, INITIAL, p), op);
    PushLast(p, op);
    if k in t.told {
      if op.FileNext? && Takes(s.filer, op.outcome) && s.filer.todo != [] && s.filer.todo[0].key == k {
        DatedPush(threshold, p, op, SentFrom(threshold, p), k, t.told[k]);
      } else {
        assert ToldDated(threshold, p, k);
        DatedPush(threshold, p, op, ToldFrom(threshold, p, k), k, t.told[k]);
      }
    }
  }

  lemma ListedAtBegin(threshold: int, p: seq<Op>, i: nat)
    requires AllDated(threshold, p)
    requires var s := Run(threshold, INITIAL, p); s.filer.Idle? && i < |Pending(s.rows)|
    ensures var l := Pending(Run(threshold, INITIAL, p).rows)[i];
            Dated(threshold, p + [FileBegin], StoredFrom(threshold, p, l.key), l.key, Figures(l.row))
  {
    var s := Run(threshold, INITIAL, p);
    var l := Pending(s.rows)[i];
    PendingLists(s.rows);
    assert StoredDated(threshold, p, l.key);
    DatedPush(threshold, p, FileBegin, StoredFrom(threshold, p, l.key), l.key, Figures(l.row));
  }

  lemma ListedPush(threshold: int, p: seq<Op>, op: Op, i: nat)
    requires AllDated(threshold, p)
    ensures ListedDated(threshold, p + [op], i)
  {
    var s, t := Run(threshold, INITIAL, p), Step(threshold, Run(threshold, INITIAL, p), op);
    PushLast(p, op);
    if t.filer.Filing? && i < |t.filer.todo| {
      var l := t.filer.todo[i];
      if op.FileBegin? && s.filer.Idle? {
        ListedAtBegin(threshold, p, i);
      } else {
        var j := if op.FileNext? then i + 1 else i;
        assert l == s.filer.todo[j];
        assert ListedDated(threshold, p, j);
        DatedPush(threshold, p, op, ListedFrom(threshold, p, l.key), l.key, Figures(l.row));
      }
    }
  }

  lemma SentPush(threshold: int, p: seq<Op>, op: Op)
    requires AllDated(threshold, p)
    ensures SentDated(threshold, p + [op])
  {
    PushLast(p, op);
    if Turns(Run(threshold, INITIAL, p), op) {
      SentAtTurn(threshold, p, op);
    } else {
      SentBetween(threshold, p, op);
    }
  }

  lemma SentAtTurn(threshold: int, p: seq<Op>, op: Op)
    requires AllDated(threshold, p) && Turns(Run(threshold, INITIAL, p), op)
    ensures SentDated(threshold, p + [op])
  {
    var t := Step(threshold, Run(threshold, INITIAL, p), op);
    PushLast(p, op);
    if t.filer.Filing? && t.filer.todo != [] {
      StoredPush(threshold, p, op, t.filer.todo[0].key);
    }
  }

  lemma SentBetween(threshold: int, p: seq<Op>, op: Op)
    requires SentDated(threshold, p) && !Turns(Run(threshold, INITIAL, p), op)
    ensures SentDated(threshold, p + [op])
  {
    var t := Step(threshold, Run(threshold, INITIAL, p), op);
    PushLast(p, op);
    if t.filer.Filing? && t.filer.todo != [] {
      DatedPush(threshold, p, op, SentFrom(threshold, p), t.filer.todo[0].key, t.filer.sent);
    }
  }

  lemma {:induction false} RunIsDated(threshold: int, ops: seq<Op>)
    ensures AllDated(threshold, ops)
    decreases |ops|
  {
    if ops != [] {
      var p, op := ops[..|ops| - 1], ops[|ops| - 1];
      RunIsDated(threshold, p);
      CutLast(ops);
      forall k ensures StoredDated(threshold, ops, k) && ToldDated(threshold, ops, k) {
        StoredPush(threshold, p, op, k);
        ToldPush(threshold, p, op, k);
      }
      forall i: nat ensures ListedDated(threshold, ops, i) {
        ListedPush(threshold, p, op, i);
      }
      SentPush(threshold, p, op);
    }
  }

  /** The step at position m counts a movement in the row's bucket. */
  ghost predicate CountedAt(threshold: int, ops: seq<Op>, m: nat, k: Key)
    requires m < |ops|
  {
    CountsNow(Run(threshold, INITIAL, ops[..m]), ops[m], k)
  }

  predicate CountsNow(s: State, op: Op, k: Key) {
    op.Intake? && Movement(op.e) && KeyOf(op.e) == k && op.e.id !in BucketOf(s.buckets, k).ids
  }

  /** No movement was counted for the row between two points of the run. */
  ghost predicate Still(threshold: int, ops: seq<Op>, i: nat, j: nat, k: Key)
    requires i <= |ops| && j <= |ops|
  {
    forall m :: (i <= m < j || j <= m < i) ==> !CountedAt(threshold, ops, m, k)
  }

  lemma CountingMovesTheFigures(threshold: int, s: State, op: Op, k: Key)
    requires Inv(threshold, s) && k in s.buckets
    ensures var t := Step(threshold, s, op);
            k in t.buckets && Behind(FiguresOf(s.buckets[k]), FiguresOf(t.buckets[k]))
            && (FiguresOf(s.buckets[k]) == FiguresOf(t.buckets[k]) <==> !CountsNow(s, op, k))
  {
  }

  ghost function BucketsAt(threshold: int, ops: seq<Op>, n: nat): Buckets
    requires n <= |ops|
  {
    Run(threshold, INITIAL, ops[..n]).buckets
  }

  lemma FiguresStepOn(threshold: int, ops: seq<Op>, n: nat, k: Key)
    requires n < |ops| && k in BucketsAt(threshold, ops, n)
    ensures var a, b := BucketsAt(threshold, ops, n), BucketsAt(threshold, ops, n + 1);
            k in b && Behind(FiguresOf(a[k]), FiguresOf(b[k]))
            && (FiguresOf(a[k]) == FiguresOf(b[k]) <==> !CountedAt(threshold, ops, n, k))
  {
    RunKeeps(threshold, INITIAL, ops[..n]);
    RunNext(threshold, ops, n);
    CountingMovesTheFigures(threshold, Run(threshold, INITIAL, ops[..n]), ops[n], k);
  }

  lemma FiguresAreBehindThemselves(threshold: int, ops: seq<Op>, n: nat, k: Key)
    requires n <= |ops| && k in BucketsAt(threshold, ops, n)
    ensures var f := FiguresOf(BucketsAt(threshold, ops, n)[k]); Behind(f, f)
  {
    RunKeeps(threshold, INITIAL, ops[..n]);
  }

  lemma {:induction false} FiguresStandExactlyWhileStill(threshold: int, ops: seq<Op>, i: nat, j: nat, k: Key)
    requires i <= j <= |ops| && k in BucketsAt(threshold, ops, i)
    ensures var a, b := BucketsAt(threshold, ops, i), BucketsAt(threshold, ops, j);
            k in b && Behind(FiguresOf(a[k]), FiguresOf(b[k]))
            && (FiguresOf(a[k]) == FiguresOf(b[k]) <==> Still(threshold, ops, i, j, k))
    decreases j
  {
    if i == j {
      FiguresAreBehindThemselves(threshold, ops, i, k);
    } else {
      FiguresStandExactlyWhileStill(threshold, ops, i, j - 1, k);
      FiguresStepOn(threshold, ops, j - 1, k);
      StillGrows(threshold, ops, i, j, k);
      var a, b, c := BucketsAt(threshold, ops, i), BucketsAt(threshold, ops, j - 1), BucketsAt(threshold, ops, j);
      BehindCompose(FiguresOf(a[k]), FiguresOf(b[k]), FiguresOf(c[k]));
    }
  }

  lemma BehindCompose(f: Payload, g: Payload, h: Payload)
    requires Behind(f, g) && Behind(g, h)
    ensures Behind(f, h) && (f == h <==> f == g && g == h)
  {
  }

  lemma RunNext(threshold: int, ops: seq<Op>, n: nat)
    requires n < |ops|
    ensures Run(threshold, INITIAL, ops[..n + 1]) == Step(threshold, Run(threshold, INITIAL, ops[..n]), ops[n])
  {
    TakeNext(ops, n);
    PushLast(ops[..n], ops[n]);
  }

  lemma StillGrows(threshold: int, ops: seq<Op>, i: nat, j: nat, k: Key)
    requires i < j <= |ops|
    ensures Still(threshold, ops, i, j, k) <==> Still(threshold, ops, i, j - 1, k) && !CountedAt(threshold, ops, j - 1, k)
  {
  }

  /** Figures read off one bucket at two points of a run are the same exactly when no movement was counted in between; the
      later ones are never behind. */
  lemma DatesCompare(threshold: int, ops: seq<Op>, i: nat, j: nat, k: Key, f: Payload, g: Payload)
    requires Dated(threshold, ops, i, k, f) && Dated(threshold, ops, j, k, g)
    ensures f == g <==> Still(threshold, ops, i, j, k)
    ensures (i <= j ==> Behind(f, g)) && (j <= i ==> Behind(g, f))
  {
    if i <= j {
      FiguresStandExactlyWhileStill(threshold, ops, i, j, k);
    }
    if j <= i {
      FiguresStandExactlyWhileStill(threshold, ops, j, i, k);
    }
  }

  /** In every run the payload at the connector shows the figures stored for the row exactly when no movement of the row was
      counted between the reading of the one and the reading of the other. */
  lemma ConnectorHoldsTheStoredFiguresExactlyWhenStill(threshold: int, ops: seq<Op>, k: Key)
    requires var s := Run(threshold, INITIAL, ops); k in s.rows && k in s.told
    ensures var s, i, j := Run(threshold, INITIAL, ops), ToldFrom(threshold, ops, k), StoredFrom(threshold, ops, k);
            && i <= |ops| && j <= |ops|
            && (s.told[k] == Figures(s.rows[k]) <==> Still(threshold, ops, i, j, k))
            && (if i <= j then Behind(s.told[k], Figures(s.rows[k])) else Behind(Figures(s.rows[k]), s.told[k]))
  {
    RunIsDated(threshold, ops);
    var s := Run(threshold, INITIAL, ops);
    assert StoredDated(threshold, ops, k) && ToldDated(threshold, ops, k);
    DatesCompare(threshold, ops, ToldFrom(threshold, ops, k), StoredFrom(threshold, ops, k), k, s.told[k], Figures(s.rows[k]));
  }

  /** An accepted call leaves the row with its listed figures. The connector then holds these figures exactly when no movement
      was counted between the listing's reading and that of the payload it holds: the one of this call, or of an earlier call
      if that filing stood. */
  lemma PortalIsToldWhatIsFiledExactlyWhenStill(threshold: int, ops: seq<Op>, outcome: Filed, now: int)
    requires Run(threshold, INITIAL, ops).filer.Filing? && !outcome.Fails?
    ensures var s := Run(threshold, INITIAL, ops);
            var t := Step(threshold, s, FileNext(outcome, now));
            s.filer.todo != [] &&
            var k := s.filer.todo[0].key;
            var i := if s.filer.call == Standing then ToldFrom(threshold, ops, k) else SentFrom(threshold, ops);
            var j := ListedFrom(threshold, ops, k);
            && k in t.told && k in t.rows && i <= |ops| && j <= |ops|
            && (t.told[k] == Figures(t.rows[k]) <==> Still(threshold, ops, i, j, k))
            && (if i <= j then Behind(t.told[k], Figures(t.rows[k])) else Behind(Figures(t.rows[k]), t.told[k]))
  {
    RunKeeps(threshold, INITIAL, ops);
    RunIsDated(threshold, ops);
    var s := Run(threshold, INITIAL, ops);
    var t := Step(threshold, s, FileNext(outcome, now));
    var k := s.filer.todo[0].key;
    AnswerIsDated(threshold, ops, outcome, now);
    var i := if s.filer.call == Standing then ToldFrom(threshold, ops, k) else SentFrom(threshold, ops);
    DatesCompare(threshold, ops, i, ListedFrom(threshold, ops, k), k, t.told[k], Figures(t.rows[k]));
  }

  lemma AnswerIsDated(threshold: int, ops: seq<Op>, outcome: Filed, now: int)
    requires AllDated(threshold, ops) && !outcome.Fails?
    requires var s := Run(threshold, INITIAL, ops); s.filer.Filing? && s.filer.todo != []
    ensures var s := Run(threshold, INITIAL, ops);
            var t := Step(threshold, s, FileNext(outcome, now));
            var k := s.filer.todo[0].key;
            var i := if s.filer.call == Standing then ToldFrom(threshold, ops, k) else SentFrom(threshold, ops);
            && k in t.told && Dated(threshold, ops, i, k, t.told[k])
            && k in t.rows && Dated(threshold, ops, ListedFrom(threshold, ops, k), k, Figures(t.rows[k]))
  {
    assert ListedDated(threshold, ops, 0);
    assert ToldDated(threshold, ops, Run(threshold, INITIAL, ops).filer.todo[0].key);
  }

  /** The first payload stands: a call left queued, a second deposit aggregated, and the next loop files the new figures while
      the connector still holds the old ones. */
  lemma OlderPayloadStands(threshold: int, e: Event, f: Event, ref: string, ref1: string)
    requires Movement(e) && Movement(f) && e.direction == CREDIT && f.direction == CREDIT
    requires KeyOf(e) == KeyOf(f) && e.id != f.id && e.amount.value >= threshold && Buildable(KeyOf(e))
    ensures var k := KeyOf(e);
            var s1 := Step(threshold, Step(threshold, INITIAL, Intake(e)), Aggregate(k.day, 0));
            var s2 := Step(threshold, Step(threshold, s1, FileBegin), FileNext(Queued(ref), 1));
            var s3 := Step(threshold, Step(threshold, s2, Intake(f)), Aggregate(k.day, 2));
            var s4 := Step(threshold, Step(threshold, s3, FileBegin), FileNext(Submitted(ref1), 3));
            && k in s4.rows && s4.rows[k].filed && s4.rows[k].cashIn == e.amount.value + f.amount.value
            && k in s4.told && s4.told[k] == Payload(e.amount.value, 0, 1)
  {
    var k := KeyOf(e);
    FirstDeposit(threshold, e);
    var row := Row(e.amount.value, 0, threshold, 1, 0, false, None, None, None);
    var s1 := State(map[k := Bucket(e.amount.value, 0, 1, {e.id})], map[k := row], Idle, map[], {});
    BeginOnly(threshold, s1, k);
    AnswerOnly(threshold, Step(threshold, s1, FileBegin), k, row, Queued(ref), 1);
    var s2 := Step(threshold, Step(threshold, s1, FileBegin), FileNext(Queued(ref), 1));
    NextDeposit(threshold, s2, f, 2);
    var s3 := Step(threshold, Step(threshold, s2, Intake(f)), Aggregate(k.day, 2));
    BeginOnly(threshold, s3, k);
    AnswerOnly(threshold, Step(threshold, s3, FileBegin), k, s3.rows[k], Submitted(ref1), 3);
  }

  // ------------------------------------------------------------------ the batch object

  predicate ByOthers(op: Op) {
    op.Intake? || op.Aggregate? || op.Reject?
  }

  ghost predicate OthersRan(threshold: int, s: State, t: State) {
    exists ops: seq<Op> :: (forall i :: 0 <= i < |ops| ==> ByOthers(ops[i])) && t == Run(threshold, s, ops)
  }

  ghost predicate SameStamps(rows: map<Key, Row>, rows1: map<Key, Row>) {
    forall k :: k in rows ==> k in rows1 && Stamps(rows1[k]) == Stamps(rows[k])
  }

  /** Nothing but the fate of the filing in flight may differ. */
  predicate SameLoop(f: Filer, g: Filer) {
    f.Filing? == g.Filing? && (f.Filing? ==> f.todo == g.todo && f.sent == g.sent && (f.call == Standing) == (g.call == Standing))
  }

  lemma {:induction false} OthersLeaveTheLoop(threshold: int, s: State, ops: seq<Op>)
    requires forall i :: 0 <= i < |ops| ==> ByOthers(ops[i])
    ensures var t := Run(threshold, s, ops); SameLoop(s.filer, t.filer) && t.told == s.told && SameStamps(s.rows, t.rows)
    decreases |ops|
  {
    if ops != [] {
      OthersLeaveTheLoop(threshold, s, ops[..|ops| - 1]);
    }
  }

  /** The call in flight was answered after any number of intakes, aggregations and rejections. */
  ghost predicate Answered(threshold: int, s: State, outcome: Filed, now: int, t: State) {
    exists mid :: OthersRan(threshold, s, mid) && t == Step(threshold, mid, FileNext(outcome, now))
  }

  /** A row after its turn: filed with the reference, queued with the reference, or as it was. */
  predicate Fate(outcome: Filed, now: int, was: Row, r: Row) {
    match outcome
    case Fails(_) => Stamps(r) == Stamps(was)
    case Queued(ref) => r.goamlRef == Some(ref) && r.filed == was.filed && r.filedAt == was.filedAt
    case Submitted(ref) => Stamps(r) == (true, Some(now), Some(ref))
  }

  /** The loop after its current row. */
  predicate GoesOn(todo: seq<Listed>, filer: Filer) {
    if |todo| > 1 && Buildable(todo[1].key) then filer.Filing? && filer.todo == todo[1..] else filer.Idle?
  }

  lemma OnwardCompose(s: State, t: State, u: State)
    requires Onward(s, t) && Onward(t, u)
    ensures Onward(s, u)
  {
  }

  lemma LoopGoesOn(threshold: int, s: State, outcome: Filed, now: int)
    requires Inv(threshold, s) && s.filer.Filing?
    ensures GoesOn(s.filer.todo, Step(threshold, s, FileNext(outcome, now)).filer)
  {
    if |s.filer.todo| > 1 {
      assert s.filer.todo[1..][0] == s.filer.todo[1];
    }
  }

  lemma AnswerStamps(rows: map<Key, Row>, mid: map<Key, Row>, l: Listed, outcome: Filed, now: int)
    requires SameStamps(rows, mid) && l.key in rows && Stamps(l.row) == Stamps(rows[l.key])
    ensures var t := if outcome.Fails? then mid else mid[l.key := Stamp(l.row, outcome, now)];
            && l.key in t && Fate(outcome, now, rows[l.key], t[l.key]) && SameStamps(rows - {l.key}, t)
  {
  }

  lemma AnswerLands(threshold: int, s: State, mid: State, outcome: Filed, now: int)
    requires Inv(threshold, s) && Inv(threshold, mid) && SameLoop(s.filer, mid.filer) && s.filer.Filing?
    requires Onward(s, mid) && SameStamps(s.rows, mid.rows)
    ensures var t := Step(threshold, mid, FileNext(outcome, now));
            var k := s.filer.todo[0].key;
            && Inv(threshold, t) && Onward(s, t) && GoesOn(s.filer.todo, t.filer)
            && k in s.rows && k in t.rows && Fate(outcome, now, s.rows[k], t.rows[k]) && SameStamps(s.rows - {k}, t.rows)
  {
    FileNextKeeps(threshold, mid, outcome, now);
    OnwardCompose(s, mid, Step(threshold, mid, FileNext(outcome, now)));
    LoopGoesOn(threshold, mid, outcome, now);
    AnswerStamps(s.rows, mid.rows, s.filer.todo[0], outcome, now);
  }

  /** The rows of the list that the portal has accepted, as filed. */
  function Accepted(todo: seq<Listed>, outcomes: Key -> Filed, clock: Key -> int): seq<Listed> {
    if todo == [] then []
    else
      var l := todo[|todo| - 1];
      Accepted(todo[..|todo| - 1], outcomes, clock) + AcceptedOne(l, outcomes(l.key), clock(l.key))
  }

  function AcceptedOne(l: Listed, outcome: Filed, now: int): seq<Listed> {
    if outcome.Submitted? then [Listed(l.key, Stamp(l.row, outcome, now))] else []
  }

  lemma AcceptedNext(todo: seq<Listed>, i: nat, outcomes: Key -> Filed, clock: Key -> int)
    requires i < |todo|
    ensures Accepted(todo[..i + 1], outcomes, clock) ==
            Accepted(todo[..i], outcomes, clock) + AcceptedOne(todo[i], outcomes(todo[i].key), clock(todo[i].key))
  {
    assert todo[..i + 1][..i] == todo[..i];
  }

  ghost predicate PartlyAggregated(rows: map<Key, Row>, rows1: map<Key, Row>, bs: Buckets, day: Date, threshold: int,
                                   now: int, keys: seq<Key>)
  {
    && (forall k :: k in rows1 <==> k in rows || (k in keys && k.day == day))
    && (forall k :: k in rows1 && k in keys && k.day == day ==>
          k in bs && rows1[k] == RowOf(bs[k], Lookup(rows, k), threshold, now))
    && (forall k :: k in rows1 && !(k in keys && k.day == day) ==> rows1[k] == rows[k])
  }

  lemma AggregateOne(rows: map<Key, Row>, rows1: map<Key, Row>, bs: Buckets, day: Date, threshold: int, now: int,
                     keys: seq<Key>, key: Key)
    requires PartlyAggregated(rows, rows1, bs, day, threshold, now, keys) && key !in keys && key in bs
    ensures Lookup(rows1, key) == Lookup(rows, key)
    ensures PartlyAggregated(rows,
                             if key.day == day then rows1[key := RowOf(bs[key], Lookup(rows1, key), threshold, now)] else rows1,
                             bs, day, threshold, now, keys + [key])
  {
    assert forall k :: k in keys + [key] <==> k in keys || k == key;
  }

  lemma AllAggregated(rows: map<Key, Row>, rows1: map<Key, Row>, bs: Buckets, day: Date, threshold: int, now: int, keys: seq<Key>)
    requires forall k :: k in keys <==> k in bs.Keys
    requires PartlyAggregated(rows, rows1, bs, day, threshold, now, keys)
    ensures rows1 == Aggregated(rows, bs, day, threshold, now)
  {
  }

  /** The loop of the daily aggregation: one row per bucket of the day, in key order. */
  method AggregateDay(rows: map<Key, Row>, buckets: Buckets, day: Date, threshold: int, now: int)
    returns (table: map<Key, Row>)
    ensures table == Aggregated(rows, buckets, day, threshold, now)
  {
    var keys := SortedKeys(buckets.Keys);
    table := rows;
    var i := 0;
    assert keys[..0] == [];
    while i < |keys|
      invariant 0 <= i <= |keys|
      invariant PartlyAggregated(rows, table, buckets, day, threshold, now, keys[..i])
    {
      var key := keys[i];
      assert key in keys && key !in keys[..i];
      TakeNext(keys, i);
      AggregateOne(rows, table, buckets, day, threshold, now, keys[..i], key);
      if key.day == day {
        var existing := Lookup(table, key);
        table := table[key := RowOf(buckets[key], existing, threshold, now)];
      }
      i := i + 1;
    }
    TakeWhole(keys);
    AllAggregated(rows, table, buckets, day, threshold, now, keys);
  }

  /** The loop has passed the first n rows of its list: these have met their fate, all others keep their stamps. */
  ghost predicate PartlyFiled(was: map<Key, Row>, rows: map<Key, Row>, todo: seq<Listed>, n: nat,
                              outcomes: Key -> Filed, clock: Key -> int)
    requires n <= |todo|
  {
    && (forall j, k :: 0 <= j < k < |todo| ==> todo[j].key != todo[k].key)
    && (forall j :: 0 <= j < |todo| ==> todo[j].key in was && todo[j].key in rows)
    && (forall j :: 0 <= j < n ==>
          Fate(outcomes(todo[j].key), clock(todo[j].key), was[todo[j].key], rows[todo[j].key]))
    && (forall k :: k in was && (forall j :: 0 <= j < n ==> todo[j].key != k) ==> k in rows && Stamps(rows[k]) == Stamps(was[k]))
  }

  lemma OneMoreFiled(was: map<Key, Row>, before: map<Key, Row>, rows: map<Key, Row>, todo: seq<Listed>, i: nat,
                     outcomes: Key -> Filed, clock: Key -> int)
    requires i < |todo| && PartlyFiled(was, before, todo, i, outcomes, clock)
    requires todo[i].key in rows && Fate(outcomes(todo[i].key), clock(todo[i].key), before[todo[i].key], rows[todo[i].key])
    requires SameStamps(before - {todo[i].key}, rows)
    ensures PartlyFiled(was, rows, todo, i + 1, outcomes, clock)
  {
    assert Stamps(before[todo[i].key]) == Stamps(was[todo[i].key]);
    forall j | 0 <= j < |todo| && j != i ensures todo[j].key in rows && Stamps(rows[todo[j].key]) == Stamps(before[todo[j].key]) {
      assert todo[j].key in before - {todo[i].key};
    }
    forall k | k in was && forall j :: 0 <= j < i + 1 ==> todo[j].key != k
      ensures k in rows && Stamps(rows[k]) == Stamps(was[k])
    {
      assert todo[i].key != k;
      assert k in before - {todo[i].key};
    }
  }

  lemma NoneFiled(rows: map<Key, Row>, outcomes: Key -> Filed, clock: Key -> int)
    ensures PartlyFiled(rows, rows, Pending(rows), 0, outcomes, clock)
  {
    PendingLists(rows);
  }

  /** Every row pending at the start has met its fate, all others keep their stamps. */
  ghost predicate AllFiled(was: map<Key, Row>, rows: map<Key, Row>, outcomes: Key -> Filed, clock: Key -> int) {
    forall k :: k in was ==>
      && k in rows
      && if Crossed(was[k]) && !was[k].filed then Fate(outcomes(k), clock(k), was[k], rows[k])
         else Stamps(rows[k]) == Stamps(was[k])
  }

  lemma ListIsDone(was: map<Key, Row>, rows: map<Key, Row>, outcomes: Key -> Filed, clock: Key -> int)
    requires PartlyFiled(was, rows, Pending(was), |Pending(was)|, outcomes, clock)
    ensures AllFiled(was, rows, outcomes, clock)
  {
    PendingLists(was);
    var todo := Pending(was);
    forall k | k in was && Crossed(was[k]) && !was[k].filed
      ensures k in rows && Fate(outcomes(k), clock(k), was[k], rows[k])
    {
      var j :| 0 <= j < |todo| && todo[j] == Listed(k, was[k]);
    }
  }

  lemma StopsExactlyAtUnbuildable(rows: map<Key, Row>)
    ensures Stop(Pending(rows)) == |Pending(rows)| <==>
            forall k :: k in rows && Crossed(rows[k]) && !rows[k].filed ==> Buildable(k)
  {
    PendingLists(rows);
    var p := Pending(rows);
    forall k | k in rows && Crossed(rows[k]) && !rows[k].filed ensures exists i :: 0 <= i < |p| && p[i].key == k {
      var i :| 0 <= i < |p| && p[i] == Listed(k, rows[k]);
    }
  }

  class CtrBatch {
    const threshold: int
    var buckets: Buckets
    var rows: map<Key, Row>
    ghost var filer: Filer
    ghost var told: map<Key, Payload>
    ghost var refused: set<Key>

    /** The source refuses a threshold that is not positive. */
    constructor (threshold: int)
      requires threshold > 0
      ensures this.threshold == threshold && Value() == INITIAL
    {
      this.threshold := threshold;
      buckets, rows, filer, told, refused := map[], map[], Idle, map[], {};
    }

    ghost function Value(): State
      reads this
    {
      State(buckets, rows, filer, told, refused)
    }

    method IntakeCashEvent(id: string, account: string, direction: Direction, amount: Option<int>, channel: Channel, at: Instant)
      returns (reply: Reply)
      modifies this
      ensures var e := Event(id, account, direction, amount, channel, DhakaReportDate(at));
              reply == Answer(old(buckets), e) && Value() == Step(threshold, old(Value()), Intake(e))
    {
      reply := TakeEvent(Event(id, account, direction, amount, channel, DhakaReportDate(at)));
    }

    method TakeEvent(e: Event) returns (reply: Reply)
      modifies this
      ensures reply == Answer(old(buckets), e)
      ensures Value() == Step(threshold, old(Value()), Intake(e))
    {
      if e.channel != CASH_AGENT && e.channel != CASH_ATM {
        return if e.channel == UnknownChannel then BadChannel else Ignored;
      }
      if e.direction == OtherDirection {
        return BadDirection;
      }
      if e.amount.None? || e.amount.value <= 0 {
        return BadAmount;
      }
      var key := KeyOf(e);
      var bucket := if key in buckets then buckets[key] else EMPTY_BUCKET;
      if e.id in bucket.ids {
        buckets := buckets[key := bucket];
        return Ignored;
      }
      bucket := bucket.(ids := bucket.ids + {e.id});
      if e.direction == CREDIT {
        bucket := bucket.(cashIn := bucket.cashIn + e.amount.value);
      } else {
        bucket := bucket.(cashOut := bucket.cashOut + e.amount.value);
      }
      bucket := bucket.(count := bucket.count + 1);
      buckets := buckets[key := bucket];
      return Counted;
    }

    method RunDailyAggregation(day: Date, now: int)
      modifies this
      ensures Value() == Step(threshold, old(Value()), Aggregate(day, now))
    {
      rows := AggregateDay(rows, buckets, day, threshold, now);
    }

    /** While the connector is called: any number of intakes, aggregations and rejections. */
    method Suspend()
      modifies this
      ensures OthersRan(threshold, old(Value()), Value())
    {
      assert Value() == Run(threshold, Value(), []);
    }

    method AwaitConnector()
      requires Inv(threshold, Value())
      modifies this
      ensures Inv(threshold, Value()) && OthersRan(threshold, old(Value()), Value())
      ensures SameLoop(old(filer), filer) && told == old(told) && Onward(old(Value()), Value()) && SameStamps(old(rows), rows)
    {
      ghost var s := Value();
      Suspend();
      ghost var ops: seq<Op> :| (forall i :: 0 <= i < |ops| ==> ByOthers(ops[i])) && Value() == Run(threshold, s, ops);
      OthersLeaveTheLoop(threshold, s, ops);
      RunKeeps(threshold, s, ops);
    }

    method WriteAnswer(listed: Listed, outcome: Filed, now: int)
      requires filer.Filing? && filer.todo != [] && filer.todo[0] == listed
      modifies this
      ensures Value() == Step(threshold, old(Value()), FileNext(outcome, now))
    {
      ghost var s := Value();
      if !outcome.Fails? {
        var row := listed.row.(goamlRef := Some(outcome.ref));
        if outcome.Submitted? {
          row := row.(filed := true, filedAt := Some(now));
        }
        rows := rows[listed.key := row];
      }
      told, refused := Told(s, outcome), Refused(s, outcome);
      filer := Turn(rows, told, refused, s.filer.todo[1..]);
    }

    /** Files one listed row; the answer is written over the row as listed. */
    method FileOne(listed: Listed, outcome: Filed, now: int)
      requires Inv(threshold, Value()) && filer.Filing? && filer.todo[0] == listed
      modifies this
      ensures Inv(threshold, Value()) && Onward(old(Value()), Value())
      ensures Answered(threshold, old(Value()), outcome, now, Value())
      ensures GoesOn(old(filer).todo, filer)
      ensures listed.key in rows && Fate(outcome, now, old(rows)[listed.key], rows[listed.key])
      ensures SameStamps(old(rows) - {listed.key}, rows)
    {
      AwaitConnector();
      ghost var s := Value();
      AnswerLands(threshold, old(Value()), s, outcome, now);
      WriteAnswer(listed, outcome, now);
    }

    method ListPending() returns (todo: seq<Listed>)
      requires Inv(threshold, Value()) && filer.Idle?
      modifies this`filer
      ensures Inv(threshold, Value()) && todo == Pending(rows)
      ensures if todo == [] || !Buildable(todo[0].key) then filer.Idle? else filer.Filing? && filer.todo == todo
    {
      BeginKeeps(threshold, Value());
      todo := Pending(rows);
      filer := Turn(rows, told, refused, todo);
      assert Value() == Step(threshold, old(Value()), FileBegin);
    }

    /** One round of the loop below. */
    method FileListed(todo: seq<Listed>, i: nat, outcomes: Key -> Filed, clock: Key -> int, ghost was: map<Key, Row>)
      requires Inv(threshold, Value()) && i < Stop(todo) && filer.Filing? && filer.todo == todo[i..]
      requires PartlyFiled(was, rows, todo, i, outcomes, clock)
      modifies this
      ensures Inv(threshold, Value()) && Onward(old(Value()), Value())
      ensures if i + 1 < Stop(todo) then filer.Filing? && filer.todo == todo[i + 1..] else filer.Idle?
      ensures PartlyFiled(was, rows, todo, i + 1, outcomes, clock)
    {
      DropNext(todo, i);
      FileOne(todo[i], outcomes(todo[i].key), clock(todo[i].key));
      OneMoreFiled(was, old(rows), rows, todo, i, outcomes, clock);
    }

    /** Files the crossed, unfiled rows listed at the start and returns those the portal has accepted. A connector error
        leaves the row queued for the next run; a row whose payload cannot be built raises, and the rest stay as they were. */
    method FilePending(outcomes: Key -> Filed, clock: Key -> int) returns (filed: Option<seq<Listed>>)
      requires Inv(threshold, Value()) && filer.Idle?
      modifies this
      ensures Inv(threshold, Value()) && filer.Idle? && Onward(old(Value()), Value())
      ensures PartlyFiled(old(rows), rows, Pending(old(rows)), Stop(Pending(old(rows))), outcomes, clock)
      ensures filed.Some? <==> forall k :: k in old(rows) && Crossed(old(rows)[k]) && !old(rows)[k].filed ==> Buildable(k)
      ensures filed.Some? ==> AllFiled(old(rows), rows, outcomes, clock)
      ensures filed.Some? ==> filed.value == Accepted(Pending(old(rows)), outcomes, clock)
    {
      var todo := ListPending();
      NoneFiled(rows, outcomes, clock);
      StopsExactlyAtUnbuildable(rows);
      var done := [];
      var i := 0;
      while i < |todo|
        invariant 0 <= i <= Stop(todo)
        invariant Inv(threshold, Value())
        invariant if i < Stop(todo) then filer.Filing? && filer.todo == todo[i..] else filer.Idle?
        invariant Onward(old(Value()), Value())
        invariant PartlyFiled(old(rows), rows, todo, i, outcomes, clock)
        invariant done == Accepted(todo[..i], outcomes, clock)
      {
        var listed := todo[i];
        if !Buildable(listed.key) {
          return None;
        }
        AcceptedNext(todo, i, outcomes, clock);
        FileListed(todo, i, outcomes, clock, old(rows));
        done := done + AcceptedOne(listed, outcomes(listed.key), clock(listed.key));
        i := i + 1;
      }
      TakeWhole(todo);
      ListIsDone(old(rows), rows, outcomes, clock);
      filed := Some(done);
    }
  }
}

/**
 Cash transaction report aggregation (bdpay/compliance/ctr.py) within one process.

 Events arrive at least once and in any order. A day bucket remembers the event ids it has counted; a row is derived from a
 bucket by the daily aggregation and stamped by the filing loop, whose only suspension point is the connector call.
 */
module Ctr {
  import opened Common
  import opened ReportDates

  datatype Direction = CREDIT | DEBIT | OtherDirection

  datatype Channel = CASH_AGENT | CASH_ATM | DIGITAL_TRANSFER | MERCHANT_PAYMENT | SALARY_DISBURSEMENT | UnknownChannel

  /** One delivery, on the Dhaka calendar day of its timestamp; `amount` is None when it is not an integer number of paisa. */
  datatype Event = Event(id: string, account: string, direction: Direction, amount: Option<int>, channel: Channel, day: Date)

  datatype Key = Key(account: string, day: Date)

  datatype Bucket = Bucket(cashIn: int, cashOut: int, count: nat, ids: set<string>)

  datatype Reply = Counted | Ignored | BadChannel | BadDirection | BadAmount

  const EMPTY_BUCKET := Bucket(0, 0, 0, {})

  // ------------------------------------------------------------------ intake

  predicate Cash(c: Channel) {
    c == CASH_AGENT || c == CASH_ATM
  }

  /** A delivery that the intake accepts as a cash movement. */
  predicate Movement(e: Event) {
    Cash(e.channel) && e.direction != OtherDirection && e.amount.Some? && e.amount.value > 0
  }

  function KeyOf(e: Event): Key {
    Key(e.account, e.day)
  }

  type Buckets = map<Key, Bucket>

  function BucketOf(bs: Buckets, k: Key): Bucket {
    if k in bs then bs[k] else EMPTY_BUCKET
  }

  function Answer(bs: Buckets, e: Event): Reply {
    if !Cash(e.channel) then (if e.channel == UnknownChannel then BadChannel else Ignored)
    else if e.direction == OtherDirection then BadDirection
    else if e.amount.None? || e.amount.value <= 0 then BadAmount
    else if e.id in BucketOf(bs, KeyOf(e)).ids then Ignored
    else Counted
  }

  function Add(b: Bucket, e: Event): Bucket
    requires Movement(e)
  {
    if e.id in b.ids then b
    else if e.direction == CREDIT then Bucket(b.cashIn + e.amount.value, b.cashOut, b.count + 1, b.ids + {e.id})
    else Bucket(b.cashIn, b.cashOut + e.amount.value, b.count + 1, b.ids + {e.id})
  }

  function Take(bs: Buckets, e: Event): Buckets {
    if Movement(e) then bs[KeyOf(e) := Add(BucketOf(bs, KeyOf(e)), e)] else bs
  }

  function TakeAll(es: seq<Event>): Buckets
    decreases |es|
  {
    if es == [] then map[] else Take(TakeAll(es[..|es| - 1]), es[|es| - 1])
  }

  // ------------------------------------------------------------------ what a bucket should hold

  /** The movement counted for each event id of one account and day. */
  function Counts(es: seq<Event>, k: Key): map<string, Event>
    decreases |es|
  {
    if es == [] then map[]
    else
      var before := Counts(es[..|es| - 1], k);
      var e := es[|es| - 1];
      if Movement(e) && KeyOf(e) == k && e.id !in before then before[e.id := e] else before
  }

  function Worth(e: Event, d: Direction): int {
    if e.direction == d && e.amount.Some? then e.amount.value else 0
  }

  ghost function Sum(m: map<string, Event>, d: Direction): int
    decreases |m|
  {
    if m == map[] then 0
    else
      var id :| id in m;
      Worth(m[id], d) + Sum(m - {id}, d)
  }

  lemma {:induction false} SumPick(m: map<string, Event>, d: Direction, id: string)
    requires id in m
    ensures Sum(m, d) == Worth(m[id], d) + Sum(m - {id}, d)
    decreases |m|
  {
    var x :| x in m && Sum(m, d) == Worth(m[x], d) + Sum(m - {x}, d);
    if x != id {
      SumPick(m - {x}, d, id);
      SumPick(m - {id}, d, x);
      assert m - {x} - {id} == m - {id} - {x};
    }
  }

  lemma SumAdds(m: map<string, Event>, dir: Direction, e: Event)
    requires e.id !in m
    ensures Sum(m[e.id := e], dir) == Sum(m, dir) + Worth(e, dir)
  {
    var m1 := m[e.id := e];
    SumPick(m1, dir, e.id);
    assert m1 - {e.id} == m;
  }

  /** A bucket holds, per direction, the sum over its distinct events, and their number. */
  lemma {:induction false} BucketIsSumOfDistinct(es: seq<Event>, k: Key)
    ensures var b := BucketOf(TakeAll(es), k);
            var m := Counts(es, k);
            && b.ids == m.Keys && b.count == |m|
            && b.cashIn == Sum(m, CREDIT) && b.cashOut == Sum(m, DEBIT)
            && (k in TakeAll(es) <==> m != map[])
    decreases |es|
  {
    if es != [] {
      var p := es[..|es| - 1];
      var e := es[|es| - 1];
      BucketIsSumOfDistinct(p, k);
      var m := Counts(p, k);
      if Movement(e) && KeyOf(e) == k && e.id !in m {
        SumAdds(m, CREDIT, e);
        SumAdds(m, DEBIT, e);
      }
    }
  }

  // ------------------------------------------------------------------ at-least-once delivery in any order

  /** Within one account and day, an event id names one movement. */
  ghost predicate IdsDetermine(es: seq<Event>) {
    forall i, j | 0 <= i < |es| && 0 <= j < |es| && Movement(es[i]) && Movement(es[j]) ::
      KeyOf(es[i]) == KeyOf(es[j]) && es[i].id == es[j].id ==> SameMovement(es[i], es[j])
  }

  /** Up to the fields a bucket does not read. */
  predicate SameMovement(a: Event, b: Event) {
    a.direction == b.direction && a.amount == b.amount
  }

  /** A cash event: over an agent or a machine, in or out, of a positive number of paisa. */
  predicate CashEvent(e: Event) {
    && (e.channel == CASH_AGENT || e.channel == CASH_ATM) && (e.direction == CREDIT || e.direction == DEBIT)
    && e.amount.Some? && e.amount.value > 0
  }

  /** A cash event with this id was delivered for this account and day. */
  ghost predicate Delivered(es: seq<Event>, k: Key, id: string) {
    exists i :: 0 <= i < |es| && CashEvent(es[i]) && es[i].account == k.account && es[i].day == k.day && es[i].id == id
  }

  lemma {:induction false} CountsAreDelivered(es: seq<Event>, k: Key, id: string)
    ensures id in Counts(es, k) <==> Delivered(es, k, id)
    ensures id in Counts(es, k) ==>
              exists i :: 0 <= i < |es| && CashEvent(es[i]) && KeyOf(es[i]) == k && es[i].id == id && Counts(es, k)[id] == es[i]
    decreases |es|
  {
    if es != [] {
      var p := es[..|es| - 1];
      var e := es[|es| - 1];
      CountsAreDelivered(p, k, id);
      if id in Counts(p, k) {
        var i :| 0 <= i < |p| && CashEvent(p[i]) && KeyOf(p[i]) == k && p[i].id == id && Counts(p, k)[id] == p[i];
        assert es[i] == p[i];
      } else {
        assert forall i :: 0 <= i < |p| ==> p[i] == es[i];
        assert forall i :: 0 <= i < |p| ==> !(CashEvent(p[i]) && p[i].account == k.account && p[i].day == k.day && p[i].id == id);
      }
    }
  }

  /** After any deliveries, the caller is told exactly what became of the next: a channel nobody knows, a direction that is
      neither in nor out, an amount that is no positive number, a movement counted, and otherwise that it was ignored: no cash, or
      delivered before. */
  lemma RepliesExactly(es: seq<Event>, e: Event)
    ensures var reply := Answer(TakeAll(es), e);
            && (reply == BadChannel <==> e.channel == UnknownChannel)
            && (reply == BadDirection <==> (e.channel == CASH_AGENT || e.channel == CASH_ATM) && e.direction == OtherDirection)
            && (reply == BadAmount <==> (e.channel == CASH_AGENT || e.channel == CASH_ATM) && e.direction != OtherDirection
                                        && (e.amount.None? || e.amount.value <= 0))
            && (reply == Counted <==> CashEvent(e) && !Delivered(es, Key(e.account, e.day), e.id))
  {
    BucketIsSumOfDistinct(es, KeyOf(e));
    CountsAreDelivered(es, KeyOf(e), e.id);
  }

  ghost predicate Equivalent(m: map<string, Event>, n: map<string, Event>) {
    m.Keys == n.Keys && forall id :: id in m ==> SameMovement(m[id], n[id])
  }

  lemma {:induction false} EquivalentSums(m: map<string, Event>, n: map<string, Event>, d: Direction)
    requires Equivalent(m, n)
    ensures Sum(m, d) == Sum(n, d) && |m| == |n|
    decreases |m|
  {
    if m == map[] {
      assert n == map[];
    } else {
      var id :| id in m;
      SumPick(m, d, id);
      SumPick(n, d, id);
      EquivalentSums(m - {id}, n - {id}, d);
    }
  }

  /** The same events delivered in any order and any number of times give identical buckets, provided an event id names one
      movement per account and day. */
  lemma DeliveryOrderDoesNotMatter(es: seq<Event>, fs: seq<Event>)
    requires IdsDetermine(es + fs)
    requires forall e :: e in es <==> e in fs
    ensures TakeAll(es) == TakeAll(fs)
  {
    forall k ensures BucketOf(TakeAll(es), k) == BucketOf(TakeAll(fs), k) && (k in TakeAll(es) <==> k in TakeAll(fs)) {
      SameCounts(es, fs, k);
      BucketIsSumOfDistinct(es, k);
      BucketIsSumOfDistinct(fs, k);
      EquivalentSums(Counts(es, k), Counts(fs, k), CREDIT);
      EquivalentSums(Counts(es, k), Counts(fs, k), DEBIT);
    }
    assert forall k :: k in TakeAll(es) ==> TakeAll(es)[k] == BucketOf(TakeAll(es), k);
    assert forall k :: k in TakeAll(fs) ==> TakeAll(fs)[k] == BucketOf(TakeAll(fs), k);
  }

  lemma DeliveredEverywhere(es: seq<Event>, fs: seq<Event>, k: Key, id: string)
    requires forall e :: e in es ==> e in fs
    requires Delivered(es, k, id)
    ensures Delivered(fs, k, id)
  {
    var i :| 0 <= i < |es| && CashEvent(es[i]) && es[i].account == k.account && es[i].day == k.day && es[i].id == id;
    assert es[i] in fs;
    var j :| 0 <= j < |fs| && fs[j] == es[i];
  }

  lemma SameCounts(es: seq<Event>, fs: seq<Event>, k: Key)
    requires IdsDetermine(es + fs)
    requires forall e :: e in es <==> e in fs
    ensures Equivalent(Counts(es, k), Counts(fs, k))
  {
    forall id ensures id in Counts(es, k) <==> id in Counts(fs, k) {
      CountsAreDelivered(es, k, id);
      CountsAreDelivered(fs, k, id);
      if Delivered(es, k, id) {
        DeliveredEverywhere(es, fs, k, id);
      }
      if Delivered(fs, k, id) {
        DeliveredEverywhere(fs, es, k, id);
      }
    }
    forall id | id in Counts(es, k) ensures SameMovement(Counts(es, k)[id], Counts(fs, k)[id]) {
      CountsAreDelivered(es, k, id);
      CountsAreDelivered(fs, k, id);
      var i :| 0 <= i < |es| && CashEvent(es[i]) && KeyOf(es[i]) == k && es[i].id == id && Counts(es, k)[id] == es[i];
      var j :| 0 <= j < |fs| && CashEvent(fs[j]) && KeyOf(fs[j]) == k && fs[j].id == id && Counts(fs, k)[id] == fs[j];
      assert (es + fs)[i] == es[i] && (es + fs)[|es| + j] == fs[j];
    }
  }

  /** The proviso is exact: two new movements commute unless they share a bucket and an id but differ. */
  lemma SwapMattersExactlyOnConflict(bs: Buckets, e: Event, f: Event)
    requires Movement(e) && Movement(f)
    requires e.id !in BucketOf(bs, KeyOf(e)).ids && f.id !in BucketOf(bs, KeyOf(f)).ids
    ensures Take(Take(bs, e), f) == Take(Take(bs, f), e)
            <==> KeyOf(e) != KeyOf(f) || e.id != f.id || SameMovement(e, f)
  {
    var ef, fe := Take(Take(bs, e), f), Take(Take(bs, f), e);
    if KeyOf(e) == KeyOf(f) {
      assert ef == bs[KeyOf(e) := ef[KeyOf(e)]] && fe == bs[KeyOf(e) := fe[KeyOf(e)]];
      if e.id != f.id {
        assert BucketOf(bs, KeyOf(e)).ids + {e.id} + {f.id} == BucketOf(bs, KeyOf(e)).ids + {f.id} + {e.id};
      }
    } else {
      assert ef == fe;
    }
  }
}

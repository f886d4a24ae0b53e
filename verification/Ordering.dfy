/** Python's `sorted` on keys: strict total orders, string comparison and the one ascending list of a finite set. */
module Ordering {

  ghost predicate StrictTotal<T(!new)>(less: (T, T) -> bool) {
    && (forall a :: !less(a, a))
    && (forall a, b :: a != b ==> less(a, b) || less(b, a))
    && (forall a, b, c :: less(a, b) && less(b, c) ==> less(a, c))
  }

  predicate Ascending<T>(less: (T, T) -> bool, s: seq<T>) {
    forall i, j :: 0 <= i < j < |s| ==> less(s[i], s[j])
  }

  function Elements<T>(s: seq<T>): set<T> {
    set x | x in s
  }

  lemma {:induction false} LeastExists<T(!new)>(less: (T, T) -> bool, keys: set<T>)
    requires StrictTotal(less) && keys != {}
    ensures exists m :: m in keys && forall k :: k in keys && k != m ==> less(m, k)
    decreases |keys|
  {
    var x :| x in keys;
    var rest := keys - {x};
    if rest == {} {
      assert keys == {x};
    } else {
      LeastExists(less, rest);
      var m :| m in rest && forall k :: k in rest && k != m ==> less(m, k);
      var best := if less(x, m) then x else m;
      forall k | k in keys && k != best ensures less(best, k) {
        if k != x && k != m {
          assert k in rest;
        }
      }
    }
  }

  /** `sorted(keys)`: every key once, in ascending order. */
  function Sorted<T(!new)>(less: (T, T) -> bool, keys: set<T>): (s: seq<T>)
    requires StrictTotal(less)
    ensures Ascending(less, s)
    ensures Elements(s) == keys && |s| == |keys|
    decreases |keys|
  {
    if keys == {} then []
    else
      LeastExists(less, keys);
      var m :| m in keys && forall k :: k in keys && k != m ==> less(m, k);
      PrependLeast(less, keys, m, Sorted(less, keys - {m}));
      [m] + Sorted(less, keys - {m})
  }

  lemma PrependLeast<T>(less: (T, T) -> bool, keys: set<T>, m: T, rest: seq<T>)
    requires m in keys && forall k :: k in keys && k != m ==> less(m, k)
    requires Ascending(less, rest) && Elements(rest) == keys - {m}
    ensures Ascending(less, [m] + rest) && Elements([m] + rest) == keys
  {
    assert forall i :: 0 <= i < |rest| ==> rest[i] in Elements(rest);
    assert forall x :: x in Elements(rest) <==> x in rest;
    assert forall x :: x in keys <==> x == m || x in Elements(rest);
  }

  /** An ascending list is determined by its set of elements. */
  lemma {:induction false} AscendingIsUnique<T(!new)>(less: (T, T) -> bool, a: seq<T>, b: seq<T>)
    requires StrictTotal(less)
    requires Ascending(less, a) && Ascending(less, b) && Elements(a) == Elements(b)
    ensures a == b
    decreases |a|
  {
    assert forall i :: 0 <= i < |b| ==> b[i] in Elements(b);
    if a != [] {
      assert a[0] in Elements(b) && b != [];
      assert b[0] in Elements(a);
      var i :| 0 <= i < |b| && b[i] == a[0];
      var j :| 0 <= j < |a| && a[j] == b[0];
      assert a[0] == b[0];
      TailElements(less, a);
      TailElements(less, b);
      AscendingIsUnique(less, a[1..], b[1..]);
      assert a == [a[0]] + a[1..] && b == [b[0]] + b[1..];
    } else if b != [] {
      FirstIsElement(b);
    }
  }

  lemma FirstIsElement<T>(s: seq<T>)
    requires s != []
    ensures Elements(s) != {}
  {
    assert s[0] in Elements(s);
  }

  lemma TailElements<T(!new)>(less: (T, T) -> bool, s: seq<T>)
    requires StrictTotal(less) && Ascending(less, s) && s != []
    ensures Elements(s[1..]) == Elements(s) - {s[0]}
  {
    assert s == [s[0]] + s[1..];
    assert s[0] !in s[1..];
  }

  // ------------------------------------------------------------------ strings

  /** Python's `<` on str. */
  predicate StringLess(a: string, b: string) {
    b != [] && (a == [] || a[0] < b[0] || (a[0] == b[0] && StringLess(a[1..], b[1..])))
  }

  lemma {:induction false} StringLessConnected(a: string, b: string)
    requires a != b
    ensures StringLess(a, b) || StringLess(b, a)
  {
    if a != [] && b != [] && a[0] == b[0] {
      assert a == [a[0]] + a[1..] && b == [b[0]] + b[1..];
      StringLessConnected(a[1..], b[1..]);
    }
  }

  lemma {:induction false} StringLessIrreflexive(a: string)
    ensures !StringLess(a, a)
  {
    if a != [] {
      StringLessIrreflexive(a[1..]);
    }
  }

  lemma {:induction false} StringLessTransitive(a: string, b: string, c: string)
    requires StringLess(a, b) && StringLess(b, c)
    ensures StringLess(a, c)
  {
    if a != [] && a[0] == b[0] && b[0] == c[0] {
      StringLessTransitive(a[1..], b[1..], c[1..]);
    }
  }

  lemma StringLessIsStrictTotal()
    ensures StrictTotal(StringLess)
  {
    forall a: string ensures !StringLess(a, a) {
      StringLessIrreflexive(a);
    }
    forall a: string, b: string | a != b ensures StringLess(a, b) || StringLess(b, a) {
      StringLessConnected(a, b);
    }
    forall a: string, b: string, c: string | StringLess(a, b) && StringLess(b, c) ensures StringLess(a, c) {
      StringLessTransitive(a, b, c);
    }
  }

  /** `sorted(keys)` on a set of strings. */
  function SortedStrings(keys: set<string>): (s: seq<string>)
    ensures Ascending(StringLess, s) && Elements(s) == keys && |s| == |keys|
  {
    StringLessIsStrictTotal();
    Sorted(StringLess, keys)
  }

  // ------------------------------------------------------------------ lists of strings

  /** `sorted` on a list of strings, repeats kept. */
  function SortStrings(s: seq<string>): seq<string> {
    if s == [] then [] else Insert(s[0], SortStrings(s[1..]))
  }

  function Insert(x: string, s: seq<string>): seq<string> {
    if s == [] || !StringLess(s[0], x) then [x] + s else [s[0]] + Insert(x, s[1..])
  }

  ghost predicate NonDescending(s: seq<string>) {
    forall i, j :: 0 <= i < j < |s| ==> !StringLess(s[j], s[i])
  }

  lemma NotLessTransitive(a: string, b: string, c: string)
    requires !StringLess(b, a) && !StringLess(c, b)
    ensures !StringLess(c, a)
  {
    if StringLess(c, a) {
      StringLessConnected(a, b);
      StringLessTransitive(c, a, b);
    }
  }

  lemma StringLessIsOneWay(a: string, b: string)
    requires StringLess(a, b)
    ensures !StringLess(b, a)
  {
    StringLessIrreflexive(a);
    if StringLess(b, a) {
      StringLessTransitive(a, b, a);
    }
  }

  lemma PrependSorted(x: string, s: seq<string>)
    requires NonDescending(s) && forall j :: 0 <= j < |s| ==> !StringLess(s[j], x)
    ensures NonDescending([x] + s)
  {
  }

  lemma {:induction false} InsertCounts(x: string, s: seq<string>)
    ensures multiset(Insert(x, s)) == multiset{x} + multiset(s)
    decreases |s|
  {
    if s != [] && StringLess(s[0], x) {
      InsertCounts(x, s[1..]);
      assert s == [s[0]] + s[1..];
    }
  }

  lemma {:induction false} InsertSorts(x: string, s: seq<string>)
    requires NonDescending(s)
    ensures NonDescending(Insert(x, s))
    decreases |s|
  {
    if s == [] || !StringLess(s[0], x) {
      forall j | 0 <= j < |s| ensures !StringLess(s[j], x) {
        StringLessIrreflexive(s[0]);
        NotLessTransitive(x, s[0], s[j]);
      }
      PrependSorted(x, s);
    } else {
      var t := Insert(x, s[1..]);
      InsertSorts(x, s[1..]);
      InsertCounts(x, s[1..]);
      forall j | 0 <= j < |t| ensures !StringLess(t[j], s[0]) {
        assert t[j] in multiset(t);
        if t[j] == x {
          StringLessIsOneWay(s[0], x);
        } else {
          assert t[j] in s[1..];
        }
      }
      PrependSorted(s[0], t);
    }
  }

  lemma {:induction false} SortStringsSorts(s: seq<string>)
    ensures NonDescending(SortStrings(s)) && multiset(SortStrings(s)) == multiset(s)
    decreases |s|
  {
    if s != [] {
      SortStringsSorts(s[1..]);
      InsertSorts(s[0], SortStrings(s[1..]));
      InsertCounts(s[0], SortStrings(s[1..]));
      assert s == [s[0]] + s[1..];
    }
  }

  lemma SortStringsLength(s: seq<string>)
    ensures |SortStrings(s)| == |s|
  {
    SortStringsSorts(s);
    assert |multiset(SortStrings(s))| == |SortStrings(s)| && |multiset(s)| == |s|;
  }

  lemma FirstIsLeast(s: seq<string>, x: string)
    requires NonDescending(s) && s != [] && x in multiset(s)
    ensures !StringLess(x, s[0])
  {
    StringLessIrreflexive(s[0]);
    var j :| 0 <= j < |s| && s[j] == x;
  }

  lemma HeadsAlike(a: seq<string>, b: seq<string>)
    requires NonDescending(a) && NonDescending(b) && multiset(a) == multiset(b) && a != [] && b != []
    ensures a[0] == b[0]
  {
    FirstIsLeast(a, b[0]);
    FirstIsLeast(b, a[0]);
    if a[0] != b[0] {
      StringLessConnected(a[0], b[0]);
    }
  }

  lemma TailCounts(s: seq<string>)
    requires s != []
    ensures multiset(s[1..]) == multiset(s) - multiset{s[0]}
  {
    assert s == [s[0]] + s[1..];
  }

  lemma {:induction false} SortedAlike(a: seq<string>, b: seq<string>)
    requires NonDescending(a) && NonDescending(b) && multiset(a) == multiset(b)
    ensures a == b
    decreases |a|
  {
    assert |multiset(a)| == |a| && |multiset(b)| == |b|;
    if a != [] {
      HeadsAlike(a, b);
      TailCounts(a);
      TailCounts(b);
      SortedAlike(a[1..], b[1..]);
      assert a == [a[0]] + a[1..] && b == [b[0]] + b[1..];
    }
  }
}

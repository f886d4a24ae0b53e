/**
 One-shot migration runner (docker/run_migrations.py).

 The database is the list of SQL texts executed so far and the bookkeeping table. SHA-256 is taken to be injective, so a
 text stands for its digest. A run may be cut short between two transactions (a crash, a failing SQL file: its own
 transaction rolls back); `budget` is the number of files it gets to commit.
 */
module Migrations {
  import opened Common
  import opened Ordering

  datatype Database = Database(effects: seq<string>, book: map<string, string>)

  datatype Exit = Complete | NoFiles | Refused(name: string) | Interrupted

  datatype Ended = Ended(db: Database, exit: Exit, ran: nat)

  /** The file set: name to text. */
  type Files = map<string, string>

  // ------------------------------------------------------------------ one run

  function Commit(db: Database, name: string, sql: string): Database {
    Database(db.effects + [sql], db.book[name := sql])
  }

  function Walk(db: Database, files: Files, names: seq<string>, budget: nat): Ended
    requires forall i :: 0 <= i < |names| ==> names[i] in files
    decreases |names|
  {
    if names == [] then Ended(db, Complete, 0)
    else
      var name := names[0];
      if name in db.book && db.book[name] != files[name] then Ended(db, Refused(name), 0)
      else if name in db.book then Walk(db, files, names[1..], budget)
      else if budget == 0 then Ended(db, Interrupted, 0)
      else
        var rest := Walk(Commit(db, name, files[name]), files, names[1..], budget - 1);
        rest.(ran := rest.ran + 1)
  }

  function Names(files: Files): (names: seq<string>)
    ensures forall i :: 0 <= i < |names| ==> names[i] in files
    ensures forall i, j :: 0 <= i < j < |names| ==> names[i] != names[j]
    ensures forall n :: n in files ==> n in names
    ensures |names| == |files| && Ascending(StringLess, names)
  {
    var names := SortedStrings(files.Keys);
    assert forall i :: 0 <= i < |names| ==> names[i] in Elements(names);
    assert forall n :: n in files ==> n in Elements(names);
    StringLessIsStrictTotal();
    names
  }

  /** A run that may commit at most `budget` files; |files| is enough for a complete one. */
  function Run(db: Database, files: Files, budget: nat): Ended {
    if files == map[] then Ended(db, NoFiles, 0) else Walk(db, files, Names(files), budget)
  }

  /** Any number of interrupted runs, one after the other. */
  function Runs(db: Database, files: Files, budgets: seq<nat>): Database
    decreases |budgets|
  {
    if budgets == [] then db else Run(Runs(db, files, budgets[..|budgets| - 1]), files, budgets[|budgets| - 1]).db
  }

  // ------------------------------------------------------------------ resuming

  lemma {:induction false} SkipApplied(db: Database, files: Files, names: seq<string>, budget: nat)
    requires forall i :: 0 <= i < |names| ==> names[i] in files
    requires forall i :: 0 <= i < |names| ==> names[i] in db.book && db.book[names[i]] == files[names[i]]
    ensures Walk(db, files, names, budget) == Ended(db, Complete, 0)
    decreases |names|
  {
    if names != [] {
      SkipApplied(db, files, names[1..], budget);
    }
  }

  /** Rows of the bookkeeping table are never rewritten, and names outside `names` stay as they are. */
  lemma {:induction false} BookGrows(db: Database, files: Files, names: seq<string>, budget: nat)
    requires forall i :: 0 <= i < |names| ==> names[i] in files
    ensures var db1 := Walk(db, files, names, budget).db;
            && db.effects <= db1.effects
            && (forall n :: n in db.book ==> n in db1.book && db1.book[n] == db.book[n])
            && (forall n :: n in db1.book ==> n in db.book || (n in names && n in files && db1.book[n] == files[n]))
    decreases |names|
  {
    if names != [] {
      var name := names[0];
      assert names == [name] + names[1..];
      if name in db.book {
        BookGrows(db, files, names[1..], budget);
      } else if budget > 0 {
        BookGrows(Commit(db, name, files[name]), files, names[1..], budget - 1);
      }
    }
  }

  /** A complete run after an interrupted one ends exactly where a complete run alone would have ended. */
  lemma {:induction false} WalkResumes(db: Database, files: Files, names: seq<string>, budget: nat, enough: nat)
    requires forall i :: 0 <= i < |names| ==> names[i] in files
    requires forall i, j :: 0 <= i < j < |names| ==> names[i] != names[j]
    requires enough >= |names|
    ensures var cut := Walk(db, files, names, budget);
            var all := Walk(db, files, names, enough);
            var resumed := Walk(cut.db, files, names, enough);
            resumed.db == all.db && resumed.exit == all.exit && cut.ran + resumed.ran == all.ran
    decreases |names|
  {
    if names != [] {
      var name := names[0];
      var tail := names[1..];
      if name in db.book {
        if db.book[name] == files[name] {
          WalkResumes(db, files, tail, budget, enough);
          BookGrows(db, files, tail, budget);
        }
      } else if budget > 0 {
        var db1 := Commit(db, name, files[name]);
        WalkBudget(db1, files, tail, enough - 1, enough);
        WalkResumes(db1, files, tail, budget - 1, enough);
        BookGrows(db1, files, tail, budget - 1);
      }
    }
  }

  lemma {:induction false} WalkBudget(db: Database, files: Files, names: seq<string>, a: nat, b: nat)
    requires forall i :: 0 <= i < |names| ==> names[i] in files
    requires a >= |names| && b >= |names|
    ensures Walk(db, files, names, a) == Walk(db, files, names, b)
    decreases |names|
  {
    if names != [] {
      var name := names[0];
      if name in db.book {
        WalkBudget(db, files, names[1..], a, b);
      } else {
        WalkBudget(Commit(db, name, files[name]), files, names[1..], a - 1, b - 1);
      }
    }
  }

  /** Crash tolerance: from any database, any number of runs cut short anywhere followed by one complete run give the same
      effects, bookkeeping and exit as one uninterrupted run. */
  lemma {:induction false} CrashesDoNotMatter(db: Database, files: Files, budgets: seq<nat>)
    ensures var all := Run(db, files, |files|);
            var last := Run(Runs(db, files, budgets), files, |files|);
            last.db == all.db && last.exit == all.exit
    decreases |budgets|
  {
    if budgets != [] {
      var before := budgets[..|budgets| - 1];
      CrashesDoNotMatter(db, files, before);
      if files != map[] {
        WalkResumes(Runs(db, files, before), files, Names(files), budgets[|budgets| - 1], |files|);
      }
    }
  }

  // ------------------------------------------------------------------ what a complete run does

  predicate Tampered(db: Database, files: Files, name: string) {
    name in files && name in db.book && db.book[name] != files[name]
  }

  /** The texts of the files not yet on the books, in order. */
  function Pending(db: Database, files: Files, names: seq<string>): seq<string>
    requires forall i :: 0 <= i < |names| ==> names[i] in files
    decreases |names|
  {
    if names == [] then []
    else (if names[0] in db.book then [] else [files[names[0]]]) + Pending(db, files, names[1..])
  }

  lemma {:induction false} PendingIgnoresOthers(db: Database, files: Files, names: seq<string>, name: string)
    requires forall i :: 0 <= i < |names| ==> names[i] in files && names[i] != name
    requires name in files
    ensures Pending(Commit(db, name, files[name]), files, names) == Pending(db, files, names)
    decreases |names|
  {
    if names != [] {
      PendingIgnoresOthers(db, files, names[1..], name);
    }
  }

  /** How far a complete run gets: to the first tampered file, or to the end. */
  ghost predicate StopsAt(db: Database, files: Files, names: seq<string>, k: nat) {
    && k <= |names|
    && (forall i :: 0 <= i < k ==> !Tampered(db, files, names[i]))
    && (k < |names| ==> Tampered(db, files, names[k]))
  }

  /** The end of a complete walk that stops at position `k`. */
  ghost predicate EndsAt(db: Database, files: Files, names: seq<string>, k: nat, e: Ended)
    requires k <= |names| && forall i :: 0 <= i < |names| ==> names[i] in files
  {
    && e.exit == (if k < |names| then Refused(names[k]) else Complete)
    && e.db.effects == db.effects + Pending(db, files, names[..k])
    && e.ran == |Pending(db, files, names[..k])|
    && Booked(db.book, files, names[..k], e.db.book)
  }

  /** The old rows as they were, and one new row for each of `names` that had none. */
  ghost predicate Booked(book: map<string, string>, files: Files, names: seq<string>, after: map<string, string>) {
    && (forall n :: n in after <==> n in book || n in names)
    && (forall n :: n in after ==> n in book || n in files)
    && (forall n :: n in after ==> after[n] == if n in book then book[n] else files[n])
  }

  lemma BookedShifts(book: map<string, string>, files: Files, name: string, rest: seq<string>, names: seq<string>,
                     after: map<string, string>)
    requires name in files && (forall n :: n in names <==> n == name || n in rest)
    requires Booked(if name in book then book else book[name := files[name]], files, rest, after)
    ensures Booked(book, files, names, after)
  {
  }

  lemma StopShifts(db: Database, files: Files, names: seq<string>, k: nat, db1: Database)
    requires StopsAt(db, files, names, k) && k > 0 && names[0] in files
    requires forall i, j :: 0 <= i < j < |names| ==> names[i] != names[j]
    requires db1 == db || db1 == Commit(db, names[0], files[names[0]])
    ensures StopsAt(db1, files, names[1..], k - 1)
  {
    var tail := names[1..];
    forall i | 0 <= i < |tail| ensures Tampered(db1, files, tail[i]) <==> Tampered(db, files, names[i + 1]) {
    }
  }

  /** The database after the first of `names`. */
  function PastHead(db: Database, files: Files, names: seq<string>): Database
    requires names != [] && names[0] in files
  {
    if names[0] in db.book then db else Commit(db, names[0], files[names[0]])
  }

  lemma PendingShifts(db: Database, files: Files, names: seq<string>, k: nat)
    requires forall i :: 0 <= i < |names| ==> names[i] in files
    requires forall i, j :: 0 <= i < j < |names| ==> names[i] != names[j]
    requires 0 < k <= |names|
    ensures Pending(db, files, names[..k]) ==
            (if names[0] in db.book then [] else [files[names[0]]]) + Pending(PastHead(db, files, names), files, names[1..][..k - 1])
  {
    HeadOf(names, k);
    PendingHead(db, files, names[..k]);
    if names[0] !in db.book {
      PendingIgnoresOthers(db, files, names[1..][..k - 1], names[0]);
    }
  }

  lemma EffectsShift(db: Database, files: Files, names: seq<string>, k: nat, effects: seq<string>)
    requires forall i :: 0 <= i < |names| ==> names[i] in files
    requires forall i, j :: 0 <= i < j < |names| ==> names[i] != names[j]
    requires 0 < k <= |names|
    requires var db1 := PastHead(db, files, names); effects == db1.effects + Pending(db1, files, names[1..][..k - 1])
    ensures effects == db.effects + Pending(db, files, names[..k])
  {
    PendingShifts(db, files, names, k);
    Regroup(db.effects, if names[0] in db.book then [] else [files[names[0]]],
            Pending(PastHead(db, files, names), files, names[1..][..k - 1]));
  }

  lemma EndShifts(db: Database, files: Files, names: seq<string>, k: nat, e: Ended)
    requires forall i :: 0 <= i < |names| ==> names[i] in files
    requires forall i, j :: 0 <= i < j < |names| ==> names[i] != names[j]
    requires 0 < k <= |names|
    requires EndsAt(PastHead(db, files, names), files, names[1..], k - 1, e)
    ensures EndsAt(db, files, names, k, if names[0] in db.book then e else e.(ran := e.ran + 1))
  {
    HeadOf(names, k);
    PendingShifts(db, files, names, k);
    EffectsShift(db, files, names, k, e.db.effects);
    BookedShifts(db.book, files, names[0], names[1..][..k - 1], names[..k], e.db.book);
  }

  lemma HeadOf(names: seq<string>, k: nat)
    requires 0 < k <= |names|
    ensures names[..k] != [] && names[..k][0] == names[0] && names[..k][1..] == names[1..][..k - 1]
    ensures forall n :: n in names[..k] <==> n == names[0] || n in names[1..][..k - 1]
  {
    assert names[..k] == [names[0]] + names[1..][..k - 1];
  }

  lemma PendingHead(db: Database, files: Files, names: seq<string>)
    requires names != [] && forall i :: 0 <= i < |names| ==> names[i] in files
    ensures Pending(db, files, names) ==
            (if names[0] in db.book then [] else [files[names[0]]]) + Pending(db, files, names[1..])
  {
  }

  lemma WalkStops(db: Database, files: Files, names: seq<string>)
    requires forall i :: 0 <= i < |names| ==> names[i] in files
    requires StopsAt(db, files, names, 0)
    ensures EndsAt(db, files, names, 0, Walk(db, files, names, |names|))
  {
    assert names[..0] == [];
  }

  lemma WalkHead(db: Database, files: Files, names: seq<string>)
    requires names != [] && forall i :: 0 <= i < |names| ==> names[i] in files
    requires !Tampered(db, files, names[0])
    ensures var tail := names[1..];
            Walk(db, files, names, |names|) ==
            if names[0] in db.book then Walk(db, files, tail, |tail|)
            else var e := Walk(Commit(db, names[0], files[names[0]]), files, tail, |tail|); e.(ran := e.ran + 1)
  {
    if names[0] in db.book {
      WalkBudget(db, files, names[1..], |names| - 1, |names|);
    }
  }

  lemma {:induction false} WalkIsPending(db: Database, files: Files, names: seq<string>, k: nat)
    requires forall i :: 0 <= i < |names| ==> names[i] in files
    requires forall i, j :: 0 <= i < j < |names| ==> names[i] != names[j]
    requires StopsAt(db, files, names, k)
    ensures EndsAt(db, files, names, k, Walk(db, files, names, |names|))
    decreases |names|
  {
    if k == 0 {
      WalkStops(db, files, names);
    } else {
      var name, tail := names[0], names[1..];
      assert !Tampered(db, files, name);
      var db1 := PastHead(db, files, names);
      StopShifts(db, files, names, k, db1);
      WalkIsPending(db1, files, tail, k - 1);
      EndShifts(db, files, names, k, Walk(db1, files, tail, |tail|));
      WalkHead(db, files, names);
    }
  }

  lemma {:induction false} StopExists(db: Database, files: Files, names: seq<string>) returns (k: nat)
    ensures StopsAt(db, files, names, k)
    decreases |names|
  {
    k := 0;
    while k < |names| && !Tampered(db, files, names[k])
      invariant k <= |names| && forall i :: 0 <= i < k ==> !Tampered(db, files, names[i])
    {
      k := k + 1;
    }
  }

  /** Without any file there is nothing to run and the run says so. */
  lemma EmptySetIsTold(db: Database, files: Files, budget: nat)
    ensures Run(db, files, budget).exit == NoFiles <==> files == map[]
    ensures files == map[] ==> Run(db, files, budget).db == db
  {
    if files != map[] {
      WalkFindsFiles(db, files, Names(files), budget);
    }
  }

  lemma {:induction false} WalkFindsFiles(db: Database, files: Files, names: seq<string>, budget: nat)
    requires forall i :: 0 <= i < |names| ==> names[i] in files
    ensures Walk(db, files, names, budget).exit != NoFiles
    decreases |names|
  {
    if names != [] {
      if names[0] in db.book {
        WalkFindsFiles(db, files, names[1..], budget);
      } else if budget > 0 {
        WalkFindsFiles(Commit(db, names[0], files[names[0]]), files, names[1..], budget - 1);
      }
    }
  }

  /** `names` lists exactly the files of the set, each name before every larger one. */
  ghost predicate InNameOrder(files: Files, names: seq<string>) {
    && (forall i, j :: 0 <= i < j < |names| ==> StringLess(names[i], names[j]))
    && (forall n :: n in names <==> n in files)
  }

  /** `applied` are the names among `names` that were not on the books, in name order. */
  ghost predicate NewlyApplied(book: map<string, string>, names: seq<string>, applied: seq<string>) {
    && (forall i, j :: 0 <= i < j < |applied| ==> StringLess(applied[i], applied[j]))
    && (forall n :: n in applied <==> n in names && n !in book)
  }

  /** The `i`th text is that of the `i`th name. */
  ghost predicate TextsOf(files: Files, names: seq<string>, texts: seq<string>) {
    |texts| == |names| && forall i :: 0 <= i < |names| ==> names[i] in files && texts[i] == files[names[i]]
  }

  function PendingNames(db: Database, names: seq<string>): seq<string> {
    if names == [] then [] else (if names[0] in db.book then [] else [names[0]]) + PendingNames(db, names[1..])
  }

  lemma {:induction false} PendingNamesAre(db: Database, names: seq<string>, n: string)
    ensures n in PendingNames(db, names) <==> n in names && n !in db.book
    decreases |names|
  {
    if names != [] {
      PendingNamesAre(db, names[1..], n);
      CutFirst(names);
    }
  }

  lemma {:induction false} PendingNamesAscend(db: Database, names: seq<string>)
    requires Ascending(StringLess, names)
    ensures Ascending(StringLess, PendingNames(db, names))
    decreases |names|
  {
    if names != [] {
      var rest := PendingNames(db, names[1..]);
      PendingNamesAscend(db, names[1..]);
      forall k | 0 <= k < |rest| ensures StringLess(names[0], rest[k]) {
        PendingNamesAre(db, names[1..], rest[k]);
        var i :| 0 <= i < |names| - 1 && names[1..][i] == rest[k];
        assert names[i + 1] == rest[k];
      }
    }
  }

  lemma {:induction false} PendingIsTheirTexts(db: Database, files: Files, names: seq<string>)
    requires forall i :: 0 <= i < |names| ==> names[i] in files
    ensures TextsOf(files, PendingNames(db, names), Pending(db, files, names))
    decreases |names|
  {
    if names != [] {
      PendingIsTheirTexts(db, files, names[1..]);
    }
  }

  lemma PendingInOrder(db: Database, files: Files, names: seq<string>)
    requires Ascending(StringLess, names) && forall i :: 0 <= i < |names| ==> names[i] in files
    ensures NewlyApplied(db.book, names, PendingNames(db, names)) && TextsOf(files, PendingNames(db, names), Pending(db, files, names))
  {
    PendingNamesAscend(db, names);
    PendingIsTheirTexts(db, files, names);
    forall n ensures n in PendingNames(db, names) <==> n in names && n !in db.book {
      PendingNamesAre(db, names, n);
    }
  }

  /** A complete run succeeds exactly when no applied file was edited; then every pending file was executed once, in name
      order, and the books hold the whole file set. Otherwise it stops at the first edited file in name order: the pending
      files before it are applied, the edited file and everything after it are not, and its bookkeeping row is untouched. */
  lemma CompleteRun(db: Database, files: Files) returns (names: seq<string>, k: nat, applied: seq<string>)
    requires files != map[]
    ensures InNameOrder(files, names) && StopsAt(db, files, names, k) && NewlyApplied(db.book, names[..k], applied)
    ensures var e := Run(db, files, |files|);
            && e.exit == (if k < |names| then Refused(names[k]) else Complete) && e.ran == |applied|
            && db.effects <= e.db.effects && TextsOf(files, applied, e.db.effects[|db.effects|..])
            && Booked(db.book, files, names[..k], e.db.book)
    ensures Run(db, files, |files|).exit == Complete <==> forall n :: !Tampered(db, files, n)
    ensures k < |names| ==> Kept(db, Run(db, files, |files|).db, names[k])
  {
    names := Names(files);
    k := StopExists(db, files, names);
    WalkIsPending(db, files, names, k);
    CompleteExactlyWhenUntampered(db, files, k);
    applied := PendingNames(db, names[..k]);
    EndsInOrder(db, files, names, k, Run(db, files, |files|));
  }

  lemma EndsInOrder(db: Database, files: Files, names: seq<string>, k: nat, e: Ended)
    requires Ascending(StringLess, names) && k <= |names| && forall i :: 0 <= i < |names| ==> names[i] in files
    requires EndsAt(db, files, names, k, e)
    ensures var applied := PendingNames(db, names[..k]);
            && NewlyApplied(db.book, names[..k], applied) && e.ran == |applied|
            && db.effects <= e.db.effects && TextsOf(files, applied, e.db.effects[|db.effects|..])
  {
    PendingInOrder(db, files, names[..k]);
    var texts := Pending(db, files, names[..k]);
    assert (db.effects + texts)[|db.effects|..] == texts;
  }

  /** The bookkeeping row of `name` is there and as it was. */
  predicate Kept(db: Database, after: Database, name: string) {
    name in db.book && name in after.book && after.book[name] == db.book[name]
  }

  lemma CompleteExactlyWhenUntampered(db: Database, files: Files, k: nat)
    requires StopsAt(db, files, Names(files), k)
    ensures k == |Names(files)| <==> forall n :: !Tampered(db, files, n)
  {
    var names := Names(files);
    if k == |names| {
      forall n ensures !Tampered(db, files, n) {
        if n in files {
          var i :| 0 <= i < |names| && names[i] == n;
          assert !Tampered(db, files, names[i]);
        }
      }
    }
  }

  /** On a fresh database: every file once, each after all files with smaller names, and the books equal the file set. */
  lemma FreshRun(files: Files) returns (names: seq<string>)
    requires files != map[]
    ensures InNameOrder(files, names) && |names| == |files|
    ensures var e := Run(Database([], map[]), files, |files|);
            e.exit == Complete && e.ran == |files| && e.db.book == files && TextsOf(files, names, e.db.effects)
  {
    names := Names(files);
    FreshWalk(files, names);
    PendingAll(files, names);
    FullBook(files, names, Run(Database([], map[]), files, |files|).db.book);
  }

  lemma FreshWalk(files: Files, names: seq<string>)
    requires forall i :: 0 <= i < |names| ==> names[i] in files
    requires forall i, j :: 0 <= i < j < |names| ==> names[i] != names[j]
    ensures var db := Database([], map[]);
            var e := Walk(db, files, names, |names|);
            e.exit == Complete && e.db.effects == Pending(db, files, names) && e.ran == |Pending(db, files, names)| &&
            (forall n :: n in e.db.book <==> n in names) && forall n :: n in e.db.book ==> n in files && e.db.book[n] == files[n]
  {
    var db := Database([], map[]);
    WalkIsPending(db, files, names, |names|);
    TakeWhole(names);
    assert [] + Pending(db, files, names) == Pending(db, files, names);
  }

  lemma FullBook(files: Files, names: seq<string>, book: map<string, string>)
    requires forall n :: n in files <==> n in names
    requires forall n :: n in book <==> n in names
    requires forall n :: n in book ==> n in files && book[n] == files[n]
    ensures book == files
  {
  }

  lemma {:induction false} PendingAll(files: Files, names: seq<string>)
    requires forall i :: 0 <= i < |names| ==> names[i] in files
    ensures var p := Pending(Database([], map[]), files, names);
            |p| == |names| && forall i :: 0 <= i < |p| ==> p[i] == files[names[i]]
    decreases |names|
  {
    if names != [] {
      PendingAll(files, names[1..]);
    }
  }

  // ------------------------------------------------------------------ the runner

  class Connection {
    var effects: seq<string>
    var book: map<string, string>

    constructor (db: Database)
      ensures Value() == db
    {
      effects, book := db.effects, db.book;
    }

    function Value(): Database
      reads this
    {
      Database(effects, book)
    }

    /** One file and its bookkeeping row, in one transaction. */
    method Transaction(name: string, sql: string)
      modifies this
      ensures Value() == Commit(old(Value()), name, sql)
    {
      effects := effects + [sql];
      book := book[name := sql];
    }

    /** The apply loop. The books are read once, before the loop. */
    method Migrate(files: Files, budget: nat) returns (exit: Exit, ran: nat)
      modifies this
      ensures Ended(Value(), exit, ran) == Run(old(Value()), files, budget)
    {
      ran := 0;
      if files == map[] {
        return NoFiles, ran;
      }
      var applied := book;
      exit, ran := ApplyAll(files, Names(files), applied, budget);
    }

    method ApplyAll(files: Files, names: seq<string>, applied: map<string, string>, budget: nat)
      returns (exit: Exit, ran: nat)
      requires forall i :: 0 <= i < |names| ==> names[i] in files
      requires forall i, j :: 0 <= i < j < |names| ==> names[i] != names[j]
      requires applied == book
      modifies this
      ensures Ended(Value(), exit, ran) == Walk(old(Value()), files, names, budget)
    {
      ran := 0;
      ghost var goal := Walk(Value(), files, names, budget);
      var i := 0;
      assert names[0..] == names;
      while i < |names|
        invariant 0 <= i <= |names| && ran <= budget
        invariant Agree(applied, book, names[i..])
        invariant goal == AddRan(Walk(Value(), files, names[i..], budget - ran), ran)
      {
        var name := names[i];
        var sql := files[name];
        assert names[i..][0] == name && names[i..][1..] == names[i + 1..];
        if name in applied {
          if applied[name] != sql {
            return Refused(name), ran;
          }
        } else {
          if ran == budget {
            return Interrupted, ran;
          }
          Transaction(name, sql);
          ran := ran + 1;
        }
        i := i + 1;
      }
      return Complete, ran;
    }
  }

  function AddRan(e: Ended, ran: nat): Ended {
    e.(ran := e.ran + ran)
  }

  /** The snapshot and the table agree on these names. */
  ghost predicate Agree(applied: map<string, string>, book: map<string, string>, names: seq<string>) {
    forall i :: 0 <= i < |names| ==>
      && (names[i] in applied <==> names[i] in book)
      && (names[i] in applied ==> applied[names[i]] == book[names[i]])
  }
}

/** Cursor paging over dossier exports, newest first with the id as tie-break (bdpay/compliance/dossier.py). */
module DossierListing {
  import opened Common
  import opened Ordering

  datatype Key = Key(createdAt: int, id: string)

  /** Creation time by export id. */
  type Created = map<string, int>

  /** `a` is listed before `b`. */
  predicate Newer(a: Key, b: Key) {
    b.createdAt < a.createdAt || (b.createdAt == a.createdAt && StringLess(b.id, a.id))
  }

  lemma NewerIsStrictTotal()
    ensures StrictTotal(Newer)
  {
    StringLessIsStrictTotal();
  }

  function Keys(rows: Created): set<Key> {
    set id | id in rows :: Key(rows[id], id)
  }

  /** Every export, newest first. */
  function All(rows: Created): seq<Key> {
    NewerIsStrictTotal();
    Sorted(Newer, Keys(rows))
  }

  /** A list in order in which an id names one export. */
  ghost predicate Listing(all: seq<Key>) {
    Ascending(Newer, all) && forall i, j :: 0 <= i < j < |all| ==> all[i].id != all[j].id
  }

  lemma AllIsListing(rows: Created)
    ensures Listing(All(rows)) && Elements(All(rows)) == Keys(rows)
  {
    NewerIsStrictTotal();
    var all := All(rows);
    forall i, j | 0 <= i < j < |all| ensures all[i].id != all[j].id {
      assert all[i] in Elements(all) && all[j] in Elements(all);
      assert Newer(all[i], all[j]) && !Newer(all[i], all[i]);
    }
  }

  // ------------------------------------------------------------------ one page

  function Find(all: seq<Key>, id: string): Option<Key> {
    if all == [] then None else if all[0].id == id then Some(all[0]) else Find(all[1..], id)
  }

  function After(s: seq<Key>, anchor: Key): seq<Key> {
    if s == [] then [] else (if Newer(anchor, s[0]) then [s[0]] else []) + After(s[1..], anchor)
  }

  datatype Page = UnknownCursor | Page(keys: seq<Key>, next: Option<string>)

  function FirstPage(rest: seq<Key>, limit: nat): Page
    requires limit >= 1
  {
    if |rest| > limit then Page(rest[..limit], Some(rest[limit - 1].id)) else Page(rest, None)
  }

  /** What is left to list from `cursor` on; None when no export has that id. */
  function Rest(all: seq<Key>, cursor: Option<string>): Option<seq<Key>> {
    if cursor.None? then Some(all)
    else
      var anchor := Find(all, cursor.value);
      if anchor.None? then None else Some(After(all, anchor.value))
  }

  function ListPage(all: seq<Key>, limit: nat, cursor: Option<string>): Page
    requires limit >= 1
  {
    var rest := Rest(all, cursor);
    if rest.None? then UnknownCursor else FirstPage(rest.value, limit)
  }

  // ------------------------------------------------------------------ a cursor is a position

  lemma {:induction false} AfterAll(s: seq<Key>, anchor: Key)
    requires forall i :: 0 <= i < |s| ==> Newer(anchor, s[i])
    ensures After(s, anchor) == s
    decreases |s|
  {
    if s != [] {
      AfterAll(s[1..], anchor);
    }
  }

  lemma {:induction false} AfterPosition(s: seq<Key>, k: nat)
    requires Ascending(Newer, s) && k < |s|
    ensures After(s, s[k]) == s[k + 1..]
    decreases |s|
  {
    NewerIsStrictTotal();
    if k == 0 {
      assert !Newer(s[0], s[0]);
      AfterAll(s[1..], s[0]);
    } else {
      assert Newer(s[0], s[k]) && !Newer(s[k], s[0]);
      AfterPosition(s[1..], k - 1);
      assert s[1..][k - 1] == s[k] && s[1..][k..] == s[k + 1..];
    }
  }

  lemma {:induction false} FindsPosition(s: seq<Key>, k: nat)
    requires k < |s| && forall i, j :: 0 <= i < j < |s| ==> s[i].id != s[j].id
    ensures Find(s, s[k].id) == Some(s[k])
    decreases |s|
  {
    if k > 0 {
      FindsPosition(s[1..], k - 1);
    }
  }

  lemma {:induction false} FindFails(all: seq<Key>, id: string)
    ensures Find(all, id).None? <==> forall i :: 0 <= i < |all| ==> all[i].id != id
  {
    if all != [] {
      FindFails(all[1..], id);
      assert all == [all[0]] + all[1..];
    }
  }

  /** A page is refused exactly for a cursor that names no export in the list. */
  lemma CursorsRefusedExactly(all: seq<Key>, limit: nat, cursor: Option<string>)
    requires limit >= 1
    ensures ListPage(all, limit, cursor).UnknownCursor? <==>
            cursor.Some? && forall i :: 0 <= i < |all| ==> all[i].id != cursor.value
  {
    if cursor.Some? {
      FindFails(all, cursor.value);
    }
  }


  /** `cursor` stands at the position `from`: it names the export just before it. */
  ghost predicate At(all: seq<Key>, cursor: Option<string>, from: nat) {
    from <= |all| && if cursor.None? then from == 0 else from > 0 && cursor.value == all[from - 1].id
  }

  lemma RestAt(all: seq<Key>, cursor: Option<string>, from: nat)
    requires Listing(all) && At(all, cursor, from)
    ensures Rest(all, cursor) == Some(all[from..])
  {
    if cursor.Some? {
      FindsPosition(all, from - 1);
      AfterPosition(all, from - 1);
    }
  }

  // ------------------------------------------------------------------ following the cursor

  /** The pages got by asking again with the `next` of the last, at most `calls` times. */
  function Follow(all: seq<Key>, limit: nat, cursor: Option<string>, calls: nat): seq<Page>
    requires limit >= 1
    decreases calls
  {
    if calls == 0 then []
    else
      var page := ListPage(all, limit, cursor);
      if page.Page? && page.next.Some? then [page] + Follow(all, limit, page.next, calls - 1) else [page]
  }

  /** Pages of `limit` keys cut from `all`, the last one with what is left and no `next`. */
  function Cut(all: seq<Key>, limit: nat, from: nat): seq<Page>
    requires limit >= 1 && from <= |all|
    decreases |all| - from
  {
    if |all| - from > limit
    then [Page(all[from..from + limit], Some(all[from + limit - 1].id))] + Cut(all, limit, from + limit)
    else [Page(all[from..], None)]
  }

  lemma PageAt(all: seq<Key>, limit: nat, cursor: Option<string>, from: nat)
    requires limit >= 1 && Listing(all) && At(all, cursor, from)
    ensures ListPage(all, limit, cursor) == Cut(all, limit, from)[0]
  {
    RestAt(all, cursor, from);
    if |all| - from > limit {
      assert all[from..][limit - 1] == all[from + limit - 1] && all[from..][..limit] == all[from..from + limit];
    }
  }

  lemma {:induction false} FollowCuts(all: seq<Key>, limit: nat, cursor: Option<string>, from: nat, calls: nat)
    requires limit >= 1 && Listing(all) && At(all, cursor, from) && calls > |all| - from
    ensures Follow(all, limit, cursor, calls) == Cut(all, limit, from)
    decreases calls
  {
    PageAt(all, limit, cursor, from);
    if |all| - from > limit {
      FollowCuts(all, limit, Some(all[from + limit - 1].id), from + limit, calls - 1);
    }
  }

  function Concat(pages: seq<Page>): seq<Key> {
    if pages == [] then [] else (if pages[0].Page? then pages[0].keys else []) + Concat(pages[1..])
  }

  /** Every page but the last is full and leads on; the last ends the listing. */
  predicate Complete(pages: seq<Page>, limit: nat) {
    pages != [] && (forall i :: 0 <= i < |pages| ==> pages[i].Page?) &&
    (forall i :: 0 <= i < |pages| - 1 ==> |pages[i].keys| == limit && pages[i].next.Some?) &&
    |pages[|pages| - 1].keys| <= limit && pages[|pages| - 1].next.None?
  }

  lemma OnePage(keys: seq<Key>, limit: nat)
    requires |keys| <= limit
    ensures Concat([Page(keys, None)]) == keys && Complete([Page(keys, None)], limit)
  {
    assert [Page(keys, None)][1..] == [];
    assert Concat([Page(keys, None)][1..]) == [];
  }

  lemma MorePages(first: Page, rest: seq<Page>, limit: nat)
    requires first.Page? && |first.keys| == limit && first.next.Some? && Complete(rest, limit)
    ensures Complete([first] + rest, limit) && Concat([first] + rest) == first.keys + Concat(rest)
  {
    assert ([first] + rest)[1..] == rest;
  }

  lemma {:induction false} CutCovers(all: seq<Key>, limit: nat, from: nat)
    requires limit >= 1 && from <= |all|
    ensures Concat(Cut(all, limit, from)) == all[from..] && Complete(Cut(all, limit, from), limit)
    decreases |all| - from
  {
    if |all| - from > limit {
      CutCovers(all, limit, from + limit);
      MorePages(Page(all[from..from + limit], Some(all[from + limit - 1].id)), Cut(all, limit, from + limit), limit);
      assert all[from..] == all[from..from + limit] + all[from + limit..];
    } else {
      OnePage(all[from..], limit);
    }
  }

  /** Later exports first; of two created at the same time the one with the larger id. */
  ghost predicate NewestFirst(all: seq<Key>) {
    forall i, j :: 0 <= i < j < |all| ==>
      all[i].createdAt > all[j].createdAt || (all[i].createdAt == all[j].createdAt && StringLess(all[j].id, all[i].id))
  }

  /**
   Following the cursor from the start ends within one call per export and one more, never meets an unknown cursor, and
   lists every export exactly once, newest first, in full pages but for the last.
   */
  lemma PagesAreEverything(rows: Created, limit: nat, calls: nat)
    requires limit >= 1 && calls > |All(rows)|
    ensures NewestFirst(All(rows)) && (forall k :: k in All(rows) <==> k.id in rows && rows[k.id] == k.createdAt)
    ensures var pages := Follow(All(rows), limit, None, calls);
            Concat(pages) == All(rows) && Complete(pages, limit)
  {
    assert forall k :: k in All(rows) <==> k in Elements(All(rows));
    AllIsListing(rows);
    FollowCuts(All(rows), limit, None, 0, calls);
    CutCovers(All(rows), limit, 0);
    assert All(rows)[0..] == All(rows);
  }

  // ------------------------------------------------------------------ new exports between pages

  lemma {:induction false} AfterFilters(s: seq<Key>, anchor: Key)
    requires Ascending(Newer, s)
    ensures Ascending(Newer, After(s, anchor))
    ensures forall k :: k in After(s, anchor) <==> k in s && Newer(anchor, k)
    decreases |s|
  {
    if s != [] {
      AfterFilters(s[1..], anchor);
      assert s == [s[0]] + s[1..];
      var rest := After(s[1..], anchor);
      assert forall i :: 0 <= i < |rest| ==> rest[i] in s[1..];
    }
  }

  lemma FindsRow(rows: Created, id: string)
    requires id in rows
    ensures Find(All(rows), id) == Some(Key(rows[id], id))
  {
    AllIsListing(rows);
    assert Key(rows[id], id) in Elements(All(rows));
    var k :| 0 <= k < |All(rows)| && All(rows)[k] == Key(rows[id], id);
    FindsPosition(All(rows), k);
  }

  lemma AllHas(rows: Created, k: Key)
    ensures k in All(rows) <==> k.id in rows && rows[k.id] == k.createdAt
  {
    AllIsListing(rows);
    assert k in All(rows) <==> k in Elements(All(rows));
  }

  /** What lies after the anchor, as a set of keys. */
  lemma AfterHas(rows: Created, anchor: Key, k: Key)
    ensures k in After(All(rows), anchor) <==> k.id in rows && rows[k.id] == k.createdAt && Newer(anchor, k)
  {
    AllIsListing(rows);
    AfterFilters(All(rows), anchor);
    AllHas(rows, k);
  }

  /** Exports queued between two pages leave the rest of the listing alone exactly when none of their keys lies after the
      cursor's. */
  lemma RestIsSteadyExactlyWhenNoneFollows(rows: Created, more: Created, cursor: string)
    requires cursor in rows
    requires forall id :: id in rows ==> id in more && more[id] == rows[id]
    ensures Rest(All(more), Some(cursor)) == Rest(All(rows), Some(cursor)) <==>
            forall id :: id in more && id !in rows ==> !Newer(Key(rows[cursor], cursor), Key(more[id], id))
  {
    var anchor := Key(rows[cursor], cursor);
    FindsRow(rows, cursor);
    FindsRow(more, cursor);
    var a, b := After(All(rows), anchor), After(All(more), anchor);
    if exists id :: id in more && id !in rows && Newer(anchor, Key(more[id], id)) {
      var id :| id in more && id !in rows && Newer(anchor, Key(more[id], id));
      AfterHas(rows, anchor, Key(more[id], id));
      AfterHas(more, anchor, Key(more[id], id));
    } else {
      AllIsListing(rows);
      AllIsListing(more);
      AfterFilters(All(rows), anchor);
      AfterFilters(All(more), anchor);
      NewerIsStrictTotal();
      forall k ensures k in a <==> k in b {
        AfterHas(rows, anchor, k);
        AfterHas(more, anchor, k);
      }
      assert Elements(a) == Elements(b);
      AscendingIsUnique(Newer, a, b);
    }
  }
}

/**
 The sealed dossier archive (bdpay/compliance/dossier.py): manifest rows, the archive's member order and the per-member
 check made against the archive. An archive is its list of named entries; the digest is any function, injective where a
 lemma says so.
 */
module DossierArchive {
  import opened Common
  import opened Ordering

  newtype Byte = x: int | 0 <= x < 256

  type Bytes = seq<Byte>
  type Digest = Bytes -> string
  type Members = map<string, Bytes>

  datatype ManifestRow = ManifestRow(path: string, sha256: string, bytes: nat)

  datatype Entry = Entry(path: string, data: Bytes)

  type Archive = seq<Entry>

  const MANIFEST := "manifest.json"

  // ------------------------------------------------------------------ building

  function RowsFor(digest: Digest, members: Members, paths: seq<string>): (rows: seq<ManifestRow>)
    requires forall p :: p in paths ==> p in members
    ensures |rows| == |paths|
    ensures forall i :: 0 <= i < |rows| ==>
              rows[i] == ManifestRow(paths[i], digest(members[paths[i]]), |members[paths[i]]|)
  {
    if paths == [] then []
    else [ManifestRow(paths[0], digest(members[paths[0]]), |members[paths[0]]|)] + RowsFor(digest, members, paths[1..])
  }

  lemma PathsAreMembers(members: Members)
    ensures forall p :: p in SortedStrings(members.Keys) <==> p in members
  {
    assert forall p :: p in SortedStrings(members.Keys) <==> p in Elements(SortedStrings(members.Keys));
  }

  /** One row per member, in path order. */
  function Manifest(digest: Digest, members: Members): seq<ManifestRow> {
    PathsAreMembers(members);
    RowsFor(digest, members, SortedStrings(members.Keys))
  }

  function EntriesFor(members: Members, paths: seq<string>): (entries: Archive)
    requires forall p :: p in paths ==> p in members
    ensures |entries| == |paths|
    ensures forall i :: 0 <= i < |entries| ==> entries[i] == Entry(paths[i], members[paths[i]])
  {
    if paths == [] then [] else [Entry(paths[0], members[paths[0]])] + EntriesFor(members, paths[1..])
  }

  /** The manifest first, then the members in path order. */
  function Seal(manifest: Bytes, members: Members): Archive {
    PathsAreMembers(members);
    [Entry(MANIFEST, manifest)] + EntriesFor(members, SortedStrings(members.Keys))
  }

  // ------------------------------------------------------------------ reading

  function Names(archive: Archive): (names: seq<string>)
    ensures |names| == |archive| && forall i :: 0 <= i < |names| ==> names[i] == archive[i].path
  {
    if archive == [] then [] else [archive[0].path] + Names(archive[1..])
  }

  /** Reading by name finds the last entry of that name. */
  function Read(archive: Archive, name: string): Option<Bytes> {
    if archive == [] then None
    else
      var last := archive[|archive| - 1];
      if last.path == name then Some(last.data) else Read(archive[..|archive| - 1], name)
  }

  lemma {:induction false} ReadFinds(archive: Archive, i: nat)
    requires i < |archive|
    requires forall j :: i < j < |archive| ==> archive[j].path != archive[i].path
    ensures Read(archive, archive[i].path) == Some(archive[i].data)
    decreases |archive|
  {
    if i < |archive| - 1 {
      ReadFinds(archive[..|archive| - 1], i);
    }
  }

  // ------------------------------------------------------------------ sorting names

  lemma AscendingHasNoRepeats(s: seq<string>)
    requires Ascending(StringLess, s)
    ensures forall i, j :: 0 <= i < j < |s| ==> s[i] != s[j]
  {
    forall i, j | 0 <= i < j < |s| ensures s[i] != s[j] {
      StringLessIrreflexive(s[i]);
    }
  }

  /** Sorting gives an ascending list of distinct paths exactly when the names are those paths, in any order. */
  lemma SortedNamesAre(names: seq<string>, paths: seq<string>)
    requires Ascending(StringLess, paths)
    ensures SortStrings(names) == paths <==> multiset(names) == multiset(paths)
  {
    SortStringsSorts(names);
    if multiset(names) == multiset(paths) {
      forall i, j | 0 <= i < j < |paths| ensures !StringLess(paths[j], paths[i]) {
        StringLessIsOneWay(paths[i], paths[j]);
      }
      SortedAlike(SortStrings(names), paths);
    }
  }

  // ------------------------------------------------------------------ the check

  function PathsOf(rows: seq<ManifestRow>): (paths: seq<string>)
    ensures |paths| == |rows| && forall i :: 0 <= i < |rows| ==> paths[i] == rows[i].path
  {
    if rows == [] then [] else [rows[0].path] + PathsOf(rows[1..])
  }

  predicate Listed(archive: Archive, rows: seq<ManifestRow>) {
    archive != [] && archive[0].path == MANIFEST && SortStrings(Names(archive[1..])) == PathsOf(rows)
  }

  predicate RowMatches(digest: Digest, archive: Archive, row: ManifestRow) {
    var data := Read(archive, row.path);
    data.Some? && digest(data.value) == row.sha256 && |data.value| == row.bytes
  }

  /** The gate before an archive is stored: manifest first, exactly the listed members, every digest and length right. */
  predicate Verifies(digest: Digest, archive: Archive, rows: seq<ManifestRow>) {
    Listed(archive, rows) && forall k :: 0 <= k < |rows| ==> RowMatches(digest, archive, rows[k])
  }

  method VerifySealed(digest: Digest, archive: Archive, rows: seq<ManifestRow>) returns (ok: bool)
    ensures ok <==> Verifies(digest, archive, rows)
  {
    if !Listed(archive, rows) {
      return false;
    }
    var k := 0;
    while k < |rows|
      invariant 0 <= k <= |rows| && forall j :: 0 <= j < k ==> RowMatches(digest, archive, rows[j])
    {
      if !RowMatches(digest, archive, rows[k]) {
        return false;
      }
      k := k + 1;
    }
    return true;
  }

  // ------------------------------------------------------------------ what passing it means

  ghost predicate Injective(digest: Digest) {
    forall a: Bytes, b: Bytes :: digest(a) == digest(b) ==> a == b
  }

  /** `archive` holds the manifest first and then exactly `members`, in some order. */
  ghost predicate HoldsExactly(archive: Archive, members: Members) {
    && archive != [] && archive[0].path == MANIFEST
    && multiset(Names(archive[1..])) == multiset(SortedStrings(members.Keys))
    && forall p :: p in members ==> Read(archive, p) == Some(members[p])
  }

  lemma ManifestPaths(digest: Digest, members: Members)
    ensures PathsOf(Manifest(digest, members)) == SortedStrings(members.Keys)
    ensures |Manifest(digest, members)| == |SortedStrings(members.Keys)|
    ensures forall k :: 0 <= k < |Manifest(digest, members)| ==>
              var p := SortedStrings(members.Keys)[k];
              p in members && Manifest(digest, members)[k] == ManifestRow(p, digest(members[p]), |members[p]|)
  {
    PathsAreMembers(members);
  }

  lemma ListedExactly(digest: Digest, archive: Archive, members: Members)
    ensures Listed(archive, Manifest(digest, members)) <==>
            archive != [] && archive[0].path == MANIFEST &&
            multiset(Names(archive[1..])) == multiset(SortedStrings(members.Keys))
  {
    ManifestPaths(digest, members);
    if archive != [] {
      SortedNamesAre(Names(archive[1..]), SortedStrings(members.Keys));
    }
  }

  /** The member read from the archive has the digest and the length of the original. */
  predicate LooksAlike(digest: Digest, archive: Archive, p: string, original: Bytes) {
    Read(archive, p).Some? && digest(Read(archive, p).value) == digest(original) && |Read(archive, p).value| == |original|
  }

  lemma RowOfMember(digest: Digest, members: Members, p: string) returns (k: nat)
    requires p in members
    ensures var rows := Manifest(digest, members);
            k < |rows| && rows[k] == ManifestRow(p, digest(members[p]), |members[p]|)
  {
    var paths := SortedStrings(members.Keys);
    PathsAreMembers(members);
    assert p in Elements(paths);
    k :| 0 <= k < |paths| && paths[k] == p;
  }

  lemma RowsMatchExactly(digest: Digest, archive: Archive, members: Members)
    ensures var rows := Manifest(digest, members);
            (forall k :: 0 <= k < |rows| ==> RowMatches(digest, archive, rows[k])) <==>
            forall p :: p in members ==> LooksAlike(digest, archive, p, members[p])
  {
    var rows, paths := Manifest(digest, members), SortedStrings(members.Keys);
    PathsAreMembers(members);
    if forall p :: p in members ==> LooksAlike(digest, archive, p, members[p]) {
      forall k | 0 <= k < |rows| ensures RowMatches(digest, archive, rows[k]) {
        assert paths[k] in paths;
        assert LooksAlike(digest, archive, paths[k], members[paths[k]]);
      }
    }
    if forall k :: 0 <= k < |rows| ==> RowMatches(digest, archive, rows[k]) {
      forall p | p in members ensures LooksAlike(digest, archive, p, members[p]) {
        var k := RowOfMember(digest, members, p);
        assert RowMatches(digest, archive, rows[k]);
      }
    }
  }

  /** Whatever the digest, the check passes exactly when the archive opens with the manifest, its other names are those of the
      members in some order, and each member read from it has the digest and the length of the original. */
  lemma VerifiesMeans(digest: Digest, archive: Archive, members: Members)
    ensures Verifies(digest, archive, Manifest(digest, members)) <==>
            && archive != [] && archive[0].path == "manifest.json"
            && multiset(Names(archive[1..])) == multiset(SortedStrings(members.Keys))
            && forall p :: p in members ==> LooksAlike(digest, archive, p, members[p])
  {
    ListedExactly(digest, archive, members);
    RowsMatchExactly(digest, archive, members);
  }

  /**
   The check is exact: against the manifest of `members` it passes exactly the archives that hold those members and no
   others, byte for byte.
   */
  lemma VerifiesExactlyTheMembers(digest: Digest, archive: Archive, members: Members)
    requires Injective(digest)
    ensures Verifies(digest, archive, Manifest(digest, members)) <==> HoldsExactly(archive, members)
  {
    VerifiesMeans(digest, archive, members);
    assert forall p :: p in members ==> (LooksAlike(digest, archive, p, members[p]) <==> Read(archive, p) == Some(members[p]));
  }

  /** Whatever the digest, a freshly sealed archive passes, even when a member is itself called `manifest.json`. */
  lemma SealedVerifies(digest: Digest, manifest: Bytes, members: Members)
    ensures Verifies(digest, Seal(manifest, members), Manifest(digest, members))
  {
    SealedIsListed(digest, manifest, members);
    forall k | 0 <= k < |Manifest(digest, members)| {
      SealedRowMatches(digest, manifest, members, k);
    }
  }

  lemma SealedIsListed(digest: Digest, manifest: Bytes, members: Members)
    ensures Listed(Seal(manifest, members), Manifest(digest, members))
  {
    var archive, paths := Seal(manifest, members), SortedStrings(members.Keys);
    PathsAreMembers(members);
    assert archive[1..] == EntriesFor(members, paths);
    assert Names(archive[1..]) == paths;
    ListedExactly(digest, archive, members);
  }

  lemma SealedRowMatches(digest: Digest, manifest: Bytes, members: Members, k: nat)
    requires k < |Manifest(digest, members)|
    ensures RowMatches(digest, Seal(manifest, members), Manifest(digest, members)[k])
  {
    ManifestPaths(digest, members);
    SealedReads(manifest, members, k);
  }

  lemma SealedReads(manifest: Bytes, members: Members, k: nat)
    requires k < |SortedStrings(members.Keys)|
    ensures var p := SortedStrings(members.Keys)[k]; p in members && Read(Seal(manifest, members), p) == Some(members[p])
  {
    var archive, paths := Seal(manifest, members), SortedStrings(members.Keys);
    PathsAreMembers(members);
    AscendingHasNoRepeats(paths);
    assert archive[k + 1] == Entry(paths[k], members[paths[k]]);
    forall j | k + 1 < j < |archive| ensures archive[j].path != paths[k] {
      assert archive[j].path == paths[j - 1];
    }
    ReadFinds(archive, k + 1);
  }
}

/** The recursive listing of the shared folder and the two places that turn it into a table of hashes. */
module FolderListing {
  import opened Base
  import opened Hashing
  import WatchPipeline

  datatype Entry =
    | File(name: Path, stored: Stored)
    | Directory(name: Path, entries: seq<Entry>)

  /** A listed absolute path and the file that is there. */
  datatype Found = Found(path: Path, stored: Stored)

  function Child(absPath: Path, name: Path): Path {
    absPath + [SEPARATOR] + name
  }

  function Listing(absPath: Path, entries: seq<Entry>): seq<Found>
    decreases entries, 1
  {
    if entries == [] then [] else
      Listing(absPath, entries[..|entries| - 1]) + ListingOf(absPath, entries[|entries| - 1])
  }

  function ListingOf(absPath: Path, e: Entry): seq<Found>
    decreases e, 0
  {
    match e
    case File(name, stored) => [Found(Child(absPath, name), stored)]
    case Directory(name, entries) => Listing(Child(absPath, name), entries)
  }

  lemma {:induction false} ListingStep(absPath: Path, entries: seq<Entry>, i: nat)
    requires i < |entries|
    ensures Listing(absPath, entries[..i + 1]) == Listing(absPath, entries[..i]) + ListingOf(absPath, entries[i])
  {
    assert entries[..i + 1][..i] == entries[..i];
  }

  /** `getFilepaths`: files are pushed, directories are listed recursively and their files pushed one by one. */
  method GetFilepaths(absPath: Path, entries: seq<Entry>) returns (filepaths: seq<Found>)
    ensures filepaths == Listing(absPath, entries)
    decreases entries
  {
    filepaths := [];
    for i := 0 to |entries|
      invariant filepaths == Listing(absPath, entries[..i])
    {
      ListingStep(absPath, entries, i);
      var p := Child(absPath, entries[i].name);
      if entries[i].Directory? {
        var below := GetFilepaths(p, entries[i].entries);
        ghost var before := filepaths;
        for j := 0 to |below|
          invariant filepaths == before + below[..j]
        {
          filepaths := filepaths + [below[j]];
        }
        assert below[..|below|] == below;
      } else {
        filepaths := filepaths + [Found(p, entries[i].stored)];
      }
    }
    assert entries[..|entries|] == entries;
  }

  // ---- What a file system guarantees ----

  predicate ProperName(name: Path) {
    forall k | 0 <= k < |name| :: name[k] != SEPARATOR
  }

  /** Names contain no separator and are distinct within a directory. */
  predicate WellFormed(entries: seq<Entry>) {
    && (forall i | 0 <= i < |entries| :: ProperName(entries[i].name))
    && (forall i, j | 0 <= i < j < |entries| :: entries[i].name != entries[j].name)
    && (forall e | e in entries :: e.Directory? ==> WellFormed(e.entries))
  }

  /** Following these names down from a directory ends at this file. */
  predicate Resolves(entries: seq<Entry>, names: seq<Path>, stored: Stored)
    decreases |names|, 0
  {
    && names != []
    && exists e :: e in entries && e.name == names[0] && LeadsTo(e, names[1..], stored)
  }

  predicate LeadsTo(e: Entry, names: seq<Path>, stored: Stored)
    decreases |names|, 1
  {
    match e
    case File(_, s) => names == [] && s == stored
    case Directory(_, entries) => Resolves(entries, names, stored)
  }

  function Joined(absPath: Path, names: seq<Path>): Path
    decreases names
  {
    if names == [] then absPath else Joined(absPath + [92] + names[0], names[1..])
  }

  /** Some chain of names leads to this file, and its path is the chain joined by separators. */
  ghost predicate Leads(root: Path, entries: seq<Entry>, f: Found) {
    exists names: seq<Path> :: Resolves(entries, names, f.stored) && f.path == Joined(root, names)
  }

  // ---- The listing is exactly the files ----

  lemma {:induction false} ListedResolves(absPath: Path, entries: seq<Entry>, f: Found) returns (names: seq<Path>)
    requires f in Listing(absPath, entries)
    ensures Resolves(entries, names, f.stored) && f.path == Joined(absPath, names)
    decreases entries
  {
    var init, e := entries[..|entries| - 1], entries[|entries| - 1];
    if f in Listing(absPath, init) {
      names := ListedResolves(absPath, init, f);
      var d :| d in init && d.name == names[0] && LeadsTo(d, names[1..], f.stored);
      assert d in entries;
    } else {
      assert f in ListingOf(absPath, e);
      match e
      case File(name, stored) =>
        names := [name];
        assert names[1..] == [];
        assert e in entries && e.name == names[0] && LeadsTo(e, names[1..], f.stored);
      case Directory(name, below) =>
        var rest := ListedResolves(Child(absPath, name), below, f);
        names := [name] + rest;
        assert names[1..] == rest;
        assert e in entries && e.name == names[0] && LeadsTo(e, names[1..], f.stored);
    }
  }

  lemma {:induction false} ListingOfMember(absPath: Path, entries: seq<Entry>, i: nat, f: Found)
    requires i < |entries| && f in ListingOf(absPath, entries[i])
    ensures f in Listing(absPath, entries)
    decreases |entries|
  {
    if i < |entries| - 1 {
      ListingOfMember(absPath, entries[..|entries| - 1], i, f);
    }
  }

  lemma {:induction false} ResolvedIsListed(absPath: Path, entries: seq<Entry>, names: seq<Path>, stored: Stored)
    requires Resolves(entries, names, stored)
    ensures Found(Joined(absPath, names), stored) in Listing(absPath, entries)
    decreases |names|
  {
    var e :| e in entries && e.name == names[0] && LeadsTo(e, names[1..], stored);
    var i :| 0 <= i < |entries| && entries[i] == e;
    if e.Directory? {
      ResolvedIsListed(Child(absPath, names[0]), e.entries, names[1..], stored);
    } else {
      assert Joined(absPath, names) == Joined(Child(absPath, e.name), names[1..]) == Child(absPath, e.name);
    }
    ListingOfMember(absPath, entries, i, Found(Joined(absPath, names), stored));
  }

  /** `below` a name: nothing more, or another separator. */
  predicate StandsUnder(path: Path, absPath: Path, name: Path) {
    var start := Child(absPath, name);
    && |start| <= |path| && path[..|start|] == start
    && (|start| == |path| || path[|start|] == SEPARATOR)
  }

  lemma {:induction false} EntryStandsUnder(absPath: Path, e: Entry, f: Found)
    requires f in ListingOf(absPath, e)
    ensures StandsUnder(f.path, absPath, e.name)
  {
    if e.Directory? {
      AllStandBehind(Child(absPath, e.name), e.entries, f);
    }
  }

  lemma {:induction false} AllStandBehind(absPath: Path, entries: seq<Entry>, f: Found)
    requires f in Listing(absPath, entries)
    ensures |absPath| < |f.path| && f.path[..|absPath|] == absPath && f.path[|absPath|] == SEPARATOR
    decreases entries
  {
    var init, e := entries[..|entries| - 1], entries[|entries| - 1];
    if f in Listing(absPath, init) {
      AllStandBehind(absPath, init, f);
    } else {
      assert f in ListingOf(absPath, e);
      var start := Child(absPath, e.name);
      if e.Directory? {
        AllStandBehind(start, e.entries, f);
        assert f.path[..|absPath|] == f.path[..|start|][..|absPath|];
        assert f.path[|absPath|] == f.path[..|start|][|absPath|];
      }
    }
  }

  lemma SiblingsDoNotMeet(path: Path, absPath: Path, a: Path, b: Path)
    requires ProperName(a) && ProperName(b)
    requires StandsUnder(path, absPath, a) && StandsUnder(path, absPath, b)
    ensures a == b
  {
    var n := |absPath| + 1;
    forall k | 0 <= k < |a|
      ensures path[n + k] == a[k]
    {
      assert path[..|Child(absPath, a)|][n + k] == a[k];
    }
    forall k | 0 <= k < |b|
      ensures path[n + k] == b[k]
    {
      assert path[..|Child(absPath, b)|][n + k] == b[k];
    }
    assert n + |a| < |path| ==> path[n + |a|] == SEPARATOR;
    assert n + |b| < |path| ==> path[n + |b|] == SEPARATOR;
    assert forall k | 0 <= k < |a| :: path[n + k] == a[k] != SEPARATOR;
    assert forall k | 0 <= k < |b| :: path[n + k] == b[k] != SEPARATOR;
  }

  predicate DistinctFound(fs: seq<Found>) {
    forall i, j | 0 <= i < j < |fs| :: fs[i].path != fs[j].path
  }

  lemma {:induction false} MemberOfListing(absPath: Path, entries: seq<Entry>, f: Found) returns (i: nat)
    requires f in Listing(absPath, entries)
    ensures i < |entries| && f in ListingOf(absPath, entries[i])
    decreases |entries|
  {
    var n := |entries| - 1;
    if f in Listing(absPath, entries[..n]) {
      i := MemberOfListing(absPath, entries[..n], f);
    } else {
      i := n;
    }
  }

  lemma WellFormedInit(entries: seq<Entry>)
    requires WellFormed(entries) && entries != []
    ensures WellFormed(entries[..|entries| - 1])
    ensures entries[|entries| - 1].Directory? ==> WellFormed(entries[|entries| - 1].entries)
  {
    var init := entries[..|entries| - 1];
    assert forall e | e in init :: e in entries;
    assert entries[|entries| - 1] in entries;
  }

  lemma {:induction false} ListedOnce(absPath: Path, entries: seq<Entry>)
    requires WellFormed(entries)
    ensures DistinctFound(Listing(absPath, entries))
    decreases entries
  {
    if entries != [] {
      var n := |entries| - 1;
      var init, e := entries[..n], entries[n];
      WellFormedInit(entries);
      ListedOnce(absPath, init);
      if e.Directory? {
        ListedOnce(Child(absPath, e.name), e.entries);
      }
      var before, last := Listing(absPath, init), ListingOf(absPath, e);
      forall f, g | f in before && g in last
        ensures f.path != g.path
      {
        if f.path == g.path {
          var i := MemberOfListing(absPath, init, f);
          EntryStandsUnder(absPath, init[i], f);
          EntryStandsUnder(absPath, e, g);
          SiblingsDoNotMeet(f.path, absPath, init[i].name, e.name);
        }
      }
    }
  }

  /** Cuts the folder's path off. */
  function GetRelativeTo(absPath: Path, relDir: Path): Path
    requires |relDir| <= |absPath|
  {
    absPath[|relDir|..]
  }

  /** The listing of a folder: every file of the tree, reached by its names, and nothing else; each once;
      relative paths start with a separator, are distinct, and give the absolute path back. */
  lemma {:induction false} ListingIsExact(root: Path, entries: seq<Entry>)
    requires WellFormed(entries)
    ensures forall f :: f in Listing(root, entries) <==> Leads(root, entries, f)
    ensures DistinctFound(Listing(root, entries))
    ensures forall f | f in Listing(root, entries) ::
              && |root| < |f.path|
              && GetRelativeTo(f.path, root)[0] == 92
              && root + GetRelativeTo(f.path, root) == f.path
  {
    ListedOnce(root, entries);
    forall f | f in Listing(root, entries)
      ensures Leads(root, entries, f)
      ensures |root| < |f.path| && GetRelativeTo(f.path, root)[0] == 92
      ensures root + GetRelativeTo(f.path, root) == f.path
    {
      var names := ListedResolves(root, entries, f);
      AllStandBehind(root, entries, f);
    }
    forall f | Leads(root, entries, f)
      ensures f in Listing(root, entries)
    {
      var names :| Resolves(entries, names, f.stored) && f.path == Joined(root, names);
      ResolvedIsListed(root, entries, names, f.stored);
    }
  }

  // ---- The two tables ----

  /** `documents` is the prefix that the hash drops, `root` the one the table drops. */
  function HashOf(documents: Path, f: Found): Hash
    requires |documents| <= |f.path|
  {
    FileHash(f.stored.size, GetRelativeTo(f.path, documents), f.stored.text)
  }

  /** For a shared folder inside Documents this is the hash a watcher announces for the file's relative path. */
  lemma ListedHashIsAnnounced(documents: Path, folder: Path, f: Found)
    requires |documents + folder| <= |f.path| && f.path[..|documents + folder|] == documents + folder
    ensures HashOf(documents, f) == Announced(folder, GetRelativeTo(f.path, documents + folder), f.stored)
  {
    var root := documents + folder;
    assert f.path == root + GetRelativeTo(f.path, root);
    assert GetRelativeTo(f.path, documents) == folder + GetRelativeTo(f.path, root);
  }

  predicate AllBehind(fs: seq<Found>, root: Path) {
    forall f | f in fs :: |root| <= |f.path| && f.path[..|root|] == root
  }

  /** The table of a listing: one entry per file. */
  ghost predicate IsTableOf(t: Table, documents: Path, root: Path, fs: seq<Found>)
    requires |documents| <= |root| && AllBehind(fs, root)
  {
    && (forall f | f in fs :: GetRelativeTo(f.path, root) in t
          && t[GetRelativeTo(f.path, root)] == HashOf(documents, f))
    && (forall p | p in t :: exists f :: f in fs && GetRelativeTo(f.path, root) == p)
  }

  lemma DistinctRelative(fs: seq<Found>, root: Path, f: Found, i: nat)
    requires DistinctFound(fs) && AllBehind(fs, root)
    requires i < |fs| && f in fs[..i]
    ensures GetRelativeTo(f.path, root) != GetRelativeTo(fs[i].path, root)
  {
    var j :| 0 <= j < i && fs[j] == f;
    assert fs[i] in fs && fs[j] in fs;
    assert f.path == root + GetRelativeTo(f.path, root);
    assert fs[i].path == root + GetRelativeTo(fs[i].path, root);
  }

  /** The `Node` constructor assigns entry by entry. */
  method ConstructTable(documents: Path, root: Path, fs: seq<Found>) returns (fileHashes: Table)
    requires |documents| <= |root| && AllBehind(fs, root) && DistinctFound(fs)
    ensures IsTableOf(fileHashes, documents, root, fs)
  {
    fileHashes := map[];
    for i := 0 to |fs|
      invariant AllBehind(fs[..i], root) && IsTableOf(fileHashes, documents, root, fs[..i])
    {
      assert fs[i] in fs;
      AddEntry(fileHashes, documents, root, fs, i);
      fileHashes := fileHashes[GetRelativeTo(fs[i].path, root) := HashOf(documents, fs[i])];
    }
    assert fs[..|fs|] == fs;
  }

  lemma AddEntry(t: Table, documents: Path, root: Path, fs: seq<Found>, i: nat)
    requires |documents| <= |root| && AllBehind(fs, root) && DistinctFound(fs) && i < |fs|
    requires AllBehind(fs[..i], root) && IsTableOf(t, documents, root, fs[..i])
    ensures fs[i] in fs && |root| <= |fs[i].path|
    ensures GetRelativeTo(fs[i].path, root) !in t
    ensures AllBehind(fs[..i + 1], root)
    ensures IsTableOf(t[GetRelativeTo(fs[i].path, root) := HashOf(documents, fs[i])], documents, root, fs[..i + 1])
  {
    assert fs[i] in fs;
    assert fs[..i + 1] == fs[..i] + [fs[i]];
    forall f | f in fs[..i]
      ensures GetRelativeTo(f.path, root) != GetRelativeTo(fs[i].path, root)
    {
      DistinctRelative(fs, root, f, i);
    }
    var u := t[GetRelativeTo(fs[i].path, root) := HashOf(documents, fs[i])];
    forall p | p in u
      ensures exists f :: f in fs[..i + 1] && GetRelativeTo(f.path, root) == p
    {
      if p in t {
        var f :| f in fs[..i] && GetRelativeTo(f.path, root) == p;
        assert f in fs[..i + 1];
      } else {
        assert fs[i] in fs[..i + 1];
      }
    }
  }

  /** `CreateFileHashes` inserts, which keeps an entry that is already there. */
  method CreateFileHashes(documents: Path, root: Path, fs: seq<Found>) returns (pathToHash: Table)
    requires |documents| <= |root| && AllBehind(fs, root) && DistinctFound(fs)
    ensures IsTableOf(pathToHash, documents, root, fs)
  {
    pathToHash := map[];
    for i := 0 to |fs|
      invariant AllBehind(fs[..i], root) && IsTableOf(pathToHash, documents, root, fs[..i])
    {
      assert fs[i] in fs;
      AddEntry(pathToHash, documents, root, fs, i);
      var p := GetRelativeTo(fs[i].path, root);
      if p !in pathToHash {
        pathToHash := pathToHash[p := HashOf(documents, fs[i])];
      }
    }
    assert fs[..|fs|] == fs;
  }

  /** Assigning and inserting build the same table: a listing has only one. */
  lemma OneTablePerListing(a: Table, b: Table, documents: Path, root: Path, fs: seq<Found>)
    requires |documents| <= |root| && AllBehind(fs, root)
    requires IsTableOf(a, documents, root, fs) && IsTableOf(b, documents, root, fs)
    ensures a == b
  {
    forall p
      ensures p in a <==> p in b
      ensures p in a ==> a[p] == b[p]
    {
      if p in a {
        var f :| f in fs && GetRelativeTo(f.path, root) == p;
      }
      if p in b {
        var f :| f in fs && GetRelativeTo(f.path, root) == p;
      }
    }
  }

  lemma ListingIsBehind(root: Path, entries: seq<Entry>)
    ensures AllBehind(Listing(root, entries), root)
  {
    forall f | f in Listing(root, entries)
      ensures |root| <= |f.path| && f.path[..|root|] == root
    {
      AllStandBehind(root, entries, f);
    }
  }

  /** Listing and both tables put together, as the program runs them over one directory tree. */
  method BuildBothTables(documents: Path, root: Path, entries: seq<Entry>) returns (fileHashes: Table, snapshot: Table)
    requires |documents| <= |root| && WellFormed(entries)
    ensures AllBehind(Listing(root, entries), root)
    ensures fileHashes == snapshot && IsTableOf(snapshot, documents, root, Listing(root, entries))
  {
    var filepaths := GetFilepaths(root, entries);
    ListingIsExact(root, entries);
    ListingIsBehind(root, entries);
    fileHashes := ConstructTable(documents, root, filepaths);
    snapshot := CreateFileHashes(documents, root, filepaths);
    OneTablePerListing(fileHashes, snapshot, documents, root, filepaths);
  }

  /** How a node starts: the constructor builds its table from the directory, the watcher thread its snapshot from the
      directory as it finds it a little later. */
  method StartUp(documents: Path, root: Path, atStart: seq<Entry>, atFirstScan: seq<Entry>)
    returns (folder: WatchPipeline.SyncedFolder)
    requires |documents| <= |root| && WellFormed(atStart) && WellFormed(atFirstScan)
    ensures fresh(folder) && WatchPipeline.Initial(folder.State()) && folder.directory == folder.snapshot
    ensures AllBehind(Listing(root, atStart), root) && AllBehind(Listing(root, atFirstScan), root)
    ensures IsTableOf(folder.fileHashes, documents, root, Listing(root, atStart))
    ensures IsTableOf(folder.snapshot, documents, root, Listing(root, atFirstScan))
    ensures atStart == atFirstScan ==> folder.fileHashes == folder.snapshot
  {
    ListingIsExact(root, atStart);
    ListingIsExact(root, atFirstScan);
    ListingIsBehind(root, atStart);
    ListingIsBehind(root, atFirstScan);
    var filepaths := GetFilepaths(root, atStart);
    var fileHashes := ConstructTable(documents, root, filepaths);
    filepaths := GetFilepaths(root, atFirstScan);
    var snapshot := CreateFileHashes(documents, root, filepaths);
    if atStart == atFirstScan {
      OneTablePerListing(fileHashes, snapshot, documents, root, filepaths);
    }
    folder := new WatchPipeline.SyncedFolder(fileHashes, snapshot);
  }
}

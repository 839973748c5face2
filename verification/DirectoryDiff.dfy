/** The two directory diffs of DirectoryMonitor.cpp and the replay loop that consumes their changes. */
module DirectoryDiff {
  import opened Base

  // ---- The diffs, in iteration order ----

  /** What the scan loop appends for one path of the newer map. */
  function Compared(p: Path, host: Table, foreign: Table): seq<Change>
    requires p in foreign
  {
    if p in host then
      if host[p] != foreign[p] then [Change(p, foreign[p], Edit)] else []
    else
      [Change(p, foreign[p], Addition)]
  }

  function Upserts(keys: seq<Path>, host: Table, foreign: Table): seq<Change>
    requires forall k | k in keys :: k in foreign
  {
    if keys == [] then [] else
      Upserts(keys[..|keys| - 1], host, foreign) + Compared(keys[|keys| - 1], host, foreign)
  }

  lemma {:induction false} UpsertsStep(keys: seq<Path>, i: nat, host: Table, foreign: Table)
    requires i < |keys| && forall k | k in keys :: k in foreign
    ensures Upserts(keys[..i + 1], host, foreign)
         == Upserts(keys[..i], host, foreign) + Compared(keys[i], host, foreign)
  {
    assert keys[..i + 1][..i] == keys[..i];
  }

  function Removals(keys: seq<Path>, next: Table): seq<Change> {
    if keys == [] then [] else
      var k := keys[|keys| - 1];
      Removals(keys[..|keys| - 1], next) + if k in next then [] else [Change(k, 0, Deletion)]
  }

  lemma {:induction false} RemovalsStep(before: seq<Change>, keys: seq<Path>, i: nat, next: Table)
    requires i < |keys|
    ensures before + Removals(keys[..i + 1], next)
         == before + Removals(keys[..i], next) + if keys[i] in next then [] else [Change(keys[i], 0, Deletion)]
  {
    assert keys[..i + 1][..i] == keys[..i];
  }

  /** The host/foreign overload. */
  function MergeDiff(host: Table, foreign: Table): seq<Change> {
    Upserts(InOrder(foreign.Keys), host, foreign)
  }

  /** The overload that compares the directory with the watcher's previous snapshot. */
  function SnapshotDiff(prev: Table, next: Table): seq<Change> {
    MergeDiff(prev, next) + Removals(InOrder(prev.Keys), next)
  }

  /** The host/foreign overload as it is written: one pass over the foreign map. */
  method GetMergeChanges(host: Table, foreign: Table) returns (fileChanges: seq<Change>)
    ensures fileChanges == MergeDiff(host, foreign)
  {
    hide InOrder;
    var keys := InOrder(foreign.Keys);
    fileChanges := [];
    for i := 0 to |keys|
      invariant fileChanges == Upserts(keys[..i], host, foreign)
    {
      var filePath := keys[i];
      UpsertsStep(keys, i, host, foreign);
      if filePath in host {
        if host[filePath] != foreign[filePath] {
          fileChanges := fileChanges + [Change(filePath, foreign[filePath], Edit)];
        }
      } else {
        fileChanges := fileChanges + [Change(filePath, foreign[filePath], Addition)];
      }
    }
    assert keys[..|keys|] == keys;
  }

  // ---- Replaying changes into a table (the handler's update loop) ----

  function Effect(c: Change): Option<Hash> {
    if c.kind != Deletion then Some(c.hash) else None
  }

  function ApplyOne(t: Table, c: Change): Table {
    if c.kind != Deletion then t[c.path := c.hash] else t - {c.path}
  }

  function Apply(t: Table, cs: seq<Change>): Table {
    if cs == [] then t else ApplyOne(Apply(t, cs[..|cs| - 1]), cs[|cs| - 1])
  }

  lemma {:induction false} ApplyConcat(t: Table, a: seq<Change>, b: seq<Change>)
    ensures Apply(t, a + b) == Apply(Apply(t, a), b)
  {
    if b == [] {
      assert a + b == a;
    } else {
      assert (a + b)[..|a + b| - 1] == a + b[..|b| - 1];
      ApplyConcat(t, a, b[..|b| - 1]);
    }
  }

  /** A replay begins with the first change. */
  lemma {:induction false} ApplyFirst(t: Table, cs: seq<Change>)
    requires cs != []
    ensures Apply(t, cs) == Apply(ApplyOne(t, cs[0]), cs[1..])
  {
    assert cs == [cs[0]] + cs[1..];
    ApplyConcat(t, [cs[0]], cs[1..]);
    assert [cs[0]][..0] == [];
  }

  function LastFor(cs: seq<Change>, p: Path): Option<Change> {
    if cs == [] then None
    else if cs[|cs| - 1].path == p then Some(cs[|cs| - 1])
    else LastFor(cs[..|cs| - 1], p)
  }

  lemma {:induction false} LastForIsLast(cs: seq<Change>, p: Path)
    ensures LastFor(cs, p).None? <==> forall c | c in cs :: c.path != p
    ensures LastFor(cs, p).Some? ==> LastFor(cs, p).value in cs && LastFor(cs, p).value.path == p
  {
    if cs != [] {
      LastForIsLast(cs[..|cs| - 1], p);
      assert cs == cs[..|cs| - 1] + [cs[|cs| - 1]];
    }
  }

  /** Only the last change to a path matters to the table after a replay. */
  lemma {:induction false} ApplyAt(t: Table, cs: seq<Change>, p: Path)
    ensures Get(Apply(t, cs), p)
         == match LastFor(cs, p) case None => Get(t, p) case Some(c) => Effect(c)
  {
    if cs != [] {
      ApplyAt(t, cs[..|cs| - 1], p);
    }
  }

  // ---- What a diff means ----

  predicate DistinctPaths(cs: seq<Change>) {
    forall i, j | 0 <= i < j < |cs| :: cs[i].path != cs[j].path
  }

  /** `c` is the one change that turns `prev` into `next` at its path, and there is something to turn. */
  predicate Correct(c: Change, prev: Table, next: Table) {
    && Get(prev, c.path) != Get(next, c.path)
    && c == Change(c.path, if c.path in next then next[c.path] else 0,
                   if c.path !in next then Deletion else if c.path in prev then Edit else Addition)
  }

  /** Every differing path has exactly one change, of the right kind and hash; equal paths have none. */
  ghost predicate Describes(cs: seq<Change>, prev: Table, next: Table) {
    DistinctPaths(cs) && forall c :: c in cs <==> Correct(c, prev, next)
  }

  lemma ComparedIs(k: Path, host: Table, foreign: Table)
    requires k in foreign
    ensures |Compared(k, host, foreign)| <= 1
    ensures forall c :: c in Compared(k, host, foreign) <==> c.path == k && Correct(c, host, host + foreign)
  {
  }

  lemma {:induction false} UpsertsAre(keys: seq<Path>, host: Table, foreign: Table)
    requires forall k | k in keys :: k in foreign
    requires forall i, j | 0 <= i < j < |keys| :: keys[i] != keys[j]
    ensures DistinctPaths(Upserts(keys, host, foreign))
    ensures forall c :: c in Upserts(keys, host, foreign)
                   <==> c.path in keys && Correct(c, host, host + foreign)
  {
    if keys != [] {
      var init, k := keys[..|keys| - 1], keys[|keys| - 1];
      assert keys == init + [k] && k !in init;
      var u, v := Upserts(init, host, foreign), Compared(k, host, foreign);
      UpsertsAre(init, host, foreign);
      ComparedIs(k, host, foreign);
      DisjointDistinct(u, v);
      assert Upserts(keys, host, foreign) == u + v;
    }
  }

  lemma {:induction false} RemovalsAre(keys: seq<Path>, next: Table)
    requires forall i, j | 0 <= i < j < |keys| :: keys[i] != keys[j]
    ensures DistinctPaths(Removals(keys, next))
    ensures forall c :: c in Removals(keys, next)
                   <==> c.path in keys && c.path !in next && c == Change(c.path, 0, Deletion)
  {
    if keys != [] {
      var init, k := keys[..|keys| - 1], keys[|keys| - 1];
      RemovalsAre(init, next);
      assert keys == init + [k];
      var r := Removals(init, next);
      assert forall i | 0 <= i < |r| :: r[i] in r && r[i].path in init;
      assert k !in init;
    }
  }

  /** The host/foreign diff describes how to get from the host to the host overridden by the foreign map. */
  lemma MergeDiffDescribes(host: Table, foreign: Table)
    ensures Describes(MergeDiff(host, foreign), host, host + foreign)
    ensures forall c | c in MergeDiff(host, foreign) :: c.kind != Deletion
  {
    UpsertsAre(InOrder(foreign.Keys), host, foreign);
    forall c | Correct(c, host, host + foreign)
      ensures c.path in foreign
    {
    }
  }

  lemma CorrectForMerge(c: Change, prev: Table, next: Table)
    ensures Correct(c, prev, prev + next) <==> c.path in next && Correct(c, prev, next)
  {
  }

  lemma CorrectForRemoval(c: Change, prev: Table, next: Table)
    ensures c.path !in next && Correct(c, prev, next)
       <==> c.path in prev && c.path !in next && c == Change(c.path, 0, Deletion)
  {
  }

  /** The snapshot diff describes the step from one snapshot to the next. */
  lemma SnapshotDiffDescribes(prev: Table, next: Table)
    ensures Describes(SnapshotDiff(prev, next), prev, next)
  {
    var up, rm := MergeDiff(prev, next), Removals(InOrder(prev.Keys), next);
    assert DistinctPaths(up) && forall c :: c in up <==> c.path in next && Correct(c, prev, next) by {
      MergeDiffDescribes(prev, next);
      forall c
        ensures c in up <==> c.path in next && Correct(c, prev, next)
      {
        CorrectForMerge(c, prev, next);
      }
    }
    assert DistinctPaths(rm) && forall c :: c in rm <==> c.path !in next && Correct(c, prev, next) by {
      RemovalsAre(InOrder(prev.Keys), next);
      forall c
        ensures c in rm <==> c.path !in next && Correct(c, prev, next)
      {
        CorrectForRemoval(c, prev, next);
      }
    }
    DisjointDistinct(up, rm);
  }

  lemma DisjointDistinct(a: seq<Change>, b: seq<Change>)
    requires DistinctPaths(a) && DistinctPaths(b)
    requires forall c, d | c in a && d in b :: c.path != d.path
    ensures DistinctPaths(a + b)
  {
  }

  /** Replaying a description of the difference, in any order, performs the difference. */
  lemma {:induction false} DescribedReplay(cs: seq<Change>, prev: Table, next: Table)
    requires Describes(cs, prev, next)
    ensures Apply(prev, cs) == next
  {
    forall p
      ensures Get(Apply(prev, cs), p) == Get(next, p)
    {
      ApplyAt(prev, cs, p);
      LastForIsLast(cs, p);
      if LastFor(cs, p).None? && Get(prev, p) != Get(next, p) {
        var c := Change(p, if p in next then next[p] else 0,
                        if p !in next then Deletion else if p in prev then Edit else Addition);
        assert Correct(c, prev, next);
      }
    }
    SameAnswersSameMap(Apply(prev, cs), next);
  }

  predicate Mentions(cs: seq<Change>, p: Path) {
    exists c :: c in cs && c.path == p
  }

  lemma MentionsConcat(a: seq<Change>, b: seq<Change>, p: Path)
    ensures Mentions(a + b, p) <==> Mentions(a, p) || Mentions(b, p)
  {
    if Mentions(a, p) {
      var c :| c in a && c.path == p;
      assert c in a + b;
    }
    if Mentions(b, p) {
      var c :| c in b && c.path == p;
      assert c in a + b;
    }
  }

  /** A description mentions exactly the differing paths, and its last word on a path is the new value. */
  lemma {:induction false} DescribedPath(cs: seq<Change>, prev: Table, next: Table, p: Path)
    requires Describes(cs, prev, next)
    ensures Mentions(cs, p) <==> Get(prev, p) != Get(next, p)
    ensures Mentions(cs, p) <==> LastFor(cs, p).Some?
    ensures LastFor(cs, p).Some? ==> LastFor(cs, p).value in cs && Effect(LastFor(cs, p).value) == Get(next, p)
  {
    LastForIsLast(cs, p);
    if Get(prev, p) != Get(next, p) {
      var c := Change(p, if p in next then next[p] else 0,
                      if p !in next then Deletion else if p in prev then Edit else Addition);
      assert Correct(c, prev, next);
      assert c in cs;
    }
  }

  lemma PermutedDescription(cs: seq<Change>, ds: seq<Change>, prev: Table, next: Table)
    requires Describes(cs, prev, next) && multiset(cs) == multiset(ds)
    ensures Describes(ds, prev, next)
  {
    forall c
      ensures c in ds <==> c in cs
    {
      assert c in ds <==> c in multiset(ds);
      assert c in cs <==> c in multiset(cs);
    }
    forall i, j | 0 <= i < j < |ds|
      ensures ds[i].path != ds[j].path
    {
      if ds[i].path == ds[j].path {
        assert ds[i] in cs && ds[j] in cs;
        assert ds[i] == ds[j];
        TwiceInMultiset(ds, i, j);
        OnceInMultiset(cs, ds[i]);
      }
    }
  }

  lemma TwiceInMultiset(ds: seq<Change>, i: nat, j: nat)
    requires i < j < |ds| && ds[i] == ds[j]
    ensures multiset(ds)[ds[i]] >= 2
  {
    assert ds == ds[..i] + [ds[i]] + ds[i + 1..j] + [ds[j]] + ds[j + 1..];
  }

  lemma {:induction false} OnceInMultiset(cs: seq<Change>, c: Change)
    requires DistinctPaths(cs)
    ensures multiset(cs)[c] <= 1
  {
    if cs != [] {
      OnceInMultiset(cs[1..], c);
      assert cs == [cs[0]] + cs[1..];
      if cs[0] == c {
        assert c !in cs[1..];
        assert c !in multiset(cs[1..]);
      }
    }
  }

  /** Diff, shuffle, replay: the old table becomes the new one whatever the order of the changes. */
  lemma {:induction false} DiffThenReplay(prev: Table, next: Table, shuffled: seq<Change>)
    requires multiset(shuffled) == multiset(SnapshotDiff(prev, next))
    ensures Apply(prev, shuffled) == next
  {
    SnapshotDiffDescribes(prev, next);
    PermutedDescription(SnapshotDiff(prev, next), shuffled, prev, next);
    DescribedReplay(shuffled, prev, next);
  }

  /** The host/foreign diff merges: shuffled or not, replaying it gives the foreign entries priority. */
  lemma {:induction false} MergeThenReplay(host: Table, foreign: Table, shuffled: seq<Change>)
    requires multiset(shuffled) == multiset(MergeDiff(host, foreign))
    ensures Apply(host, shuffled) == host + foreign
  {
    MergeDiffDescribes(host, foreign);
    PermutedDescription(MergeDiff(host, foreign), shuffled, host, host + foreign);
    DescribedReplay(shuffled, host, host + foreign);
  }

  // ---- The order of the changes ----

  ghost predicate Ascending(cs: seq<Change>) {
    forall i, j | 0 <= i < j < |cs| :: Before(cs[i].path, cs[j].path)
  }

  ghost predicate AscendingKeys(keys: seq<Path>) {
    forall i, j | 0 <= i < j < |keys| :: Before(keys[i], keys[j])
  }

  lemma AscendingPush(cs: seq<Change>, c: Change)
    requires Ascending(cs) && forall d | d in cs :: Before(d.path, c.path)
    ensures Ascending(cs + [c])
  {
  }

  lemma LastKeyIsLast(keys: seq<Path>)
    requires keys != [] && AscendingKeys(keys)
    ensures
      var init, last := keys[..|keys| - 1], keys[|keys| - 1];
      AscendingKeys(init) && forall k | k in init :: Before(k, last)
  {
  }

  lemma {:induction false} UpsertsAscend(keys: seq<Path>, host: Table, foreign: Table)
    requires AscendingKeys(keys) && forall k | k in keys :: k in foreign
    ensures Ascending(Upserts(keys, host, foreign))
    ensures forall c | c in Upserts(keys, host, foreign) :: c.path in keys
  {
    if keys != [] {
      var init, k := keys[..|keys| - 1], keys[|keys| - 1];
      LastKeyIsLast(keys);
      UpsertsAscend(init, host, foreign);
      var u := Upserts(init, host, foreign);
      if Compared(k, host, foreign) == [] {
        assert u + [] == u;
      } else {
        AscendingPush(u, Compared(k, host, foreign)[0]);
      }
    }
  }

  lemma {:induction false} RemovalsAscend(keys: seq<Path>, next: Table)
    requires AscendingKeys(keys)
    ensures Ascending(Removals(keys, next))
    ensures forall c | c in Removals(keys, next) :: c.path in keys && c.kind == Deletion
  {
    if keys != [] {
      var init, k := keys[..|keys| - 1], keys[|keys| - 1];
      LastKeyIsLast(keys);
      RemovalsAscend(init, next);
      var r := Removals(init, next);
      if k in next {
        assert r + [] == r;
      } else {
        AscendingPush(r, Change(k, 0, Deletion));
      }
    }
  }

  /** The host/foreign diff names its paths in ascending order. */
  lemma MergeDiffAscends(host: Table, foreign: Table)
    ensures
      var d := MergeDiff(host, foreign);
      forall i, j | 0 <= i < j < |d| :: Before(d[i].path, d[j].path)
  {
    InOrderIsSorted(foreign.Keys);
    UpsertsAscend(InOrder(foreign.Keys), host, foreign);
  }

  lemma OneAfterTheOther(up: seq<Change>, rm: seq<Change>)
    requires Ascending(up) && forall c | c in up :: c.kind != Deletion
    requires Ascending(rm) && forall c | c in rm :: c.kind == Deletion
    ensures
      var d, n := up + rm, |up|;
      && (forall i | 0 <= i < |d| :: d[i].kind == Deletion <==> n <= i)
      && (forall i, j | 0 <= i < j < n :: Before(d[i].path, d[j].path))
      && (forall i, j | n <= i < j < |d| :: Before(d[i].path, d[j].path))
  {
    hide Before;
    var d, n := up + rm, |up|;
    assert forall i | 0 <= i < |d| :: d[i] == if i < n then up[i] else rm[i - n];
  }

  /** The snapshot diff has additions and edits first, in ascending order, then the deletions, in ascending order. */
  lemma SnapshotDiffAscends(prev: Table, next: Table) returns (n: nat)
    ensures n <= |SnapshotDiff(prev, next)|
    ensures
      var d := SnapshotDiff(prev, next);
      && (forall i | 0 <= i < |d| :: d[i].kind == Deletion <==> n <= i)
      && (forall i, j | 0 <= i < j < n :: Before(d[i].path, d[j].path))
      && (forall i, j | n <= i < j < |d| :: Before(d[i].path, d[j].path))
  {
    hide InOrder, MergeDiff, Removals, Before;
    var up, rm := MergeDiff(prev, next), Removals(InOrder(prev.Keys), next);
    n := |up|;
    MergeDiffDescribes(prev, next);
    MergeDiffAscends(prev, next);
    InOrderIsSorted(prev.Keys);
    RemovalsAscend(InOrder(prev.Keys), next);
    OneAfterTheOther(up, rm);
  }

  lemma EmptyOrNot(cs: seq<Change>)
    ensures cs == [] || exists c :: c in cs
  {
    assert cs == [] || cs[0] in cs;
  }

  lemma LastOfAscending(a: seq<Change>, c: Change)
    requires Ascending(a) && c in a
    ensures c == a[|a| - 1] || Before(c.path, a[|a| - 1].path)
  {
    var i :| 0 <= i < |a| && a[i] == c;
  }

  lemma SameLastChange(a: seq<Change>, b: seq<Change>)
    requires Ascending(a) && Ascending(b) && (forall c :: c in a <==> c in b) && a != [] && b != []
    ensures a[|a| - 1] == b[|b| - 1]
  {
    hide Before;
    var c, d := a[|a| - 1], b[|b| - 1];
    LastOfAscending(b, c);
    LastOfAscending(a, d);
    BeforeIsTotal(c.path, d.path);
  }

  lemma WithoutTheLast(a: seq<Change>)
    requires Ascending(a) && a != []
    ensures Ascending(a[..|a| - 1]) && forall x :: x in a[..|a| - 1] <==> x in a && x != a[|a| - 1]
  {
    hide Before;
    var c := a[|a| - 1];
    BeforeIsTotal(c.path, c.path);
    assert a == a[..|a| - 1] + [c];
  }

  /** Two ascending lists with the same members are the same list. */
  lemma {:induction false} OneAscendingList(a: seq<Change>, b: seq<Change>)
    requires Ascending(a) && Ascending(b) && forall c :: c in a <==> c in b
    ensures a == b
  {
    hide Ascending;
    if a != [] {
      assert a[0] in b;
      SameLastChange(a, b);
      WithoutTheLast(a);
      WithoutTheLast(b);
      var s, t := a[..|a| - 1], b[..|b| - 1];
      forall x
        ensures x in s <==> x in t
      {
        assert (x in s <==> x in a && x != a[|a| - 1]) && (x in t <==> x in b && x != b[|b| - 1]);
      }
      OneAscendingList(s, t);
      assert a == a[..|a| - 1] + [a[|a| - 1]] && b == b[..|b| - 1] + [b[|b| - 1]];
    } else {
      EmptyOrNot(b);
    }
  }

  /** The host/foreign diff is the only list that describes the difference in ascending order. */
  lemma OnlyMergeDiff(host: Table, foreign: Table, cs: seq<Change>)
    requires Describes(cs, host, host + foreign)
    requires forall i, j | 0 <= i < j < |cs| :: Before(cs[i].path, cs[j].path)
    ensures cs == MergeDiff(host, foreign)
  {
    MergeDiffDescribes(host, foreign);
    MergeDiffAscends(host, foreign);
    OneAscendingList(cs, MergeDiff(host, foreign));
  }

  function WithoutDeletions(cs: seq<Change>): seq<Change> {
    if cs == [] then [] else
      (if cs[0].kind == Deletion then [] else [cs[0]]) + WithoutDeletions(cs[1..])
  }

  lemma {:induction false} WithoutDeletionsOfConcat(a: seq<Change>, b: seq<Change>)
    requires forall c | c in a :: c.kind != Deletion
    requires forall c | c in b :: c.kind == Deletion
    ensures WithoutDeletions(a + b) == a
  {
    if a != [] {
      assert (a + b)[1..] == a[1..] + b;
      WithoutDeletionsOfConcat(a[1..], b);
    } else if b != [] {
      assert a + b == b;
      assert (a + b)[1..] == [] + b[1..];
      WithoutDeletionsOfConcat([], b[1..]);
    }
  }

  /** The two overloads differ by exactly the deletions. */
  lemma OverloadsAgree(prev: Table, next: Table)
    ensures MergeDiff(prev, next) == WithoutDeletions(SnapshotDiff(prev, next))
  {
    MergeDiffDescribes(prev, next);
    RemovalsAre(InOrder(prev.Keys), next);
    WithoutDeletionsOfConcat(MergeDiff(prev, next), Removals(InOrder(prev.Keys), next));
  }

  /** A description has as many changes as there are differing paths. */
  lemma DescribedCount(cs: seq<Change>, prev: Table, next: Table, paths: set<Path>)
    requires Describes(cs, prev, next)
    requires forall p | Get(prev, p) != Get(next, p) :: p in paths
    ensures |cs| == |set p | p in paths && Get(prev, p) != Get(next, p)|
  {
    DistinctPathCount(cs);
    forall p
      ensures p in (set c | c in cs :: c.path) <==> Get(prev, p) != Get(next, p)
    {
      DescribedPath(cs, prev, next, p);
    }
    assert (set c | c in cs :: c.path) == set p | p in paths && Get(prev, p) != Get(next, p);
  }

  lemma {:induction false} DistinctPathCount(cs: seq<Change>)
    requires DistinctPaths(cs)
    ensures |cs| == |set c | c in cs :: c.path|
  {
    var paths := set c | c in cs :: c.path;
    if cs == [] {
      assert paths == {};
    } else {
      var init, c := cs[..|cs| - 1], cs[|cs| - 1];
      assert cs == init + [c];
      DistinctPathCount(init);
      var before := set d | d in init :: d.path;
      assert c.path !in before;
      assert paths == before + {c.path};
    }
  }
}

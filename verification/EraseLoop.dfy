/** The filter loop of `dealWithHashTable`: it erases at `i` and then still increments `i`. */
module EraseLoop {
  import opened Base

  /** The changes the loop is meant to drop. */
  predicate Doomed(c: Change, ignoreEdits: bool) {
    c.kind == Deletion || (c.kind == Edit && ignoreEdits)
  }

  /** How many doomed changes stand in a row just before position `k`. */
  function RunPos(d: seq<Change>, ignoreEdits: bool, k: nat): nat
    requires k <= |d|
  {
    if k == 0 || !Doomed(d[k - 1], ignoreEdits) then 0 else 1 + RunPos(d, ignoreEdits, k - 1)
  }

  /** A change stays if it is wanted, or if it has an odd number of doomed ones in a row before it. */
  predicate Survives(d: seq<Change>, ignoreEdits: bool, k: nat)
    requires k < |d|
  {
    !Doomed(d[k], ignoreEdits) || RunPos(d, ignoreEdits, k) % 2 == 1
  }

  /** The survivors among the first `n` changes, in order. */
  function Survivors(d: seq<Change>, ignoreEdits: bool, n: nat): seq<Change>
    requires n <= |d|
  {
    if n == 0 then [] else
      var before := Survivors(d, ignoreEdits, n - 1);
      if Survives(d, ignoreEdits, n - 1) then before + [d[n - 1]] else before
  }

  /** What the loop was written for: drop every doomed change. */
  function Wanted(d: seq<Change>, ignoreEdits: bool): seq<Change> {
    if d == [] then [] else
      var before := Wanted(d[..|d| - 1], ignoreEdits);
      if Doomed(d[|d| - 1], ignoreEdits) then before else before + [d[|d| - 1]]
  }

  /** After an erasure the next element is passed over unseen. */
  lemma EraseThenSkip(d: seq<Change>, ignoreEdits: bool, n: nat)
    requires n < |d| && Doomed(d[n], ignoreEdits) && RunPos(d, ignoreEdits, n) % 2 == 0
    ensures Survivors(d, ignoreEdits, n + 1) == Survivors(d, ignoreEdits, n)
    ensures n + 1 < |d| ==>
              && Survivors(d, ignoreEdits, n + 2) == Survivors(d, ignoreEdits, n) + [d[n + 1]]
              && RunPos(d, ignoreEdits, n + 2) % 2 == 0
  {
  }

  lemma KeepOne(d: seq<Change>, ignoreEdits: bool, n: nat)
    requires n < |d| && !Doomed(d[n], ignoreEdits)
    ensures Survivors(d, ignoreEdits, n + 1) == Survivors(d, ignoreEdits, n) + [d[n]]
    ensures RunPos(d, ignoreEdits, n + 1) == 0
  {
  }

  /** Erasing just behind a prefix, and moving elements into it. */
  lemma EraseBehind(kept: seq<Change>, d: seq<Change>, n: nat)
    requires n < |d|
    ensures (kept + d[n..])[..|kept|] + (kept + d[n..])[|kept| + 1..] == kept + d[n + 1..]
    ensures kept + d[n..] == (kept + [d[n]]) + d[n + 1..]
  {
  }

  /** The loop itself, erasing in place. */
  method DropUnwanted(changes: seq<Change>, ignoreEdits: bool) returns (dirChanges: seq<Change>)
    ensures dirChanges == Survivors(changes, ignoreEdits, |changes|)
  {
    dirChanges := changes;
    var i := 0;
    ghost var seen := 0;
    while i < |dirChanges|
      invariant seen <= |changes| && 0 <= i
      invariant i == |Survivors(changes, ignoreEdits, seen)| || (i > |dirChanges| && seen == |changes|)
      invariant dirChanges == Survivors(changes, ignoreEdits, seen) + changes[seen..]
      invariant seen < |changes| ==> RunPos(changes, ignoreEdits, seen) % 2 == 0
      decreases |dirChanges| - i
    {
      ghost var kept := Survivors(changes, ignoreEdits, seen);
      EraseBehind(kept, changes, seen);
      if Doomed(dirChanges[i], ignoreEdits) {
        EraseThenSkip(changes, ignoreEdits, seen);
        dirChanges := dirChanges[..i] + dirChanges[i + 1..];
        seen := seen + 1;
        if seen < |changes| {
          EraseBehind(kept, changes, seen);
          seen := seen + 1;
        }
      } else {
        KeepOne(changes, ignoreEdits, seen);
        seen := seen + 1;
      }
      i := i + 1;
    }
  }

  // ---- What survives ----

  lemma {:induction false} InsideRun(d: seq<Change>, ignoreEdits: bool, a: nat, k: nat)
    requires a <= k <= |d|
    requires forall j | a <= j < k :: Doomed(d[j], ignoreEdits)
    requires a == 0 || !Doomed(d[a - 1], ignoreEdits)
    ensures RunPos(d, ignoreEdits, k) == k - a
  {
    if k > a {
      InsideRun(d, ignoreEdits, a, k - 1);
    }
  }

  /** Of a run of `n` doomed changes standing at `a`, exactly the second, fourth, ... stay: `n / 2` of them. */
  lemma {:induction false} RunKeepsHalf(d: seq<Change>, ignoreEdits: bool, a: nat, b: nat)
    requires a <= b <= |d|
    requires forall j | a <= j < b :: Doomed(d[j], ignoreEdits)
    requires a == 0 || !Doomed(d[a - 1], ignoreEdits)
    ensures forall k | a <= k < b :: Survives(d, ignoreEdits, k) <==> (k - a) % 2 == 1
    ensures |Survivors(d, ignoreEdits, b)| == |Survivors(d, ignoreEdits, a)| + (b - a) / 2
  {
    if b > a {
      RunKeepsHalf(d, ignoreEdits, a, b - 1);
      InsideRun(d, ignoreEdits, a, b - 1);
    }
  }

  lemma {:induction false} WantedOfOneMore(d: seq<Change>, c: Change, ignoreEdits: bool)
    ensures Wanted(d + [c], ignoreEdits)
         == if Doomed(c, ignoreEdits) then Wanted(d, ignoreEdits) else Wanted(d, ignoreEdits) + [c]
  {
    assert (d + [c])[..|d|] == d;
  }

  /** No wanted change is lost and their order is kept. */
  lemma {:induction false} WantedOnesSurvive(d: seq<Change>, ignoreEdits: bool, n: nat)
    requires n <= |d|
    ensures Wanted(Survivors(d, ignoreEdits, n), ignoreEdits) == Wanted(d[..n], ignoreEdits)
  {
    if n > 0 {
      WantedOnesSurvive(d, ignoreEdits, n - 1);
      assert d[..n] == d[..n - 1] + [d[n - 1]];
      WantedOfOneMore(d[..n - 1], d[n - 1], ignoreEdits);
      if Survives(d, ignoreEdits, n - 1) {
        WantedOfOneMore(Survivors(d, ignoreEdits, n - 1), d[n - 1], ignoreEdits);
      }
    }
  }

  predicate NoneAdjacent(d: seq<Change>, ignoreEdits: bool) {
    forall k | 0 < k < |d| :: !(Doomed(d[k - 1], ignoreEdits) && Doomed(d[k], ignoreEdits))
  }

  lemma {:induction false} SurvivorsInclude(d: seq<Change>, ignoreEdits: bool, k: nat, n: nat)
    requires k < n <= |d| && Survives(d, ignoreEdits, k)
    ensures d[k] in Survivors(d, ignoreEdits, n)
  {
    if k < n - 1 {
      SurvivorsInclude(d, ignoreEdits, k, n - 1);
    }
  }

  lemma {:induction false} WantedMembers(d: seq<Change>, ignoreEdits: bool)
    ensures forall c :: c in Wanted(d, ignoreEdits) <==> c in d && !Doomed(c, ignoreEdits)
  {
    if d != [] {
      WantedMembers(d[..|d| - 1], ignoreEdits);
      assert d == d[..|d| - 1] + [d[|d| - 1]];
    }
  }

  lemma {:induction false} SurvivorsAreMembers(d: seq<Change>, ignoreEdits: bool, n: nat)
    requires n <= |d|
    ensures forall c | c in Survivors(d, ignoreEdits, n) :: c in d
  {
    if n > 0 {
      SurvivorsAreMembers(d, ignoreEdits, n - 1);
    }
  }

  lemma {:induction false} ApartSurvivors(d: seq<Change>, ignoreEdits: bool, n: nat)
    requires n <= |d| && NoneAdjacent(d, ignoreEdits)
    ensures Survivors(d, ignoreEdits, n) == Wanted(d[..n], ignoreEdits)
  {
    if n > 0 {
      ApartSurvivors(d, ignoreEdits, n - 1);
      assert d[..n][..n - 1] == d[..n - 1];
      assert Doomed(d[n - 1], ignoreEdits) ==> RunPos(d, ignoreEdits, n - 1) == 0;
    }
  }

  /** Of two doomed neighbours one stays. */
  lemma DoomedSurvivor(d: seq<Change>, ignoreEdits: bool) returns (c: Change)
    requires !NoneAdjacent(d, ignoreEdits)
    ensures c in Survivors(d, ignoreEdits, |d|) && Doomed(c, ignoreEdits)
  {
    var k :| 0 < k < |d| && Doomed(d[k - 1], ignoreEdits) && Doomed(d[k], ignoreEdits);
    assert RunPos(d, ignoreEdits, k) == 1 + RunPos(d, ignoreEdits, k - 1);
    var kept := if Survives(d, ignoreEdits, k) then k else k - 1;
    SurvivorsInclude(d, ignoreEdits, kept, |d|);
    c := d[kept];
  }

  /** The loop is the intended filter if and only if no two doomed changes are neighbours. */
  lemma {:induction false} LoopIsFilterIff(d: seq<Change>, ignoreEdits: bool)
    ensures Survivors(d, ignoreEdits, |d|) == Wanted(d, ignoreEdits) <==> NoneAdjacent(d, ignoreEdits)
  {
    if NoneAdjacent(d, ignoreEdits) {
      ApartSurvivors(d, ignoreEdits, |d|);
      assert d[..|d|] == d;
    } else {
      var c := DoomedSurvivor(d, ignoreEdits);
      WantedMembers(d, ignoreEdits);
    }
  }

  /** With nothing doomed, as for a newcomer reading a table without deletions, the loop changes nothing. */
  lemma {:induction false} NothingDoomed(d: seq<Change>, ignoreEdits: bool)
    requires forall c | c in d :: !Doomed(c, ignoreEdits)
    ensures Survivors(d, ignoreEdits, |d|) == d == Wanted(d, ignoreEdits)
  {
    NothingDoomedUpTo(d, ignoreEdits, |d|);
    assert d[..|d|] == d;
    assert forall k | 0 <= k < |d| :: d[k] in d;
    LoopIsFilterIff(d, ignoreEdits);
  }

  lemma {:induction false} NothingDoomedUpTo(d: seq<Change>, ignoreEdits: bool, n: nat)
    requires n <= |d| && forall c | c in d :: !Doomed(c, ignoreEdits)
    ensures Survivors(d, ignoreEdits, n) == d[..n]
  {
    if n > 0 {
      NothingDoomedUpTo(d, ignoreEdits, n - 1);
      assert d[n - 1] in d;
      assert d[..n] == d[..n - 1] + [d[n - 1]];
    }
  }
}

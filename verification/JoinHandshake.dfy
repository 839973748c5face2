/** A newcomer and an existing node exchange tables (pid 0, pid 1) and then pull from each other.

    The existing node sends its table before it pulls anything, and asks only for files it lacks; the newcomer
    asks for every file that is missing or differs. The pulls of the two sides interleave change by change. */
module JoinHandshake {
  import opened Base
  import opened DirectoryDiff
  import opened EraseLoop
  import opened RequestFiles
  import FileTransfer
  import PacketCodec

  datatype Join<C> = Join(newcomer: Disk<C>, existing: Disk<C>, todoNewcomer: seq<Change>, todoExisting: seq<Change>)

  datatype Side = Newcomer | Existing

  /** One side handles its next change, reading the other's disk as it is now. */
  function Turn<C>(r: Rules<C>, s: Join<C>, side: Side): Join<C> {
    match side
    case Newcomer =>
      if s.todoNewcomer == [] then s
      else s.(newcomer := Pull(r, s.newcomer, s.existing, s.todoNewcomer[0]), todoNewcomer := s.todoNewcomer[1..])
    case Existing =>
      if s.todoExisting == [] then s
      else s.(existing := Pull(r, s.existing, s.newcomer, s.todoExisting[0]), todoExisting := s.todoExisting[1..])
  }

  function Play<C>(r: Rules<C>, s: Join<C>, order: seq<Side>): Join<C> {
    if order == [] then s else Turn(r, Play(r, s, order[..|order| - 1]), order[|order| - 1])
  }

  predicate Finished<C>(s: Join<C>) {
    s.todoNewcomer == [] && s.todoExisting == []
  }

  // ---- The two request lists ----

  /** What the existing node sees in the table that arrived with pid 0. */
  function DiffOfExisting<C>(r: Rules<C>, n0: Disk<C>, e0: Disk<C>): seq<Change> {
    MergeDiff(TableOf(r, e0), PacketCodec.OnTheWire(TableOf(r, n0)))
  }

  /** What the newcomer sees in the table of the reply; the filter loop finds nothing to drop in it. */
  function DiffOfNewcomer<C>(r: Rules<C>, n0: Disk<C>, e0: Disk<C>): seq<Change> {
    MergeDiff(TableOf(r, n0), PacketCodec.OnTheWire(TableOf(r, e0)))
  }

  /** The handshake as the code runs it. */
  function Literal<C>(r: Rules<C>, n0: Disk<C>, e0: Disk<C>): Join<C> {
    var de, dn := DiffOfExisting(r, n0, e0), DiffOfNewcomer(r, n0, e0);
    Join(n0, e0, Survivors(dn, false, |dn|), Survivors(de, true, |de|))
  }

  /** The handshake with the filter that was meant. */
  function Intended<C>(r: Rules<C>, n0: Disk<C>, e0: Disk<C>): Join<C> {
    Join(n0, e0, Wanted(DiffOfNewcomer(r, n0, e0), false), Wanted(DiffOfExisting(r, n0, e0), true))
  }

  lemma DiffMembers<C>(r: Rules<C>, host: Disk<C>, foreign: Disk<C>, c: Change)
    ensures c in MergeDiff(TableOf(r, host), PacketCodec.OnTheWire(TableOf(r, foreign))) <==>
              && c.path in PacketCodec.OnTheWire(TableOf(r, foreign)) && c.path in foreign
              && c.hash == r.announced(c.path, foreign[c.path])
              && c.kind == (if c.path in host then Edit else Addition)
              && (c.path in host ==> r.announced(c.path, host[c.path]) != c.hash)
  {
    var t, u := TableOf(r, host), PacketCodec.OnTheWire(TableOf(r, foreign));
    MergeDiffDescribes(t, u);
    assert c in MergeDiff(t, u) <==> Correct(c, t, t + u);
    assert c.path in u ==> c.path in foreign && u[c.path] == r.announced(c.path, foreign[c.path]);
  }

  lemma NewcomerDropsNothing<C>(r: Rules<C>, n0: Disk<C>, e0: Disk<C>)
    ensures
      var d := DiffOfNewcomer(r, n0, e0);
      Survivors(d, false, |d|) == d == Wanted(d, false)
  {
    MergeDiffDescribes(TableOf(r, n0), PacketCodec.OnTheWire(TableOf(r, e0)));
    NothingDoomed(DiffOfNewcomer(r, n0, e0), false);
  }

  // ---- Interleaving ----

  ghost predicate Apart(a: seq<Change>, b: seq<Change>) {
    forall p :: !(Mentions(a, p) && Mentions(b, p))
  }

  lemma PullSame<C>(r: Rules<C>, disk: Disk<C>, s1: Disk<C>, s2: Disk<C>, c: Change)
    requires Get(s1, c.path) == Get(s2, c.path)
    ensures Pull(r, disk, s1, c) == Pull(r, disk, s2, c)
  {
  }

  lemma NotMentionedBefore(cs: seq<Change>, i: nat, p: Path)
    requires i <= |cs| && !Mentions(cs, p)
    ensures !Mentions(cs[..i], p)
  {
    assert forall c | c in cs[..i] :: c in cs;
  }

  /** A pull from the peer's present disk is a pull from its first one, if the peer did not ask for that path. */
  lemma {:induction false} PullIgnoresProgress<C>(
    r: Rules<C>, mine: Disk<C>, theirs: Disk<C>, rn: seq<Change>, re: seq<Change>, i: nat, j: nat)
    requires Apart(rn, re) && i < |rn| && j <= |re|
    ensures Pull(r, PullAll(r, mine, theirs, rn[..i]), PullAll(r, theirs, mine, re[..j]), rn[i])
         == PullAll(r, mine, theirs, rn[..i + 1])
  {
    var c := rn[i];
    assert c in rn && Mentions(rn, c.path);
    NotMentionedBefore(re, j, c.path);
    PullOthers(r, theirs, mine, re[..j], c.path);
    PullSame(r, PullAll(r, mine, theirs, rn[..i]), PullAll(r, theirs, mine, re[..j]), theirs, c);
    assert rn[..i + 1][..i] == rn[..i];
  }

  /** Both sides part of the way through their lists, neither having noticed the other's progress. */
  function PartWay<C>(
    r: Rules<C>, n0: Disk<C>, e0: Disk<C>, rn: seq<Change>, re: seq<Change>, i: nat, j: nat): Join<C>
    requires i <= |rn| && j <= |re|
  {
    Join(PullAll(r, n0, e0, rn[..i]), PullAll(r, e0, n0, re[..j]), rn[i..], re[j..])
  }

  /** When the two sides ask for different paths, the order of their pulls does not matter. */
  lemma {:induction false} OrderDoesNotMatter<C>(
    r: Rules<C>, n0: Disk<C>, e0: Disk<C>, rn: seq<Change>, re: seq<Change>, order: seq<Side>) returns (i: nat, j: nat)
    requires Apart(rn, re)
    ensures i <= |rn| && j <= |re|
    ensures Play(r, Join(n0, e0, rn, re), order) == PartWay(r, n0, e0, rn, re, i, j)
  {
    if order == [] {
      i, j := 0, 0;
      assert rn[0..] == rn && re[0..] == re;
    } else {
      i, j := OrderDoesNotMatter(r, n0, e0, rn, re, order[..|order| - 1]);
      if order[|order| - 1] == Newcomer && i < |rn| {
        PullIgnoresProgress(r, n0, e0, rn, re, i, j);
        assert rn[i..][1..] == rn[i + 1..];
        i := i + 1;
      } else if order[|order| - 1] == Existing && j < |re| {
        PullIgnoresProgress(r, e0, n0, re, rn, j, i);
        assert re[j..][1..] == re[j + 1..];
        j := j + 1;
      }
    }
  }

  // ---- The outcome ----

  /** The existing node keeps what it has and gains the newcomer's other files that were on the wire, as they arrive. */
  function ExistingAfter<C>(r: Rules<C>, n0: Disk<C>, e0: Disk<C>, p: Path): Option<C> {
    if p in e0 then Some(e0[p])
    else if p in PacketCodec.OnTheWire(TableOf(r, n0)) then Copied(r, n0, p) else None
  }

  /** The newcomer is given the existing node's file unless it was not on the wire, hashes alike, or is skipped. */
  function NewcomerAfter<C>(r: Rules<C>, n0: Disk<C>, e0: Disk<C>, p: Path): Option<C> {
    if p in e0 && p in PacketCodec.OnTheWire(TableOf(r, e0))
       && (p in n0 ==>
             r.announced(p, n0[p]) != r.announced(p, e0[p]) && r.recomputed(p, n0[p]) != r.announced(p, e0[p]))
    then Copied(r, e0, p) else Get(n0, p)
  }

  /** The existing node asks for what it lacks, the newcomer for what it lacks or has with another hash. */
  lemma ExistingAsksFor<C>(r: Rules<C>, n0: Disk<C>, e0: Disk<C>, c: Change)
    ensures c in Wanted(DiffOfExisting(r, n0, e0), true) <==>
              && c.path in PacketCodec.OnTheWire(TableOf(r, n0)) && c.path in n0 && c.path !in e0
              && c == Change(c.path, r.announced(c.path, n0[c.path]), Addition)
  {
    var d := DiffOfExisting(r, n0, e0);
    assert c in Wanted(d, true) <==> c in d && c.kind == Addition by {
      WantedMembers(d, true);
      DiffMembers(r, e0, n0, c);
    }
    DiffMembers(r, e0, n0, c);
  }

  lemma {:induction false} ExistingPulls<C>(r: Rules<C>, n0: Disk<C>, e0: Disk<C>, p: Path)
    ensures Get(PullAll(r, e0, n0, Wanted(DiffOfExisting(r, n0, e0), true)), p) == ExistingAfter(r, n0, e0, p)
    ensures Mentions(Wanted(DiffOfExisting(r, n0, e0), true), p) ==> p !in e0
  {
    var re := Wanted(DiffOfExisting(r, n0, e0), true);
    assert Mentions(re, p) <==> p !in e0 && p in PacketCodec.OnTheWire(TableOf(r, n0)) by {
      if p !in e0 && p in PacketCodec.OnTheWire(TableOf(r, n0)) {
        assert p in TableOf(r, n0);
        var c := Change(p, r.announced(p, n0[p]), Addition);
        ExistingAsksFor(r, n0, e0, c);
      }
      forall c | c in re { ExistingAsksFor(r, n0, e0, c); }
    }
    assert EndsAt(n0, re, p) by {
      LastForIsLast(re, p);
      forall c | c in re { ExistingAsksFor(r, n0, e0, c); }
    }
    ReplayOutcome(r, e0, n0, re, p);
  }

  lemma {:induction false} NewcomerPulls<C>(r: Rules<C>, n0: Disk<C>, e0: Disk<C>, p: Path)
    ensures Get(PullAll(r, n0, e0, DiffOfNewcomer(r, n0, e0)), p) == NewcomerAfter(r, n0, e0, p)
    ensures Mentions(DiffOfNewcomer(r, n0, e0), p) ==> p in e0
  {
    var rn := DiffOfNewcomer(r, n0, e0);
    LastForIsLast(rn, p);
    forall c | c in rn && c.path == p
      ensures c.kind != Deletion && p in e0 && p in PacketCodec.OnTheWire(TableOf(r, e0))
      ensures c.hash == r.announced(p, e0[p]) && (p in n0 ==> r.announced(p, n0[p]) != c.hash)
    {
      DiffMembers(r, n0, e0, c);
    }
    if p in e0 && p in PacketCodec.OnTheWire(TableOf(r, e0))
       && (p in n0 ==> r.announced(p, n0[p]) != r.announced(p, e0[p])) {
      var c := Change(p, r.announced(p, e0[p]), if p in n0 then Edit else Addition);
      DiffMembers(r, n0, e0, c);
      assert c in rn;
    }
    ReplayOutcome(r, n0, e0, rn, p);
  }

  /** With the intended filter, in whatever order the two sides pull, both disks end path by path as computed
      above; nothing is assumed of the hashes or of the table sizes. */
  lemma {:induction false} IntendedOutcome<C>(r: Rules<C>, n0: Disk<C>, e0: Disk<C>, order: seq<Side>)
    requires Finished(Play(r, Intended(r, n0, e0), order))
    ensures
      var s := Play(r, Intended(r, n0, e0), order);
      forall p :: Get(s.existing, p) == ExistingAfter(r, n0, e0, p) && Get(s.newcomer, p) == NewcomerAfter(r, n0, e0, p)
  {
    NewcomerDropsNothing(r, n0, e0);
    var rn, re := DiffOfNewcomer(r, n0, e0), Wanted(DiffOfExisting(r, n0, e0), true);
    RequestsApart(r, n0, e0);
    var s := Play(r, Intended(r, n0, e0), order);
    assert s.newcomer == PullAll(r, n0, e0, rn) && s.existing == PullAll(r, e0, n0, re) by {
      var i, j := OrderDoesNotMatter(r, n0, e0, rn, re, order);
      AllTheWay(r, n0, e0, rn, re, i, j);
    }
    forall p
      ensures Get(s.existing, p) == ExistingAfter(r, n0, e0, p) && Get(s.newcomer, p) == NewcomerAfter(r, n0, e0, p)
    {
      ExistingPulls(r, n0, e0, p);
      NewcomerPulls(r, n0, e0, p);
    }
  }

  lemma {:induction false} AllTheWay<C>(
    r: Rules<C>, n0: Disk<C>, e0: Disk<C>, rn: seq<Change>, re: seq<Change>, i: nat, j: nat)
    requires i <= |rn| && j <= |re| && Finished(PartWay(r, n0, e0, rn, re, i, j))
    ensures PartWay(r, n0, e0, rn, re, i, j) == Join(PullAll(r, n0, e0, rn), PullAll(r, e0, n0, re), [], [])
  {
    assert rn[..|rn|] == rn && re[..|re|] == re;
  }

  lemma RequestsApart<C>(r: Rules<C>, n0: Disk<C>, e0: Disk<C>)
    ensures Apart(DiffOfNewcomer(r, n0, e0), Wanted(DiffOfExisting(r, n0, e0), true))
  {
    forall p
      ensures !(Mentions(DiffOfNewcomer(r, n0, e0), p) && Mentions(Wanted(DiffOfExisting(r, n0, e0), true), p))
    {
      ExistingPulls(r, n0, e0, p);
      NewcomerPulls(r, n0, e0, p);
    }
  }

  predicate TellsApart<C>(r: Rules<C>, n0: Disk<C>, e0: Disk<C>, p: Path)
    requires p in n0 && p in e0
  {
    r.announced(p, n0[p]) != r.announced(p, e0[p]) && r.recomputed(p, n0[p]) != r.announced(p, e0[p])
  }

  /** The announced hash, and the one the newcomer recomputes, tell different contents of a path apart. */
  predicate Distinguishable<C(==)>(r: Rules<C>, n0: Disk<C>, e0: Disk<C>) {
    forall p | p in n0 && p in e0 && n0[p] != e0[p] :: TellsApart(r, n0, e0, p)
  }

  /** Every file that one side needs from the other survives the transfer. */
  predicate ArrivesWhole<C(==)>(r: Rules<C>, n0: Disk<C>, e0: Disk<C>) {
    && (forall p | p in n0 && p !in e0 :: r.delivered(n0[p]) == n0[p])
    && (forall p | p in e0 && Get(n0, p) != Some(e0[p]) :: r.delivered(e0[p]) == e0[p])
  }

  ghost predicate ExistingWins<C>(s: Join<C>, n0: Disk<C>, e0: Disk<C>) {
    s.newcomer == n0 + e0 && s.existing == n0 + e0
  }

  /** Both outcomes are the union that favours the existing node, at every path. */
  ghost predicate OutcomesAreUnion<C>(r: Rules<C>, n0: Disk<C>, e0: Disk<C>) {
    forall p :: ExistingAfter(r, n0, e0, p) == Get(n0 + e0, p) == NewcomerAfter(r, n0, e0, p)
  }

  /** What these two conditions ask of one path. */
  predicate FineAt<C(==)>(r: Rules<C>, n0: Disk<C>, e0: Disk<C>, p: Path) {
    && (p in n0 && p !in e0 ==> r.delivered(n0[p]) == n0[p])
    && (p in e0 && Get(n0, p) != Some(e0[p]) ==>
          r.delivered(e0[p]) == e0[p] && (p in n0 ==> TellsApart(r, n0, e0, p)))
  }

  lemma UnionAt<C>(r: Rules<C>, n0: Disk<C>, e0: Disk<C>, p: Path)
    requires |n0| < 0x1_0000 && |e0| < 0x1_0000
    ensures ExistingAfter(r, n0, e0, p) == Get(n0 + e0, p) == NewcomerAfter(r, n0, e0, p) <==> FineAt(r, n0, e0, p)
  {
    hide PacketCodec.OnTheWire;
    WholeTable(r, n0);
    WholeTable(r, e0);
  }

  lemma FineEverywhere<C>(r: Rules<C>, n0: Disk<C>, e0: Disk<C>)
    ensures Distinguishable(r, n0, e0) && ArrivesWhole(r, n0, e0) <==> forall p :: FineAt(r, n0, e0, p)
  {
    if forall p :: FineAt(r, n0, e0, p) {
      forall p | p in n0 && p in e0 && n0[p] != e0[p]
        ensures TellsApart(r, n0, e0, p)
      {
        assert FineAt(r, n0, e0, p);
      }
      forall p
        ensures p in n0 && p !in e0 ==> r.delivered(n0[p]) == n0[p]
        ensures p in e0 && Get(n0, p) != Some(e0[p]) ==> r.delivered(e0[p]) == e0[p]
      {
        assert FineAt(r, n0, e0, p);
      }
    }
  }

  lemma {:induction false} UnionIff<C>(r: Rules<C>, n0: Disk<C>, e0: Disk<C>)
    requires |n0| < 0x1_0000 && |e0| < 0x1_0000
    ensures OutcomesAreUnion(r, n0, e0) <==> Distinguishable(r, n0, e0) && ArrivesWhole(r, n0, e0)
  {
    hide ExistingAfter, NewcomerAfter, FineAt, Distinguishable, ArrivesWhole, Get;
    forall p
      ensures ExistingAfter(r, n0, e0, p) == Get(n0 + e0, p) == NewcomerAfter(r, n0, e0, p) <==> FineAt(r, n0, e0, p)
    {
      UnionAt(r, n0, e0, p);
    }
    FineEverywhere(r, n0, e0);
  }

  /** With the intended filter and tables below 65536 entries: in whatever order the two pull, both sides end with the
      newcomer's files overridden by the existing node's if and only if the hashes tell the files apart and every file
      needed arrives whole. */
  lemma {:induction false} IntendedWinsIff<C>(r: Rules<C>, n0: Disk<C>, e0: Disk<C>, order: seq<Side>)
    requires |n0| < 0x1_0000 && |e0| < 0x1_0000 && Finished(Play(r, Intended(r, n0, e0), order))
    ensures ExistingWins(Play(r, Intended(r, n0, e0), order), n0, e0)
       <==> Distinguishable(r, n0, e0) && ArrivesWhole(r, n0, e0)
  {
    hide Distinguishable, ArrivesWhole, Intended, ExistingAfter, NewcomerAfter, Play;
    IntendedOutcome(r, n0, e0, order);
    UnionIff(r, n0, e0);
    var s := Play(r, Intended(r, n0, e0), order);
    if OutcomesAreUnion(r, n0, e0) {
      SameAnswersSameMap(s.newcomer, n0 + e0);
      SameAnswersSameMap(s.existing, n0 + e0);
    }
  }

  lemma WholeTable<C>(r: Rules<C>, disk: Disk<C>)
    requires |disk| < 0x1_0000
    ensures PacketCodec.OnTheWire(TableOf(r, disk)) == TableOf(r, disk)
  {
    assert TableOf(r, disk).Keys == disk.Keys;
    assert |TableOf(r, disk).Keys| == |TableOf(r, disk)| && |disk.Keys| == |disk|;
    PacketCodec.WholeTableIffSmall(TableOf(r, disk));
  }

  // ---- The literal loop ----

  function Turns(side: Side, n: nat): (order: seq<Side>)
    ensures |order| == n
  {
    if n == 0 then [] else Turns(side, n - 1) + [side]
  }

  /** One side doing all its pulls first. */
  function AfterExisting<C>(r: Rules<C>, s: Join<C>, n: nat): Join<C>
    requires n <= |s.todoExisting|
  {
    s.(existing := PullAll(r, s.existing, s.newcomer, s.todoExisting[..n]), todoExisting := s.todoExisting[n..])
  }

  lemma ExistingTurn<C>(r: Rules<C>, s: Join<C>, n: nat)
    requires n < |s.todoExisting|
    ensures Turn(r, AfterExisting(r, s, n), Existing) == AfterExisting(r, s, n + 1)
  {
    assert s.todoExisting[..n + 1][..n] == s.todoExisting[..n];
    assert s.todoExisting[n..][1..] == s.todoExisting[n + 1..];
  }

  lemma {:induction false} ExistingFirst<C>(r: Rules<C>, s: Join<C>, n: nat)
    requires n <= |s.todoExisting|
    ensures Play(r, s, Turns(Existing, n)) == AfterExisting(r, s, n)
  {
    if n == 0 {
      assert s.todoExisting[0..] == s.todoExisting;
    } else {
      ExistingFirst(r, s, n - 1);
      ExistingTurn(r, s, n - 1);
      assert Turns(Existing, n)[..n - 1] == Turns(Existing, n - 1);
    }
  }

  lemma {:induction false} ThenNewcomer<C>(r: Rules<C>, s: Join<C>, before: seq<Side>, n: nat)
    requires n <= |Play(r, s, before).todoNewcomer| && Play(r, s, before).todoExisting == []
    ensures
      var t, u := Play(r, s, before), Play(r, s, before + Turns(Newcomer, n));
      u.existing == t.existing && u.todoExisting == [] && u.todoNewcomer == t.todoNewcomer[n..]
  {
    hide Pull;
    if n == 0 {
      assert before + [] == before;
    } else {
      ThenNewcomer(r, s, before, n - 1);
      var order := before + Turns(Newcomer, n);
      assert order[..|order| - 1] == before + Turns(Newcomer, n - 1);
    }
  }

  /** What the newcomer's edit of a file arrives as is something else, and the existing node would act on it. */
  predicate Overwritable<C(==)>(r: Rules<C>, n0: Disk<C>, e0: Disk<C>) {
    forall p | p in n0 && p in e0 && r.announced(p, n0[p]) != r.announced(p, e0[p]) ::
      r.recomputed(p, e0[p]) != r.announced(p, n0[p]) && r.delivered(n0[p]) != e0[p]
  }

  /** An edit that slipped through the loop overwrites the existing node's file. */
  lemma SlippedPull<C>(r: Rules<C>, n0: Disk<C>, e0: Disk<C>) returns (p: Path)
    requires Overwritable(r, n0, e0) && !NoneAdjacent(DiffOfExisting(r, n0, e0), true)
    ensures p in n0 && p in e0 && r.delivered(n0[p]) != e0[p] && r.announced(p, n0[p]) != r.announced(p, e0[p])
    ensures Get(PullAll(r, e0, n0, Literal(r, n0, e0).todoExisting), p) == Some(r.delivered(n0[p]))
  {
    var d := DiffOfExisting(r, n0, e0);
    var re := Literal(r, n0, e0).todoExisting;
    var c := DoomedSurvivor(d, true);
    SurvivorsAreMembers(d, true, |d|);
    DiffMembers(r, e0, n0, c);
    p := c.path;
    forall x | x in re && x.path == p
      ensures x.kind != Deletion && x.hash == r.announced(p, n0[p])
    {
      DiffMembers(r, e0, n0, x);
    }
    LastForIsLast(re, p);
    assert Mentions(re, p);
    ReplayOutcome(r, e0, n0, re, p);
  }

  /** The existing node can go first; the newcomer then takes nothing back from it. */
  lemma ExistingGoesFirst<C>(r: Rules<C>, s: Join<C>) returns (order: seq<Side>)
    ensures Finished(Play(r, s, order))
    ensures Play(r, s, order).existing == PullAll(r, s.existing, s.newcomer, s.todoExisting)
  {
    var n := |s.todoExisting|;
    var first := Turns(Existing, n);
    ExistingFirst(r, s, n);
    assert s.todoExisting[..n] == s.todoExisting;
    var m := |Play(r, s, first).todoNewcomer|;
    ThenNewcomer(r, s, first, m);
    order := first + Turns(Newcomer, m);
  }

  lemma SlippedEdit<C>(r: Rules<C>, n0: Disk<C>, e0: Disk<C>) returns (order: seq<Side>)
    requires Overwritable(r, n0, e0) && !NoneAdjacent(DiffOfExisting(r, n0, e0), true)
    ensures Finished(Play(r, Literal(r, n0, e0), order))
    ensures !ExistingWins(Play(r, Literal(r, n0, e0), order), n0, e0)
  {
    var p := SlippedPull(r, n0, e0);
    order := ExistingGoesFirst(r, Literal(r, n0, e0));
    assert Get(n0 + e0, p) == Some(e0[p]);
  }

  ghost predicate WinsInEveryOrder<C>(r: Rules<C>, n0: Disk<C>, e0: Disk<C>) {
    forall order | Finished(Play(r, Literal(r, n0, e0), order)) ::
      ExistingWins(Play(r, Literal(r, n0, e0), order), n0, e0)
  }

  /** With the loop as it is written, "the existing node wins" for every order of the pulls if and only if the existing
      node's diff has no two adjacent edits, the hashes tell the files apart and every file needed arrives whole. */
  lemma {:induction false} JoinIff<C>(r: Rules<C>, n0: Disk<C>, e0: Disk<C>)
    requires |n0| < 0x1_0000 && |e0| < 0x1_0000 && Overwritable(r, n0, e0)
    ensures WinsInEveryOrder(r, n0, e0)
       <==> && NoneAdjacent(DiffOfExisting(r, n0, e0), true)
            && Distinguishable(r, n0, e0) && ArrivesWhole(r, n0, e0)
  {
    hide Distinguishable, ArrivesWhole, DiffOfExisting, Finished, Play;
    if NoneAdjacent(DiffOfExisting(r, n0, e0), true) {
      LoopIsFilterIff(DiffOfExisting(r, n0, e0), true);
      NewcomerDropsNothing(r, n0, e0);
      assert Literal(r, n0, e0) == Intended(r, n0, e0);
      var some := ExistingGoesFirst(r, Intended(r, n0, e0));
      IntendedWinsIff(r, n0, e0, some);
      forall order | Finished(Play(r, Literal(r, n0, e0), order))
        ensures ExistingWins(Play(r, Literal(r, n0, e0), order), n0, e0)
           <==> Distinguishable(r, n0, e0) && ArrivesWhole(r, n0, e0)
      {
        IntendedWinsIff(r, n0, e0, order);
      }
    } else {
      var order := SlippedEdit(r, n0, e0);
    }
  }

  /** The smallest case in which it fails: two paths, both known to both sides with different files. */
  lemma {:induction false} TwoEditsLose<C>(r: Rules<C>, p: Path, q: Path, n0: Disk<C>, e0: Disk<C>)
    returns (order: seq<Side>)
    requires p != q && n0.Keys == {p, q} == e0.Keys
    requires r.announced(p, n0[p]) != r.announced(p, e0[p]) && r.announced(q, n0[q]) != r.announced(q, e0[q])
    requires Overwritable(r, n0, e0)
    ensures Finished(Play(r, Literal(r, n0, e0), order))
    ensures !ExistingWins(Play(r, Literal(r, n0, e0), order), n0, e0)
  {
    hide Finished, Play, Literal, ExistingWins, Overwritable, MergeDiff, PacketCodec.OnTheWire;
    assert |n0| == 2 by {
      assert |n0.Keys| == |n0|;
    }
    WholeTable(r, n0);
    var d := DiffOfExisting(r, n0, e0);
    var a, b := Change(p, r.announced(p, n0[p]), Edit), Change(q, r.announced(q, n0[q]), Edit);
    DiffMembers(r, e0, n0, a);
    DiffMembers(r, e0, n0, b);
    assert a in d && b in d && |d| >= 2;
    DiffMembers(r, e0, n0, d[0]);
    DiffMembers(r, e0, n0, d[1]);
    assert d[0] in d && d[1] in d;
    assert Doomed(d[1 - 1], true) && Doomed(d[1], true);
    order := SlippedEdit(r, n0, e0);
  }

  /** Which of two edits slips through: the loop drops the one whose path comes first and asks for the other. */
  lemma {:induction false} LaterEditSlips(host: Table, foreign: Table, p: Path, q: Path)
    requires host.Keys == {p, q} == foreign.Keys && host[p] != foreign[p] && host[q] != foreign[q]
    requires Before(p, q)
    ensures MergeDiff(host, foreign) == [Change(p, foreign[p], Edit), Change(q, foreign[q], Edit)]
    ensures Survivors(MergeDiff(host, foreign), true, |MergeDiff(host, foreign)|) == [Change(q, foreign[q], Edit)]
  {
    hide MergeDiff, Before;
    var cs := [Change(p, foreign[p], Edit), Change(q, foreign[q], Edit)];
    BeforeIsTotal(p, q);
    forall c
      ensures c in cs <==> Correct(c, host, host + foreign)
    {
      if Correct(c, host, host + foreign) {
        assert c.path in foreign.Keys;
      }
    }
    OnlyMergeDiff(host, foreign, cs);
    assert !Survives(cs, true, 0) && Survives(cs, true, 1);
    assert Survivors(cs, true, 1) == Survivors(cs, true, 0) == [];
  }

  lemma {:induction false} SurvivorsDistinct(d: seq<Change>, ignoreEdits: bool, n: nat)
    requires n <= |d| && DistinctPaths(d)
    ensures DistinctPaths(Survivors(d, ignoreEdits, n))
    ensures forall c | c in Survivors(d, ignoreEdits, n) :: c in d[..n]
  {
    if n > 0 {
      SurvivorsDistinct(d, ignoreEdits, n - 1);
      var before := Survivors(d, ignoreEdits, n - 1);
      assert d[..n] == d[..n - 1] + [d[n - 1]];
      assert forall c | c in before :: c.path != d[n - 1].path;
    }
  }

  /** What working through a table leaves at a path it asks for: the path has one request, and the file comes from the
      sender's disk at that request. */
  lemma {:induction false} RequestedPath<C>(
    r: Rules<C>, disk: Disk<C>, senders: seq<Disk<C>>, host: Table, foreign: Table, ignoreEdits: bool, i: nat)
    requires |senders| == |Survivors(MergeDiff(host, foreign), ignoreEdits, |MergeDiff(host, foreign)|)| > i
    ensures
      var cs := Survivors(MergeDiff(host, foreign), ignoreEdits, |MergeDiff(host, foreign)|);
      var p := cs[i].path;
      && p in foreign && cs[i].hash == foreign[p] && Get(host, p) != Some(foreign[p])
      && Get(PullEach(r, disk, senders, cs), p)
           == if (p in disk && r.recomputed(p, disk[p]) == foreign[p]) || p !in senders[i] then Get(disk, p)
              else Some(r.delivered(senders[i][p]))
  {
    hide MergeDiff, Survivors;
    var d := MergeDiff(host, foreign);
    var cs := Survivors(d, ignoreEdits, |d|);
    MergeDiffDescribes(host, foreign);
    SurvivorsDistinct(d, ignoreEdits, |d|);
    assert cs[i] in cs && d[..|d|] == d;
    assert Correct(cs[i], host, host + foreign);
    PullEachAt(r, disk, senders, cs, i);
  }

  // ---- The program's form ----

  /** `dealWithHashTable`: diff, filter in place, request what is left; `senders` is the sender's disk at each
      request. */
  method DealWithHashTable(
    node: Requester, fileHashes: Table, table: Table, senders: seq<Disk<FileTransfer.File>>, ignoreEdits: bool)
    requires !node.locked
    requires |senders| == |Survivors(MergeDiff(fileHashes, table), ignoreEdits, |MergeDiff(fileHashes, table)|)|
    requires forall p | p in table :: |p| < 0x1_0000_0000
    modifies node
    ensures !node.locked
    ensures
      var d := MergeDiff(fileHashes, table);
      node.disk == PullEach(node.FileRules(), old(node.disk), senders, Survivors(d, ignoreEdits, |d|))
  {
    var dirChanges := GetMergeChanges(fileHashes, table);
    ghost var d := dirChanges;
    dirChanges := DropUnwanted(dirChanges, ignoreEdits);
    assert forall c | c in dirChanges :: PacketCodec.Encodable(c) by {
      SurvivorsAreMembers(d, ignoreEdits, |d|);
      MergeDiffDescribes(fileHashes, table);
    }
    node.RequestFiles(dirChanges, senders);
  }
}

/** When threads can block each other after a newcomer's arrival: exactly if an existing node needs a file of the
    newcomer's, and there is another existing node, another such file, or a file the newcomer needs. */
module JoinWaits {
  import opened Base
  import opened DirectoryDiff
  import opened EraseLoop
  import opened RequestFiles
  import opened Network
  import opened Propagation
  import opened Preservation
  import opened Convergence
  import opened Knots
  import opened Schedules
  import opened NetworkJoin
  import opened JoinLoses
  import JoinHandshake
  import PacketCodec

  /** A node that has a file does not recognise it when it is announced. */
  ghost predicate Unrecognised<C>(a: Arrival<C>) {
    && (forall p | Added(a, p) :: a.w.rules.recomputed(p, a.n0[p]) != a.w.rules.announced(p, a.n0[p]))
    && (forall p | Needed(a, p) :: a.w.rules.recomputed(p, a.e0[p]) != a.w.rules.announced(p, a.e0[p]))
  }

  /** Edits are apart, files arrive whole and are not recognised. */
  ghost predicate Regular<C>(a: Arrival<C>) {
    Sound(a) && Safe(a) && Unrecognised(a) && JoinHandshake.ArrivesWhole(a.w.rules, a.n0, a.e0)
  }

  lemma RegularIs<C>(a: Arrival<C>)
    requires Regular(a)
    ensures a.existing >= 1 && Sound(a) && Safe(a) && JoinHandshake.ArrivesWhole(a.w.rules, a.n0, a.e0)
    ensures a.w.literal ==> NoneAdjacent(FirstDiff(a), true)
  {
    hide Sound, Safe, JoinHandshake.ArrivesWhole, FirstDiff, NoneAdjacent;
    SomeExist(a);
    SafeIsFilter(a);
  }

  lemma SafeIsFilter<C>(a: Arrival<C>)
    requires Sound(a) && Safe(a)
    ensures a.w.literal ==> NoneAdjacent(FirstDiff(a), true)
  {
    hide MergeDiff, Sound;
    SomeExist(a);
    var d := FirstDiff(a);
    MergeDiffDescribes(TableAt(a, 0), TableAt(a, a.existing));
    if a.w.literal && a.existing >= 2 {
      forall k | 0 < k < |d|
        ensures !(Doomed(d[k - 1], true) && Doomed(d[k], true))
      {
        DiffMembers(TableAt(a, 0), TableAt(a, a.existing), d[k - 1]);
        DiffMembers(TableAt(a, 0), TableAt(a, a.existing), d[k]);
        assert d[k - 1] in d && d[k] in d && d[k - 1].path != d[k].path;
        assert Doomed(d[k - 1], true) ==> Clashes(a, d[k - 1].path);
        assert Doomed(d[k], true) ==> Clashes(a, d[k].path);
      }
    }
  }

  // ---- Threads that come to block each other ----

  function AddedChange<C>(a: Arrival<C>, p: Path): Change
    requires p in a.n0
  {
    Change(p, a.w.rules.announced(p, a.n0[p]), Addition)
  }

  lemma AddedIsNeeded<C>(a: Arrival<C>, disk: Disk<C>, p: Path)
    requires Unrecognised(a) && Added(a, p) && (p in disk ==> disk[p] == a.n0[p])
    ensures Needs(a.w, disk, AddedChange(a, p))
  {
  }

  lemma SecondGreets<C>(a: Arrival<C>) returns (net: Net<C>)
    requires Sound(a) && a.existing >= 2 && (a.w.literal ==> NoneAdjacent(FirstDiff(a), true))
    requires JoinHandshake.ArrivesWhole(a.w.rules, a.n0, a.e0)
    ensures Leads(a.w, Begin(a), net) && |net| == a.existing + 1 && AllResting(net)
    ensures net[0] == net[1] == Node(Union(a), TableAt(a, 0), TableAt(a, 0), [], [])
  {
    hide Leads, Requests, PullAll, PacketCodec.OnTheWire, TableOf, NoneAdjacent, Sound, FirstDiff,
         JoinHandshake.ArrivesWhole;
    FirstGreets(a);
    FirstDisk(a);
    WholeHello(a);
    var one := Greeted(a.w, Begin(a), 0, 0);
    assert one[1] == Begin(a)[1] && TableAt(a, 1) == TableAt(a, 0);
    assert Resting(one[1]) && Resting(one[a.existing]);
    HandleHello(a.w, one, 1, 0);
    net := Greeted(a.w, one, 1, 0);
    Onwards(a.w, Begin(a), one, net);
    assert one[1].inbox[..0] + one[1].inbox[1..] == [];
    GreetedRests(a.w, one, 1, 0);
  }

  /** Two existing nodes that have each pulled the file. */
  lemma TwoExistingBlock<C>(a: Arrival<C>, p: Path) returns (net: Net<C>)
    requires Regular(a) && a.existing >= 2 && Added(a, p)
    ensures Leads(a.w, Begin(a), net) && Knotted(net)
  {
    hide Leads, Knotted, Sound, Safe, NoneAdjacent, JoinHandshake.ArrivesWhole, SnapshotDiff, TableOf, Needs, Begin,
         FirstDiff, Additions, Found;
    RegularIs(a);
    var two := SecondGreets(a);
    AdditionsAre(a, AddedChange(a, p));
    AddedIsNeeded(a, Union(a), p);
    FoundAdditions(a, two[0]);
    assert Resting(two[0]);
    net := BothSpeak(a.w, two, 0, 1, AddedChange(a, p), AddedChange(a, p));
    Onwards(a.w, Begin(a), two, net);
  }

  lemma FoundAdditions<C>(a: Arrival<C>, x: Node<C>)
    requires x.disk == Union(a) && x.snapshot == TableAt(a, 0)
    ensures Found(a.w.rules, x) == Additions(a)
  {
  }

  // An existing node and the newcomer that have each pulled a file from the other.

  lemma NeededIsAsked<C>(a: Arrival<C>, q: Path)
    requires a.existing >= 1 && Needed(a, q)
    ensures
      var wants := Requests(a.w.literal, TableAt(a, a.existing), TableAt(a, 0), false);
      && Mentions(wants, q)
      && forall c | c in wants && c.path == q :: c.kind != Deletion && c.hash == a.w.rules.announced(q, a.e0[q])
  {
    hide MergeDiff;
    var tn, te := TableAt(a, a.existing), TableAt(a, 0);
    NewcomerRequests(a.w.literal, tn, te);
    var d := MergeDiff(tn, te);
    var c := Change(q, te[q], if q in tn then Edit else Addition);
    DiffMembers(tn, te, c);
    assert c in d && c.path == q;
    forall x | x in d && x.path == q
      ensures x.kind != Deletion && x.hash == a.w.rules.announced(q, a.e0[q])
    {
      DiffMembers(tn, te, x);
    }
  }

  lemma OthersAreNotAsked<C>(a: Arrival<C>, p: Path)
    requires a.existing >= 1 && p !in a.e0
    ensures !Mentions(Requests(a.w.literal, TableAt(a, a.existing), TableAt(a, 0), false), p)
  {
    hide MergeDiff;
    var tn, te := TableAt(a, a.existing), TableAt(a, 0);
    NewcomerRequests(a.w.literal, tn, te);
    forall c | c in MergeDiff(tn, te)
      ensures c.path != p
    {
      DiffMembers(tn, te, c);
    }
  }

  /** What the newcomer has after it has worked off an answer. */
  function Given<C>(a: Arrival<C>): Disk<C> {
    PullAll(a.w.rules, a.n0, Union(a), Requests(a.w.literal, TableAt(a, a.existing), TableAt(a, 0), false))
  }

  lemma GivenAt<C>(a: Arrival<C>, p: Path)
    requires a.existing >= 1 && JoinHandshake.ArrivesWhole(a.w.rules, a.n0, a.e0)
    ensures Needed(a, p) ==> Get(Given(a), p) == Some(a.e0[p])
    ensures Added(a, p) ==> Get(Given(a), p) == Some(a.n0[p])
  {
    hide Requests, PullAll;
    var wants := Requests(a.w.literal, TableAt(a, a.existing), TableAt(a, 0), false);
    LastForIsLast(wants, p);
    if Needed(a, p) {
      NeededIsAsked(a, p);
      ReplayOutcome(a.w.rules, a.n0, Union(a), wants, p);
    } else if Added(a, p) {
      OthersAreNotAsked(a, p);
      ReplayOutcome(a.w.rules, a.n0, Union(a), wants, p);
    }
  }

  lemma BothGiven<C>(a: Arrival<C>) returns (net: Net<C>)
    requires Sound(a) && a.existing == 1 && (a.w.literal ==> NoneAdjacent(FirstDiff(a), true))
    requires JoinHandshake.ArrivesWhole(a.w.rules, a.n0, a.e0)
    ensures Leads(a.w, Begin(a), net) && |net| == 2
    ensures net[0] == Node(Union(a), TableAt(a, 0), TableAt(a, 0), [], [])
    ensures net[1] == Node(Given(a), TableAt(a, 1), TableAt(a, 1), [], [])
  {
    hide Leads, Requests, PullAll, PacketCodec.OnTheWire, TableOf, NoneAdjacent, Sound, FirstDiff,
         JoinHandshake.ArrivesWhole;
    FirstGreets(a);
    FirstDisk(a);
    WholeHello(a);
    var one := Greeted(a.w, Begin(a), 0, 0);
    var x := one[1];
    assert Begin(a)[1].inbox == [];
    assert x == Node(a.n0, TableAt(a, 1), TableAt(a, 1), [], [Answer(0, TableAt(a, 0))]);
    assert Resting(one[0]) && Resting(one[1]);
    HandleAnswer(a.w, one, 1, 0);
    assert x.inbox[..0] + x.inbox[1..] == [];
    net := one[1 := Node(Given(a), TableAt(a, 1), TableAt(a, 1), [], [])];
    Onwards(a.w, Begin(a), one, net);
  }

  lemma NeededIsFound<C>(a: Arrival<C>, x: Node<C>, q: Path) returns (c: Change)
    requires a.existing >= 1 && Needed(a, q) && Get(x.disk, q) == Some(a.e0[q]) && x.snapshot == TableAt(a, a.existing)
    ensures c in Found(a.w.rules, x) && c.path == q && c.kind != Deletion && c.hash == a.w.rules.announced(q, a.e0[q])
  {
    var prev, next := x.snapshot, TableOf(a.w.rules, x.disk);
    SnapshotDiffDescribes(prev, next);
    assert q in x.disk;
    c := Change(q, next[q], if q in prev then Edit else Addition);
    assert Correct(c, prev, next);
  }

  lemma BothNeedBlock<C>(a: Arrival<C>, p: Path, q: Path) returns (net: Net<C>)
    requires Regular(a) && a.existing == 1 && Added(a, p) && Needed(a, q)
    ensures Leads(a.w, Begin(a), net) && Knotted(net)
  {
    hide Leads, Knotted, Sound, Safe, NoneAdjacent, JoinHandshake.ArrivesWhole, SnapshotDiff, TableOf, Begin, FirstDiff,
         Additions, Found, Given, JoinHandshake.TellsApart;
    RegularIs(a);
    var mid := BothGiven(a);
    AdditionsAre(a, AddedChange(a, p));
    FoundAdditions(a, mid[0]);
    GivenAt(a, p);
    GivenAt(a, q);
    var forB := NeededIsFound(a, mid[1], q);
    AddedIsNeeded(a, mid[1].disk, p);
    assert Needs(a.w, mid[0].disk, forB);
    net := BothSpeak(a.w, mid, 0, 1, forB, AddedChange(a, p));
    Onwards(a.w, Begin(a), mid, net);
  }

  // An existing node that announces one file while it still asks for another: the knot is its discoverer, which is
  // still working off the arrival, and the newcomer's handler.

  /** The first of the changes the existing node wants has been pulled. */
  function PartGiven<C>(a: Arrival<C>, c: Change, rest: seq<Change>): Node<C>
    requires c.path in a.n0
  {
    Node(a.e0[c.path := a.n0[c.path]], TableAt(a, 0), TableAt(a, 0), [],
         [Job(1, Discoverer, TableAt(a, 1), rest, Open)])
  }

  lemma WantsAdded<C>(a: Arrival<C>, c: Change)
    requires a.existing >= 1 && (a.w.literal ==> NoneAdjacent(FirstDiff(a), true))
    ensures c in Requests(a.w.literal, TableAt(a, 0), TableAt(a, a.existing), true) <==>
              Added(a, c.path) && c == AddedChange(a, c.path)
  {
    ExistingRequests(a.w.literal, TableAt(a, 0), TableAt(a, a.existing), c);
  }

  /** With two files to pull there is another one left after the first. */
  lemma TwoWanted<C>(a: Arrival<C>, p: Path, q: Path) returns (c: Change, next: Change)
    requires a.existing >= 1 && (a.w.literal ==> NoneAdjacent(FirstDiff(a), true))
    requires Added(a, p) && Added(a, q) && p != q
    ensures
      var wants := Requests(a.w.literal, TableAt(a, 0), TableAt(a, a.existing), true);
      && |wants| >= 2 && c == wants[0] && next in wants[1..] && c.path != next.path
      && Added(a, c.path) && c == AddedChange(a, c.path) && Added(a, next.path) && next == AddedChange(a, next.path)
  {
    hide Requests, NoneAdjacent, FirstDiff;
    var wants := Requests(a.w.literal, TableAt(a, 0), TableAt(a, a.existing), true);
    WantsAdded(a, AddedChange(a, p));
    WantsAdded(a, AddedChange(a, q));
    c := wants[0];
    WantsAdded(a, c);
    next := if c.path == p then AddedChange(a, q) else AddedChange(a, p);
    assert wants == [c] + wants[1..];
  }

  lemma PartPulled<C>(a: Arrival<C>, c: Change) returns (net: Net<C>)
    requires Regular(a) && a.existing == 1
    requires
      var wants := Requests(a.w.literal, TableAt(a, 0), TableAt(a, 1), true);
      wants != [] && c == wants[0] && Added(a, c.path) && c == AddedChange(a, c.path)
    ensures Leads(a.w, Begin(a), net) && |net| == 2
    ensures net[0] == PartGiven(a, c, Requests(a.w.literal, TableAt(a, 0), TableAt(a, 1), true)[1..])
    ensures net[1] == Node(a.n0, TableAt(a, 1), TableAt(a, 1), [], [Answer(0, TableAt(a, 0))])
  {
    hide Leads, Sound, Safe, NoneAdjacent, Requests, TableAt, Begin, FirstDiff, Unrecognised,
         JoinHandshake.ArrivesWhole;
    RegularIs(a);
    MeetFirst(a);
    var met := Met(a);
    OneChange(a.w, met, 0, 0);
    PulledWhole(a, c);
    net := met[0 := Advanced(a.w, met[0], 0, met[1].disk)];
    Onwards(a.w, Begin(a), met, net);
    var rest := Requests(a.w.literal, TableAt(a, 0), TableAt(a, 1), true)[1..];
    assert net[0].inbox == PartGiven(a, c, rest).inbox;
  }

  lemma PulledWhole<C>(a: Arrival<C>, c: Change)
    requires JoinHandshake.ArrivesWhole(a.w.rules, a.n0, a.e0) && Added(a, c.path) && c == AddedChange(a, c.path)
    ensures Pull(a.w.rules, a.e0, a.n0, c) == a.e0[c.path := a.n0[c.path]]
  {
  }

  lemma PartIsFound<C>(a: Arrival<C>, c: Change, rest: seq<Change>)
    requires a.existing == 1 && Added(a, c.path) && c == AddedChange(a, c.path)
    ensures c in Found(a.w.rules, PartGiven(a, c, rest))
  {
    var x := PartGiven(a, c, rest);
    var prev, next := x.snapshot, TableOf(a.w.rules, x.disk);
    SnapshotDiffDescribes(prev, next);
    assert c.path in x.disk;
    assert Correct(c, prev, next);
  }

  lemma TwoAddedBlock<C>(a: Arrival<C>, p: Path, q: Path) returns (net: Net<C>)
    requires Regular(a) && a.existing == 1 && Added(a, p) && Added(a, q) && p != q
    ensures Leads(a.w, Begin(a), net) && Knotted(net)
  {
    hide Leads, Knotted, Sound, Safe, NoneAdjacent, Requests, TableAt, Begin, FirstDiff, Found, Needs, Spoken, Apply,
         Unrecognised, Added, JoinHandshake.ArrivesWhole;
    RegularIs(a);
    var c, next := TwoWanted(a, p, q);
    var rest := Requests(a.w.literal, TableAt(a, 0), TableAt(a, 1), true)[1..];
    var mid := PartPulled(a, c);
    net := AnnounceAndAsk(a, mid, c, next, rest);
    Onwards(a.w, Begin(a), mid, net);
  }

  lemma PartNeeds<C>(a: Arrival<C>, c: Change, next: Change)
    requires Unrecognised(a) && Added(a, c.path) && c == AddedChange(a, c.path)
    requires Added(a, next.path) && next == AddedChange(a, next.path) && c.path != next.path
    ensures Needs(a.w, a.n0, c) && Needs(a.w, a.e0[c.path := a.n0[c.path]], next)
  {
  }

  lemma AnnounceAndAsk<C>(a: Arrival<C>, mid: Net<C>, c: Change, next: Change, rest: seq<Change>) returns (net: Net<C>)
    requires Unrecognised(a) && a.existing == 1 && |mid| == 2 && next in rest && c.path != next.path
    requires Added(a, c.path) && c == AddedChange(a, c.path) && Added(a, next.path) && next == AddedChange(a, next.path)
    requires mid[0] == PartGiven(a, c, rest)
    requires mid[1] == Node(a.n0, TableAt(a, 1), TableAt(a, 1), [], [Answer(0, TableAt(a, 0))])
    ensures Leads(a.w, mid, net) && Knotted(net)
  {
    hide Leads, TableAt, Found, Needs, Spoken, Apply, Unrecognised, Added, TableOf;
    var g := Found(a.w.rules, mid[0]);
    PartIsFound(a, c, rest);
    PartNeeds(a, c, next);
    Speak(a.w, mid, 0);
    SpokenIs(a.w.rules, mid, 0, g);
    var one := Spoken(a.w.rules, mid, 0);
    assert one[0].inbox == mid[0].inbox && one[0].disk == mid[0].disk;
    assert one[1].inbox[1] == News(0, g) && Resting(one[1]);
    var disk, left := AskFirst(a.w, one, 0, 0, next);
    var y := WithJob(one[0].(disk := disk), 0, one[0].inbox[0].(changes := left, stage := Heard));
    var two := one[0 := y];
    assert WaitsFor(y, 0, Discoverer, 1, Handler);
    Onwards(a.w, mid, one, two);
    assert Asking(a.w, two, 1, 1, 0, c);
    var z := AskNews(a.w, two, 1, 1, 0, c, Discoverer);
    net := two[1 := z];
    Onwards(a.w, mid, two, net);
    MutualKnot(net, 0, 0, Discoverer, 1, 1, Handler);
  }

  // ---- Nothing the existing nodes need ----

  /** The existing nodes never say anything, and the newcomer only works through their answers. */
  ghost predicate OneSided<C>(a: Arrival<C>, net: Net<C>) {
    && |net| == a.existing + 1
    && (forall i | 0 <= i < a.existing :: net[i].snapshot == TableAt(a, 0) && net[i].buf == [])
    && (forall i, j | 0 <= i < a.existing && j in net[i].inbox :: j.from == a.existing)
    && (forall j | j in net[a.existing].inbox :: j.thread == Manager)
  }

  /** Their disks stay as they are. */
  lemma ExistingKeep<C>(a: Arrival<C>, net: Net<C>, i: nat)
    requires Regular(a) && Inv(SceneOf(a), net) && i < a.existing && forall p :: !Added(a, p)
    ensures |net| == a.existing + 1 && net[i].disk == a.e0
  {
    hide Inv, Sound, Safe, Unrecognised, JoinHandshake.ArrivesWhole, SceneOf, Added;
    RegularIs(a);
    SceneSizes(a);
    InvSize(SceneOf(a), net);
    PathFacts(SceneOf(a), net, i);
    forall p
      ensures Get(net[i].disk, p) == Get(a.e0, p)
    {
      assert PathOk(SceneOf(a), i, net[i], p);
      ExistingCut(a, i, p);
    }
    SameAnswersSameMap(net[i].disk, a.e0);
  }

  lemma ExistingCut<C>(a: Arrival<C>, i: nat, p: Path)
    requires Regular(a) && i < a.existing && !Added(a, p)
    ensures Mover(SceneOf(a), i, p) ==> Cut(SceneOf(a), p) == Get(a.e0, p)
  {
    hide Sound, Safe, Unrecognised;
    MovesIff(a, i, p);
    if Mover(SceneOf(a), i, p) {
      NeededIsWhole(a, p);
    }
  }

  lemma NeededIsWhole<C>(a: Arrival<C>, p: Path)
    requires JoinHandshake.ArrivesWhole(a.w.rules, a.n0, a.e0) && Needed(a, p)
    ensures a.w.rules.delivered(a.e0[p]) == a.e0[p]
  {
  }

  /** An existing node goes on, and may have answered. */
  lemma OneSidedAfter<C>(a: Arrival<C>, net: Net<C>, n: nat, y: Node<C>, z: Node<C>)
    requires OneSided(a, net) && n < a.existing && y.snapshot == net[n].snapshot && y.buf == net[n].buf
    requires forall j | j in y.inbox :: j in net[n].inbox || j.from == a.existing
    requires forall j | j in z.inbox :: j in net[a.existing].inbox || j.thread == Manager
    ensures OneSided(a, net[n := y][a.existing := z])
  {
    hide TableAt;
  }

  lemma OneSidedAtExisting<C>(a: Arrival<C>, net: Net<C>, e: Event)
    requires OneSided(a, net) && Enabled(a.w, net, e) && e.n < a.existing && net[e.n].disk == a.e0
    ensures OneSided(a, Do(a.w, net, e))
  {
    hide Do, SnapshotDiff, TableOf, Needs;
    EmptyDiff(TableAt(a, 0), TableAt(a, 0));
    assert !e.Scan? && !e.Flush?;
    var next := Do(a.w, net, e);
    assert net[e.n].inbox[e.k] in net[e.n].inbox;
    SameSenders(a.w, net, e);
    OnlyTheSender(a.w, net, e);
    OneSidedAfter(a, net, e.n, next[e.n], next[a.existing]);
  }

  lemma NewcomerAlone<C>(a: Arrival<C>, net: Net<C>, y: Node<C>)
    requires OneSided(a, net) && forall j | j in y.inbox :: j in net[a.existing].inbox || j.thread == Manager
    ensures OneSided(a, net[a.existing := y])
  {
    hide TableAt;
  }

  lemma OneSidedAtNewcomer<C>(a: Arrival<C>, net: Net<C>, e: Event)
    requires OneSided(a, net) && Enabled(a.w, net, e) && e.n == a.existing && !e.Flush?
    requires e.Scan? || net[e.n].inbox[e.k].from < a.existing
    ensures OneSided(a, Do(a.w, net, e))
  {
    hide Found, TableOf, Needs;
    var next := Do(a.w, net, e);
    if e.Scan? {
      NewcomerAlone(a, net, Scanned(a.w.rules, net[e.n]));
    } else {
      hide Do;
      assert net[e.n].inbox[e.k] in net[e.n].inbox;
      SameSenders(a.w, net, e);
      OnlyTheSender(a.w, net, e);
      var f := net[e.n].inbox[e.k].from;
      assert net[e.n := next[e.n]][f := net[f]] == net[e.n := next[e.n]];
      NewcomerAlone(a, net, next[e.n]);
    }
  }

  lemma OneSidedFlush<C>(a: Arrival<C>, net: Net<C>, e: Event)
    requires OneSided(a, net) && Enabled(a.w, net, e) && e.n == a.existing && e.Flush?
    ensures OneSided(a, Do(a.w, net, e))
  {
    hide TableOf, Apply;
    var next := Do(a.w, net, e);
    assert forall i | 0 <= i < a.existing :: next[i] == Receives(net[i], News(a.existing, net[a.existing].buf));
    assert next[a.existing].inbox == net[a.existing].inbox;
  }

  lemma {:induction false} RunStaysOneSided<C>(a: Arrival<C>, net: Net<C>, events: seq<Event>)
    requires Regular(a) && (forall p :: !Added(a, p)) && Inv(SceneOf(a), net) && OneSided(a, net)
    requires SceneOf(a).w == a.w && Run(a.w, net, events).Some?
    ensures OneSided(a, Run(a.w, net, events).value)
    decreases events
  {
    hide Inv, OneSided, Do, Enabled, Regular, SceneOf, Added;
    if events != [] {
      var e := events[0];
      RunUnrolled(a.w, net, events);
      EventKeepsInv(SceneOf(a), net, e);
      OneSidedStep(a, net, e);
      RunStaysOneSided(a, Do(a.w, net, e), events[1..]);
    }
  }

  lemma OneSidedStep<C>(a: Arrival<C>, net: Net<C>, e: Event)
    requires Regular(a) && (forall p :: !Added(a, p)) && Inv(SceneOf(a), net) && OneSided(a, net)
    requires Enabled(a.w, net, e)
    ensures OneSided(a, Do(a.w, net, e))
  {
    hide Inv, Do, Regular, SceneOf, Added;
    assert e.n < |net| by {
      hide OneSided;
    }
    if e.n < a.existing {
      ExistingKeep(a, net, e.n);
      OneSidedAtExisting(a, net, e);
    } else if e.Flush? {
      OneSidedFlush(a, net, e);
    } else {
      if !e.Scan? {
        assert At(net, e.n, e.k) by {
          AtEvent(a.w, net, e);
        }
        JobFacts(SceneOf(a), net, e.n, e.k);
      }
      OneSidedAtNewcomer(a, net, e);
    }
  }

  lemma OneSidedIsNoKnot<C>(a: Arrival<C>, net: Net<C>)
    requires OneSided(a, net) && Shape(net)
    ensures !Knotted(net)
  {
    if knot: set<(nat, Thread)> :| Knot(net, knot) {
      var n, j := SomebodyWaits(net, knot);
      var pair :| pair in knot;
      assert (pair.0, pair.1) in knot;
      var m := NodeWaits(net, knot, pair.0, pair.1);
      var other := if m.stage == Asked then Discoverer else Handler;
      var l := NodeWaits(net, knot, m.from, other);
      assert false;
    }
  }

  lemma StartsOneSided<C>(a: Arrival<C>)
    requires Sound(a)
    ensures OneSided(a, Start(a))
  {
    hide PacketCodec.OnTheWire, Requests, TableOf;
  }

  // ---- One existing node, one file it needs, none the newcomer needs ----

  /** The existing node is working off the arrival until it has the file; only then can it have announced anything. */
  ghost predicate Solo<C>(a: Arrival<C>, net: Net<C>, p: Path) {
    && |net| == 2 && net[1].snapshot == TableAt(a, 1) && net[1].buf == []
    && (net[0].inbox != [] ==> |net[0].inbox| == 1 && Greeting(net[0].inbox[0], net[0].disk, p))
    && (forall j | j in net[1].inbox :: j.thread == Manager || (j.thread == Handler && p in net[0].disk))
  }

  /** In hand, with the file still to be pulled or nothing. */
  ghost predicate Greeting<C>(j: Job, disk: Disk<C>, p: Path) {
    && Busy(j) && j.thread == Discoverer && |j.changes| <= 1
    && (j.changes != [] ==> p !in disk && j.changes[0].path == p && j.changes[0].kind == Addition)
  }

  /** What the newcomer has does not change, and the existing node notices nothing but the file. */
  lemma NewcomerKeeps<C>(a: Arrival<C>, net: Net<C>)
    requires Regular(a) && a.existing == 1 && Inv(SceneOf(a), net) && forall q :: !Needed(a, q)
    ensures |net| == 2 && net[1].disk == a.n0
  {
    hide Inv, Sound, Safe, Unrecognised, JoinHandshake.ArrivesWhole, SceneOf, Needed;
    RegularIs(a);
    SceneSizes(a);
    InvSize(SceneOf(a), net);
    PathFacts(SceneOf(a), net, 1);
    forall p
      ensures Get(net[1].disk, p) == Get(a.n0, p)
    {
      assert PathOk(SceneOf(a), 1, net[1], p);
      NewcomerCut(a, p);
    }
    SameAnswersSameMap(net[1].disk, a.n0);
  }

  lemma NewcomerCut<C>(a: Arrival<C>, p: Path)
    requires Regular(a) && a.existing == 1 && !Needed(a, p)
    ensures Mover(SceneOf(a), 1, p) ==> Cut(SceneOf(a), p) == Get(a.n0, p)
  {
    hide Sound, Safe, Unrecognised, JoinHandshake.TellsApart;
    MovesIff(a, 1, p);
    if Added(a, p) {
      AddedIsWhole(a, p);
    }
  }

  lemma AddedIsWhole<C>(a: Arrival<C>, p: Path)
    requires JoinHandshake.ArrivesWhole(a.w.rules, a.n0, a.e0) && Added(a, p)
    ensures a.w.rules.delivered(a.n0[p]) == a.n0[p]
  {
  }

  lemma SaysOnlyTheFile<C>(a: Arrival<C>, net: Net<C>, p: Path)
    requires Regular(a) && a.existing == 1 && Inv(SceneOf(a), net) && |net| == 2 && net[0].buf != []
    requires (forall q :: !Needed(a, q)) && forall q | Added(a, q) :: q == p
    ensures p in net[0].disk
  {
    hide Sound, Safe, Unrecognised, JoinHandshake.ArrivesWhole, JoinHandshake.TellsApart, Shape, Sensible;
    var c := net[0].buf[0];
    var sc := SceneOf(a);
    MovesIff(a, 0, c.path);
    assert NodeOk(sc, net, 0) && c in net[0].buf;
    assert SaidOk(sc, net, 0, c);
  }

  lemma SoloAtExisting<C>(a: Arrival<C>, net: Net<C>, e: Event, p: Path)
    requires Solo(a, net, p) && Enabled(a.w, net, e) && e.n == 0 && !e.Flush?
    ensures Solo(a, Do(a.w, net, e), p)
  {
    hide SnapshotDiff, TableOf, Requests, Needs, PacketCodec.OnTheWire;
    var next := Do(a.w, net, e);
    if !e.Scan? {
      assert e.k == 0;
      assert !e.Take? && !e.Collect? && !e.Post? && !e.Replace?;
    }
    assert next[1] == net[1];
    assert p in net[0].disk ==> next[0].disk == net[0].disk;
  }

  lemma SoloFlush<C>(a: Arrival<C>, net: Net<C>, e: Event, p: Path)
    requires Solo(a, net, p) && Enabled(a.w, net, e) && e.n == 0 && e.Flush? && p in net[0].disk
    ensures Solo(a, Do(a.w, net, e), p)
  {
    hide TableOf, Apply;
    var next := Do(a.w, net, e);
    assert next[1] == Receives(net[1], News(0, net[0].buf));
    assert next[0].inbox == net[0].inbox && next[0].disk == net[0].disk;
  }

  lemma SoloAtNewcomer<C>(a: Arrival<C>, net: Net<C>, e: Event, p: Path)
    requires Solo(a, net, p) && Enabled(a.w, net, e) && e.n == 1 && net[1].disk == a.n0 && a.existing == 1
    ensures Solo(a, Do(a.w, net, e), p)
  {
    hide SnapshotDiff, TableOf, Requests, Needs, Pull, PacketCodec.OnTheWire;
    EmptyDiff(TableAt(a, 1), TableAt(a, 1));
    assert !e.Scan? && !e.Flush?;
    var next := Do(a.w, net, e);
    assert net[1].inbox[e.k] in net[1].inbox;
    assert next[0] == net[0];
    assert forall j | j in next[1].inbox :: j in net[1].inbox || j.thread == net[1].inbox[e.k].thread;
  }

  lemma SoloStep<C>(a: Arrival<C>, net: Net<C>, e: Event, p: Path)
    requires Regular(a) && a.existing == 1 && Inv(SceneOf(a), net) && Solo(a, net, p) && Enabled(a.w, net, e)
    requires (forall q :: !Needed(a, q)) && forall q | Added(a, q) :: q == p
    ensures Solo(a, Do(a.w, net, e), p)
  {
    hide Inv, Do, Regular, SceneOf, Added, Needed;
    if e.n == 1 {
      NewcomerKeeps(a, net);
      SoloAtNewcomer(a, net, e, p);
    } else if e.Flush? {
      SaysOnlyTheFile(a, net, p);
      SoloFlush(a, net, e, p);
    } else {
      SoloAtExisting(a, net, e, p);
    }
  }

  lemma {:induction false} RunStaysSolo<C>(a: Arrival<C>, net: Net<C>, events: seq<Event>, p: Path)
    requires Regular(a) && a.existing == 1 && Inv(SceneOf(a), net) && Solo(a, net, p)
    requires (forall q :: !Needed(a, q)) && forall q | Added(a, q) :: q == p
    requires SceneOf(a).w == a.w && Run(a.w, net, events).Some?
    ensures Solo(a, Run(a.w, net, events).value, p)
    decreases events
  {
    hide Inv, Solo, Do, Enabled, Regular, SceneOf, Added, Needed;
    if events != [] {
      RunUnrolled(a.w, net, events);
      EventKeepsInv(SceneOf(a), net, events[0]);
      SoloStep(a, net, events[0], p);
      RunStaysSolo(a, Do(a.w, net, events[0]), events[1..], p);
    }
  }

  /** While the existing node waits, the newcomer's serving threads have nothing in hand. */
  lemma NobodyToWaitFor<C>(a: Arrival<C>, net: Net<C>, p: Path, j: Job)
    requires Solo(a, net, p) && j in net[0].inbox && Waits(j) && j.changes != []
    ensures !InHand(net[1], Handler) && !InHand(net[1], Discoverer)
  {
    hide TableAt;
    assert net[0].inbox[0] == j;
  }

  lemma SoloIsNoKnot<C>(a: Arrival<C>, net: Net<C>, p: Path)
    requires Solo(a, net, p) && Shape(net)
    ensures !Knotted(net)
  {
    hide InHand, TableAt, Greeting;
    if knot: set<(nat, Thread)> :| Knot(net, knot) {
      hide Knot, Knotted, Shape;
      var n, m, l := TwoWait(net, knot);
      if n == 0 {
        NobodyToWaitFor(a, net, p, m);
      } else {
        NobodyToWaitFor(a, net, p, l);
      }
    }
  }

  lemma StartsSolo<C>(a: Arrival<C>, p: Path)
    requires Regular(a) && a.existing == 1 && Added(a, p) && forall q | Added(a, q) :: q == p
    ensures Solo(a, Start(a), p)
  {
    hide Sound, Safe, Unrecognised, JoinHandshake.ArrivesWhole, Requests, TableOf, NoneAdjacent, FirstDiff;
    RegularIs(a);
    OnlyOneWanted(a, p);
  }

  lemma OnlyOneWanted<C>(a: Arrival<C>, p: Path)
    requires a.existing == 1 && (a.w.literal ==> NoneAdjacent(FirstDiff(a), true))
    requires Added(a, p) && forall q | Added(a, q) :: q == p
    ensures Requests(a.w.literal, TableAt(a, 0), TableAt(a, 1), true) == [AddedChange(a, p)]
  {
    hide Survivors, MergeDiff;
    var d := FirstDiff(a);
    var wants := Requests(a.w.literal, TableAt(a, 0), TableAt(a, 1), true);
    LoopIsFilterIff(d, true);
    assert wants == Wanted(d, true);
    WantsAdded(a, AddedChange(a, p));
    MergeDiffDescribes(TableAt(a, 0), TableAt(a, 1));
    WantedDistinct(d, true);
    forall c | c in wants
      ensures c == AddedChange(a, p)
    {
      WantsAdded(a, c);
    }
    assert wants != [] && forall i | 0 <= i < |wants| :: wants[i] in wants;
    assert |wants| > 1 ==> wants[0].path != wants[1].path;
    assert |wants| == 1 && wants[0] == AddedChange(a, p);
  }

  /** The filter keeps paths apart. */
  lemma {:induction false} WantedDistinct(d: seq<Change>, ignoreEdits: bool)
    requires DistinctPaths(d)
    ensures DistinctPaths(Wanted(d, ignoreEdits))
  {
    if d != [] {
      var init := d[..|d| - 1];
      WantedDistinct(init, ignoreEdits);
      WantedMembers(init, ignoreEdits);
      var w := Wanted(init, ignoreEdits);
      assert forall i | 0 <= i < |w| :: w[i] in w;
    }
  }

  // ---- Main results ----

  /** An existing node needs a file of the newcomer's, and there is another existing node, another such file, or a file
      that the newcomer needs. */
  ghost predicate CanBlock<C>(a: Arrival<C>) {
    exists p :: Added(a, p)
      && (a.existing >= 2 || (exists q :: Added(a, q) && q != p) || (exists q :: Needed(a, q)))
  }

  lemma {:induction false} CanBlockBlocks<C>(a: Arrival<C>) returns (net: Net<C>)
    requires Regular(a) && CanBlock(a)
    ensures Leads(a.w, Begin(a), net) && Knotted(net)
  {
    hide Regular, Leads, Knotted, Begin, Added, Needed;
    RegularIs(a) by {
      hide Sound;
    }
    var p :| Added(a, p)
      && (a.existing >= 2 || (exists q :: Added(a, q) && q != p) || (exists q :: Needed(a, q)));
    if a.existing >= 2 {
      net := TwoExistingBlock(a, p);
    } else if q :| Added(a, q) && q != p {
      net := TwoAddedBlock(a, p, q);
    } else {
      var q :| Needed(a, q);
      net := BothNeedBlock(a, p, q);
    }
  }

  lemma StartNeverBlocks<C>(a: Arrival<C>, net: Net<C>)
    requires Regular(a) && !CanBlock(a) && Leads(a.w, Start(a), net)
    ensures !Knotted(net)
  {
    hide Sound, Safe, Unrecognised, JoinHandshake.ArrivesWhole, Run, Start, Inv, Added, Needed, OneSided, Solo, Shape,
         Knotted;
    RegularIs(a);
    StartInv(a);
    InvSize(SceneOf(a), Start(a));
    var events :| Run(a.w, Start(a), events) == Some(net);
    RunKeepsShape(a.w, Start(a), events);
    if p :| Added(a, p) {
      assert a.existing == 1 && (forall q | Added(a, q) :: q == p) && forall q :: !Needed(a, q);
      StartsSolo(a, p);
      RunStaysSolo(a, Start(a), events, p);
      SoloIsNoKnot(a, net, p);
    } else {
      StartsOneSided(a);
      RunStaysOneSided(a, Start(a), events);
      OneSidedIsNoKnot(a, net);
    }
  }

  lemma NeverBlocks<C>(a: Arrival<C>, net: Net<C>)
    requires Regular(a) && !CanBlock(a) && Leads(a.w, Begin(a), net)
    ensures !Knotted(net)
  {
    hide Sound, Safe, Unrecognised, JoinHandshake.ArrivesWhole, Run, Start, Begin, Knotted, CanBlock;
    RegularIs(a);
    var events :| Run(a.w, Begin(a), events) == Some(net);
    var rest := RunsStart(a, events, net);
    if events == [] {
      BeginShape(a);
      RestIsNoKnot(net);
    } else {
      assert Leads(a.w, Start(a), net);
      StartNeverBlocks(a, net);
    }
  }

  /** Some run brings threads to wait for each other for good. */
  ghost predicate SomeRunBlocks<C(!new)>(a: Arrival<C>) {
    exists net :: Leads(a.w, Begin(a), net) && Knotted(net)
  }

  lemma {:induction false} BlocksIff<C(!new)>(a: Arrival<C>)
    requires Regular(a)
    ensures SomeRunBlocks(a) <==> CanBlock(a)
  {
    hide Leads, Knotted, Begin, Regular, CanBlock;
    if CanBlock(a) {
      var net := CanBlockBlocks(a);
    } else {
      forall net | Leads(a.w, Begin(a), net)
        ensures !Knotted(net)
      {
        NeverBlocks(a, net);
      }
    }
  }

  lemma StartIsAhead<C>(a: Arrival<C>)
    requires Sound(a)
    ensures Leads(a.w, Begin(a), Start(a))
  {
    hide Leads, Met, Begin, Sound;
    LeadsNowhere(a.w, Begin(a));
    if a.existing == 1 {
      MeetFirst(a);
    }
  }

  /** Otherwise no run is a dead end: each can be continued until every disk is where it should be. */
  lemma {:induction false} EveryRunGoesOn<C>(a: Arrival<C>, net: Net<C>) returns (last: Net<C>)
    requires Regular(a) && !CanBlock(a) && Leads(a.w, Begin(a), net)
    ensures Leads(a.w, net, last) && Quiet(a.w.rules, last) && AllAtOutcome(a, last)
  {
    hide Sound, Safe, Unrecognised, JoinHandshake.ArrivesWhole, Run, Start, Begin, Knotted, CanBlock, Inv, Quiet,
         AllAtOutcome, SceneOf;
    RegularIs(a);
    StartInv(a);
    LeadsNowhere(a.w, Start(a));
    var events :| Run(a.w, Begin(a), events) == Some(net);
    var rest := RunsStart(a, events, net);
    var from := if events == [] then Start(a) else net;
    assert Leads(a.w, Start(a), from);
    LeadsKeepsInv(SceneOf(a), Start(a), from);
    forall next | Leads(a.w, from, next)
      ensures !Knotted(next)
    {
      Onwards(a.w, Start(a), from, next);
      StartNeverBlocks(a, next);
    }
    last := GoesOn(SceneOf(a), from);
    if events == [] {
      StartIsAhead(a);
      Onwards(a.w, net, from, last);
    }
    LeadsKeepsInv(SceneOf(a), from, last);
    QuietIsAtOutcome(a, last);
  }
}

/** Nodes that agree, then one batch of user changes at one of them: how long it takes, where every disk ends up, when
    all of them end up equal, and when handlers can block each other. */
module SingleOrigin {
  import opened Base
  import opened DirectoryDiff
  import opened RequestFiles
  import opened Network
  import opened Propagation
  import opened Preservation
  import opened Convergence
  import opened Knots
  import opened Schedules

  /** `count` nodes hold `d0`; the user has just turned the origin's disk into `d1`. */
  datatype Batch<!C> = Batch(w: World<C>, d0: Disk<C>, d1: Disk<C>, origin: nat, count: nat)

  function DiskAt<C>(b: Batch<C>, i: nat): Disk<C> {
    if i == b.origin then b.d1 else b.d0
  }

  function Begin<C>(b: Batch<C>): Net<C> {
    var t0 := TableOf(b.w.rules, b.d0);
    seq(b.count, (i: nat) => Node(DiskAt(b, i), t0, t0, [], []))
  }

  /** What the origin's watcher notices. */
  function Change0<C>(b: Batch<C>): seq<Change> {
    SnapshotDiff(TableOf(b.w.rules, b.d0), TableOf(b.w.rules, b.d1))
  }

  /** The origin has noticed it and told everybody. */
  function Told<C>(b: Batch<C>): Net<C> {
    seq(b.count, (i: nat) =>
      var t := TableOf(b.w.rules, DiskAt(b, i));
      Node(DiskAt(b, i), t, t, [], if i == b.origin then [] else [News(b.origin, Change0(b))]))
  }

  /** A second transfer of a transferred file loses nothing more. */
  ghost predicate Repeatable<C>(b: Batch<C>) {
    b.origin < b.count && forall p | p in b.d1 ::
      b.w.rules.delivered(b.w.rules.delivered(b.d1[p])) == b.w.rules.delivered(b.d1[p])
  }

  /** The origin's watcher notices the change at this path. */
  ghost predicate Detected<C>(b: Batch<C>, p: Path) {
    Get(TableOf(b.w.rules, b.d0), p) != Get(TableOf(b.w.rules, b.d1), p)
  }

  /** The change is noticed and does not look, to a node that has the old file, like a file it already has. */
  ghost predicate Reaches<C>(b: Batch<C>, p: Path) {
    && Detected(b, p)
    && !(p in b.d0 && p in b.d1 && b.w.rules.recomputed(p, b.d0[p]) == b.w.rules.announced(p, b.d1[p]))
  }

  /** The receivers' watchers notice what they were given, and the origin acts on their announcing it. */
  ghost predicate ComesBack<C>(b: Batch<C>, p: Path) {
    && b.count >= 2 && Reaches(b, p) && p in b.d1
    && (p !in b.d0
        || b.w.rules.announced(p, b.d0[p]) != b.w.rules.announced(p, b.w.rules.delivered(b.d1[p])))
    && b.w.rules.recomputed(p, b.d1[p]) != b.w.rules.announced(p, b.w.rules.delivered(b.d1[p]))
  }

  /** What node `i` ends up with: the origin too, where its own file comes back cut. */
  ghost function Outcome<C>(b: Batch<C>, i: nat, p: Path): Option<C> {
    if if i == b.origin then ComesBack(b, p) else Reaches(b, p) then Copied(b.w.rules, b.d1, p)
    else Get(DiskAt(b, i), p)
  }

  ghost function Reached<C>(b: Batch<C>): set<Path> {
    set p | p in b.d0.Keys + b.d1.Keys && Reaches(b, p)
  }

  ghost function Returned<C>(b: Batch<C>): set<Path> {
    set p | p in b.d0.Keys + b.d1.Keys && b.count >= 2 && Reaches(b, p) && (p !in b.d1 || ComesBack(b, p))
  }

  /** The files that are sent about. */
  ghost function Spread<C>(b: Batch<C>): set<Path> {
    set p | p in b.d1 && Reaches(b, p)
  }

  // ---- As a scene of the network ----

  ghost function SceneOf<C>(b: Batch<C>): Scene<C> {
    Scene(b.w, seq(b.count, (i: nat) => DiskAt(b, i)), b.d1,
          seq(b.count, (i: nat) => if i == b.origin then {} else Reached(b)),
          seq(b.count, (i: nat) => if i == b.origin then Returned(b) else {}))
  }

  lemma EarlyIs<C>(b: Batch<C>, i: nat, p: Path)
    ensures Early(SceneOf(b), i, p) <==> i < b.count && i != b.origin && Reaches(b, p)
    ensures Late(SceneOf(b), i, p) <==>
              i < b.count && i == b.origin && b.count >= 2 && Reaches(b, p) && (p !in b.d1 || ComesBack(b, p))
  {
    assert Reaches(b, p) <==> p in Reached(b);
    assert p in Returned(b) <==> b.count >= 2 && Reaches(b, p) && (p !in b.d1 || ComesBack(b, p));
  }

  /** What the diff says of a path. */
  function ChangeAt<C>(b: Batch<C>, p: Path): Change {
    if p !in b.d1 then Change(p, 0, Deletion)
    else Change(p, b.w.rules.announced(p, b.d1[p]), if p in b.d0 then Edit else Addition)
  }

  lemma ChangesAre<C>(b: Batch<C>, c: Change)
    ensures c in Change0(b) <==> Detected(b, c.path) && c == ChangeAt(b, c.path)
  {
    var t0, t1 := TableOf(b.w.rules, b.d0), TableOf(b.w.rules, b.d1);
    SnapshotDiffDescribes(t0, t1);
    assert c in Change0(b) <==> Correct(c, t0, t1);
  }

  /** A node that is not the origin. */
  lemma Another<C>(b: Batch<C>) returns (j: nat)
    requires b.count >= 2
    ensures j < b.count && j != b.origin
  {
    j := if b.origin == 0 then 1 else 0;
  }

  lemma WhoEchoes<C>(b: Batch<C>, i: nat, j: nat, p: Path)
    requires Repeatable(b) && i < b.count && j < b.count && i != j
    requires Mover(SceneOf(b), j, p) && Noticed(SceneOf(b), j, p) && Echoes(SceneOf(b), i, p)
    ensures Mover(SceneOf(b), i, p)
  {
    EarlyIs(b, i, p);
    EarlyIs(b, j, p);
  }

  lemma WhoTells<C>(b: Batch<C>, p: Path)
    requires Repeatable(b) && Late(SceneOf(b), b.origin, p)
    ensures
      var sc := SceneOf(b);
      || Get(sc.start[b.origin], p) == Cut(sc, p)
      || (Echoes(sc, b.origin, p) && exists j :: Teller(sc, b.origin, j, p))
  {
    EarlyIs(b, b.origin, p);
    var j := Another(b);
    EarlyIs(b, j, p);
    if p in b.d1 {
      assert Teller(SceneOf(b), b.origin, j, p);
    }
  }

  lemma SceneIsSensible<C>(b: Batch<C>)
    requires Repeatable(b)
    ensures Sensible(SceneOf(b))
  {
    hide Reaches, ComesBack, Noticed, Echoes;
    var sc := SceneOf(b);
    forall i, j, p | 0 <= i < b.count && 0 <= j < b.count && i != j && Mover(sc, j, p) && Noticed(sc, j, p)
                     && Echoes(sc, i, p)
      ensures Mover(sc, i, p)
    {
      WhoEchoes(b, i, j, p);
    }
    forall i, p | 0 <= i < b.count && Late(sc, i, p)
      ensures Get(sc.start[i], p) == Cut(sc, p) || (Echoes(sc, i, p) && exists j :: Teller(sc, i, j, p))
    {
      EarlyIs(b, i, p);
      WhoTells(b, p);
    }
  }

  lemma ToldChangeOk<C>(b: Batch<C>, i: nat, c: Change)
    requires b.origin < b.count && i < b.count && i != b.origin && c in Change0(b)
    ensures ChangeOk(SceneOf(b), Told(b), i, b.origin, c)
  {
    hide Change0, Begun;
    ChangesAre(b, c);
    EarlyIs(b, i, c.path);
  }

  lemma ToldOnItsWay<C>(b: Batch<C>, i: nat, p: Path)
    requires Repeatable(b) && i < b.count && Mover(SceneOf(b), i, p)
    ensures OnItsWay(SceneOf(b), Told(b), i, p)
  {
    hide Change0, Begun;
    var sc, net := SceneOf(b), Told(b);
    EarlyIs(b, i, p);
    if i == b.origin {
      WhoTells(b, p);
      if !Arrived(sc, i, net[i], p) {
        var j: nat :| Teller(sc, i, j, p);
        assert Unsaid(sc, net[j], p);
      }
    } else {
      var c := ChangeAt(b, p);
      ChangesAre(b, c);
      assert net[i].inbox[0] == News(b.origin, Change0(b));
      assert c in net[i].inbox[0].changes && Effective(sc, i, c);
      assert Awaits(sc, i, News(b.origin, Change0(b)), p);
      assert Waiting(sc, i, net[i], p);
    }
  }

  lemma ToldInv<C>(b: Batch<C>)
    requires Repeatable(b)
    ensures Inv(SceneOf(b), Told(b))
  {
    hide OnItsWay, ChangeOk, Change0;
    var sc, net := SceneOf(b), Told(b);
    SceneIsSensible(b);
    forall i | 0 <= i < b.count
      ensures NodeOk(sc, net, i)
    {
      forall p | Mover(sc, i, p)
        ensures OnItsWay(sc, net, i, p)
      {
        ToldOnItsWay(b, i, p);
      }
      forall c | i != b.origin && c in Change0(b)
        ensures ChangeOk(sc, net, i, b.origin, c)
      {
        ToldChangeOk(b, i, c);
      }
    }
  }

  lemma FinalIsOutcome<C>(b: Batch<C>, i: nat, p: Path)
    requires b.origin < b.count && i < b.count
    ensures Final(SceneOf(b), i, p) == Outcome(b, i, p)
  {
    EarlyIs(b, i, p);
  }

  // ---- How long it can take ----

  /** For each reached path a pull and what follows from it at every node, the first broadcast, and the scan and flush
      that begin it all. */
  ghost function Bound<C>(b: Batch<C>): int {
    b.count * (|Reached(b)| * (6 * b.count + 2)) + (b.count - 1) * (3 * |Change0(b)| + 3) + 2
  }

  lemma ToldMissing<C>(b: Batch<C>, i: nat)
    requires b.origin < b.count && i < b.count
    ensures |Missing(SceneOf(b), i, Told(b)[i])| <= |Reached(b)|
  {
    var sc := SceneOf(b);
    forall p | p in Missing(sc, i, Told(b)[i])
      ensures p in Reached(b)
    {
      EarlyIs(b, i, p);
      assert Reaches(b, p) <==> p in Reached(b);
    }
    SubsetSize(Missing(sc, i, Told(b)[i]), Reached(b));
  }

  lemma ToldWeight<C>(b: Batch<C>, i: nat)
    requires b.origin < b.count && i < b.count
    ensures Weight(SceneOf(b), i, Told(b)[i])
         <= |Reached(b)| * (6 * b.count + 2) + if i == b.origin then 0 else 3 * |Change0(b)| + 3
  {
    hide Change0, Paths, Reached;
    var sc, x := SceneOf(b), Told(b)[i];
    ToldMissing(b, i);
    assert Unsnapped(sc, x) == {};
    TimesMonotone(|Missing(sc, i, x)|, |Reached(b)|, 6 * b.count + 2);
    TimesIs(|Reached(b)|, 6 * b.count + 2);
    CombinedIs(b.count, |Missing(sc, i, x)|, 0, 0, InboxWork(|Paths(sc)|, x.inbox));
    if i != b.origin {
      InboxWorkMore(|Paths(sc)|, [], News(b.origin, Change0(b)));
      assert [] + [News(b.origin, Change0(b))] == x.inbox;
    }
  }

  lemma {:induction false} SumAtMost(ws: seq<int>, n: nat, each: int, more: int)
    requires n < |ws| && forall i | 0 <= i < |ws| :: ws[i] <= each + if i == n then 0 else more
    ensures Sum(ws) <= |ws| * each + (|ws| - 1) * more
  {
    var last := |ws| - 1;
    assert |ws| * each == last * each + each && last * more == (last - 1) * more + more;
    if n < last {
      SumAtMost(ws[..last], n, each, more);
    } else {
      SumAtMostEach(ws[..last], each + more);
      assert last * (each + more) == last * each + last * more;
    }
  }

  lemma ToldMeasure<C>(b: Batch<C>)
    requires b.origin < b.count
    ensures Measure(SceneOf(b), Told(b)) + 2 <= Bound(b)
  {
    hide Weight, Change0, Reached;
    var ws := Weights(SceneOf(b), Told(b));
    forall i | 0 <= i < |ws|
      ensures ws[i] <= |Reached(b)| * (6 * b.count + 2) + if i == b.origin then 0 else 3 * |Change0(b)| + 3
    {
      ToldWeight(b, i);
    }
    SumAtMost(ws, b.origin, |Reached(b)| * (6 * b.count + 2), 3 * |Change0(b)| + 3);
  }

  // ---- How every run begins ----

  /** The origin's watcher has noticed the batch. */
  function Noted<C>(b: Batch<C>): Net<C> {
    seq(b.count, (i: nat) =>
      Node(DiskAt(b, i), TableOf(b.w.rules, DiskAt(b, i)), TableOf(b.w.rules, b.d0),
           if i == b.origin then Change0(b) else [], []))
  }

  /** Nothing can happen at first but the origin's scan. */
  lemma FirstEvent<C>(b: Batch<C>, e: Event)
    requires b.origin < b.count && Enabled(b.w, Begin(b), e)
    ensures e == Scan(b.origin) && Change0(b) != [] && Do(b.w, Begin(b), e) == Noted(b)
  {
    hide SnapshotDiff, TableOf;
    EmptyDiff(TableOf(b.w.rules, b.d0), TableOf(b.w.rules, b.d0));
    assert Found(b.w.rules, Begin(b)[b.origin]) == Change0(b);
    assert e.Scan? && e.n == b.origin;
    assert [] + Change0(b) == Change0(b);
    assert Do(b.w, Begin(b), e) == Noted(b);
  }

  /** And after it nothing but its flush. */
  lemma SecondEvent<C>(b: Batch<C>, e: Event)
    requires b.origin < b.count && Enabled(b.w, Noted(b), e)
    ensures e == Flush(b.origin)
  {
    hide SnapshotDiff, TableOf;
    forall i | 0 <= i < b.count
      ensures Found(b.w.rules, Noted(b)[i]) == []
    {
      EmptyDiff(TableOf(b.w.rules, DiskAt(b, i)), TableOf(b.w.rules, DiskAt(b, i)));
    }
    assert !e.Scan?;
  }

  lemma FlushTells<C>(b: Batch<C>)
    requires b.origin < b.count && Change0(b) != []
    ensures Enabled(b.w, Noted(b), Flush(b.origin)) && Do(b.w, Noted(b), Flush(b.origin)) == Told(b)
  {
    hide SnapshotDiff, TableOf, Apply;
    var t0, t1 := TableOf(b.w.rules, b.d0), TableOf(b.w.rules, b.d1);
    SnapshotDiffDescribes(t0, t1);
    DescribedReplay(Change0(b), t0, t1);
    assert [] + [News(b.origin, Change0(b))] == [News(b.origin, Change0(b))];
    assert Do(b.w, Noted(b), Flush(b.origin)) == Told(b);
  }

  /** A run has done at most the first two events, or goes on from the state in which everybody has been told. */
  lemma {:induction false} RunsBegin<C>(b: Batch<C>, events: seq<Event>, net: Net<C>)
    requires b.origin < b.count && Run(b.w, Begin(b), events) == Some(net)
    ensures || (events == [] && net == Begin(b))
            || (|events| == 1 && Change0(b) != [] && net == Noted(b))
            || (|events| >= 2 && Change0(b) != [] && Run(b.w, Told(b), events[2..]) == Some(net))
  {
    hide Enabled, Change0, Begin, Noted, Told, Do;
    if events != [] {
      RunUnrolled(b.w, Begin(b), events);
      FirstEvent(b, events[0]);
      if |events| > 1 {
        RunUnrolled(b.w, Noted(b), events[1..]);
        SecondEvent(b, events[1]);
        FlushTells(b);
        assert events[1..][1..] == events[2..];
      } else {
        assert events[1..] == [];
      }
    }
  }

  lemma ScanEnabled<C>(b: Batch<C>)
    requires b.origin < b.count && Change0(b) != []
    ensures Enabled(b.w, Begin(b), Scan(b.origin))
  {
    hide SnapshotDiff, TableOf;
  }

  lemma BeginLeadsToTold<C>(b: Batch<C>)
    requires b.origin < b.count && Change0(b) != []
    ensures Leads(b.w, Begin(b), Told(b))
  {
    hide Leads, Enabled, Do, Change0, Begin, Noted, Told;
    ScanEnabled(b);
    FirstEvent(b, Scan(b.origin));
    OneEvent(b.w, Begin(b), Scan(b.origin));
    FlushTells(b);
    OneEvent(b.w, Noted(b), Flush(b.origin));
    Onwards(b.w, Begin(b), Noted(b), Told(b));
  }

  // ---- Where every disk ends ----

  ghost predicate AtOutcome<C>(b: Batch<C>, i: nat, x: Node<C>) {
    && (forall p :: Get(x.disk, p) == Outcome(b, i, p))
    && x.table == x.snapshot == TableOf(b.w.rules, x.disk)
    && x.buf == [] && x.inbox == []
  }

  ghost predicate AllAtOutcome<C>(b: Batch<C>, net: Net<C>) {
    |net| == b.count && forall i | 0 <= i < |net| :: AtOutcome(b, i, net[i])
  }

  lemma QuietIsAtOutcome<C>(b: Batch<C>, net: Net<C>)
    requires b.origin < b.count && Inv(SceneOf(b), net) && Quiet(b.w.rules, net)
    ensures AllAtOutcome(b, net)
  {
    hide Inv, Outcome, Quiet;
    QuietSettles(SceneOf(b), net);
    assert |net| == b.count by {
      InvSize(SceneOf(b), net);
    }
    forall i | 0 <= i < |net|
      ensures AtOutcome(b, i, net[i])
    {
      forall p
        ensures Get(net[i].disk, p) == Outcome(b, i, p)
      {
        assert Arrived(SceneOf(b), i, net[i], p);
        FinalIsOutcome(b, i, p);
      }
    }
  }

  /** Where nothing was noticed, nothing happens. */
  lemma UnnoticedIsAtOutcome<C>(b: Batch<C>)
    requires b.origin < b.count && Quiet(b.w.rules, Begin(b))
    ensures AllAtOutcome(b, Begin(b))
  {
    hide SnapshotDiff;
    var x := Begin(b)[b.origin];
    assert Found(b.w.rules, x) == [];
    EmptyDiff(x.snapshot, TableOf(b.w.rules, x.disk));
    assert forall p :: !Reaches(b, p);
  }

  lemma NotedIsNotQuiet<C>(b: Batch<C>)
    requires b.origin < b.count && Change0(b) != []
    ensures !Quiet(b.w.rules, Noted(b))
  {
    hide Change0, Found;
    assert Noted(b)[b.origin].buf == Change0(b);
  }

  lemma BeginShape<C>(b: Batch<C>)
    requires b.origin < b.count
    ensures Shape(Begin(b))
  {
  }

  /** Every interleaving, re-broadcasts included, has at most `Bound` events; one that can go no further has brought
      every disk to its outcome and every table and snapshot to that disk, or has left threads that wait for each other
      for good. */
  lemma {:induction false} EveryInterleavingSettles<C>(b: Batch<C>, events: seq<Event>, net: Net<C>)
    requires Repeatable(b) && Run(b.w, Begin(b), events) == Some(net)
    ensures |events| <= Bound(b)
    ensures Quiet(b.w.rules, net) ==> AllAtOutcome(b, net)
    ensures Over(b.w, net) ==> AllAtOutcome(b, net) || Knotted(net)
  {
    hide Inv, Measure, Change0, Quiet, Knotted, Over, Run, AllAtOutcome, Repeatable, SceneOf, Bound, Begin, Told, Noted;
    Sizes(b);
    RunsBegin(b, events, net);
    ToldMeasure(b);
    ToldInv(b);
    MeasureIsNatural(SceneOf(b), Told(b));
    if |events| >= 2 {
      RunLowers(SceneOf(b), Told(b), events[2..]);
      InvSize(SceneOf(b), net);
      MeasureIsNatural(SceneOf(b), net);
      if Quiet(b.w.rules, net) {
        QuietIsAtOutcome(b, net);
      }
    } else if events == [] {
      if Quiet(b.w.rules, net) {
        UnnoticedIsAtOutcome(b);
      }
    } else {
      NotedIsNotQuiet(b);
    }
    BeginShape(b);
    RunKeepsShape(b.w, Begin(b), events);
    if Over(b.w, net) {
      QuietOrKnotted(b.w, net);
    }
  }

  lemma Sizes<C>(b: Batch<C>)
    requires Repeatable(b)
    ensures b.origin < b.count == |SceneOf(b).start| == |Told(b)| == |Begin(b)| == |Noted(b)|
    ensures SceneOf(b).w == b.w && SceneOf(b).target == b.d1 && 2 <= Bound(b)
  {
    ToldMeasure(b);
    MeasureIsNatural(SceneOf(b), Told(b));
  }

  /** Some run always gets there. */
  lemma {:induction false} SomeRunSettles<C>(b: Batch<C>) returns (last: Net<C>)
    requires Repeatable(b)
    ensures Leads(b.w, Begin(b), last) && Quiet(b.w.rules, last) && AllAtOutcome(b, last)
  {
    hide Inv, Measure, Change0, AllAtOutcome, Repeatable, SceneOf, Leads, Told, Begin;
    Sizes(b);
    if Change0(b) == [] {
      last := Begin(b);
      LeadsNowhere(b.w, last);
      BeginIsQuiet(b);
      UnnoticedIsAtOutcome(b);
    } else {
      ToldInv(b);
      ToldRests(b);
      last := Settles(SceneOf(b), Told(b));
      BeginLeadsToTold(b);
      Onwards(b.w, Begin(b), Told(b), last);
      LeadsKeepsInv(SceneOf(b), Told(b), last);
      QuietIsAtOutcome(b, last);
    }
  }

  lemma BeginIsQuiet<C>(b: Batch<C>)
    requires b.origin < b.count && Change0(b) == []
    ensures Quiet(b.w.rules, Begin(b))
  {
    hide SnapshotDiff, TableOf;
    EmptyDiff(TableOf(b.w.rules, b.d0), TableOf(b.w.rules, b.d0));
  }

  lemma ToldRests<C>(b: Batch<C>)
    ensures AllResting(Told(b)) && AllResting(Begin(b)) && AllResting(Noted(b))
  {
    hide Change0;
  }

  // ---- When all disks end up equal ----

  /** What the user changed can be told from what was there: by the announced hash, so that the watcher notices, and by
      the recomputed one, so that no receiver skips. A path that was added or deleted always can. */
  ghost predicate Distinguishable<C>(b: Batch<C>) {
    forall p | p in b.d0 && p in b.d1 && b.d0[p] != b.d1[p] ::
      && b.w.rules.announced(p, b.d0[p]) != b.w.rules.announced(p, b.d1[p])
      && b.w.rules.recomputed(p, b.d0[p]) != b.w.rules.announced(p, b.d1[p])
  }

  /** Every new or edited file survives a transfer. */
  ghost predicate Whole<C>(b: Batch<C>) {
    forall p | p in b.d1 && Get(b.d0, p) != Get(b.d1, p) :: b.w.rules.delivered(b.d1[p]) == b.d1[p]
  }

  lemma DistinguishablePaths<C>(b: Batch<C>)
    ensures Distinguishable(b) <==> forall p | Get(b.d0, p) != Get(b.d1, p) :: Reaches(b, p)
  {
    forall p | p in b.d0 && p in b.d1 && b.d0[p] != b.d1[p]
      ensures Get(b.d0, p) != Get(b.d1, p)
      ensures Reaches(b, p) <==>
                && b.w.rules.announced(p, b.d0[p]) != b.w.rules.announced(p, b.d1[p])
                && b.w.rules.recomputed(p, b.d0[p]) != b.w.rules.announced(p, b.d1[p])
    {
    }
    if Distinguishable(b) {
      forall p | Get(b.d0, p) != Get(b.d1, p)
        ensures Reaches(b, p)
      {
        if p in b.d0 && p in b.d1 {
          assert b.d0[p] != b.d1[p];
        }
      }
    }
  }

  lemma OutcomeIsTarget<C>(b: Batch<C>, i: nat, p: Path)
    requires Whole(b) && (Get(b.d0, p) != Get(b.d1, p) ==> Reaches(b, p))
    ensures Outcome(b, i, p) == Get(b.d1, p)
  {
    assert Reaches(b, p) ==> Get(b.d0, p) != Get(b.d1, p);
  }

  lemma ReachedIsEqual<C>(b: Batch<C>, i: nat, x: Node<C>)
    requires AtOutcome(b, i, x) && Whole(b) && forall p | Get(b.d0, p) != Get(b.d1, p) :: Reaches(b, p)
    ensures x.disk == b.d1
  {
    hide Whole, Reaches, Outcome;
    forall p
      ensures Get(x.disk, p) == Get(b.d1, p)
    {
      OutcomeIsTarget(b, i, p);
    }
    SameAnswersSameMap(x.disk, b.d1);
  }

  /** A path at which another node does not end with the origin's file. */
  lemma Differs<C>(b: Batch<C>, i: nat) returns (p: Path)
    requires i != b.origin && !((forall q | Get(b.d0, q) != Get(b.d1, q) :: Reaches(b, q)) && Whole(b))
    ensures Outcome(b, i, p) != Get(b.d1, p)
  {
    if !(forall q | Get(b.d0, q) != Get(b.d1, q) :: Reaches(b, q)) {
      p :| Get(b.d0, p) != Get(b.d1, p) && !Reaches(b, p);
    } else {
      p :| p in b.d1 && Get(b.d0, p) != Get(b.d1, p) && b.w.rules.delivered(b.d1[p]) != b.d1[p];
    }
  }

  /** In a network of two or more, the settled disks all equal what the user made of the origin's if and only if every
      edit is distinguishable and every new or edited file arrives whole. */
  lemma {:induction false} ConvergesIff<C>(b: Batch<C>, events: seq<Event>, net: Net<C>)
    requires Repeatable(b) && b.count >= 2 && Run(b.w, Begin(b), events) == Some(net) && Quiet(b.w.rules, net)
    ensures (forall i | 0 <= i < |net| :: net[i].disk == b.d1) <==> Distinguishable(b) && Whole(b)
  {
    hide Run, Quiet, Distinguishable, Outcome, Reaches, Whole, Repeatable;
    EveryInterleavingSettles(b, events, net);
    DistinguishablePaths(b);
    if Distinguishable(b) && Whole(b) {
      forall i | 0 <= i < |net|
        ensures net[i].disk == b.d1
      {
        ReachedIsEqual(b, i, net[i]);
      }
    } else {
      var other := Another(b);
      var p := Differs(b, other);
      assert AtOutcome(b, other, net[other]);
      assert Get(net[other].disk, p) == Outcome(b, other, p);
    }
  }
}

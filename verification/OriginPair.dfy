/** One batch of user changes and two nodes: the origin and its peer can block each other exactly if the origin's
    watcher notices a file that comes back to it cut, and another file comes back as well. */
module OriginPair {
  import opened Base
  import opened DirectoryDiff
  import opened RequestFiles
  import opened Network
  import opened Propagation
  import opened Preservation
  import opened Convergence
  import opened Knots
  import opened Schedules
  import opened SingleOrigin

  /** The origin acts on its peer's broadcast of the file, and its watcher notices what it is given. */
  ghost predicate NoticedAtHome<C>(b: Batch<C>, p: Path) {
    ComesBack(b, p) && b.w.rules.announced(p, b.d1[p]) != b.w.rules.announced(p, b.w.rules.delivered(b.d1[p]))
  }

  // ---- While the origin says nothing more ----

  /** The receiver works on the origin's broadcast, or the origin on the receiver's; the origin says nothing more. */
  ghost predicate OneWay<C>(b: Batch<C>, net: Net<C>)
    requires b.origin < 2
  {
    var o, x := b.origin, 1 - b.origin;
    && |net| == 2
    && (forall n, j | 0 <= n < 2 && j in net[n].inbox :: j.thread == Handler)
    && net[o].snapshot == TableOf(b.w.rules, b.d1) && net[o].buf == []
    && (net[x].inbox != [] ==>
          && net[o].inbox == [] && |net[x].inbox| == 1
          && (Busy(net[x].inbox[0]) || (net[x].buf == [] && Found(b.w.rules, net[x]) == [])))
  }

  lemma OneWayAtOrigin<C>(b: Batch<C>, net: Net<C>, e: Event)
    requires b.origin < 2 && OneWay(b, net) && Enabled(b.w, net, e) && e.n == b.origin
    requires TableOf(b.w.rules, net[b.origin].disk) == TableOf(b.w.rules, b.d1)
    ensures OneWay(b, Do(b.w, net, e))
  {
    hide SnapshotDiff, TableOf, Requests, Pull, Needs;
    var o, next := b.origin, Do(b.w, net, e);
    if e.Scan? {
      EmptyDiff(net[o].snapshot, TableOf(b.w.rules, b.d1));
      assert false;
    } else {
      assert net[o].inbox[e.k] in net[o].inbox;
      assert next[1 - o] == net[1 - o];
      assert forall j | j in next[o].inbox :: j in net[o].inbox || j.thread == Handler;
    }
  }

  /** The receiver's one broadcast, in hand or not yet of any effect. */
  ghost predicate Working<C>(r: Rules<C>, y: Node<C>) {
    |y.inbox| == 1 && y.inbox[0].thread == Handler && (Busy(y.inbox[0]) || (y.buf == [] && Found(r, y) == []))
  }

  lemma OneWayAfter<C>(b: Batch<C>, net: Net<C>, y: Node<C>)
    requires b.origin < 2 && OneWay(b, net)
    requires y.inbox == [] || (net[b.origin].inbox == [] && Working(b.w.rules, y))
    ensures OneWay(b, net[1 - b.origin := y])
  {
    hide Found;
    assert forall j | j in y.inbox :: j == y.inbox[0];
  }

  lemma StepWorks<C>(w: World<C>, net: Net<C>, e: Event)
    requires Enabled(w, net, e) && !e.Flush? && Working(w.rules, net[e.n])
    ensures Do(w, net, e)[e.n].inbox == [] || Working(w.rules, Do(w, net, e)[e.n])
  {
    hide SnapshotDiff, TableOf, Requests, Pull, Needs;
    if !e.Scan? {
      assert e.k == 0;
      var x := net[e.n];
      assert forall j: Job :: WithJob(x, 0, j).inbox == [j];
    }
  }

  lemma OneWayElsewhere<C>(b: Batch<C>, net: Net<C>, e: Event)
    requires b.origin < 2 && OneWay(b, net) && Enabled(b.w, net, e) && e.n != b.origin && !e.Flush?
    ensures OneWay(b, Do(b.w, net, e))
  {
    hide Found, Requests, Pull, Needs, TableOf;
    var x, next := 1 - b.origin, Do(b.w, net, e);
    if net[x].inbox == [] {
      assert e.Scan?;
      OneWayAfter(b, net, Scanned(b.w.rules, net[x]));
    } else {
      hide Do, Enabled;
      assert net[x].inbox[0] in net[x].inbox;
      assert forall j | j in net[x].inbox :: j.thread == Handler;
      assert Working(b.w.rules, net[x]);
      hide OneWay;
      StepWorks(b.w, net, e);
      HandlersStayHome(b.w, net, e);
      OneWayGoesOn(b, net, next[x]);
    }
  }

  lemma OneWayGoesOn<C>(b: Batch<C>, net: Net<C>, y: Node<C>)
    requires b.origin < 2 && OneWay(b, net) && net[1 - b.origin].inbox != []
    requires y.inbox == [] || Working(b.w.rules, y)
    ensures OneWay(b, net[1 - b.origin := y])
  {
    hide Found, TableOf;
    OneWayAfter(b, net, y);
  }

  /** An event at a node without tables changes no other node, unless it is a flush. */
  lemma HandlersStayHome<C>(w: World<C>, net: Net<C>, e: Event)
    requires Enabled(w, net, e) && !e.Flush? && forall j | j in net[e.n].inbox :: j.thread == Handler
    ensures Do(w, net, e) == net[e.n := Do(w, net, e)[e.n]]
  {
    hide Found, Requests, Pull, Needs, TableOf;
    if !e.Scan? {
      assert net[e.n].inbox[e.k] in net[e.n].inbox;
    }
  }

  lemma OneWayFlush<C>(b: Batch<C>, net: Net<C>, e: Event)
    requires b.origin < 2 && OneWay(b, net) && Enabled(b.w, net, e) && e.n != b.origin && e.Flush?
    ensures OneWay(b, Do(b.w, net, e))
  {
    hide SnapshotDiff, TableOf, Apply, Found;
    var o, x, next := b.origin, 1 - b.origin, Do(b.w, net, e);
    assert net[x].inbox == [];
    assert next[o] == Receives(net[o], News(x, net[x].buf));
    assert next[x].inbox == [];
  }

  lemma OneWayIsNoKnot<C>(b: Batch<C>, net: Net<C>)
    requires b.origin < 2 && OneWay(b, net) && Shape(net)
    ensures !Knotted(net)
  {
    if knot: set<(nat, Thread)> :| Knot(net, knot) {
      var n, j := SomebodyWaits(net, knot);
      assert false;
    }
  }

  lemma OneWayStep<C>(b: Batch<C>, net: Net<C>, e: Event)
    requires b.origin < 2 && OneWay(b, net) && Enabled(b.w, net, e)
    requires TableOf(b.w.rules, net[b.origin].disk) == TableOf(b.w.rules, b.d1)
    ensures OneWay(b, Do(b.w, net, e))
  {
    hide OneWay, Do, TableOf;
    if e.n == b.origin {
      OneWayAtOrigin(b, net, e);
    } else if e.Flush? {
      OneWayFlush(b, net, e);
    } else {
      OneWayElsewhere(b, net, e);
    }
  }

  /** If the origin's watcher never notices what comes back, its table stays right. */
  lemma OriginUnchanged<C>(b: Batch<C>, net: Net<C>)
    requires Repeatable(b) && Inv(SceneOf(b), net) && forall p :: !NoticedAtHome(b, p)
    ensures |net| == b.count && TableOf(b.w.rules, net[b.origin].disk) == TableOf(b.w.rules, b.d1)
  {
    hide Inv, Repeatable, NoticedAtHome, SceneOf;
    Sizes(b);
    InvSize(SceneOf(b), net);
    PathFacts(SceneOf(b), net, b.origin);
    var t, t1 := TableOf(b.w.rules, net[b.origin].disk), TableOf(b.w.rules, b.d1);
    forall p
      ensures Get(t, p) == Get(t1, p)
    {
      assert PathOk(SceneOf(b), b.origin, net[b.origin], p);
      UnnoticedAt(b, net[b.origin], p);
    }
    SameAnswersSameMap(t, t1);
  }

  lemma UnnoticedAt<C>(b: Batch<C>, x: Node<C>, p: Path)
    requires Repeatable(b) && !NoticedAtHome(b, p) && b.origin < |SceneOf(b).start|
    requires PathOk(SceneOf(b), b.origin, x, p)
    ensures Get(TableOf(b.w.rules, x.disk), p) == Get(TableOf(b.w.rules, b.d1), p)
  {
    EarlyIs(b, b.origin, p);
  }

  lemma {:induction false} RunStaysOneWay<C>(b: Batch<C>, net: Net<C>, events: seq<Event>)
    requires Repeatable(b) && b.count == 2 && Inv(SceneOf(b), net) && OneWay(b, net) && forall p :: !NoticedAtHome(b, p)
    requires Run(b.w, net, events).Some?
    ensures OneWay(b, Run(b.w, net, events).value)
    decreases events
  {
    hide Inv, OneWay, Do, Enabled, Repeatable, SceneOf, NoticedAtHome, TableOf;
    Sizes(b);
    if events != [] {
      RunUnrolled(b.w, net, events);
      EventKeepsInv(SceneOf(b), net, events[0]);
      OriginUnchanged(b, net);
      OneWayStep(b, net, events[0]);
      RunStaysOneWay(b, Do(b.w, net, events[0]), events[1..]);
    }
  }

  lemma TwoStartOneWay<C>(b: Batch<C>)
    requires b.origin < b.count == 2
    ensures OneWay(b, Told(b))
  {
    hide Change0, SnapshotDiff, TableOf;
    EmptyDiff(TableOf(b.w.rules, b.d0), TableOf(b.w.rules, b.d0));
  }

  // ---- Once the origin has noticed the one file that comes back ----

  function CountIn(cs: seq<Change>, p: Path): nat {
    if cs == [] then 0 else CountIn(cs[..|cs| - 1], p) + if cs[|cs| - 1].path == p then 1 else 0
  }

  function CountJobs(js: seq<Job>, p: Path): nat {
    if js == [] then 0 else CountJobs(js[..|js| - 1], p) + CountIn(js[|js| - 1].changes, p)
  }

  lemma {:induction false} CountConcat(a: seq<Change>, b: seq<Change>, p: Path)
    ensures CountIn(a + b, p) == CountIn(a, p) + CountIn(b, p)
  {
    if b == [] {
      assert a + b == a;
    } else {
      assert (a + b)[..|a + b| - 1] == a + b[..|b| - 1];
      CountConcat(a, b[..|b| - 1], p);
    }
  }

  lemma CountFirst(cs: seq<Change>, p: Path)
    requires cs != []
    ensures CountIn(cs, p) == CountIn(cs[1..], p) + if cs[0].path == p then 1 else 0
  {
    assert cs == [cs[0]] + cs[1..] && [cs[0]][..0] == [];
    CountConcat([cs[0]], cs[1..], p);
    assert CountIn([cs[0]], p) == CountIn([], p) + if cs[0].path == p then 1 else 0;
  }

  /** A list of distinct paths has it once or not at all. */
  lemma {:induction false} CountDistinct(cs: seq<Change>, p: Path)
    requires DistinctPaths(cs)
    ensures CountIn(cs, p) == if Mentions(cs, p) then 1 else 0
  {
    if cs != [] {
      var init, last := cs[..|cs| - 1], cs[|cs| - 1];
      CountDistinct(init, p);
      assert cs == init + [last];
      assert last.path == p ==> forall c | c in init :: c.path != p;
    }
  }

  lemma {:induction false} CountJobsMore(js: seq<Job>, j: Job, p: Path)
    ensures CountJobs(js + [j], p) == CountJobs(js, p) + CountIn(j.changes, p)
  {
    assert (js + [j])[..|js|] == js;
  }

  lemma {:induction false} CountJobsWith(js: seq<Job>, k: nat, j: Job, p: Path)
    requires k < |js|
    ensures CountJobs(js[k := j], p) == CountJobs(js, p) - CountIn(js[k].changes, p) + CountIn(j.changes, p)
  {
    var n := |js| - 1;
    if k == n {
      assert js[k := j][..n] == js[..n];
    } else {
      CountJobsWith(js[..n], k, j, p);
      assert js[k := j][..n] == js[..n][k := j];
    }
  }

  lemma {:induction false} CountJobsWithout(js: seq<Job>, k: nat, p: Path)
    requires k < |js|
    ensures CountJobs(js[..k] + js[k + 1..], p) == CountJobs(js, p) - CountIn(js[k].changes, p)
  {
    var n := |js| - 1;
    var without := js[..k] + js[k + 1..];
    if k == n {
      assert without == js[..n];
    } else {
      CountJobsWithout(js[..n], k, p);
      assert without[..|without| - 1] == js[..n][..k] + js[..n][k + 1..];
    }
  }

  /** A job that mentions the path. */
  lemma {:induction false} CountJobsAt(js: seq<Job>, k: nat, p: Path)
    requires k < |js| && js[k].changes != [] && js[k].changes[0].path == p
    ensures CountJobs(js, p) >= 1
  {
    CountFirst(js[k].changes, p);
    if k < |js| - 1 {
      CountJobsAt(js[..|js| - 1], k, p);
    }
  }

  /** The only file that comes back, and the origin notices it. */
  ghost predicate Lone<C>(b: Batch<C>, p: Path) {
    NoticedAtHome(b, p) && forall q | ComesBack(b, q) :: q == p
  }

  ghost predicate AtHome<C>(b: Batch<C>, disk: Disk<C>, p: Path) {
    Get(disk, p) == Copied(b.w.rules, b.d1, p)
  }

  /** The peer's watcher has seen the file it was given. */
  ghost predicate SeenThere<C>(b: Batch<C>, snapshot: Table, p: Path) {
    Get(snapshot, p) == CutHash(SceneOf(b), p)
  }

  /** Where the peer's one announcement of the file can be: still to be made, in its buffer, with the origin, dealt
      with. */
  ghost function Tokens<C>(b: Batch<C>, x: Node<C>, y: Node<C>, p: Path): nat {
    CountJobs(x.inbox, p) + CountIn(y.buf, p)
      + (if SeenThere(b, y.snapshot, p) then 0 else 1) + (if AtHome(b, x.disk, p) then 1 else 0)
  }

  /** The origin only ever waits for that file. */
  ghost predicate WaitsForOne<C>(x: Node<C>, p: Path) {
    forall j | j in x.inbox :: j.thread == Handler && (Waits(j) ==> j.changes != [] && j.changes[0].path == p)
  }

  ghost predicate Once<C>(b: Batch<C>, net: Net<C>, p: Path)
    requires b.origin < 2
  {
    && |net| == 2 && Tokens(b, net[b.origin], net[1 - b.origin], p) <= 1
    && WaitsForOne(net[b.origin], p) && (forall j | j in net[1 - b.origin].inbox :: j.thread == Handler)
    && (!AtHome(b, net[b.origin].disk, p) ==> OneWay(b, net))
  }

  /** What the origin has while it has not been given the file back. */
  lemma OriginBefore<C>(b: Batch<C>, net: Net<C>, p: Path)
    requires Repeatable(b) && Lone(b, p) && Inv(SceneOf(b), net)
    ensures |net| == b.count && (!AtHome(b, net[b.origin].disk, p) ==> net[b.origin].disk == b.d1)
  {
    hide Inv, Repeatable, SceneOf, Lone, AtHome;
    Sizes(b);
    InvSize(SceneOf(b), net);
    PathFacts(SceneOf(b), net, b.origin);
    if !AtHome(b, net[b.origin].disk, p) {
      forall q
        ensures Get(net[b.origin].disk, q) == Get(b.d1, q)
      {
        assert PathOk(SceneOf(b), b.origin, net[b.origin], q);
        BeforeAt(b, net[b.origin], p, q);
      }
      SameAnswersSameMap(net[b.origin].disk, b.d1);
    }
  }

  lemma BeforeAt<C>(b: Batch<C>, x: Node<C>, p: Path, q: Path)
    requires Repeatable(b) && Lone(b, p) && !AtHome(b, x.disk, p) && b.origin < |SceneOf(b).start|
    requires PathOk(SceneOf(b), b.origin, x, q)
    ensures Get(x.disk, q) == Get(b.d1, q)
  {
    EarlyIs(b, b.origin, q);
  }

  /** And what it asks for. */
  lemma OnlyAsksFor<C>(b: Batch<C>, net: Net<C>, p: Path, k: nat, c: Change)
    requires Repeatable(b) && Lone(b, p) && Inv(SceneOf(b), net) && At(net, b.origin, k)
    requires net[b.origin].inbox[k].thread == Handler && c in net[b.origin].inbox[k].changes
    requires Needs(b.w, net[b.origin].disk, c)
    ensures c.path == p
  {
    hide Inv, Repeatable, SceneOf, Lone, Begun, ComesBack;
    Sizes(b);
    var sc := SceneOf(b);
    JobFacts(sc, net, b.origin, k);
    PathFacts(sc, net, b.origin);
    assert ChangeOk(sc, net, b.origin, net[b.origin].inbox[k].from, c);
    assert PathOk(sc, b.origin, net[b.origin], c.path);
    SkipsUnlessOne(b, net[b.origin], p, c);
  }

  lemma SkipsUnlessOne<C>(b: Batch<C>, x: Node<C>, p: Path, c: Change)
    requires Repeatable(b) && Lone(b, p) && b.origin < |SceneOf(b).start| && PathOk(SceneOf(b), b.origin, x, c.path)
    requires c.kind == Deletion <==> c.path !in b.d1
    requires Effective(SceneOf(b), b.origin, c) ==> Mover(SceneOf(b), b.origin, c.path)
    requires Needs(b.w, x.disk, c)
    ensures c.path == p
  {
    EarlyIs(b, b.origin, c.path);
    assert SceneOf(b).start[b.origin] == b.d1 && SceneOf(b).w == b.w;
  }

  // ---- Each event keeps at most one token ----

  /** The peer scans. */
  lemma ScanTokens<C>(b: Batch<C>, net: Net<C>, p: Path)
    requires b.origin < 2 && b.count == 2 && Repeatable(b) && Lone(b, p) && Inv(SceneOf(b), net) && |net| == 2
    ensures
      var x, y := net[b.origin], net[1 - b.origin];
      Tokens(b, x, Scanned(b.w.rules, y), p) <= Tokens(b, x, y, p)
  {
    hide Inv, Repeatable, SceneOf, Lone, AtHome, CountJobs;
    var n, y := 1 - b.origin, net[1 - b.origin];
    Sizes(b);
    PathFacts(SceneOf(b), net, n);
    assert PathOk(SceneOf(b), n, y, p);
    var found, next := Found(b.w.rules, y), TableOf(b.w.rules, y.disk);
    SnapshotDiffDescribes(y.snapshot, next);
    CountConcat(y.buf, found, p);
    CountDistinct(found, p);
    DescribedPath(found, y.snapshot, next, p);
    PeerSees(b, y, p);
  }

  /** A peer whose snapshot has the file has it on disk; one that sees another difference sees the file. */
  lemma PeerSees<C>(b: Batch<C>, y: Node<C>, p: Path)
    requires Repeatable(b) && b.count == 2 && Lone(b, p) && 1 - b.origin < |SceneOf(b).start| && SceneOf(b).w == b.w
    requires PathOk(SceneOf(b), 1 - b.origin, y, p)
    ensures SeenThere(b, y.snapshot, p) ==> Get(TableOf(b.w.rules, y.disk), p) == Get(y.snapshot, p)
    ensures !SeenThere(b, y.snapshot, p) ==>
              Get(TableOf(b.w.rules, y.disk), p) == Get(y.snapshot, p)
              || Get(TableOf(b.w.rules, y.disk), p) == CutHash(SceneOf(b), p)
  {
    EarlyIs(b, 1 - b.origin, p);
    assert SceneOf(b).start[1 - b.origin] == b.d0 && SceneOf(b).target == b.d1;
  }

  /** The peer announces. */
  lemma FlushTokens<C>(b: Batch<C>, x: Node<C>, y: Node<C>, n: nat, p: Path)
    ensures Tokens(b, Receives(x, News(n, y.buf)), Flushed(y), p) == Tokens(b, x, y, p)
  {
    hide Apply, SceneOf, CountJobs;
    CountJobsMore(x.inbox, News(n, y.buf), p);
  }

  /** Events at the origin other than pulls. */
  lemma JobTokens<C>(b: Batch<C>, net: Net<C>, e: Event, y: Node<C>, p: Path)
    requires b.origin < |net| && Enabled(b.w, net, e) && e.n == b.origin
    requires !e.Scan? && !e.Flush? && !e.Next? && !e.Serve?
    requires WaitsForOne(net[e.n], p)
    ensures Tokens(b, Do(b.w, net, e)[e.n], y, p) == Tokens(b, net[e.n], y, p)
  {
    hide SceneOf, CountJobs, CountIn, SeenThere, TableOf, Pull;
    var x, k := net[e.n], e.k;
    assert x.inbox[k] in x.inbox;
    if e.Finish? {
      CountJobsWithout(x.inbox, k, p);
      assert CountIn([], p) == 0 by {
        NothingIn(p);
      }
    } else {
      CountJobsWith(x.inbox, k, Do(b.w, net, e)[e.n].inbox[k], p);
    }
  }

  lemma NothingIn(p: Path)
    ensures CountIn([], p) == 0
  {
  }

  /** A pull at the origin: the announcement becomes the file. */
  lemma PullTokens<C>(b: Batch<C>, x: Node<C>, y: Node<C>, k: nat, disk: Disk<C>, p: Path)
    requires k < |x.inbox| && x.inbox[k].changes != []
    requires x.inbox[k].changes[0].path != p ==> Get(disk, p) == Get(x.disk, p)
    ensures
      var j := x.inbox[k];
      Tokens(b, WithJob(x.(disk := disk), k, j.(changes := j.changes[1..], stage := Open)), y, p) <= Tokens(b, x, y, p)
  {
    hide SceneOf, CountJobs, CountIn, SeenThere;
    var j := x.inbox[k];
    CountJobsWith(x.inbox, k, j.(changes := j.changes[1..], stage := Open), p);
    CountFirst(j.changes, p);
  }

  // ---- The invariant over runs ----

  lemma HomeStays<C>(b: Batch<C>, net: Net<C>, e: Event, p: Path)
    requires Repeatable(b) && Lone(b, p) && Inv(SceneOf(b), net) && Enabled(b.w, net, e) && b.origin < |net|
    requires AtHome(b, net[b.origin].disk, p)
    ensures |Do(b.w, net, e)| == |net| && AtHome(b, Do(b.w, net, e)[b.origin].disk, p)
  {
    hide Inv, Repeatable, Lone, Do, Enabled, SceneOf;
    Sizes(b);
    if e.Next? || e.Serve? {
      HasChanges(b.w, net, e);
      JobFacts(SceneOf(b), net, e.n, e.k);
      DisksPulled(b.w, net, e);
      if e.n == b.origin {
        PulledHome(b, net, e, p);
      }
    } else {
      DisksStay(b.w, net, e);
    }
  }

  /** A pull at the origin leaves the file there, or brings it. */
  lemma PulledHome<C>(b: Batch<C>, net: Net<C>, e: Event, p: Path)
    requires Repeatable(b) && Inv(SceneOf(b), net) && Enabled(b.w, net, e) && (e.Next? || e.Serve?) && e.n == b.origin
    requires AtHome(b, net[b.origin].disk, p)
    ensures b.origin < |Do(b.w, net, e)| && AtHome(b, Do(b.w, net, e)[b.origin].disk, p)
  {
    hide Inv, Repeatable, SceneOf, Do, Handled, Enabled, Stepped;
    Sizes(b);
    assert e.n < |net| && At(net, e.n, e.k) && Busy(net[e.n].inbox[e.k]) && net[e.n].inbox[e.k].changes != [] by {
      HasChanges(b.w, net, e);
    }
    HandledGrows(SceneOf(b), net, e.n, e.k);
    StepIsHandled(SceneOf(b), net, e);
    SteppedIs(b.w, net, e);
    CutIs(b, p);
  }

  lemma CutIs<C>(b: Batch<C>, p: Path)
    ensures Cut(SceneOf(b), p) == Copied(b.w.rules, b.d1, p)
  {
  }

  lemma SteppedIs<C>(w: World<C>, net: Net<C>, e: Event)
    requires Enabled(w, net, e) && Local(e)
    ensures |Do(w, net, e)| == |net| && e.n < |net| && Do(w, net, e)[e.n] == Stepped(w, net, e)
  {
    hide Stepped;
  }

  /** After an event at the origin. */
  lemma OriginTokens<C>(b: Batch<C>, net: Net<C>, e: Event, p: Path)
    requires b.origin < 2 && Enabled(b.w, net, e) && e.n == b.origin && Once(b, net, p)
    requires !e.Scan? && !e.Flush?
    ensures Tokens(b, Do(b.w, net, e)[b.origin], net[1 - b.origin], p) <= 1
  {
    hide Tokens, OneWay, AtHome, Needs, Requests;
    if e.Next? || e.Serve? {
      var x, k := net[e.n], e.k;
      var server := if e.Next? then x.disk else net[x.inbox[k].from].disk;
      var disk := Pull(b.w.rules, x.disk, server, x.inbox[k].changes[0]);
      if x.inbox[k].changes[0].path != p {
        PullElsewhere(b.w.rules, x.disk, server, x.inbox[k].changes[0], p);
      }
      PullTokens(b, x, net[1 - b.origin], k, disk, p);
    } else {
      JobTokens(b, net, e, net[1 - b.origin], p);
    }
  }

  lemma OriginWaitsForOne<C>(b: Batch<C>, net: Net<C>, e: Event, p: Path)
    requires Repeatable(b) && Lone(b, p) && Inv(SceneOf(b), net) && Enabled(b.w, net, e) && e.n == b.origin
    requires b.origin < |net| && WaitsForOne(net[b.origin], p) && !e.Scan? && !e.Flush?
    ensures WaitsForOne(Do(b.w, net, e)[b.origin], p)
  {
    hide Inv, Repeatable, Lone, SceneOf, Needs, Requests, Pull;
    var x, k := net[e.n], e.k;
    assert x.inbox[k] in x.inbox;
    if e.Ask? {
      OnlyAsksFor(b, net, p, k, x.inbox[k].changes[0]);
    }
  }

  lemma OnceAtOrigin<C>(b: Batch<C>, net: Net<C>, e: Event, p: Path)
    requires b.origin < 2 && b.count == 2 && Repeatable(b) && Lone(b, p) && Inv(SceneOf(b), net)
    requires Once(b, net, p) && Enabled(b.w, net, e) && e.n == b.origin
    ensures
      var next := Do(b.w, net, e);
      && |next| == 2 && Tokens(b, next[b.origin], next[1 - b.origin], p) <= 1
      && WaitsForOne(next[b.origin], p) && forall j | j in next[1 - b.origin].inbox :: j.thread == Handler
  {
    hide Inv, Repeatable, Lone, SceneOf, OneWay, AtHome, CountJobs, CountIn, SeenThere, Found, Apply;
    if e.Scan? {
      assert Do(b.w, net, e) == net[e.n := Scanned(b.w.rules, net[e.n])];
    } else if e.Flush? {
      assert Do(b.w, net, e)[1 - e.n] == Receives(net[1 - e.n], News(e.n, net[e.n].buf));
    } else {
      hide Do, Enabled, Tokens;
      HandlersStayHome(b.w, net, e);
      OriginTokens(b, net, e, p);
      OriginWaitsForOne(b, net, e, p);
    }
  }

  lemma OnceElsewhere<C>(b: Batch<C>, net: Net<C>, e: Event, p: Path)
    requires b.origin < 2 && b.count == 2 && Repeatable(b) && Lone(b, p) && Inv(SceneOf(b), net)
    requires Once(b, net, p) && Enabled(b.w, net, e) && e.n != b.origin
    ensures
      var next := Do(b.w, net, e);
      && |next| == 2 && Tokens(b, next[b.origin], next[1 - b.origin], p) <= 1
      && WaitsForOne(next[b.origin], p) && forall j | j in next[1 - b.origin].inbox :: j.thread == Handler
  {
    hide Inv, Repeatable, Lone, SceneOf, OneWay, AtHome, CountJobs, CountIn, SeenThere, Found, Apply;
    var o, n := b.origin, e.n;
    if e.Scan? {
      hide Tokens;
      ScanTokens(b, net, p);
      assert Do(b.w, net, e) == net[n := Scanned(b.w.rules, net[n])];
    } else if e.Flush? {
      hide Tokens;
      FlushTokens(b, net[o], net[n], n, p);
      assert Do(b.w, net, e)[o] == Receives(net[o], News(n, net[n].buf)) && Do(b.w, net, e)[n] == Flushed(net[n]);
    } else {
      hide Do;
      HandlersStayHome(b.w, net, e);
      SameSenders(b.w, net, e);
      assert At(net, n, e.k) by {
        AtEvent(b.w, net, e);
      }
      assert net[n].inbox[e.k] in net[n].inbox;
    }
  }

  lemma OnceStep<C>(b: Batch<C>, net: Net<C>, e: Event, p: Path)
    requires b.origin < 2 && b.count == 2 && Repeatable(b) && Lone(b, p) && Inv(SceneOf(b), net)
    requires Once(b, net, p) && Enabled(b.w, net, e)
    ensures Once(b, Do(b.w, net, e), p)
  {
    hide Inv, Repeatable, Lone, SceneOf, OneWay, AtHome, Do, Enabled, Tokens, WaitsForOne, TableOf;
    if e.n == b.origin {
      OnceAtOrigin(b, net, e, p);
    } else {
      OnceElsewhere(b, net, e, p);
    }
    if AtHome(b, net[b.origin].disk, p) {
      HomeStays(b, net, e, p);
    } else {
      OriginBefore(b, net, p);
      OneWayStep(b, net, e);
    }
  }

  lemma {:induction false} RunStaysOnce<C>(b: Batch<C>, net: Net<C>, events: seq<Event>, p: Path)
    requires b.origin < 2 && b.count == 2 && Repeatable(b) && Lone(b, p) && Inv(SceneOf(b), net) && Once(b, net, p)
    requires Run(b.w, net, events).Some?
    ensures Once(b, Run(b.w, net, events).value, p)
    decreases events
  {
    hide Inv, Once, Do, Enabled, Repeatable, SceneOf, Lone;
    Sizes(b);
    if events != [] {
      RunUnrolled(b.w, net, events);
      EventKeepsInv(SceneOf(b), net, events[0]);
      OnceStep(b, net, events[0], p);
      RunStaysOnce(b, Do(b.w, net, events[0]), events[1..], p);
    }
  }

  /** The origin waits only before it has the file. */
  lemma WaitsBefore<C>(b: Batch<C>, x: Node<C>, y: Node<C>, p: Path, j: Job)
    requires WaitsForOne(x, p) && Tokens(b, x, y, p) <= 1 && j in x.inbox && Waits(j)
    ensures !AtHome(b, x.disk, p)
  {
    hide CountIn, CountJobs, SeenThere, AtHome;
    var i :| 0 <= i < |x.inbox| && x.inbox[i] == j;
    CountJobsAt(x.inbox, i, p);
  }

  /** And then its peer has nothing in hand. */
  lemma OnceIsNoKnot<C>(b: Batch<C>, net: Net<C>, p: Path)
    requires b.origin < 2 && Once(b, net, p) && Shape(net)
    ensures !Knotted(net)
  {
    hide Tokens, AtHome, Found, TableOf, WaitsForOne;
    if knot: set<(nat, Thread)> :| Knot(net, knot) {
      hide Knot, Knotted, Shape;
      var n, j, k := TwoWait(net, knot);
      WaitsBefore(b, net[b.origin], net[1 - b.origin], p, if n == b.origin then j else k);
      assert false;
    }
  }

  lemma TwoStartOnce<C>(b: Batch<C>, p: Path)
    requires b.origin < b.count == 2 && Lone(b, p)
    ensures Once(b, Told(b), p)
  {
    hide Change0;
    hide OneWay;
    TwoStartOneWay(b);
    EarlyIs(b, 1 - b.origin, p);
    NothingIn(p);
    assert CountJobs([], p) == 0;
  }
}

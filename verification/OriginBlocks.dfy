/** One batch of user changes, and runs in which handlers come to block each other: two receivers that announce the same
    file, or a receiver and the origin with two files that come back cut. */
module OriginBlocks {
  import opened Base
  import opened DirectoryDiff
  import opened RequestFiles
  import opened Network
  import opened Propagation
  import opened Preservation
  import opened Convergence
  import opened Knots
  import opened Schedules
  import opened SingleOrigin
  import opened OriginPair

  // ---- Three nodes ----

  /** The receiver after it has worked off the broadcast. */
  function Fed<C>(b: Batch<C>): Node<C> {
    var t0 := TableOf(b.w.rules, b.d0);
    Node(PullAll(b.w.rules, b.d0, b.d1, Change0(b)), t0, t0, [], [])
  }

  lemma FedIs<C>(b: Batch<C>, i: nat)
    requires b.origin < b.count && i < b.count && i != b.origin
    ensures Done(b.w, Told(b)[i], 0, b.d1) == Fed(b)
  {
    hide Change0, PullAll;
    var x := Told(b)[i];
    assert x.inbox[..0] + x.inbox[1..] == [];
  }

  /** Two receivers can each be done before either announces anything. */
  lemma TwoFed<C>(b: Batch<C>, i: nat, j: nat)
    requires b.origin < b.count && i < b.count && j < b.count && i != j && i != b.origin && j != b.origin
    ensures Leads(b.w, Told(b), Told(b)[i := Fed(b)][j := Fed(b)])
  {
    hide Leads, Change0, PullAll, Fed;
    var net := Told(b);
    ToldRests(b);
    assert Resting(net[i]) && Resting(net[j]) && Resting(net[b.origin]);
    assert net[i].inbox == [News(b.origin, Change0(b))] && net[j].inbox == [News(b.origin, Change0(b))];
    FedIs(b, i);
    FedIs(b, j);
    HandleNews(b.w, net, i, 0);
    var mid := net[i := Fed(b)];
    HandleNews(b.w, mid, j, 0);
    Onwards(b.w, net, mid, mid[j := Fed(b)]);
  }

  /** What a receiver was given is new to its watcher, and no receiver would recognise it. */
  ghost predicate ComesBackTo<C>(b: Batch<C>, p: Path)
    requires p in b.d1
  {
    var r, arrived := b.w.rules, b.w.rules.delivered(b.d1[p]);
    && (p in b.d0 ==> r.announced(p, b.d0[p]) != r.announced(p, arrived))
    && r.recomputed(p, arrived) != r.announced(p, arrived)
  }

  /** The receiver has the file as it arrived, and its watcher will say so. */
  lemma FedHas<C>(b: Batch<C>, p: Path) returns (c: Change)
    requires p in Spread(b) && ComesBackTo(b, p)
    ensures c in Found(b.w.rules, Fed(b)) && Needs(b.w, Fed(b).disk, c)
  {
    var r := b.w.rules;
    var disk := Fed(b).disk;
    var arrived := r.delivered(b.d1[p]);
    assert Get(disk, p) == Some(arrived) by {
      FedAt(b, p);
    }
    var t0, t1 := TableOf(r, b.d0), TableOf(r, disk);
    c := Change(p, r.announced(p, arrived), if p in b.d0 then Edit else Addition);
    SnapshotDiffDescribes(t0, t1);
    assert Correct(c, t0, t1);
  }

  lemma FedAt<C>(b: Batch<C>, p: Path)
    requires p in Spread(b)
    ensures Get(Fed(b).disk, p) == Some(b.w.rules.delivered(b.d1[p]))
  {
    hide SnapshotDiff, PullAll;
    var cs, c := Change0(b), ChangeAt(b, p);
    ChangesAre(b, c);
    assert forall d | d in cs && d.path == p :: d == c by {
      forall d | d in cs && d.path == p
        ensures d == c
      {
        ChangesAre(b, d);
      }
    }
    LastForIsLast(cs, p);
    ReplayOutcome(b.w.rules, b.d0, b.d1, cs, p);
  }

  lemma {:induction false} ThreeCanBlock<C>(b: Batch<C>, p: Path) returns (net: Net<C>)
    requires b.origin < b.count && b.count >= 3 && p in Spread(b) && ComesBackTo(b, p)
    ensures Leads(b.w, Begin(b), net) && Knotted(net)
  {
    hide Leads, Knotted, Change0, Begin, Found, Needs, ComesBackTo;
    var i := if b.origin == 0 then 1 else 0;
    var j := if b.origin <= 1 then 2 else 1;
    var c := FedHas(b, p);
    TwoFed(b, i, j);
    var fed := Told(b)[i := Fed(b)][j := Fed(b)];
    assert Resting(Fed(b)) by {
      FedRests(b);
    }
    net := BothSpeak(b.w, fed, i, j, c, c);
    Onwards(b.w, Told(b), fed, net);
    assert Change0(b) != [] by {
      ChangesAre(b, ChangeAt(b, p));
    }
    BeginLeadsToTold(b);
    Onwards(b.w, Begin(b), Told(b), net);
  }

  lemma FedRests<C>(b: Batch<C>)
    ensures Resting(Fed(b))
  {
  }

  // ---- Two nodes ----

  function Peer<C>(b: Batch<C>): nat
    requires b.origin < 2
  {
    1 - b.origin
  }

  /** What is left of the file after the transfer. */
  function Left<C>(b: Batch<C>, p: Path): C
    requires p in b.d1
  {
    b.w.rules.delivered(b.d1[p])
  }

  /** A list says of the path exactly that it now has this file. */
  ghost predicate Says<C>(b: Batch<C>, g: seq<Change>, p: Path)
    requires p in b.d1
  {
    && Mentions(g, p)
    && forall c | c in g && c.path == p :: c.kind != Deletion && c.hash == b.w.rules.announced(p, Left(b, p))
  }

  /** A scan after the file has arrived, and one that finds the path as it was. */
  lemma ScanSays<C>(b: Batch<C>, prev: Disk<C>, next: Disk<C>, p: Path)
    requires p in b.d1 && Get(next, p) == Some(Left(b, p))
    requires p in prev ==> b.w.rules.announced(p, prev[p]) != b.w.rules.announced(p, Left(b, p))
    ensures Says(b, SnapshotDiff(TableOf(b.w.rules, prev), TableOf(b.w.rules, next)), p)
  {
    var t, u := TableOf(b.w.rules, prev), TableOf(b.w.rules, next);
    SnapshotDiffDescribes(t, u);
    assert p in next;
    DescribedPath(SnapshotDiff(t, u), t, u, p);
  }

  lemma ScanIsSilent<C>(r: Rules<C>, prev: Disk<C>, next: Disk<C>, p: Path)
    requires Get(prev, p) == Get(next, p)
    ensures !Mentions(SnapshotDiff(TableOf(r, prev), TableOf(r, next)), p)
  {
    var t, u := TableOf(r, prev), TableOf(r, next);
    SnapshotDiffDescribes(t, u);
    assert Get(t, p) == Get(u, p);
    DescribedPath(SnapshotDiff(t, u), t, u, p);
  }

  /** Pulling a list that says so, unless the skip test takes what is there for it. */
  lemma PullSaid<C>(b: Batch<C>, disk: Disk<C>, server: Disk<C>, g: seq<Change>, p: Path)
    requires Repeatable(b) && p in b.d1 && Says(b, g, p) && Get(server, p) == Some(Left(b, p))
    requires p in disk ==> b.w.rules.recomputed(p, disk[p]) != b.w.rules.announced(p, Left(b, p))
    ensures Get(PullAll(b.w.rules, disk, server, g), p) == Some(Left(b, p))
  {
    LastForIsLast(g, p);
    ReplayOutcome(b.w.rules, disk, server, g, p);
  }

  // The peer pulls the batch with a scan in between, so that it announces two of its files one after the other.

  /** The peer's disk after the first `m` changes, and after all. */
  function HalfFed<C>(b: Batch<C>, m: nat): Disk<C>
    requires m <= |Change0(b)|
  {
    PullAll(b.w.rules, b.d0, b.d1, Change0(b)[..m])
  }

  lemma BatchIsDistinct<C>(b: Batch<C>)
    ensures DistinctPaths(Change0(b))
  {
    SnapshotDiffDescribes(TableOf(b.w.rules, b.d0), TableOf(b.w.rules, b.d1));
  }

  /** One path in a part of the batch: given, or not touched. */
  lemma PartAt<C>(b: Batch<C>, disk: Disk<C>, part: seq<Change>, p: Path)
    requires p in Spread(b) && (forall c | c in part :: c in Change0(b)) && Get(disk, p) == Get(b.d0, p)
    ensures Mentions(part, p) ==> Get(PullAll(b.w.rules, disk, b.d1, part), p) == Some(Left(b, p))
    ensures !Mentions(part, p) ==> Get(PullAll(b.w.rules, disk, b.d1, part), p) == Get(b.d0, p)
  {
    hide Change0, PullAll;
    forall c | c in part && c.path == p
      ensures c == ChangeAt(b, p)
    {
      ChangesAre(b, c);
    }
    LastForIsLast(part, p);
    ReplayOutcome(b.w.rules, disk, b.d1, part, p);
  }

  /** Cutting a list of distinct paths behind the first of two of them. */
  lemma CutBehind(cs: seq<Change>, first: nat, second: nat)
    requires first < second < |cs| && DistinctPaths(cs)
    ensures
      var before, after, u, v := cs[..first + 1], cs[first + 1..], cs[first].path, cs[second].path;
      Mentions(before, u) && !Mentions(before, v) && Mentions(after, v) && !Mentions(after, u)
  {
    var before, after := cs[..first + 1], cs[first + 1..];
    assert before[first] == cs[first] && after[second - first - 1] == cs[second];
    assert forall k | 0 <= k < |before| :: before[k] == cs[k];
    assert forall k | 0 <= k < |after| :: after[k] == cs[first + 1 + k];
  }

  /** Where the first of two paths stands in the batch. */
  lemma FirstOfTwo<C>(b: Batch<C>, p: Path, q: Path) returns (m: nat, u: Path, v: Path)
    requires p in Spread(b) && q in Spread(b) && p != q
    ensures (u == p && v == q) || (u == q && v == p)
    ensures m <= |Change0(b)|
    ensures Mentions(Change0(b)[..m], u) && !Mentions(Change0(b)[..m], v)
    ensures Mentions(Change0(b)[m..], v) && !Mentions(Change0(b)[m..], u)
  {
    hide Change0, Mentions;
    var cs := Change0(b);
    ChangesAre(b, ChangeAt(b, p));
    ChangesAre(b, ChangeAt(b, q));
    BatchIsDistinct(b);
    var i :| 0 <= i < |cs| && cs[i] == ChangeAt(b, p);
    var j :| 0 <= j < |cs| && cs[j] == ChangeAt(b, q);
    if i < j {
      m, u, v := i + 1, p, q;
      CutBehind(cs, i, j);
    } else {
      m, u, v := j + 1, q, p;
      CutBehind(cs, j, i);
    }
  }

  /** The part of the batch that is still to be done, in the peer's hand. */
  function InHandAt<C>(b: Batch<C>, m: nat): Job
    requires m <= |Change0(b)|
  {
    Job(b.origin, Handler, map[], Change0(b)[m..], Open)
  }

  function Table0<C>(b: Batch<C>): Table {
    TableOf(b.w.rules, b.d0)
  }

  lemma HalfPulled<C>(b: Batch<C>, m: nat)
    requires b.origin < b.count == 2 && m <= |Change0(b)|
    ensures
      var peer := Node(HalfFed(b, m), Table0(b), Table0(b), [], [InHandAt(b, m)]);
      Leads(b.w, Told(b), Told(b)[Peer(b) := peer])
  {
    hide Leads, Change0, PullAll, TableOf;
    var net, n := Told(b), Peer(b);
    ToldRests(b);
    assert Resting(net[n]) && Resting(net[b.origin]);
    assert net[n] == Node(b.d0, Table0(b), Table0(b), [], [News(b.origin, Change0(b))]);
    OpenNews(b.w, net, n, 0);
    var open := net[n := WithJob(net[n], 0, net[n].inbox[0].(stage := Open))];
    assert open[n].inbox == [InHandAt(b, 0)] by {
      assert Change0(b)[0..] == Change0(b);
    }
    PartWay(b.w, open, n, 0, m);
    var part := Part(b.w, open[n], 0, b.d1, m);
    assert part == Node(HalfFed(b, m), Table0(b), Table0(b), [], [InHandAt(b, m)]);
    assert open[n := part] == net[n := part];
    Onwards(b.w, net, open, net[n := part]);
  }

  /** What the two scans find. */
  function FirstFind<C>(b: Batch<C>, m: nat): seq<Change>
    requires m <= |Change0(b)|
  {
    SnapshotDiff(Table0(b), TableOf(b.w.rules, HalfFed(b, m)))
  }

  function FullyFed<C>(b: Batch<C>, m: nat): Disk<C>
    requires m <= |Change0(b)|
  {
    PullAll(b.w.rules, HalfFed(b, m), b.d1, Change0(b)[m..])
  }

  function SecondFind<C>(b: Batch<C>, m: nat): seq<Change>
    requires m <= |Change0(b)|
  {
    SnapshotDiff(TableOf(b.w.rules, HalfFed(b, m)), TableOf(b.w.rules, FullyFed(b, m)))
  }

  lemma HalfNoticed<C>(b: Batch<C>, m: nat)
    requires b.origin < b.count == 2 && m <= |Change0(b)| && FirstFind(b, m) != []
    ensures
      var peer := Node(FullyFed(b, m), TableOf(b.w.rules, HalfFed(b, m)), Table0(b), FirstFind(b, m), []);
      Leads(b.w, Told(b), Told(b)[Peer(b) := peer])
  {
    hide Leads, Change0, PullAll, TableOf, SnapshotDiff, HalfFed;
    var net, n := Told(b), Peer(b);
    HalfPulled(b, m);
    var half := Node(HalfFed(b, m), Table0(b), Table0(b), [], [InHandAt(b, m)]);
    var one := net[n := half];
    OneEvent(b.w, one, Scan(n));
    assert [] + FirstFind(b, m) == FirstFind(b, m);
    var seen := half.(snapshot := TableOf(b.w.rules, half.disk), buf := FirstFind(b, m));
    var two := net[n := seen];
    assert Do(b.w, one, Scan(n)) == two;
    Onwards(b.w, net, one, two);
    ToldRests(b);
    assert Resting(net[b.origin]);
    WorkOff(b.w, two, n, 0);
    var fed := Done(b.w, seen, 0, b.d1);
    assert seen.inbox[..0] + seen.inbox[1..] == [];
    assert two[n := fed] == net[n := fed];
    Onwards(b.w, net, two, net[n := fed]);
  }

  /** Both broadcasts are on their way to the origin. */
  ghost predicate BothSaid<C>(b: Batch<C>, net: Net<C>, m: nat)
    requires b.origin < 2 && m <= |Change0(b)|
  {
    && |net| == 2 && net[Peer(b)].disk == FullyFed(b, m) && net[Peer(b)].inbox == []
    && net[b.origin] == Node(b.d1, TableOf(b.w.rules, b.d1), TableOf(b.w.rules, b.d1), [],
                             [News(Peer(b), FirstFind(b, m)), News(Peer(b), SecondFind(b, m))])
  }

  lemma FirstSaid<C>(b: Batch<C>, m: nat) returns (net: Net<C>)
    requires b.origin < b.count == 2 && m <= |Change0(b)| && FirstFind(b, m) != []
    ensures Leads(b.w, Told(b), net) && |net| == 2
    ensures net[b.origin] == Node(b.d1, TableOf(b.w.rules, b.d1), TableOf(b.w.rules, b.d1), [],
                                  [News(Peer(b), FirstFind(b, m))])
    ensures net[Peer(b)].disk == FullyFed(b, m) && net[Peer(b)].inbox == [] && net[Peer(b)].buf == []
    ensures net[Peer(b)].snapshot == TableOf(b.w.rules, HalfFed(b, m))
  {
    hide Leads, Change0, PullAll, TableOf, SnapshotDiff, HalfFed, FullyFed, FirstFind, Apply;
    var n := Peer(b);
    HalfNoticed(b, m);
    var fed := Node(FullyFed(b, m), TableOf(b.w.rules, HalfFed(b, m)), Table0(b), FirstFind(b, m), []);
    var one := Told(b)[n := fed];
    assert Enabled(b.w, one, Flush(n));
    OneEvent(b.w, one, Flush(n));
    net := Do(b.w, one, Flush(n));
    Onwards(b.w, Told(b), one, net);
    assert [] + [News(n, FirstFind(b, m))] == [News(n, FirstFind(b, m))];
  }

  lemma TwiceSaid<C>(b: Batch<C>, m: nat) returns (net: Net<C>)
    requires b.origin < b.count == 2 && m <= |Change0(b)| && FirstFind(b, m) != [] && SecondFind(b, m) != []
    ensures Leads(b.w, Told(b), net) && BothSaid(b, net, m)
  {
    hide Leads, Change0, PullAll, TableOf, SnapshotDiff, HalfFed, FullyFed, FirstFind, Apply;
    var n := Peer(b);
    var one := FirstSaid(b, m);
    assert Found(b.w.rules, one[n]) == SecondFind(b, m);
    Speak(b.w, one, n);
    net := Spoken(b.w.rules, one, n);
    SpokenIs(b.w.rules, one, n, SecondFind(b, m));
    Onwards(b.w, Told(b), one, net);
    assert [News(n, FirstFind(b, m))] + [News(n, SecondFind(b, m))]
        == [News(n, FirstFind(b, m)), News(n, SecondFind(b, m))];
  }

  // The origin works off one of them and announces what it was given; then each asks the other.

  /** The origin has both broadcasts; the one at `k` says `p`, the other says `q`. */
  ghost predicate Returning<C>(b: Batch<C>, net: Net<C>, k: nat, p: Path, q: Path)
    requires b.origin < 2 && p in b.d1 && q in b.d1
  {
    && |net| == 2 && k < 2 && net[Peer(b)].inbox == []
    && Get(net[Peer(b)].disk, p) == Some(Left(b, p)) && Get(net[Peer(b)].disk, q) == Some(Left(b, q))
    && net[b.origin].disk == b.d1 && net[b.origin].snapshot == TableOf(b.w.rules, b.d1) && net[b.origin].buf == []
    && |net[b.origin].inbox| == 2
    && (forall i | 0 <= i < 2 :: net[b.origin].inbox[i] == News(Peer(b), net[b.origin].inbox[i].changes))
    && Says(b, net[b.origin].inbox[k].changes, p) && !Mentions(net[b.origin].inbox[k].changes, q)
    && Says(b, net[b.origin].inbox[1 - k].changes, q)
  }

  lemma GivenBack<C>(b: Batch<C>, net: Net<C>, k: nat, p: Path, q: Path) returns (next: Net<C>)
    requires Repeatable(b) && b.origin < 2 && ComesBack(b, p) && ComesBack(b, q) && Returning(b, net, k, p, q)
    ensures Leads(b.w, net, next) && |next| == 2 && next[Peer(b)] == net[Peer(b)]
    ensures Get(next[b.origin].disk, p) == Some(Left(b, p)) && Get(next[b.origin].disk, q) == Some(b.d1[q])
    ensures next[b.origin].snapshot == TableOf(b.w.rules, b.d1) && next[b.origin].buf == []
    ensures next[b.origin].inbox == [net[b.origin].inbox[1 - k]]
  {
    hide Leads, PullAll, TableOf, Says;
    var o, n, x := b.origin, Peer(b), net[b.origin];
    assert Resting(net[o]) && Resting(net[n]) by {
      assert forall i | 0 <= i < 2 :: !Busy(x.inbox[i]);
    }
    HandleNews(b.w, net, o, k);
    PullSaid(b, b.d1, net[n].disk, x.inbox[k].changes, p);
    PullOthers(b.w.rules, b.d1, net[n].disk, x.inbox[k].changes, q);
    next := net[o := Done(b.w, x, k, net[n].disk)];
    assert x.inbox[..k] + x.inbox[k + 1..] == [x.inbox[1 - k]];
  }

  lemma SaidBy<C>(b: Batch<C>, g: seq<Change>, p: Path) returns (c: Change)
    requires p in b.d1 && Says(b, g, p)
    ensures c in g && c.path == p && c.kind != Deletion && c.hash == b.w.rules.announced(p, Left(b, p))
  {
    c :| c in g && c.path == p;
  }

  /** The origin announces what it was given. */
  lemma HomeSpeaks<C>(b: Batch<C>, net: Net<C>, p: Path) returns (next: Net<C>, h: seq<Change>, c: Change)
    requires b.origin < 2 && |net| == 2 && p in b.d1 && Get(net[b.origin].disk, p) == Some(Left(b, p))
    requires b.w.rules.announced(p, b.d1[p]) != b.w.rules.announced(p, Left(b, p))
    requires net[b.origin].snapshot == TableOf(b.w.rules, b.d1) && net[b.origin].buf == [] && Resting(net[b.origin])
    ensures Leads(b.w, net, next) && |next| == 2
    ensures next[b.origin].disk == net[b.origin].disk && next[b.origin].inbox == net[b.origin].inbox
    ensures next[Peer(b)] == Receives(net[Peer(b)], News(b.origin, h))
    ensures c in h && c.path == p && c.kind != Deletion && c.hash == b.w.rules.announced(p, Left(b, p))
  {
    hide Leads, Says, Found, Spoken, Apply, TableOf, SnapshotDiff;
    var x := net[b.origin];
    h := Found(b.w.rules, x);
    FoundIs(b.w.rules, x);
    ScanSays(b, b.d1, x.disk, p);
    c := SaidBy(b, h, p);
    Speak(b.w, net, b.origin);
    SpokenIs(b.w.rules, net, b.origin, h);
    next := Spoken(b.w.rules, net, b.origin);
  }

  lemma ReturningBlocks<C>(b: Batch<C>, net: Net<C>, k: nat, p: Path, q: Path) returns (last: Net<C>)
    requires Repeatable(b) && b.origin < 2 && NoticedAtHome(b, p) && ComesBack(b, q) && Returning(b, net, k, p, q)
    requires b.w.rules.recomputed(p, Left(b, p)) != b.w.rules.announced(p, Left(b, p))
    ensures Leads(b.w, net, last) && Knotted(last)
  {
    hide Leads, Knotted, Says, Reaches, Repeatable, TableOf;
    var o, n := b.origin, Peer(b);
    var one := GivenBack(b, net, k, p, q);
    var forOrigin := SaidBy(b, net[o].inbox[1 - k].changes, q);
    assert Resting(one[o]) && one[n].inbox == [];
    var two, h, forPeer := HomeSpeaks(b, one, p);
    Onwards(b.w, net, one, two);
    assert two[n].inbox == [News(o, h)];
    assert Asking(b.w, two, o, 0, n, forOrigin);
    assert Asking(b.w, two, n, 0, o, forPeer);
    last := Crossed(b.w, two, o, 0, forOrigin, n, 0, forPeer);
    Onwards(b.w, net, two, last);
  }

  lemma FoundIs<C>(r: Rules<C>, x: Node<C>)
    ensures Found(r, x) == SnapshotDiff(x.snapshot, TableOf(r, x.disk))
  {
  }

  /** Two files that come back, given to the peer with a scan in between. */
  lemma HalfAndFull<C>(b: Batch<C>, m: nat, u: Path, v: Path)
    requires ComesBack(b, u) && ComesBack(b, v) && m <= |Change0(b)|
    requires Mentions(Change0(b)[..m], u) && !Mentions(Change0(b)[..m], v)
    requires Mentions(Change0(b)[m..], v) && !Mentions(Change0(b)[m..], u)
    ensures Says(b, FirstFind(b, m), u) && !Mentions(FirstFind(b, m), v)
    ensures Says(b, SecondFind(b, m), v) && !Mentions(SecondFind(b, m), u)
    ensures Get(FullyFed(b, m), u) == Some(Left(b, u)) && Get(FullyFed(b, m), v) == Some(Left(b, v))
  {
    hide Change0, PullAll, SnapshotDiff, TableOf, Says, Reaches;
    var half, full := HalfFed(b, m), FullyFed(b, m);
    assert forall c | c in Change0(b)[..m] :: c in Change0(b);
    assert forall c | c in Change0(b)[m..] :: c in Change0(b);
    PartAt(b, b.d0, Change0(b)[..m], u);
    PartAt(b, b.d0, Change0(b)[..m], v);
    PullOthers(b.w.rules, half, b.d1, Change0(b)[m..], u);
    PartAt(b, half, Change0(b)[m..], v);
    ScanSays(b, b.d0, half, u);
    ScanIsSilent(b.w.rules, b.d0, half, v);
    ScanSays(b, half, full, v);
    ScanIsSilent(b.w.rules, half, full, u);
  }

  lemma {:induction false} TwoCanBlock<C>(b: Batch<C>, p: Path, q: Path) returns (net: Net<C>)
    requires Repeatable(b) && b.count == 2 && NoticedAtHome(b, p) && ComesBack(b, q) && p != q
    requires b.w.rules.recomputed(p, Left(b, p)) != b.w.rules.announced(p, Left(b, p))
    ensures Leads(b.w, Begin(b), net) && Knotted(net)
  {
    hide Leads, Knotted, Change0, Begin, Told, FirstFind, SecondFind, FullyFed, Repeatable, Reaches;
    Sizes(b);
    var m, u, v := FirstOfTwo(b, p, q);
    HalfAndFull(b, m, u, v);
    var mid := TwiceSaid(b, m);
    var k := if u == p then 0 else 1;
    assert Returning(b, mid, k, p, q);
    net := ReturningBlocks(b, mid, k, p, q);
    BeginLeadsToTold(b);
    Onwards(b.w, Begin(b), Told(b), mid);
    Onwards(b.w, Begin(b), mid, net);
  }
}

/** How the newcomer's files can overwrite the network's: runs in which the filter loop lets an edit through, and the
    exact condition under which there is none. */
module JoinLoses {
  import opened Base
  import opened DirectoryDiff
  import opened EraseLoop
  import opened RequestFiles
  import opened Network
  import opened Propagation
  import opened Preservation
  import opened Convergence
  import opened Knots
  import opened Schedules
  import opened NetworkJoin
  import JoinHandshake
  import PacketCodec

  /** An edit that slips through is acted on, arrives as something else than the network's file, is noticed where it
      arrives, and is acted on by the others. */
  predicate Overwritable<C(==)>(a: Arrival<C>) {
    forall p | p in a.n0 && p in a.e0 && a.w.rules.announced(p, a.n0[p]) != a.w.rules.announced(p, a.e0[p]) ::
      var r, arrived := a.w.rules, a.w.rules.delivered(a.n0[p]);
      && r.recomputed(p, a.e0[p]) != r.announced(p, a.n0[p]) && arrived != a.e0[p]
      && r.announced(p, arrived) != r.announced(p, a.e0[p]) && r.recomputed(p, a.e0[p]) != r.announced(p, arrived)
  }

  /** Both sides have the path, with different hashes. */
  predicate Edited<C>(a: Arrival<C>, p: Path) {
    p in a.n0 && p in a.e0 && a.w.rules.announced(p, a.n0[p]) != a.w.rules.announced(p, a.e0[p])
  }

  // ---- Gone for good ----

  /** Wherever the path still has a file, it is the newcomer's. */
  ghost predicate Gone<C>(a: Arrival<C>, net: Net<C>, p: Path) {
    && p in a.n0 && p in a.e0 && a.n0[p] != a.e0[p] && a.w.rules.delivered(a.n0[p]) != a.e0[p]
    && forall i | 0 <= i < |net| :: Theirs(a, p, Get(net[i].disk, p))
  }

  predicate Theirs<C(==)>(a: Arrival<C>, p: Path, file: Option<C>)
    requires p in a.n0
  {
    file == None || file == Some(a.n0[p]) || file == Some(a.w.rules.delivered(a.n0[p]))
  }

  lemma PullTheirs<C>(a: Arrival<C>, p: Path, disk: Disk<C>, server: Disk<C>, c: Change)
    requires Sound(a) && p in a.n0 && Theirs(a, p, Get(disk, p)) && Theirs(a, p, Get(server, p))
    ensures Theirs(a, p, Get(Pull(a.w.rules, disk, server, c), p))
  {
  }

  lemma EventKeepsGone<C>(a: Arrival<C>, net: Net<C>, p: Path, e: Event)
    requires Sound(a) && Gone(a, net, p) && Enabled(a.w, net, e) && Shape(net)
    ensures Gone(a, Do(a.w, net, e), p)
  {
    hide Theirs, Sound, Pull, Enabled, Do;
    if e.Next? || e.Serve? {
      assert e.n < |net| && e.k < |net[e.n].inbox| && net[e.n].inbox[e.k].changes != [] by {
        HasChanges(a.w, net, e);
      }
      var x, j := net[e.n], net[e.n].inbox[e.k];
      assert NodeShape(|net|, e.n, x) && JobShape(|net|, e.n, j);
      DisksPulled(a.w, net, e);
      PullTheirs(a, p, x.disk, x.disk, j.changes[0]);
      PullTheirs(a, p, x.disk, net[j.from].disk, j.changes[0]);
    } else {
      DisksStay(a.w, net, e);
    }
  }

  /** Once the network's version of a file is on no disk, nothing brings it back. */
  lemma {:induction false} GoneStays<C>(a: Arrival<C>, net: Net<C>, p: Path, events: seq<Event>)
    requires Sound(a) && Gone(a, net, p) && Shape(net) && Run(a.w, net, events).Some?
    ensures Gone(a, Run(a.w, net, events).value, p)
    decreases events
  {
    hide Gone, Sound, Shape, Do, Enabled;
    if events != [] {
      RunUnrolled(a.w, net, events);
      EventKeepsGone(a, net, p, events[0]);
      EventKeepsShape(a.w, net, events[0]);
      GoneStays(a, Do(a.w, net, events[0]), p, events[1..]);
    }
  }

  // ---- From one node to all ----

  /** Existing node `s` has been given the newcomer's file, and its watcher has not noticed yet. */
  ghost predicate Slipped<C>(a: Arrival<C>, net: Net<C>, s: nat, p: Path) {
    && |net| == a.existing + 1 && s < a.existing && AllResting(net) && Edited(a, p)
    && net[s].buf == [] && Get(net[s].snapshot, p) == Some(a.w.rules.announced(p, a.e0[p]))
    && Get(net[s].disk, p) == Some(a.w.rules.delivered(a.n0[p]))
    && Get(net[a.existing].disk, p) == Some(a.n0[p])
    && forall i | 0 <= i < a.existing && i != s :: Get(net[i].disk, p) == Some(a.e0[p])
  }

  /** What the node will say of it. */
  lemma SlippedIsFound<C>(a: Arrival<C>, net: Net<C>, s: nat, p: Path)
    requires Slipped(a, net, s, p) && Overwritable(a)
    ensures
      var g := Found(a.w.rules, net[s]);
      && Mentions(g, p)
      && forall c | c in g && c.path == p ::
           c.kind != Deletion && c.hash == a.w.rules.announced(p, a.w.rules.delivered(a.n0[p]))
  {
    var prev, next := net[s].snapshot, TableOf(a.w.rules, net[s].disk);
    SnapshotDiffDescribes(prev, next);
    assert p in net[s].disk;
    assert Get(next, p) == Some(a.w.rules.announced(p, a.w.rules.delivered(a.n0[p])));
    var c := Change(p, next[p], Edit);
    assert Correct(c, prev, next);
    assert c in Found(a.w.rules, net[s]) && c.path == p;
  }

  /** The others act on it. */
  lemma OverrunDisk<C>(a: Arrival<C>, disk: Disk<C>, server: Disk<C>, g: seq<Change>, p: Path)
    requires Sound(a) && Overwritable(a) && Edited(a, p) && Mentions(g, p)
    requires forall c | c in g && c.path == p ::
               c.kind != Deletion && c.hash == a.w.rules.announced(p, a.w.rules.delivered(a.n0[p]))
    requires Get(server, p) == Some(a.w.rules.delivered(a.n0[p])) && Get(disk, p) == Some(a.e0[p])
    ensures Get(PullAll(a.w.rules, disk, server, g), p) == Some(a.w.rules.delivered(a.n0[p]))
  {
    LastForIsLast(g, p);
    ReplayOutcome(a.w.rules, disk, server, g, p);
  }

  /** One after the other, the first `upTo` nodes. */
  ghost predicate OverrunTo<C>(a: Arrival<C>, net: Net<C>, next: Net<C>, s: nat, p: Path, upTo: nat) {
    && |next| == |net| == a.existing + 1 && upTo <= a.existing && p in a.n0
    && (forall i | 0 <= i < upTo :: Get(next[i].disk, p) == Some(a.w.rules.delivered(a.n0[p])))
    && (forall i | upTo <= i <= a.existing :: next[i] == net[i]) && (s <= a.existing ==> next[s] == net[s])
  }

  /** Everybody has the broadcast at the end of the inbox. */
  ghost predicate Heralded<C>(a: Arrival<C>, net: Net<C>, s: nat, p: Path, g: seq<Change>) {
    && |net| == a.existing + 1 && s < a.existing && AllResting(net) && Edited(a, p) && Mentions(g, p)
    && (forall c | c in g && c.path == p ::
          c.kind != Deletion && c.hash == a.w.rules.announced(p, a.w.rules.delivered(a.n0[p])))
    && Get(net[s].disk, p) == Some(a.w.rules.delivered(a.n0[p]))
    && (forall i | 0 <= i < a.existing && i != s ::
          Get(net[i].disk, p) == Some(a.e0[p]) && net[i].inbox != [] && net[i].inbox[|net[i].inbox| - 1] == News(s, g))
  }

  lemma {:induction false} Overrun<C>(a: Arrival<C>, net: Net<C>, s: nat, p: Path, g: seq<Change>, upTo: nat)
    returns (next: Net<C>)
    requires Sound(a) && Overwritable(a) && Heralded(a, net, s, p, g) && upTo <= a.existing
    ensures Leads(a.w, net, next) && OverrunTo(a, net, next, s, p, upTo)
  {
    hide Leads, Sound, Overwritable, PullAll;
    if upTo == 0 {
      next := net;
      LeadsNowhere(a.w, net);
    } else {
      var mid := Overrun(a, net, s, p, g, upTo - 1);
      var i := upTo - 1;
      if i == s {
        next := mid;
      } else {
        var k := |net[i].inbox| - 1;
        assert Resting(mid[i]) && Resting(mid[s]) by {
          assert mid[i] == net[i] && mid[s] == net[s] && Resting(net[i]) && Resting(net[s]);
        }
        HandleNews(a.w, mid, i, k);
        OverrunDisk(a, mid[i].disk, mid[s].disk, g, p);
        next := mid[i := Done(a.w, mid[i], k, mid[s].disk)];
        Onwards(a.w, net, mid, next);
      }
    }
  }

  lemma SpokenHeralds<C>(a: Arrival<C>, net: Net<C>, s: nat, p: Path)
    requires Slipped(a, net, s, p) && Overwritable(a)
    ensures Leads(a.w, net, Spoken(a.w.rules, net, s))
    ensures Heralded(a, Spoken(a.w.rules, net, s), s, p, Found(a.w.rules, net[s]))
  {
    hide Leads, Overwritable, Edited, Found, Apply;
    var g, next := Found(a.w.rules, net[s]), Spoken(a.w.rules, net, s);
    SlippedIsFound(a, net, s, p);
    assert Resting(net[s]);
    Speak(a.w, net, s);
    SpokenIs(a.w.rules, net, s, g);
    SpokenRests(a.w.rules, net, s);
  }

  lemma OverrunIsGone<C>(a: Arrival<C>, net: Net<C>, next: Net<C>, s: nat, p: Path)
    requires Overwritable(a) && Edited(a, p) && OverrunTo(a, net, next, s, p, a.existing)
    requires Get(net[a.existing].disk, p) == Some(a.n0[p])
    ensures Gone(a, next, p)
  {
  }

  /** From there the network's version can be overwritten everywhere. */
  lemma SlippedLoses<C>(a: Arrival<C>, net: Net<C>, s: nat, p: Path) returns (next: Net<C>)
    requires Sound(a) && Overwritable(a) && Slipped(a, net, s, p)
    ensures Leads(a.w, net, next) && Gone(a, next, p)
  {
    hide Leads, Sound, Found, Overwritable, Edited, Heralded, OverrunTo, Gone, Spoken;
    var mid := Spoken(a.w.rules, net, s);
    SpokenHeralds(a, net, s, p);
    SpokenIs(a.w.rules, net, s, Found(a.w.rules, net[s]));
    next := Overrun(a, mid, s, p, Found(a.w.rules, net[s]), a.existing);
    Onwards(a.w, net, mid, next);
    OverrunIsGone(a, mid, next, s, p);
  }

  // ---- An edit slips through: neighbours in the first diff ----

  lemma FirstDiffIs<C>(a: Arrival<C>)
    requires Sound(a)
    ensures JoinHandshake.DiffOfExisting(a.w.rules, a.n0, a.e0) == FirstDiff(a)
    ensures JoinHandshake.Literal(a.w.rules, a.n0, a.e0).todoExisting == Survivors(FirstDiff(a), true, |FirstDiff(a)|)
  {
    hide PacketCodec.OnTheWire, MergeDiff, Survivors, TableOf;
    WholeHello(a);
    assert DiskAt(a, 0) == a.e0;
  }

  /** The first existing node works off the arrival before anything else happens. */
  lemma FirstGreets<C>(a: Arrival<C>)
    requires Sound(a)
    ensures Leads(a.w, Begin(a), Greeted(a.w, Begin(a), 0, 0))
    ensures
      var next := Greeted(a.w, Begin(a), 0, 0);
      var wants := Requests(a.w.literal, TableAt(a, 0), TableAt(a, a.existing), true);
      && |next| == a.existing + 1 && AllResting(next)
      && next[0] == Node(PullAll(a.w.rules, a.e0, a.n0, wants), TableAt(a, 0), TableAt(a, 0), [], [])
      && (forall i | 1 <= i < a.existing :: next[i] == Begin(a)[i])
      && next[a.existing].disk == a.n0
  {
    hide Leads, Requests, PullAll, PacketCodec.OnTheWire, TableAt, Sound;
    SomeExist(a);
    BeginShape(a);
    WholeHello(a);
    var net, next := Begin(a), Greeted(a.w, Begin(a), 0, 0);
    assert Resting(net[0]) && Resting(net[a.existing]);
    HandleHello(a.w, net, 0, 0);
    assert net[0].inbox[..0] + net[0].inbox[1..] == [];
    GreetedRests(a.w, net, 0, 0);
  }

  lemma NeighboursSlip<C>(a: Arrival<C>) returns (net: Net<C>, p: Path)
    requires Sound(a) && a.w.literal && Overwritable(a) && !NoneAdjacent(FirstDiff(a), true)
    ensures Leads(a.w, Begin(a), net) && Slipped(a, net, 0, p)
  {
    hide Leads, Sound, NoneAdjacent, PullAll, Survivors, JoinHandshake.Literal, JoinHandshake.DiffOfExisting,
         PacketCodec.OnTheWire;
    SomeExist(a);
    FirstDiffIs(a);
    FirstGreets(a);
    p := JoinHandshake.SlippedPull(a.w.rules, a.n0, a.e0);
    net := Greeted(a.w, Begin(a), 0, 0);
  }

  // ---- An edit slips through: neighbours only after additions have been pulled from another node ----

  /** Two edits that are not neighbours have something between them that is no edit. */
  lemma {:induction false} BetweenEdits(d: seq<Change>, i: nat, j: nat) returns (k: nat)
    requires i < j < |d| && Doomed(d[i], true) && Doomed(d[j], true) && NoneAdjacent(d, true)
    ensures i < k < j && !Doomed(d[k], true)
  {
    k := i + 1;
    assert !(Doomed(d[k - 1], true) && Doomed(d[k], true));
  }

  lemma SomethingIsAdded<C>(a: Arrival<C>, p: Path, q: Path) returns (added: Path)
    requires Sound(a) && Edited(a, p) && Edited(a, q) && p != q && NoneAdjacent(FirstDiff(a), true)
    ensures Added(a, added)
  {
    hide MergeDiff, NoneAdjacent, Sound;
    var d := FirstDiff(a);
    SomeExist(a);
    var c, c' := Change(p, a.w.rules.announced(p, a.n0[p]), Edit), Change(q, a.w.rules.announced(q, a.n0[q]), Edit);
    DiffMembers(TableAt(a, 0), TableAt(a, a.existing), c);
    DiffMembers(TableAt(a, 0), TableAt(a, a.existing), c');
    var i :| 0 <= i < |d| && d[i] == c;
    var j :| 0 <= j < |d| && d[j] == c';
    var k := BetweenEdits(d, if i < j then i else j, if i < j then j else i);
    DiffMembers(TableAt(a, 0), TableAt(a, a.existing), d[k]);
    added := d[k].path;
  }

  function Union<C>(a: Arrival<C>): Disk<C> {
    a.n0 + a.e0
  }

  /** What a node that has pulled the additions announces. */
  function Additions<C>(a: Arrival<C>): seq<Change> {
    SnapshotDiff(TableAt(a, 0), TableOf(a.w.rules, Union(a)))
  }

  lemma AdditionsAre<C>(a: Arrival<C>, c: Change)
    requires a.existing >= 1
    ensures c in Additions(a) <==>
              Added(a, c.path) && c == Change(c.path, a.w.rules.announced(c.path, a.n0[c.path]), Addition)
  {
    var prev, next := TableAt(a, 0), TableOf(a.w.rules, Union(a));
    SnapshotDiffDescribes(prev, next);
    assert c in Additions(a) <==> Correct(c, prev, next);
  }

  /** The first node, with its additions. */
  lemma FirstDisk<C>(a: Arrival<C>)
    requires Sound(a) && (a.w.literal ==> NoneAdjacent(FirstDiff(a), true))
    requires JoinHandshake.ArrivesWhole(a.w.rules, a.n0, a.e0)
    ensures PullAll(a.w.rules, a.e0, a.n0, Requests(a.w.literal, TableAt(a, 0), TableAt(a, a.existing), true))
         == Union(a)
  {
    hide NoneAdjacent, PullAll, JoinHandshake.DiffOfExisting, Survivors, PacketCodec.OnTheWire, TableOf;
    FirstDiffIs(a);
    LoopIsFilterIff(FirstDiff(a), true);
    var last := PullAll(a.w.rules, a.e0, a.n0, Wanted(FirstDiff(a), true));
    SomeExist(a);
    forall x
      ensures Get(last, x) == Get(Union(a), x)
    {
      JoinHandshake.ExistingPulls(a.w.rules, a.n0, a.e0, x);
      WholeHello(a);
      ExistingAfterIs(a, x);
    }
    SameAnswersSameMap(last, Union(a));
  }

  lemma ExistingAfterIs<C>(a: Arrival<C>, x: Path)
    requires Sound(a) && JoinHandshake.ArrivesWhole(a.w.rules, a.n0, a.e0)
    ensures JoinHandshake.ExistingAfter(a.w.rules, a.n0, a.e0, x) == Get(Union(a), x)
  {
    hide PacketCodec.OnTheWire;
    WholeHello(a);
  }

  /** Another node, with the first one's additions. */
  lemma SecondDisk<C>(a: Arrival<C>)
    requires a.existing >= 1 && JoinHandshake.ArrivesWhole(a.w.rules, a.n0, a.e0)
    ensures PullAll(a.w.rules, a.e0, Union(a), Additions(a)) == Union(a)
  {
    hide Additions, PullAll;
    var last := PullAll(a.w.rules, a.e0, Union(a), Additions(a));
    forall x
      ensures Get(last, x) == Get(Union(a), x)
    {
      SecondDiskAt(a, x);
    }
    SameAnswersSameMap(last, Union(a));
  }

  lemma SecondDiskAt<C>(a: Arrival<C>, x: Path)
    requires a.existing >= 1 && JoinHandshake.ArrivesWhole(a.w.rules, a.n0, a.e0)
    ensures Get(PullAll(a.w.rules, a.e0, Union(a), Additions(a)), x) == Get(Union(a), x)
  {
    hide Additions, PullAll;
    var cs := Additions(a);
    LastForIsLast(cs, x);
    forall c | c in cs
      ensures Added(a, c.path) && c.kind == Addition
    {
      AdditionsAre(a, c);
    }
    if Added(a, x) {
      AdditionsAre(a, Change(x, a.w.rules.announced(x, a.n0[x]), Addition));
      assert Mentions(cs, x);
    }
    ReplayOutcome(a.w.rules, a.e0, Union(a), cs, x);
  }

  // The second node pulls the additions from the first, says so, and only then opens the arrival.

  lemma FirstSpeaks<C>(a: Arrival<C>, added: Path) returns (net: Net<C>)
    requires Sound(a) && a.existing >= 2 && Added(a, added)
    requires NoneAdjacent(FirstDiff(a), true) && JoinHandshake.ArrivesWhole(a.w.rules, a.n0, a.e0)
    ensures Leads(a.w, Begin(a), net) && |net| == a.existing + 1 && AllResting(net)
    ensures net[0].disk == Union(a) && net[a.existing].disk == a.n0
    ensures net[1] == Receives(Begin(a)[1], News(0, Additions(a)))
    ensures forall i | 1 < i < a.existing :: net[i].disk == a.e0
  {
    hide Leads, Requests, PullAll, PacketCodec.OnTheWire, Sound, NoneAdjacent, SnapshotDiff, TableOf, Apply, Spoken,
         Greeted, JoinHandshake.ArrivesWhole, MergeDiff, JobShape;
    FirstGreets(a);
    FirstDisk(a);
    var one := Greeted(a.w, Begin(a), 0, 0);
    AdditionsAre(a, Change(added, a.w.rules.announced(added, a.n0[added]), Addition));
    assert Found(a.w.rules, one[0]) == Additions(a);
    assert Resting(one[0]);
    Speak(a.w, one, 0);
    net := Spoken(a.w.rules, one, 0);
    Onwards(a.w, Begin(a), one, net);
    SpokenIs(a.w.rules, one, 0, Additions(a));
    SpokenRests(a.w.rules, one, 0);
  }

  lemma SecondListens<C>(a: Arrival<C>, added: Path) returns (net: Net<C>)
    requires Sound(a) && a.existing >= 2 && Added(a, added)
    requires NoneAdjacent(FirstDiff(a), true) && JoinHandshake.ArrivesWhole(a.w.rules, a.n0, a.e0)
    ensures Leads(a.w, Begin(a), net) && |net| == a.existing + 1 && AllResting(net)
    ensures net[1] == Node(Union(a), TableAt(a, 1), TableAt(a, 1), [], [Hello(a.existing, TableAt(a, a.existing))])
    ensures net[a.existing].disk == a.n0 && net[0].disk == Union(a)
    ensures forall i | 1 < i < a.existing :: net[i].disk == a.e0
  {
    hide Leads, Requests, PullAll, PacketCodec.OnTheWire, Sound, NoneAdjacent, SnapshotDiff, TableOf, Additions,
         JoinHandshake.ArrivesWhole;
    var one := FirstSpeaks(a, added);
    var x := one[1];
    assert Resting(one[0]) && Resting(one[1]);
    assert x.inbox[1] == News(0, Additions(a));
    HandleNews(a.w, one, 1, 1);
    SecondDisk(a);
    WholeHello(a);
    var y := Done(a.w, x, 1, Union(a));
    assert x.inbox[..1] + x.inbox[2..] == [Hello(a.existing, TableAt(a, a.existing))];
    net := one[1 := y];
    Onwards(a.w, Begin(a), one, net);
  }

  lemma SecondSpeaks<C>(a: Arrival<C>, added: Path) returns (net: Net<C>)
    requires Sound(a) && a.existing >= 2 && Added(a, added)
    requires NoneAdjacent(FirstDiff(a), true) && JoinHandshake.ArrivesWhole(a.w.rules, a.n0, a.e0)
    ensures Leads(a.w, Begin(a), net) && |net| == a.existing + 1 && AllResting(net)
    ensures net[1] == Node(Union(a), TableOf(a.w.rules, Union(a)), TableOf(a.w.rules, Union(a)), [],
                           [Hello(a.existing, TableAt(a, a.existing))])
    ensures net[a.existing].disk == a.n0 && net[0].disk == Union(a)
    ensures forall i | 1 < i < a.existing :: net[i].disk == a.e0
  {
    hide Leads, Sound, NoneAdjacent, SnapshotDiff, TableOf, Apply, Spoken, Begin, JoinHandshake.ArrivesWhole;
    var two := SecondListens(a, added);
    AdditionsAre(a, Change(added, a.w.rules.announced(added, a.n0[added]), Addition));
    assert Found(a.w.rules, two[1]) == Additions(a);
    assert Resting(two[1]);
    Speak(a.w, two, 1);
    net := Spoken(a.w.rules, two, 1);
    Onwards(a.w, Begin(a), two, net);
    SnapshotDiffDescribes(TableAt(a, 1), TableOf(a.w.rules, Union(a)));
    DescribedReplay(Additions(a), TableAt(a, 1), TableOf(a.w.rules, Union(a)));
    SpokenIs(a.w.rules, two, 1, Additions(a));
    SpokenRests(a.w.rules, two, 1);
  }

  /** With the additions in its table, the second node's diff is nothing but edits. */
  lemma LateDiff<C>(a: Arrival<C>, p: Path, q: Path) returns (c: Change)
    requires a.existing >= 1 && Edited(a, p) && Edited(a, q) && p != q
    ensures
      var d := MergeDiff(TableOf(a.w.rules, Union(a)), TableAt(a, a.existing));
      c in Survivors(d, true, |d|) && Edited(a, c.path)
  {
    hide MergeDiff;
    var t, tn := TableOf(a.w.rules, Union(a)), TableAt(a, a.existing);
    var d := MergeDiff(t, tn);
    var cp, cq := Change(p, a.w.rules.announced(p, a.n0[p]), Edit), Change(q, a.w.rules.announced(q, a.n0[q]), Edit);
    DiffMembers(t, tn, cp);
    DiffMembers(t, tn, cq);
    assert cp in d && cq in d && |d| >= 2;
    DiffMembers(t, tn, d[0]);
    DiffMembers(t, tn, d[1]);
    assert d[0] in d && d[1] in d;
    assert Doomed(d[1 - 1], true) && Doomed(d[1], true);
    c := DoomedSurvivor(d, true);
    SurvivorsAreMembers(d, true, |d|);
    DiffMembers(t, tn, c);
  }

  lemma LatePull<C>(a: Arrival<C>, p: Path, cs: seq<Change>)
    requires Overwritable(a) && Edited(a, p) && Mentions(cs, p)
    requires forall c | c in cs && c.path == p :: c.kind != Deletion && c.hash == a.w.rules.announced(p, a.n0[p])
    ensures Get(PullAll(a.w.rules, Union(a), a.n0, cs), p) == Some(a.w.rules.delivered(a.n0[p]))
  {
    LastForIsLast(cs, p);
    ReplayOutcome(a.w.rules, Union(a), a.n0, cs, p);
  }

  lemma LateArrivalSlips<C>(a: Arrival<C>, p: Path, q: Path) returns (net: Net<C>, slipped: Path)
    requires Sound(a) && a.w.literal && a.existing >= 2 && Overwritable(a)
    requires NoneAdjacent(FirstDiff(a), true) && JoinHandshake.ArrivesWhole(a.w.rules, a.n0, a.e0)
    requires Edited(a, p) && Edited(a, q) && p != q
    ensures Leads(a.w, Begin(a), net) && Slipped(a, net, 1, slipped)
  {
    hide Leads, PullAll, PacketCodec.OnTheWire, Sound, NoneAdjacent, Overwritable, Survivors, MergeDiff, Begin,
         JoinHandshake.ArrivesWhole;
    var added := SomethingIsAdded(a, p, q);
    var mid := SecondSpeaks(a, added);
    var c := LateDiff(a, p, q);
    slipped := c.path;
    var t, tn := TableOf(a.w.rules, Union(a)), TableAt(a, a.existing);
    var d := MergeDiff(t, tn);
    var cs := Survivors(d, true, |d|);
    forall x | x in cs && x.path == slipped
      ensures x.kind != Deletion && x.hash == a.w.rules.announced(slipped, a.n0[slipped])
    {
      SurvivorsAreMembers(d, true, |d|);
      DiffMembers(t, tn, x);
    }
    assert Mentions(cs, slipped);
    LatePull(a, slipped, cs);
    assert Resting(mid[1]) && Resting(mid[a.existing]);
    HandleHello(a.w, mid, 1, 0);
    net := Greeted(a.w, mid, 1, 0);
    Onwards(a.w, Begin(a), mid, net);
    assert mid[1].inbox[..0] + mid[1].inbox[1..] == [];
    GreetedRests(a.w, mid, 1, 0);
  }

  /** Two paths, both known to both sides with different files: enough for edits not to be apart. */
  lemma TwoEditsAreNotApart<C>(a: Arrival<C>, p: Path, q: Path)
    requires a.existing >= 1 && p != q && a.n0.Keys == {p, q} == a.e0.Keys && Edited(a, p) && Edited(a, q)
    ensures !EditsApart(a)
  {
    hide MergeDiff;
    var t, tn := TableAt(a, 0), TableAt(a, a.existing);
    var d := FirstDiff(a);
    var cp, cq := Change(p, a.w.rules.announced(p, a.n0[p]), Edit), Change(q, a.w.rules.announced(q, a.n0[q]), Edit);
    DiffMembers(t, tn, cp);
    DiffMembers(t, tn, cq);
    assert cp in d && cq in d && |d| >= 2;
    DiffMembers(t, tn, d[0]);
    DiffMembers(t, tn, d[1]);
    assert d[0] in d && d[1] in d;
    assert Doomed(d[1 - 1], true) && Doomed(d[1], true);
    assert Clashes(a, p) && Clashes(a, q);
  }

  // ---- With edits apart some run settles ----

  lemma MeetFirst<C>(a: Arrival<C>)
    requires Sound(a) && a.existing == 1
    ensures Leads(a.w, Begin(a), Met(a))
  {
    hide Leads, Met, PacketCodec.OnTheWire;
    assert Enabled(a.w, Begin(a), Take(0, 0));
    MetIsNext(a, Take(0, 0));
    OneEvent(a.w, Begin(a), Take(0, 0));
  }

  lemma GreetedAfterMet<C>(a: Arrival<C>)
    requires Sound(a) && a.existing == 1
    ensures Leads(a.w, Met(a), Greeted(a.w, Begin(a), 0, 0))
  {
    hide Leads, Requests, PullAll, TableAt, Sound, PacketCodec.OnTheWire;
    WholeHello(a);
    var met := Met(a);
    WorkOff(a.w, met, 0, 0);
    var next := met[0 := Done(a.w, met[0], 0, met[1].disk)];
    FirstGreets(a);
    assert met[0].inbox[..0] + met[0].inbox[1..] == [];
    assert Begin(a)[1].inbox == [];
    assert Greeted(a.w, Begin(a), 0, 0)[1] == met[1];
    assert next == Greeted(a.w, Begin(a), 0, 0);
  }

  lemma FirstWorkedOff<C>(a: Arrival<C>) returns (one: Net<C>)
    requires Sound(a)
    ensures Leads(a.w, Start(a), one) && Leads(a.w, Begin(a), one) && AllResting(one)
  {
    hide Leads, Met, Sound, Greeted, PacketCodec.OnTheWire, TableOf;
    SomeExist(a);
    FirstGreets(a);
    one := Greeted(a.w, Begin(a), 0, 0);
    if a.existing == 1 {
      GreetedAfterMet(a);
    }
  }

  /** And in any case some run gets there. */
  lemma {:induction false} SomeRunSettles<C>(a: Arrival<C>) returns (last: Net<C>)
    requires Sound(a) && Safe(a)
    ensures Leads(a.w, Begin(a), last) && Quiet(a.w.rules, last) && AllAtOutcome(a, last)
  {
    hide Sound, Safe, Run, Leads, Start, Begin, Inv, Quiet, AllAtOutcome, SceneOf;
    StartInv(a);
    var one := FirstWorkedOff(a);
    LeadsKeepsInv(SceneOf(a), Start(a), one);
    last := Settles(SceneOf(a), one);
    Onwards(a.w, Begin(a), one, last);
    LeadsKeepsInv(SceneOf(a), one, last);
    QuietIsAtOutcome(a, last);
  }

  // ---- The exact condition ----

  /** Wherever a run has got to, the network's version of some file is on no disk. */
  ghost predicate Lost<C>(a: Arrival<C>, net: Net<C>) {
    exists p :: p in a.e0 && LostAt(a, net, p)
  }

  ghost predicate LostAt<C>(a: Arrival<C>, net: Net<C>, p: Path)
    requires p in a.e0
  {
    forall i | 0 <= i < |net| :: Get(net[i].disk, p) != Some(a.e0[p])
  }

  /** Some run overwrites one of the network's files everywhere, for good. */
  lemma {:induction false} NetworkLoses<C>(a: Arrival<C>) returns (net: Net<C>, p: Path)
    requires Sound(a) && a.w.literal && Overwritable(a) && JoinHandshake.ArrivesWhole(a.w.rules, a.n0, a.e0)
    requires !EditsApart(a)
    ensures Leads(a.w, Begin(a), net) && Gone(a, net, p)
    ensures forall later :: Leads(a.w, net, later) ==> p in a.e0 && LostAt(a, later, p)
  {
    hide Leads, Sound, Overwritable, NoneAdjacent, JoinHandshake.ArrivesWhole, Slipped, Gone, LostAt, Begin;
    var mid, s: nat := [], 0;
    if !NoneAdjacent(FirstDiff(a), true) {
      mid, p := NeighboursSlip(a);
    } else {
      var x, y :| Clashes(a, x) && Clashes(a, y) && x != y;
      ClashesAreEdits(a, x);
      ClashesAreEdits(a, y);
      assert a.existing >= 2 by {
        SomeExist(a);
      }
      mid, p := LateArrivalSlips(a, x, y);
      s := 1;
    }
    net := SlippedLoses(a, mid, s, p);
    Onwards(a.w, Begin(a), mid, net);
    forall later | Leads(a.w, net, later)
      ensures p in a.e0 && LostAt(a, later, p)
    {
      GoneIsLost(a, net, later, p);
    }
  }

  lemma ClashesAreEdits<C>(a: Arrival<C>, p: Path)
    requires JoinHandshake.ArrivesWhole(a.w.rules, a.n0, a.e0)
    ensures Clashes(a, p) <==> Edited(a, p)
  {
  }

  lemma GoneIsLost<C>(a: Arrival<C>, net: Net<C>, later: Net<C>, p: Path)
    requires Sound(a) && Leads(a.w, Begin(a), net) && Gone(a, net, p) && Leads(a.w, net, later)
    ensures p in a.e0 && LostAt(a, later, p)
  {
    hide Sound, Run, Begin, Shape;
    SomeExist(a);
    BeginShape(a);
    LeadsKeepsShape(a.w, Begin(a), net);
    var events :| Run(a.w, net, events) == Some(later);
    GoneStays(a, net, p, events);
  }

  /** With edits apart the first existing node never loses a file of the network's. */
  lemma NeverLost<C>(a: Arrival<C>, net: Net<C>)
    requires Sound(a) && Safe(a) && Leads(a.w, Begin(a), net) && JoinHandshake.ArrivesWhole(a.w.rules, a.n0, a.e0)
    ensures !Lost(a, net)
  {
    hide Sound, Run, Begin, Start, Safe, Inv, LostAt, JoinHandshake.ArrivesWhole;
    SomeExist(a);
    var events :| Run(a.w, Begin(a), events) == Some(net);
    forall p | p in a.e0
      ensures !LostAt(a, net, p)
    {
      var rest := RunsStart(a, events, net);
      if events == [] {
        BeginKeeps(a, p);
      } else {
        StartInv(a);
        RunLowers(SceneOf(a), Start(a), rest);
        InvKeeps(a, net, p);
      }
    }
  }

  lemma BeginKeeps<C>(a: Arrival<C>, p: Path)
    requires a.existing >= 1 && p in a.e0
    ensures !LostAt(a, Begin(a), p)
  {
    assert Begin(a)[0].disk == a.e0;
  }

  lemma InvKeeps<C>(a: Arrival<C>, net: Net<C>, p: Path)
    requires Sound(a) && Inv(SceneOf(a), net) && p in a.e0 && JoinHandshake.ArrivesWhole(a.w.rules, a.n0, a.e0)
    ensures !LostAt(a, net, p)
  {
    hide Inv, Sound, SceneOf;
    SomeExist(a);
    SceneSizes(a);
    InvSize(SceneOf(a), net);
    PathFacts(SceneOf(a), net, 0);
    assert PathOk(SceneOf(a), 0, net[0], p);
    NetworkFileStays(a, p);
    assert Get(net[0].disk, p) == Some(a.e0[p]);
  }

  lemma NetworkFileStays<C>(a: Arrival<C>, p: Path)
    requires Sound(a) && p in a.e0 && JoinHandshake.ArrivesWhole(a.w.rules, a.n0, a.e0)
    ensures |SceneOf(a).start| > 0 && Get(SceneOf(a).start[0], p) == Some(a.e0[p])
    ensures Mover(SceneOf(a), 0, p) ==> Cut(SceneOf(a), p) == Some(a.e0[p])
  {
    hide SceneOf;
    SceneSizes(a);
    MovesIff(a, 0, p);
  }

  /** Every settled state a run can reach is won, and no run ever takes a file of the network's off all disks. */
  ghost predicate NetworkWins<C(!new)>(a: Arrival<C>) {
    forall net | Leads(a.w, Begin(a), net) :: (Quiet(a.w.rules, net) ==> Won(a, net)) && !Lost(a, net)
  }

  /** With the loop as it is written, and files that arrive whole: the network wins if and only if edits are apart and
      the hashes tell the files apart. */
  lemma {:induction false} NetworkWinsIff<C(!new)>(a: Arrival<C>)
    requires Sound(a) && a.w.literal && Overwritable(a) && JoinHandshake.ArrivesWhole(a.w.rules, a.n0, a.e0)
    ensures NetworkWins(a) <==> EditsApart(a) && JoinHandshake.Distinguishable(a.w.rules, a.n0, a.e0)
  {
    hide Leads, Sound, Overwritable, EditsApart, Quiet, Won, Begin, Gone, LostAt, JoinHandshake.Distinguishable,
         JoinHandshake.ArrivesWhole, AllAtOutcome;
    if !EditsApart(a) {
      var net, p := NetworkLoses(a);
      LeadsNowhere(a.w, net);
      assert p in a.e0 && LostAt(a, net, p);
    } else if !JoinHandshake.Distinguishable(a.w.rules, a.n0, a.e0) {
      var last := SomeRunSettles(a);
      SettledWins(a, last);
    } else {
      forall net | Leads(a.w, Begin(a), net)
        ensures (Quiet(a.w.rules, net) ==> Won(a, net)) && !Lost(a, net)
      {
        NeverLost(a, net);
        SettledWins(a, net);
      }
    }
  }

  lemma SettledWins<C>(a: Arrival<C>, net: Net<C>)
    requires Sound(a) && Safe(a) && Leads(a.w, Begin(a), net) && JoinHandshake.ArrivesWhole(a.w.rules, a.n0, a.e0)
    ensures Quiet(a.w.rules, net) ==> (Won(a, net) <==> JoinHandshake.Distinguishable(a.w.rules, a.n0, a.e0))
  {
    hide Sound, Safe, Run, Begin, Quiet, Won, JoinHandshake.Distinguishable, JoinHandshake.ArrivesWhole;
    if Quiet(a.w.rules, net) {
      var events :| Run(a.w, Begin(a), events) == Some(net);
      WonIff(a, events, net);
    }
  }
}

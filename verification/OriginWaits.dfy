/** When handlers can block each other after one batch of user changes: among three nodes or more exactly if the
    receivers' watchers notice a file they were given; among two only if the origin's notices what comes back to it as
    well. */
module OriginWaits {
  import opened Base
  import opened DirectoryDiff
  import opened RequestFiles
  import opened Network
  import opened Propagation
  import opened Preservation
  import opened Convergence
  import opened Knots
  import opened Schedules
  import opened SingleOrigin
  import opened OriginPair
  import opened OriginBlocks

  /** The receivers' watchers notice the file they were given. */
  ghost predicate NoticedByPeers<C>(b: Batch<C>, p: Path) {
    && p in b.d1 && Reaches(b, p)
    && (p in b.d0 ==>
          b.w.rules.announced(p, b.d0[p]) != b.w.rules.announced(p, b.w.rules.delivered(b.d1[p])))
  }

  // ---- No receiver has a file to announce ----

  /** Receivers only announce deletions, and nobody waits for them. */
  ghost predicate OnlyDeletions<C>(b: Batch<C>, net: Net<C>) {
    forall n, j | 0 <= n < |net| && j in net[n].inbox :: Harmless(b, j)
  }

  ghost predicate Harmless<C>(b: Batch<C>, j: Job) {
    && j.thread == Handler
    && (j.from != b.origin ==> !Waits(j) && forall c | c in j.changes :: c.kind == Deletion)
  }

  lemma HarmlessAt<C>(b: Batch<C>, net: Net<C>, n: nat, k: nat)
    requires OnlyDeletions(b, net) && At(net, n, k)
    ensures Harmless(b, net[n].inbox[k])
  {
    assert net[n].inbox[k] in net[n].inbox;
  }

  lemma HarmlessAfter<C>(b: Batch<C>, net: Net<C>, n: nat, y: Node<C>)
    requires OnlyDeletions(b, net) && n < |net| && forall j | j in y.inbox && j !in net[n].inbox :: Harmless(b, j)
    ensures OnlyDeletions(b, net[n := y])
  {
    hide Harmless;
  }

  /** What a receiver has in its buffer. */
  lemma OnlyDeletionsSaid<C>(b: Batch<C>, net: Net<C>, n: nat, c: Change)
    requires b.origin < b.count && Inv(SceneOf(b), net) && (forall p :: !NoticedByPeers(b, p))
    requires n < |net| && n != b.origin && c in net[n].buf
    ensures c.kind == Deletion
  {
    var sc := SceneOf(b);
    assert SaidOk(sc, net, n, c) by {
      hide Shape, DiskOk, InboxOk, WayOk, Sensible;
      assert NodeOk(sc, net, n);
    }
    hide Inv, Begun;
    EarlyIs(b, n, c.path);
    assert !NoticedByPeers(b, c.path);
  }

  lemma OnlyDeletionsFlush<C>(b: Batch<C>, net: Net<C>, n: nat)
    requires b.origin < b.count && Inv(SceneOf(b), net) && (forall p :: !NoticedByPeers(b, p)) && OnlyDeletions(b, net)
    requires Enabled(b.w, net, Flush(n))
    ensures OnlyDeletions(b, Do(b.w, net, Flush(n)))
  {
    hide Inv, NoticedByPeers, SceneOf, Apply;
    var next := Do(b.w, net, Flush(n));
    assert Harmless(b, News(n, net[n].buf)) by {
      forall c | n != b.origin && c in net[n].buf
        ensures c.kind == Deletion
      {
        OnlyDeletionsSaid(b, net, n, c);
      }
    }
    forall i, j | 0 <= i < |next| && j in next[i].inbox
      ensures Harmless(b, j)
    {
      assert j in net[i].inbox || j == News(n, net[n].buf);
    }
  }

  /** What an event makes of the message it is about. */
  lemma HarmlessStep<C>(w: World<C>, b: Batch<C>, net: Net<C>, e: Event)
    requires Enabled(w, net, e) && !e.Flush? && !e.Scan? && Harmless(b, net[e.n].inbox[e.k])
    ensures forall j | j in Do(w, net, e)[e.n].inbox && j !in net[e.n].inbox :: Harmless(b, j)
    ensures Do(w, net, e) == net[e.n := Do(w, net, e)[e.n]]
  {
    hide Requests, Pull, Found;
    var x, y := net[e.n], Do(w, net, e)[e.n];
    var j := x.inbox[e.k];
    assert e.Next? || e.Serve? ==> forall c | c in j.changes[1..] :: c in j.changes;
  }

  lemma OnlyDeletionsStep<C>(b: Batch<C>, net: Net<C>, e: Event)
    requires b.origin < b.count && Inv(SceneOf(b), net) && (forall p :: !NoticedByPeers(b, p)) && OnlyDeletions(b, net)
    requires Enabled(b.w, net, e)
    ensures OnlyDeletions(b, Do(b.w, net, e))
  {
    hide Inv, OnlyDeletions, NoticedByPeers, SceneOf, Harmless;
    if e.Flush? {
      OnlyDeletionsFlush(b, net, e.n);
    } else if e.Scan? {
      HarmlessAfter(b, net, e.n, Scanned(b.w.rules, net[e.n]));
    } else {
      hide Do;
      assert At(net, e.n, e.k) by {
        AtEvent(b.w, net, e);
      }
      HarmlessAt(b, net, e.n, e.k);
      HarmlessStep(b.w, b, net, e);
      HarmlessAfter(b, net, e.n, Do(b.w, net, e)[e.n]);
    }
  }

  lemma {:induction false} RunOnlyDeletions<C>(b: Batch<C>, net: Net<C>, events: seq<Event>)
    requires b.origin < b.count && Inv(SceneOf(b), net) && (forall p :: !NoticedByPeers(b, p)) && OnlyDeletions(b, net)
    requires SceneOf(b).w == b.w && Run(b.w, net, events).Some?
    ensures OnlyDeletions(b, Run(b.w, net, events).value)
    decreases events
  {
    hide Inv, OnlyDeletions, NoticedByPeers, SceneOf, Do, Enabled;
    if events != [] {
      RunUnrolled(b.w, net, events);
      EventKeepsInv(SceneOf(b), net, events[0]);
      OnlyDeletionsStep(b, net, events[0]);
      RunOnlyDeletions(b, Do(b.w, net, events[0]), events[1..]);
    }
  }

  lemma WaitsForOrigin<C>(b: Batch<C>, net: Net<C>, n: nat, j: Job)
    requires OnlyDeletions(b, net) && n < |net| && j in net[n].inbox && Waits(j)
    ensures j.from == b.origin
  {
    assert Harmless(b, j);
  }

  lemma OnlyDeletionsIsNoKnot<C>(b: Batch<C>, net: Net<C>)
    requires OnlyDeletions(b, net) && Shape(net)
    ensures !Knotted(net)
  {
    if knot: set<(nat, Thread)> :| Knot(net, knot) {
      var pair :| pair in knot;
      assert (pair.0, pair.1) in knot;
      hide Shape, Knot, Knotted, OnlyDeletions, InHand;
      var j := NodeWaits(net, knot, pair.0, pair.1);
      WaitsForOrigin(b, net, pair.0, j);
      var l := NodeWaits(net, knot, j.from, if j.stage == Asked then Discoverer else Handler);
      WaitsForOrigin(b, net, j.from, l);
      assert false;
    }
  }

  // ---- Main results ----

  /** A node that has been given a spread file does not recognise it when it is announced. */
  ghost predicate Unrecognised<C>(b: Batch<C>) {
    forall p | p in Spread(b) ::
      b.w.rules.recomputed(p, b.w.rules.delivered(b.d1[p])) != b.w.rules.announced(p, b.w.rules.delivered(b.d1[p]))
  }

  /** Three nodes or more, and the receivers notice a file they are given; or two, and the origin notices a file that
      comes back, and another comes back as well. */
  ghost predicate CanBlock<C>(b: Batch<C>) {
    || (b.count >= 3 && exists p :: NoticedByPeers(b, p))
    || (b.count == 2 && exists p, q :: NoticedAtHome(b, p) && ComesBack(b, q) && p != q)
  }

  /** If every new or edited file arrives whole: three nodes or more, and some file is sent about. */
  lemma {:induction false} CanBlockIfWhole<C>(b: Batch<C>)
    requires Whole(b)
    ensures CanBlock(b) <==> b.count >= 3 && Spread(b) != {}
  {
    forall p
      ensures NoticedByPeers(b, p) <==> p in Spread(b)
      ensures !NoticedAtHome(b, p)
    {
      assert Reaches(b, p) ==> Get(b.d0, p) != Get(b.d1, p);
    }
    if Spread(b) != {} {
      var p :| p in Spread(b);
      assert NoticedByPeers(b, p);
    }
  }

  /** Some run brings threads to wait for each other for good. */
  ghost predicate SomeRunBlocks<C(!new)>(b: Batch<C>) {
    exists net :: Leads(b.w, Begin(b), net) && Knotted(net)
  }

  lemma ToldIsHarmless<C>(b: Batch<C>)
    requires b.origin < b.count
    ensures OnlyDeletions(b, Told(b))
  {
    hide Change0;
  }

  /** With two nodes. */
  lemma PairNeverBlocks<C>(b: Batch<C>, events: seq<Event>, net: Net<C>)
    requires Repeatable(b) && b.count == 2 && !CanBlock(b) && Run(b.w, Told(b), events) == Some(net) && Shape(net)
    ensures !Knotted(net)
  {
    hide Inv, Knotted, OneWay, Once, Run, Told, SceneOf, Repeatable, Shape, NoticedAtHome, ComesBack;
    Sizes(b);
    ToldInv(b);
    if p :| NoticedAtHome(b, p) {
      assert Lone(b, p);
      TwoStartOnce(b, p);
      RunStaysOnce(b, Told(b), events, p);
      OnceIsNoKnot(b, net, p);
    } else {
      TwoStartOneWay(b);
      RunStaysOneWay(b, Told(b), events);
      OneWayIsNoKnot(b, net);
    }
  }

  lemma ToldNeverBlocks<C>(b: Batch<C>, net: Net<C>)
    requires Repeatable(b) && !CanBlock(b) && Leads(b.w, Told(b), net)
    ensures !Knotted(net)
  {
    hide Inv, Knotted, OnlyDeletions, NoticedByPeers, Run, Told, SceneOf, Repeatable, Shape, NoticedAtHome, ComesBack;
    Sizes(b);
    ToldInv(b);
    InvSize(SceneOf(b), Told(b));
    var events :| Run(b.w, Told(b), events) == Some(net);
    RunKeepsShape(b.w, Told(b), events);
    if b.count == 2 {
      PairNeverBlocks(b, events, net);
    } else if b.count >= 3 {
      ToldIsHarmless(b);
      RunOnlyDeletions(b, Told(b), events);
      OnlyDeletionsIsNoKnot(b, net);
    } else {
      AloneIsNoKnot(net);
    }
  }

  lemma AloneIsNoKnot<C>(net: Net<C>)
    requires Shape(net) && |net| <= 1
    ensures !Knotted(net)
  {
    if knot: set<(nat, Thread)> :| Knot(net, knot) {
      var n, j := SomebodyWaits(net, knot);
      assert false;
    }
  }

  lemma NeverBlocks<C>(b: Batch<C>, net: Net<C>)
    requires Repeatable(b) && !CanBlock(b) && Leads(b.w, Begin(b), net)
    ensures !Knotted(net)
  {
    hide Knotted, Run, Begin, Told, Noted, Change0, Repeatable, CanBlock;
    Sizes(b);
    var events :| Run(b.w, Begin(b), events) == Some(net);
    RunsBegin(b, events, net);
    ToldRests(b);
    if |events| >= 2 {
      assert Leads(b.w, Told(b), net);
      ToldNeverBlocks(b, net);
    } else {
      RestIsNoKnot(net);
    }
  }

  lemma {:induction false} CanBlockBlocks<C>(b: Batch<C>) returns (net: Net<C>)
    requires Repeatable(b) && Unrecognised(b) && CanBlock(b)
    ensures Leads(b.w, Begin(b), net) && Knotted(net)
  {
    hide Leads, Knotted, Begin, Reaches, Repeatable;
    Sizes(b);
    if b.count >= 3 {
      var p :| NoticedByPeers(b, p);
      SpreadIs(b, p);
      net := ThreeCanBlock(b, p);
    } else {
      var p, q :| NoticedAtHome(b, p) && ComesBack(b, q) && p != q;
      SpreadIs(b, p);
      net := TwoCanBlock(b, p, q);
    }
  }

  lemma SpreadIs<C>(b: Batch<C>, p: Path)
    ensures p in Spread(b) <==> p in b.d1 && Reaches(b, p)
  {
  }

  /** Whether threads can come to wait for each other for good, exactly. */
  lemma {:induction false} BlocksIff<C(!new)>(b: Batch<C>)
    requires Repeatable(b) && Unrecognised(b)
    ensures SomeRunBlocks(b) <==> CanBlock(b)
  {
    hide Leads, Knotted, Begin, CanBlock, Unrecognised, Repeatable;
    if CanBlock(b) {
      var net := CanBlockBlocks(b);
    } else {
      forall net | Leads(b.w, Begin(b), net)
        ensures !Knotted(net)
      {
        NeverBlocks(b, net);
      }
    }
  }

  /** Otherwise no run is a dead end: each can be continued until every disk is at its outcome. */
  lemma {:induction false} EveryRunGoesOn<C>(b: Batch<C>, net: Net<C>) returns (last: Net<C>)
    requires Repeatable(b) && !CanBlock(b) && Leads(b.w, Begin(b), net)
    ensures Leads(b.w, net, last) && Quiet(b.w.rules, last) && AllAtOutcome(b, last)
  {
    hide Leads, Knotted, Begin, Quiet, AllAtOutcome, Repeatable, CanBlock;
    last := GoesOnFromBegin(b, net);
    Onwards(b.w, Begin(b), net, last);
    QuietAtLast(b, last);
  }

  lemma QuietAtLast<C>(b: Batch<C>, last: Net<C>)
    requires Repeatable(b) && Leads(b.w, Begin(b), last) && Quiet(b.w.rules, last)
    ensures AllAtOutcome(b, last)
  {
    hide Begin, Quiet, AllAtOutcome, Repeatable, Run;
    var events :| Run(b.w, Begin(b), events) == Some(last);
    EveryInterleavingSettles(b, events, last);
  }

  lemma {:induction false} GoesOnFromBegin<C>(b: Batch<C>, net: Net<C>) returns (last: Net<C>)
    requires Repeatable(b) && !CanBlock(b) && Leads(b.w, Begin(b), net)
    ensures Leads(b.w, net, last) && Quiet(b.w.rules, last)
  {
    hide Knotted, Run, Begin, Told, Noted, Change0, Inv, Repeatable, CanBlock, SceneOf, Quiet;
    Sizes(b);
    ToldInv(b);
    var events :| Run(b.w, Begin(b), events) == Some(net);
    RunsBegin(b, events, net);
    var from := if |events| >= 2 then net else Told(b);
    LeadsNowhere(b.w, Told(b));
    assert Leads(b.w, Told(b), from);
    if |events| < 2 && Change0(b) == [] {
      last := net;
      LeadsNowhere(b.w, net);
      BeginIsQuiet(b);
    } else {
      LeadsKeepsInv(SceneOf(b), Told(b), from);
      forall next | Leads(b.w, from, next)
        ensures !Knotted(next)
      {
        Onwards(b.w, Told(b), from, next);
        ToldNeverBlocks(b, next);
      }
      last := GoesOn(SceneOf(b), from);
      if |events| < 2 {
        UpToTold(b, net);
        Onwards(b.w, net, Told(b), last);
      }
    }
  }

  lemma UpToTold<C>(b: Batch<C>, net: Net<C>)
    requires b.origin < b.count && Change0(b) != [] && (net == Begin(b) || net == Noted(b))
    ensures Leads(b.w, net, Told(b))
  {
    hide Leads, Begin, Noted, Told, Change0, Enabled, Do;
    BeginLeadsToTold(b);
    FlushTells(b);
    OneEvent(b.w, Noted(b), Flush(b.origin));
  }
}

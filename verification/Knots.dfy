/** Threads that wait for each other. A request is waited for without limit, and the thread that would serve it may be
    waiting itself: every run ends quiet or in such a knot, and a knot is never left. */
module Knots {
  import opened Base
  import opened RequestFiles
  import opened Network
  import opened Propagation
  import opened Preservation
  import opened Convergence
  import PacketCodec

  // ---- Knots ----

  ghost predicate InHand<C>(x: Node<C>, t: Thread) {
    exists j :: j in x.inbox && Busy(j) && j.thread == t
  }

  /** What the job waits for is in the hands of `knot`. */
  ghost predicate Stopped<C>(net: Net<C>, knot: set<(nat, Thread)>, n: nat, j: Job)
    requires n < |net|
  {
    match j.stage
    case Open => j.changes != [] && exists m :: m in net[n].inbox && Waits(m) && (n, m.thread) in knot
    case Asked => (j.from, Discoverer) in knot
    case Heard => (j.from, Handler) in knot
    case _ => false
  }

  /** Each of these threads has something in hand and waits for another of them. */
  ghost predicate Knot<C>(net: Net<C>, knot: set<(nat, Thread)>) {
    && knot != {}
    && (forall n, t | (n, t) in knot :: n < |net| && InHand(net[n], t))
    && forall n, j | 0 <= n < |net| && j in net[n].inbox && Busy(j) && (n, j.thread) in knot :: Stopped(net, knot, n, j)
  }

  ghost predicate Knotted<C>(net: Net<C>) {
    exists knot :: Knot(net, knot)
  }

  /** The jobs in the hands of the knot are the same. */
  ghost predicate SameHands<C>(x: Node<C>, y: Node<C>, knot: set<(nat, Thread)>, n: nat) {
    forall j | Busy(j) && (n, j.thread) in knot :: j in x.inbox <==> j in y.inbox
  }

  lemma KnotCarriesOver<C>(net: Net<C>, next: Net<C>, knot: set<(nat, Thread)>)
    requires Knot(net, knot) && |net| == |next|
    requires forall n | 0 <= n < |net| :: SameHands(net[n], next[n], knot, n)
    ensures Knot(next, knot)
  {
    forall n, t | (n, t) in knot
      ensures n < |next| && InHand(next[n], t)
    {
      assert InHand(net[n], t);
      var j :| j in net[n].inbox && Busy(j) && j.thread == t;
      assert SameHands(net[n], next[n], knot, n);
    }
    forall n, j | 0 <= n < |next| && j in next[n].inbox && Busy(j) && (n, j.thread) in knot
      ensures Stopped(next, knot, n, j)
    {
      assert SameHands(net[n], next[n], knot, n);
      assert Stopped(net, knot, n, j);
      if j.stage == Open {
        var m :| m in net[n].inbox && Waits(m) && (n, m.thread) in knot;
      }
    }
  }

  lemma WithJobSame<C>(x: Node<C>, k: nat, j: Job, knot: set<(nat, Thread)>, n: nat)
    requires k < |x.inbox|
    requires !(Busy(x.inbox[k]) && (n, x.inbox[k].thread) in knot) && !(Busy(j) && (n, j.thread) in knot)
    ensures SameHands(x, WithJob(x, k, j), knot, n)
  {
    forall m | Busy(m) && (n, m.thread) in knot
      ensures m in x.inbox <==> m in WithJob(x, k, j).inbox
    {
      if m in x.inbox {
        StillThere(x, k, j, m);
      }
    }
  }

  lemma WithoutJobSame<C>(x: Node<C>, k: nat, knot: set<(nat, Thread)>, n: nat)
    requires k < |x.inbox| && !(Busy(x.inbox[k]) && (n, x.inbox[k].thread) in knot)
    ensures SameHands(x, WithoutJob(x, k), knot, n)
  {
    forall m | Busy(m) && (n, m.thread) in knot
      ensures m in x.inbox <==> m in WithoutJob(x, k).inbox
    {
      if m in x.inbox {
        OthersRemain(x, k, m);
      }
    }
  }

  lemma ReceivesSame<C>(x: Node<C>, j: Job, knot: set<(nat, Thread)>, n: nat)
    requires !Busy(j)
    ensures SameHands(x, Receives(x, j), knot, n)
  {
  }

  /** A stopped job cannot be the one an event moves. */
  lemma NotStopped<C>(w: World<C>, net: Net<C>, knot: set<(nat, Thread)>, e: Event)
    requires Knot(net, knot) && Enabled(w, net, e) && !e.Scan? && !e.Flush?
    ensures !(Busy(net[e.n].inbox[e.k]) && (e.n, net[e.n].inbox[e.k].thread) in knot)
  {
  }

  lemma IdleIsNotKnotted<C>(net: Net<C>, knot: set<(nat, Thread)>, n: nat, t: Thread)
    requires Knot(net, knot) && n < |net| && Idle(net[n], t)
    ensures (n, t) !in knot
  {
  }

  lemma TakeKeepsHands<C>(w: World<C>, net: Net<C>, knot: set<(nat, Thread)>, n: nat, k: nat, i: nat)
    requires Knot(net, knot) && Enabled(w, net, Take(n, k)) && i < |net|
    ensures SameHands(net[i], Do(w, net, Take(n, k))[i], knot, i)
  {
    hide Knot, PacketCodec.OnTheWire, Requests;
    var j, inHand := net[n].inbox[k], Opened(w, net[n], net[n].inbox[k]);
    IdleIsNotKnotted(net, knot, n, j.thread);
    WithJobSame(net[n], k, inHand, knot, n);
    if j.thread == Discoverer {
      ReceivesSame(net[j.from], Answer(n, PacketCodec.OnTheWire(net[n].table)), knot, j.from);
    }
  }

  lemma FlushKeepsHands<C>(w: World<C>, net: Net<C>, knot: set<(nat, Thread)>, n: nat, i: nat)
    requires Enabled(w, net, Flush(n)) && i < |net|
    ensures SameHands(net[i], Do(w, net, Flush(n))[i], knot, i)
  {
    if i != n {
      ReceivesSame(net[i], News(n, net[n].buf), knot, i);
    }
  }

  lemma LocalKeepsHands<C>(w: World<C>, net: Net<C>, knot: set<(nat, Thread)>, e: Event)
    requires Knot(net, knot) && Enabled(w, net, e) && Local(e)
    ensures SameHands(net[e.n], Stepped(w, net, e), knot, e.n)
  {
    var n, x := e.n, net[e.n];
    if !e.Scan? {
      NotStopped(w, net, knot, e);
      var k := e.k;
      if MovesOn(e) {
        WithJobSame(x, k, x.inbox[k].(stage := StageAfter(e)), knot, n);
      } else if e.Replace? {
        var y := WithJob(x, e.l, x.inbox[k].(stage := Posted));
        WithJobSame(x, e.l, x.inbox[k].(stage := Posted), knot, n);
        WithoutJobSame(y, k, knot, n);
      } else if e.Finish? {
        WithoutJobSame(x, k, knot, n);
      } else {
        WithJobSame(x, k, x.inbox[k].(changes := x.inbox[k].changes[1..], stage := Open), knot, n);
      }
    }
  }

  lemma EventKeepsKnot<C>(w: World<C>, net: Net<C>, knot: set<(nat, Thread)>, e: Event)
    requires Knot(net, knot) && Enabled(w, net, e)
    ensures Knot(Do(w, net, e), knot)
  {
    var next := Do(w, net, e);
    forall i | 0 <= i < |net|
      ensures SameHands(net[i], next[i], knot, i)
    {
      if e.Take? {
        TakeKeepsHands(w, net, knot, e.n, e.k, i);
      } else if e.Flush? {
        FlushKeepsHands(w, net, knot, e.n, i);
      } else if i == e.n {
        LocalKeepsHands(w, net, knot, e);
      }
    }
    KnotCarriesOver(net, next, knot);
  }

  /** A knot is for good: whatever happens afterwards, its threads wait on, and the network is never quiet again. */
  lemma {:induction false} KnotStays<C>(w: World<C>, net: Net<C>, knot: set<(nat, Thread)>, events: seq<Event>)
    requires Knot(net, knot) && Run(w, net, events).Some?
    ensures Knot(Run(w, net, events).value, knot) && !Quiet(w.rules, Run(w, net, events).value)
    decreases events
  {
    if events == [] {
      var pair :| pair in knot;
      assert (pair.0, pair.1) in knot;
    } else {
      RunUnrolled(w, net, events);
      EventKeepsKnot(w, net, knot, events[0]);
      KnotStays(w, Do(w, net, events[0]), knot, events[1..]);
    }
  }

  /** At every node of a knot somebody of the knot waits for another node of it. */
  lemma NodeWaits<C>(net: Net<C>, knot: set<(nat, Thread)>, n: nat, t: Thread) returns (j: Job)
    requires Knot(net, knot) && Shape(net) && (n, t) in knot
    ensures n < |net| && j in net[n].inbox && Waits(j) && (n, j.thread) in knot && j.from != n && j.from < |net|
    ensures (j.from, if j.stage == Asked then Discoverer else Handler) in knot
    ensures InHand(net[j.from], if j.stage == Asked then Discoverer else Handler)
  {
    assert InHand(net[n], t);
    j :| j in net[n].inbox && Busy(j) && j.thread == t;
    assert Stopped(net, knot, n, j);
    if j.stage == Open {
      j :| j in net[n].inbox && Waits(j) && (n, j.thread) in knot;
      assert Stopped(net, knot, n, j);
    }
    assert NodeShape(|net|, n, net[n]);
  }

  /** In every knot somebody waits for another node. */
  lemma SomebodyWaits<C>(net: Net<C>, knot: set<(nat, Thread)>) returns (n: nat, j: Job)
    requires Knot(net, knot) && Shape(net)
    ensures n < |net| && j in net[n].inbox && Waits(j) && j.from != n && j.from < |net|
    ensures InHand(net[j.from], if j.stage == Asked then Discoverer else Handler)
  {
    var pair :| pair in knot;
    assert (pair.0, pair.1) in knot;
    n := pair.0;
    j := NodeWaits(net, knot, n, pair.1);
  }

  /** In a knot of two nodes both wait for each other. */
  lemma TwoWait<C>(net: Net<C>, knot: set<(nat, Thread)>) returns (n: nat, j: Job, k: Job)
    requires Knot(net, knot) && Shape(net) && |net| == 2
    ensures n < 2 && j in net[n].inbox && k in net[1 - n].inbox && Waits(j) && Waits(k)
    ensures j.changes != [] && k.changes != []
    ensures InHand(net[1 - n], if j.stage == Asked then Discoverer else Handler)
    ensures InHand(net[n], if k.stage == Asked then Discoverer else Handler)
  {
    hide InHand;
    var pair :| pair in knot;
    assert (pair.0, pair.1) in knot;
    n := pair.0;
    j := NodeWaits(net, knot, n, pair.1);
    k := NodeWaits(net, knot, j.from, if j.stage == Asked then Discoverer else Handler);
    assert NodeShape(2, n, net[n]) && NodeShape(2, 1 - n, net[1 - n]);
  }

  // ---- Where a run ends ----

  ghost predicate Over<C>(w: World<C>, net: Net<C>) {
    forall e :: !Enabled(w, net, e)
  }

  ghost function AllBusy<C>(net: Net<C>): set<(nat, Thread)> {
    set n: nat, t: Thread | n < |net| && !Idle(net[n], t) :: (n, t)
  }

  lemma BusyIsInHand<C>(net: Net<C>, n: nat, j: Job)
    requires n < |net| && j in net[n].inbox && Busy(j)
    ensures (n, j.thread) in AllBusy(net)
  {
    var k :| 0 <= k < |net[n].inbox| && net[n].inbox[k] == j;
    assert !Idle(net[n], j.thread);
  }

  /** When nothing can happen, a job in hand waits for another one. */
  lemma BusyIsStopped<C>(w: World<C>, net: Net<C>, n: nat, k: nat)
    requires Shape(net) && Over(w, net) && At(net, n, k) && Busy(net[n].inbox[k])
    ensures Stopped(net, AllBusy(net), n, net[n].inbox[k])
  {
    var x, j := net[n], net[n].inbox[k];
    assert NodeShape(|net|, n, x) && JobShape(|net|, n, j);
    match j.stage
    case Open =>
      assert !Enabled(w, net, Finish(n, k)) && !Enabled(w, net, Next(n, k)) && !Enabled(w, net, Ask(n, k));
      var l :| 0 <= l < |x.inbox| && Waits(x.inbox[l]);
      assert x.inbox[l] in x.inbox;
      BusyIsInHand(net, n, x.inbox[l]);
    case Asked => assert !Enabled(w, net, Hear(n, k));
    case Heard => assert !Enabled(w, net, Serve(n, k));
  }

  /** A message at a node with idle threads can be moved on. */
  lemma MessageMoves<C>(w: World<C>, net: Net<C>, n: nat, k: nat)
    requires At(net, n, k) && JobShape(|net|, n, net[n].inbox[k]) && forall t :: Idle(net[n], t)
    ensures exists e :: Enabled(w, net, e)
  {
    var x, j := net[n], net[n].inbox[k];
    assert !Busy(j) by {
      assert Idle(x, j.thread);
    }
    if Ready(j) {
      assert Enabled(w, net, Take(n, k));
    } else if j.stage == Sent {
      assert Enabled(w, net, Collect(n, k));
    } else if l: nat :| l < |x.inbox| && x.inbox[l].stage == Posted {
      assert Enabled(w, net, Replace(n, k, l));
    } else {
      assert Enabled(w, net, Post(n, k));
    }
  }

  /** When nothing can happen and every thread is idle, no message is left. */
  lemma NothingLeft<C>(w: World<C>, net: Net<C>, n: nat)
    requires Shape(net) && Over(w, net) && n < |net| && AllBusy(net) == {}
    ensures net[n].inbox == [] && net[n].buf == [] && Found(w.rules, net[n]) == []
  {
    var x := net[n];
    forall t
      ensures Idle(x, t)
    {
      assert (n, t) !in AllBusy(net);
    }
    if x.inbox != [] {
      assert NodeShape(|net|, n, x) && JobShape(|net|, n, x.inbox[0]) && At(net, n, 0);
      MessageMoves(w, net, n, 0);
    }
    assert !Enabled(w, net, Scan(n)) && !Enabled(w, net, Flush(n));
  }

  /** A run that can go no further has left nothing to do, or has ended in a knot. */
  lemma {:induction false} QuietOrKnotted<C>(w: World<C>, net: Net<C>)
    requires Shape(net) && Over(w, net)
    ensures Quiet(w.rules, net) || Knotted(net)
  {
    var knot := AllBusy(net);
    if knot == {} {
      forall n | 0 <= n < |net|
        ensures net[n].inbox == [] && net[n].buf == [] && Found(w.rules, net[n]) == []
      {
        NothingLeft(w, net, n);
      }
    } else {
      forall n, t | (n, t) in knot
        ensures n < |net| && InHand(net[n], t)
      {
        var k :| 0 <= k < |net[n].inbox| && net[n].inbox[k].thread == t && Busy(net[n].inbox[k]);
        assert net[n].inbox[k] in net[n].inbox;
      }
      forall n, j | 0 <= n < |net| && j in net[n].inbox && Busy(j) && (n, j.thread) in knot
        ensures Stopped(net, knot, n, j)
      {
        var k :| 0 <= k < |net[n].inbox| && net[n].inbox[k] == j;
        BusyIsStopped(w, net, n, k);
      }
      assert Knot(net, knot);
    }
  }

  // ---- What can be reached ----

  ghost predicate Leads<C>(w: World<C>, net: Net<C>, next: Net<C>) {
    exists events :: Run(w, net, events) == Some(next)
  }

  lemma LeadsNowhere<C>(w: World<C>, net: Net<C>)
    ensures Leads(w, net, net)
  {
    assert Run(w, net, []) == Some(net);
  }

  lemma OneEvent<C>(w: World<C>, net: Net<C>, e: Event)
    requires Enabled(w, net, e)
    ensures Leads(w, net, Do(w, net, e))
  {
    RunOne(w, net, e);
  }

  lemma Onwards<C>(w: World<C>, a: Net<C>, b: Net<C>, c: Net<C>)
    requires Leads(w, a, b) && Leads(w, b, c)
    ensures Leads(w, a, c)
  {
    var first :| Run(w, a, first) == Some(b);
    var rest :| Run(w, b, rest) == Some(c);
    RunConcat(w, a, first, rest);
  }

  lemma LeadsKeepsInv<C>(sc: Scene<C>, net: Net<C>, next: Net<C>)
    requires Inv(sc, net) && Leads(sc.w, net, next)
    ensures Inv(sc, next) && Measure(sc, next) <= Measure(sc, net)
    ensures next != net ==> Measure(sc, next) < Measure(sc, net)
  {
    var events :| Run(sc.w, net, events) == Some(next);
    RunLowers(sc, net, events);
    if events == [] {
      assert next == net;
    }
  }

  lemma LeadsKeepsShape<C>(w: World<C>, net: Net<C>, next: Net<C>)
    requires Shape(net) && Leads(w, net, next)
    ensures Shape(next) && |next| == |net|
  {
    var events :| Run(w, net, events) == Some(next);
    RunKeepsShape(w, net, events);
  }

  /** If no knot can be reached, every run can be continued until nothing is left to do, and every run that is
      continued for as long as something can happen gets there. */
  lemma {:induction false} GoesOn<C>(sc: Scene<C>, net: Net<C>) returns (last: Net<C>)
    requires Inv(sc, net) && forall next :: Leads(sc.w, net, next) ==> !Knotted(next)
    ensures Leads(sc.w, net, last) && Quiet(sc.w.rules, last)
    decreases Measure(sc, net)
  {
    MeasureIsNatural(sc, net);
    LeadsNowhere(sc.w, net);
    if Over(sc.w, net) {
      QuietOrKnotted(sc.w, net);
      last := net;
    } else {
      var e :| Enabled(sc.w, net, e);
      var next := Do(sc.w, net, e);
      OneEvent(sc.w, net, e);
      EventKeepsInv(sc, net, e);
      EventLowers(sc, net, e);
      forall later | Leads(sc.w, next, later)
        ensures !Knotted(later)
      {
        Onwards(sc.w, net, next, later);
      }
      last := GoesOn(sc, next);
      Onwards(sc.w, net, next, last);
    }
  }
}

/** Particular runs: a message worked off in one go, a request that is sent and heard, two handlers that ask each
    other. */
module Schedules {
  import opened Base
  import opened DirectoryDiff
  import opened RequestFiles
  import opened Network
  import opened Propagation
  import opened Preservation
  import opened Convergence
  import opened Knots
  import PacketCodec

  predicate Resting<C>(x: Node<C>) {
    forall k | 0 <= k < |x.inbox| :: !Busy(x.inbox[k])
  }

  /** The threads that serve are idle. */
  predicate Serving<C>(x: Node<C>) {
    Idle(x, Discoverer) && Idle(x, Handler)
  }

  lemma WithJobTwice<C>(x: Node<C>, k: nat, a: Job, b: Job, disk: Disk<C>)
    requires k < |x.inbox|
    ensures WithJob(WithJob(x, k, a), k, b) == WithJob(x, k, b)
    ensures WithJob(WithJob(x, k, a).(disk := disk), k, b) == WithJob(x.(disk := disk), k, b)
  {
    assert x.inbox[k := a][k := b] == x.inbox[k := b];
  }

  // ---- One change, then all of them ----

  /** The request for the first change is sent and collected. */
  lemma AskAndHear<C>(w: World<C>, net: Net<C>, n: nat, k: nat)
    requires Enabled(w, net, Ask(n, k)) && net[n].inbox[k].from != n && net[n].inbox[k].from < |net|
    requires Idle(net[net[n].inbox[k].from], Discoverer)
    ensures Leads(w, net, net[n := WithJob(net[n], k, net[n].inbox[k].(stage := Heard))])
  {
    hide Leads;
    var x, j := net[n], net[n].inbox[k];
    var asked := net[n := WithJob(x, k, j.(stage := Asked))];
    OneEvent(w, net, Ask(n, k));
    assert Enabled(w, asked, Hear(n, k));
    OneEvent(w, asked, Hear(n, k));
    WithJobTwice(x, k, asked[n].inbox[k], j.(stage := Heard), x.disk);
    assert Do(w, asked, Hear(n, k)) == net[n := WithJob(x, k, j.(stage := Heard))];
    Onwards(w, net, asked, Do(w, asked, Hear(n, k)));
  }

  lemma OneChange<C>(w: World<C>, net: Net<C>, n: nat, k: nat)
    requires At(net, n, k) && net[n].inbox[k].stage == Open && net[n].inbox[k].changes != []
    requires net[n].inbox[k].from != n && net[n].inbox[k].from < |net|
    requires Free(net[n]) && Serving(net[net[n].inbox[k].from])
    ensures Leads(w, net, net[n := Advanced(w, net[n], k, net[net[n].inbox[k].from].disk)])
  {
    hide Leads;
    var x, j, server := net[n], net[n].inbox[k], net[net[n].inbox[k].from].disk;
    if Needs(w, x.disk, j.changes[0]) {
      var heard := net[n := WithJob(x, k, j.(stage := Heard))];
      AskAndHear(w, net, n, k);
      assert Enabled(w, heard, Serve(n, k));
      OneEvent(w, heard, Serve(n, k));
      assert Advanced(w, heard[n], k, server) == Advanced(w, x, k, server);
      assert Do(w, heard, Serve(n, k)) == net[n := Advanced(w, x, k, server)];
      Onwards(w, net, heard, net[n := Advanced(w, x, k, server)]);
    } else {
      OneEvent(w, net, Next(n, k));
      assert Advanced(w, x, k, x.disk) == Advanced(w, x, k, server);
      assert Do(w, net, Next(n, k)) == net[n := Advanced(w, x, k, server)];
    }
  }

  lemma OthersWait<C>(x: Node<C>, k: nat, j: Job)
    requires k < |x.inbox| && Free(x) && !Waits(j)
    ensures Free(WithJob(x, k, j))
  {
  }

  /** A node that has dealt with the first `m` changes of job `k`. */
  function Part<C>(w: World<C>, x: Node<C>, k: nat, server: Disk<C>, m: nat): Node<C>
    requires k < |x.inbox| && m <= |x.inbox[k].changes|
  {
    var j := x.inbox[k];
    WithJob(x.(disk := PullAll(w.rules, x.disk, server, j.changes[..m])), k, j.(changes := j.changes[m..]))
  }

  lemma PartAndOne<C>(w: World<C>, x: Node<C>, k: nat, server: Disk<C>, m: nat)
    requires k < |x.inbox| && m < |x.inbox[k].changes| && x.inbox[k].stage == Open
    ensures Advanced(w, Part(w, x, k, server, m), k, server) == Part(w, x, k, server, m + 1)
  {
    hide Pull;
    var cs := x.inbox[k].changes;
    assert cs[..m + 1][..m] == cs[..m] && cs[m..][1..] == cs[m + 1..];
    var y, z := Part(w, x, k, server, m), Part(w, x, k, server, m + 1);
    WithJobTwice(x.(disk := y.disk), k, y.inbox[k], z.inbox[k], z.disk);
  }

  /** With the sender's serving threads idle, part of a job in hand can be worked off without a break. */
  lemma {:induction false} PartWay<C>(w: World<C>, net: Net<C>, n: nat, k: nat, m: nat)
    requires At(net, n, k) && net[n].inbox[k].stage == Open && m <= |net[n].inbox[k].changes|
    requires net[n].inbox[k].from != n && net[n].inbox[k].from < |net|
    requires Free(net[n]) && Serving(net[net[n].inbox[k].from])
    ensures Leads(w, net, net[n := Part(w, net[n], k, net[net[n].inbox[k].from].disk, m)])
  {
    hide Leads;
    var x, j, server := net[n], net[n].inbox[k], net[net[n].inbox[k].from].disk;
    if m == 0 {
      assert j.changes[..0] == [] && j.changes[0..] == j.changes && x.inbox[k := j] == x.inbox;
      assert net[n := Part(w, x, k, server, 0)] == net;
      LeadsNowhere(w, net);
    } else {
      PartWay(w, net, n, k, m - 1);
      var y, z := Part(w, x, k, server, m - 1), Part(w, x, k, server, m);
      var mid := net[n := y];
      OthersWait(x.(disk := y.disk), k, y.inbox[k]);
      OneChange(w, mid, n, k);
      PartAndOne(w, x, k, server, m - 1);
      assert mid[n := z] == net[n := z];
      Onwards(w, net, mid, net[n := z]);
    }
  }

  /** A node with a job worked off. */
  function Done<C>(w: World<C>, x: Node<C>, k: nat, server: Disk<C>): Node<C>
    requires k < |x.inbox|
  {
    WithoutJob(x.(disk := PullAll(w.rules, x.disk, server, x.inbox[k].changes)), k)
  }

  /** All of it: the disk becomes what pulling every change makes of it, and nothing else happens anywhere. */
  lemma WorkOff<C>(w: World<C>, net: Net<C>, n: nat, k: nat)
    requires At(net, n, k) && net[n].inbox[k].stage == Open
    requires net[n].inbox[k].from != n && net[n].inbox[k].from < |net|
    requires Free(net[n]) && Serving(net[net[n].inbox[k].from])
    ensures Leads(w, net, net[n := Done(w, net[n], k, net[net[n].inbox[k].from].disk)])
  {
    hide Leads, PullAll;
    var x, j, server := net[n], net[n].inbox[k], net[net[n].inbox[k].from].disk;
    PartWay(w, net, n, k, |j.changes|);
    var y := Part(w, x, k, server, |j.changes|);
    assert j.changes[..|j.changes|] == j.changes;
    var mid := net[n := y];
    OneEvent(w, mid, Finish(n, k));
    assert y.inbox[..k] == x.inbox[..k] && y.inbox[k + 1..] == x.inbox[k + 1..];
    assert Do(w, mid, Finish(n, k)) == net[n := Done(w, x, k, server)];
    Onwards(w, net, mid, net[n := Done(w, x, k, server)]);
  }

  // ---- From the network into the hand ----

  lemma OpenNews<C>(w: World<C>, net: Net<C>, n: nat, k: nat)
    requires At(net, n, k) && net[n].inbox[k].thread == Handler && net[n].inbox[k].stage == Sent && Serving(net[n])
    ensures Leads(w, net, net[n := WithJob(net[n], k, net[n].inbox[k].(stage := Open))])
  {
    hide Leads;
    var x, j := net[n], net[n].inbox[k];
    var queued := net[n := WithJob(x, k, j.(stage := Queued))];
    OneEvent(w, net, Collect(n, k));
    assert Enabled(w, queued, Take(n, k));
    OneEvent(w, queued, Take(n, k));
    WithJobTwice(x, k, queued[n].inbox[k], j.(stage := Open), x.disk);
    assert Do(w, queued, Take(n, k)) == net[n := WithJob(x, k, j.(stage := Open))];
    Onwards(w, net, queued, Do(w, queued, Take(n, k)));
  }

  /** A broadcast, from the network to the last pull. */
  lemma HandleNews<C>(w: World<C>, net: Net<C>, n: nat, k: nat)
    requires At(net, n, k) && net[n].inbox[k].thread == Handler && net[n].inbox[k].stage == Sent
    requires net[n].inbox[k].from != n && net[n].inbox[k].from < |net|
    requires Resting(net[n]) && Resting(net[net[n].inbox[k].from])
    ensures Leads(w, net, net[n := Done(w, net[n], k, net[net[n].inbox[k].from].disk)])
  {
    hide Leads;
    var x, j, server := net[n], net[n].inbox[k], net[net[n].inbox[k].from].disk;
    var y := WithJob(x, k, j.(stage := Open));
    OpenNews(w, net, n, k);
    WorkOff(w, net[n := y], n, k);
    assert Done(w, y, k, server) == Done(w, x, k, server);
    assert net[n := y][n := Done(w, y, k, server)] == net[n := Done(w, x, k, server)];
    Onwards(w, net, net[n := y], net[n := Done(w, x, k, server)]);
  }

  /** An arrival opened, answered and worked off. */
  function Greeted<C>(w: World<C>, net: Net<C>, n: nat, k: nat): Net<C>
    requires At(net, n, k) && net[n].inbox[k].from < |net|
  {
    var x, j := net[n], net[n].inbox[k];
    var wants := Requests(w.literal, x.table, j.table, true);
    var next := net[n := WithoutJob(x.(disk := PullAll(w.rules, x.disk, net[j.from].disk, wants)), k)];
    next[j.from := Receives(next[j.from], Answer(n, PacketCodec.OnTheWire(x.table)))]
  }

  lemma HandleHello<C>(w: World<C>, net: Net<C>, n: nat, k: nat)
    requires At(net, n, k) && net[n].inbox[k].thread == Discoverer && net[n].inbox[k].stage == Sent
    requires n != net[n].inbox[k].from < |net| && Resting(net[n]) && Resting(net[net[n].inbox[k].from])
    ensures Leads(w, net, Greeted(w, net, n, k))
  {
    hide Leads, PacketCodec.OnTheWire, Requests, PullAll;
    var x, j, f := net[n], net[n].inbox[k], net[n].inbox[k].from;
    var mid := Do(w, net, Take(n, k));
    OneEvent(w, net, Take(n, k));
    var open := Opened(w, x, j);
    assert mid == net[n := WithJob(x, k, open)][f := Receives(net[f], Answer(n, PacketCodec.OnTheWire(x.table)))];
    assert mid[n] == WithJob(x, k, open) && Resting(mid[f]);
    WorkOff(w, mid, n, k);
    var next := mid[n := Done(w, mid[n], k, mid[f].disk)];
    Onwards(w, net, mid, next);
    var y := x.(disk := PullAll(w.rules, x.disk, net[f].disk, open.changes));
    assert Done(w, mid[n], k, mid[f].disk) == WithoutJob(y, k) by {
      assert x.inbox[k := open][..k] == x.inbox[..k] && x.inbox[k := open][k + 1..] == x.inbox[k + 1..];
    }
    assert next == Greeted(w, net, n, k);
  }

  lemma GreetedRests<C>(w: World<C>, net: Net<C>, n: nat, k: nat)
    requires At(net, n, k) && net[n].inbox[k].from < |net| && forall i | 0 <= i < |net| :: Resting(net[i])
    ensures |Greeted(w, net, n, k)| == |net|
    ensures forall i | 0 <= i < |net| :: Resting(Greeted(w, net, n, k)[i])
  {
    hide PacketCodec.OnTheWire, Requests, PullAll;
    var next := Greeted(w, net, n, k);
    forall i | 0 <= i < |net|
      ensures Resting(next[i])
    {
      assert Resting(net[i]) && Resting(net[n]);
      if i == n {
        WithoutOneRests(net[n], k);
      }
    }
  }

  lemma WithoutOneRests<C>(x: Node<C>, k: nat)
    requires Resting(x) && k < |x.inbox|
    ensures Resting(WithoutJob(x, k))
  {
  }

  /** A table that was answered goes through the mailbox, if that is empty. */
  lemma OpenAnswer<C>(w: World<C>, net: Net<C>, n: nat, k: nat)
    requires At(net, n, k) && net[n].inbox[k].thread == Manager && net[n].inbox[k].stage == Sent && Resting(net[n])
    requires forall l | 0 <= l < |net[n].inbox| :: net[n].inbox[l].stage != Posted
    ensures Leads(w, net, net[n := WithJob(net[n], k, Opened(w, net[n], net[n].inbox[k]))])
  {
    hide Requests, Leads;
    var x, j := net[n], net[n].inbox[k];
    var queued := net[n := WithJob(x, k, j.(stage := Queued))];
    OneEvent(w, net, Collect(n, k));
    assert Enabled(w, queued, Post(n, k));
    OneEvent(w, queued, Post(n, k));
    var posted := net[n := WithJob(x, k, j.(stage := Posted))];
    WithJobTwice(x, k, queued[n].inbox[k], j.(stage := Posted), x.disk);
    assert Do(w, queued, Post(n, k)) == posted;
    Onwards(w, net, queued, posted);
    OneEvent(w, posted, Take(n, k));
    WithJobTwice(x, k, posted[n].inbox[k], Opened(w, x, j), x.disk);
    assert Do(w, posted, Take(n, k)) == net[n := WithJob(x, k, Opened(w, x, j))];
    Onwards(w, net, posted, Do(w, posted, Take(n, k)));
  }

  /** The same, worked off: the sender's threads must be at rest. */
  lemma HandleAnswer<C>(w: World<C>, net: Net<C>, n: nat, k: nat)
    requires At(net, n, k) && net[n].inbox[k].thread == Manager && net[n].inbox[k].stage == Sent && Resting(net[n])
    requires forall l | 0 <= l < |net[n].inbox| :: net[n].inbox[l].stage != Posted
    requires net[n].inbox[k].from != n && net[n].inbox[k].from < |net| && Resting(net[net[n].inbox[k].from])
    ensures
      var x, j := net[n], net[n].inbox[k];
      var wants := Requests(w.literal, x.table, j.table, false);
      Leads(w, net, net[n := WithoutJob(x.(disk := PullAll(w.rules, x.disk, net[j.from].disk, wants)), k)])
  {
    hide Leads, Requests, PullAll;
    var x, j := net[n], net[n].inbox[k];
    var open := Opened(w, x, j);
    OpenAnswer(w, net, n, k);
    var mid := net[n := WithJob(x, k, open)];
    WorkOff(w, mid, n, k);
    var y := x.(disk := PullAll(w.rules, x.disk, net[j.from].disk, open.changes));
    assert Done(w, mid[n], k, net[j.from].disk) == WithoutJob(y, k) by {
      assert x.inbox[k := open][..k] == x.inbox[..k] && x.inbox[k := open][k + 1..] == x.inbox[k + 1..];
    }
    assert mid[n := WithoutJob(y, k)] == net[n := WithoutJob(y, k)];
    Onwards(w, net, mid, net[n := WithoutJob(y, k)]);
  }

  // ---- Up to the first request ----

  /** What needs a request still does after changes that need none. */
  lemma StillNeeds<C>(w: World<C>, disk: Disk<C>, first: Change, c: Change)
    requires Needs(w, disk, c) && !Needs(w, disk, first)
    ensures Needs(w, Pull(w.rules, disk, disk, first), c)
  {
  }

  /** If some change needs a request, the job comes to one that does. */
  lemma {:induction false} UpToNeed<C>(w: World<C>, net: Net<C>, n: nat, k: nat, c: Change)
    returns (disk: Disk<C>, rest: seq<Change>)
    requires At(net, n, k) && net[n].inbox[k].stage == Open && Free(net[n])
    requires c in net[n].inbox[k].changes && Needs(w, net[n].disk, c)
    ensures rest != [] && Needs(w, disk, rest[0])
    ensures Leads(w, net, net[n := WithJob(net[n].(disk := disk), k, net[n].inbox[k].(changes := rest))])
    decreases |net[n].inbox[k].changes|
  {
    hide Leads;
    var x, j := net[n], net[n].inbox[k];
    var first := j.changes[0];
    if Needs(w, x.disk, first) {
      disk, rest := x.disk, j.changes;
      LeadsNowhere(w, net);
      assert x.inbox[k := j] == x.inbox;
      assert net[n := WithJob(x.(disk := disk), k, j.(changes := rest))] == net;
    } else {
      var y := Advanced(w, x, k, x.disk);
      var mid := net[n := y];
      OneEvent(w, net, Next(n, k));
      assert Do(w, net, Next(n, k)) == mid;
      assert j.changes == [first] + j.changes[1..];
      StillNeeds(w, x.disk, first, c);
      OthersWait(x.(disk := y.disk), k, y.inbox[k]);
      disk, rest := UpToNeed(w, mid, n, k, c);
      var z := WithJob(x.(disk := disk), k, j.(changes := rest));
      WithJobTwice(x.(disk := y.disk), k, y.inbox[k], z.inbox[k], disk);
      assert mid[n := WithJob(y.(disk := disk), k, y.inbox[k].(changes := rest))] == net[n := z];
      Onwards(w, net, mid, net[n := z]);
    }
  }

  /** And then to wait for one that has been sent, and heard if the peer's discoverer is idle. */
  lemma AskFirst<C>(w: World<C>, net: Net<C>, n: nat, k: nat, c: Change) returns (disk: Disk<C>, rest: seq<Change>)
    requires At(net, n, k) && net[n].inbox[k].stage == Open && Free(net[n])
    requires c in net[n].inbox[k].changes && Needs(w, net[n].disk, c)
    requires net[n].inbox[k].from != n && net[n].inbox[k].from < |net|
    ensures rest != []
    ensures
      var x, j := net[n].(disk := disk), net[n].inbox[k].(changes := rest);
      && Leads(w, net, net[n := WithJob(x, k, j.(stage := Asked))])
      && (Idle(net[j.from], Discoverer) ==> Leads(w, net, net[n := WithJob(x, k, j.(stage := Heard))]))
  {
    hide Leads;
    disk, rest := UpToNeed(w, net, n, k, c);
    var x, j := net[n].(disk := disk), net[n].inbox[k].(changes := rest);
    var needing := net[n := WithJob(x, k, j)];
    OthersWait(x, k, j);
    OneEvent(w, needing, Ask(n, k));
    var asked := net[n := WithJob(x, k, j.(stage := Asked))];
    WithJobTwice(x, k, j, j.(stage := Asked), disk);
    assert Do(w, needing, Ask(n, k)) == asked;
    Onwards(w, net, needing, asked);
    if Idle(net[j.from], Discoverer) {
      AskAndHear(w, needing, n, k);
      WithJobTwice(x, k, j, j.(stage := Heard), disk);
      var heard := net[n := WithJob(x, k, j.(stage := Heard))];
      assert needing[n := WithJob(needing[n], k, j.(stage := Heard))] == heard;
      Onwards(w, net, needing, heard);
    }
  }

  // ---- Two handlers that ask each other ----

  /** A broadcast that its receiver has to ask for. */
  ghost predicate Asking<C>(w: World<C>, net: Net<C>, n: nat, k: nat, from: nat, c: Change) {
    && At(net, n, k) && net[n].inbox[k].thread == Handler && net[n].inbox[k].stage == Sent
    && net[n].inbox[k].from == from && c in net[n].inbox[k].changes && Needs(w, net[n].disk, c)
  }

  /** A thread, the only busy one of its node, waits for a thread of another node. */
  ghost predicate WaitsFor<C>(x: Node<C>, k: nat, t: Thread, from: nat, other: Thread) {
    && k < |x.inbox| && x.inbox[k].thread == t && x.inbox[k].from == from
    && ((x.inbox[k].stage == Heard && other == Handler) || (x.inbox[k].stage == Asked && other == Discoverer))
    && forall l | 0 <= l < |x.inbox| && l != k :: !Busy(x.inbox[l])
  }

  lemma AskNews<C>(w: World<C>, net: Net<C>, n: nat, k: nat, from: nat, c: Change, other: Thread) returns (y: Node<C>)
    requires Asking(w, net, n, k, from, c) && from != n && from < |net| && Resting(net[n])
    requires other == Discoverer || (other == Handler && Idle(net[from], Discoverer))
    ensures Leads(w, net, net[n := y]) && WaitsFor(y, k, Handler, from, other)
  {
    hide Leads;
    var x, j := net[n], net[n].inbox[k];
    var open := net[n := WithJob(x, k, j.(stage := Open))];
    OpenNews(w, net, n, k);
    var disk, rest := AskFirst(w, open, n, k, c);
    y := WithJob(x.(disk := disk), k, j.(changes := rest, stage := if other == Handler then Heard else Asked));
    WithJobTwice(x, k, open[n].inbox[k], y.inbox[k], disk);
    assert open[n := WithJob(open[n].(disk := disk), k, y.inbox[k])] == net[n := y];
    Onwards(w, net, open, net[n := y]);
  }

  lemma MutualKnot<C>(net: Net<C>, b: nat, kb: nat, tb: Thread, c: nat, kc: nat, tc: Thread)
    requires b < |net| && c < |net| && WaitsFor(net[b], kb, tb, c, tc) && WaitsFor(net[c], kc, tc, b, tb)
    ensures Knot(net, {(b, tb), (c, tc)})
  {
    var knot: set<(nat, Thread)> := {(b, tb), (c, tc)};
    forall n, t | (n, t) in knot
      ensures n < |net| && InHand(net[n], t)
    {
      assert net[b].inbox[kb] in net[b].inbox && net[c].inbox[kc] in net[c].inbox;
    }
  }

  /** Two nodes that each have a file the other has just announced to them can end up waiting for each other. */
  lemma Crossed<C>(w: World<C>, net: Net<C>, b: nat, kb: nat, forB: Change, c: nat, kc: nat, forC: Change)
    returns (next: Net<C>)
    requires b != c && b < |net| && c < |net| && Resting(net[b]) && Resting(net[c])
    requires Asking(w, net, b, kb, c, forB) && Asking(w, net, c, kc, b, forC)
    ensures Leads(w, net, next) && Knotted(next)
  {
    hide Leads;
    var y := AskNews(w, net, b, kb, c, forB, Handler);
    var mid := net[b := y];
    var z := AskNews(w, mid, c, kc, b, forC, Handler);
    next := mid[c := z];
    Onwards(w, net, mid, next);
    MutualKnot(next, b, kb, Handler, c, kc, Handler);
  }

  /** A node scans and, at rest, broadcasts at once. */
  ghost function Spoken<C>(r: Rules<C>, net: Net<C>, n: nat): Net<C>
    requires n < |net|
  {
    seq(|net|, (i: nat) requires i < |net| =>
      if i == n then Flushed(Scanned(r, net[n])) else Receives(net[i], News(n, net[n].buf + Found(r, net[n]))))
  }

  lemma Speak<C>(w: World<C>, net: Net<C>, n: nat)
    requires n < |net| && Free(net[n]) && Idle(net[n], Handler) && Found(w.rules, net[n]) != []
    ensures Leads(w, net, Spoken(w.rules, net, n))
  {
    hide Leads, Found, Apply;
    var mid := net[n := Scanned(w.rules, net[n])];
    OneEvent(w, net, Scan(n));
    assert Do(w, net, Scan(n)) == mid;
    assert mid[n].buf == net[n].buf + Found(w.rules, net[n]);
    OneEvent(w, mid, Flush(n));
    assert Do(w, mid, Flush(n)) == Spoken(w.rules, net, n);
    Onwards(w, net, mid, Spoken(w.rules, net, n));
  }

  lemma SpokenIs<C>(r: Rules<C>, net: Net<C>, n: nat, said: seq<Change>)
    requires n < |net| && net[n].buf == [] && Found(r, net[n]) == said
    ensures |Spoken(r, net, n)| == |net|
    ensures Spoken(r, net, n)[n]
         == net[n].(snapshot := TableOf(r, net[n].disk), table := Apply(net[n].table, said))
    ensures forall i | 0 <= i < |net| && i != n :: Spoken(r, net, n)[i] == Receives(net[i], News(n, said))
  {
    hide Found, Apply, TableOf;
    assert [] + said == said;
  }

  lemma SpokenRests<C>(r: Rules<C>, net: Net<C>, n: nat)
    requires n < |net| && AllResting(net)
    ensures AllResting(Spoken(r, net, n))
  {
    hide Found, Apply, TableOf;
    forall i | 0 <= i < |net|
      ensures Resting(Spoken(r, net, n)[i])
    {
      assert Resting(net[i]);
    }
  }

  /** Two nodes at rest that have each noticed a file the other would ask for can block each other. */
  lemma BothSpeak<C>(w: World<C>, net: Net<C>, b: nat, c: nat, forB: Change, forC: Change) returns (next: Net<C>)
    requires b != c && b < |net| && c < |net| && Resting(net[b]) && Resting(net[c])
    requires forB in Found(w.rules, net[c]) && Needs(w, net[b].disk, forB)
    requires forC in Found(w.rules, net[b]) && Needs(w, net[c].disk, forC)
    ensures Leads(w, net, next) && Knotted(next)
  {
    hide Leads, Found, Needs, Knotted, Apply;
    var one := Spoken(w.rules, net, b);
    Speak(w, net, b);
    assert one[c].disk == net[c].disk && one[c].snapshot == net[c].snapshot && Resting(one[c]);
    SameFound(w.rules, net[c], one[c]);
    var two := Spoken(w.rules, one, c);
    Speak(w, one, c);
    Onwards(w, net, one, two);
    var kb, kc := |net[b].inbox|, |net[c].inbox|;
    assert two[b] == Receives(one[b], News(c, one[c].buf + Found(w.rules, one[c])));
    assert two[b].inbox[kb] == News(c, one[c].buf + Found(w.rules, one[c]));
    assert two[c].inbox[kc] == News(b, net[b].buf + Found(w.rules, net[b]));
    assert Asking(w, two, b, kb, c, forB) && Asking(w, two, c, kc, b, forC);
    next := Crossed(w, two, b, kb, forB, c, kc, forC);
    Onwards(w, net, two, next);
  }

  lemma SameFound<C>(r: Rules<C>, x: Node<C>, y: Node<C>)
    requires x.disk == y.disk && x.snapshot == y.snapshot
    ensures Found(r, x) == Found(r, y)
  {
  }

  // ---- What events leave alone ----

  /** Only a pull changes a disk. */
  lemma DisksStay<C>(w: World<C>, net: Net<C>, e: Event)
    requires Enabled(w, net, e) && !e.Next? && !e.Serve?
    ensures |Do(w, net, e)| == |net| && forall i | 0 <= i < |net| :: Do(w, net, e)[i].disk == net[i].disk
  {
    hide Pull, Requests, Found, Needs, PacketCodec.OnTheWire, Apply, TableOf;
  }

  lemma DisksPulled<C>(w: World<C>, net: Net<C>, e: Event)
    requires Enabled(w, net, e) && (e.Next? || e.Serve?) && net[e.n].inbox[e.k].from < |net|
    ensures
      var x, j := net[e.n], net[e.n].inbox[e.k];
      exists y: Node<C> :: Do(w, net, e) == net[e.n := y]
        && (y.disk == Pull(w.rules, x.disk, x.disk, j.changes[0])
            || y.disk == Pull(w.rules, x.disk, net[j.from].disk, j.changes[0]))
  {
    hide Pull, Needs;
    assert Do(w, net, e) == net[e.n := Stepped(w, net, e)];
  }

  lemma HasChanges<C>(w: World<C>, net: Net<C>, e: Event)
    requires Enabled(w, net, e) && (e.Next? || e.Serve?)
    ensures At(net, e.n, e.k) && Busy(net[e.n].inbox[e.k]) && net[e.n].inbox[e.k].changes != []
  {
  }

  /** Where an event leaves a node's messages. */
  lemma SameSenders<C>(w: World<C>, net: Net<C>, e: Event)
    requires Enabled(w, net, e) && !e.Flush? && !e.Scan?
    ensures Do(w, net, e)[e.n].snapshot == net[e.n].snapshot && Do(w, net, e)[e.n].buf == net[e.n].buf
    ensures forall j | j in Do(w, net, e)[e.n].inbox ::
              j in net[e.n].inbox || (j.from == net[e.n].inbox[e.k].from && j.thread == net[e.n].inbox[e.k].thread)
  {
    hide Found, Requests, Pull, Needs, PacketCodec.OnTheWire;
  }

  lemma OnlyTheSender<C>(w: World<C>, net: Net<C>, e: Event)
    requires Enabled(w, net, e) && !e.Flush? && !e.Scan? && e.n != net[e.n].inbox[e.k].from < |net|
    ensures
      var next, f := Do(w, net, e), net[e.n].inbox[e.k].from;
      && next == net[e.n := next[e.n]][f := next[f]]
      && (forall j | j in next[f].inbox :: j in net[f].inbox || j.thread == Manager)
      && (net[e.n].inbox[e.k].thread != Discoverer ==> next[f] == net[f])
  {
    hide Found, Requests, Pull, Needs, PacketCodec.OnTheWire;
  }

  lemma AtEvent<C>(w: World<C>, net: Net<C>, e: Event)
    requires Enabled(w, net, e) && !e.Scan? && !e.Flush?
    ensures At(net, e.n, e.k)
  {
  }

  // ---- One message at a time ----

  predicate AllResting<C>(net: Net<C>) {
    forall n | 0 <= n < |net| :: Resting(net[n])
  }

  lemma WithJobRests<C>(x: Node<C>, k: nat, j: Job)
    requires Resting(x) && k < |x.inbox| && !Busy(j)
    ensures Resting(WithJob(x, k, j))
  {
  }

  lemma WithoutJobRests<C>(x: Node<C>, k: nat)
    requires k < |x.inbox| && forall l | 0 <= l < |x.inbox| && l != k :: !Busy(x.inbox[l])
    ensures Resting(WithoutJob(x, k))
  {
    var y := WithoutJob(x, k);
    assert forall i | 0 <= i < |y.inbox| :: y.inbox[i] == x.inbox[if i < k then i else i + 1];
  }

  lemma FlushRests<C>(w: World<C>, net: Net<C>, n: nat)
    requires AllResting(net) && Enabled(w, net, Flush(n))
    ensures AllResting(Do(w, net, Flush(n)))
  {
    var next := Do(w, net, Flush(n));
    forall i | 0 <= i < |next|
      ensures Resting(next[i])
    {
      assert Resting(net[i]);
    }
  }

  /** Events of a network at rest leave it at rest, but for the opening of a message. */
  lemma RestStep<C>(w: World<C>, net: Net<C>, e: Event)
    requires AllResting(net) && Enabled(w, net, e) && !e.Take?
    ensures AllResting(Do(w, net, e))
  {
    hide Found, Needs, Pull, Requests, TableOf, Apply;
    assert Resting(net[e.n]);
    if e.Flush? {
      FlushRests(w, net, e.n);
    } else if MovesOn(e) {
      WithJobRests(net[e.n], e.k, net[e.n].inbox[e.k].(stage := StageAfter(e)));
    } else if e.Replace? {
      var posted := net[e.n].inbox[e.k].(stage := Posted);
      WithJobRests(net[e.n], e.l, posted);
      WithoutJobRests(WithJob(net[e.n], e.l, posted), e.k);
    }
  }

  /** A message that is opened can be worked off at once. */
  lemma TakeAndWorkOff<C>(w: World<C>, net: Net<C>, n: nat, k: nat) returns (next: Net<C>)
    requires AllResting(net) && Enabled(w, net, Take(n, k)) && n != net[n].inbox[k].from < |net|
    ensures Leads(w, net, next) && AllResting(next) && next != net
  {
    hide Leads, PacketCodec.OnTheWire, Requests;
    var x, f := net[n], net[n].inbox[k].from;
    assert Resting(net[n]) && Resting(net[f]);
    var mid := Do(w, net, Take(n, k));
    OneEvent(w, net, Take(n, k));
    assert mid[n] == WithJob(x, k, Opened(w, x, x.inbox[k])) && Resting(mid[f]);
    WorkOff(w, mid, n, k);
    next := mid[n := Done(w, mid[n], k, mid[f].disk)];
    Onwards(w, net, mid, next);
    WithoutJobRests(mid[n].(disk := next[n].disk), k);
    assert |next[n].inbox| < |net[n].inbox|;
  }

  /** Some run always settles: from a network at rest, the one that works off a message at a time. */
  lemma {:induction false} Settles<C>(sc: Scene<C>, net: Net<C>) returns (last: Net<C>)
    requires Inv(sc, net) && AllResting(net)
    ensures Leads(sc.w, net, last) && Quiet(sc.w.rules, last)
    decreases Measure(sc, net)
  {
    hide Measure, Leads, Do;
    MeasureIsNatural(sc, net);
    LeadsNowhere(sc.w, net);
    if Over(sc.w, net) {
      QuietOrKnotted(sc.w, net);
      RestIsNoKnot(net);
      last := net;
    } else {
      var e :| Enabled(sc.w, net, e);
      var next := Do(sc.w, net, e);
      if e.Take? {
        JobFacts(sc, net, e.n, e.k);
        next := TakeAndWorkOff(sc.w, net, e.n, e.k);
      } else {
        OneEvent(sc.w, net, e);
        RestStep(sc.w, net, e);
        EventLowers(sc, net, e);
      }
      LeadsKeepsInv(sc, net, next);
      last := Settles(sc, next);
      Onwards(sc.w, net, next, last);
    }
  }

  lemma RestIsNoKnot<C>(net: Net<C>)
    requires AllResting(net)
    ensures !Knotted(net)
  {
    if knot: set<(nat, Thread)> :| Knot(net, knot) {
      var pair :| pair in knot;
      assert (pair.0, pair.1) in knot;
      assert InHand(net[pair.0], pair.1) && Resting(net[pair.0]);
    }
  }
}

/** A node of the network is the pipeline of `WatchPipeline`: every run of the network, seen from one node, is a run of
    that machine, in which a request under way is a pull that holds `dirLock`. */
module NodePipeline {
  import opened Base
  import opened DirectoryDiff
  import opened RequestFiles
  import opened Network
  import PacketCodec
  import W = WatchPipeline

  /** The thread that waits for a file holds the lock. */
  function Lock<C>(x: Node<C>): W.Owner {
    if exists j :: j in x.inbox && (j.stage == Asked || j.stage == Heard) then W.Puller else W.Nobody
  }

  /** What the pipeline sees of a node: hashes in place of files, watcher and handler between two sections. */
  function Pipeline<C>(r: Rules<C>, x: Node<C>, sent: seq<seq<Change>>, log: seq<Change>): W.Sys {
    W.Sys(TableOf(r, x.disk), x.snapshot, x.table, x.buf, sent, log, Lock(x), W.WatcherIdle, W.HandlerIdle)
  }

  /** What node `n` does in an event, as steps of the pipeline. */
  function Section<C>(w: World<C>, net: Net<C>, e: Event, n: nat): seq<W.Action>
    requires Enabled(w, net, e) && n < |net|
  {
    if e.n != n then [] else
    var files := TableOf(w.rules, Do(w, net, e)[n].disk);
    match e
    case Scan(_) => [W.LockToScan, W.Scan, W.Insert, W.UnlockScan]
    case Flush(_) => W.FlushActions(|net[n].buf|)
    case Next(_, _) => [W.LockToPull, W.Pull(files), W.UnlockPull]
    case Ask(_, _) => [W.LockToPull]
    case Serve(_, _) => [W.Pull(files), W.UnlockPull]
    case _ => []
  }

  /** Broadcasts and detected changes of node `n` after an event. */
  function SentAfter<C>(net: Net<C>, e: Event, n: nat, sent: seq<seq<Change>>): seq<seq<Change>>
    requires n < |net|
  {
    if e == Flush(n) then sent + [net[n].buf] else sent
  }

  function LogAfter<C>(w: World<C>, net: Net<C>, e: Event, n: nat, log: seq<Change>): seq<Change>
    requires n < |net|
  {
    if e == Scan(n) then log + SnapshotDiff(net[n].snapshot, TableOf(w.rules, net[n].disk)) else log
  }

  // ---- The lock ----

  lemma LockIsFree<C>(x: Node<C>)
    ensures Lock(x) == W.Nobody <==> Free(x)
  {
    if j :| j in x.inbox && Waits(j) {
      var k :| 0 <= k < |x.inbox| && x.inbox[k] == j;
    }
  }

  lemma LockStays<C>(x: Node<C>, k: nat, j: Job)
    requires k < |x.inbox| && (Waits(j) <==> Waits(x.inbox[k]))
    ensures Lock(WithJob(x, k, j)) == Lock(x)
  {
    var y := WithJob(x, k, j);
    LockIsFree(x);
    LockIsFree(y);
    assert forall l | 0 <= l < |x.inbox| :: Waits(x.inbox[l]) <==> Waits(y.inbox[l]);
  }

  lemma OthersAreKept<C>(x: Node<C>, k: nat, j: Job, i: Job)
    requires k < |x.inbox| && i != x.inbox[k]
    ensures i in x.inbox ==> i in WithJob(x, k, j).inbox
    ensures i in x.inbox <==> i in WithoutJob(x, k).inbox
  {
    assert x.inbox == x.inbox[..k] + [x.inbox[k]] + x.inbox[k + 1..];
    assert WithJob(x, k, j).inbox == x.inbox[..k] + [j] + x.inbox[k + 1..];
  }

  lemma LockWithout<C>(x: Node<C>, k: nat)
    requires k < |x.inbox| && !Waits(x.inbox[k])
    ensures Lock(WithoutJob(x, k)) == Lock(x)
  {
    var y := WithoutJob(x, k);
    forall j | Waits(j)
      ensures j in x.inbox <==> j in y.inbox
    {
      OthersAreKept(x, k, j, j);
    }
  }

  lemma LockReceives<C>(x: Node<C>, j: Job)
    requires !Waits(j)
    ensures Lock(Receives(x, j)) == Lock(x)
  {
    assert forall i :: i in Receives(x, j).inbox <==> i in x.inbox || i == j;
  }

  /** A job that goes on waits, or is the one that waited. */
  lemma LockTurns<C>(x: Node<C>, k: nat, j: Job)
    requires k < |x.inbox| && !Waits(j) && forall l | 0 <= l < |x.inbox| && l != k :: !Waits(x.inbox[l])
    ensures Lock(WithJob(x, k, j)) == W.Nobody
  {
    LockIsFree(WithJob(x, k, j));
  }

  // ---- One event ----

  lemma ElsewhereFlush<C>(w: World<C>, net: Net<C>, e: Event, n: nat)
    requires Enabled(w, net, e) && n < |net| && e.n != n && e.Flush?
    ensures Pipeline(w.rules, Do(w, net, e)[n], [], []) == Pipeline(w.rules, net[n], [], [])
  {
    hide Lock, TableOf;
    LockReceives(net[n], News(e.n, net[e.n].buf));
  }

  lemma ElsewhereTake<C>(w: World<C>, net: Net<C>, e: Event, n: nat)
    requires Enabled(w, net, e) && n < |net| && e.n != n && e.Take?
    ensures Pipeline(w.rules, Do(w, net, e)[n], [], []) == Pipeline(w.rules, net[n], [], [])
  {
    hide Lock, TableOf, Requests, PacketCodec.OnTheWire;
    LockReceives(net[n], Answer(e.n, PacketCodec.OnTheWire(net[e.n].table)));
  }

  /** What happens at another node leaves the pipeline of this one alone. */
  lemma Elsewhere<C>(w: World<C>, net: Net<C>, e: Event, n: nat)
    requires Enabled(w, net, e) && n < |net| && e.n != n
    ensures Pipeline(w.rules, Do(w, net, e)[n], [], []) == Pipeline(w.rules, net[n], [], [])
  {
    hide Lock, TableOf, Stepped, Enabled;
    if e.Flush? {
      ElsewhereFlush(w, net, e, n);
    } else if e.Take? {
      ElsewhereTake(w, net, e, n);
    }
  }

  lemma TakeHere<C>(w: World<C>, net: Net<C>, n: nat, k: nat)
    requires Enabled(w, net, Take(n, k))
    ensures Pipeline(w.rules, Do(w, net, Take(n, k))[n], [], []) == Pipeline(w.rules, net[n], [], [])
  {
    hide Lock, TableOf, Requests, PacketCodec.OnTheWire;
    LockStays(net[n], k, Opened(w, net[n], net[n].inbox[k]));
  }

  lemma ReplaceHere<C>(w: World<C>, net: Net<C>, n: nat, k: nat, l: nat)
    requires Enabled(w, net, Replace(n, k, l))
    ensures Pipeline(w.rules, Do(w, net, Replace(n, k, l))[n], [], []) == Pipeline(w.rules, net[n], [], [])
  {
    hide Lock, TableOf;
    var x := net[n];
    LockStays(x, l, x.inbox[k].(stage := Posted));
    LockWithout(WithJob(x, l, x.inbox[k].(stage := Posted)), k);
  }

  /** Messages move, the pipeline stays. */
  lemma MessagesMove<C>(w: World<C>, net: Net<C>, e: Event)
    requires Enabled(w, net, e) && (e.Collect? || e.Post? || e.Replace? || e.Take? || e.Hear? || e.Finish?)
    ensures Pipeline(w.rules, Do(w, net, e)[e.n], [], []) == Pipeline(w.rules, net[e.n], [], [])
  {
    hide Lock, TableOf, Pull, Requests, PacketCodec.OnTheWire;
    var x := net[e.n];
    if e.Take? {
      TakeHere(w, net, e.n, e.k);
    } else if e.Replace? {
      ReplaceHere(w, net, e.n, e.k, e.l);
    } else if e.Finish? {
      LockWithout(x, e.k);
    } else {
      LockStays(x, e.k, x.inbox[e.k].(stage := StageAfter(e)));
    }
  }

  /** A request that is sent takes the lock and nothing else. */
  lemma AskHere<C>(w: World<C>, net: Net<C>, n: nat, k: nat)
    requires Enabled(w, net, Ask(n, k))
    ensures Lock(net[n]) == W.Nobody
    ensures Pipeline(w.rules, Do(w, net, Ask(n, k))[n], [], [])
         == Pipeline(w.rules, net[n], [], []).(lock := W.Puller)
  {
    hide TableOf;
    LockIsFree(net[n]);
    var y := Do(w, net, Ask(n, k))[n];
    assert y.inbox[k] in y.inbox && Waits(y.inbox[k]);
  }

  /** A change dealt with leaves the lock free; only the disk is another. */
  lemma PullHere<C>(w: World<C>, net: Net<C>, e: Event)
    requires Shape(net) && Enabled(w, net, e) && (e.Next? || e.Serve?)
    ensures Lock(net[e.n]) == if e.Next? then W.Nobody else W.Puller
    ensures
      var y := Do(w, net, e)[e.n];
      Pipeline(w.rules, y, [], [])
        == Pipeline(w.rules, net[e.n], [], []).(directory := TableOf(w.rules, y.disk), lock := W.Nobody)
  {
    hide TableOf, Pull, Needs;
    var n, k, x := e.n, e.k, net[e.n];
    LockIsFree(x);
    assert NodeShape(|net|, n, x);
    assert x.inbox[k] in x.inbox;
    assert forall l | 0 <= l < |x.inbox| && l != k :: !Waits(x.inbox[l]);
    var y := Do(w, net, e)[n];
    LockTurns(x.(disk := y.disk), k, y.inbox[k]);
  }

  lemma {:induction false} RunTwo(s: W.Sys, a: W.Action, b: W.Action)
    requires W.Enabled(s, a) && W.Enabled(W.Do(s, a), b)
    ensures W.Run(s, [a, b]) == Some(W.Do(W.Do(s, a), b))
  {
    W.RunOne(W.Do(s, a), b);
    assert [a, b][1..] == [b];
  }

  lemma {:induction false} RunThree(s: W.Sys, a: W.Action, b: W.Action, c: W.Action)
    requires W.Enabled(s, a) && W.Enabled(W.Do(s, a), b) && W.Enabled(W.Do(W.Do(s, a), b), c)
    ensures W.Run(s, [a, b, c]) == Some(W.Do(W.Do(W.Do(s, a), b), c))
  {
    RunTwo(W.Do(s, a), b, c);
    assert [a, b, c][1..] == [b, c];
  }

  lemma SameBut<C>(r: Rules<C>, x: Node<C>, y: Node<C>, sent: seq<seq<Change>>, log: seq<Change>)
    ensures Pipeline(r, x, sent, log) == Pipeline(r, x, [], []).(sent := sent, log := log)
    ensures Pipeline(r, x, [], []) == Pipeline(r, y, [], []) ==> Pipeline(r, x, sent, log) == Pipeline(r, y, sent, log)
  {
  }

  lemma {:induction false} ScanAndFlush<C>(
    w: World<C>, net: Net<C>, e: Event, sent: seq<seq<Change>>, log: seq<Change>)
    requires Enabled(w, net, e) && (e.Scan? || e.Flush?)
    ensures W.Run(Pipeline(w.rules, net[e.n], sent, log), Section(w, net, e, e.n))
         == Some(Pipeline(w.rules, Do(w, net, e)[e.n], SentAfter(net, e, e.n, sent), LogAfter(w, net, e, e.n, log)))
  {
    hide TableOf, Apply, W.Run, W.FlushActions, Lock;
    var n, x := e.n, net[e.n];
    LockIsFree(x);
    if e.Scan? {
      W.ScanIsItsSteps(Pipeline(w.rules, x, sent, log));
      LockIsFree(Scanned(w.rules, x));
    } else {
      W.FlushIsItsSteps(Pipeline(w.rules, x, sent, log));
      LockIsFree(Flushed(x));
    }
  }

  lemma {:induction false} Pulls<C>(w: World<C>, net: Net<C>, e: Event, sent: seq<seq<Change>>, log: seq<Change>)
    requires Shape(net) && Enabled(w, net, e) && (e.Ask? || e.Next? || e.Serve?)
    ensures W.Run(Pipeline(w.rules, net[e.n], sent, log), Section(w, net, e, e.n))
         == Some(Pipeline(w.rules, Do(w, net, e)[e.n], sent, log))
  {
    hide Enabled, Do, TableOf, Lock, Shape, W.Run;
    var next := Do(w, net, e);
    var n, x, y := e.n, net[e.n], next[e.n];
    var s, files := Pipeline(w.rules, x, sent, log), TableOf(w.rules, y.disk);
    SameBut(w.rules, x, y, sent, log);
    SameBut(w.rules, y, x, sent, log);
    if e.Ask? {
      AskHere(w, net, n, e.k);
      W.RunOne(s, W.LockToPull);
    } else {
      PullHere(w, net, e);
      if e.Next? {
        RunThree(s, W.LockToPull, W.Pull(files), W.UnlockPull);
      } else {
        RunTwo(s, W.Pull(files), W.UnlockPull);
      }
    }
  }

  /** An event of the network, seen from any node, is a run of the pipeline: a section of the watcher or the handler
      taken without a break, part of a pull, or nothing. */
  lemma {:induction false} EventIsSection<C>(
    w: World<C>, net: Net<C>, e: Event, n: nat, sent: seq<seq<Change>>, log: seq<Change>)
    requires Shape(net) && Enabled(w, net, e) && n < |net|
    ensures W.Run(Pipeline(w.rules, net[n], sent, log), Section(w, net, e, n))
         == Some(Pipeline(w.rules, Do(w, net, e)[n], SentAfter(net, e, n, sent), LogAfter(w, net, e, n, log)))
  {
    hide Enabled, Do, Pipeline, Shape;
    SameBut(w.rules, Do(w, net, e)[n], net[n], sent, log);
    if e.n != n {
      Elsewhere(w, net, e, n);
    } else if e.Scan? || e.Flush? {
      ScanAndFlush(w, net, e, sent, log);
    } else if e.Ask? || e.Next? || e.Serve? {
      Pulls(w, net, e, sent, log);
    } else {
      MessagesMove(w, net, e);
    }
  }

  // ---- Whole runs ----

  /** What node `n` does in a run, what it broadcasts, what its watcher detects. */
  function Sections<C>(w: World<C>, net: Net<C>, events: seq<Event>, n: nat): seq<W.Action>
    requires n < |net|
    decreases events
  {
    if events == [] || !Enabled(w, net, events[0]) then []
    else Section(w, net, events[0], n) + Sections(w, Do(w, net, events[0]), events[1..], n)
  }

  function Broadcasts<C>(w: World<C>, net: Net<C>, events: seq<Event>, n: nat): seq<seq<Change>>
    requires n < |net|
    decreases events
  {
    if events == [] || !Enabled(w, net, events[0]) then []
    else SentAfter(net, events[0], n, []) + Broadcasts(w, Do(w, net, events[0]), events[1..], n)
  }

  function Detected<C>(w: World<C>, net: Net<C>, events: seq<Event>, n: nat): seq<Change>
    requires n < |net|
    decreases events
  {
    if events == [] || !Enabled(w, net, events[0]) then []
    else LogAfter(w, net, events[0], n, []) + Detected(w, Do(w, net, events[0]), events[1..], n)
  }

  lemma AfterIs<C>(w: World<C>, net: Net<C>, e: Event, n: nat, sent: seq<seq<Change>>, log: seq<Change>)
    requires n < |net|
    ensures SentAfter(net, e, n, sent) == sent + SentAfter(net, e, n, [])
    ensures LogAfter(w, net, e, n, log) == log + LogAfter(w, net, e, n, [])
  {
    hide TableOf, SnapshotDiff;
    assert sent + [] == sent && log + [] == log;
    assert [] + [net[n].buf] == [net[n].buf];
    var found := SnapshotDiff(net[n].snapshot, TableOf(w.rules, net[n].disk));
    assert [] + found == found;
  }

  /** Every run of the network, seen from one node, is a run of the pipeline machine. Its lock is held exactly while a
      request of the node is under way, its broadcasts are what the node flushed, its log is what the node detected. */
  lemma {:induction false} RunIsPipelineRun<C>(
    w: World<C>, net: Net<C>, events: seq<Event>, n: nat, sent: seq<seq<Change>>, log: seq<Change>)
    requires Shape(net) && Run(w, net, events).Some? && n < |net|
    ensures |Run(w, net, events).value| == |net|
    ensures W.Run(Pipeline(w.rules, net[n], sent, log), Sections(w, net, events, n))
         == Some(Pipeline(w.rules, Run(w, net, events).value[n],
                          sent + Broadcasts(w, net, events, n), log + Detected(w, net, events, n)))
    decreases events
  {
    hide Pipeline, Section, SentAfter, LogAfter, Shape, Enabled, Do;
    if events == [] {
      assert sent + [] == sent && log + [] == log;
    } else {
      var e, rest := events[0], events[1..];
      RunUnrolled(w, net, events);
      var next := Do(w, net, e);
      EventKeepsShape(w, net, e);
      EventIsSection(w, net, e, n, sent, log);
      var sent', log' := SentAfter(net, e, n, sent), LogAfter(w, net, e, n, log);
      RunIsPipelineRun(w, next, rest, n, sent', log');
      AfterIs(w, net, e, n, sent, log);
      Regroup(sent, SentAfter(net, e, n, []), Broadcasts(w, next, rest, n));
      Regroup(log, LogAfter(w, net, e, n, []), Detected(w, next, rest, n));
      W.RunConcat(Pipeline(w.rules, net[n], sent, log), Section(w, net, e, n), Sections(w, next, rest, n));
    }
  }

  // ---- What that gives ----

  /** Agreement over every run of the network, whatever the other nodes do: whenever no request of the node is under
      way, replaying its buffer onto its table gives its snapshot at a path if and only if the path agreed at the start
      or was detected as changed since; and broadcasts and buffer are what was detected, once each, in order. */
  lemma {:induction false} NodesAgree<C>(w: World<C>, net: Net<C>, events: seq<Event>, n: nat)
    requires Shape(net) && Run(w, net, events).Some? && n < |net| && net[n].buf == [] && Free(net[n])
    ensures |Run(w, net, events).value| == |net|
    ensures
      var x := Run(w, net, events).value[n];
      var seen := Detected(w, net, events, n);
      Free(x) ==>
        && (forall p :: Get(Apply(x.table, x.buf), p) == Get(x.snapshot, p)
             <==> Get(net[n].table, p) == Get(net[n].snapshot, p) || Mentions(seen, p))
        && W.Flatten(Broadcasts(w, net, events, n)) + x.buf == seen
  {
    hide Broadcasts, Detected, Sections, Shape, Run;
    RunIsPipelineRun(w, net, events, n, [], []);
    var x, s0 := Run(w, net, events).value[n], Pipeline(w.rules, net[n], [], []);
    LockIsFree(net[n]);
    LockIsFree(x);
    W.AgreementOverAllRuns(s0, Sections(w, net, events, n));
    assert [] + Broadcasts(w, net, events, n) == Broadcasts(w, net, events, n);
    assert [] + Detected(w, net, events, n) == Detected(w, net, events, n);
  }

  predicate ServesAt(events: seq<Event>, n: nat) {
    exists e :: e in events && e.Serve? && e.n == n
  }

  /** The request for this job's next change is under way. */
  predicate UnderWay<C>(x: Node<C>, j: Job) {
    j.(stage := Asked) in x.inbox || j.(stage := Heard) in x.inbox
  }

  lemma UnderWayIsLocked<C>(x: Node<C>, j: Job)
    requires UnderWay(x, j)
    ensures Lock(x) == W.Puller && !Free(x)
  {
    assert Waits(j.(stage := Asked)) && Waits(j.(stage := Heard));
    LockIsFree(x);
  }

  lemma UnderWayElsewhere<C>(w: World<C>, net: Net<C>, e: Event, n: nat, j: Job)
    requires Enabled(w, net, e) && n < |net| && UnderWay(net[n], j) && e.n != n
    ensures
      var x, y := net[n], Do(w, net, e)[n];
      UnderWay(y, j) && y.disk == x.disk && y.snapshot == x.snapshot && y.table == x.table && y.buf == x.buf
  {
    hide Stepped, TableOf, Requests, PacketCodec.OnTheWire;
  }

  lemma UnderWayHere<C>(w: World<C>, net: Net<C>, e: Event, j: Job)
    requires Enabled(w, net, e) && UnderWay(net[e.n], j) && (e.Collect? || e.Post? || e.Take? || e.Finish?)
    ensures
      var x, y := net[e.n], Do(w, net, e)[e.n];
      UnderWay(y, j) && y.disk == x.disk && y.snapshot == x.snapshot && y.table == x.table && y.buf == x.buf
  {
    hide TableOf, Requests, PacketCodec.OnTheWire;
    var x := net[e.n];
    var moved := x.inbox[e.k].(stage := if e.Post? then Posted else Queued);
    var after := if e.Take? then Opened(w, x, x.inbox[e.k]) else moved;
    OthersAreKept(x, e.k, after, j.(stage := Asked));
    OthersAreKept(x, e.k, after, j.(stage := Heard));
  }

  lemma UnderWayReplace<C>(w: World<C>, net: Net<C>, e: Event, j: Job)
    requires Enabled(w, net, e) && UnderWay(net[e.n], j) && e.Replace?
    ensures
      var x, y := net[e.n], Do(w, net, e)[e.n];
      UnderWay(y, j) && y.disk == x.disk && y.snapshot == x.snapshot && y.table == x.table && y.buf == x.buf
  {
    var x := net[e.n];
    var posted := x.inbox[e.k].(stage := Posted);
    forall i | i == j.(stage := Asked) || i == j.(stage := Heard)
      ensures i in x.inbox ==> i in Do(w, net, e)[e.n].inbox
    {
      OthersAreKept(x, e.l, posted, i);
      OthersAreKept(WithJob(x, e.l, posted), e.k, i, i);
    }
  }

  lemma UnderWayHeard<C>(w: World<C>, net: Net<C>, e: Event, j: Job)
    requires Enabled(w, net, e) && UnderWay(net[e.n], j) && e.Hear?
    ensures
      var x, y := net[e.n], Do(w, net, e)[e.n];
      UnderWay(y, j) && y.disk == x.disk && y.snapshot == x.snapshot && y.table == x.table && y.buf == x.buf
  {
    var x, y := net[e.n], Do(w, net, e)[e.n];
    var heard := x.inbox[e.k].(stage := Heard);
    assert y.inbox[e.k] == heard;
    if x.inbox[e.k] == j.(stage := Asked) {
      assert heard == j.(stage := Heard);
    } else {
      OthersAreKept(x, e.k, heard, j.(stage := Asked));
      OthersAreKept(x, e.k, heard, j.(stage := Heard));
    }
  }

  lemma WaitingStays<C>(w: World<C>, net: Net<C>, e: Event, n: nat, j: Job)
    requires Enabled(w, net, e) && n < |net| && UnderWay(net[n], j) && !(e.Serve? && e.n == n)
    ensures
      var x, y := net[n], Do(w, net, e)[n];
      UnderWay(y, j) && y.disk == x.disk && y.snapshot == x.snapshot && y.table == x.table && y.buf == x.buf
  {
    hide UnderWay, Do, Idle, Found, Needs, Free;
    UnderWayIsLocked(net[n], j);
    if e.n != n {
      UnderWayElsewhere(w, net, e, n, j);
    } else if e.Replace? {
      UnderWayReplace(w, net, e, j);
    } else if e.Hear? {
      UnderWayHeard(w, net, e, j);
    } else {
      UnderWayHere(w, net, e, j);
    }
  }

  lemma {:induction false} WaitingRun<C>(w: World<C>, net: Net<C>, events: seq<Event>, n: nat, j: Job)
    requires Shape(net) && Run(w, net, events).Some? && n < |net| && UnderWay(net[n], j) && !ServesAt(events, n)
    ensures |Run(w, net, events).value| == |net|
    ensures
      var x, y := net[n], Run(w, net, events).value[n];
      UnderWay(y, j) && y.disk == x.disk && y.snapshot == x.snapshot && y.table == x.table && y.buf == x.buf
    decreases events
  {
    hide UnderWay, Enabled, Do, Shape;
    if events != [] {
      var e, rest := events[0], events[1..];
      RunUnrolled(w, net, events);
      EventKeepsShape(w, net, e);
      assert e in events && forall d | d in rest :: d in events;
      WaitingStays(w, net, e, n, j);
      WaitingRun(w, Do(w, net, e), rest, n, j);
    }
  }

  lemma BeginsWaiting<C>(w: World<C>, net: Net<C>, n: nat, k: nat)
    requires Enabled(w, net, Ask(n, k))
    ensures
      var x, y := net[n], Do(w, net, Ask(n, k))[n];
      && UnderWay(y, x.inbox[k])
      && y.disk == x.disk && y.snapshot == x.snapshot && y.table == x.table && y.buf == x.buf
  {
    assert Do(w, net, Ask(n, k))[n].inbox[k] == net[n].inbox[k].(stage := Asked);
  }

  /** From the moment a request is sent until it is served, disk, snapshot, table and buffer of the node stay as they
      are, over every run and whatever the other nodes do: nothing is scanned, replayed, broadcast or pulled there. */
  lemma {:induction false} NothingWhileWaiting<C>(w: World<C>, net: Net<C>, n: nat, k: nat, events: seq<Event>)
    requires Shape(net) && Run(w, net, [Ask(n, k)] + events).Some? && !ServesAt(events, n)
    ensures At(net, n, k) && |Run(w, net, [Ask(n, k)] + events).value| == |net|
    ensures
      var x, y := net[n], Run(w, net, [Ask(n, k)] + events).value[n];
      && y.disk == x.disk && y.snapshot == x.snapshot && y.table == x.table && y.buf == x.buf
      && UnderWay(y, x.inbox[k]) && Lock(y) == W.Puller
  {
    hide ServesAt, UnderWay;
    var e, all := Ask(n, k), [Ask(n, k)] + events;
    RunUnrolled(w, net, all);
    assert all[1..] == events;
    EventKeepsShape(w, net, e);
    var asked := Do(w, net, e);
    BeginsWaiting(w, net, n, k);
    WaitingRun(w, asked, events, n, net[n].inbox[k]);
    UnderWayIsLocked(Run(w, net, all).value[n], net[n].inbox[k]);
  }

  /** And the event that serves the request changes the disk at the one path it was for, as the sender's disk is then;
      snapshot, table and buffer still stay. */
  lemma ServedAtLast<C>(w: World<C>, net: Net<C>, n: nat, k: nat, p: Path, j: Job)
    requires Shape(net) && Enabled(w, net, Serve(n, k)) && UnderWay(net[n], j)
    ensures j.changes != [] && j.from < |net|
    ensures
      var x, y, c := net[n], Do(w, net, Serve(n, k))[n], j.changes[0];
      && y.snapshot == x.snapshot && y.table == x.table && y.buf == x.buf && Lock(y) == W.Nobody
      && Get(y.disk, p)
           == if p != c.path then Get(x.disk, p)
              else if c.kind == Deletion then None
              else if (p in x.disk && w.rules.recomputed(p, x.disk[p]) == c.hash) || p !in net[j.from].disk
                then Get(x.disk, p)
              else Some(w.rules.delivered(net[j.from].disk[p]))
  {
    hide TableOf;
    var x := net[n];
    assert NodeShape(|net|, n, x);
    var i := if j.(stage := Asked) in x.inbox then j.(stage := Asked) else j.(stage := Heard);
    var l :| 0 <= l < |x.inbox| && x.inbox[l] == i;
    assert l == k;
    PullHere(w, net, Serve(n, k));
  }

  // ---- One thing at a time ----

  /** The threads an event needs; the watcher is not among them. */
  function Needed<C>(net: Net<C>, e: Event): set<(nat, Thread)>
    requires e.n < |net| && (e.Scan? || e.Flush? || At(net, e.n, e.k))
  {
    if e.Scan? then {}
    else if e.Flush? || e.Post? || e.Replace? then {(e.n, Handler)}
    else if e.Collect? then {(e.n, Discoverer)}
    else
      var j := net[e.n].inbox[e.k];
      if e.Hear? then {(j.from, Discoverer)}
      else if e.Serve? then {(e.n, j.thread), (j.from, Handler)}
      else {(e.n, j.thread)}
  }

  /** A thread with a job in hand does nothing else: it takes part only in events that go on with this job. */
  lemma OneThingAtATime<C>(w: World<C>, net: Net<C>, e: Event, m: nat, k: nat)
    requires Shape(net) && Enabled(w, net, e) && At(net, m, k)
    requires net[m].inbox[k].stage == Open || net[m].inbox[k].stage == Asked || net[m].inbox[k].stage == Heard
    ensures e.n < |net| && (e.Scan? || e.Flush? || At(net, e.n, e.k))
    ensures (m, net[m].inbox[k].thread) in Needed(net, e) ==>
              e.n == m && (e.Next? || e.Ask? || e.Serve? || e.Finish?) && e.k == k
  {
    hide TableOf, Found;
    var t := net[m].inbox[k].thread;
    assert Busy(net[m].inbox[k]) && !Idle(net[m], t);
    assert NodeShape(|net|, m, net[m]);
  }

  /** And it is kept waiting by nothing but the lock, before its next change, or the one thread it asked. It asks for a
      file unless the change is a deletion or the skip test fires. */
  lemma InHandGoesOn<C>(w: World<C>, net: Net<C>, n: nat, k: nat)
    requires Shape(net) && At(net, n, k)
    ensures
      var j := net[n].inbox[k];
      && (j.stage == Open ==>
            ((Enabled(w, net, Next(n, k)) || Enabled(w, net, Ask(n, k)) || Enabled(w, net, Finish(n, k)))
               <==> j.changes == [] || Lock(net[n]) == W.Nobody))
      && (Enabled(w, net, Ask(n, k)) ==>
            var c := j.changes[0];
            && c.kind != Deletion && !Enabled(w, net, Next(n, k))
            && (c.path in net[n].disk ==> w.rules.recomputed(c.path, net[n].disk[c.path]) != c.hash))
      && (Enabled(w, net, Next(n, k)) ==>
            var c := j.changes[0];
            c.kind == Deletion
            || (c.path in net[n].disk && w.rules.recomputed(c.path, net[n].disk[c.path]) == c.hash))
      && j.from < |net|
      && (j.stage == Asked ==> (Enabled(w, net, Hear(n, k)) <==> Idle(net[j.from], Discoverer)))
      && (j.stage == Heard ==> (Enabled(w, net, Serve(n, k)) <==> Idle(net[j.from], Handler)))
  {
    hide Idle;
    LockIsFree(net[n]);
    assert NodeShape(|net|, n, net[n]);
  }

  /** An idle thread does what is there to be done, whoever holds the lock: the discoverer collects and greets, the
      handler works through its queue and fills the mailbox, the table manager empties it. Only a scan and a flush need
      the lock. */
  lemma IdleThreadsServe<C>(w: World<C>, net: Net<C>, n: nat, k: nat)
    requires Shape(net) && n < |net|
    ensures At(net, n, k) ==>
              var j := net[n].inbox[k];
              && (j.stage == Sent && Idle(net[n], Discoverer) ==>
                    if j.thread == Discoverer then Enabled(w, net, Take(n, k)) else Enabled(w, net, Collect(n, k)))
              && (j.stage == Queued && Idle(net[n], Handler) ==>
                    if j.thread == Handler then Enabled(w, net, Take(n, k))
                    else Enabled(w, net, Post(n, k)) || exists l :: Enabled(w, net, Replace(n, k, l)))
              && (j.stage == Posted && Idle(net[n], Manager) ==> Enabled(w, net, Take(n, k)))
    ensures Enabled(w, net, Scan(n)) <==> Lock(net[n]) == W.Nobody && Found(w.rules, net[n]) != []
    ensures Enabled(w, net, Flush(n)) <==> Lock(net[n]) == W.Nobody && Idle(net[n], Handler) && net[n].buf != []
  {
    hide Idle, Found;
    LockIsFree(net[n]);
    assert NodeShape(|net|, n, net[n]);
    if At(net, n, k) && net[n].inbox[k].stage == Queued && net[n].inbox[k].thread == Manager && Idle(net[n], Handler) {
      if l: nat :| l < |net[n].inbox| && net[n].inbox[l].stage == Posted {
        assert Enabled(w, net, Replace(n, k, l));
      }
    }
  }

  /** An arrival that is opened is answered with the table as a packet can carry it: the newcomer receives what reading
      that packet yields. */
  lemma AnsweredByPacket<C>(w: World<C>, net: Net<C>, n: nat, k: nat)
    requires Enabled(w, net, Take(n, k)) && net[n].inbox[k].thread == Discoverer
    requires forall p | p in net[n].table :: |p| < 0x1_0000_0000
    ensures net[n].inbox[k].from < |net|
    ensures
      var f := net[n].inbox[k].from;
      var read := PacketCodec.Read(PacketCodec.EncodeAnswer(net[n].table));
      && read.Some? && read.value.Answer?
      && Do(w, net, Take(n, k))[f].inbox == net[f].inbox + [Job(n, Manager, read.value.table, [], Sent)]
  {
    hide PacketCodec.OnTheWire, PacketCodec.EncodeTable, PacketCodec.Read, Requests;
    PacketCodec.ReadsBack(net[n].table, Change([], 0, Addition), 0, []);
  }

  /** A flush reaches every other node as the list that reading its packet yields. */
  lemma FlushedByPacket<C>(w: World<C>, net: Net<C>, n: nat, i: nat)
    requires Enabled(w, net, Flush(n)) && i < |net| && i != n
    requires |net[n].buf| < 0x1_0000_0000 && forall c | c in net[n].buf :: PacketCodec.Encodable(c)
    ensures
      var read := PacketCodec.Read(PacketCodec.EncodeChanges(net[n].buf));
      && read.Some? && read.value.News?
      && Do(w, net, Flush(n))[i].inbox == net[i].inbox + [Job(n, Handler, map[], read.value.changes, Sent)]
  {
    hide PacketCodec.EncodeChanges, PacketCodec.Read, Apply;
    PacketCodec.BroadcastReadsBack(net[n].buf);
  }

  /** A table that finds the mailbox full takes the place of the one in it, which is lost. */
  lemma NewerTableStays<C>(w: World<C>, net: Net<C>, n: nat, k: nat, l: nat)
    requires Shape(net) && Enabled(w, net, Replace(n, k, l))
    ensures
      var x, y := net[n], Do(w, net, Replace(n, k, l))[n];
      && multiset(y.inbox) + multiset{x.inbox[k], x.inbox[l]}
           == multiset(x.inbox) + multiset{x.inbox[k].(stage := Posted)}
      && forall j | j in y.inbox && j.stage == Posted :: j.table == x.inbox[k].table && j.from == x.inbox[k].from
  {
    hide NodeShape, PacketCodec.OnTheWire, Requests, Pull;
    var x, posted := net[n], net[n].inbox[k].(stage := Posted);
    var y := Do(w, net, Replace(n, k, l))[n];
    assert NodeShape(|net|, n, x);
    ReplaceShape(|net|, n, x, k, l);
    assert k != l && y.inbox == x.inbox[l := posted][..k] + x.inbox[l := posted][k + 1..];
    InItsPlace(x.inbox, k, l, posted);
    OnePosted(|net|, n, y, if l < k then l else l - 1);
  }

  lemma OnePosted<C>(size: nat, n: nat, y: Node<C>, i: nat)
    requires NodeShape(size, n, y) && i < |y.inbox| && y.inbox[i].stage == Posted
    ensures forall j | j in y.inbox && j.stage == Posted :: j == y.inbox[i]
  {
    hide JobShape;
  }

  lemma InItsPlace(s: seq<Job>, k: nat, l: nat, j: Job)
    requires k < |s| && l < |s| && k != l
    ensures
      var t := s[l := j][..k] + s[l := j][k + 1..];
      && multiset(t) + multiset{s[k], s[l]} == multiset(s) + multiset{j}
      && |t| == |s| - 1 && t[if l < k then l else l - 1] == j
  {
    SwapCount(s, l, j);
    DropCount(s[l := j], k);
  }

  lemma DropCount(s: seq<Job>, k: nat)
    requires k < |s|
    ensures multiset(s) == multiset(s[..k] + s[k + 1..]) + multiset{s[k]}
  {
    assert s == s[..k] + [s[k]] + s[k + 1..];
  }

  lemma SwapCount(s: seq<Job>, k: nat, j: Job)
    requires k < |s|
    ensures multiset(s[k := j]) + multiset{s[k]} == multiset(s) + multiset{j}
  {
    DropCount(s, k);
    DropCount(s[k := j], k);
    assert s[k := j][..k] + s[k := j][k + 1..] == s[..k] + s[k + 1..];
  }
}

/** A network of nodes, each with its watcher and the three threads that request files: the handler works through
    broadcasts and is the only one that serves files, the discoverer answers a newcomer and collects what arrives, the
    table manager works through a table left in the mailbox. A request is sent and then waited for under `dirLock`; it
    is served when the peer's discoverer has collected it and the peer's handler has nothing else in hand. */
module Network {
  import opened Base
  import opened DirectoryDiff
  import opened EraseLoop
  import opened RequestFiles
  import PacketCodec

  datatype Thread = Handler | Discoverer | Manager

  /** On the network, in the queue, in the mailbox slot; then in hand, with a request sent, with the request
      collected. */
  datatype Stage = Sent | Queued | Posted | Open | Asked | Heard

  /** A message and what is left to do of it. A table becomes changes only when its thread opens it. */
  datatype Job = Job(from: nat, thread: Thread, table: Table, changes: seq<Change>, stage: Stage)

  /** A broadcast (pid 6), an arrival (pid 0), the answer to one (pid 1). */
  function News(from: nat, changes: seq<Change>): Job {
    Job(from, Handler, map[], changes, Sent)
  }

  function Hello(from: nat, table: Table): Job {
    Job(from, Discoverer, table, [], Sent)
  }

  function Answer(from: nat, table: Table): Job {
    Job(from, Manager, table, [], Sent)
  }

  datatype Node<C> = Node(disk: Disk<C>, snapshot: Table, table: Table, buf: seq<Change>, inbox: seq<Job>)

  type Net<C> = seq<Node<C>>

  /** The rules for files, and whether tables are filtered by the loop as written or by the filter that was meant. */
  datatype World<!C> = World(rules: Rules<C>, literal: bool)

  predicate Waits(j: Job) {
    j.stage == Asked || j.stage == Heard
  }

  predicate Busy(j: Job) {
    j.stage == Open || Waits(j)
  }

  /** The thread has nothing in hand. */
  predicate Idle<C>(x: Node<C>, t: Thread) {
    forall k | 0 <= k < |x.inbox| :: !(x.inbox[k].thread == t && Busy(x.inbox[k]))
  }

  /** Nobody holds `dirLock`: it is kept for as long as a request is waited for. */
  predicate Free<C>(x: Node<C>) {
    forall k | 0 <= k < |x.inbox| :: !Waits(x.inbox[k])
  }

  /** The job's thread may open it. */
  predicate Ready(j: Job) {
    j.stage == match j.thread case Handler => Queued case Discoverer => Sent case Manager => Posted
  }

  predicate Unopened(j: Job) {
    !Busy(j)
  }

  /** The change cannot be dealt with on the spot. */
  predicate Needs<C>(w: World<C>, disk: Disk<C>, c: Change) {
    c.kind != Deletion && !Skips(w.rules, disk, c)
  }

  function Requests(literal: bool, host: Table, foreign: Table, ignoreEdits: bool): seq<Change> {
    var d := MergeDiff(host, foreign);
    if literal then Survivors(d, ignoreEdits, |d|) else Wanted(d, ignoreEdits)
  }

  lemma DiffMembers(host: Table, foreign: Table, c: Change)
    ensures c in MergeDiff(host, foreign) <==>
              && c.path in foreign && c.hash == foreign[c.path] && Get(host, c.path) != Some(c.hash)
              && c.kind == (if c.path in host then Edit else Addition)
  {
    MergeDiffDescribes(host, foreign);
    assert c in MergeDiff(host, foreign) <==> Correct(c, host, host + foreign);
  }

  /** The newcomer asks for everything that differs; the loop finds nothing to erase. */
  lemma NewcomerRequests(literal: bool, host: Table, foreign: Table)
    ensures Requests(literal, host, foreign, false) == MergeDiff(host, foreign)
  {
    MergeDiffDescribes(host, foreign);
    NothingDoomed(MergeDiff(host, foreign), false);
  }

  /** An existing node asks for what its table lacks, unless the loop lets an edit slip through. */
  lemma ExistingRequests(literal: bool, host: Table, foreign: Table, c: Change)
    requires literal ==> NoneAdjacent(MergeDiff(host, foreign), true)
    ensures c in Requests(literal, host, foreign, true) <==>
              c.path in foreign && c.path !in host && c == Change(c.path, foreign[c.path], Addition)
  {
    var d := MergeDiff(host, foreign);
    LoopIsFilterIff(d, true);
    WantedMembers(d, true);
    DiffMembers(host, foreign, c);
  }

  // ---- Events ----

  datatype Event =
    | Scan(n: nat)
    | Flush(n: nat)
    | Collect(n: nat, k: nat)
    | Post(n: nat, k: nat)
    | Replace(n: nat, k: nat, l: nat)
    | Take(n: nat, k: nat)
    | Next(n: nat, k: nat)
    | Ask(n: nat, k: nat)
    | Hear(n: nat, k: nat)
    | Serve(n: nat, k: nat)
    | Finish(n: nat, k: nat)

  predicate At<C>(net: Net<C>, n: nat, k: nat) {
    n < |net| && k < |net[n].inbox|
  }

  function Found<C>(r: Rules<C>, x: Node<C>): seq<Change> {
    SnapshotDiff(x.snapshot, TableOf(r, x.disk))
  }

  /** Events that do something; a scan that finds nothing leaves everything as it is. */
  predicate Enabled<C>(w: World<C>, net: Net<C>, e: Event) {
    match e
    case Scan(n) => n < |net| && Free(net[n]) && Found(w.rules, net[n]) != []
    case Flush(n) => n < |net| && Free(net[n]) && Idle(net[n], Handler) && net[n].buf != []
    case Collect(n, k) =>
      At(net, n, k) && net[n].inbox[k].stage == Sent && net[n].inbox[k].thread != Discoverer && Idle(net[n], Discoverer)
    case Post(n, k) =>
      && At(net, n, k) && net[n].inbox[k].stage == Queued && net[n].inbox[k].thread == Manager && Idle(net[n], Handler)
      && forall l | 0 <= l < |net[n].inbox| :: net[n].inbox[l].stage != Posted
    case Replace(n, k, l) =>
      && At(net, n, k) && net[n].inbox[k].stage == Queued && net[n].inbox[k].thread == Manager && Idle(net[n], Handler)
      && At(net, n, l) && net[n].inbox[l].stage == Posted
    case Take(n, k) =>
      && At(net, n, k) && Ready(net[n].inbox[k]) && Idle(net[n], net[n].inbox[k].thread)
      && (net[n].inbox[k].thread == Discoverer ==> n != net[n].inbox[k].from < |net|)
    case Next(n, k) =>
      && At(net, n, k) && net[n].inbox[k].stage == Open && net[n].inbox[k].changes != [] && Free(net[n])
      && !Needs(w, net[n].disk, net[n].inbox[k].changes[0])
    case Ask(n, k) =>
      && At(net, n, k) && net[n].inbox[k].stage == Open && net[n].inbox[k].changes != [] && Free(net[n])
      && Needs(w, net[n].disk, net[n].inbox[k].changes[0])
    case Hear(n, k) =>
      && At(net, n, k) && net[n].inbox[k].stage == Asked
      && net[n].inbox[k].from < |net| && Idle(net[net[n].inbox[k].from], Discoverer)
    case Serve(n, k) =>
      && At(net, n, k) && net[n].inbox[k].stage == Heard && net[n].inbox[k].changes != []
      && net[n].inbox[k].from < |net| && Idle(net[net[n].inbox[k].from], Handler)
    case Finish(n, k) => At(net, n, k) && net[n].inbox[k].stage == Open && net[n].inbox[k].changes == []
  }

  function Scanned<C>(r: Rules<C>, x: Node<C>): Node<C> {
    x.(snapshot := TableOf(r, x.disk), buf := x.buf + Found(r, x))
  }

  function Flushed<C>(x: Node<C>): Node<C> {
    x.(table := Apply(x.table, x.buf), buf := [])
  }

  function Receives<C>(x: Node<C>, j: Job): Node<C> {
    x.(inbox := x.inbox + [j])
  }

  function WithJob<C>(x: Node<C>, k: nat, j: Job): Node<C>
    requires k < |x.inbox|
  {
    x.(inbox := x.inbox[k := j])
  }

  function WithoutJob<C>(x: Node<C>, k: nat): Node<C>
    requires k < |x.inbox|
  {
    x.(inbox := x.inbox[..k] + x.inbox[k + 1..])
  }

  /** In hand; of a table, the requests its thread derives from it and the node's table as it is now. */
  function Opened<C>(w: World<C>, x: Node<C>, j: Job): Job {
    if j.thread == Handler then j.(stage := Open)
    else j.(changes := Requests(w.literal, x.table, j.table, j.thread == Discoverer), stage := Open)
  }

  /** The first change of job `k` is done, with `server` as the disk it may have been fetched from. */
  function Advanced<C>(w: World<C>, x: Node<C>, k: nat, server: Disk<C>): Node<C>
    requires k < |x.inbox| && x.inbox[k].changes != []
  {
    var j := x.inbox[k];
    WithJob(x.(disk := Pull(w.rules, x.disk, server, j.changes[0])), k, j.(changes := j.changes[1..], stage := Open))
  }

  /** All but a flush, which every node receives, and the opening of a job, which may be answered. */
  predicate Local(e: Event) {
    !e.Flush? && !e.Take?
  }

  /** A job goes from one stage to another and is otherwise as it was. */
  predicate MovesOn(e: Event) {
    e.Collect? || e.Post? || e.Ask? || e.Hear?
  }

  function StageAfter(e: Event): Stage
    requires MovesOn(e)
  {
    match e case Collect(_, _) => Queued case Post(_, _) => Posted case Ask(_, _) => Asked case Hear(_, _) => Heard
  }

  function Stepped<C>(w: World<C>, net: Net<C>, e: Event): Node<C>
    requires Enabled(w, net, e) && Local(e)
  {
    var x := net[e.n];
    if MovesOn(e) then WithJob(x, e.k, x.inbox[e.k].(stage := StageAfter(e))) else
    match e
    case Scan(_) => Scanned(w.rules, x)
    case Replace(_, k, l) => WithoutJob(WithJob(x, l, x.inbox[k].(stage := Posted)), k)
    case Next(_, k) => Advanced(w, x, k, x.disk)
    case Serve(_, k) => Advanced(w, x, k, net[x.inbox[k].from].disk)
    case Finish(_, k) => WithoutJob(x, k)
  }

  /** The node that opens job `k`; if it is an arrival, the newcomer is sent the node's table. */
  function Taken<C>(w: World<C>, net: Net<C>, n: nat, k: nat): Net<C>
    requires Enabled(w, net, Take(n, k))
  {
    var x, j := net[n], net[n].inbox[k];
    var next := net[n := WithJob(x, k, Opened(w, x, j))];
    if j.thread != Discoverer then next
    else next[j.from := Receives(net[j.from], Answer(n, PacketCodec.OnTheWire(x.table)))]
  }

  function Do<C>(w: World<C>, net: Net<C>, e: Event): (next: Net<C>)
    requires Enabled(w, net, e)
    ensures |next| == |net| && e.n < |net|
  {
    if e.Flush? then
      seq(|net|, (i: nat) requires i < |net| =>
        if i == e.n then Flushed(net[e.n]) else Receives(net[i], News(e.n, net[e.n].buf)))
    else if e.Take? then Taken(w, net, e.n, e.k)
    else net[e.n := Stepped(w, net, e)]
  }

  function Step<C>(w: World<C>): (Net<C>, Event) -> Option<Net<C>> {
    (net: Net<C>, e: Event) => if Enabled(w, net, e) then Some(Do(w, net, e)) else None
  }

  function Run<C>(w: World<C>, net: Net<C>, events: seq<Event>): Option<Net<C>> {
    RunBy(Step(w), net, events)
  }

  /** A run of one event or more begins with an enabled one. */
  lemma {:induction false} RunUnrolled<C>(w: World<C>, net: Net<C>, events: seq<Event>)
    requires events != [] && Run(w, net, events).Some?
    ensures Enabled(w, net, events[0]) && Run(w, net, events) == Run(w, Do(w, net, events[0]), events[1..])
  {
    assert Step(w)(net, events[0]).Some?;
  }

  lemma {:induction false} RunFirst<C>(w: World<C>, net: Net<C>, e: Event, rest: seq<Event>)
    requires Enabled(w, net, e)
    ensures Run(w, net, [e] + rest) == Run(w, Do(w, net, e), rest)
  {
    assert ([e] + rest)[1..] == rest;
    assert Step(w)(net, e) == Some(Do(w, net, e));
  }

  lemma {:induction false} RunOne<C>(w: World<C>, net: Net<C>, e: Event)
    requires Enabled(w, net, e)
    ensures Run(w, net, [e]) == Some(Do(w, net, e))
  {
    RunFirst(w, net, e, []);
    assert [e] + [] == [e];
  }

  lemma {:induction false} RunConcat<C>(w: World<C>, net: Net<C>, a: seq<Event>, b: seq<Event>)
    requires Run(w, net, a).Some?
    ensures Run(w, net, a + b) == Run(w, Run(w, net, a).value, b)
  {
    RunByConcat(Step(w), net, a, b);
  }

  // ---- The shape every run keeps ----

  ghost predicate JobShape(size: nat, n: nat, j: Job) {
    && n != j.from < size
    && (Waits(j) ==> j.changes != [])
    && (j.stage == Queued ==> j.thread != Discoverer)
    && (j.stage == Posted ==> j.thread == Manager)
  }

  /** A thread has one job in hand at a time. */
  ghost predicate OneInHand<C>(x: Node<C>) {
    forall k, l | 0 <= k < l < |x.inbox| && Busy(x.inbox[k]) && Busy(x.inbox[l]) ::
      x.inbox[k].thread != x.inbox[l].thread
  }

  /** The lock has one holder, the mailbox one slot. */
  ghost predicate OneHolder<C>(x: Node<C>) {
    && (forall k, l | 0 <= k < l < |x.inbox| :: !(Waits(x.inbox[k]) && Waits(x.inbox[l])))
    && (forall k, l | 0 <= k < l < |x.inbox| :: !(x.inbox[k].stage == Posted && x.inbox[l].stage == Posted))
  }

  ghost predicate NodeShape<C>(size: nat, n: nat, x: Node<C>) {
    && (forall k | 0 <= k < |x.inbox| :: JobShape(size, n, x.inbox[k]))
    && OneInHand(x) && OneHolder(x)
  }

  ghost predicate Shape<C>(net: Net<C>) {
    forall n | 0 <= n < |net| :: NodeShape(|net|, n, net[n])
  }

  lemma WithJobShape<C>(size: nat, n: nat, x: Node<C>, k: nat, j: Job)
    requires NodeShape(size, n, x) && k < |x.inbox| && JobShape(size, n, j)
    requires Busy(j) ==> (Busy(x.inbox[k]) && x.inbox[k].thread == j.thread) || Idle(x, j.thread)
    requires Waits(j) ==> Waits(x.inbox[k]) || Free(x)
    requires j.stage == Posted ==> forall l | 0 <= l < |x.inbox| && l != k :: x.inbox[l].stage != Posted
    ensures NodeShape(size, n, WithJob(x, k, j))
  {
  }

  lemma WithoutJobShape<C>(size: nat, n: nat, x: Node<C>, k: nat)
    requires NodeShape(size, n, x) && k < |x.inbox|
    ensures NodeShape(size, n, WithoutJob(x, k))
  {
    hide JobShape;
    var y := WithoutJob(x, k);
    assert forall i | 0 <= i < |y.inbox| :: y.inbox[i] == x.inbox[if i < k then i else i + 1];
  }

  lemma ReceivesShape<C>(size: nat, n: nat, x: Node<C>, j: Job)
    requires NodeShape(size, n, x) && JobShape(size, n, j) && j.stage == Sent
    ensures NodeShape(size, n, Receives(x, j))
  {
  }

  lemma ReplaceShape<C>(size: nat, n: nat, x: Node<C>, k: nat, l: nat)
    requires NodeShape(size, n, x) && k < |x.inbox| && l < |x.inbox|
    requires x.inbox[k].stage == Queued && x.inbox[k].thread == Manager && x.inbox[l].stage == Posted
    ensures NodeShape(size, n, WithoutJob(WithJob(x, l, x.inbox[k].(stage := Posted)), k))
  {
    WithJobShape(size, n, x, l, x.inbox[k].(stage := Posted));
    WithoutJobShape(size, n, WithJob(x, l, x.inbox[k].(stage := Posted)), k);
  }

  lemma TakeShape<C>(w: World<C>, net: Net<C>, n: nat, k: nat)
    requires Shape(net) && Enabled(w, net, Take(n, k))
    ensures Shape(Do(w, net, Take(n, k)))
  {
    hide Requests, PacketCodec.OnTheWire;
    var j := net[n].inbox[k];
    var inHand := Opened(w, net[n], j);
    assert NodeShape(|net|, n, net[n]);
    WithJobShape(|net|, n, net[n], k, inHand);
    if j.thread == Discoverer {
      assert NodeShape(|net|, j.from, net[j.from]);
      ReceivesShape(|net|, j.from, net[j.from], Answer(n, PacketCodec.OnTheWire(net[n].table)));
    }
  }

  lemma FlushShape<C>(w: World<C>, net: Net<C>, n: nat)
    requires Shape(net) && Enabled(w, net, Flush(n))
    ensures Shape(Do(w, net, Flush(n)))
  {
    var next := Do(w, net, Flush(n));
    forall i | 0 <= i < |next|
      ensures NodeShape(|next|, i, next[i])
    {
      assert NodeShape(|net|, i, net[i]);
      if i != n {
        ReceivesShape(|net|, i, net[i], News(n, net[n].buf));
      }
    }
  }

  lemma AdvancedShape<C>(w: World<C>, size: nat, n: nat, x: Node<C>, k: nat, server: Disk<C>)
    requires NodeShape(size, n, x) && k < |x.inbox| && Busy(x.inbox[k]) && x.inbox[k].changes != []
    ensures NodeShape(size, n, Advanced(w, x, k, server))
  {
    var j := x.inbox[k];
    var y := x.(disk := Pull(w.rules, x.disk, server, j.changes[0]));
    assert NodeShape(size, n, y);
    WithJobShape(size, n, y, k, j.(changes := j.changes[1..], stage := Open));
  }

  lemma JobStepShape<C>(w: World<C>, net: Net<C>, e: Event)
    requires Shape(net) && Enabled(w, net, e) && MovesOn(e)
    ensures NodeShape(|net|, e.n, Stepped(w, net, e))
  {
    var n, x, k := e.n, net[e.n], e.k;
    assert NodeShape(|net|, n, x);
    WithJobShape(|net|, n, x, k, x.inbox[k].(stage := StageAfter(e)));
  }

  lemma StepShape<C>(w: World<C>, net: Net<C>, e: Event)
    requires Shape(net) && Enabled(w, net, e) && Local(e)
    ensures NodeShape(|net|, e.n, Stepped(w, net, e))
  {
    var n, x := e.n, net[e.n];
    assert NodeShape(|net|, n, x);
    match e
    case Scan(_) => assert NodeShape(|net|, n, Scanned(w.rules, x));
    case Replace(_, k, l) => ReplaceShape(|net|, n, x, k, l);
    case Next(_, k) => AdvancedShape(w, |net|, n, x, k, x.disk);
    case Serve(_, k) => AdvancedShape(w, |net|, n, x, k, net[x.inbox[k].from].disk);
    case Finish(_, k) => WithoutJobShape(|net|, n, x, k);
    case _ => JobStepShape(w, net, e);
  }

  lemma ShapeAfter<C>(net: Net<C>, n: nat, y: Node<C>)
    requires Shape(net) && n < |net| && NodeShape(|net|, n, y)
    ensures Shape(net[n := y])
  {
  }

  lemma EventKeepsShape<C>(w: World<C>, net: Net<C>, e: Event)
    requires Shape(net) && Enabled(w, net, e)
    ensures Shape(Do(w, net, e)) && |Do(w, net, e)| == |net|
  {
    if e.Take? {
      TakeShape(w, net, e.n, e.k);
    } else if e.Flush? {
      FlushShape(w, net, e.n);
    } else {
      var y := Stepped(w, net, e);
      StepShape(w, net, e);
      ShapeAfter(net, e.n, y);
    }
  }

  lemma {:induction false} RunKeepsShape<C>(w: World<C>, net: Net<C>, events: seq<Event>)
    requires Shape(net) && Run(w, net, events).Some?
    ensures Shape(Run(w, net, events).value) && |Run(w, net, events).value| == |net|
    decreases events
  {
    if events != [] {
      RunUnrolled(w, net, events);
      EventKeepsShape(w, net, events[0]);
      RunKeepsShape(w, Do(w, net, events[0]), events[1..]);
    }
  }

  /** Nothing is on the way, in a buffer, in hand, or waiting to be noticed. */
  ghost predicate Quiet<C>(r: Rules<C>, net: Net<C>) {
    forall i | 0 <= i < |net| :: net[i].inbox == [] && net[i].buf == [] && Found(r, net[i]) == []
  }

  lemma EmptyDiff(prev: Table, next: Table)
    ensures SnapshotDiff(prev, next) == [] <==> prev == next
  {
    SnapshotDiffDescribes(prev, next);
    if prev == next {
      DescribedCount(SnapshotDiff(prev, next), prev, next, {});
    } else if SnapshotDiff(prev, next) == [] {
      DescribedReplay([], prev, next);
    }
  }
}

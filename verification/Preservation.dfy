/** Every event of the network keeps the invariant of a scene. */
module Preservation {
  import opened Base
  import opened DirectoryDiff
  import opened EraseLoop
  import opened RequestFiles
  import opened Network
  import opened Propagation
  import PacketCodec

  lemma OthersStayOk<C>(sc: Scene<C>, net: Net<C>, next: Net<C>, i: nat)
    requires Sensible(sc) && i < |net| == |sc.start| && Grows(sc, net, next)
    requires next[i] == net[i] && DiskOk(sc, net, i) && InboxOk(sc, net, i) && BufOk(sc, net, i)
    ensures DiskOk(sc, next, i) && InboxOk(sc, next, i) && BufOk(sc, next, i)
  {
    DiskStaysOk(sc, net, next, i);
    InboxStaysOk(sc, net, next, i);
    BufStaysOk(sc, net, next, i);
  }

  /** Every job of the new inbox is an old one, or has been checked in the old state. */
  lemma InboxStaysOk<C>(sc: Scene<C>, net: Net<C>, next: Net<C>, i: nat)
    requires Sensible(sc) && i < |net| == |sc.start| && Grows(sc, net, next)
    requires forall j | j in next[i].inbox :: j.from < |net| && JobOk(sc, net, i, j)
    ensures InboxOk(sc, next, i)
  {
    forall j | j in next[i].inbox
      ensures j.from < |next| && JobOk(sc, next, i, j)
    {
      JobStaysOk(sc, net, next, i, j);
    }
  }

  // ---- What one event does to the node it happens at ----

  /** How the inbox of the node may change without anything getting lost: what a job promised is still promised by one,
      or has arrived. */
  ghost predicate KeepsPromises<C>(sc: Scene<C>, i: nat, x: Node<C>, y: Node<C>)
    requires i < |sc.start|
  {
    && (forall p | Waiting(sc, i, x, p) && Mover(sc, i, p) :: Waiting(sc, i, y, p) || Arrived(sc, i, y, p))
    && (forall p | Tabled(sc, i, x, p) && Early(sc, i, p) ::
          Tabled(sc, i, y, p) || Waiting(sc, i, y, p) || Arrived(sc, i, y, p))
  }

  /** What other nodes hope for from this one. */
  ghost predicate KeepsHope<C>(sc: Scene<C>, x: Node<C>, y: Node<C>) {
    && (forall j, i | j in x.inbox && Hails(j, i) :: exists j' :: j' in y.inbox && Hails(j', i))
    && (forall p | Unsaid(sc, x, p) :: Unsaid(sc, y, p))
  }

  lemma LocalKeepsWay<C>(sc: Scene<C>, net: Net<C>, n: nat, y: Node<C>, i: nat, p: Path)
    requires n < |net| == |sc.start| && i < |net| && Mover(sc, i, p) && OnItsWay(sc, net, i, p)
    requires NodeGrows(sc, n, net[n], y) && KeepsPromises(sc, n, net[n], y) && KeepsHope(sc, net[n], y)
    ensures OnItsWay(sc, net[n := y], i, p)
  {
    var next := net[n := y];
    if Arrived(sc, i, net[i], p) {
      if i == n {
        ArrivedStays(sc, i, net[i], y, p);
      }
    } else if Waiting(sc, i, net[i], p) {
      assert i != n ==> next[i] == net[i];
    } else if Early(sc, i, p) && Tabled(sc, i, net[i], p) {
      assert i != n ==> next[i] == net[i];
    } else if Early(sc, i, p) && Hailed(net, i) {
      HailStays(sc, net, n, y, i);
    } else {
      ToldStays(sc, net, n, y, i, p);
    }
  }

  lemma HailStays<C>(sc: Scene<C>, net: Net<C>, n: nat, y: Node<C>, i: nat)
    requires n < |net| && KeepsHope(sc, net[n], y) && Hailed(net, i)
    ensures Hailed(net[n := y], i)
  {
    var m, j :| 0 <= m < |net| && j in net[m].inbox && Hails(j, i);
    var next := net[n := y];
    if m == n {
      var j' :| j' in y.inbox && Hails(j', i);
      assert j' in next[n].inbox;
    } else {
      assert j in next[m].inbox;
    }
  }

  lemma ToldStays<C>(sc: Scene<C>, net: Net<C>, n: nat, y: Node<C>, i: nat, p: Path)
    requires n < |net| == |sc.start| && KeepsHope(sc, net[n], y) && ToBeTold(sc, net, i, p)
    ensures ToBeTold(sc, net[n := y], i, p)
  {
    var j :| 0 <= j < |net| && Teller(sc, i, j, p) && Unsaid(sc, net[j], p);
    assert Unsaid(sc, net[n := y][j], p);
  }

  /** A step at one node that has been seen to. */
  lemma LocalKeepsInv<C>(sc: Scene<C>, net: Net<C>, n: nat, y: Node<C>)
    requires Inv(sc, net) && n < |net| && Shape(net[n := y])
    requires NodeGrows(sc, n, net[n], y) && KeepsPromises(sc, n, net[n], y) && KeepsHope(sc, net[n], y)
    requires DiskOk(sc, net[n := y], n) && InboxOk(sc, net[n := y], n) && BufOk(sc, net[n := y], n)
    ensures Inv(sc, net[n := y])
  {
    var next := net[n := y];
    LocalGrows(sc, net, n, y);
    forall i | 0 <= i < |next|
      ensures NodeOk(sc, next, i)
    {
      assert NodeOk(sc, net, i);
      if i != n {
        OthersStayOk(sc, net, next, i);
      }
      forall p | Mover(sc, i, p)
        ensures OnItsWay(sc, next, i, p)
      {
        LocalKeepsWay(sc, net, n, y, i, p);
      }
    }
  }

  lemma LocalGrows<C>(sc: Scene<C>, net: Net<C>, n: nat, y: Node<C>)
    requires n < |net| && NodeGrows(sc, n, net[n], y)
    ensures Grows(sc, net, net[n := y])
  {
    forall i | 0 <= i < |net|
      ensures NodeGrows(sc, i, net[i], net[n := y][i])
    {
      if i != n {
        SameDiskGrows(sc, i, net[i], net[n := y][i]);
      }
    }
  }

  /** A step that only touches the inbox. */
  lemma InboxStep<C>(sc: Scene<C>, net: Net<C>, n: nat, y: Node<C>)
    requires Sensible(sc) && n < |net| == |sc.start| && NodeOk(sc, net, n) && y == net[n].(inbox := y.inbox)
    requires forall j | j in y.inbox :: j.from < |net| && JobOk(sc, net, n, j)
    ensures NodeGrows(sc, n, net[n], y) && Grows(sc, net, net[n := y])
    ensures DiskOk(sc, net[n := y], n) && BufOk(sc, net[n := y], n) && InboxOk(sc, net[n := y], n)
  {
    SameDiskGrows(sc, n, net[n], y);
    LocalGrows(sc, net, n, y);
    DiskStaysOk(sc, net, net[n := y], n);
    BufStaysOk(sc, net, net[n := y], n);
    InboxStaysOk(sc, net, net[n := y], n);
  }

  // ---- Scans ----

  lemma ScanAt<C>(sc: Scene<C>, net: Net<C>, n: nat, p: Path)
    requires n < |net| == |sc.start| && DiskOk(sc, net, n)
    ensures
      var x := net[n];
      && PathOk(sc, n, Scanned(sc.w.rules, x), p)
      && (Get(x.snapshot, p) != Get(TableOf(sc.w.rules, x.disk), p) ==>
            && AtCut(sc, n, x, p) && Noticed(sc, n, p) && Begun(sc, net, p)
            && Get(TableOf(sc.w.rules, x.disk), p) == CutHash(sc, p))
  {
    var x := net[n];
    assert PathOk(sc, n, x, p);
    assert Get(x.disk, p) == Get(sc.start[n], p) ==> Get(TableOf(sc.w.rules, x.disk), p) == FirstHash(sc, n, p);
    assert Get(x.disk, p) == Cut(sc, p) ==> Get(TableOf(sc.w.rules, x.disk), p) == CutHash(sc, p);
  }

  lemma FoundIsSaid<C>(sc: Scene<C>, net: Net<C>, n: nat, c: Change)
    requires n < |net| == |sc.start| && DiskOk(sc, net, n) && c in Found(sc.w.rules, net[n])
    ensures SaidOk(sc, net, n, c)
  {
    var x := net[n];
    SnapshotDiffDescribes(x.snapshot, TableOf(sc.w.rules, x.disk));
    assert Correct(c, x.snapshot, TableOf(sc.w.rules, x.disk));
    ScanAt(sc, net, n, c.path);
  }

  lemma ScanKeepsBuf<C>(sc: Scene<C>, net: Net<C>, n: nat)
    requires n < |net| == |sc.start| && DiskOk(sc, net, n) && BufOk(sc, net, n)
    ensures BufOk(sc, net[n := Scanned(sc.w.rules, net[n])], n)
  {
    var x, y := net[n], Scanned(sc.w.rules, net[n]);
    var next := net[n := y];
    SameDiskGrows(sc, n, x, y);
    LocalGrows(sc, net, n, y);
    forall c | c in y.buf
      ensures SaidOk(sc, next, n, c)
    {
      if c !in x.buf {
        FoundIsSaid(sc, net, n, c);
      }
      SaidStaysOk(sc, net, next, n, c);
    }
    ApplyConcat(x.table, x.buf, Found(sc.w.rules, x));
    SnapshotDiffDescribes(x.snapshot, TableOf(sc.w.rules, x.disk));
    DescribedReplay(Found(sc.w.rules, x), x.snapshot, TableOf(sc.w.rules, x.disk));
  }

  /** A path that is still to be announced is found by the scan, or stays so. */
  lemma ScanKeepsHope<C>(sc: Scene<C>, r: Rules<C>, x: Node<C>)
    ensures KeepsHope(sc, x, Scanned(r, x))
  {
    var y := Scanned(r, x);
    forall p | Unsaid(sc, x, p)
      ensures Unsaid(sc, y, p)
    {
      MentionsConcat(x.buf, Found(r, x), p);
      SnapshotDiffDescribes(x.snapshot, TableOf(r, x.disk));
      DescribedPath(Found(r, x), x.snapshot, TableOf(r, x.disk), p);
    }
  }

  lemma ScanKeepsInv<C>(sc: Scene<C>, net: Net<C>, n: nat)
    requires Inv(sc, net) && Enabled(sc.w, net, Scan(n))
    ensures Inv(sc, Do(sc.w, net, Scan(n)))
  {
    var x, y := net[n], Scanned(sc.w.rules, net[n]);
    var next := net[n := y];
    assert NodeOk(sc, net, n);
    SameDiskGrows(sc, n, x, y);
    LocalGrows(sc, net, n, y);
    ScanKeepsBuf(sc, net, n);
    ScanKeepsHope(sc, sc.w.rules, x);
    assert DiskOk(sc, next, n) by {
      forall p
        ensures PathOk(sc, n, y, p)
      {
        ScanAt(sc, net, n, p);
      }
      forall p | Get(y.disk, p) != Get(sc.start[n], p)
        ensures Begun(sc, next, p)
      {
        BegunStays(sc, net, next, p);
      }
    }
    InboxStaysOk(sc, net, next, n);
    SameInboxPromises(sc, n, x, y);
    EventKeepsShape(sc.w, net, Scan(n));
    LocalKeepsInv(sc, net, n, y);
  }

  lemma SameInboxPromises<C>(sc: Scene<C>, i: nat, x: Node<C>, y: Node<C>)
    requires i < |sc.start| && x.inbox == y.inbox
    ensures KeepsPromises(sc, i, x, y)
  {
  }

  // ---- Steps that only move a job on ----

  /** The same job at another stage. */
  ghost predicate SameContent(j: Job, j': Job) {
    && j.from == j'.from && j.thread == j'.thread && j.table == j'.table && j.changes == j'.changes
    && (Unopened(j) <==> Unopened(j'))
  }

  ghost predicate Kept<C>(y: Node<C>, m: Job) {
    exists m' :: m' in y.inbox && SameContent(m, m')
  }

  /** Jobs that are all still there, at whatever stage, promise what they did. */
  lemma KeptPromises<C>(sc: Scene<C>, i: nat, x: Node<C>, y: Node<C>)
    requires i < |sc.start| && y == x.(inbox := y.inbox) && forall m | m in x.inbox :: Kept(y, m)
    ensures KeepsPromises(sc, i, x, y) && KeepsHope(sc, x, y)
  {
    forall p | Waiting(sc, i, x, p)
      ensures Waiting(sc, i, y, p)
    {
      var m :| m in x.inbox && Awaits(sc, i, m, p);
      assert Kept(y, m);
      var m' :| m' in y.inbox && SameContent(m, m');
      assert Awaits(sc, i, m', p);
    }
    forall p | Tabled(sc, i, x, p)
      ensures Tabled(sc, i, y, p)
    {
      var m :| m in x.inbox && m.thread != Handler && Unopened(m) && Tells(sc, i, m, p);
      assert Kept(y, m);
      var m' :| m' in y.inbox && SameContent(m, m');
      assert Tells(sc, i, m', p);
    }
    forall m, n | m in x.inbox && Hails(m, n)
      ensures exists m' :: m' in y.inbox && Hails(m', n)
    {
      assert Kept(y, m);
      var m' :| m' in y.inbox && SameContent(m, m');
      assert Hails(m', n);
    }
  }

  lemma StagePromises<C>(sc: Scene<C>, i: nat, x: Node<C>, k: nat, j: Job)
    requires i < |sc.start| && k < |x.inbox| && SameContent(x.inbox[k], j)
    ensures KeepsPromises(sc, i, x, WithJob(x, k, j)) && KeepsHope(sc, x, WithJob(x, k, j))
  {
    var y := WithJob(x, k, j);
    forall m | m in x.inbox
      ensures Kept(y, m)
    {
      StillThere(x, k, j, m);
      assert SameContent(m, m);
    }
    KeptPromises(sc, i, x, y);
  }

  lemma StillThere<C>(x: Node<C>, k: nat, j: Job, m: Job)
    requires k < |x.inbox| && m in x.inbox
    ensures j in WithJob(x, k, j).inbox && (m in WithJob(x, k, j).inbox || m == x.inbox[k])
  {
    var y := WithJob(x, k, j);
    var l :| 0 <= l < |x.inbox| && x.inbox[l] == m;
    assert y.inbox[k] == j && (l != k ==> y.inbox[l] == m);
  }

  lemma StageKeepsInv<C>(sc: Scene<C>, net: Net<C>, e: Event)
    requires Inv(sc, net) && Enabled(sc.w, net, e) && MovesOn(e)
    ensures Inv(sc, Do(sc.w, net, e))
  {
    hide DiskOk, BufOk, WayOk, KeepsPromises, KeepsHope, Sensible, NodeGrows, JobOk;
    var n, k, x := e.n, e.k, net[e.n];
    var y := Stepped(sc.w, net, e);
    var j := x.inbox[k].(stage := StageAfter(e));
    assert y == WithJob(x, k, j);
    assert NodeOk(sc, net, n);
    StagePromises(sc, n, x, k, j);
    assert x.inbox[k] in x.inbox && JobOk(sc, net, n, x.inbox[k]);
    SameContentOk(sc, net, n, x.inbox[k], j);
    InboxStep(sc, net, n, y);
    EventKeepsShape(sc.w, net, e);
    LocalKeepsInv(sc, net, e.n, y);
  }

  lemma SameContentOk<C>(sc: Scene<C>, net: Net<C>, i: nat, j: Job, j': Job)
    requires i < |net| == |sc.start| && j.from < |net| && JobOk(sc, net, i, j) && SameContent(j, j')
    ensures JobOk(sc, net, i, j')
  {
    if j.thread == Manager && Unopened(j) {
      forall p | Early(sc, i, p)
        ensures Arrived(sc, i, net[i], p) || Tells(sc, i, j', p)
      {
        assert Arrived(sc, i, net[i], p) || Tells(sc, i, j, p);
      }
    }
  }

  lemma FinishKeepsInv<C>(sc: Scene<C>, net: Net<C>, n: nat, k: nat)
    requires Inv(sc, net) && Enabled(sc.w, net, Finish(n, k))
    ensures Inv(sc, Do(sc.w, net, Finish(n, k)))
  {
    hide DiskOk, BufOk, WayOk, Sensible, JobOk, NodeGrows;
    var x, y := net[n], WithoutJob(net[n], k);
    assert NodeOk(sc, net, n);
    forall m | m in x.inbox
      ensures m in y.inbox || m == x.inbox[k]
    {
      OthersRemain(x, k, m);
    }
    InboxStep(sc, net, n, y);
    assert KeepsPromises(sc, n, x, y) && KeepsHope(sc, x, y);
    EventKeepsShape(sc.w, net, Finish(n, k));
    LocalKeepsInv(sc, net, n, y);
  }

  lemma OthersRemain<C>(x: Node<C>, k: nat, m: Job)
    requires k < |x.inbox| && m in x.inbox
    ensures m in WithoutJob(x, k).inbox || m == x.inbox[k]
  {
    assert x.inbox == x.inbox[..k] + [x.inbox[k]] + x.inbox[k + 1..];
  }

  /** An overwritten table has nothing to tell that the one in its place does not. */
  lemma ReplaceKeepsInv<C>(sc: Scene<C>, net: Net<C>, n: nat, k: nat, l: nat)
    requires Inv(sc, net) && Enabled(sc.w, net, Replace(n, k, l))
    ensures Inv(sc, Do(sc.w, net, Replace(n, k, l)))
  {
    hide DiskOk, BufOk, WayOk, KeepsPromises, KeepsHope, Sensible, NodeGrows;
    var x := net[n];
    var j := x.inbox[k].(stage := Posted);
    var mid := WithJob(x, l, j);
    var y := WithoutJob(mid, k);
    assert NodeOk(sc, net, n) && NodeShape(|net|, n, x);
    assert x.inbox[k] in x.inbox && JobOk(sc, net, n, x.inbox[k]);
    assert x.inbox[l] in x.inbox && JobOk(sc, net, n, x.inbox[l]) && JobShape(|net|, n, x.inbox[l]);
    SameContentOk(sc, net, n, x.inbox[k], j);
    ReplacedInbox(x, k, l);
    InboxStep(sc, net, n, y);
    ReplacePromises(sc, n, x, k, l, y);
    EventKeepsShape(sc.w, net, Replace(n, k, l));
    LocalKeepsInv(sc, net, n, y);
  }

  lemma ReplacedInbox<C>(x: Node<C>, k: nat, l: nat)
    requires k < |x.inbox| && l < |x.inbox| && k != l
    ensures
      var j := x.inbox[k].(stage := Posted);
      var y := WithoutJob(WithJob(x, l, j), k);
      && j in y.inbox
      && (forall m | m in y.inbox :: m == j || m in x.inbox)
      && (forall m | m in x.inbox :: m in y.inbox || m == x.inbox[k] || m == x.inbox[l])
  {
    var j := x.inbox[k].(stage := Posted);
    var mid := WithJob(x, l, j);
    var y := WithoutJob(mid, k);
    assert y.inbox[if l < k then l else l - 1] == j;
    forall m | m in x.inbox
      ensures m in y.inbox || m == x.inbox[k] || m == x.inbox[l]
    {
      StillThere(x, l, j, m);
      if m in mid.inbox {
        OthersRemain(mid, k, m);
      }
    }
  }

  /** Two unopened answers, of which the first tells everything that has not arrived. */
  lemma ReplacePromises<C>(sc: Scene<C>, n: nat, x: Node<C>, k: nat, l: nat, y: Node<C>)
    requires n < |sc.start| && k < |x.inbox| && l < |x.inbox| && k != l
    requires y == WithoutJob(WithJob(x, l, x.inbox[k].(stage := Posted)), k)
    requires forall m | m == x.inbox[k] || m == x.inbox[l] :: m.thread == Manager && Unopened(m) && m.changes == []
    requires forall p | Early(sc, n, p) :: Arrived(sc, n, x, p) || Tells(sc, n, x.inbox[k], p)
    ensures KeepsPromises(sc, n, x, y) && KeepsHope(sc, x, y)
  {
    var j := x.inbox[k].(stage := Posted);
    ReplacedInbox(x, k, l);
    forall p | Tabled(sc, n, x, p) && Early(sc, n, p)
      ensures Tabled(sc, n, y, p) || Arrived(sc, n, y, p)
    {
      if !Arrived(sc, n, x, p) {
        assert Tells(sc, n, j, p);
      }
    }
  }

  // ---- A change is dealt with ----

  lemma PullElsewhere<C>(r: Rules<C>, disk: Disk<C>, server: Disk<C>, c: Change, p: Path)
    requires p != c.path
    ensures Get(Pull(r, disk, server, c), p) == Get(disk, p)
  {
  }

  /** A pull takes its path to the cut copy, if the change is effective there, and never back. */
  lemma PullAt<C>(sc: Scene<C>, net: Net<C>, i: nat, from: nat, c: Change)
    requires i < |net| == |sc.start| && from < |net| && ChangeOk(sc, net, i, from, c) && PathOk(sc, i, net[i], c.path)
    ensures
      var after := Get(Pull(sc.w.rules, net[i].disk, net[from].disk, c), c.path);
      && (after == Get(net[i].disk, c.path) || (Mover(sc, i, c.path) && after == Cut(sc, c.path)))
      && (Effective(sc, i, c) ==> after == Cut(sc, c.path))
  {
    var p := c.path;
    if p in sc.target {
      assert p in net[from].disk && Some(sc.w.rules.delivered(net[from].disk[p])) == Cut(sc, p);
    }
  }

  /** The node after its first change of job `k`, served or dealt with on the spot. */
  ghost function Handled<C>(sc: Scene<C>, net: Net<C>, n: nat, k: nat): Node<C>
    requires At(net, n, k) && net[n].inbox[k].changes != [] && net[n].inbox[k].from < |net|
  {
    Advanced(sc.w, net[n], k, net[net[n].inbox[k].from].disk)
  }

  lemma StepIsHandled<C>(sc: Scene<C>, net: Net<C>, e: Event)
    requires Enabled(sc.w, net, e) && (e.Next? || e.Serve?) && net[e.n].inbox[e.k].from < |net|
    ensures Stepped(sc.w, net, e) == Handled(sc, net, e.n, e.k)
  {
  }

  lemma HandledGrows<C>(sc: Scene<C>, net: Net<C>, n: nat, k: nat)
    requires Inv(sc, net) && At(net, n, k) && Busy(net[n].inbox[k]) && net[n].inbox[k].changes != []
    ensures net[n].inbox[k].from < |net|
    ensures
      var y, c := Handled(sc, net, n, k), net[n].inbox[k].changes[0];
      && NodeGrows(sc, n, net[n], y)
      && ChangeOk(sc, net, n, net[n].inbox[k].from, c)
      && (Effective(sc, n, c) ==> AtCut(sc, n, y, c.path))
  {
    var x, j := net[n], net[n].inbox[k];
    assert NodeOk(sc, net, n) && j in x.inbox && JobOk(sc, net, n, j);
    var c := j.changes[0];
    assert c in j.changes && ChangeOk(sc, net, n, j.from, c);
    assert PathOk(sc, n, x, c.path);
    PullAt(sc, net, n, j.from, c);
    var y := Handled(sc, net, n, k);
    forall p
      ensures Get(y.disk, p) == Get(x.disk, p) || AtCut(sc, n, y, p)
    {
      if p != c.path {
        PullElsewhere(sc.w.rules, x.disk, net[j.from].disk, c, p);
      }
    }
  }

  lemma HandledDiskOk<C>(sc: Scene<C>, net: Net<C>, n: nat, k: nat)
    requires Inv(sc, net) && At(net, n, k) && Busy(net[n].inbox[k]) && net[n].inbox[k].changes != []
    requires net[n].inbox[k].from < |net|
    ensures DiskOk(sc, net[n := Handled(sc, net, n, k)], n)
  {
    var x, y := net[n], Handled(sc, net, n, k);
    var c, next := x.inbox[k].changes[0], net[n := Handled(sc, net, n, k)];
    assert NodeOk(sc, net, n);
    HandledGrows(sc, net, n, k);
    LocalGrows(sc, net, n, y);
    forall p
      ensures PathOk(sc, n, y, p)
    {
      assert PathOk(sc, n, x, p);
      assert Get(y.disk, p) == Get(x.disk, p) || AtCut(sc, n, y, p);
    }
    forall p | Get(y.disk, p) != Get(sc.start[n], p)
      ensures Begun(sc, next, p)
    {
      if Begun(sc, net, p) {
        BegunStays(sc, net, next, p);
      } else {
        MovedNow(sc, net, n, k, p);
      }
    }
  }

  /** A disk that moved just now moved to the cut copy, told by an effective change. */
  lemma MovedNow<C>(sc: Scene<C>, net: Net<C>, n: nat, k: nat, p: Path)
    requires Inv(sc, net) && At(net, n, k) && Busy(net[n].inbox[k]) && net[n].inbox[k].changes != []
    requires net[n].inbox[k].from < |net| && !Begun(sc, net, p)
    requires Get(Handled(sc, net, n, k).disk, p) != Get(sc.start[n], p)
    ensures Begun(sc, net[n := Handled(sc, net, n, k)], p)
  {
    var x, y, j := net[n], Handled(sc, net, n, k), net[n].inbox[k];
    var c, next := j.changes[0], net[n := Handled(sc, net, n, k)];
    assert NodeOk(sc, net, n) && PathOk(sc, n, x, p);
    HandledGrows(sc, net, n, k);
    assert Get(x.disk, p) == Get(sc.start[n], p);
    if p != c.path {
      PullElsewhere(sc.w.rules, x.disk, net[j.from].disk, c, p);
    } else if !Effective(sc, n, c) {
      assert Skips(sc.w.rules, x.disk, c);
    } else {
      assert Early(sc, n, p) && Get(next[n].disk, p) == Cut(sc, p);
    }
  }

  lemma HandledInbox<C>(sc: Scene<C>, net: Net<C>, n: nat, k: nat)
    requires Inv(sc, net) && At(net, n, k) && Busy(net[n].inbox[k]) && net[n].inbox[k].changes != []
    requires net[n].inbox[k].from < |net|
    ensures forall j | j in Handled(sc, net, n, k).inbox :: j.from < |net| && JobOk(sc, net, n, j)
  {
    var x, y, j := net[n], Handled(sc, net, n, k), net[n].inbox[k];
    assert NodeOk(sc, net, n) && j in x.inbox && JobOk(sc, net, n, j);
    forall m | m in y.inbox
      ensures m.from < |net| && JobOk(sc, net, n, m)
    {
      assert m in x.inbox || m == j.(changes := j.changes[1..], stage := Open);
      if m !in x.inbox {
        forall c | c in m.changes
          ensures ChangeOk(sc, net, n, m.from, c)
        {
          assert c in j.changes;
        }
      }
    }
  }

  lemma HandledPromises<C>(sc: Scene<C>, net: Net<C>, n: nat, k: nat)
    requires Inv(sc, net) && At(net, n, k) && Busy(net[n].inbox[k]) && net[n].inbox[k].changes != []
    requires net[n].inbox[k].from < |net|
    ensures KeepsPromises(sc, n, net[n], Handled(sc, net, n, k)) && KeepsHope(sc, net[n], Handled(sc, net, n, k))
  {
    var x, y, j := net[n], Handled(sc, net, n, k), net[n].inbox[k];
    var j' := j.(changes := j.changes[1..], stage := Open);
    HandledGrows(sc, net, n, k);
    forall m | m in x.inbox
      ensures m in y.inbox || m == j
    {
      StillThere(x, k, j', m);
    }
    forall p | Waiting(sc, n, x, p) && Mover(sc, n, p)
      ensures Waiting(sc, n, y, p) || Arrived(sc, n, y, p)
    {
      var m :| m in x.inbox && Awaits(sc, n, m, p);
      if m !in y.inbox {
        HeadOrRest(sc, n, j, p);
        StillThere(x, k, j', j);
      }
    }
    forall p | Tabled(sc, n, x, p)
      ensures Tabled(sc, n, y, p)
    {
      var m :| m in x.inbox && m.thread != Handler && Unopened(m) && Tells(sc, n, m, p);
      assert m in y.inbox;
    }
  }

  lemma HeadOrRest<C>(sc: Scene<C>, i: nat, j: Job, p: Path)
    requires i < |sc.start| && j.changes != [] && Awaits(sc, i, j, p)
    ensures
      || Awaits(sc, i, j.(changes := j.changes[1..], stage := Open), p)
      || (j.changes[0].path == p && Effective(sc, i, j.changes[0]))
  {
    var c :| c in j.changes && c.path == p && Effective(sc, i, c);
    assert j.changes == [j.changes[0]] + j.changes[1..];
  }

  lemma HandleKeepsInv<C>(sc: Scene<C>, net: Net<C>, e: Event)
    requires Inv(sc, net) && Enabled(sc.w, net, e) && (e.Next? || e.Serve?)
    ensures Inv(sc, Do(sc.w, net, e))
  {
    var n, k := e.n, e.k;
    assert NodeOk(sc, net, n);
    HandledGrows(sc, net, n, k);
    StepIsHandled(sc, net, e);
    var y := Handled(sc, net, n, k);
    LocalGrows(sc, net, n, y);
    HandledDiskOk(sc, net, n, k);
    HandledInbox(sc, net, n, k);
    InboxStaysOk(sc, net, net[n := y], n);
    BufStaysOk(sc, net, net[n := y], n);
    HandledPromises(sc, net, n, k);
    EventKeepsShape(sc.w, net, e);
    LocalKeepsInv(sc, net, e.n, y);
  }

  // ---- Flushes ----

  /** What a node broadcasts, its receivers may act on. */
  lemma SaidIsOk<C>(sc: Scene<C>, net: Net<C>, n: nat, i: nat, c: Change)
    requires Sensible(sc) && n < |net| == |sc.start| && i < |net| && i != n && SaidOk(sc, net, n, c)
    ensures ChangeOk(sc, net, i, n, c)
    ensures Effective(sc, i, c) <==> Echoes(sc, i, c.path)
  {
    var p := c.path;
    assert Effective(sc, i, c) <==> Echoes(sc, i, p);
    assert Mover(sc, n, p) && Noticed(sc, n, p);
    if Echoes(sc, i, p) {
      assert Mover(sc, i, p);
    }
  }

  lemma FlushInbox<C>(sc: Scene<C>, net: Net<C>, n: nat, i: nat)
    requires Inv(sc, net) && Enabled(sc.w, net, Flush(n)) && i < |net|
    ensures forall j | j in Do(sc.w, net, Flush(n))[i].inbox :: j.from < |net| && JobOk(sc, net, i, j)
  {
    var next := Do(sc.w, net, Flush(n));
    assert NodeOk(sc, net, i) && NodeOk(sc, net, n);
    forall j | j in next[i].inbox
      ensures j.from < |net| && JobOk(sc, net, i, j)
    {
      if j !in net[i].inbox {
        assert i != n && j == News(n, net[n].buf);
        forall c | c in j.changes
          ensures ChangeOk(sc, net, i, n, c)
        {
          SaidIsOk(sc, net, n, i, c);
        }
      }
    }
  }

  lemma FlushGrows<C>(sc: Scene<C>, net: Net<C>, n: nat)
    requires Enabled(sc.w, net, Flush(n))
    ensures Grows(sc, net, Do(sc.w, net, Flush(n)))
  {
    var next := Do(sc.w, net, Flush(n));
    forall i | 0 <= i < |net|
      ensures NodeGrows(sc, i, net[i], next[i])
    {
      SameDiskGrows(sc, i, net[i], next[i]);
    }
  }

  lemma FlushKeepsNode<C>(sc: Scene<C>, net: Net<C>, n: nat, i: nat)
    requires Inv(sc, net) && Enabled(sc.w, net, Flush(n)) && i < |net|
    ensures
      var next := Do(sc.w, net, Flush(n));
      DiskOk(sc, next, i) && InboxOk(sc, next, i) && BufOk(sc, next, i)
  {
    var next := Do(sc.w, net, Flush(n));
    FlushGrows(sc, net, n);
    FlushInbox(sc, net, n, i);
    InboxStaysOk(sc, net, next, i);
    assert NodeOk(sc, net, i);
    if i == n {
      forall p
        ensures PathOk(sc, i, next[i], p)
      {
        assert PathOk(sc, i, net[i], p);
      }
      forall p | Get(next[i].disk, p) != Get(sc.start[i], p)
        ensures Begun(sc, next, p)
      {
        BegunStays(sc, net, next, p);
      }
    } else {
      DiskStaysOk(sc, net, next, i);
      BufStaysOk(sc, net, next, i);
    }
  }

  lemma FlushKeepsWaiting<C>(sc: Scene<C>, net: Net<C>, n: nat, i: nat, p: Path)
    requires Enabled(sc.w, net, Flush(n)) && i < |net| && i < |sc.start|
    ensures
      var next := Do(sc.w, net, Flush(n));
      && (Waiting(sc, i, net[i], p) ==> Waiting(sc, i, next[i], p))
      && (Tabled(sc, i, net[i], p) ==> Tabled(sc, i, next[i], p))
      && (Hailed(net, i) ==> Hailed(next, i))
  {
    var next := Do(sc.w, net, Flush(n));
    assert forall m, j | 0 <= m < |net| && j in net[m].inbox :: j in next[m].inbox;
  }

  /** The announcement that was hoped for is made now, or still to be made. */
  lemma FlushKeepsHope<C>(sc: Scene<C>, net: Net<C>, n: nat, i: nat, p: Path)
    requires Inv(sc, net) && Enabled(sc.w, net, Flush(n)) && i < |net|
    requires Late(sc, i, p) && Echoes(sc, i, p) && ToBeTold(sc, net, i, p)
    ensures
      var next := Do(sc.w, net, Flush(n));
      Waiting(sc, i, next[i], p) || ToBeTold(sc, next, i, p)
  {
    var next := Do(sc.w, net, Flush(n));
    var j :| 0 <= j < |net| && Teller(sc, i, j, p) && Unsaid(sc, net[j], p);
    if j == n && Mentions(net[n].buf, p) {
      var c :| c in net[n].buf && c.path == p;
      assert NodeOk(sc, net, n) && SaidOk(sc, net, n, c);
      SaidIsOk(sc, net, n, i, c);
      var m := News(n, net[n].buf);
      assert m in next[i].inbox && Awaits(sc, i, m, p);
    } else {
      assert Unsaid(sc, next[j], p);
    }
  }

  lemma FlushKeepsInv<C>(sc: Scene<C>, net: Net<C>, n: nat)
    requires Inv(sc, net) && Enabled(sc.w, net, Flush(n))
    ensures Inv(sc, Do(sc.w, net, Flush(n)))
  {
    var next := Do(sc.w, net, Flush(n));
    EventKeepsShape(sc.w, net, Flush(n));
    FlushGrows(sc, net, n);
    forall i | 0 <= i < |next|
      ensures NodeOk(sc, next, i)
    {
      FlushKeepsNode(sc, net, n, i);
      assert NodeOk(sc, net, i);
      forall p | Mover(sc, i, p)
        ensures OnItsWay(sc, next, i, p)
      {
        assert OnItsWay(sc, net, i, p);
        FlushKeepsWaiting(sc, net, n, i, p);
        if Arrived(sc, i, net[i], p) {
          assert NodeGrows(sc, i, net[i], next[i]);
          ArrivedStays(sc, i, net[i], next[i], p);
        } else if Late(sc, i, p) && Echoes(sc, i, p) && ToBeTold(sc, net, i, p) {
          FlushKeepsHope(sc, net, n, i, p);
        }
      }
    }
  }

  // ---- A job is opened ----

  /** Broadcasts keep their changes, a table becomes the changes its thread derives from it. */
  lemma OpenedBroadcast<C>(sc: Scene<C>, net: Net<C>, n: nat, k: nat)
    requires Inv(sc, net) && Enabled(sc.w, net, Take(n, k)) && net[n].inbox[k].thread == Handler
    ensures
      var x, j := net[n], net[n].inbox[k];
      var y := WithJob(x, k, Opened(sc.w, x, j));
      && KeepsPromises(sc, n, x, y) && KeepsHope(sc, x, y)
      && forall m | m in y.inbox :: m.from < |net| && JobOk(sc, net, n, m)
  {
    var x, j := net[n], net[n].inbox[k];
    var j' := Opened(sc.w, x, j);
    var y := WithJob(x, k, j');
    assert NodeOk(sc, net, n) && j in x.inbox && JobOk(sc, net, n, j);
    forall m | m in x.inbox
      ensures m in y.inbox || m == j
    {
      StillThere(x, k, j', m);
    }
    StillThere(x, k, j', j);
    forall p | Waiting(sc, n, x, p)
      ensures Waiting(sc, n, y, p)
    {
      var m :| m in x.inbox && Awaits(sc, n, m, p);
      assert m == j ==> Awaits(sc, n, j', p);
    }
  }

  /** What the newcomer's table manager makes of an answer. */
  lemma OpenedAnswerOk<C>(sc: Scene<C>, net: Net<C>, n: nat, j: Job)
    requires n < |net| == |sc.start| && DiskOk(sc, net, n) && j.from < |net| && j.thread == Manager
    requires AnswerOk(sc, net, n, j)
    ensures JobOk(sc, net, n, Opened(sc.w, net[n], j))
  {
    var x := net[n];
    NewcomerRequests(sc.w.literal, x.table, j.table);
    forall c | c in Opened(sc.w, x, j).changes
      ensures ChangeOk(sc, net, n, j.from, c)
    {
      DiffMembers(x.table, j.table, c);
      assert TellOk(sc, net, n, j.from, c.path, j.table[c.path]);
      assert PathOk(sc, n, x, c.path);
      assert ChangeOk(sc, net, n, j.from, Change(c.path, c.hash, Edit));
    }
  }

  /** A path a table tells of, and that has not arrived, is asked for. */
  lemma OpenedAnswerAwaits<C>(sc: Scene<C>, net: Net<C>, n: nat, j: Job, p: Path)
    requires n < |net| == |sc.start| && DiskOk(sc, net, n) && j.thread == Manager
    requires Tells(sc, n, j, p) && Early(sc, n, p)
    ensures Awaits(sc, n, Opened(sc.w, net[n], j), p) || Arrived(sc, n, net[n], p)
  {
    var x := net[n];
    assert PathOk(sc, n, x, p);
    if !Arrived(sc, n, x, p) {
      NewcomerRequests(sc.w.literal, x.table, j.table);
      var c := Change(p, j.table[p], if p in x.table then Edit else Addition);
      DiffMembers(x.table, j.table, c);
      assert c in Opened(sc.w, x, j).changes && Effective(sc, n, c);
    }
  }

  /** An opened table, given that it asks for what it tells of. */
  lemma OpenedTable<C>(sc: Scene<C>, net: Net<C>, n: nat, k: nat)
    requires Inv(sc, net) && Enabled(sc.w, net, Take(n, k)) && net[n].inbox[k].thread != Handler
    requires JobOk(sc, net, n, Opened(sc.w, net[n], net[n].inbox[k]))
    requires forall p | Tells(sc, n, net[n].inbox[k], p) && Early(sc, n, p) ::
               Awaits(sc, n, Opened(sc.w, net[n], net[n].inbox[k]), p) || Arrived(sc, n, net[n], p)
    ensures
      var x, j := net[n], net[n].inbox[k];
      var y := WithJob(x, k, Opened(sc.w, x, j));
      && KeepsPromises(sc, n, x, y)
      && (forall m | m in x.inbox :: m in y.inbox || m == j)
      && forall m | m in y.inbox :: m.from < |net| && JobOk(sc, net, n, m)
  {
    var x, j := net[n], net[n].inbox[k];
    var j' := Opened(sc.w, x, j);
    var y := WithJob(x, k, j');
    assert NodeOk(sc, net, n) && j in x.inbox && JobOk(sc, net, n, j);
    forall m | m in x.inbox
      ensures m in y.inbox || m == j
    {
      StillThere(x, k, j', m);
    }
    StillThere(x, k, j', j);
    forall p | Tabled(sc, n, x, p) && Early(sc, n, p)
      ensures Tabled(sc, n, y, p) || Waiting(sc, n, y, p) || Arrived(sc, n, y, p)
    {
      var m :| m in x.inbox && m.thread != Handler && Unopened(m) && Tells(sc, n, m, p);
      assert m == j ==> Awaits(sc, n, j', p) || Arrived(sc, n, x, p);
    }
  }

  lemma TakeLocalKeepsInv<C>(sc: Scene<C>, net: Net<C>, n: nat, k: nat)
    requires Inv(sc, net) && Enabled(sc.w, net, Take(n, k)) && net[n].inbox[k].thread != Discoverer
    ensures Inv(sc, Do(sc.w, net, Take(n, k)))
  {
    var x, j := net[n], net[n].inbox[k];
    var y := WithJob(x, k, Opened(sc.w, x, j));
    assert NodeOk(sc, net, n) && j in x.inbox && JobOk(sc, net, n, j);
    if j.thread == Handler {
      OpenedBroadcast(sc, net, n, k);
    } else {
      OpenedAnswerOk(sc, net, n, j);
      forall p | Tells(sc, n, j, p) && Early(sc, n, p)
        ensures Awaits(sc, n, Opened(sc.w, x, j), p) || Arrived(sc, n, x, p)
      {
        OpenedAnswerAwaits(sc, net, n, j, p);
      }
      OpenedTable(sc, net, n, k);
      assert KeepsHope(sc, x, y);
    }
    InboxStep(sc, net, n, y);
    EventKeepsShape(sc.w, net, Take(n, k));
    LocalKeepsInv(sc, net, n, y);
  }

  // An arrival

  /** At most one possible edit leaves no two of them side by side. */
  lemma FewEditsApart<C>(sc: Scene<C>, net: Net<C>, n: nat, t: Table)
    requires n < |net| == |sc.start| && DiskOk(sc, net, n)
    requires forall p, q | MayEdit(sc, n, t, p) && MayEdit(sc, n, t, q) :: p == q
    ensures NoneAdjacent(MergeDiff(net[n].table, t), true)
  {
    var d := MergeDiff(net[n].table, t);
    MergeDiffDescribes(net[n].table, t);
    forall k | 0 < k < |d|
      ensures !(Doomed(d[k - 1], true) && Doomed(d[k], true))
    {
      if Doomed(d[k - 1], true) && Doomed(d[k], true) {
        DoomedMayEdit(sc, net, n, t, d[k - 1]);
        DoomedMayEdit(sc, net, n, t, d[k]);
        assert false;
      }
    }
  }

  lemma DoomedMayEdit<C>(sc: Scene<C>, net: Net<C>, n: nat, t: Table, c: Change)
    requires n < |net| == |sc.start| && DiskOk(sc, net, n)
    requires c in MergeDiff(net[n].table, t) && Doomed(c, true)
    ensures MayEdit(sc, n, t, c.path)
  {
    var x := net[n];
    DiffMembers(x.table, t, c);
    assert PathOk(sc, n, x, c.path);
    assert MayList(sc, n, c.path, x.table[c.path]);
  }

  lemma OpenedHelloOk<C>(sc: Scene<C>, net: Net<C>, n: nat, j: Job)
    requires n < |net| == |sc.start| && DiskOk(sc, net, n) && j.from < |net| && j.thread == Discoverer
    requires EntriesOk(sc, net, n, j)
    requires sc.w.literal ==> NoneAdjacent(MergeDiff(net[n].table, j.table), true)
    ensures JobOk(sc, net, n, Opened(sc.w, net[n], j))
  {
    var x := net[n];
    forall c | c in Opened(sc.w, x, j).changes
      ensures ChangeOk(sc, net, n, j.from, c)
    {
      ExistingRequests(sc.w.literal, x.table, j.table, c);
      assert PathOk(sc, n, x, c.path);
    }
  }

  lemma LoopIsSafe<C>(sc: Scene<C>, net: Net<C>, n: nat, j: Job)
    requires n < |net| == |sc.start| && DiskOk(sc, net, n) && j.from < |net| && HelloOk(sc, net, n, j)
    ensures sc.w.literal ==> NoneAdjacent(MergeDiff(net[n].table, j.table), true)
  {
    if sc.w.literal {
      FewEditsApart(sc, net, n, j.table);
    }
  }

  lemma OpenedHelloAwaits<C>(sc: Scene<C>, net: Net<C>, n: nat, j: Job, p: Path)
    requires n < |net| == |sc.start| && DiskOk(sc, net, n) && j.from < |net| && j.thread == Discoverer
    requires sc.w.literal ==> NoneAdjacent(MergeDiff(net[n].table, j.table), true)
    requires Tells(sc, n, j, p) && Early(sc, n, p)
    ensures Awaits(sc, n, Opened(sc.w, net[n], j), p) || Arrived(sc, n, net[n], p)
  {
    var x := net[n];
    assert PathOk(sc, n, x, p);
    if !Arrived(sc, n, x, p) {
      var c := Change(p, j.table[p], Addition);
      ExistingRequests(sc.w.literal, x.table, j.table, c);
      assert c in Opened(sc.w, x, j).changes && Effective(sc, n, c);
    }
  }

  // The answer to it

  lemma TableInPaths<C>(sc: Scene<C>, net: Net<C>, n: nat)
    requires n < |net| == |sc.start| && DiskOk(sc, net, n)
    ensures net[n].table.Keys <= Paths(sc)
  {
    forall p | p in net[n].table
      ensures p in Paths(sc)
    {
      assert PathOk(sc, n, net[n], p);
    }
  }

  lemma {:induction false} SubsetSize<T>(a: set<T>, b: set<T>)
    requires a <= b
    ensures |a| <= |b|
    decreases |b|
  {
    if a != {} {
      var x :| x in a;
      SubsetSize(a - {x}, b - {x});
    }
  }

  lemma WholeAnswer<C>(sc: Scene<C>, net: Net<C>, n: nat)
    requires n < |net| == |sc.start| && DiskOk(sc, net, n) && |Paths(sc)| < 0x1_0000
    ensures PacketCodec.OnTheWire(net[n].table) == net[n].table
  {
    TableInPaths(sc, net, n);
    SubsetSize(net[n].table.Keys, Paths(sc));
    assert |net[n].table.Keys| == |net[n].table|;
    PacketCodec.WholeTableIffSmall(net[n].table);
  }

  /** A node that moved away from what its table said at first has begun. */
  lemma MovedTable<C>(sc: Scene<C>, net: Net<C>, n: nat, p: Path)
    requires n < |net| == |sc.start| && DiskOk(sc, net, n)
    requires Get(net[n].table, p) != FirstHash(sc, n, p)
    ensures AtCut(sc, n, net[n], p) && Noticed(sc, n, p) && Begun(sc, net, p) && Get(net[n].table, p) == CutHash(sc, p)
  {
    assert PathOk(sc, n, net[n], p);
    assert Get(net[n].disk, p) != Get(sc.start[n], p);
  }

  lemma AnswerEntryOk<C>(sc: Scene<C>, net: Net<C>, n: nat, f: nat, p: Path)
    requires Sensible(sc) && n < |net| == |sc.start| && f < |net| && f != n && DiskOk(sc, net, n) && p in net[n].table
    requires p in sc.start[n] ==> Answerable(sc, n, f, p)
    ensures TellOk(sc, net, f, n, p, net[n].table[p])
  {
    var x, hash := net[n], net[n].table[p];
    assert PathOk(sc, n, x, p);
    if Some(hash) == FirstHash(sc, n, p) {
      assert Answerable(sc, n, f, p);
    } else {
      MovedTable(sc, net, n, p);
      var c := Change(p, hash, Edit);
      assert SaidOk(sc, net, n, c);
      SaidIsOk(sc, net, n, f, c);
    }
  }

  lemma AnswerEntryTells<C>(sc: Scene<C>, net: Net<C>, n: nat, f: nat, p: Path)
    requires n < |net| == |sc.start| && f < |net| && f != n && DiskOk(sc, net, n)
    requires Early(sc, f, p) && Missed(sc, n, f, p)
    ensures Arrived(sc, f, net[f], p) || Tells(sc, f, Answer(n, net[n].table), p)
  {
    assert PathOk(sc, n, net[n], p);
    if Get(net[n].table, p) != FirstHash(sc, n, p) {
      MovedTable(sc, net, n, p);
      var j :| 0 <= j < |net| && Early(sc, j, p) && Get(net[j].disk, p) == Cut(sc, p);
      assert j == f;
    }
  }

  lemma AnswerIsOk<C>(sc: Scene<C>, net: Net<C>, n: nat, j: Job)
    requires Sensible(sc) && n < |net| == |sc.start| && j.from < |net| && j.from != n && DiskOk(sc, net, n)
    requires HelloOk(sc, net, n, j)
    ensures JobOk(sc, net, j.from, Answer(n, PacketCodec.OnTheWire(net[n].table)))
  {
    var f := j.from;
    WholeAnswer(sc, net, n);
    forall p | p in net[n].table
      ensures TellOk(sc, net, f, n, p, net[n].table[p])
    {
      AnswerEntryOk(sc, net, n, f, p);
    }
    forall p | Early(sc, f, p)
      ensures Arrived(sc, f, net[f], p) || Tells(sc, f, Answer(n, net[n].table), p)
    {
      assert Missed(sc, n, f, p);
      AnswerEntryTells(sc, net, n, f, p);
    }
  }

  /** Only inboxes grew, except that node `n` has opened `j`, whose sender now has an answer. */
  ghost predicate Replied<C>(net: Net<C>, next: Net<C>, n: nat, j: Job, answer: Job) {
    && |next| == |net| && n < |net| && j.from < |net|
    && (forall i | 0 <= i < |net| :: next[i] == net[i].(inbox := next[i].inbox))
    && (forall i, m | 0 <= i < |net| && m in net[i].inbox :: m in next[i].inbox || (i == n && m == j))
    && answer in next[j.from].inbox
  }

  lemma TakenReplies<C>(w: World<C>, net: Net<C>, n: nat, k: nat)
    requires Enabled(w, net, Take(n, k)) && net[n].inbox[k].thread == Discoverer
    requires forall m | m in net[n].inbox ::
               m in WithJob(net[n], k, Opened(w, net[n], net[n].inbox[k])).inbox || m == net[n].inbox[k]
    ensures Replied(net, Taken(w, net, n, k), n, net[n].inbox[k], Answer(n, PacketCodec.OnTheWire(net[n].table)))
  {
    hide PacketCodec.OnTheWire, Requests, Opened, Idle;
    var x, j := net[n], net[n].inbox[k];
    var answer := Answer(n, PacketCodec.OnTheWire(x.table));
    var next, y := Taken(w, net, n, k), WithJob(x, k, Opened(w, x, j));
    assert next == net[n := y][j.from := Receives(net[j.from], answer)];
    assert next[j.from].inbox[|net[j.from].inbox|] == answer;
  }

  /** Whoever was hoping for an answer still is, or has one. */
  lemma HelloKeepsHails<C>(net: Net<C>, next: Net<C>, n: nat, j: Job, answer: Job, i: nat)
    requires Replied(net, next, n, j, answer) && Hailed(net, i) && i != j.from
    ensures Hailed(next, i)
  {
    var m, h :| 0 <= m < |net| && h in net[m].inbox && Hails(h, i);
    assert h in next[m].inbox;
  }

  lemma HelloKeepsTold<C>(sc: Scene<C>, net: Net<C>, next: Net<C>, n: nat, j: Job, answer: Job, i: nat, p: Path)
    requires Replied(net, next, n, j, answer) && ToBeTold(sc, net, i, p)
    ensures ToBeTold(sc, next, i, p)
  {
    var t :| 0 <= t < |net| && Teller(sc, i, t, p) && Unsaid(sc, net[t], p);
    assert next[t] == net[t].(inbox := next[t].inbox);
    assert Unsaid(sc, next[t], p);
  }

  lemma HelloKeepsWaiting<C>(sc: Scene<C>, net: Net<C>, next: Net<C>, n: nat, j: Job, answer: Job, i: nat, p: Path)
    requires Replied(net, next, n, j, answer) && i < |net| == |sc.start| && Mover(sc, i, p)
    requires j.changes == [] && KeepsPromises(sc, n, net[n], next[n])
    requires Waiting(sc, i, net[i], p) || (Early(sc, i, p) && Tabled(sc, i, net[i], p))
    ensures OnItsWay(sc, next, i, p)
  {
    if i != n {
      assert forall m | m in net[i].inbox :: m in next[i].inbox;
    }
  }

  lemma HelloKeepsWay<C>(sc: Scene<C>, net: Net<C>, next: Net<C>, n: nat, j: Job, answer: Job, i: nat, p: Path)
    requires Replied(net, next, n, j, answer) && i < |net| == |sc.start| && Mover(sc, i, p) && OnItsWay(sc, net, i, p)
    requires j.changes == [] && KeepsPromises(sc, n, net[n], next[n])
    requires answer.thread == Manager && Unopened(answer) && answer.from < |net| && AnswerOk(sc, net, j.from, answer)
    ensures OnItsWay(sc, next, i, p)
  {
    assert next[i] == net[i].(inbox := next[i].inbox);
    if Arrived(sc, i, net[i], p) {
      assert Arrived(sc, i, next[i], p);
    } else if Waiting(sc, i, net[i], p) || (Early(sc, i, p) && Tabled(sc, i, net[i], p)) {
      HelloKeepsWaiting(sc, net, next, n, j, answer, i, p);
    } else if Early(sc, i, p) && Hailed(net, i) {
      if i == j.from {
        assert Tells(sc, i, answer, p);
      } else {
        HelloKeepsHails(net, next, n, j, answer, i);
      }
    } else {
      HelloKeepsTold(sc, net, next, n, j, answer, i, p);
    }
  }

  lemma HelloKeepsNode<C>(sc: Scene<C>, net: Net<C>, next: Net<C>, i: nat)
    requires Sensible(sc) && i < |net| == |sc.start| && |next| == |net| && NodeOk(sc, net, i) && Grows(sc, net, next)
    requires next[i] == net[i].(inbox := next[i].inbox)
    requires forall j | j in next[i].inbox :: j.from < |net| && JobOk(sc, net, i, j)
    ensures DiskOk(sc, next, i) && InboxOk(sc, next, i) && BufOk(sc, next, i)
  {
    DiskStaysOk(sc, net, next, i);
    BufStaysOk(sc, net, next, i);
    InboxStaysOk(sc, net, next, i);
  }

  lemma InboxesGrow<C>(sc: Scene<C>, net: Net<C>, next: Net<C>)
    requires |next| == |net| && forall i | 0 <= i < |net| :: next[i] == net[i].(inbox := next[i].inbox)
    ensures Grows(sc, net, next)
  {
    forall i | 0 <= i < |net|
      ensures NodeGrows(sc, i, net[i], next[i])
    {
      SameDiskGrows(sc, i, net[i], next[i]);
    }
  }

  lemma HelloAwaits<C>(sc: Scene<C>, net: Net<C>, n: nat, j: Job)
    requires n < |net| == |sc.start| && DiskOk(sc, net, n) && j.from < |net| && j.thread == Discoverer
    requires sc.w.literal ==> NoneAdjacent(MergeDiff(net[n].table, j.table), true)
    ensures forall p | Tells(sc, n, j, p) && Early(sc, n, p) ::
              Awaits(sc, n, Opened(sc.w, net[n], j), p) || Arrived(sc, n, net[n], p)
  {
    hide Opened, Awaits, Arrived, Tells, Early, DiskOk;
    forall p | Tells(sc, n, j, p) && Early(sc, n, p)
      ensures Awaits(sc, n, Opened(sc.w, net[n], j), p) || Arrived(sc, n, net[n], p)
    {
      OpenedHelloAwaits(sc, net, n, j, p);
    }
  }

  /** The node that opens an arrival, and everybody else. */
  lemma HelloOpened<C>(sc: Scene<C>, net: Net<C>, n: nat, k: nat)
    requires Inv(sc, net) && Enabled(sc.w, net, Take(n, k)) && net[n].inbox[k].thread == Discoverer
    ensures
      var x, j, next := net[n], net[n].inbox[k], Taken(sc.w, net, n, k);
      var answer := Answer(n, PacketCodec.OnTheWire(x.table));
      && j.changes == [] && j.from < |net| && KeepsPromises(sc, n, x, next[n])
      && JobOk(sc, net, n, Opened(sc.w, x, j)) && JobOk(sc, net, j.from, answer)
      && Replied(net, next, n, j, answer)
  {
    hide Opened, KeepsPromises, Awaits, Arrived, Tells, Early, Replied, PacketCodec.OnTheWire, Requests, Idle;
    var x, j := net[n], net[n].inbox[k];
    assert NodeOk(sc, net, n) && j in x.inbox && JobOk(sc, net, n, j);
    LoopIsSafe(sc, net, n, j);
    OpenedHelloOk(sc, net, n, j);
    HelloAwaits(sc, net, n, j);
    OpenedTable(sc, net, n, k);
    AnswerIsOk(sc, net, n, j);
    TakenReplies(sc.w, net, n, k);
    assert Taken(sc.w, net, n, k)[n] == WithJob(x, k, Opened(sc.w, x, j));
  }

  lemma TakenInboxes<C>(w: World<C>, net: Net<C>, n: nat, k: nat, i: nat, m: Job)
    requires Enabled(w, net, Take(n, k)) && net[n].inbox[k].thread == Discoverer && i < |net|
    requires m in Taken(w, net, n, k)[i].inbox
    ensures
      var j := net[n].inbox[k];
      || m in net[i].inbox
      || (i == n && m == Opened(w, net[n], j))
      || (i == j.from && m == Answer(n, PacketCodec.OnTheWire(net[n].table)))
  {
    hide Opened, Requests, PacketCodec.OnTheWire, Idle;
  }

  lemma HelloInboxes<C>(sc: Scene<C>, net: Net<C>, n: nat, k: nat, i: nat)
    requires Inv(sc, net) && Enabled(sc.w, net, Take(n, k)) && net[n].inbox[k].thread == Discoverer && i < |net|
    requires JobOk(sc, net, n, Opened(sc.w, net[n], net[n].inbox[k])) && net[n].inbox[k].from < |net|
    requires JobOk(sc, net, net[n].inbox[k].from, Answer(n, PacketCodec.OnTheWire(net[n].table)))
    ensures forall m | m in Taken(sc.w, net, n, k)[i].inbox :: m.from < |net| && JobOk(sc, net, i, m)
  {
    hide JobOk, Taken, Requests, PacketCodec.OnTheWire, Idle;
    assert NodeOk(sc, net, i) && NodeOk(sc, net, n);
    assert |Taken(sc.w, net, n, k)| == |Do(sc.w, net, Take(n, k))| == |net|;
    forall m | m in Taken(sc.w, net, n, k)[i].inbox
      ensures m.from < |net| && JobOk(sc, net, i, m)
    {
      TakenInboxes(sc.w, net, n, k, i, m);
    }
  }

  lemma HelloKeepsInv<C>(sc: Scene<C>, net: Net<C>, n: nat, k: nat)
    requires Inv(sc, net) && Enabled(sc.w, net, Take(n, k)) && net[n].inbox[k].thread == Discoverer
    ensures Inv(sc, Taken(sc.w, net, n, k))
  {
    var j, next := net[n].inbox[k], Taken(sc.w, net, n, k);
    var answer := Answer(n, PacketCodec.OnTheWire(net[n].table));
    TakeShape(sc.w, net, n, k);
    HelloOpened(sc, net, n, k);
    InboxesGrow(sc, net, next);
    forall i | 0 <= i < |next|
      ensures NodeOk(sc, next, i)
    {
      assert NodeOk(sc, net, i);
      HelloInboxes(sc, net, n, k, i);
      HelloKeepsNode(sc, net, next, i);
      forall p | Mover(sc, i, p)
        ensures OnItsWay(sc, next, i, p)
      {
        HelloKeepsWay(sc, net, next, n, j, answer, i, p);
      }
    }
  }

  // ---- Every event, every run ----

  lemma EventKeepsInv<C>(sc: Scene<C>, net: Net<C>, e: Event)
    requires Inv(sc, net) && Enabled(sc.w, net, e)
    ensures Inv(sc, Do(sc.w, net, e))
  {
    hide Inv, Taken, Stepped, PacketCodec.OnTheWire;
    match e
    case Scan(n) => ScanKeepsInv(sc, net, n);
    case Flush(n) => FlushKeepsInv(sc, net, n);
    case Replace(n, k, l) => ReplaceKeepsInv(sc, net, n, k, l);
    case Take(n, k) =>
      if net[n].inbox[k].thread == Discoverer {
        HelloKeepsInv(sc, net, n, k);
      } else {
        TakeLocalKeepsInv(sc, net, n, k);
      }
    case Finish(n, k) => FinishKeepsInv(sc, net, n, k);
    case _ =>
      if MovesOn(e) {
        StageKeepsInv(sc, net, e);
      } else {
        HandleKeepsInv(sc, net, e);
      }
  }

  // ---- Where nothing is left to do ----

  lemma QuietNode<C>(sc: Scene<C>, net: Net<C>, i: nat)
    requires Inv(sc, net) && Quiet(sc.w.rules, net) && i < |net|
    ensures net[i].table == net[i].snapshot == TableOf(sc.w.rules, net[i].disk)
  {
    assert NodeOk(sc, net, i);
    EmptyDiff(net[i].snapshot, TableOf(sc.w.rules, net[i].disk));
  }

  lemma QuietEarly<C>(sc: Scene<C>, net: Net<C>, i: nat, p: Path)
    requires Inv(sc, net) && Quiet(sc.w.rules, net) && i < |net| && Early(sc, i, p)
    ensures Arrived(sc, i, net[i], p)
  {
    assert NodeOk(sc, net, i) && OnItsWay(sc, net, i, p);
    assert !Hailed(net, i) && !Waiting(sc, i, net[i], p) && !Tabled(sc, i, net[i], p);
  }

  lemma QuietSaid<C>(sc: Scene<C>, net: Net<C>, j: nat, p: Path)
    requires Inv(sc, net) && Quiet(sc.w.rules, net) && j < |net| && Early(sc, j, p)
    ensures !Unsaid(sc, net[j], p)
  {
    QuietNode(sc, net, j);
    QuietEarly(sc, net, j, p);
  }

  /** Whoever was to tell has the file, has noticed it and has told. */
  lemma QuietLate<C>(sc: Scene<C>, net: Net<C>, i: nat, p: Path)
    requires Inv(sc, net) && Quiet(sc.w.rules, net) && i < |net| && Late(sc, i, p)
    ensures Arrived(sc, i, net[i], p)
  {
    assert OnItsWay(sc, net, i, p) by {
      assert NodeOk(sc, net, i);
    }
    assert !Waiting(sc, i, net[i], p);
    forall j | 0 <= j < |net| && Teller(sc, i, j, p)
      ensures !Unsaid(sc, net[j], p)
    {
      QuietSaid(sc, net, j, p);
    }
  }

  /** When nothing is left to do, every path of every node has arrived. */
  lemma QuietPath<C>(sc: Scene<C>, net: Net<C>, i: nat, p: Path)
    requires Inv(sc, net) && Quiet(sc.w.rules, net) && i < |net|
    ensures Arrived(sc, i, net[i], p)
  {
    assert NodeOk(sc, net, i) && PathOk(sc, i, net[i], p);
    if Early(sc, i, p) {
      QuietEarly(sc, net, i, p);
    } else if Late(sc, i, p) {
      QuietLate(sc, net, i, p);
    }
  }
}

/** What every interleaving of the network keeps, the re-broadcasts of receivers included.

    A `Scene` says where each node starts, which disk is being spread, and which paths move at which node. What moves
    is what a transfer makes of the target's file, so a node that has the file itself may be given the cut copy back.
    That a node announces only what it has, that whoever acts on an announcement is meant to, and that no change is
    lost on the way, is the invariant. */
module Propagation {
  import opened Base
  import opened DirectoryDiff
  import opened EraseLoop
  import opened RequestFiles
  import opened Network
  import PacketCodec

  /** `early` are the paths a node is told of from the start, `late` those it is only told of by an early one. */
  datatype Scene<!C> = Scene(
    w: World<C>, start: seq<Disk<C>>, target: Disk<C>, early: seq<set<Path>>, late: seq<set<Path>>)

  /** What arrives of the target's file. */
  ghost function Cut<C>(sc: Scene<C>, p: Path): Option<C> {
    if p in sc.target then Some(sc.w.rules.delivered(sc.target[p])) else None
  }

  ghost function CutHash<C>(sc: Scene<C>, p: Path): Option<Hash> {
    if p in sc.target then Some(sc.w.rules.announced(p, sc.w.rules.delivered(sc.target[p]))) else None
  }

  ghost function FirstHash<C>(sc: Scene<C>, i: nat, p: Path): Option<Hash>
    requires i < |sc.start|
  {
    if p in sc.start[i] then Some(sc.w.rules.announced(p, sc.start[i][p])) else None
  }

  ghost predicate Early<C>(sc: Scene<C>, i: nat, p: Path) {
    i < |sc.early| && p in sc.early[i]
  }

  ghost predicate Late<C>(sc: Scene<C>, i: nat, p: Path) {
    i < |sc.late| && p in sc.late[i]
  }

  ghost predicate Mover<C>(sc: Scene<C>, i: nat, p: Path) {
    Early(sc, i, p) || Late(sc, i, p)
  }

  /** Where node `i` ends up. */
  ghost function Final<C>(sc: Scene<C>, i: nat, p: Path): Option<C>
    requires i < |sc.start|
  {
    if Mover(sc, i, p) then Cut(sc, p) else Get(sc.start[i], p)
  }

  /** Node `i`, as long as it has its first file, acts on an announcement with this hash. */
  ghost predicate EffectiveAt<C>(sc: Scene<C>, i: nat, p: Path, hash: Hash)
    requires i < |sc.start|
  {
    p !in sc.start[i] || sc.w.rules.recomputed(p, sc.start[i][p]) != hash
  }

  ghost predicate Effective<C>(sc: Scene<C>, i: nat, c: Change)
    requires i < |sc.start|
  {
    c.kind == Deletion || EffectiveAt(sc, i, c.path, c.hash)
  }

  /** It acts on what a node that was given the file announces of it. */
  ghost predicate Echoes<C>(sc: Scene<C>, i: nat, p: Path)
    requires i < |sc.start|
  {
    p !in sc.target || EffectiveAt(sc, i, p, sc.w.rules.announced(p, sc.w.rules.delivered(sc.target[p])))
  }

  /** Being given the file changes what the node's watcher sees. */
  ghost predicate Noticed<C>(sc: Scene<C>, i: nat, p: Path)
    requires i < |sc.start|
  {
    FirstHash(sc, i, p) != CutHash(sc, p)
  }

  /** A transfer of a transferred file loses nothing more; whoever acts on a re-broadcast is a mover; and every late
      mover is told by an early one. */
  ghost predicate Sensible<C>(sc: Scene<C>) {
    && |sc.start| == |sc.early| == |sc.late|
    && (forall i, p | Early(sc, i, p) :: !Late(sc, i, p))
    && (forall p | p in sc.target ::
          sc.w.rules.delivered(sc.w.rules.delivered(sc.target[p])) == sc.w.rules.delivered(sc.target[p]))
    && (forall i, j, p | 0 <= i < |sc.start| && 0 <= j < |sc.start| && i != j ::
          Mover(sc, j, p) && Noticed(sc, j, p) && Echoes(sc, i, p) ==> Mover(sc, i, p))
    && (forall i, p | 0 <= i < |sc.start| && Late(sc, i, p) ::
          Get(sc.start[i], p) == Cut(sc, p) || (Echoes(sc, i, p) && exists j :: Teller(sc, i, j, p)))
  }

  ghost predicate Teller<C>(sc: Scene<C>, i: nat, j: nat, p: Path) {
    i != j && j < |sc.start| && Early(sc, j, p) && Noticed(sc, j, p)
  }

  /** Every path any node starts with, or is to get. */
  ghost function Paths<C>(sc: Scene<C>): set<Path> {
    sc.target.Keys + set i, p | 0 <= i < |sc.start| && p in sc.start[i] :: p
  }

  // ---- The invariant, node by node and path by path ----

  ghost predicate Arrived<C>(sc: Scene<C>, i: nat, x: Node<C>, p: Path)
    requires i < |sc.start|
  {
    Get(x.disk, p) == Final(sc, i, p)
  }

  ghost predicate AtCut<C>(sc: Scene<C>, i: nat, x: Node<C>, p: Path) {
    Mover(sc, i, p) && Get(x.disk, p) == Cut(sc, p)
  }

  /** A snapshot or table never runs ahead of the disk. */
  ghost predicate SeenOk<C>(sc: Scene<C>, i: nat, x: Node<C>, p: Path, seen: Option<Hash>)
    requires i < |sc.start|
  {
    seen == FirstHash(sc, i, p) || (AtCut(sc, i, x, p) && seen == CutHash(sc, p))
  }

  ghost predicate PathOk<C>(sc: Scene<C>, i: nat, x: Node<C>, p: Path)
    requires i < |sc.start|
  {
    && (Get(x.disk, p) == Get(sc.start[i], p) || AtCut(sc, i, x, p))
    && SeenOk(sc, i, x, p, Get(x.snapshot, p)) && SeenOk(sc, i, x, p, Get(x.table, p))
  }

  /** Some early mover has the file. */
  ghost predicate Begun<C>(sc: Scene<C>, net: Net<C>, p: Path) {
    exists j :: 0 <= j < |net| && Early(sc, j, p) && Get(net[j].disk, p) == Cut(sc, p)
  }

  /** True of the target, and a transfer from the sender yields what it should. */
  ghost predicate Backed<C>(sc: Scene<C>, sender: Node<C>, c: Change) {
    && (c.kind == Deletion <==> c.path !in sc.target)
    && (c.path in sc.target ==>
          c.path in sender.disk
          && sc.w.rules.delivered(sender.disk[c.path]) == sc.w.rules.delivered(sc.target[c.path]))
  }

  /** Node `i` may act on this change. */
  ghost predicate ChangeOk<C>(sc: Scene<C>, net: Net<C>, i: nat, from: nat, c: Change)
    requires i < |sc.start| && from < |net|
  {
    && Backed(sc, net[from], c)
    && (Effective(sc, i, c) ==> Mover(sc, i, c.path) && (Early(sc, i, c.path) || Begun(sc, net, c.path)))
  }

  /** What a node has noticed is the file it was given. */
  ghost predicate SaidOk<C>(sc: Scene<C>, net: Net<C>, i: nat, c: Change)
    requires i < |sc.start| && i < |net|
  {
    && (c.kind == Deletion <==> c.path !in sc.target)
    && (c.path in sc.target ==> Some(c.hash) == CutHash(sc, c.path))
    && AtCut(sc, i, net[i], c.path) && Noticed(sc, i, c.path) && Begun(sc, net, c.path)
  }

  // A table on its way

  /** An entry of an existing node's table at node `i`: nothing new, or a change it may act on. */
  ghost predicate TellOk<C>(sc: Scene<C>, net: Net<C>, i: nat, from: nat, p: Path, hash: Hash)
    requires i < |sc.start| && from < |net|
  {
    || (Some(hash) == FirstHash(sc, i, p) && !Mover(sc, i, p))
    || ChangeOk(sc, net, i, from, Change(p, hash, Edit))
  }

  /** Opening this table will make node `i` act on the path. */
  ghost predicate Tells<C>(sc: Scene<C>, i: nat, j: Job, p: Path)
    requires i < |sc.start|
  {
    && p in j.table && p in sc.target
    && if j.thread == Discoverer then p !in sc.start[i]
       else Some(j.table[p]) != FirstHash(sc, i, p) && EffectiveAt(sc, i, p, j.table[p])
  }

  /** The answer of an existing node: it tells of every early path. */
  ghost predicate AnswerOk<C>(sc: Scene<C>, net: Net<C>, i: nat, j: Job)
    requires i < |sc.start| && i < |net| && j.from < |net|
  {
    && (forall p | p in j.table :: TellOk(sc, net, i, j.from, p, j.table[p]))
    && (forall p | Early(sc, i, p) :: Arrived(sc, i, net[i], p) || Tells(sc, i, j, p))
  }

  /** The two hashes a node's table may ever have for a path. */
  ghost predicate MayList<C>(sc: Scene<C>, i: nat, p: Path, hash: Hash)
    requires i < |sc.start|
  {
    Some(hash) == FirstHash(sc, i, p) || (Mover(sc, i, p) && Some(hash) == CutHash(sc, p))
  }

  /** The path may stand in the node's table with another hash than in `t`, so that the diff calls it an edit. */
  ghost predicate MayEdit<C>(sc: Scene<C>, i: nat, t: Table, p: Path)
    requires i < |sc.start|
  {
    p in t && exists hash :: MayList(sc, i, p, hash) && hash != t[p]
  }

  /** What an existing node can tell the newcomer about a path it starts with. */
  ghost predicate Answerable<C>(sc: Scene<C>, i: nat, newcomer: nat, p: Path)
    requires i < |sc.start| && newcomer < |sc.start| && p in sc.start[i]
  {
    var hash := sc.w.rules.announced(p, sc.start[i][p]);
    || (Some(hash) == FirstHash(sc, newcomer, p) && !Mover(sc, newcomer, p))
    || (&& p in sc.target && sc.w.rules.delivered(sc.start[i][p]) == sc.w.rules.delivered(sc.target[p])
        && (EffectiveAt(sc, newcomer, p, hash) ==> Early(sc, newcomer, p)))
  }

  /** An early path of the newcomer: only the newcomer is missing it, and this node can tell it so. */
  ghost predicate Missed<C>(sc: Scene<C>, i: nat, newcomer: nat, p: Path)
    requires i < |sc.start| && newcomer < |sc.start|
  {
    && p in sc.start[i] && p in sc.target
    && FirstHash(sc, i, p) != FirstHash(sc, newcomer, p)
    && EffectiveAt(sc, newcomer, p, sc.w.rules.announced(p, sc.start[i][p]))
    && forall j | Early(sc, j, p) :: j == newcomer
  }

  /** The newcomer's table: files this node has as well, and files it may ask for. */
  ghost predicate EntriesOk<C>(sc: Scene<C>, net: Net<C>, i: nat, j: Job)
    requires i < |sc.start| && j.from < |net| == |sc.start|
  {
    forall p | p in j.table ::
      (p in sc.start[i] && p in sc.target) || ChangeOk(sc, net, i, j.from, Change(p, j.table[p], Addition))
  }

  ghost predicate HelloOk<C>(sc: Scene<C>, net: Net<C>, i: nat, j: Job)
    requires i < |sc.start| && j.from < |net| == |sc.start|
  {
    && |Paths(sc)| < 0x1_0000
    && EntriesOk(sc, net, i, j)
    && (forall p | p in sc.start[i] :: Answerable(sc, i, j.from, p))
    && (forall p | Early(sc, j.from, p) :: Missed(sc, i, j.from, p))
    && (sc.w.literal ==> forall p, q | MayEdit(sc, i, j.table, p) && MayEdit(sc, i, j.table, q) :: p == q)
  }

  ghost predicate JobOk<C>(sc: Scene<C>, net: Net<C>, i: nat, j: Job)
    requires i < |net| == |sc.start| && j.from < |net|
  {
    if j.thread == Handler || Busy(j) then
      forall c | c in j.changes :: ChangeOk(sc, net, i, j.from, c)
    else
      j.changes == [] && if j.thread == Manager then AnswerOk(sc, net, i, j) else HelloOk(sc, net, i, j)
  }

  // Nothing is lost on the way

  ghost predicate Awaits<C>(sc: Scene<C>, i: nat, j: Job, p: Path)
    requires i < |sc.start|
  {
    exists c :: c in j.changes && c.path == p && Effective(sc, i, c)
  }

  ghost predicate Waiting<C>(sc: Scene<C>, i: nat, x: Node<C>, p: Path)
    requires i < |sc.start|
  {
    exists j :: j in x.inbox && Awaits(sc, i, j, p)
  }

  ghost predicate Tabled<C>(sc: Scene<C>, i: nat, x: Node<C>, p: Path)
    requires i < |sc.start|
  {
    exists j :: j in x.inbox && j.thread != Handler && Unopened(j) && Tells(sc, i, j, p)
  }

  /** An arrival that has not been answered yet. */
  predicate Hails(j: Job, i: nat) {
    j.thread == Discoverer && Unopened(j) && j.from == i
  }

  predicate Hailed<C>(net: Net<C>, i: nat) {
    exists n, j :: 0 <= n < |net| && j in net[n].inbox && Hails(j, i)
  }

  /** The early mover has not announced the path yet. */
  ghost predicate Unsaid<C>(sc: Scene<C>, x: Node<C>, p: Path) {
    Get(x.snapshot, p) != CutHash(sc, p) || Mentions(x.buf, p)
  }

  ghost predicate ToBeTold<C>(sc: Scene<C>, net: Net<C>, i: nat, p: Path) {
    exists j :: 0 <= j < |net| && Teller(sc, i, j, p) && Unsaid(sc, net[j], p)
  }

  ghost predicate OnItsWay<C>(sc: Scene<C>, net: Net<C>, i: nat, p: Path)
    requires i < |net| == |sc.start|
  {
    || Arrived(sc, i, net[i], p)
    || Waiting(sc, i, net[i], p)
    || (Early(sc, i, p) && (Tabled(sc, i, net[i], p) || Hailed(net, i)))
    || (Late(sc, i, p) && Echoes(sc, i, p) && ToBeTold(sc, net, i, p))
  }

  ghost predicate DiskOk<C>(sc: Scene<C>, net: Net<C>, i: nat)
    requires i < |net| == |sc.start|
  {
    && (forall p :: PathOk(sc, i, net[i], p))
    && (forall p | Get(net[i].disk, p) != Get(sc.start[i], p) :: Begun(sc, net, p))
  }

  ghost predicate InboxOk<C>(sc: Scene<C>, net: Net<C>, i: nat)
    requires i < |net| == |sc.start|
  {
    forall j | j in net[i].inbox :: j.from < |net| && JobOk(sc, net, i, j)
  }

  ghost predicate BufOk<C>(sc: Scene<C>, net: Net<C>, i: nat)
    requires i < |net| == |sc.start|
  {
    && (forall c | c in net[i].buf :: SaidOk(sc, net, i, c))
    && Apply(net[i].table, net[i].buf) == net[i].snapshot
  }

  ghost predicate WayOk<C>(sc: Scene<C>, net: Net<C>, i: nat)
    requires i < |net| == |sc.start|
  {
    forall p | Mover(sc, i, p) :: OnItsWay(sc, net, i, p)
  }

  ghost predicate NodeOk<C>(sc: Scene<C>, net: Net<C>, i: nat)
    requires i < |net| == |sc.start|
  {
    DiskOk(sc, net, i) && InboxOk(sc, net, i) && BufOk(sc, net, i) && WayOk(sc, net, i)
  }

  ghost predicate Inv<C>(sc: Scene<C>, net: Net<C>) {
    && Sensible(sc) && Shape(net) && |net| == |sc.start|
    && forall i | 0 <= i < |net| :: NodeOk(sc, net, i)
  }

  // ---- Disks only move from the first file to the final one ----

  ghost predicate NodeGrows<C>(sc: Scene<C>, i: nat, x: Node<C>, y: Node<C>) {
    forall p :: Get(y.disk, p) == Get(x.disk, p) || AtCut(sc, i, y, p)
  }

  ghost predicate Grows<C>(sc: Scene<C>, net: Net<C>, next: Net<C>) {
    |net| == |next| && forall i | 0 <= i < |net| :: NodeGrows(sc, i, net[i], next[i])
  }

  lemma BackedStays<C>(sc: Scene<C>, i: nat, x: Node<C>, y: Node<C>, c: Change)
    requires Sensible(sc) && Backed(sc, x, c) && NodeGrows(sc, i, x, y)
    ensures Backed(sc, y, c)
  {
    assert Get(y.disk, c.path) == Get(x.disk, c.path) || AtCut(sc, i, y, c.path);
  }

  lemma BegunStays<C>(sc: Scene<C>, net: Net<C>, next: Net<C>, p: Path)
    requires Begun(sc, net, p) && Grows(sc, net, next)
    ensures Begun(sc, next, p)
  {
    var j :| 0 <= j < |net| && Early(sc, j, p) && Get(net[j].disk, p) == Cut(sc, p);
    assert NodeGrows(sc, j, net[j], next[j]);
    assert Get(next[j].disk, p) == Get(net[j].disk, p) || AtCut(sc, j, next[j], p);
  }

  lemma ChangeStaysOk<C>(sc: Scene<C>, net: Net<C>, next: Net<C>, i: nat, from: nat, c: Change)
    requires Sensible(sc) && i < |sc.start| && from < |net| && Grows(sc, net, next) && ChangeOk(sc, net, i, from, c)
    ensures ChangeOk(sc, next, i, from, c)
  {
    BackedStays(sc, from, net[from], next[from], c);
    if Begun(sc, net, c.path) {
      BegunStays(sc, net, next, c.path);
    }
  }

  lemma SaidStaysOk<C>(sc: Scene<C>, net: Net<C>, next: Net<C>, i: nat, c: Change)
    requires i < |sc.start| && i < |net| && Grows(sc, net, next) && SaidOk(sc, net, i, c)
    ensures SaidOk(sc, next, i, c)
  {
    BegunStays(sc, net, next, c.path);
    assert NodeGrows(sc, i, net[i], next[i]);
    assert Get(next[i].disk, c.path) == Get(net[i].disk, c.path) || AtCut(sc, i, next[i], c.path);
  }

  lemma ArrivedStays<C>(sc: Scene<C>, i: nat, x: Node<C>, y: Node<C>, p: Path)
    requires i < |sc.start| && Arrived(sc, i, x, p) && NodeGrows(sc, i, x, y)
    ensures Arrived(sc, i, y, p)
  {
    assert Get(y.disk, p) == Get(x.disk, p) || AtCut(sc, i, y, p);
  }

  lemma AnswerStaysOk<C>(sc: Scene<C>, net: Net<C>, next: Net<C>, i: nat, j: Job)
    requires Sensible(sc) && i < |net| == |sc.start| && j.from < |net| && Grows(sc, net, next)
    requires AnswerOk(sc, net, i, j)
    ensures AnswerOk(sc, next, i, j)
  {
    forall p | p in j.table
      ensures TellOk(sc, next, i, j.from, p, j.table[p])
    {
      assert TellOk(sc, net, i, j.from, p, j.table[p]);
      if ChangeOk(sc, net, i, j.from, Change(p, j.table[p], Edit)) {
        ChangeStaysOk(sc, net, next, i, j.from, Change(p, j.table[p], Edit));
      }
    }
    forall p | Early(sc, i, p)
      ensures Arrived(sc, i, next[i], p) || Tells(sc, i, j, p)
    {
      assert NodeGrows(sc, i, net[i], next[i]);
      if Arrived(sc, i, net[i], p) {
        ArrivedStays(sc, i, net[i], next[i], p);
      }
    }
  }

  lemma HelloStaysOk<C>(sc: Scene<C>, net: Net<C>, next: Net<C>, i: nat, j: Job)
    requires Sensible(sc) && i < |net| == |sc.start| && j.from < |net| && Grows(sc, net, next)
    requires HelloOk(sc, net, i, j)
    ensures HelloOk(sc, next, i, j)
  {
    forall p | p in j.table
      ensures (p in sc.start[i] && p in sc.target) || ChangeOk(sc, next, i, j.from, Change(p, j.table[p], Addition))
    {
      if ChangeOk(sc, net, i, j.from, Change(p, j.table[p], Addition)) {
        ChangeStaysOk(sc, net, next, i, j.from, Change(p, j.table[p], Addition));
      }
    }
  }

  lemma JobStaysOk<C>(sc: Scene<C>, net: Net<C>, next: Net<C>, i: nat, j: Job)
    requires Sensible(sc) && i < |net| == |sc.start| && j.from < |net| && Grows(sc, net, next) && JobOk(sc, net, i, j)
    ensures JobOk(sc, next, i, j)
  {
    if j.thread == Handler || Busy(j) {
      forall c | c in j.changes
        ensures ChangeOk(sc, next, i, j.from, c)
      {
        ChangeStaysOk(sc, net, next, i, j.from, c);
      }
    } else if j.thread == Manager {
      AnswerStaysOk(sc, net, next, i, j);
    } else {
      HelloStaysOk(sc, net, next, i, j);
    }
  }

  lemma DiskStaysOk<C>(sc: Scene<C>, net: Net<C>, next: Net<C>, i: nat)
    requires i < |net| == |sc.start| && Grows(sc, net, next) && DiskOk(sc, net, i)
    requires next[i].disk == net[i].disk && next[i].snapshot == net[i].snapshot && next[i].table == net[i].table
    ensures DiskOk(sc, next, i)
  {
    forall p
      ensures PathOk(sc, i, next[i], p)
    {
      assert PathOk(sc, i, net[i], p);
    }
    forall p | Get(next[i].disk, p) != Get(sc.start[i], p)
      ensures Begun(sc, next, p)
    {
      BegunStays(sc, net, next, p);
    }
  }

  lemma BufStaysOk<C>(sc: Scene<C>, net: Net<C>, next: Net<C>, i: nat)
    requires i < |net| == |sc.start| && Grows(sc, net, next) && BufOk(sc, net, i)
    requires next[i].buf == net[i].buf && next[i].snapshot == net[i].snapshot && next[i].table == net[i].table
    ensures BufOk(sc, next, i)
  {
    forall c | c in next[i].buf
      ensures SaidOk(sc, next, i, c)
    {
      SaidStaysOk(sc, net, next, i, c);
    }
  }

  lemma SameDiskGrows<C>(sc: Scene<C>, i: nat, x: Node<C>, y: Node<C>)
    requires x.disk == y.disk
    ensures NodeGrows(sc, i, x, y)
  {
  }
}

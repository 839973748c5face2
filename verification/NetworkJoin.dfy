/** A newcomer joins a network of nodes that agree, with everything that follows from it: its arrival reaching each
    node in its own time, the tables sent back, pulls in both directions, and the watchers on both sides broadcasting
    what was pulled. */
module NetworkJoin {
  import opened Base
  import opened DirectoryDiff
  import opened EraseLoop
  import opened RequestFiles
  import opened Network
  import opened Propagation
  import opened Preservation
  import opened Convergence
  import opened Knots
  import opened Schedules
  import JoinHandshake
  import PacketCodec

  /** `existing` nodes hold `e0`; the newcomer, numbered after them, holds `n0`. */
  datatype Arrival<!C> = Arrival(w: World<C>, n0: Disk<C>, e0: Disk<C>, existing: nat)

  function DiskAt<C>(a: Arrival<C>, i: nat): Disk<C> {
    if i < a.existing then a.e0 else a.n0
  }

  function TableAt<C>(a: Arrival<C>, i: nat): Table {
    TableOf(a.w.rules, DiskAt(a, i))
  }

  /** The newcomer has said hello; nobody has noticed yet. */
  function Begin<C>(a: Arrival<C>): Net<C> {
    seq(a.existing + 1, (i: nat) =>
      Node(DiskAt(a, i), TableAt(a, i), TableAt(a, i), [],
           if i < a.existing then [Hello(a.existing, PacketCodec.OnTheWire(TableAt(a, a.existing)))] else []))
  }

  /** All tables that can occur fit on the wire, and a second transfer of a transferred file loses nothing more. */
  ghost predicate Sound<C>(a: Arrival<C>) {
    && a.existing >= 1 && |a.n0.Keys + a.e0.Keys| < 0x1_0000
    && (forall p | p in a.n0 :: a.w.rules.delivered(a.w.rules.delivered(a.n0[p])) == a.w.rules.delivered(a.n0[p]))
    && (forall p | p in a.e0 :: a.w.rules.delivered(a.w.rules.delivered(a.e0[p])) == a.w.rules.delivered(a.e0[p]))
  }

  // ---- Who moves ----

  /** Only the newcomer has it. */
  predicate Added<C>(a: Arrival<C>, p: Path) {
    p in a.n0 && p !in a.e0
  }

  /** The newcomer lacks the network's file, or has another and can tell. */
  predicate Needed<C>(a: Arrival<C>, p: Path) {
    p in a.e0 && (p in a.n0 ==> JoinHandshake.TellsApart(a.w.rules, a.n0, a.e0, p))
  }

  /** The newcomer acts on a broadcast of its own file as it arrived elsewhere. */
  predicate BackAtNewcomer<C>(a: Arrival<C>, p: Path) {
    Added(a, p) && a.w.rules.recomputed(p, a.n0[p]) != a.w.rules.announced(p, a.w.rules.delivered(a.n0[p]))
  }

  /** The newcomer notices the network's file as it arrived, and an existing node acts on the broadcast of it. */
  predicate BackAtExisting<C>(a: Arrival<C>, p: Path) {
    && Needed(a, p)
    && (p in a.n0 ==> a.w.rules.announced(p, a.n0[p]) != a.w.rules.announced(p, a.w.rules.delivered(a.e0[p])))
    && a.w.rules.recomputed(p, a.e0[p]) != a.w.rules.announced(p, a.w.rules.delivered(a.e0[p]))
  }

  ghost predicate EarlyAt<C>(a: Arrival<C>, i: nat, p: Path) {
    if i < a.existing then Added(a, p) else Needed(a, p)
  }

  ghost predicate LateAt<C>(a: Arrival<C>, i: nat, p: Path) {
    if i < a.existing then BackAtExisting(a, p) else BackAtNewcomer(a, p)
  }

  /** Where node `i` ends: with what it was given, as it arrived, or with what it had. */
  ghost function Outcome<C>(a: Arrival<C>, i: nat, p: Path): Option<C> {
    if EarlyAt(a, i, p) || LateAt(a, i, p) then Copied(a.w.rules, a.n0 + a.e0, p) else Get(DiskAt(a, i), p)
  }

  ghost function SceneOf<C>(a: Arrival<C>): Scene<C> {
    Scene(a.w, seq(a.existing + 1, (i: nat) => DiskAt(a, i)), a.n0 + a.e0,
          seq(a.existing + 1, (i: nat) => set p | p in a.n0.Keys + a.e0.Keys && EarlyAt(a, i, p)),
          seq(a.existing + 1, (i: nat) => set p | p in a.n0.Keys + a.e0.Keys && LateAt(a, i, p)))
  }

  lemma MovesIff<C>(a: Arrival<C>, i: nat, p: Path)
    ensures Early(SceneOf(a), i, p) <==> i <= a.existing && EarlyAt(a, i, p)
    ensures Late(SceneOf(a), i, p) <==> i <= a.existing && LateAt(a, i, p)
  {
    hide JoinHandshake.TellsApart;
  }

  lemma SceneSizes<C>(a: Arrival<C>)
    requires Sound(a)
    ensures
      var sc := SceneOf(a);
      && sc.w == a.w && |sc.start| == a.existing + 1 == |Begin(a)| && sc.target == a.n0 + a.e0
      && (forall i | 0 <= i <= a.existing :: sc.start[i] == DiskAt(a, i))
    ensures Paths(SceneOf(a)) == a.n0.Keys + a.e0.Keys && |Paths(SceneOf(a))| < 0x1_0000
  {
    hide EarlyAt, LateAt;
    PathsAre(a);
  }

  lemma PathsAre<C>(a: Arrival<C>)
    requires a.existing >= 1
    ensures Paths(SceneOf(a)) == a.n0.Keys + a.e0.Keys
  {
    hide EarlyAt, LateAt;
    var sc := SceneOf(a);
    assert (a.n0 + a.e0).Keys == a.n0.Keys + a.e0.Keys;
    assert forall i, p | 0 <= i < |sc.start| && p in sc.start[i] :: p in a.n0.Keys + a.e0.Keys;
  }

  /** Hashes at the two ends of a transfer. */
  lemma HashesAre<C>(a: Arrival<C>, i: nat, p: Path)
    requires i <= a.existing
    ensures |SceneOf(a).start| == a.existing + 1 && SceneOf(a).w == a.w
    ensures FirstHash(SceneOf(a), i, p)
         == if p in DiskAt(a, i) then Some(a.w.rules.announced(p, DiskAt(a, i)[p])) else None
    ensures CutHash(SceneOf(a), p)
         == if p in a.e0 then Some(a.w.rules.announced(p, a.w.rules.delivered(a.e0[p])))
            else if p in a.n0 then Some(a.w.rules.announced(p, a.w.rules.delivered(a.n0[p]))) else None
    ensures Echoes(SceneOf(a), i, p) <==>
              (CutHash(SceneOf(a), p).Some? && p in DiskAt(a, i) ==>
                 Some(a.w.rules.recomputed(p, DiskAt(a, i)[p])) != CutHash(SceneOf(a), p))
  {
    hide EarlyAt, LateAt;
  }

  lemma WhoEchoes<C>(a: Arrival<C>, i: nat, j: nat, p: Path)
    requires a.existing >= 1 && i <= a.existing && j <= a.existing && i != j
    requires |SceneOf(a).start| == a.existing + 1
    requires Mover(SceneOf(a), j, p) && Noticed(SceneOf(a), j, p) && Echoes(SceneOf(a), i, p)
    ensures Mover(SceneOf(a), i, p)
  {
    hide SceneOf, CutHash, FirstHash, Echoes, JoinHandshake.TellsApart;
    MovesIff(a, i, p);
    MovesIff(a, j, p);
    HashesAre(a, i, p);
    HashesAre(a, j, p);
  }

  lemma WhoTells<C>(a: Arrival<C>, i: nat, p: Path)
    requires a.existing >= 1 && i <= a.existing && LateAt(a, i, p) && |SceneOf(a).start| == a.existing + 1
    ensures Echoes(SceneOf(a), i, p) && exists j :: Teller(SceneOf(a), i, j, p)
  {
    hide SceneOf, CutHash, FirstHash, Echoes, JoinHandshake.TellsApart;
    var j := if i < a.existing then a.existing else 0;
    MovesIff(a, j, p);
    HashesAre(a, i, p);
    HashesAre(a, j, p);
    assert Teller(SceneOf(a), i, j, p);
  }

  lemma TargetRepeats<C>(a: Arrival<C>)
    requires Sound(a)
    ensures a.existing >= 1
    ensures forall p | p in a.n0 + a.e0 ::
              a.w.rules.delivered(a.w.rules.delivered((a.n0 + a.e0)[p])) == a.w.rules.delivered((a.n0 + a.e0)[p])
  {
  }

  lemma SceneIsSensible<C>(a: Arrival<C>)
    requires Sound(a)
    ensures Sensible(SceneOf(a))
  {
    hide EarlyAt, LateAt, Noticed, Echoes, Sound, Paths, Cut, Teller;
    var sc := SceneOf(a);
    SceneSizes(a);
    TargetRepeats(a);
    forall i, p | Early(sc, i, p)
      ensures !Late(sc, i, p)
    {
      MovesIff(a, i, p);
      EarlyIsNotLate(a, i, p);
    }
    forall i, j, p | 0 <= i < |sc.start| && 0 <= j < |sc.start| && i != j && Mover(sc, j, p) && Noticed(sc, j, p)
                     && Echoes(sc, i, p)
      ensures Mover(sc, i, p)
    {
      WhoEchoes(a, i, j, p);
    }
    forall i, p | 0 <= i < |sc.start| && Late(sc, i, p)
      ensures Get(sc.start[i], p) == Cut(sc, p) || (Echoes(sc, i, p) && exists j :: Teller(sc, i, j, p))
    {
      MovesIff(a, i, p);
      WhoTells(a, i, p);
    }
  }

  lemma EarlyIsNotLate<C>(a: Arrival<C>, i: nat, p: Path)
    requires EarlyAt(a, i, p)
    ensures !LateAt(a, i, p)
  {
  }

  lemma FinalIsOutcome<C>(a: Arrival<C>, i: nat, p: Path)
    requires Sound(a) && i <= a.existing
    ensures Final(SceneOf(a), i, p) == Outcome(a, i, p)
  {
    hide EarlyAt, LateAt;
    MovesIff(a, i, p);
  }

  // ---- Edits the loop might let through ----

  /** The existing nodes' diffs may call it an edit: both have it, with different hashes; or it arrives with another
      hash than it was announced with. */
  predicate Clashes<C>(a: Arrival<C>, p: Path) {
    && p in a.n0
    && a.w.rules.announced(p, a.n0[p])
       != a.w.rules.announced(p, if p in a.e0 then a.e0[p] else a.w.rules.delivered(a.n0[p]))
  }

  function FirstDiff<C>(a: Arrival<C>): seq<Change> {
    MergeDiff(TableAt(a, 0), TableAt(a, a.existing))
  }

  /** What keeps the loop as it is written from letting an edit through: if there is one existing node, that its diff
      has no two adjacent edits; if there are more, whose diffs change as they pull from each other, that there is at
      most one edit. */
  ghost predicate EditsApart<C>(a: Arrival<C>) {
    if a.existing == 1 then NoneAdjacent(FirstDiff(a), true)
    else forall p, q | Clashes(a, p) && Clashes(a, q) :: p == q
  }

  lemma MayEditClashes<C>(a: Arrival<C>, i: nat, p: Path)
    requires Sound(a) && i < a.existing && MayEdit(SceneOf(a), i, TableAt(a, a.existing), p)
    ensures Clashes(a, p)
  {
    SceneSizes(a);
    MovesIff(a, i, p);
    var hash :| MayList(SceneOf(a), i, p, hash) && hash != TableAt(a, a.existing)[p];
  }

  // ---- The arrival ----

  lemma WholeHello<C>(a: Arrival<C>)
    requires Sound(a)
    ensures PacketCodec.OnTheWire(TableAt(a, a.existing)) == TableAt(a, a.existing)
    ensures PacketCodec.OnTheWire(TableAt(a, 0)) == TableAt(a, 0)
  {
    SubsetSize(a.n0.Keys, a.n0.Keys + a.e0.Keys);
    SubsetSize(a.e0.Keys, a.n0.Keys + a.e0.Keys);
    JoinHandshake.WholeTable(a.w.rules, a.n0);
    JoinHandshake.WholeTable(a.w.rules, a.e0);
  }

  lemma EntryOk<C>(a: Arrival<C>, net: Net<C>, i: nat, p: Path)
    requires Sound(a) && i < a.existing && p in TableAt(a, a.existing)
    requires |net| == a.existing + 1 && net[a.existing].disk == a.n0
    ensures i < |SceneOf(a).start| == |net|
    ensures (p in SceneOf(a).start[i] && p in SceneOf(a).target)
            || ChangeOk(SceneOf(a), net, i, a.existing, Change(p, TableAt(a, a.existing)[p], Addition))
  {
    hide Begun;
    SceneSizes(a);
    MovesIff(a, i, p);
  }

  lemma FileAnswerable<C>(a: Arrival<C>, i: nat, p: Path)
    requires Sound(a) && i < a.existing && p in a.e0
    ensures i < |SceneOf(a).start| && a.existing < |SceneOf(a).start| && p in SceneOf(a).start[i]
    ensures Answerable(SceneOf(a), i, a.existing, p)
  {
    SceneSizes(a);
    MovesIff(a, a.existing, p);
  }

  lemma FileMissed<C>(a: Arrival<C>, i: nat, p: Path)
    requires Sound(a) && i < a.existing && Early(SceneOf(a), a.existing, p)
    ensures i < |SceneOf(a).start| && a.existing < |SceneOf(a).start|
    ensures Missed(SceneOf(a), i, a.existing, p)
  {
    SceneSizes(a);
    MovesIff(a, a.existing, p);
    forall j | Early(SceneOf(a), j, p)
      ensures j == a.existing
    {
      MovesIff(a, j, p);
    }
  }

  /** With the filter that was meant nothing is asked of the edits. */
  ghost predicate Safe<C>(a: Arrival<C>) {
    a.w.literal ==> EditsApart(a)
  }

  /** Nobody has moved yet. */
  ghost predicate Untouched<C>(a: Arrival<C>, net: Net<C>) {
    |net| == a.existing + 1 && forall i | 0 <= i < |net| ::
      net[i] == Node(DiskAt(a, i), TableAt(a, i), TableAt(a, i), [], net[i].inbox)
  }

  lemma UntouchedIsOk<C>(a: Arrival<C>, net: Net<C>, i: nat)
    requires Sound(a) && Untouched(a, net) && i <= a.existing
    ensures |SceneOf(a).start| == |net| && DiskOk(SceneOf(a), net, i) && BufOk(SceneOf(a), net, i)
  {
    SceneSizes(a);
    assert net[i].disk == SceneOf(a).start[i];
  }

  /** A late mover will be told by somebody who is still to move. */
  lemma LateOnItsWay<C>(a: Arrival<C>, net: Net<C>, i: nat, p: Path)
    requires Sound(a) && Untouched(a, net) && i <= a.existing && LateAt(a, i, p)
    ensures |net| == |SceneOf(a).start| && OnItsWay(SceneOf(a), net, i, p)
  {
    hide LateAt, EarlyAt;
    var sc := SceneOf(a);
    SceneSizes(a);
    MovesIff(a, i, p);
    WhoTells(a, i, p);
    var j: nat :| Teller(sc, i, j, p);
    assert Unsaid(sc, net[j], p) by {
      assert net[j].snapshot == TableOf(sc.w.rules, sc.start[j]);
    }
    assert ToBeTold(sc, net, i, p);
  }

  lemma BeginHelloOk<C>(a: Arrival<C>, i: nat)
    requires Sound(a) && i < a.existing && (a.w.literal ==> a.existing >= 2 && EditsApart(a))
    ensures |SceneOf(a).start| == |Begin(a)| == a.existing + 1
    ensures HelloOk(SceneOf(a), Begin(a), i, Hello(a.existing, PacketCodec.OnTheWire(TableAt(a, a.existing))))
  {
    hide ChangeOk, Answerable, Missed, MayEdit, Clashes, PacketCodec.OnTheWire, Paths, Sound, TableAt, SceneOf;
    var sc, net := SceneOf(a), Begin(a);
    var j := Hello(a.existing, PacketCodec.OnTheWire(TableAt(a, a.existing)));
    SceneSizes(a);
    WholeHello(a);
    forall p | p in j.table
      ensures (p in sc.start[i] && p in sc.target) || ChangeOk(sc, net, i, j.from, Change(p, j.table[p], Addition))
    {
      EntryOk(a, net, i, p);
    }
    forall p | p in sc.start[i]
      ensures Answerable(sc, i, j.from, p)
    {
      FileAnswerable(a, i, p);
    }
    forall p | Early(sc, j.from, p)
      ensures Missed(sc, i, j.from, p)
    {
      FileMissed(a, i, p);
    }
    forall p | MayEdit(sc, i, j.table, p)
      ensures Clashes(a, p)
    {
      MayEditClashes(a, i, p);
    }
  }

  lemma HelloTells<C>(a: Arrival<C>, i: nat, p: Path)
    requires Sound(a) && i < a.existing && Added(a, p)
    ensures |SceneOf(a).start| == a.existing + 1
    ensures Tells(SceneOf(a), i, Hello(a.existing, TableAt(a, a.existing)), p)
  {
    hide SceneOf, Sound;
    SceneSizes(a);
  }

  lemma BeginTabled<C>(a: Arrival<C>, i: nat, p: Path)
    requires Sound(a) && i < a.existing && Added(a, p)
    ensures |SceneOf(a).start| == |Begin(a)| == a.existing + 1 && Tabled(SceneOf(a), i, Begin(a)[i], p)
  {
    hide PacketCodec.OnTheWire, SceneOf, Sound, Tells, TableAt, Added;
    var j := Hello(a.existing, PacketCodec.OnTheWire(TableAt(a, a.existing)));
    SceneSizes(a);
    WholeHello(a);
    HelloTells(a, i, p);
    assert Begin(a)[i].inbox[0] == j && j in Begin(a)[i].inbox;
  }

  lemma BeginHailed<C>(a: Arrival<C>)
    requires a.existing >= 1
    ensures Hailed(Begin(a), a.existing)
  {
    hide PacketCodec.OnTheWire;
    var j := Hello(a.existing, PacketCodec.OnTheWire(TableAt(a, a.existing)));
    assert Begin(a)[0].inbox[0] == j && j in Begin(a)[0].inbox;
    assert Hails(j, a.existing);
  }

  lemma BeginOnItsWay<C>(a: Arrival<C>, i: nat, p: Path)
    requires Sound(a) && i <= a.existing && EarlyAt(a, i, p)
    ensures |SceneOf(a).start| == |Begin(a)| == a.existing + 1 && OnItsWay(SceneOf(a), Begin(a), i, p)
  {
    hide PacketCodec.OnTheWire, Arrived, Waiting, ToBeTold, Tabled, Hailed, Begin, SceneOf, Sound, Early, Late, Added,
         Needed;
    SceneSizes(a);
    MovesIff(a, i, p);
    if i < a.existing {
      BeginTabled(a, i, p);
    } else {
      SomeExist(a);
      BeginHailed(a);
    }
  }

  lemma BeginShape<C>(a: Arrival<C>)
    requires a.existing >= 1
    ensures Shape(Begin(a)) && AllResting(Begin(a)) && Untouched(a, Begin(a))
  {
    hide PacketCodec.OnTheWire;
  }

  lemma BeginInv<C>(a: Arrival<C>)
    requires Sound(a) && (a.w.literal ==> a.existing >= 2 && EditsApart(a))
    ensures Inv(SceneOf(a), Begin(a))
  {
    hide OnItsWay, HelloOk, EarlyAt, LateAt, PacketCodec.OnTheWire, DiskOk, BufOk, Sensible, Shape, EditsApart;
    var sc, net := SceneOf(a), Begin(a);
    SceneSizes(a);
    SceneIsSensible(a);
    BeginShape(a);
    forall i | 0 <= i < |net|
      ensures NodeOk(sc, net, i)
    {
      UntouchedIsOk(a, net, i);
      forall p | Mover(sc, i, p)
        ensures OnItsWay(sc, net, i, p)
      {
        MovesIff(a, i, p);
        if EarlyAt(a, i, p) {
          BeginOnItsWay(a, i, p);
        } else {
          LateOnItsWay(a, net, i, p);
        }
      }
      if i < a.existing {
        BeginHelloOk(a, i);
      }
    }
  }

  // ---- One existing node: its diff is the first one ----

  /** It has opened the arrival and answered. */
  function Met<C>(a: Arrival<C>): Net<C> {
    [Node(a.e0, TableAt(a, 0), TableAt(a, 0), [],
          [Job(1, Discoverer, TableAt(a, a.existing),
               Requests(a.w.literal, TableAt(a, 0), TableAt(a, a.existing), true), Open)]),
     Node(a.n0, TableAt(a, a.existing), TableAt(a, a.existing), [], [Answer(0, TableAt(a, 0))])]
  }

  lemma MetIsNext<C>(a: Arrival<C>, e: Event)
    requires Sound(a) && a.existing == 1 && Enabled(a.w, Begin(a), e)
    ensures e == Take(0, 0) && Do(a.w, Begin(a), e) == Met(a)
  {
    hide PacketCodec.OnTheWire, Requests, SnapshotDiff, TableOf;
    WholeHello(a);
    BeginFound(a);
    var net := Begin(a);
    assert e == Take(0, 0);
    var mid := net[0 := WithJob(net[0], 0, Opened(a.w, net[0], net[0].inbox[0]))];
    assert [] + [Answer(0, TableAt(a, 0))] == [Answer(0, TableAt(a, 0))];
    assert Do(a.w, net, e) == mid[1 := Receives(mid[1], Answer(0, TableAt(a, 0)))];
    assert Do(a.w, net, e)[0].inbox == Met(a)[0].inbox;
    assert Do(a.w, net, e)[1] == Met(a)[1];
    assert Do(a.w, net, e) == Met(a);
  }

  lemma BeginFound<C>(a: Arrival<C>)
    ensures forall i | 0 <= i < |Begin(a)| :: Found(a.w.rules, Begin(a)[i]) == []
  {
    hide SnapshotDiff;
    forall i | 0 <= i < |Begin(a)|
      ensures Found(a.w.rules, Begin(a)[i]) == []
    {
      EmptyDiff(TableAt(a, i), TableAt(a, i));
    }
  }

  lemma MetJobOk<C>(a: Arrival<C>)
    requires Sound(a) && Safe(a) && a.existing == 1
    ensures |SceneOf(a).start| == 2 && JobOk(SceneOf(a), Met(a), 0, Met(a)[0].inbox[0])
  {
    hide ChangeOk, Requests, Clashes;
    SceneSizes(a);
    forall c | c in Requests(a.w.literal, TableAt(a, 0), TableAt(a, 1), true)
      ensures ChangeOk(SceneOf(a), Met(a), 0, 1, c)
    {
      ExistingRequests(a.w.literal, TableAt(a, 0), TableAt(a, 1), c);
      EntryOk(a, Met(a), 0, c.path);
    }
  }

  lemma MetAnswerOk<C>(a: Arrival<C>)
    requires Sound(a) && a.existing == 1
    ensures |SceneOf(a).start| == 2 && AnswerOk(SceneOf(a), Met(a), 1, Answer(0, TableAt(a, 0)))
  {
    hide Requests, TellOk, Tells, Answerable, Missed, DiskOk, Sensible;
    var sc, net := SceneOf(a), Met(a);
    SceneSizes(a);
    SceneIsSensible(a);
    UntouchedIsOk(a, net, 0);
    forall p | p in TableAt(a, 0)
      ensures TellOk(sc, net, 1, 0, p, TableAt(a, 0)[p])
    {
      FileAnswerable(a, 0, p);
      AnswerEntryOk(sc, net, 0, 1, p);
    }
    forall p | Early(sc, 1, p)
      ensures Arrived(sc, 1, net[1], p) || Tells(sc, 1, Answer(0, TableAt(a, 0)), p)
    {
      FileMissed(a, 0, p);
      AnswerEntryTells(sc, net, 0, 1, p);
    }
  }

  lemma MetAwaits<C>(a: Arrival<C>, p: Path)
    requires Sound(a) && Safe(a) && a.existing == 1 && Added(a, p)
    ensures |SceneOf(a).start| == 2 && Awaits(SceneOf(a), 0, Met(a)[0].inbox[0], p)
  {
    hide Requests, Clashes, SceneOf;
    var c := Change(p, a.w.rules.announced(p, a.n0[p]), Addition);
    SceneSizes(a);
    ExistingRequests(a.w.literal, TableAt(a, 0), TableAt(a, 1), c);
    assert c in Met(a)[0].inbox[0].changes && Effective(SceneOf(a), 0, c);
  }

  lemma MetOnItsWay<C>(a: Arrival<C>, i: nat, p: Path)
    requires Sound(a) && Safe(a) && a.existing == 1 && i <= 1 && EarlyAt(a, i, p)
    ensures |SceneOf(a).start| == 2 && OnItsWay(SceneOf(a), Met(a), i, p)
  {
    hide Arrived, Waiting, ToBeTold, Tabled, Hailed, SceneOf, Sound, Early, Late, Added, Needed, Requests, TableAt,
         EditsApart;
    SceneSizes(a);
    MovesIff(a, i, p);
    if i == 0 {
      MetWaiting(a, p);
    } else {
      MetTabled(a, p);
    }
  }

  lemma MetWaiting<C>(a: Arrival<C>, p: Path)
    requires Sound(a) && Safe(a) && a.existing == 1 && Added(a, p)
    ensures |SceneOf(a).start| == 2 && Waiting(SceneOf(a), 0, Met(a)[0], p)
  {
    hide Awaits, SceneOf, Sound, Added, Requests, TableAt, EditsApart;
    MetAwaits(a, p);
    assert Met(a)[0].inbox[0] in Met(a)[0].inbox;
  }

  lemma MetAnswerTells<C>(a: Arrival<C>, p: Path)
    requires Sound(a) && a.existing == 1 && Early(SceneOf(a), 1, p)
    ensures |SceneOf(a).start| == 2
    ensures Arrived(SceneOf(a), 1, Met(a)[1], p) || Tells(SceneOf(a), 1, Answer(0, TableAt(a, 0)), p)
  {
    hide Arrived, Tells, TellOk, SceneOf, Sound, Early, TableAt, Met;
    MetAnswerOk(a);
  }

  lemma MetTabled<C>(a: Arrival<C>, p: Path)
    requires Sound(a) && a.existing == 1 && Early(SceneOf(a), 1, p)
    ensures |SceneOf(a).start| == 2
    ensures Arrived(SceneOf(a), 1, Met(a)[1], p) || Tabled(SceneOf(a), 1, Met(a)[1], p)
  {
    hide Arrived, Tells, SceneOf, Sound, Early, Requests, TableAt;
    MetAnswerTells(a, p);
    assert Met(a)[1].inbox[0] == Answer(0, TableAt(a, 0)) && Met(a)[1].inbox[0] in Met(a)[1].inbox;
  }

  lemma MetShape<C>(a: Arrival<C>)
    requires a.existing == 1
    ensures Shape(Met(a)) && Untouched(a, Met(a))
  {
    hide Requests;
  }

  lemma MetInv<C>(a: Arrival<C>)
    requires Sound(a) && Safe(a) && a.existing == 1
    ensures Inv(SceneOf(a), Met(a))
  {
    hide OnItsWay, JobOk, AnswerOk, EarlyAt, LateAt, DiskOk, BufOk, Sensible, Shape, EditsApart, Requests, Met;
    var sc, net := SceneOf(a), Met(a);
    SceneSizes(a);
    SceneIsSensible(a);
    MetShape(a);
    forall i | 0 <= i < |net|
      ensures NodeOk(sc, net, i)
    {
      UntouchedIsOk(a, net, i);
      MetInbox(a, i);
      forall p | Mover(sc, i, p)
        ensures OnItsWay(sc, net, i, p)
      {
        MovesIff(a, i, p);
        if EarlyAt(a, i, p) {
          MetOnItsWay(a, i, p);
        } else {
          LateOnItsWay(a, net, i, p);
        }
      }
    }
  }

  lemma MetInbox<C>(a: Arrival<C>, i: nat)
    requires Sound(a) && Safe(a) && a.existing == 1 && i <= 1
    ensures |SceneOf(a).start| == 2 == |Met(a)| && InboxOk(SceneOf(a), Met(a), i)
  {
    hide AnswerOk, ChangeOk, EditsApart, Requests;
    MetJobOk(a);
    MetAnswerOk(a);
  }

  // ---- How long it can take ----

  /** From here on the invariant holds. */
  function Start<C>(a: Arrival<C>): Net<C> {
    if a.existing == 1 then Met(a) else Begin(a)
  }

  lemma StartInv<C>(a: Arrival<C>)
    requires Sound(a) && Safe(a)
    ensures Inv(SceneOf(a), Start(a)) && |Start(a)| == a.existing + 1 == |SceneOf(a).start| && SceneOf(a).w == a.w
  {
    hide Inv, EditsApart;
    SceneSizes(a);
    if a.existing == 1 {
      MetInv(a);
    } else {
      BeginInv(a);
    }
  }

  function Known<C>(a: Arrival<C>): nat {
    |a.n0.Keys + a.e0.Keys|
  }

  /** In a network of `n` nodes and `known` paths: each path is pulled once, with what follows from that, and one
      table is worked through. */
  function PerNode(known: nat, n: nat): nat {
    known * (6 * n + 2) + (6 * known + 6)
  }

  function Bound<C>(a: Arrival<C>): int {
    (a.existing + 1) * PerNode(Known(a), a.existing + 1) + 1
  }

  lemma ListedCount<C>(a: Arrival<C>)
    ensures |Requests(a.w.literal, TableAt(a, 0), TableAt(a, a.existing), true)| <= Known(a)
  {
    hide Requests;
    RequestsCount(a.w.literal, TableAt(a, 0), TableAt(a, a.existing), true);
    SubsetSize(TableAt(a, a.existing).Keys, a.n0.Keys + a.e0.Keys);
  }

  lemma OneJobWork(known: nat, j: Job)
    ensures InboxWork(known, [j]) == Work(known, j)
  {
    hide Work;
    InboxWorkMore(known, [], j);
    assert [] + [j] == [j];
  }

  lemma StartInbox<C>(a: Arrival<C>, i: nat)
    requires a.existing >= 1 && i <= a.existing
    ensures InboxWork(Known(a), Start(a)[i].inbox) <= 6 * Known(a) + 6
  {
    hide PacketCodec.OnTheWire, Requests, Known, TableAt, InboxWork;
    ListedCount(a);
    var js := Start(a)[i].inbox;
    if js == [] {
      assert InboxWork(Known(a), []) == 0 by {
        NoWork(Known(a));
      }
    } else {
      OneJobWork(Known(a), js[0]);
      assert js == [js[0]];
    }
  }

  lemma NoWork(known: nat)
    ensures InboxWork(known, []) == 0
  {
  }

  lemma SomeExist<C>(a: Arrival<C>)
    requires Sound(a)
    ensures a.existing >= 1
  {
  }

  lemma StartUntouched<C>(a: Arrival<C>)
    requires Sound(a)
    ensures Untouched(a, Start(a))
  {
    hide PacketCodec.OnTheWire, Requests, TableAt;
  }

  lemma FreshWeight<C>(sc: Scene<C>, i: nat, x: Node<C>, known: nat)
    requires i < |sc.start| && known == |Paths(sc)| && x.snapshot == TableOf(sc.w.rules, x.disk) && x.buf == []
    requires InboxWork(known, x.inbox) <= 6 * known + 6
    ensures Weight(sc, i, x) <= PerNode(known, |sc.start|)
  {
    hide Paths, Arrived, InboxWork, Times;
    var n := |sc.start|;
    SubsetSize(Missing(sc, i, x), Paths(sc));
    assert Unsnapped(sc, x) == {};
    TimesMonotone(|Missing(sc, i, x)|, known, 6 * n + 2);
    TimesIs(known, 6 * n + 2);
    TimesIs(0, 6 * n + 1);
    TimesIs(0, 6 * n);
    CombinedIs(n, |Missing(sc, i, x)|, 0, 0, InboxWork(known, x.inbox));
  }

  lemma StartWeight<C>(a: Arrival<C>, i: nat)
    requires Sound(a) && i <= a.existing
    ensures |SceneOf(a).start| == a.existing + 1 == |Start(a)|
    ensures Weight(SceneOf(a), i, Start(a)[i]) <= PerNode(Known(a), a.existing + 1)
  {
    hide Paths, InboxWork, Weight, SceneOf, Start, Sound, PerNode;
    SceneSizes(a);
    StartUntouched(a);
    assert a.existing >= 1 by {
      SomeExist(a);
    }
    StartInbox(a, i);
    FreshWeight(SceneOf(a), i, Start(a)[i], Known(a));
  }

  lemma StartMeasure<C>(a: Arrival<C>)
    requires Sound(a)
    ensures |SceneOf(a).start| == |Start(a)| && 0 <= Measure(SceneOf(a), Start(a)) < Bound(a)
  {
    hide Weight, Start, PerNode;
    SceneSizes(a);
    StartSize(a);
    MeasureIsNatural(SceneOf(a), Start(a));
    var ws := Weights(SceneOf(a), Start(a));
    var each := PerNode(Known(a), a.existing + 1);
    forall i | 0 <= i < |ws|
      ensures ws[i] <= each
    {
      StartWeight(a, i);
    }
    SumAtMostEach(ws, each);
  }

  lemma StartSize<C>(a: Arrival<C>)
    requires Sound(a)
    ensures |Start(a)| == a.existing + 1
  {
  }

  /** A run does nothing, or goes on from the state in which the invariant holds. */
  lemma {:induction false} RunsStart<C>(a: Arrival<C>, events: seq<Event>, net: Net<C>) returns (rest: seq<Event>)
    requires Sound(a) && Run(a.w, Begin(a), events) == Some(net)
    ensures events == [] ==> net == Begin(a)
    ensures events != [] ==> Run(a.w, Start(a), rest) == Some(net) && |events| <= |rest| + 1
  {
    hide Enabled, Begin, Met, Do, Sound;
    rest := events;
    if a.existing == 1 && events != [] {
      RunUnrolled(a.w, Begin(a), events);
      MetIsNext(a, events[0]);
      rest := events[1..];
    }
  }

  // ---- Where every disk ends ----

  ghost predicate AtOutcome<C>(a: Arrival<C>, i: nat, x: Node<C>) {
    && (forall p :: Get(x.disk, p) == Outcome(a, i, p))
    && x.table == x.snapshot == TableOf(a.w.rules, x.disk)
    && x.buf == [] && x.inbox == []
  }

  ghost predicate AllAtOutcome<C>(a: Arrival<C>, net: Net<C>) {
    |net| == a.existing + 1 && forall i | 0 <= i < |net| :: AtOutcome(a, i, net[i])
  }

  lemma QuietIsAtOutcome<C>(a: Arrival<C>, net: Net<C>)
    requires Sound(a) && Inv(SceneOf(a), net) && Quiet(a.w.rules, net)
    ensures AllAtOutcome(a, net)
  {
    hide Inv, Outcome, Quiet, Sound;
    SceneSizes(a);
    QuietSettles(SceneOf(a), net);
    assert |net| == a.existing + 1 by {
      InvSize(SceneOf(a), net);
    }
    forall i | 0 <= i < |net|
      ensures AtOutcome(a, i, net[i])
    {
      forall p
        ensures Get(net[i].disk, p) == Outcome(a, i, p)
      {
        assert Arrived(SceneOf(a), i, net[i], p);
        FinalIsOutcome(a, i, p);
      }
    }
  }

  lemma BeginIsNotQuiet<C>(a: Arrival<C>)
    requires Sound(a)
    ensures !Quiet(a.w.rules, Begin(a))
  {
    assert Begin(a)[0].inbox != [];
  }

  /** With the intended filter, or with edits apart, every interleaving of watchers, handlers, discoverers and table
      managers ends within the bound: every disk where it should be and every table and snapshot to match, or threads
      that wait for each other for good. */
  lemma {:induction false} ArrivalSettles<C>(a: Arrival<C>, events: seq<Event>, net: Net<C>)
    requires Sound(a) && Safe(a) && Run(a.w, Begin(a), events) == Some(net)
    ensures |events| <= Bound(a)
    ensures Quiet(a.w.rules, net) ==> AllAtOutcome(a, net)
    ensures Over(a.w, net) ==> AllAtOutcome(a, net) || Knotted(net)
  {
    hide Inv, Measure, Quiet, Knotted, Over, Run, AllAtOutcome, SceneOf, Bound, Begin, Start, EditsApart, Sound;
    var rest := RunsStart(a, events, net);
    StartInv(a);
    StartMeasure(a);
    BeginIsNotQuiet(a);
    BeginKeepsShape(a, events, net);
    if events != [] {
      RunLowers(SceneOf(a), Start(a), rest);
      InvSize(SceneOf(a), net);
      MeasureIsNatural(SceneOf(a), net);
      if Quiet(a.w.rules, net) {
        QuietIsAtOutcome(a, net);
      }
    }
    if Over(a.w, net) {
      QuietOrKnotted(a.w, net);
    }
  }

  lemma BeginKeepsShape<C>(a: Arrival<C>, events: seq<Event>, net: Net<C>)
    requires Sound(a) && Run(a.w, Begin(a), events) == Some(net)
    ensures Shape(net)
  {
    hide Begin, Shape, Run;
    BeginShape(a);
    RunKeepsShape(a.w, Begin(a), events);
  }

  // ---- When the network wins ----

  /** Everybody has the newcomer's files overridden by the network's. */
  ghost predicate Won<C>(a: Arrival<C>, net: Net<C>) {
    |net| == a.existing + 1 && forall i | 0 <= i < |net| :: net[i].disk == a.n0 + a.e0
  }

  ghost predicate WonAt<C>(a: Arrival<C>, p: Path) {
    Outcome(a, 0, p) == Get(a.n0 + a.e0, p) == Outcome(a, a.existing, p)
  }

  lemma OutcomeOfNetworks<C>(a: Arrival<C>, p: Path)
    requires a.existing >= 1 && p in a.e0
    ensures Outcome(a, 0, p) == if BackAtExisting(a, p) then Copied(a.w.rules, a.e0, p) else Get(a.e0, p)
    ensures Outcome(a, a.existing, p) == if Needed(a, p) then Copied(a.w.rules, a.e0, p) else Get(a.n0, p)
  {
    hide BackAtExisting, Needed;
  }

  lemma OutcomeOfOthers<C>(a: Arrival<C>, p: Path)
    requires a.existing >= 1 && p !in a.e0
    ensures Outcome(a, 0, p) == Copied(a.w.rules, a.n0, p)
    ensures Outcome(a, a.existing, p) == if BackAtNewcomer(a, p) then Copied(a.w.rules, a.n0, p) else Get(a.n0, p)
  {
  }

  lemma WonAtIff<C>(a: Arrival<C>, p: Path)
    requires a.existing >= 1
    ensures WonAt(a, p) <==> JoinHandshake.FineAt(a.w.rules, a.n0, a.e0, p)
  {
    hide Outcome, JoinHandshake.TellsApart;
    if p in a.e0 {
      OutcomeOfNetworks(a, p);
      assert Get(a.n0 + a.e0, p) == Some(a.e0[p]);
      if p in a.n0 && a.n0[p] == a.e0[p] {
        SameIsKept(a, p);
      }
    } else {
      OutcomeOfOthers(a, p);
      assert Get(a.n0 + a.e0, p) == Get(a.n0, p);
    }
  }

  lemma SameIsKept<C>(a: Arrival<C>, p: Path)
    requires p in a.n0 && p in a.e0 && a.n0[p] == a.e0[p]
    ensures !Needed(a, p)
  {
  }

  lemma WonIffOutcomes<C>(a: Arrival<C>, net: Net<C>)
    requires Sound(a) && AllAtOutcome(a, net)
    ensures Won(a, net) <==> forall p :: WonAt(a, p)
  {
    hide Outcome;
    assert AtOutcome(a, 0, net[0]) && AtOutcome(a, a.existing, net[a.existing]);
    if Won(a, net) {
      forall p
        ensures WonAt(a, p)
      {
        assert Get(net[0].disk, p) == Outcome(a, 0, p) && Get(net[a.existing].disk, p) == Outcome(a, a.existing, p);
      }
    } else if forall p :: WonAt(a, p) {
      forall i | 0 <= i < |net|
        ensures net[i].disk == a.n0 + a.e0
      {
        forall p
          ensures Get(net[i].disk, p) == Get(a.n0 + a.e0, p)
        {
          assert AtOutcome(a, i, net[i]) && WonAt(a, p);
          ExistingAlike(a, i, p);
        }
        SameAnswersSameMap(net[i].disk, a.n0 + a.e0);
      }
    }
  }

  lemma ExistingAlike<C>(a: Arrival<C>, i: nat, p: Path)
    requires i <= a.existing && a.existing >= 1
    ensures Outcome(a, i, p) == Outcome(a, if i < a.existing then 0 else a.existing, p)
  {
    hide Added, Needed, BackAtExisting, BackAtNewcomer;
  }

  /** A settled network has the newcomer's files overridden by its own on every node if and only if the hashes tell the
      files apart and every file needed arrives whole. */
  lemma {:induction false} WonIff<C>(a: Arrival<C>, events: seq<Event>, net: Net<C>)
    requires Sound(a) && Safe(a) && Run(a.w, Begin(a), events) == Some(net) && Quiet(a.w.rules, net)
    ensures Won(a, net)
       <==> JoinHandshake.Distinguishable(a.w.rules, a.n0, a.e0) && JoinHandshake.ArrivesWhole(a.w.rules, a.n0, a.e0)
  {
    hide Run, Quiet, Begin, Won, WonAt, Over, Bound, AllAtOutcome, Safe, JoinHandshake.FineAt;
    ArrivalSettles(a, events, net);
    WonIffOutcomes(a, net);
    forall p
      ensures WonAt(a, p) <==> JoinHandshake.FineAt(a.w.rules, a.n0, a.e0, p)
    {
      WonAtIff(a, p);
    }
    JoinHandshake.FineEverywhere(a.w.rules, a.n0, a.e0);
  }
}

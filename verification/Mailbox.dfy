/** Who owns a `UdpMessage*`: the discoverer's queue, the handler, the one-slot mailbox, the table manager.

    Steps are as small as the program's assignments; the slot and its flag are two of them, under a mutex. */
module Mailbox {
  import opened Base
  import opened DirectoryDiff
  import opened EraseLoop
  import opened RequestFiles
  import FileTransfer
  import JoinHandshake
  import PacketCodec

  /** An allocated message: `id` numbers the allocations. A table travels with pid 1, changes with pid 6, the one change
      that is requested with pid 5. */
  datatype Msg = Msg(id: nat, pid: Byte, table: Table, changes: seq<Change>)

  datatype Owner = Nobody | TheHandler | TheManager

  datatype HandlerPc = HandlerReady | SlotLocked | FlagRaised | SlotFilled

  datatype ManagerPc = ManagerReady | Looking | FlagLowered | Taken | Processing | Processed

  datatype Hub = Hub(
    arrived: seq<Msg>,
    queue: seq<Msg>,
    handling: Option<Msg>,
    handler: HandlerPc,
    receivedTable: bool,
    slot: Option<Msg>,
    mutex: Owner,
    managing: Option<Msg>,
    manager: ManagerPc,
    processed: seq<Msg>,
    disposed: seq<Msg>,
    overwritten: seq<Msg>)

  datatype Step =
    | Enqueue(pid: Byte, table: Table, changes: seq<Change>)
    | Grab | LockSlot | RaiseFlag | FillSlot | UnlockSlot | Dispose
    | Look | LookAway | LowerFlag | TakeSlot | UnlockTaken | Process | DisposeTable

  const EMPTY_HUB := Hub([], [], None, HandlerReady, false, None, Nobody, None, ManagerReady, [], [], [])

  predicate Enabled(s: Hub, a: Step) {
    match a
    case Enqueue(pid, _, _) => pid != 0
    case Grab => s.handler == HandlerReady && s.handling.None? && s.queue != []
    case LockSlot => s.handler == HandlerReady && s.handling.Some? && s.handling.value.pid == 1 && s.mutex == Nobody
    case RaiseFlag => s.handler == SlotLocked
    case FillSlot => s.handler == FlagRaised
    case UnlockSlot => s.handler == SlotFilled
    case Dispose => s.handler == HandlerReady && s.handling.Some? && s.handling.value.pid != 1
    case Look => s.manager == ManagerReady && s.mutex == Nobody
    case LookAway => s.manager == Looking && !s.receivedTable
    case LowerFlag => s.manager == Looking && s.receivedTable
    case TakeSlot => s.manager == FlagLowered
    case UnlockTaken => s.manager == Taken
    case Process => s.manager == Processing && s.managing.Some?
    case DisposeTable => s.manager == Processed && s.managing.Some?
  }

  function AsSeq(m: Option<Msg>): seq<Msg> {
    if m.Some? then [m.value] else []
  }

  function Do(s: Hub, a: Step): Hub
    requires Enabled(s, a)
  {
    match a
    case Enqueue(pid, table, changes) =>
      var m := Msg(|s.arrived|, pid, table, changes);
      s.(arrived := s.arrived + [m], queue := s.queue + [m])
    case Grab => s.(handling := Some(s.queue[0]), queue := s.queue[1..])
    case LockSlot => s.(mutex := TheHandler, handler := SlotLocked)
    case RaiseFlag => s.(receivedTable := true, handler := FlagRaised)
    case FillSlot =>
      // the pointer that was in the slot is lost
      s.(overwritten := s.overwritten + AsSeq(s.slot), slot := s.handling, handling := None, handler := SlotFilled)
    case UnlockSlot => s.(mutex := Nobody, handler := HandlerReady)
    case Dispose => s.(disposed := s.disposed + [s.handling.value], handling := None)
    case Look => s.(mutex := TheManager, manager := Looking)
    case LookAway => s.(mutex := Nobody, manager := ManagerReady)
    case LowerFlag => s.(receivedTable := false, manager := FlagLowered)
    case TakeSlot => s.(managing := s.slot, slot := None, manager := Taken)
    case UnlockTaken => s.(mutex := Nobody, manager := Processing)
    case Process => s.(processed := s.processed + [s.managing.value], manager := Processed)
    case DisposeTable =>
      s.(disposed := s.disposed + [s.managing.value], managing := None, manager := ManagerReady)
  }

  /** The message whose contents a step looks at. */
  function Reads(s: Hub, a: Step): Option<Msg> {
    match a
    case LockSlot => s.handling
    case Dispose => s.handling
    case Process => s.managing
    case DisposeTable => s.managing
    case _ => None
  }

  function Run(s: Hub, steps: seq<Step>): Option<Hub>
    decreases steps
  {
    if steps == [] then Some(s)
    else if Enabled(s, steps[0]) then Run(Do(s, steps[0]), steps[1..])
    else None
  }

  // ---- The invariant ----

  function Holds(place: Option<Msg>, m: Msg): nat {
    if place == Some(m) then 1 else 0
  }

  /** How often a message occurs over all the places it can be in. */
  function Copies(s: Hub, m: Msg): nat {
    multiset(s.queue)[m] + Holds(s.handling, m) + Holds(s.slot, m) + Holds(s.managing, m)
    + multiset(s.disposed)[m] + multiset(s.overwritten)[m]
  }

  predicate Numbered(ms: seq<Msg>) {
    forall i | 0 <= i < |ms| :: ms[i].id == i
  }

  /** The two threads' program counters, the mutex, the flag and the slot fit together. */
  predicate Coherent(s: Hub) {
    && (s.mutex == TheHandler <==> s.handler != HandlerReady)
    && (s.mutex == TheManager <==> s.manager in {Looking, FlagLowered, Taken})
    && (s.handler in {SlotLocked, FlagRaised} ==> s.handling.Some? && s.handling.value.pid == 1)
    && (s.handler == SlotFilled ==> s.handling.None?)
    && (s.manager in {Taken, Processing, Processed} <==> s.managing.Some?)
    && (s.receivedTable <==> (s.slot.Some? && s.manager != FlagLowered) || s.handler == FlagRaised)
    && (s.manager == FlagLowered ==> s.slot.Some?)
    && (s.slot.Some? ==> s.slot.value.pid == 1)
    && (s.managing.Some? ==> s.managing.value.pid == 1)
  }

  function TablesOf(ms: seq<Msg>): seq<Msg> {
    if ms == [] then [] else
      var before := TablesOf(ms[..|ms| - 1]);
      if ms[|ms| - 1].pid == 1 then before + [ms[|ms| - 1]] else before
  }

  /** Tables done, being done and in the slot, in this order. */
  function Front(s: Hub): seq<Msg> {
    s.processed + (if s.manager == Processed then [] else AsSeq(s.managing)) + AsSeq(s.slot)
  }

  /** Then the ones the handler holds or will hold: all tables in the order of their processing, unless one is
      overwritten. */
  function Trail(s: Hub): seq<Msg> {
    Front(s) + TablesOf(AsSeq(s.handling)) + TablesOf(s.queue)
  }

  predicate Increasing(ms: seq<Msg>) {
    forall i, j | 0 <= i < j < |ms| :: ms[i].id < ms[j].id
  }

  predicate SameLast(a: seq<Msg>, b: seq<Msg>) {
    (a == [] <==> b == []) && (a != [] ==> a[|a| - 1] == b[|b| - 1])
  }

  /** A selection of the arrived tables, in order, that has not lost the newest. */
  ghost predicate Ordered(trail: seq<Msg>, arrived: seq<Msg>) {
    && Increasing(trail)
    && (forall m | m in trail :: m in arrived && m.pid == 1)
    && SameLast(trail, TablesOf(arrived))
  }

  ghost predicate Inv(s: Hub) {
    && Numbered(s.arrived)
    && Coherent(s)
    && (forall m :: Copies(s, m) == multiset(s.arrived)[m])
    && Ordered(Trail(s), s.arrived)
  }

  lemma {:induction false} TablesOfConcat(a: seq<Msg>, b: seq<Msg>)
    ensures TablesOf(a + b) == TablesOf(a) + TablesOf(b)
  {
    if b == [] {
      assert a + b == a;
    } else {
      assert (a + b)[..|a + b| - 1] == a + b[..|b| - 1];
      TablesOfConcat(a, b[..|b| - 1]);
    }
  }

  lemma TablesOfOne(m: Msg)
    ensures TablesOf([m]) == if m.pid == 1 then [m] else []
  {
    assert [m][..0] == [];
  }

  lemma PushCount(q: seq<Msg>, x: Msg, m: Msg)
    ensures multiset(q + [x])[m] == multiset(q)[m] + Holds(Some(x), m)
  {
  }

  lemma PopCount(q: seq<Msg>, m: Msg)
    requires q != []
    ensures multiset(q)[m] == multiset(q[1..])[m] + Holds(Some(q[0]), m)
  {
    assert q == [q[0]] + q[1..];
  }

  lemma EnqueueCopies(s: Hub, a: Step, m: Msg)
    requires Enabled(s, a) && a.Enqueue?
    requires Copies(s, m) == multiset(s.arrived)[m]
    ensures Copies(Do(s, a), m) == multiset(Do(s, a).arrived)[m]
  {
    var x := Msg(|s.arrived|, a.pid, a.table, a.changes);
    PushCount(s.arrived, x, m);
    PushCount(s.queue, x, m);
  }

  lemma FillCopies(s: Hub, m: Msg)
    requires Coherent(s) && Enabled(s, FillSlot)
    ensures Copies(Do(s, FillSlot), m) == Copies(s, m)
  {
    if s.slot.Some? {
      PushCount(s.overwritten, s.slot.value, m);
    } else {
      assert s.overwritten + [] == s.overwritten;
    }
  }

  lemma GrabCopies(s: Hub, m: Msg)
    requires Enabled(s, Grab)
    ensures Copies(Do(s, Grab), m) == Copies(s, m)
  {
    PopCount(s.queue, m);
  }

  lemma DisposeCopies(s: Hub, a: Step, m: Msg)
    requires Enabled(s, a) && (a.Dispose? || a.DisposeTable?)
    ensures Copies(Do(s, a), m) == Copies(s, m)
  {
    PushCount(s.disposed, if a.Dispose? then s.handling.value else s.managing.value, m);
  }

  lemma CopiesKept(s: Hub, a: Step, m: Msg)
    requires Coherent(s) && Enabled(s, a)
    requires Copies(s, m) == multiset(s.arrived)[m]
    ensures Copies(Do(s, a), m) == multiset(Do(s, a).arrived)[m]
  {
    match a
    case Enqueue(_, _, _) => EnqueueCopies(s, a, m);
    case FillSlot => FillCopies(s, m);
    case Grab => GrabCopies(s, m);
    case Dispose => DisposeCopies(s, a, m);
    case DisposeTable => DisposeCopies(s, a, m);
    case _ =>
  }

  lemma IncreasingPush(ms: seq<Msg>, m: Msg)
    requires Increasing(ms) && forall x | x in ms :: x.id < m.id
    ensures Increasing(ms + [m])
  {
  }

  lemma OrderedPush(trail: seq<Msg>, arrived: seq<Msg>, m: Msg)
    requires Ordered(trail, arrived) && Numbered(arrived) && m.id == |arrived|
    ensures Ordered(trail + TablesOf([m]), arrived + [m])
  {
    TablesOfConcat(arrived, [m]);
    TablesOfOne(m);
    if m.pid == 1 {
      forall x | x in trail
        ensures x.id < m.id
      {
        var i :| 0 <= i < |arrived| && arrived[i] == x;
      }
      IncreasingPush(trail, m);
    } else {
      assert trail + [] == trail && TablesOf(arrived) + [] == TablesOf(arrived);
    }
  }

  lemma EnqueueExtendsTrail(s: Hub, m: Msg)
    ensures Trail(s.(queue := s.queue + [m])) == Trail(s) + TablesOf([m])
  {
    TablesOfConcat(s.queue, [m]);
    Regroup(Front(s) + TablesOf(AsSeq(s.handling)), TablesOf(s.queue), TablesOf([m]));
  }

  lemma EnqueueKeepsTrail(s: Hub, pid: Byte, table: Table, changes: seq<Change>)
    requires Inv(s) && pid != 0
    ensures Ordered(Trail(Do(s, Enqueue(pid, table, changes))), Do(s, Enqueue(pid, table, changes)).arrived)
  {
    var m := Msg(|s.arrived|, pid, table, changes);
    EnqueueExtendsTrail(s, m);
    OrderedPush(Trail(s), s.arrived, m);
    assert Trail(Do(s, Enqueue(pid, table, changes))) == Trail(s.(queue := s.queue + [m]));
  }

  /** Dropping one element that is not the last keeps order and last element. */
  lemma DropOne(a: seq<Msg>, x: Msg, b: seq<Msg>)
    requires Increasing(a + [x] + b) && b != []
    ensures Increasing(a + b) && SameLast(a + b, a + [x] + b)
    ensures forall m | m in a + b :: m in a + [x] + b
  {
    var whole := a + [x] + b;
    forall i, j | 0 <= i < j < |a + b|
      ensures (a + b)[i].id < (a + b)[j].id
    {
      assert (a + b)[i] == whole[if i < |a| then i else i + 1];
      assert (a + b)[j] == whole[if j < |a| then j else j + 1];
    }
  }

  /** Filling the slot moves the handled table forward and drops the one that was there. */
  lemma FillTrail(s: Hub, before: seq<Msg>)
    requires Coherent(s) && Enabled(s, FillSlot)
    requires before == s.processed + (if s.manager == Processed then [] else AsSeq(s.managing))
    ensures Trail(s) == before + AsSeq(s.slot) + ([s.handling.value] + TablesOf(s.queue))
    ensures Trail(Do(s, FillSlot)) == before + ([s.handling.value] + TablesOf(s.queue))
  {
    var m, later := s.handling.value, TablesOf(s.queue);
    TablesOfOne(m);
    Regroup(before + AsSeq(s.slot), [m], later);
    assert before + [m] + [] == before + [m];
    Regroup(before, [m], later);
  }

  lemma FillKeepsTrail(s: Hub)
    requires Inv(s) && Enabled(s, FillSlot)
    ensures Ordered(Trail(Do(s, FillSlot)), s.arrived)
  {
    var before := s.processed + (if s.manager == Processed then [] else AsSeq(s.managing));
    var rest := [s.handling.value] + TablesOf(s.queue);
    FillTrail(s, before);
    if s.slot.Some? {
      DropOne(before, s.slot.value, rest);
    } else {
      assert before + [] == before;
    }
  }

  lemma GrabKeepsTrail(s: Hub)
    requires Enabled(s, Grab)
    ensures Trail(Do(s, Grab)) == Trail(s)
  {
    var m, rest := s.queue[0], s.queue[1..];
    assert s.queue == [m] + rest;
    TablesOfConcat([m], rest);
    assert TablesOf(AsSeq(s.handling)) == [];
    assert Front(s) + [] == Front(s);
    Regroup(Front(s), TablesOf([m]), TablesOf(rest));
  }

  lemma OthersKeepTrail(s: Hub, a: Step)
    requires Coherent(s) && Enabled(s, a) && !a.Enqueue? && !a.FillSlot?
    ensures Trail(Do(s, a)) == Trail(s)
  {
    if a.Grab? {
      GrabKeepsTrail(s);
    } else {
      if a.Dispose? {
        TablesOfOne(s.handling.value);
      }
      assert Front(Do(s, a)) == Front(s);
    }
  }

  lemma StepKeepsCoherence(s: Hub, a: Step)
    requires Coherent(s) && Enabled(s, a)
    ensures Coherent(Do(s, a))
  {
  }

  lemma StepKeepsInv(s: Hub, a: Step)
    requires Inv(s) && Enabled(s, a)
    ensures Inv(Do(s, a))
  {
    StepKeepsCoherence(s, a);
    StepKeepsCopies(s, a);
    StepKeepsTrail(s, a);
  }

  lemma StepKeepsCopies(s: Hub, a: Step)
    requires Inv(s) && Enabled(s, a)
    ensures Numbered(Do(s, a).arrived)
    ensures forall m :: Copies(Do(s, a), m) == multiset(Do(s, a).arrived)[m]
  {
    forall m
      ensures Copies(Do(s, a), m) == multiset(Do(s, a).arrived)[m]
    {
      CopiesKept(s, a, m);
    }
  }

  lemma StepKeepsTrail(s: Hub, a: Step)
    requires Inv(s) && Enabled(s, a)
    ensures Ordered(Trail(Do(s, a)), Do(s, a).arrived)
  {
    if a.Enqueue? {
      EnqueueKeepsTrail(s, a.pid, a.table, a.changes);
    } else if a.FillSlot? {
      FillKeepsTrail(s);
    } else {
      OthersKeepTrail(s, a);
    }
  }

  lemma {:induction false} RunKeepsInv(s: Hub, steps: seq<Step>)
    requires Inv(s) && Run(s, steps).Some?
    ensures Inv(Run(s, steps).value)
    decreases steps
  {
    if steps != [] {
      StepKeepsInv(s, steps[0]);
      RunKeepsInv(Do(s, steps[0]), steps[1..]);
    }
  }

  /** The thread that takes a step; nobody stands for the discoverer. */
  function ThreadOf(a: Step): Owner {
    match a
    case Enqueue(_, _, _) => Nobody
    case Grab => TheHandler case LockSlot => TheHandler case RaiseFlag => TheHandler
    case FillSlot => TheHandler case UnlockSlot => TheHandler case Dispose => TheHandler
    case _ => TheManager
  }

  /** Neither thread ever has a choice. The handler waits only for a message or the mutex. */
  lemma HandlerStepAhead(s: Hub)
    ensures forall a, b | Enabled(s, a) && Enabled(s, b) && ThreadOf(a) == ThreadOf(b) == TheHandler :: a == b
    ensures (exists a :: Enabled(s, a) && ThreadOf(a) == TheHandler) <==>
              || s.handler != HandlerReady
              || (if s.handling.Some? then s.handling.value.pid == 1 ==> s.mutex == Nobody else s.queue != [])
  {
    var h := match s.handler
      case SlotLocked => RaiseFlag case FlagRaised => FillSlot case SlotFilled => UnlockSlot
      case HandlerReady => if s.handling.None? then Grab else if s.handling.value.pid == 1 then LockSlot else Dispose;
    assert forall a | Enabled(s, a) && ThreadOf(a) == TheHandler :: a == h;
    assert ThreadOf(h) == TheHandler;
  }

  /** The table manager waits only for the mutex; one that looks at the mailbox looks away exactly if it is empty. */
  lemma ManagerStepAhead(s: Hub)
    requires Coherent(s)
    ensures forall a, b | Enabled(s, a) && Enabled(s, b) && ThreadOf(a) == ThreadOf(b) == TheManager :: a == b
    ensures (exists a :: Enabled(s, a) && ThreadOf(a) == TheManager) <==> s.manager != ManagerReady || s.mutex == Nobody
    ensures s.manager == Looking ==> (Enabled(s, LookAway) <==> s.slot.None?)
  {
    var m := match s.manager
      case ManagerReady => Look
      case Looking => if s.receivedTable then LowerFlag else LookAway
      case FlagLowered => TakeSlot case Taken => UnlockTaken case Processing => Process case Processed => DisposeTable;
    assert forall a | Enabled(s, a) && ThreadOf(a) == TheManager :: a == m;
    assert ThreadOf(m) == TheManager;
  }

  lemma {:induction false} AllocatedOnce(ms: seq<Msg>, m: Msg)
    requires Numbered(ms)
    ensures multiset(ms)[m] == if m in ms then 1 else 0
  {
    if ms != [] {
      var init, last := ms[..|ms| - 1], ms[|ms| - 1];
      assert ms == init + [last];
      AllocatedOnce(init, m);
      assert last !in init;
    }
  }

  // ---- Main results ----

  lemma ReadsAreLive(s: Hub, a: Step)
    requires Inv(s) && Enabled(s, a) && Reads(s, a).Some?
    ensures Reads(s, a).value !in s.disposed && Reads(s, a).value !in s.overwritten
  {
    var m := Reads(s, a).value;
    AllocatedOnce(s.arrived, m);
    assert Copies(s, m) <= 1;
    assert m in s.disposed ==> multiset(s.disposed)[m] > 0;
    assert m in s.overwritten ==> multiset(s.overwritten)[m] > 0;
  }

  /** What the invariant says of ownership. */
  lemma OwnedOnce(s: Hub, m: Msg)
    requires Inv(s)
    ensures Copies(s, m) == (if m in s.arrived then 1 else 0) && multiset(s.disposed)[m] <= 1
  {
    hide Coherent, Ordered, Trail;
    AllocatedOnce(s.arrived, m);
    assert Copies(s, m) == multiset(s.arrived)[m];
  }

  /** Over every interleaving each allocated message is in exactly one place and is disposed at most once; no
      enabled step reads a disposed or an overwritten message; and whenever the mutex is free the flag is up
      exactly when the slot is full. */
  lemma {:induction false} OwnershipOverAllRuns(steps: seq<Step>)
    requires Run(EMPTY_HUB, steps).Some?
    ensures
      var s := Run(EMPTY_HUB, steps).value;
      && (forall m :: Copies(s, m) == if m in s.arrived then 1 else 0)
      && (forall m :: multiset(s.disposed)[m] <= 1)
      && (forall a | Enabled(s, a) && Reads(s, a).Some? ::
            Reads(s, a).value !in s.disposed && Reads(s, a).value !in s.overwritten)
      && (s.mutex == Nobody ==> (s.receivedTable <==> s.slot.Some?))
  {
    hide Run, Copies, Enabled, Reads, Inv;
    EmptyInv();
    RunKeepsInv(EMPTY_HUB, steps);
    var s := Run(EMPTY_HUB, steps).value;
    forall m
      ensures Copies(s, m) == (if m in s.arrived then 1 else 0) && multiset(s.disposed)[m] <= 1
    {
      OwnedOnce(s, m);
    }
    forall a | Enabled(s, a) && Reads(s, a).Some?
      ensures Reads(s, a).value !in s.disposed && Reads(s, a).value !in s.overwritten
    {
      ReadsAreLive(s, a);
    }
    FlagFollowsSlot(s);
  }

  lemma FlagFollowsSlot(s: Hub)
    requires Inv(s)
    ensures s.mutex == Nobody ==> (s.receivedTable <==> s.slot.Some?)
  {
    hide Ordered, Copies;
  }

  lemma EmptyInv()
    ensures Inv(EMPTY_HUB)
  {
  }

  predicate Drained(s: Hub) {
    s.queue == [] && s.handling.None? && s.slot.None? && s.managing.None?
  }

  /** The processed tables are pid-1 messages in the order of their arrival, and once everything is drained the
      newest arrival has been processed, whatever was overwritten on the way. */
  lemma {:induction false} MailboxOrder(steps: seq<Step>)
    requires Run(EMPTY_HUB, steps).Some?
    ensures
      var s := Run(EMPTY_HUB, steps).value;
      && Increasing(s.processed)
      && (forall m | m in s.processed :: m in TablesOf(s.arrived))
      && (Drained(s) ==> SameLast(s.processed, TablesOf(s.arrived)))
  {
    EmptyInv();
    RunKeepsInv(EMPTY_HUB, steps);
    ProcessedInOrder(Run(EMPTY_HUB, steps).value);
  }

  lemma ProcessedInOrder(s: Hub)
    requires Inv(s)
    ensures Increasing(s.processed) && forall m | m in s.processed :: m in TablesOf(s.arrived)
    ensures Drained(s) ==> SameLast(s.processed, TablesOf(s.arrived))
  {
    assert |s.processed| <= |Trail(s)| && Trail(s)[..|s.processed|] == s.processed;
    forall i, j | 0 <= i < j < |s.processed|
      ensures s.processed[i].id < s.processed[j].id
    {
      assert Trail(s)[i] == s.processed[i] && Trail(s)[j] == s.processed[j];
    }
    forall m | m in s.processed
      ensures m in TablesOf(s.arrived)
    {
      assert m in Trail(s);
      TablesInclude(s.arrived, m);
    }
    if Drained(s) {
      assert TablesOf(AsSeq(s.handling)) == [] && TablesOf(s.queue) == [];
      assert Trail(s) == s.processed;
    }
  }

  lemma {:induction false} TablesInclude(ms: seq<Msg>, m: Msg)
    requires m.pid == 1
    ensures m in TablesOf(ms) <==> m in ms
  {
    if ms != [] {
      TablesInclude(ms[..|ms| - 1], m);
      assert ms == ms[..|ms| - 1] + [ms[|ms| - 1]];
    }
  }

  // ---- What overwriting in the slot costs ----

  /** What a newcomer asks for when it works through a table: its diff, passed through the filter loop. */
  function Requested(own: Table, table: Table): seq<Change> {
    var d := MergeDiff(own, table);
    Survivors(d, false, |d|)
  }

  /** It is exactly what the table lists and its own table lacks or has with another hash. */
  lemma RequestedIs(own: Table, table: Table, c: Change)
    ensures c in Requested(own, table) <==>
              && c.path in table && c.hash == table[c.path] && Get(own, c.path) != Some(c.hash)
              && c.kind == (if c.path in own then Edit else Addition)
  {
    MergeDiffDescribes(own, table);
    NothingDoomed(MergeDiff(own, table), false);
    assert c in MergeDiff(own, table) <==> Correct(c, own, own + table);
  }

  /** The newcomer's disk after it has worked through these tables, pulling from nodes that all hold `server`. */
  function WorkedThrough<C>(r: Rules<C>, own: Table, disk: Disk<C>, server: Disk<C>, ms: seq<Msg>): Disk<C> {
    if ms == [] then disk
    else
      PullAll(r, WorkedThrough(r, own, disk, server, ms[..|ms| - 1]), server, Requested(own, ms[|ms| - 1].table))
  }

  /** The nodes' table says what the nodes have. */
  lemma RequestsEnd<C>(r: Rules<C>, own: Table, server: Disk<C>, p: Path)
    ensures EndsAt(server, Requested(own, TableOf(r, server)), p)
  {
    var cs := Requested(own, TableOf(r, server));
    LastForIsLast(cs, p);
    forall c | c in cs
      ensures c.path in server && c.kind != Deletion
    {
      RequestedIs(own, TableOf(r, server), c);
    }
  }

  /** A second table that is the same as the first makes no difference to the disk. */
  lemma {:induction false} SameTableTwice<C>(r: Rules<C>, own: Table, disk: Disk<C>, server: Disk<C>, ms: seq<Msg>)
    requires ms != [] && forall m | m in ms :: m.table == TableOf(r, server)
    ensures WorkedThrough(r, own, disk, server, ms) == PullAll(r, disk, server, Requested(own, TableOf(r, server)))
  {
    hide PullAll, Requested;
    var init, last := ms[..|ms| - 1], ms[|ms| - 1];
    assert last in ms;
    if init != [] {
      SameTableTwice(r, own, disk, server, init);
      forall p
        ensures EndsAt(server, Requested(own, TableOf(r, server)), p)
      {
        RequestsEnd(r, own, server, p);
      }
      PullAllTwice(r, disk, server, Requested(own, TableOf(r, server)));
    }
  }

  /** When all existing nodes answer with one table, a newcomer that has emptied its mailbox has asked for the same
      files and has the same disk as one that would have worked through every answer, none overwritten. */
  lemma {:induction false} OverwritingIsHarmless<C>(
    steps: seq<Step>, r: Rules<C>, own: Table, disk: Disk<C>, server: Disk<C>)
    requires Run(EMPTY_HUB, steps).Some? && Drained(Run(EMPTY_HUB, steps).value)
    requires forall m | m in TablesOf(Run(EMPTY_HUB, steps).value.arrived) :: m.table == TableOf(r, server)
    ensures
      var s := Run(EMPTY_HUB, steps).value;
      && WorkedThrough(r, own, disk, server, s.processed) == WorkedThrough(r, own, disk, server, TablesOf(s.arrived))
      && (s.processed != [] ==>
            WorkedThrough(r, own, disk, server, s.processed)
              == PullAll(r, disk, server, Requested(own, TableOf(r, server))))
  {
    hide Run, PullAll, Requested, Drained;
    MailboxOrder(steps);
    var s := Run(EMPTY_HUB, steps).value;
    if s.processed != [] {
      SameTableTwice(r, own, disk, server, s.processed);
      SameTableTwice(r, own, disk, server, TablesOf(s.arrived));
    }
  }

  // ---- The program's form ----

  lemma {:induction false} FiveSteps(s: Hub, a: Step, b: Step, c: Step, d: Step, e: Step)
    requires Enabled(s, a) && Enabled(Do(s, a), b) && Enabled(Do(Do(s, a), b), c)
    requires Enabled(Do(Do(Do(s, a), b), c), d) && Enabled(Do(Do(Do(Do(s, a), b), c), d), e)
    ensures Run(s, [a, b, c, d, e]) == Some(Do(Do(Do(Do(Do(s, a), b), c), d), e))
  {
    assert [e][1..] == [];
    assert [d, e][1..] == [e];
    assert [c, d, e][1..] == [d, e];
    assert [b, c, d, e][1..] == [c, d, e];
    assert [a, b, c, d, e][1..] == [b, c, d, e];
    var s3 := Do(Do(Do(s, a), b), c);
    assert Run(Do(s3, d), [e]) == Some(Do(Do(s3, d), e));
    assert Run(s3, [d, e]) == Some(Do(Do(s3, d), e));
    assert Run(Do(Do(s, a), b), [c, d, e]) == Some(Do(Do(s3, d), e));
  }

  /** Between two turns of the threads. */
  predicate AtRest(s: Hub) {
    && s.handling.None? && s.handler == HandlerReady && s.mutex == Nobody
    && s.managing.None? && s.manager == ManagerReady
  }

  /** A turn of the handler, step by step. */
  lemma {:induction false} HandlerTurn(s: Hub)
    requires AtRest(s) && s.queue != []
    ensures
      var m, rest := s.queue[0], s.queue[1..];
      if m.pid == 1 then
        Run(s, [Grab, LockSlot, RaiseFlag, FillSlot, UnlockSlot])
          == Some(s.(queue := rest, receivedTable := true, slot := Some(m),
                     overwritten := s.overwritten + AsSeq(s.slot)))
      else Run(s, [Grab, Dispose]) == Some(s.(queue := rest, disposed := s.disposed + [m]))
  {
    if s.queue[0].pid == 1 {
      FiveSteps(s, Grab, LockSlot, RaiseFlag, FillSlot, UnlockSlot);
    } else {
      assert [Grab, Dispose][1..] == [Dispose] && [Dispose][1..] == [];
    }
  }

  /** A turn of the table manager, step by step. */
  lemma {:induction false} ManagerTurn(s: Hub)
    requires AtRest(s) && (s.receivedTable <==> s.slot.Some?)
    ensures
      if s.receivedTable then
        Run(s, [Look, LowerFlag, TakeSlot, UnlockTaken, Process, DisposeTable])
          == Some(s.(receivedTable := false, slot := None, processed := s.processed + [s.slot.value],
                     disposed := s.disposed + [s.slot.value]))
      else Run(s, [Look, LookAway]) == Some(s)
  {
    if s.receivedTable {
      FiveSteps(Do(s, Look), LowerFlag, TakeSlot, UnlockTaken, Process, DisposeTable);
      assert [Look, LowerFlag, TakeSlot, UnlockTaken, Process, DisposeTable][1..]
          == [LowerFlag, TakeSlot, UnlockTaken, Process, DisposeTable];
    } else {
      assert [Look, LookAway][1..] == [LookAway] && [LookAway][1..] == [];
    }
  }

  method DealWith(node: Requester, fileHashes: Table, table: Table, senders: seq<Disk<FileTransfer.File>>)
    requires !node.locked && |senders| == |Requested(fileHashes, table)| && forall p | p in table :: |p| < 0x1_0000_0000
    modifies node
    ensures node.disk == PullEach(node.FileRules(), old(node.disk), senders, Requested(fileHashes, table))
  {
    JoinHandshake.DealWithHashTable(node, fileHashes, table, senders, false);
  }

  function CarriedTable(content: PacketCodec.Content): Table {
    if content.Answer? then content.table else map[]
  }

  function CarriedChanges(content: PacketCodec.Content): seq<Change> {
    if content.Request? then [content.change] else if content.News? then content.changes else []
  }

  /** The step a packet causes that is not an arrival: its first byte goes into the message. */
  function Received(packet: PacketCodec.Bytes): Step
    requires packet != [] && PacketCodec.Read(packet).Some?
  {
    var content := PacketCodec.Read(packet).value;
    Enqueue(packet[0], CarriedTable(content), CarriedChanges(content))
  }

  /** An answered table, a request and a broadcast are queued with the ids by which the handler tells them apart, and
      with what the sender put in. */
  lemma PacketsFindTheirBranch(t: Table, c: Change, port: nat, cs: seq<Change>)
    requires (forall k | k in t :: |k| < 0x1_0000_0000) && PacketCodec.Encodable(c) && port < 0x1_0000
    requires |cs| < 0x1_0000_0000 && forall d | d in cs :: PacketCodec.Encodable(d)
    ensures
      var answer, request, news :=
        PacketCodec.EncodeAnswer(t), PacketCodec.EncodeRequest(c, port), PacketCodec.EncodeChanges(cs);
      && answer != [] && PacketCodec.Read(answer).Some?
      && Received(answer) == Enqueue(1, PacketCodec.OnTheWire(t), [])
      && request != [] && PacketCodec.Read(request).Some? && Received(request) == Enqueue(5, map[], [c])
      && news != [] && PacketCodec.Read(news).Some? && Received(news) == Enqueue(6, map[], cs)
  {
    hide PacketCodec.TableIn, PacketCodec.DecodeRequest, PacketCodec.DecodeChanges;
    hide PacketCodec.EncodeAnswer, PacketCodec.EncodeRequest, PacketCodec.EncodeChanges;
    PacketCodec.ReadsBack(t, c, port, cs);
  }

  class MessageHub {
    var todoUdp: seq<Msg>
    var receivedTable: bool
    var tableManagerMessage: Option<Msg>
    ghost var arrived: seq<Msg>
    ghost var processed: seq<Msg>
    ghost var disposed: seq<Msg>
    ghost var overwritten: seq<Msg>
    var count: nat

    /** The state between two loop turns of the three threads. */
    ghost function State(): Hub
      reads this
    {
      Hub(arrived, todoUdp, None, HandlerReady, receivedTable, tableManagerMessage, Nobody, None, ManagerReady,
          processed, disposed, overwritten)
    }

    constructor ()
      ensures State() == EMPTY_HUB && count == 0
    {
      todoUdp, receivedTable, tableManagerMessage, count := [], false, None, 0;
      arrived, processed, disposed, overwritten := [], [], [], [];
    }

    /** The discoverer: every packet but an arrival becomes a new message at the back of the queue. */
    method CollectUdpTraffic(packet: PacketCodec.Bytes)
      requires packet != [] && packet[0] != 0 && PacketCodec.Read(packet).Some? && count == |arrived|
      modifies this
      ensures count == |arrived|
      ensures Run(old(State()), [Received(packet)]) == Some(State())
    {
      hide PacketCodec.TableIn, PacketCodec.DecodeRequest, PacketCodec.DecodeChanges;
      var content := PacketCodec.Read(packet).value;
      var message := Msg(count, packet[0], CarriedTable(content), CarriedChanges(content));
      assert [Received(packet)][1..] == [];
      todoUdp := todoUdp + [message];
      arrived := arrived + [message];
      count := count + 1;
    }

    /** One turn of the handler: a table goes to the mailbox, a request is answered with the file or called off, a
        broadcast is worked off; all but a table are disposed. `senders` is the sender's disk at each request. */
    method HandleUdp(node: Requester, senders: seq<Disk<FileTransfer.File>>)
      returns (worked: bool, reply: Option<Option<FileTransfer.File>>)
      requires todoUdp != [] && todoUdp[0].pid == 6 ==>
                 && !node.locked && |senders| == |todoUdp[0].changes|
                 && forall c | c in todoUdp[0].changes :: PacketCodec.Encodable(c)
      modifies this, node
      ensures count == old(count)
      ensures worked == (old(todoUdp) != [])
      ensures !worked ==> State() == old(State())
      ensures worked ==>
                Run(old(State()),
                    if old(todoUdp)[0].pid == 1 then [Grab, LockSlot, RaiseFlag, FillSlot, UnlockSlot]
                    else [Grab, Dispose]) == Some(State())
      ensures reply == if worked && old(todoUdp)[0].pid == 5 && old(todoUdp)[0].changes != []
                       then Some(Get(old(node.disk), old(todoUdp)[0].changes[0].path)) else None
      ensures node.disk == if worked && old(todoUdp)[0].pid == 6
                           then PullEach(node.FileRules(), old(node.disk), senders, old(todoUdp)[0].changes)
                           else old(node.disk)
      ensures old(node.locked) == node.locked
    {
      hide Run;
      reply := None;
      if todoUdp == [] {
        return false, reply;
      }
      ghost var start := State();
      HandlerTurn(start);
      var message := todoUdp[0];
      todoUdp := todoUdp[1..];
      if message.pid == 1 {
        receivedTable := true;
        overwritten := overwritten + AsSeq(tableManagerMessage);
        tableManagerMessage := Some(message);
      } else {
        if message.pid == 5 && message.changes != [] {
          var fileChange := message.changes[0];
          var abandon := fileChange.path !in node.disk;
          reply := Some(if abandon then None else Some(node.disk[fileChange.path]));
        } else if message.pid == 6 {
          node.RequestFiles(message.changes, senders);
        }
        disposed := disposed + [message];
      }
      return true, reply;
    }

    /** One turn of the table manager: the table in the slot is worked through. */
    method ManageTable(node: Requester, fileHashes: Table, senders: seq<Disk<FileTransfer.File>>)
      requires receivedTable <==> tableManagerMessage.Some?
      requires receivedTable ==>
                 && !node.locked && |senders| == |Requested(fileHashes, tableManagerMessage.value.table)|
                 && forall p | p in tableManagerMessage.value.table :: |p| < 0x1_0000_0000
      modifies this, node
      ensures count == old(count)
      ensures Run(old(State()),
                  if old(receivedTable) then [Look, LowerFlag, TakeSlot, UnlockTaken, Process, DisposeTable]
                  else [Look, LookAway]) == Some(State())
      ensures node.disk == if old(receivedTable)
                           then PullEach(node.FileRules(), old(node.disk), senders,
                                         Requested(fileHashes, old(tableManagerMessage).value.table))
                           else old(node.disk)
    {
      hide Run, Requested;
      ghost var start := State();
      ManagerTurn(start);
      if receivedTable {
        receivedTable := false;
        var message := tableManagerMessage.value;
        tableManagerMessage := None;
        DealWith(node, fileHashes, message.table, senders);
        processed := processed + [message];
        disposed := disposed + [message];
      }
    }
  }
}

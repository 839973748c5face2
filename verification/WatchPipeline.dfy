/** One node's file-table pipeline: the directory watcher, the change buffer it shares with the handler
    under `dirLock`, and the handler's lazily updated table.

    `Sys` is the small-step machine of the threads; `SyncedFolder` holds the same state in the form of the
    program, one method per critical section, each proved to do what its small steps do. */
module WatchPipeline {
  import opened Base
  import opened DirectoryDiff

  datatype Owner = Nobody | Watcher | Handler | Puller

  datatype WatcherPc = WatcherIdle | WatcherLocked | WatcherDiffed(found: seq<Change>) | WatcherInserted

  datatype HandlerPc = HandlerIdle | Replaying(done: nat) | Announced | Cleared

  /** `directory` is the hash of every file now on disk; `log` is every change ever detected. */
  datatype Sys = Sys(
    directory: Table,
    snapshot: Table,
    fileHashes: Table,
    buf: seq<Change>,
    sent: seq<seq<Change>>,
    log: seq<Change>,
    lock: Owner,
    watcher: WatcherPc,
    handler: HandlerPc)

  /** One atomic step of one thread, or of the user working in the folder. */
  datatype Action =
    | UserChange(files: Table)
    | LockToScan | Scan | Insert | UnlockScan
    | TryLock | Replay | Announce | Clear | UnlockFlush
    | LockToPull | Pull(files: Table) | UnlockPull

  predicate Enabled(s: Sys, a: Action) {
    match a
    case UserChange(_) => true
    case LockToScan => s.lock == Nobody && s.watcher.WatcherIdle?
    case Scan => s.watcher.WatcherLocked?
    case Insert => s.watcher.WatcherDiffed?
    case UnlockScan => s.watcher.WatcherInserted?
    case TryLock => s.handler.HandlerIdle?
    case Replay => s.handler.Replaying? && s.handler.done < |s.buf|
    case Announce => s.handler.Replaying? && s.handler.done == |s.buf|
    case Clear => s.handler.Announced?
    case UnlockFlush => s.handler.Cleared?
    case LockToPull => s.lock == Nobody
    case Pull(_) => s.lock == Puller
    case UnlockPull => s.lock == Puller
  }

  function Do(s: Sys, a: Action): Sys
    requires Enabled(s, a)
  {
    match a
    case UserChange(files) => s.(directory := files)
    case LockToScan => s.(lock := Watcher, watcher := WatcherLocked)
    case Scan =>
      var found := SnapshotDiff(s.snapshot, s.directory);
      s.(snapshot := s.directory, log := s.log + found, watcher := WatcherDiffed(found))
    case Insert => s.(buf := s.buf + s.watcher.found, watcher := WatcherInserted)
    case UnlockScan => s.(lock := Nobody, watcher := WatcherIdle)
    case TryLock =>
      if s.lock != Nobody then s
      else s.(lock := Handler, handler := if s.buf == [] then Cleared else Replaying(0))
    case Replay =>
      s.(fileHashes := ApplyOne(s.fileHashes, s.buf[s.handler.done]), handler := Replaying(s.handler.done + 1))
    case Announce => s.(sent := s.sent + [s.buf], handler := Announced)
    case Clear => s.(buf := [], handler := Cleared)
    case UnlockFlush => s.(lock := Nobody, handler := HandlerIdle)
    case LockToPull => s.(lock := Puller)
    case Pull(files) => s.(directory := files)
    case UnlockPull => s.(lock := Nobody)
  }

  /** The state after a run, or nothing when the run takes a step that was not enabled. */
  function Run(s: Sys, acts: seq<Action>): Option<Sys>
    decreases acts
  {
    if acts == [] then Some(s)
    else if Enabled(s, acts[0]) then Run(Do(s, acts[0]), acts[1..])
    else None
  }

  /** The constructor built `fileHashes`, the watcher then took its first snapshot; nothing is buffered. */
  predicate Initial(s: Sys) {
    && s.buf == [] && s.sent == [] && s.log == [] && s.lock == Nobody
    && s.watcher.WatcherIdle? && s.handler.HandlerIdle?
  }

  // ---- The invariant ----

  /** The buffered changes the handler has not replayed, then the detected ones not yet buffered. */
  function Unreplayed(s: Sys): seq<Change> {
    (match s.handler
     case HandlerIdle => s.buf
     case Replaying(done) => if done <= |s.buf| then s.buf[done..] else []
     case Announced => []
     case Cleared => s.buf)
    + Found(s)
  }

  function Found(s: Sys): seq<Change> {
    if s.watcher.WatcherDiffed? then s.watcher.found else []
  }

  function Flatten(batches: seq<seq<Change>>): seq<Change> {
    if batches == [] then [] else Flatten(batches[..|batches| - 1]) + batches[|batches| - 1]
  }

  /** The lock discipline: at most one thread is inside, and the lock says which. */
  predicate Exclusive(s: Sys) {
    && (s.lock == Watcher <==> !s.watcher.WatcherIdle?)
    && (s.lock == Handler <==> !s.handler.HandlerIdle?)
    && (s.handler.Replaying? ==> s.handler.done <= |s.buf|)
    && (s.handler.Cleared? ==> s.buf == [])
  }

  /** Replaying what is outstanding gives the snapshot at exactly the paths that agreed from the start
      or have been detected as changed since. */
  ghost predicate Agrees(s: Sys, table0: Table, snapshot0: Table) {
    forall p ::
      Get(Apply(s.fileHashes, Unreplayed(s)), p) == Get(s.snapshot, p)
      <==> Get(table0, p) == Get(snapshot0, p) || Mentions(s.log, p)
  }

  function Unsent(s: Sys): seq<Change> {
    (if s.handler.Announced? then [] else s.buf) + Found(s)
  }

  /** Every detected change is in a broadcast or still on its way to one, once and in order. */
  predicate Accounted(s: Sys) {
    Flatten(s.sent) + Unsent(s) == s.log
  }

  ghost predicate Inv(s: Sys, table0: Table, snapshot0: Table) {
    Exclusive(s) && Accounted(s) && Agrees(s, table0, snapshot0)
  }

  lemma ReplayKeepsAgreement(s: Sys)
    requires s.handler.Replaying? && s.handler.done < |s.buf|
    ensures Apply(s.fileHashes, Unreplayed(s)) == Apply(Do(s, Replay).fileHashes, Unreplayed(Do(s, Replay)))
  {
    var k := s.handler.done;
    var rest := s.buf[k + 1..] + Found(s);
    assert Unreplayed(s) == [s.buf[k]] + rest;
    ApplyConcat(s.fileHashes, [s.buf[k]], rest);
    assert Apply(s.fileHashes, [s.buf[k]]) == ApplyOne(s.fileHashes, s.buf[k]) by {
      assert [s.buf[k]][..0] == [];
    }
  }

  /** A scan settles exactly the paths its diff mentions and disturbs no other. */
  lemma ScanKeepsAgreement(s: Sys, table0: Table, snapshot0: Table)
    requires Inv(s, table0, snapshot0) && s.watcher.WatcherLocked?
    ensures Agrees(Do(s, Scan), table0, snapshot0)
  {
    var t := Do(s, Scan);
    var found := SnapshotDiff(s.snapshot, s.directory);
    var before := Apply(s.fileHashes, Unreplayed(s));
    SnapshotDiffDescribes(s.snapshot, s.directory);
    assert Unreplayed(s) == s.buf && Unreplayed(t) == s.buf + found;
    ApplyConcat(s.fileHashes, s.buf, found);
    forall p
      ensures Get(Apply(t.fileHashes, Unreplayed(t)), p) == Get(t.snapshot, p)
         <==> Get(table0, p) == Get(snapshot0, p) || Mentions(t.log, p)
    {
      ApplyAt(before, found, p);
      DescribedPath(found, s.snapshot, s.directory, p);
      MentionsConcat(s.log, found, p);
    }
  }

  lemma StepKeepsAgreement(s: Sys, a: Action, table0: Table, snapshot0: Table)
    requires Inv(s, table0, snapshot0) && Enabled(s, a)
    ensures Agrees(Do(s, a), table0, snapshot0)
  {
    var t := Do(s, a);
    if a.Scan? {
      ScanKeepsAgreement(s, table0, snapshot0);
    } else {
      if a.Replay? {
        ReplayKeepsAgreement(s);
      } else {
        assert Unreplayed(t) == Unreplayed(s);
      }
      assert t.log == s.log && t.snapshot == s.snapshot;
    }
  }

  lemma AnnounceKeepsAccount(s: Sys)
    requires Exclusive(s) && Accounted(s) && Enabled(s, Announce)
    ensures Accounted(Do(s, Announce))
  {
    var t := Do(s, Announce);
    assert t.sent[..|t.sent| - 1] == s.sent && Found(s) == [];
    assert Unsent(s) == s.buf && Unsent(t) == [];
  }

  lemma ScanKeepsAccount(s: Sys)
    requires Exclusive(s) && Accounted(s) && Enabled(s, Scan)
    ensures Accounted(Do(s, Scan))
  {
    var t := Do(s, Scan);
    var f, found := Flatten(s.sent), t.watcher.found;
    assert Unsent(s) == s.buf && Unsent(t) == s.buf + found;
    Regroup(f, s.buf, found);
    assert t.log == s.log + found;
  }

  lemma StepKeepsAccount(s: Sys, a: Action)
    requires Exclusive(s) && Accounted(s) && Enabled(s, a)
    ensures Accounted(Do(s, a))
  {
    if a.Announce? {
      AnnounceKeepsAccount(s);
    } else if a.Scan? {
      ScanKeepsAccount(s);
    } else {
      assert Unsent(Do(s, a)) == Unsent(s);
    }
  }

  lemma StepKeepsInv(s: Sys, a: Action, table0: Table, snapshot0: Table)
    requires Inv(s, table0, snapshot0) && Enabled(s, a)
    ensures Inv(Do(s, a), table0, snapshot0)
  {
    StepKeepsAgreement(s, a, table0, snapshot0);
    StepKeepsAccount(s, a);
    assert Exclusive(Do(s, a));
  }

  lemma {:induction false} RunKeepsInv(s: Sys, acts: seq<Action>, table0: Table, snapshot0: Table)
    requires Inv(s, table0, snapshot0) && Run(s, acts).Some?
    ensures Inv(Run(s, acts).value, table0, snapshot0)
    decreases acts
  {
    if acts != [] {
      StepKeepsInv(s, acts[0], table0, snapshot0);
      RunKeepsInv(Do(s, acts[0]), acts[1..], table0, snapshot0);
    }
  }

  // ---- Main results ----

  /** Over every interleaving: whenever `dirLock` is free, replaying the buffer onto the handler's table gives
      the watcher's snapshot at a path if and only if the path agreed when the watcher started or has been
      detected as changed since; and broadcasts plus buffer are the detected changes, once each, in order. */
  lemma {:induction false} AgreementOverAllRuns(s0: Sys, acts: seq<Action>)
    requires Initial(s0) && Run(s0, acts).Some?
    ensures
      var s := Run(s0, acts).value;
      s.lock == Nobody ==>
        && (forall p :: Get(Apply(s.fileHashes, s.buf), p) == Get(s.snapshot, p)
             <==> Get(s0.fileHashes, p) == Get(s0.snapshot, p) || Mentions(s.log, p))
        && Flatten(s.sent) + s.buf == s.log
  {
    RunKeepsInv(s0, acts, s0.fileHashes, s0.snapshot);
    var s := Run(s0, acts).value;
    if s.lock == Nobody {
      assert Unreplayed(s) == s.buf;
    }
  }

  /** With an unchanged directory between constructor and first scan the two caches agree modulo the buffer,
      and are equal when it is empty. */
  lemma {:induction false} CachesAgree(s0: Sys, acts: seq<Action>)
    requires Initial(s0) && s0.fileHashes == s0.snapshot && Run(s0, acts).Some?
    ensures
      var s := Run(s0, acts).value;
      s.lock == Nobody ==>
        && Apply(s.fileHashes, s.buf) == s.snapshot
        && (s.buf == [] ==> s.fileHashes == s.snapshot)
  {
    AgreementOverAllRuns(s0, acts);
    var s := Run(s0, acts).value;
    if s.lock == Nobody {
      SameAnswersSameMap(Apply(s.fileHashes, s.buf), s.snapshot);
    }
  }

  /** Without that assumption a path that changed in between stays wrong in the handler's table, with an empty
      buffer and a free lock, until somebody touches it again. */
  lemma {:induction false} EarlyChangeStaysUnseen(s0: Sys, acts: seq<Action>, p: Path)
    requires Initial(s0) && Run(s0, acts).Some?
    requires Get(s0.fileHashes, p) != Get(s0.snapshot, p)
    ensures
      var s := Run(s0, acts).value;
      s.lock == Nobody && s.buf == [] && !Mentions(s.log, p) ==> Get(s.fileHashes, p) != Get(s.snapshot, p)
  {
    AgreementOverAllRuns(s0, acts);
  }

  // ---- Whole critical sections ----

  function Repeat(a: Action, n: nat): seq<Action> {
    if n == 0 then [] else [a] + Repeat(a, n - 1)
  }

  lemma {:induction false} RunConcat(s: Sys, a: seq<Action>, b: seq<Action>)
    requires Run(s, a).Some?
    ensures Run(s, a + b) == Run(Run(s, a).value, b)
    decreases a
  {
    if a == [] {
      assert a + b == b;
    } else {
      assert (a + b)[1..] == a[1..] + b;
      RunConcat(Do(s, a[0]), a[1..], b);
    }
  }

  /** The handler's section when nobody holds the lock. */
  function Flushed(s: Sys): Sys {
    if s.buf == [] then s
    else s.(fileHashes := Apply(s.fileHashes, s.buf), sent := s.sent + [s.buf], buf := [])
  }

  /** The watcher's section: diff, snapshot, append. */
  function Scanned(s: Sys): Sys {
    var found := SnapshotDiff(s.snapshot, s.directory);
    s.(snapshot := s.directory, log := s.log + found, buf := s.buf + found)
  }

  lemma {:induction false} ReplayLoop(s: Sys, done: nat)
    requires s.handler == Replaying(done) && done <= |s.buf|
    ensures Run(s, Repeat(Replay, |s.buf| - done))
         == Some(s.(fileHashes := Apply(s.fileHashes, s.buf[done..]), handler := Replaying(|s.buf|)))
    decreases |s.buf| - done
  {
    if done == |s.buf| {
      assert s.buf[done..] == [];
    } else {
      hide Apply;
      var t := Do(s, Replay);
      ReplayLoop(t, done + 1);
      assert Repeat(Replay, |s.buf| - done)[1..] == Repeat(Replay, |s.buf| - done - 1);
      ApplyFirst(s.fileHashes, s.buf[done..]);
      assert s.buf[done..][1..] == s.buf[done + 1..];
    }
  }

  function FlushActions(n: nat): seq<Action> {
    if n == 0 then [TryLock, UnlockFlush]
    else [TryLock] + (Repeat(Replay, n) + [Announce, Clear, UnlockFlush])
  }

  /** The handler's small steps, taken without a break, add up to the whole section. */
  lemma {:induction false} FlushIsItsSteps(s: Sys)
    requires s.lock == Nobody && s.handler.HandlerIdle?
    ensures Run(s, FlushActions(|s.buf|)) == Some(Flushed(s))
  {
    var entered := Do(s, TryLock);
    if s.buf == [] {
      assert FlushActions(0)[1..] == [UnlockFlush];
      RunOne(entered, UnlockFlush);
    } else {
      ReplayLoop(entered, 0);
      assert s.buf[0..] == s.buf;
      var replays, tail := Repeat(Replay, |s.buf|), [Announce, Clear, UnlockFlush];
      var replayed := Run(entered, replays).value;
      RunConcat(entered, replays, tail);
      assert tail[1..] == [Clear, UnlockFlush];
      var announced := Do(replayed, Announce);
      assert [Clear, UnlockFlush][1..] == [UnlockFlush];
      RunOne(Do(announced, Clear), UnlockFlush);
      assert Run(announced, [Clear, UnlockFlush]) == Some(Flushed(s));
      assert Run(replayed, tail) == Some(Flushed(s));
      assert FlushActions(|s.buf|)[1..] == replays + tail;
    }
  }

  lemma {:induction false} RunOne(s: Sys, a: Action)
    requires Enabled(s, a)
    ensures Run(s, [a]) == Some(Do(s, a))
  {
    assert [a][1..] == [];
  }

  lemma {:induction false} ScanIsItsSteps(s: Sys)
    requires s.lock == Nobody && s.watcher.WatcherIdle?
    ensures Run(s, [LockToScan, Scan, Insert, UnlockScan]) == Some(Scanned(s))
  {
    var acts := [LockToScan, Scan, Insert, UnlockScan];
    var locked := Do(s, LockToScan);
    var diffed := Do(locked, Scan);
    RunOne(Do(diffed, Insert), UnlockScan);
    assert [Insert, UnlockScan][1..] == [UnlockScan];
    assert Run(diffed, [Insert, UnlockScan]) == Some(Scanned(s));
    assert [Scan, Insert, UnlockScan][1..] == [Insert, UnlockScan];
    assert Run(locked, [Scan, Insert, UnlockScan]) == Some(Scanned(s));
    assert acts[1..] == [Scan, Insert, UnlockScan];
  }

  // ---- The same with others in between ----

  /** The thread that takes a step; nobody stands for the user. */
  function ThreadOf(a: Action): Owner {
    match a
    case UserChange(_) => Nobody
    case LockToScan => Watcher case Scan => Watcher case Insert => Watcher case UnlockScan => Watcher
    case LockToPull => Puller case Pull(_) => Puller case UnlockPull => Puller
    case _ => Handler
  }

  /** While somebody holds the lock nobody else takes a step, but for the user and for a `try_lock` without effect; a
      free lock can be taken by any of the three, and nothing else can happen. */
  lemma OnlyTheHolder(s: Sys, a: Action)
    requires Exclusive(s)
    ensures Enabled(s, a) && s.lock != Nobody ==>
              a.UserChange? || (a.TryLock? && Do(s, a) == s) || ThreadOf(a) == s.lock
    ensures s.lock == Nobody ==>
              (Enabled(s, a) <==> a.UserChange? || a.LockToScan? || a.TryLock? || a.LockToPull?)
  {
  }

  /** What a run may do while a pull holds the lock: only the directory changes. */
  lemma {:induction false} UnderAPull(s: Sys, acts: seq<Action>)
    requires Exclusive(s) && s.lock == Puller && Run(s, acts).Some? && UnlockPull !in acts
    ensures Run(s, acts).value == s.(directory := Run(s, acts).value.directory)
    decreases acts
  {
    if acts != [] {
      UnderAPull(Do(s, acts[0]), acts[1..]);
    }
  }

  /** Inside a flush that was entered at `s`. */
  predicate InFlush(s: Sys, t: Sys) {
    && t.lock == Handler && t.snapshot == s.snapshot && t.log == s.log && t.watcher == s.watcher == WatcherIdle
    && match t.handler
       case HandlerIdle => false
       case Replaying(done) =>
         && s.buf != [] && done <= |s.buf| && t.buf == s.buf && t.sent == s.sent
         && t.fileHashes == Apply(s.fileHashes, s.buf[..done])
       case Announced =>
         && s.buf != [] && t.buf == s.buf && t.sent == s.sent + [s.buf]
         && t.fileHashes == Apply(s.fileHashes, s.buf)
       case Cleared => t.buf == [] && t.sent == Flushed(s).sent && t.fileHashes == Flushed(s).fileHashes
  }

  lemma FlushStep(s: Sys, t: Sys, a: Action)
    requires InFlush(s, t) && Enabled(t, a) && a != UnlockFlush
    ensures InFlush(s, Do(t, a))
  {
    if a.Replay? {
      assert s.buf[..t.handler.done + 1][..t.handler.done] == s.buf[..t.handler.done];
    } else if a.Announce? {
      assert s.buf[..|s.buf|] == s.buf;
    }
  }

  lemma {:induction false} FlushRun(s: Sys, t: Sys, acts: seq<Action>)
    requires InFlush(s, t) && Run(t, acts).Some? && UnlockFlush !in acts
    ensures InFlush(s, Run(t, acts).value)
    decreases acts
  {
    hide InFlush;
    if acts != [] {
      FlushStep(s, t, acts[0]);
      FlushRun(s, Do(t, acts[0]), acts[1..]);
    }
  }

  /** Whatever the other threads and the user do between its steps, a handler that got the lock has, when it gives it
      back, done exactly the whole section; the directory is as the user left it. */
  lemma {:induction false} FlushIsAtomic(s: Sys, acts: seq<Action>)
    requires s.lock == Nobody && s.handler.HandlerIdle? && s.watcher.WatcherIdle?
    requires Run(s, [TryLock] + (acts + [UnlockFlush])).Some? && UnlockFlush !in acts
    ensures
      var t := Run(s, [TryLock] + (acts + [UnlockFlush])).value;
      t == Flushed(s).(directory := t.directory)
  {
    hide Apply;
    var entered := Do(s, TryLock);
    assert ([TryLock] + (acts + [UnlockFlush]))[1..] == acts + [UnlockFlush];
    assert InFlush(s, entered) by {
      assert s.buf[..0] == [];
      NothingApplied(s.fileHashes);
    }
    RunPrefix(entered, acts, [UnlockFlush]);
    FlushRun(s, entered, acts);
    RunConcat(entered, acts, [UnlockFlush]);
    var before := Run(entered, acts).value;
    assert Enabled(before, UnlockFlush);
    RunOne(before, UnlockFlush);
  }

  lemma NothingApplied(t: Table)
    ensures Apply(t, []) == t
  {
  }

  lemma {:induction false} RunPrefix(s: Sys, a: seq<Action>, b: seq<Action>)
    requires Run(s, a + b).Some?
    ensures Run(s, a).Some?
    decreases a
  {
    if a != [] {
      assert (a + b)[1..] == a[1..] + b;
      RunPrefix(Do(s, a[0]), a[1..], b);
    }
  }

  /** Inside a scan that was entered at `s`. */
  predicate InScan(s: Sys, t: Sys) {
    && t.lock == Watcher && t.fileHashes == s.fileHashes && t.sent == s.sent && t.handler == s.handler == HandlerIdle
    && match t.watcher
       case WatcherIdle => false
       case WatcherLocked => t.snapshot == s.snapshot && t.buf == s.buf && t.log == s.log
       case WatcherDiffed(found) =>
         found == SnapshotDiff(s.snapshot, t.snapshot) && t.log == s.log + found && t.buf == s.buf
       case WatcherInserted =>
         var found := SnapshotDiff(s.snapshot, t.snapshot);
         t.log == s.log + found && t.buf == s.buf + found
  }

  lemma ScanStep(s: Sys, t: Sys, a: Action)
    requires InScan(s, t) && Enabled(t, a) && a != UnlockScan
    ensures InScan(s, Do(t, a))
  {
  }

  lemma {:induction false} ScanRun(s: Sys, t: Sys, acts: seq<Action>)
    requires InScan(s, t) && Run(t, acts).Some? && UnlockScan !in acts
    ensures InScan(s, Run(t, acts).value)
    decreases acts
  {
    hide InScan;
    if acts != [] {
      ScanStep(s, t, acts[0]);
      ScanRun(s, Do(t, acts[0]), acts[1..]);
    }
  }

  /** A watcher that got the lock has, when it gives it back, appended the difference between its two snapshots and
      touched neither table nor broadcasts, whatever happened between its steps. */
  lemma {:induction false} ScanIsAtomic(s: Sys, acts: seq<Action>)
    requires s.lock == Nobody && s.handler.HandlerIdle? && s.watcher.WatcherIdle?
    requires Run(s, [LockToScan] + (acts + [UnlockScan])).Some? && UnlockScan !in acts
    ensures
      var t := Run(s, [LockToScan] + (acts + [UnlockScan])).value;
      && t == Scanned(s.(directory := t.snapshot)).(directory := t.directory)
      && (acts == [Scan, Insert] ==> t == Scanned(s))
  {
    var entered := Do(s, LockToScan);
    assert ([LockToScan] + (acts + [UnlockScan]))[1..] == acts + [UnlockScan];
    RunPrefix(entered, acts, [UnlockScan]);
    ScanRun(s, entered, acts);
    RunConcat(entered, acts, [UnlockScan]);
    var before := Run(entered, acts).value;
    assert Enabled(before, UnlockScan);
    RunOne(before, UnlockScan);
    if acts == [Scan, Insert] {
      ScanIsItsSteps(s);
      assert [LockToScan] + (acts + [UnlockScan]) == [LockToScan, Scan, Insert, UnlockScan];
    }
  }

  // ---- The program's form ----

  class SyncedFolder {
    var directory: Table
    var snapshot: Table
    var fileHashes: Table
    var fileChangeBuf: seq<Change>
    var broadcasts: seq<seq<Change>>
    var locked: bool
    ghost var log: seq<Change>

    ghost function State(): Sys
      reads this
    {
      Sys(directory, snapshot, fileHashes, fileChangeBuf, broadcasts, log,
          if locked then Puller else Nobody, WatcherIdle, HandlerIdle)
    }

    /** Both tables are built from the directory, one after the other. */
    constructor (files: Table, filesAtFirstScan: Table)
      ensures Initial(State())
      ensures fileHashes == files && snapshot == filesAtFirstScan && directory == filesAtFirstScan
    {
      directory, snapshot, fileHashes := filesAtFirstScan, filesAtFirstScan, files;
      fileChangeBuf, broadcasts, locked, log := [], [], false, [];
    }

    /** Compares the directory with the previous snapshot and replaces the snapshot. */
    method GetDirectoryChanges() returns (fileChanges: seq<Change>)
      modifies this`snapshot
      ensures fileChanges == SnapshotDiff(old(snapshot), directory)
      ensures snapshot == directory
    {
      hide InOrder;
      var newDir := directory;
      fileChanges := GetMergeChanges(snapshot, newDir);
      var keys := InOrder(snapshot.Keys);
      ghost var upserts := fileChanges;
      for i := 0 to |keys|
        invariant fileChanges == upserts + Removals(keys[..i], newDir)
      {
        RemovalsStep(upserts, keys, i, newDir);
        if keys[i] !in newDir {
          fileChanges := fileChanges + [Change(keys[i], 0, Deletion)];
        }
      }
      assert keys[..|keys|] == keys;
      snapshot := newDir;
    }

    /** The body of the watch loop after a notification. */
    method WatchOnce()
      requires !locked
      modifies this
      ensures State() == Scanned(old(State()))
    {
      locked := true;
      var dirChanges := GetDirectoryChanges();
      log := log + dirChanges;
      fileChangeBuf := fileChangeBuf + dirChanges;
      locked := false;
    }

    /** The first part of `handleUdp`: a failed `try_lock` skips it. */
    method FlushChanges()
      modifies this
      ensures State() == if old(locked) then old(State()) else Flushed(old(State()))
    {
      if !locked {
        locked := true;
        if fileChangeBuf != [] {
          var changes := fileChangeBuf;
          for i := 0 to |changes|
            invariant fileHashes == Apply(old(fileHashes), changes[..i])
            invariant unchanged(`fileChangeBuf) && unchanged(`broadcasts) && unchanged(`log)
            invariant unchanged(`directory) && unchanged(`snapshot)
            invariant locked
          {
            assert changes[..i + 1][..i] == changes[..i];
            var changeData := changes[i];
            if changeData.kind != Deletion {
              fileHashes := fileHashes[changeData.path := changeData.hash];
            } else if changeData.path in fileHashes {
              fileHashes := fileHashes - {changeData.path};
            } else {
              assert fileHashes - {changeData.path} == fileHashes;
            }
          }
          assert changes[..|changes|] == changes;
          broadcasts := broadcasts + [fileChangeBuf];
          fileChangeBuf := [];
        }
        locked := false;
      }
    }
  }
}

/** The network results with the program's own hash and its own transfer in place of the rules. */
module ProgramRules {
  import opened Base
  import opened DirectoryDiff
  import opened RequestFiles
  import opened Network
  import opened Knots
  import opened SingleOrigin
  import opened OriginWaits
  import NetworkJoin
  import JoinLoses
  import JoinHandshake
  import Hashing
  import FileTransfer

  type File = FileTransfer.File

  /** `folder` is the shared folder relative to Documents, `read` what a text-mode read makes of a file's bytes. */
  function SourceRules(folder: Path, read: File -> Hashing.Text): Rules<File> {
    Rules((p: Path, f: File) => Hashing.Announced(folder, p, AsStored(read, f)),
          (p: Path, f: File) => Hashing.Recomputed(folder, p, AsStored(read, f)),
          FileTransfer.Received)
  }

  function AsStored(read: File -> Hashing.Text, f: File): Hashing.Stored {
    Hashing.Stored(|f| % Hashing.WRAP, read(f))
  }

  /** Every new or edited file has a length that the 32-bit comparison gets right. */
  ghost predicate LengthsTransferable(b: Batch<File>) {
    forall p | p in b.d1 && Get(b.d0, p) != Get(b.d1, p) :: FileTransfer.Transferable(|b.d1[p]|)
  }

  lemma SourceIsRepeatable(b: Batch<File>, folder: Path, read: File -> Hashing.Text)
    requires b.w.rules == SourceRules(folder, read) && b.origin < b.count
    ensures Repeatable(b)
    ensures Whole(b) <==> LengthsTransferable(b)
  {
    forall p | p in b.d1
      ensures b.w.rules.delivered(b.w.rules.delivered(b.d1[p])) == b.w.rules.delivered(b.d1[p])
      ensures b.w.rules.delivered(b.d1[p]) == b.d1[p] <==> FileTransfer.Transferable(|b.d1[p]|)
    {
      FileTransfer.ReceivedWhole(b.d1[p]);
    }
  }

  /** With `getFileHash` and the stop-and-wait transfer: all disks end equal if and only if every edit is
      distinguishable and every new or edited file has a transferable length. */
  lemma {:induction false} SourceConvergesIff(
    b: Batch<File>, folder: Path, read: File -> Hashing.Text, events: seq<Event>, net: Net<File>)
    requires b.w.rules == SourceRules(folder, read) && b.origin < b.count && b.count >= 2
    requires Run(b.w, Begin(b), events) == Some(net) && Quiet(b.w.rules, net)
    ensures (forall i | 0 <= i < |net| :: net[i].disk == b.d1) <==> Distinguishable(b) && LengthsTransferable(b)
  {
    hide Run, Quiet, Begin, Distinguishable, Whole, LengthsTransferable;
    SourceIsRepeatable(b, folder, read);
    ConvergesIff(b, events, net);
  }

  /** No path and file, as it arrives, have together 2^52 characters. */
  predicate Readable(b: Batch<File>, read: File -> Hashing.Text) {
    forall p | p in b.d1 :: |p| + |read(FileTransfer.Received(b.d1[p]))| < 0x10_0000_0000_0000 - 1
  }

  lemma SourceUnrecognised(b: Batch<File>, folder: Path, read: File -> Hashing.Text)
    requires b.w.rules == SourceRules(folder, read) && Readable(b, read)
    ensures Unrecognised(b)
  {
    forall p | p in Spread(b)
      ensures b.w.rules.recomputed(p, b.w.rules.delivered(b.d1[p]))
           != b.w.rules.announced(p, b.w.rules.delivered(b.d1[p]))
    {
      Hashing.NeverRecognised(folder, p, AsStored(read, FileTransfer.Received(b.d1[p])));
    }
  }

  /** Whether handlers can block each other for good, without any assumption on hashes; for files of transferable
      length, if and only if there are three nodes or more and some file is sent about. */
  lemma {:induction false} SourceBlocksIff(b: Batch<File>, folder: Path, read: File -> Hashing.Text)
    requires b.w.rules == SourceRules(folder, read) && b.origin < b.count && Readable(b, read)
    ensures SomeRunBlocks(b) <==> CanBlock(b)
    ensures LengthsTransferable(b) ==> (SomeRunBlocks(b) <==> b.count >= 3 && Spread(b) != {})
  {
    hide Begin, Spread, Whole, LengthsTransferable, SomeRunBlocks, CanBlock;
    SourceIsRepeatable(b, folder, read);
    SourceUnrecognised(b, folder, read);
    BlocksIff(b);
    if LengthsTransferable(b) {
      CanBlockIfWhole(b);
    }
  }

  // ---- Inputs for which it goes wrong ----

  /** A new file of exactly 2^32 bytes: the other node is left with an empty file, and unless the origin's skip test
      takes the empty file for its own, so is the origin. */
  lemma {:induction false} HugeFileIsLost(
    w: World<File>, folder: Path, read: File -> Hashing.Text, p: Path, f: File, events: seq<Event>, net: Net<File>)
    requires w.rules == SourceRules(folder, read) && |f| == 0x1_0000_0000
    requires Run(w, Begin(Batch(w, map[], map[p := f], 0, 2)), events) == Some(net) && Quiet(w.rules, net)
    ensures |net| == 2 && net[1].disk == map[p := []]
    ensures net[0].disk == if w.rules.recomputed(p, f) != w.rules.announced(p, []) then map[p := []] else map[p := f]
  {
    hide Run, Quiet, Begin, Repeatable, Outcome, Over, Bound, SourceRules;
    var b := Batch(w, map[], map[p := f], 0, 2);
    SourceIsRepeatable(b, folder, read);
    EveryInterleavingSettles(b, events, net);
    NothingReceived(folder, read, f);
    assert AtOutcome(b, 0, net[0]) && AtOutcome(b, 1, net[1]);
    HugeOutcome(b, p, f, 0, net[0]);
    HugeOutcome(b, p, f, 1, net[1]);
  }

  lemma NothingReceived(folder: Path, read: File -> Hashing.Text, f: File)
    requires |f| == 0x1_0000_0000
    ensures SourceRules(folder, read).delivered(f) == []
  {
    assert FileTransfer.Received(f) == [];
  }

  lemma HugeOutcome(b: Batch<File>, p: Path, f: File, i: nat, x: Node<File>)
    requires b == Batch(b.w, map[], map[p := f], 0, 2) && b.w.rules.delivered(f) == [] && i < 2
    requires forall q :: Get(x.disk, q) == Outcome(b, i, q)
    ensures x.disk == if i == 1 || b.w.rules.recomputed(p, f) != b.w.rules.announced(p, []) then map[p := []]
                      else map[p := f]
  {
    assert Get(TableOf(b.w.rules, b.d1), p) == Some(b.w.rules.announced(p, f));
    assert Reaches(b, p) && forall q :: q != p ==> !Reaches(b, q);
    var last: Disk<File> := if i == 1 || b.w.rules.recomputed(p, f) != b.w.rules.announced(p, []) then map[p := []]
                            else map[p := f];
    forall q
      ensures Get(x.disk, q) == Get(last, q)
    {
      assert Get(x.disk, q) == Outcome(b, i, q);
    }
    SameAnswersSameMap(x.disk, last);
  }

  /** An edit that keeps the size and touches only every tenth character is never passed on: every other node keeps the
      old file for good. */
  lemma {:induction false} InvisibleEditStays(
    b: Batch<File>, folder: Path, read: File -> Hashing.Text, events: seq<Event>, net: Net<File>, p: Path, i: nat)
    requires b.w.rules == SourceRules(folder, read) && b.origin < b.count && i < b.count && i != b.origin
    requires Run(b.w, Begin(b), events) == Some(net) && Quiet(b.w.rules, net)
    requires p in b.d0 && p in b.d1 && |b.d0[p]| == |b.d1[p]| && |read(b.d0[p])| == |read(b.d1[p])|
    requires forall k | 0 <= k < |read(b.d0[p])| && k % 10 != 0 :: read(b.d0[p])[k] == read(b.d1[p])[k]
    ensures |net| == b.count && Get(net[i].disk, p) == Some(b.d0[p])
  {
    hide Run, Quiet, Begin, Repeatable, Over, Bound, Outcome, SourceRules;
    SourceIsRepeatable(b, folder, read);
    EveryInterleavingSettles(b, events, net);
    InvisibleIsUnreached(b, folder, read, p);
    assert AtOutcome(b, i, net[i]);
    assert Get(net[i].disk, p) == Outcome(b, i, p);
    UnreachedStays(b, i, p);
  }

  lemma InvisibleIsUnreached(b: Batch<File>, folder: Path, read: File -> Hashing.Text, p: Path)
    requires b.w.rules == SourceRules(folder, read)
    requires p in b.d0 && p in b.d1 && |b.d0[p]| == |b.d1[p]| && |read(b.d0[p])| == |read(b.d1[p])|
    requires forall k | 0 <= k < |read(b.d0[p])| && k % 10 != 0 :: read(b.d0[p])[k] == read(b.d1[p])[k]
    ensures !Reaches(b, p)
  {
    Hashing.InvisibleEdit(|b.d0[p]| % Hashing.WRAP, folder + p, read(b.d0[p]), read(b.d1[p]));
    assert Get(TableOf(b.w.rules, b.d0), p) == Get(TableOf(b.w.rules, b.d1), p);
  }

  lemma UnreachedStays(b: Batch<File>, i: nat, p: Path)
    requires !Reaches(b, p)
    ensures Outcome(b, i, p) == Get(DiskAt(b, i), p)
  {
    hide Reaches;
  }

  /** The shortest such edit: a file of one byte. Two nodes end with different files. */
  lemma {:induction false} OneByteEdit(
    w: World<File>, folder: Path, p: Path, before: Byte, after: Byte, events: seq<Event>, net: Net<File>)
    requires w.rules == SourceRules(folder, (f: File) => f) && before != after
    requires Run(w, Begin(Batch(w, map[p := [before]], map[p := [after]], 0, 2)), events) == Some(net)
    requires Quiet(w.rules, net)
    ensures |net| == 2 && Get(net[0].disk, p) == Some([after]) && Get(net[1].disk, p) == Some([before])
  {
    hide Run, Quiet, Begin, Repeatable, Over, Bound, Outcome, SourceRules;
    var b := Batch(w, map[p := [before]], map[p := [after]], 0, 2);
    var read := (f: File) => f;
    InvisibleEditStays(b, folder, read, events, net, p, 1);
    SourceIsRepeatable(b, folder, read);
    EveryInterleavingSettles(b, events, net);
    InvisibleIsUnreached(b, folder, read, p);
    assert AtOutcome(b, 0, net[0]);
    assert Get(net[0].disk, p) == Outcome(b, 0, p);
    UnreachedStays(b, 0, p);
  }

  // ---- The join ----

  lemma SourceDelivers(r: Rules<File>, folder: Path, read: File -> Hashing.Text, f: File)
    requires r == SourceRules(folder, read)
    ensures r.delivered(f) == f <==> FileTransfer.Transferable(|f|)
    ensures r.delivered(r.delivered(f)) == r.delivered(f)
  {
    FileTransfer.ReceivedWhole(f);
  }

  /** Of the assumptions about a join only the size of the tables remains. */
  lemma SourceJoinIsSound(a: NetworkJoin.Arrival<File>, folder: Path, read: File -> Hashing.Text)
    requires a.w.rules == SourceRules(folder, read) && a.existing >= 1 && |a.n0.Keys + a.e0.Keys| < 0x1_0000
    ensures NetworkJoin.Sound(a)
  {
    hide SourceRules, FileTransfer.Transferable;
    forall f: File
      ensures a.w.rules.delivered(a.w.rules.delivered(f)) == a.w.rules.delivered(f)
    {
      SourceDelivers(a.w.rules, folder, read, f);
    }
  }

  /** Wholeness becomes a condition on the lengths of the files that one side needs from the other. */
  lemma SourceJoinIsWhole(a: NetworkJoin.Arrival<File>, folder: Path, read: File -> Hashing.Text)
    requires a.w.rules == SourceRules(folder, read)
    ensures JoinHandshake.ArrivesWhole(a.w.rules, a.n0, a.e0) <==>
              && (forall p | p in a.n0 && p !in a.e0 :: FileTransfer.Transferable(|a.n0[p]|))
              && (forall p | p in a.e0 && Get(a.n0, p) != Some(a.e0[p]) :: FileTransfer.Transferable(|a.e0[p]|))
  {
    hide SourceRules, FileTransfer.Transferable;
    forall f: File
      ensures a.w.rules.delivered(f) == f <==> FileTransfer.Transferable(|f|)
    {
      SourceDelivers(a.w.rules, folder, read, f);
    }
  }

  // ---- A newcomer's empty files ----

  const A_PATH: Path := [SEPARATOR, 97]
  const B_PATH: Path := [SEPARATOR, 98]

  /** A newcomer with two empty files where the network has one-byte files. */
  function TwoEmptyFiles(r: Rules<File>, existing: nat): NetworkJoin.Arrival<File> {
    NetworkJoin.Arrival(World(r, true), map[A_PATH := [], B_PATH := []], map[A_PATH := [7], B_PATH := [7]], existing)
  }

  lemma PathSumOfTwo(a: Code, b: Code)
    ensures Hashing.PathSum([a, b]) == a + b
  {
    assert [a, b][..1] == [a] && [a][..0] == [];
    assert Hashing.PathSum([a]) == a;
  }

  /** Small files arrive whole; their hash is the size and the path's characters, and one separator more on the
      receiver's side. */
  ghost predicate SmallRules(r: Rules<File>) {
    && r.delivered([]) == [] && r.delivered([7]) == [7]
    && SmallHash(r, A_PATH, []) && SmallHash(r, A_PATH, [7]) && SmallHash(r, B_PATH, []) && SmallHash(r, B_PATH, [7])
  }

  ghost predicate SmallHash(r: Rules<File>, p: Path, f: File)
    requires |p| == 2
  {
    r.announced(p, f) == p[0] + p[1] + |f| && r.recomputed(p, f) == p[0] + p[1] + |f| + SEPARATOR
  }

  lemma SmallSum(p: Path, f: File)
    requires p == A_PATH || p == B_PATH
    requires f == [] || f == [7]
    ensures Hashing.SevenBit(p) && Hashing.SevenBit(f) && Hashing.ClosedForm(|f|, p, f) == p[0] + p[1] + |f|
  {
    PathSumOfTwo(p[0], p[1]);
    assert [7][..0] == [];
  }

  lemma SmallHashOk(p: Path, f: File)
    requires p == A_PATH || p == B_PATH
    requires f == [] || f == [7]
    ensures SmallHash(SourceRules([], (f: File) => f), p, f)
  {
    hide Hashing.ClosedForm, Hashing.FileHash;
    SmallSum(p, f);
    assert [] + p == p;
    Hashing.HashesInRange([], p, AsStored((f: File) => f, f));
  }

  lemma SourceIsSmall()
    ensures SmallRules(SourceRules([], (f: File) => f))
  {
    hide SmallHash;
    FileTransfer.ReceivedWhole([]);
    FileTransfer.ReceivedWhole([7]);
    SmallHashOk(A_PATH, []);
    SmallHashOk(A_PATH, [7]);
    SmallHashOk(B_PATH, []);
    SmallHashOk(B_PATH, [7]);
  }

  lemma TwoEmptyFilesSound(r: Rules<File>, existing: nat)
    requires existing >= 1 && SmallRules(r)
    ensures NetworkJoin.Sound(TwoEmptyFiles(r, existing))
    ensures
      var a := TwoEmptyFiles(r, existing);
      JoinHandshake.ArrivesWhole(r, a.n0, a.e0)
  {
    hide SmallHash;
    var a := TwoEmptyFiles(r, existing);
    assert a.n0.Keys + a.e0.Keys == {A_PATH, B_PATH};
  }

  lemma TwoEmptyFilesClash(r: Rules<File>, existing: nat)
    requires existing >= 1 && SmallRules(r)
    ensures JoinLoses.Overwritable(TwoEmptyFiles(r, existing)) && !NetworkJoin.EditsApart(TwoEmptyFiles(r, existing))
  {
    hide NetworkJoin.EditsApart;
    var a := TwoEmptyFiles(r, existing);
    assert a.n0.Keys == {A_PATH, B_PATH} == a.e0.Keys;
    assert A_PATH[1] != B_PATH[1];
    JoinLoses.TwoEditsAreNotApart(a, A_PATH, B_PATH);
  }

  /** With the program's own hash and transfer, and whatever the number of existing nodes: some run puts an empty file
      in the place of the network's on every node. */
  lemma {:induction false} TwoEmptyFilesOverwrite(r: Rules<File>, existing: nat) returns (net: Net<File>, p: Path)
    requires existing >= 1 && r == SourceRules([], (f: File) => f)
    ensures Leads(World(r, true), NetworkJoin.Begin(TwoEmptyFiles(r, existing)), net)
    ensures p == A_PATH || p == B_PATH
    ensures forall i | 0 <= i < |net| :: Get(net[i].disk, p) == None || Get(net[i].disk, p) == Some([])
  {
    hide Leads, NetworkJoin.Begin, NetworkJoin.EditsApart, NetworkJoin.Sound, JoinLoses.Overwritable, SourceRules,
         SmallHash,
         JoinHandshake.ArrivesWhole;
    SourceIsSmall();
    TwoEmptyFilesSound(r, existing);
    TwoEmptyFilesClash(r, existing);
    net, p := JoinLoses.NetworkLoses(TwoEmptyFiles(r, existing));
  }

  // ---- Where the hash does not wrap ----

  /** Seven-bit files in the range where the hash does not wrap. */
  predicate Plain(folder: Path, read: File -> Hashing.Text, disk: Disk<File>) {
    Hashing.SevenBit(folder) && forall p | p in disk ::
      && Hashing.SevenBit(p) && Hashing.SevenBit(read(disk[p]))
      && Hashing.ClosedForm(|disk[p]| % Hashing.WRAP, folder + p, read(disk[p])) + 92 < Hashing.MOD_BASE
  }

  function WeightOfFile(read: File -> Hashing.Text, f: File): nat {
    |f| % Hashing.WRAP + Hashing.TextSum(read(f))
  }

  /** For such files distinguishable means: every edit changes the file's weight, and not by exactly one separator. */
  lemma PlainDistinguishable(b: Batch<File>, folder: Path, read: File -> Hashing.Text)
    requires b.w.rules == SourceRules(folder, read) && Plain(folder, read, b.d0) && Plain(folder, read, b.d1)
    ensures Distinguishable(b) <==> forall p | p in b.d0 && p in b.d1 && b.d0[p] != b.d1[p] ::
              && WeightOfFile(read, b.d0[p]) != WeightOfFile(read, b.d1[p])
              && WeightOfFile(read, b.d0[p]) + 92 != WeightOfFile(read, b.d1[p])
  {
    forall p | p in b.d0 && p in b.d1
      ensures b.w.rules.announced(p, b.d0[p]) == b.w.rules.announced(p, b.d1[p])
         <==> WeightOfFile(read, b.d0[p]) == WeightOfFile(read, b.d1[p])
      ensures b.w.rules.recomputed(p, b.d0[p]) == b.w.rules.announced(p, b.d1[p])
         <==> WeightOfFile(read, b.d0[p]) + 92 == WeightOfFile(read, b.d1[p])
    {
      Hashing.HashesInRange(folder, p, AsStored(read, b.d0[p]));
      Hashing.HashesInRange(folder, p, AsStored(read, b.d1[p]));
    }
  }
}

/** What a node does with changes another node announced: skip, pull, or delete, one change at a time. */
module RequestFiles {
  import opened Base
  import opened DirectoryDiff
  import FileTransfer
  import PacketCodec

  type Disk<C> = map<Path, C>

  /** What the program makes of a file: the hash its watcher announces, the one a receiver recomputes for the skip
      test from a path with one separator too many, and what a peer has after a transfer of it. */
  datatype Rules<!C> = Rules(announced: (Path, C) -> Hash, recomputed: (Path, C) -> Hash, delivered: C -> C)

  function TableOf<C>(r: Rules<C>, disk: Disk<C>): Table {
    map p | p in disk :: r.announced(p, disk[p])
  }

  /** The receiver believes it already has the announced file. */
  predicate Skips<C>(r: Rules<C>, disk: Disk<C>, c: Change) {
    c.path in disk && r.recomputed(c.path, disk[c.path]) == c.hash
  }

  /** One change; a server that no longer has the file abandons the transfer. */
  function Pull<C>(r: Rules<C>, disk: Disk<C>, server: Disk<C>, c: Change): Disk<C> {
    if c.kind == Deletion then disk - {c.path}
    else if Skips(r, disk, c) || c.path !in server then disk
    else disk[c.path := r.delivered(server[c.path])]
  }

  function PullAll<C>(r: Rules<C>, disk: Disk<C>, server: Disk<C>, cs: seq<Change>): Disk<C> {
    if cs == [] then disk
    else Pull(r, PullAll(r, disk, server, cs[..|cs| - 1]), server, cs[|cs| - 1])
  }

  // ---- What replaying an accumulated buffer does ----

  /** Every change for the path looks, to the receiver's own copy, like the file it already has. */
  predicate Stuck<C>(r: Rules<C>, disk: Disk<C>, cs: seq<Change>, p: Path) {
    p in disk && forall c | c in cs && c.path == p :: c.kind != Deletion && r.recomputed(p, disk[p]) == c.hash
  }

  /** The sender's disk is where the list ends: a path's last change is a deletion exactly if the sender lacks it. */
  predicate EndsAt<C>(server: Disk<C>, cs: seq<Change>, p: Path) {
    LastFor(cs, p).Some? ==> (LastFor(cs, p).value.kind == Deletion <==> p !in server)
  }

  lemma {:induction false} PullOthers<C>(r: Rules<C>, disk: Disk<C>, server: Disk<C>, cs: seq<Change>, p: Path)
    requires !Mentions(cs, p)
    ensures Get(PullAll(r, disk, server, cs), p) == Get(disk, p)
  {
    if cs != [] {
      var init, c := cs[..|cs| - 1], cs[|cs| - 1];
      assert c in cs && forall d | d in init :: d in cs;
      PullOthers(r, disk, server, init, p);
    }
  }

  lemma StuckOneMore<C>(r: Rules<C>, disk: Disk<C>, cs: seq<Change>, p: Path)
    requires cs != []
    ensures
      var init, c := cs[..|cs| - 1], cs[|cs| - 1];
      Stuck(r, disk, cs, p) <==>
        Stuck(r, disk, init, p) && (c.path == p ==> c.kind != Deletion && r.recomputed(p, disk[p]) == c.hash)
  {
    assert cs == cs[..|cs| - 1] + [cs[|cs| - 1]];
  }

  /** The sender's file as it arrives. */
  function Copied<C>(r: Rules<C>, server: Disk<C>, p: Path): Option<C> {
    if p in server then Some(r.delivered(server[p])) else None
  }

  /** A path the sender has: the receiver keeps its own copy while stuck, afterwards it has the sender's or none. */
  function ServedOutcome<C>(r: Rules<C>, disk: Disk<C>, server: Disk<C>, cs: seq<Change>, p: Path): Option<C>
    requires p in server
  {
    if Stuck(r, disk, cs, p) || LastFor(cs, p).None? then Get(disk, p)
    else if LastFor(cs, p).value.kind == Deletion then None
    else Some(r.delivered(server[p]))
  }

  lemma {:induction false} PullServed<C>(r: Rules<C>, disk: Disk<C>, server: Disk<C>, cs: seq<Change>, p: Path)
    requires p in server
    ensures Get(PullAll(r, disk, server, cs), p) == ServedOutcome(r, disk, server, cs, p)
  {
    if cs != [] {
      var init, c := cs[..|cs| - 1], cs[|cs| - 1];
      PullServed(r, disk, server, init, p);
      StuckOneMore(r, disk, cs, p);
      if c.path == p && LastFor(init, p).None? {
        LastForIsLast(init, p);
      }
    }
  }

  /** A path the sender lacks: requests are abandoned and change nothing, a deletion deletes. */
  lemma {:induction false} PullUnserved<C>(r: Rules<C>, disk: Disk<C>, server: Disk<C>, cs: seq<Change>, p: Path)
    requires p !in server
    ensures Get(PullAll(r, disk, server, cs), p)
         == if exists c :: c in cs && c.path == p && c.kind == Deletion then None else Get(disk, p)
  {
    if cs != [] {
      var init, c := cs[..|cs| - 1], cs[|cs| - 1];
      PullUnserved(r, disk, server, init, p);
      assert cs == init + [c];
    }
  }

  /** For any change list and any rules: an unmentioned path is untouched; a mentioned one, whose last change says
      what the sender has, ends as what a transfer makes of the sender's copy, or stays as it was exactly when it is
      stuck. */
  lemma {:induction false} ReplayOutcome<C>(r: Rules<C>, disk: Disk<C>, server: Disk<C>, cs: seq<Change>, p: Path)
    requires EndsAt(server, cs, p)
    ensures Get(PullAll(r, disk, server, cs), p)
         == if !Mentions(cs, p) || Stuck(r, disk, cs, p) then Get(disk, p) else Copied(r, server, p)
  {
    LastForIsLast(cs, p);
    if !Mentions(cs, p) {
      PullOthers(r, disk, server, cs, p);
    } else if p in server {
      PullServed(r, disk, server, cs, p);
    } else {
      PullUnserved(r, disk, server, cs, p);
    }
  }

  /** Receiver and sender agree on a mentioned path if and only if a stuck path holds the sender's file already, and one
      that is not stuck has a file that arrives whole. */
  lemma {:induction false} AgreesIff<C>(r: Rules<C>, disk: Disk<C>, server: Disk<C>, cs: seq<Change>, p: Path)
    requires EndsAt(server, cs, p) && Mentions(cs, p)
    ensures Get(PullAll(r, disk, server, cs), p) == Get(server, p)
       <==> if Stuck(r, disk, cs, p) then Get(disk, p) == Get(server, p) else Copied(r, server, p) == Get(server, p)
  {
    ReplayOutcome(r, disk, server, cs, p);
  }

  /** In particular they agree wherever the skip test is sound for the path's last change and the file arrives whole. */
  lemma {:induction false} SoundSkipTestSuffices<C(!new)>(r: Rules<C>, disk: Disk<C>, server: Disk<C>, cs: seq<Change>)
    requires forall p :: EndsAt(server, cs, p)
    requires forall p | p in disk && LastFor(cs, p).Some? ::
               Skips(r, disk, LastFor(cs, p).value) ==> Get(disk, p) == Get(server, p)
    requires forall p | Mentions(cs, p) :: Copied(r, server, p) == Get(server, p)
    ensures forall p :: Get(PullAll(r, disk, server, cs), p) == if Mentions(cs, p) then Get(server, p) else Get(disk, p)
  {
    forall p
      ensures Get(PullAll(r, disk, server, cs), p) == if Mentions(cs, p) then Get(server, p) else Get(disk, p)
    {
      assert EndsAt(server, cs, p);
      ReplayOutcome(r, disk, server, cs, p);
      LastForIsLast(cs, p);
      if Mentions(cs, p) && Stuck(r, disk, cs, p) {
        assert Skips(r, disk, LastFor(cs, p).value);
      }
    }
  }

  /** Working through the same list twice is working through it once. */
  lemma {:induction false} PullAllTwice<C>(r: Rules<C>, disk: Disk<C>, server: Disk<C>, cs: seq<Change>)
    requires forall p :: EndsAt(server, cs, p)
    ensures PullAll(r, PullAll(r, disk, server, cs), server, cs) == PullAll(r, disk, server, cs)
  {
    hide PullAll;
    var once := PullAll(r, disk, server, cs);
    var twice := PullAll(r, once, server, cs);
    forall p
      ensures Get(twice, p) == Get(once, p)
    {
      assert EndsAt(server, cs, p);
      ReplayOutcome(r, disk, server, cs, p);
      ReplayOutcome(r, once, server, cs, p);
    }
    SameAnswersSameMap(twice, once);
  }

  // ---- From the front of the list ----

  lemma {:induction false} PullAllFirst<C>(r: Rules<C>, disk: Disk<C>, server: Disk<C>, cs: seq<Change>)
    requires cs != []
    ensures PullAll(r, disk, server, cs) == PullAll(r, Pull(r, disk, server, cs[0]), server, cs[1..])
  {
    var n := |cs| - 1;
    if n == 0 {
      assert cs[..0] == [] && cs[1..] == [];
    } else {
      PullAllFirst(r, disk, server, cs[..n]);
      assert cs[..n][1..] == cs[1..][..n - 1];
    }
  }

  /** The sender's disk may be another one at each change. */
  function PullEach<C>(r: Rules<C>, disk: Disk<C>, servers: seq<Disk<C>>, cs: seq<Change>): Disk<C>
    requires |servers| == |cs|
  {
    if cs == [] then disk
    else
      var n := |cs| - 1;
      Pull(r, PullEach(r, disk, servers[..n], cs[..n]), servers[n], cs[n])
  }

  lemma {:induction false} PullEachOfOne<C>(
    r: Rules<C>, disk: Disk<C>, servers: seq<Disk<C>>, server: Disk<C>, cs: seq<Change>)
    requires |servers| == |cs| && forall i | 0 <= i < |servers| :: servers[i] == server
    ensures PullEach(r, disk, servers, cs) == PullAll(r, disk, server, cs)
  {
    if cs != [] {
      var n := |cs| - 1;
      PullEachOfOne(r, disk, servers[..n], server, cs[..n]);
    }
  }

  lemma {:induction false} PullEachOthers<C>(
    r: Rules<C>, disk: Disk<C>, servers: seq<Disk<C>>, cs: seq<Change>, p: Path)
    requires |servers| == |cs| && forall i | 0 <= i < |cs| :: cs[i].path != p
    ensures Get(PullEach(r, disk, servers, cs), p) == Get(disk, p)
  {
    if cs != [] {
      var n := |cs| - 1;
      PullEachOthers(r, disk, servers[..n], cs[..n], p);
    }
  }

  /** Only the last change for a path decides, on what the ones before it have left there and on the sender's disk at
      that moment. */
  lemma {:induction false} PullEachLast<C>(
    r: Rules<C>, disk: Disk<C>, servers: seq<Disk<C>>, cs: seq<Change>, p: Path, i: nat)
    requires |servers| == |cs| && i < |cs| && cs[i].path == p
    requires forall l | i < l < |cs| :: cs[l].path != p
    ensures
      var before := Get(PullEach(r, disk, servers[..i], cs[..i]), p);
      Get(PullEach(r, disk, servers, cs), p)
        == if cs[i].kind == Deletion then None
           else if before.Some? && r.recomputed(p, before.value) == cs[i].hash then before
           else if p !in servers[i] then before
           else Some(r.delivered(servers[i][p]))
  {
    var n := |cs| - 1;
    if i < n {
      PullEachLast(r, disk, servers[..n], cs[..n], p, i);
      assert servers[..n][..i] == servers[..i] && cs[..n][..i] == cs[..i];
    }
  }

  /** In a list that names no path twice, each path has one change, decided on the receiver's first disk and on what
      the sender has when that change's turn comes. */
  lemma {:induction false} PullEachAt<C>(r: Rules<C>, disk: Disk<C>, servers: seq<Disk<C>>, cs: seq<Change>, i: nat)
    requires |servers| == |cs| && i < |cs| && DistinctPaths(cs)
    ensures
      var p := cs[i].path;
      Get(PullEach(r, disk, servers, cs), p)
        == if cs[i].kind == Deletion then None
           else if (p in disk && r.recomputed(p, disk[p]) == cs[i].hash) || p !in servers[i] then Get(disk, p)
           else Some(r.delivered(servers[i][p]))
  {
    PullEachOthers(r, disk, servers[..i], cs[..i], cs[i].path);
    PullEachLast(r, disk, servers, cs, cs[i].path, i);
  }

  // ---- The program's form: bytes over the wire ----

  const NEGOTIATION_PORT: nat := 25565
  const TCP_PORT: nat := 45016

  /** Every file of a disk arrives whole if and only if every length passes the 32-bit comparison. */
  lemma WholeIffTransferable(server: Disk<FileTransfer.File>)
    ensures (forall p | p in server :: FileTransfer.Received(server[p]) == server[p])
       <==> (forall p | p in server :: FileTransfer.Transferable(|server[p]|))
  {
    forall p | p in server
      ensures FileTransfer.Received(server[p]) == server[p] <==> FileTransfer.Transferable(|server[p]|)
    {
      FileTransfer.ReceivedWhole(server[p]);
    }
  }

  class Requester {
    const announced: (Path, FileTransfer.File) -> Hash
    const recomputed: (Path, FileTransfer.File) -> Hash
    var disk: Disk<FileTransfer.File>
    var locked: bool

    function FileRules(): Rules<FileTransfer.File> {
      Rules(announced, recomputed, FileTransfer.Received)
    }

    constructor (
      announced: (Path, FileTransfer.File) -> Hash, recomputed: (Path, FileTransfer.File) -> Hash,
      disk: Disk<FileTransfer.File>)
      ensures this.announced == announced && this.recomputed == recomputed && this.disk == disk && !locked
    {
      this.announced, this.recomputed, this.disk, locked := announced, recomputed, disk, false;
    }

    /** Request, reply and transfer for one path; `server` is the disk the peer answers from. */
    method NegotiateTCPTransfer(fileChange: Change, server: Disk<FileTransfer.File>) returns (transferred: bool)
      requires PacketCodec.Encodable(fileChange)
      modifies this`disk
      ensures transferred == (fileChange.path in server)
      ensures disk == if fileChange.path in server
                      then old(disk)[fileChange.path := FileTransfer.Received(server[fileChange.path])]
                      else old(disk)
    {
      ghost var flag := fileChange.path !in server;
      Exchanged(fileChange, flag);
      var request := PacketCodec.EncodeRequest(fileChange, NEGOTIATION_PORT);
      // the peer's handler
      var read := PacketCodec.Read(request);
      var wanted := read.value.change;
      var abandon := wanted.path !in server;
      var reply := PacketCodec.EncodeReply(abandon, wanted, TCP_PORT);
      // back at the client
      var answer := PacketCodec.DecodeReply(reply);
      if answer.value.0.0 {
        return false;
      }
      var target := answer.value.0.1.path;
      var client := new FileTransfer.Client();
      var packets := FileTransfer.SendFile(server[wanted.path], client);
      disk := disk[target := client.file];
      return true;
    }

    /** Each change is handled under the directory lock; the peer's disk may change between two of them. */
    method RequestFiles(fileChanges: seq<Change>, servers: seq<Disk<FileTransfer.File>>)
      requires !locked && |servers| == |fileChanges|
      requires forall c | c in fileChanges :: PacketCodec.Encodable(c)
      modifies this
      ensures !locked
      ensures disk == PullEach(FileRules(), old(disk), servers, fileChanges)
    {
      for i := 0 to |fileChanges|
        invariant !locked
        invariant disk == PullEach(FileRules(), old(disk), servers[..i], fileChanges[..i])
      {
        assert fileChanges[..i + 1][..i] == fileChanges[..i] && servers[..i + 1][..i] == servers[..i];
        var fileChange := fileChanges[i];
        locked := true;
        if fileChange.kind == Deletion {
          disk := disk - {fileChange.path};
        } else if !(fileChange.path in disk
                    && recomputed(fileChange.path, disk[fileChange.path]) == fileChange.hash) {
          var _ := NegotiateTCPTransfer(fileChange, servers[i]);
        }
        locked := false;
      }
      assert fileChanges[..|fileChanges|] == fileChanges && servers[..|servers|] == servers;
    }
  }

  /** Request and reply, each alone in its packet. */
  lemma Exchanged(c: Change, abandon: bool)
    requires PacketCodec.Encodable(c)
    ensures PacketCodec.Read(PacketCodec.EncodeRequest(c, NEGOTIATION_PORT)) == Some(PacketCodec.Request(c, 25565))
    ensures PacketCodec.DecodeReply(PacketCodec.EncodeReply(abandon, c, TCP_PORT)) == Some(((abandon, c, 45016), []))
  {
    PacketCodec.RequestReadsBack(c, NEGOTIATION_PORT);
    PacketCodec.NegotiationRoundTrip(c, TCP_PORT, abandon, []);
    var reply := PacketCodec.EncodeReply(abandon, c, TCP_PORT);
    assert reply + [] == reply;
  }
}

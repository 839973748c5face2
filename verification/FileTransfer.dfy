/** The stop-and-wait transfer of `sendFile` and `receiveFile`.

    Positions travel as 32-bit words and the sender compares them with the file length cut to 32 bits; the read
    cursor of the file is never moved back. */
module FileTransfer {
  import opened Base

  const CHUNK: nat := 1024
  const WORD: nat := 0x1_0000_0000

  type File = seq<Byte>

  type Word = x: int | 0 <= x < 0x1_0000_0000

  /** A data packet (pid 100): position, length and contents. */
  datatype Packet = Packet(pos: Word, length: Word, contents: File)

  // ---- The receiver on its own ----

  /** The client: what it has written and the position it reports. */
  datatype Receiver = Receiver(file: File, pos: Word)

  const EMPTY_RECEIVER := Receiver([], 0)

  /** Writes a packet only when it claims to start where the client stands. (A length beyond the contents is a
      malformed packet; no sender produces one.) */
  function OnPacket(r: Receiver, p: Packet): Receiver {
    if r.pos == p.pos && p.length <= |p.contents| then
      var file := r.file + p.contents[..p.length];
      Receiver(file, |file| % WORD)
    else r
  }

  function OnPackets(r: Receiver, ps: seq<Packet>): Receiver
    decreases ps
  {
    if ps == [] then r else OnPackets(OnPacket(r, ps[0]), ps[1..])
  }

  /** The packet carries the source's bytes from position `q`, labelled with the 32-bit image of `q`. */
  predicate CarriesFrom(p: Packet, src: File, q: nat) {
    && q + |p.contents| <= |src|
    && |p.contents| <= CHUNK
    && p == Packet(q % WORD, |p.contents|, src[q..q + |p.contents|])
  }

  predicate Faithful(p: Packet, src: File) {
    exists q :: 0 <= q <= |src| && CarriesFrom(p, src, q)
  }

  predicate IsPrefix(a: File, b: File) {
    |a| <= |b| && a == b[..|a|]
  }

  lemma LongerPrefix(src: File, q: nat, n: nat)
    requires q + n <= |src|
    ensures src[..q] + src[q..q + n] == src[..q + n]
    ensures IsPrefix(src[..q], src[..q + n]) && IsPrefix(src[..q + n], src)
  {
  }

  /** A faithful packet that starts where the client stands is appended to its file. */
  lemma PacketInPlace(src: File, q: nat, p: Packet)
    requires q <= |src| < WORD && CarriesFrom(p, src, q)
    ensures OnPacket(Receiver(src[..q], q), p) == Receiver(src[..q + |p.contents|], q + |p.contents|)
  {
    assert p.contents[..p.length] == p.contents;
    LongerPrefix(src, q, |p.contents|);
  }

  /** One faithful packet: appended if it starts where the client stands, otherwise passed over. */
  lemma OneFaithfulPacket(src: File, r: Receiver, p: Packet)
    requires |src| < WORD && IsPrefix(r.file, src) && r.pos == |r.file| && Faithful(p, src)
    ensures
      var after := OnPacket(r, p);
      IsPrefix(r.file, after.file) && IsPrefix(after.file, src) && after.pos == |after.file|
  {
    var q :| 0 <= q <= |src| && CarriesFrom(p, src, q);
    if r.pos == p.pos {
      assert r == Receiver(src[..q], q);
      PacketInPlace(src, q, p);
      LongerPrefix(src, q, |p.contents|);
    } else {
      assert OnPacket(r, p) == r;
    }
  }

  lemma PrefixOfPrefix(a: File, b: File, c: File)
    requires IsPrefix(a, b) && IsPrefix(b, c)
    ensures IsPrefix(a, c)
  {
    assert b[..|a|] == c[..|a|];
  }

  /** Any faithful packets, repeated, reordered or with gaps, leave a prefix of the source below 2^32 bytes. */
  lemma {:induction false} PrefixWhateverArrives(src: File, r: Receiver, ps: seq<Packet>)
    requires |src| < WORD
    requires IsPrefix(r.file, src) && r.pos == |r.file|
    requires forall p | p in ps :: Faithful(p, src)
    ensures
      var after := OnPackets(r, ps);
      IsPrefix(r.file, after.file) && IsPrefix(after.file, src) && after.pos == |after.file|
    decreases |ps|
  {
    if ps != [] {
      var next := OnPacket(r, ps[0]);
      OneFaithfulPacket(src, r, ps[0]);
      PrefixWhateverArrives(src, next, ps[1..]);
      PrefixOfPrefix(r.file, next.file, OnPackets(next, ps[1..]).file);
    }
  }

  function ChunkAt(src: File, from: nat): (p: Packet)
    requires from <= |src|
    ensures CarriesFrom(p, src, from)
    ensures |p.contents| == if |src| - from <= CHUNK then |src| - from else CHUNK
  {
    var n := if |src| - from <= CHUNK then |src| - from else CHUNK;
    Packet(from % WORD, n, src[from..from + n])
  }

  function ChunksFrom(src: File, from: nat): seq<Packet>
    requires from <= |src|
    decreases |src| - from
  {
    if from == |src| then [] else [ChunkAt(src, from)] + ChunksFrom(src, from + |ChunkAt(src, from).contents|)
  }

  lemma WriteChunk(src: File, from: nat)
    requires from <= |src|
    ensures
      var n := |ChunkAt(src, from).contents|;
      OnPacket(Receiver(src[..from], from % WORD), ChunkAt(src, from)) == Receiver(src[..from + n], (from + n) % WORD)
  {
    var p := ChunkAt(src, from);
    assert p.contents[..p.length] == p.contents;
    assert src[..from] + p.contents == src[..from + |p.contents|];
  }

  lemma {:induction false} ChunksArrive(src: File, from: nat)
    requires from <= |src|
    ensures forall p | p in ChunksFrom(src, from) :: Faithful(p, src)
    ensures OnPackets(Receiver(src[..from], from % WORD), ChunksFrom(src, from)) == Receiver(src, |src| % WORD)
    decreases |src| - from
  {
    if from == |src| {
      assert src[..from] == src;
    } else {
      var p := ChunkAt(src, from);
      WriteChunk(src, from);
      ChunksArrive(src, from + |p.contents|);
      assert ChunksFrom(src, from)[1..] == ChunksFrom(src, from + |p.contents|);
      assert CarriesFrom(p, src, from);
    }
  }

  lemma {:induction false} OnPacketsConcat(r: Receiver, a: seq<Packet>, b: seq<Packet>)
    ensures OnPackets(r, a + b) == OnPackets(OnPackets(r, a), b)
    decreases |a|
  {
    if a == [] {
      assert a + b == b;
    } else {
      assert (a + b)[1..] == a[1..] + b;
      OnPacketsConcat(OnPacket(r, a[0]), a[1..], b);
    }
  }

  ghost predicate AllFaithful(ps: seq<Packet>, src: File) {
    forall p | p in ps :: Faithful(p, src)
  }

  /** From 2^32 bytes on, one late duplicate is enough to grow the client's file past the source. */
  lemma LateDuplicate(src: File)
    requires |src| >= WORD
    ensures exists ps :: AllFaithful(ps, src) && !IsPrefix(OnPackets(EMPTY_RECEIVER, ps).file, src)
  {
    var all := ChunksFrom(src, 0);
    ChunksArrive(src, 0);
    assert src[..0] == [];
    var q := |src| % WORD;
    var late := Packet(q, 1, src[q..q + 1]);
    assert CarriesFrom(late, src, q);
    OnPacketsConcat(EMPTY_RECEIVER, all, [late]);
    assert OnPackets(Receiver(src, q), [late]) == OnPacket(Receiver(src, q), late) by {
      assert [late][1..] == [];
    }
    assert AllFaithful(all + [late], src);
  }

  /** The receiver tolerates every faithful packet sequence if and only if the file is below 2^32 bytes. */
  lemma RobustIffBelowWord(src: File)
    ensures (forall ps | AllFaithful(ps, src) :: IsPrefix(OnPackets(EMPTY_RECEIVER, ps).file, src))
       <==> |src| < 0x1_0000_0000
  {
    if |src| < WORD {
      forall ps | AllFaithful(ps, src)
        ensures IsPrefix(OnPackets(EMPTY_RECEIVER, ps).file, src)
      {
        PrefixWhateverArrives(src, EMPTY_RECEIVER, ps);
      }
    } else {
      LateDuplicate(src);
    }
  }

  // ---- The two parties together ----

  /** What may be on the connection. */
  datatype Message = Data(packet: Packet) | Ack(pos: Word) | End | Bye

  datatype ServerPhase = Sending | Awaiting | Ending | Closed

  datatype Link = Link(
    src: File,
    cursor: nat,
    pos: Word,
    phase: ServerPhase,
    client: Receiver,
    clientOpen: bool,
    toClient: seq<Message>,
    toServer: seq<Message>,
    packets: nat)

  datatype Move = SendChunk | SendEnd | ClientTurn | TakeAck | TakeBye

  predicate Can(s: Link, m: Move) {
    match m
    case SendChunk => s.phase == Sending && s.pos < |s.src| % WORD && s.cursor <= |s.src|
    case SendEnd => s.phase == Sending && s.pos >= |s.src| % WORD
    case ClientTurn => s.clientOpen && s.toClient != [] && (s.toClient[0].Data? || s.toClient[0].End?)
    case TakeAck => s.phase == Awaiting && s.toServer != [] && s.toServer[0].Ack?
    case TakeBye => s.phase == Ending && s.toServer != []
  }

  function Play(s: Link, m: Move): Link
    requires Can(s, m)
  {
    match m
    case SendChunk =>
      // the position sent is the client's, the bytes are the ones at the cursor
      var p := ChunkAt(s.src, s.cursor).(pos := s.pos);
      s.(cursor := s.cursor + |p.contents|, phase := Awaiting,
         toClient := s.toClient + [Data(p)], packets := s.packets + 1)
    case SendEnd => s.(phase := Ending, toClient := s.toClient + [End])
    case ClientTurn =>
      var msg := s.toClient[0];
      if msg.Data? then
        var client := OnPacket(s.client, msg.packet);
        s.(client := client, toClient := s.toClient[1..], toServer := s.toServer + [Ack(client.pos)])
      else
        s.(clientOpen := false, toClient := s.toClient[1..], toServer := s.toServer + [Bye])
    case TakeAck => s.(pos := s.toServer[0].pos, phase := Sending, toServer := s.toServer[1..])
    case TakeBye => s.(phase := Closed, toServer := s.toServer[1..])
  }

  function Begin(src: File): Link {
    Link(src, 0, 0, Sending, EMPTY_RECEIVER, true, [], [], 0)
  }

  function Chunks(n: nat): nat {
    (n + CHUNK - 1) / CHUNK
  }

  /** The 32-bit comparison stops at the right byte. */
  predicate Transferable(length: nat) {
    length < WORD || length % WORD > WORD - CHUNK
  }

  /** How many bytes the sender has read when its loop stops. */
  function Delivered(length: nat): nat {
    if Transferable(length) then length else Chunks(length % WORD) * CHUNK
  }

  lemma DeliveredBounds(length: nat)
    ensures Delivered(length) <= length
    ensures Delivered(length) == length <==> Transferable(length)
    ensures !Transferable(length) ==> Delivered(length) < WORD
  {
  }

  /** The sender reads 1024 bytes at a time until it has the length cut to 32 bits, unless the file ends before. */
  lemma DeliveredIs(length: nat)
    ensures
      var cut := length % 0x1_0000_0000;
      if length < 0x1_0000_0000 || cut > 0x1_0000_0000 - 1024 then Delivered(length) == length
      else Delivered(length) % 1024 == 0 && cut <= Delivered(length) < cut + 1024
  {
  }

  /** What a peer has after a transfer of this file. */
  function Received(f: File): File {
    DeliveredBounds(|f|);
    f[..Delivered(|f|)]
  }

  /** It is the file itself if and only if the length passes the 32-bit comparison; and passing it on loses nothing
      more. */
  lemma ReceivedWhole(f: File)
    ensures Received(f) == f <==> Transferable(|f|)
    ensures Received(f) == f <==> |f| < 0x1_0000_0000 || |f| % 0x1_0000_0000 > 0x1_0000_0000 - 1024
    ensures Received(Received(f)) == Received(f)
  {
    DeliveredBounds(|f|);
    DeliveredTwice(|f|);
    assert f[..|f|] == f;
    assert Received(f)[..|Received(f)|] == Received(f);
  }

  lemma DeliveredTwice(length: nat)
    ensures Delivered(Delivered(length)) == Delivered(length)
  {
    DeliveredBounds(length);
  }

  /** Positions at which the sender stands between two chunks. */
  predicate Boundary(length: nat, cursor: nat) {
    cursor <= Delivered(length) && (cursor % CHUNK == 0 || cursor == length)
  }

  /** The sender's loop test is exactly "there is still something to deliver". */
  lemma LoopTest(length: nat, cursor: nat)
    requires Boundary(length, cursor)
    ensures cursor % WORD < length % WORD <==> cursor < Delivered(length)
  {
    DeliveredBounds(length);
    if length >= WORD && Transferable(length) && cursor < length {
      assert cursor % CHUNK == 0;
      var k := cursor / CHUNK;
      assert cursor == k * CHUNK && cursor % WORD == (k % 0x40_0000) * CHUNK;
    }
  }

  lemma NextBoundary(length: nat, cursor: nat)
    requires Boundary(length, cursor) && cursor < Delivered(length)
    ensures
      var n := if length - cursor <= CHUNK then length - cursor else CHUNK;
      && cursor + n <= length && n > 0
      && Boundary(length, cursor + n)
      && Chunks(Delivered(length) - cursor) == 1 + Chunks(Delivered(length) - (cursor + n))
  {
    DeliveredBounds(length);
  }

  /** Client file, positions and the one message in flight, phase by phase. */
  predicate LinkInv(s: Link) {
    var length := |s.src|;
    && Boundary(length, s.cursor)
    && s.cursor <= length
    && s.packets + Chunks(Delivered(length) - s.cursor) == Chunks(Delivered(length))
    && |s.toClient| + |s.toServer| <= 1
    && (var synced := Receiver(s.src[..s.cursor], s.cursor % WORD);
        match s.phase
        case Sending => s.clientOpen && s.toClient == s.toServer == [] && s.client == synced && s.pos == synced.pos
        case Awaiting =>
          && s.clientOpen
          && (|| (s.toServer == [Ack(synced.pos)] && s.toClient == [] && s.client == synced)
              || (s.toServer == [] && |s.toClient| == 1 && s.toClient[0].Data?
                  && IsPrefix(s.client.file, s.src) && s.client.pos == |s.client.file| % WORD
                  && OnPacket(s.client, s.toClient[0].packet) == synced))
        case Ending =>
          && s.cursor == Delivered(length) && s.client == synced
          && ((s.clientOpen && s.toClient == [End] && s.toServer == [])
              || (!s.clientOpen && s.toClient == [] && s.toServer == [Bye]))
        case Closed =>
          s.cursor == Delivered(length) && s.client == synced && !s.clientOpen && s.toClient == s.toServer == [])
  }

  /** How many moves are still to be made. */
  function Left(s: Link): nat
    requires s.cursor <= Delivered(|s.src|)
  {
    3 * Chunks(Delivered(|s.src|) - s.cursor)
    + match s.phase
      case Sending => 3
      case Awaiting => if s.toClient != [] then 5 else 4
      case Ending => if s.toClient != [] then 2 else 1
      case Closed => 0
  }

  lemma MoveKeepsInv(s: Link, m: Move)
    requires LinkInv(s) && Can(s, m)
    ensures LinkInv(Play(s, m)) && Play(s, m).src == s.src
    ensures Left(Play(s, m)) == Left(s) - 1
  {
    var t := Play(s, m);
    match m
    case SendChunk =>
      LoopTest(|s.src|, s.cursor);
      NextBoundary(|s.src|, s.cursor);
      WriteChunk(s.src, s.cursor);
      assert |s.client.file| == s.cursor;
      assert t.toClient == [Data(ChunkAt(s.src, s.cursor))];
    case SendEnd =>
      LoopTest(|s.src|, s.cursor);
    case ClientTurn =>
    case TakeAck =>
    case TakeBye =>
  }

  /** Until both ends are closed exactly one thing can happen next. */
  lemma NeverStuck(s: Link)
    requires LinkInv(s)
    ensures Left(s) > 0 <==> exists m :: Can(s, m)
    ensures forall m, n | Can(s, m) && Can(s, n) :: m == n
  {
    LoopTest(|s.src|, s.cursor);
    if s.phase == Sending {
      assert Can(s, SendChunk) || Can(s, SendEnd);
    } else if s.phase == Awaiting {
      assert Can(s, ClientTurn) || Can(s, TakeAck);
    } else if s.phase == Ending {
      assert Can(s, ClientTurn) || Can(s, TakeBye);
    }
  }

  function RunLink(s: Link, moves: seq<Move>): Option<Link>
    decreases moves
  {
    if moves == [] then Some(s)
    else if Can(s, moves[0]) then RunLink(Play(s, moves[0]), moves[1..])
    else None
  }

  lemma {:induction false} RunKeepsInv(s: Link, moves: seq<Move>)
    requires LinkInv(s) && RunLink(s, moves).Some?
    ensures
      var t := RunLink(s, moves).value;
      LinkInv(t) && t.src == s.src && |moves| + Left(t) == Left(s)
    decreases moves
  {
    if moves != [] {
      MoveKeepsInv(s, moves[0]);
      RunKeepsInv(Play(s, moves[0]), moves[1..]);
    }
  }

  lemma BeginInv(src: File)
    ensures LinkInv(Begin(src)) && Left(Begin(src)) == 3 * Chunks(Delivered(|src|)) + 3
  {
    assert src[..0] == [];
    DeliveredBounds(|src|);
  }

  /** Every run keeps the client's file a prefix of the source with its position the 32-bit image of its length and
      at most one message in flight; no run is longer than three moves per chunk of 1024 bytes plus three, a run of
      that length has closed both ends, a shorter one can go on; and then the client has the first `Delivered` bytes,
      in one data packet per chunk. */
  lemma {:induction false} TransferOverAllRuns(src: File, moves: seq<Move>)
    requires RunLink(Begin(src), moves).Some?
    ensures
      var s := RunLink(Begin(src), moves).value;
      var chunks := (Delivered(|src|) + 1023) / 1024;
      var total := 3 * chunks + 3;
      && IsPrefix(s.client.file, src) && s.client.pos == |s.client.file| % 0x1_0000_0000
      && |s.toClient| + |s.toServer| <= 1
      && |moves| <= total
      && (|moves| < total <==> exists m :: Can(s, m))
      && (|moves| == total ==>
            && s.phase == Closed && !s.clientOpen
            && s.client.file == src[..Delivered(|src|)]
            && s.packets == chunks)
  {
    BeginInv(src);
    RunKeepsInv(Begin(src), moves);
    var s := RunLink(Begin(src), moves).value;
    NeverStuck(s);
    DeliveredBounds(|src|);
  }

  /** The client ends up with the source file if and only if the file is shorter than 2^32 bytes or its length
      is one that the 32-bit comparison rounds up to a multiple of 2^32. */
  lemma {:induction false} CompleteIffTransferable(src: File, moves: seq<Move>)
    requires RunLink(Begin(src), moves).Some? && |moves| == 3 * ((Delivered(|src|) + 1023) / 1024) + 3
    ensures RunLink(Begin(src), moves).value.client.file == src
       <==> |src| < 0x1_0000_0000 || |src| % 0x1_0000_0000 > 0x1_0000_0000 - 1024
  {
    TransferOverAllRuns(src, moves);
    ReceivedWhole(src);
  }

  // ---- The program's form ----

  /** The receiving end: `pos` follows the write position of the open file. */
  class Client {
    var file: File
    var pos: Word

    constructor ()
      ensures Receiver(file, pos) == EMPTY_RECEIVER
    {
      file, pos := [], 0;
    }

    /** One data packet of `receiveFile`, answered with the client's position. */
    method Receive(packet: Packet) returns (response: Word)
      requires packet.length <= |packet.contents|
      modifies this
      ensures Receiver(file, pos) == OnPacket(old(Receiver(file, pos)), packet)
      ensures response == pos
    {
      if pos == packet.pos {
        file := file + packet.contents[..packet.length];
        pos := |file| % WORD;
      }
      response := pos;
    }
  }

  /** `sendFile` with the client at the other end of the connection. */
  method SendFile(src: File, client: Client) returns (packets: nat)
    requires Receiver(client.file, client.pos) == EMPTY_RECEIVER
    modifies client
    ensures client.file == Received(src)
    ensures packets == (Delivered(|src|) + 1023) / 1024
  {
    var length := |src| % WORD;
    var cursor, pos: Word := 0, 0;
    packets := 0;
    DeliveredBounds(|src|);
    assert src[..0] == [];
    while pos < length
      invariant Boundary(|src|, cursor) && cursor <= |src|
      invariant Receiver(client.file, client.pos) == Receiver(src[..cursor], cursor % WORD)
      invariant pos == cursor % WORD
      invariant packets + Chunks(Delivered(|src|) - cursor) == Chunks(Delivered(|src|))
      decreases Delivered(|src|) - cursor
    {
      LoopTest(|src|, cursor);
      NextBoundary(|src|, cursor);
      WriteChunk(src, cursor);
      var n := if |src| - cursor <= CHUNK then |src| - cursor else CHUNK;
      var packet := Packet(pos, n, src[cursor..cursor + n]);
      assert packet == ChunkAt(src, cursor);
      cursor := cursor + n;
      packets := packets + 1;
      pos := client.Receive(packet);
    }
    LoopTest(|src|, cursor);
  }
}

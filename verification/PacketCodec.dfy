/** The packet operators: changes, change lists, file tables, and the two halves of a transfer negotiation.

    A packet is a byte sequence with a read cursor; integers are big-endian, strings carry a 32-bit length and
    one 32-bit unit per character. `size_t` is 32 bits wide, as the reading side takes it. */
module PacketCodec {
  import opened Base

  type Bytes = seq<Byte>

  /** A decoded value and the bytes behind it; nothing when the packet ends too early. */
  type Parsed<T> = Option<(T, Bytes)>

  // Field widths in bytes.
  const U8: nat := 1
  const U16: nat := 2
  const U32: nat := 4
  const U64: nat := 8

  function Limit(width: nat): nat {
    if width == 0 then 1 else 0x100 * Limit(width - 1)
  }

  // ---- Fixed-width integers ----

  function EncodeInt(n: nat, width: nat): Bytes {
    if width == 0 then [] else EncodeInt(n / 0x100, width - 1) + [n % 0x100]
  }

  function IntOf(b: Bytes): nat {
    if b == [] then 0 else IntOf(b[..|b| - 1]) * 0x100 + b[|b| - 1]
  }

  function DecodeInt(b: Bytes, width: nat): Parsed<nat> {
    if |b| < width then None else Some((IntOf(b[..width]), b[width..]))
  }

  lemma {:induction false} IntOfEncoded(n: nat, width: nat)
    requires n < Limit(width)
    ensures |EncodeInt(n, width)| == width && IntOf(EncodeInt(n, width)) == n
  {
    if width > 0 {
      IntOfEncoded(n / 0x100, width - 1);
      assert EncodeInt(n, width)[..width - 1] == EncodeInt(n / 0x100, width - 1);
    }
  }

  lemma {:induction false} IntRoundTrip(n: nat, width: nat, rest: Bytes)
    requires n < Limit(width)
    ensures DecodeInt(EncodeInt(n, width) + rest, width) == Some((n, rest))
  {
    IntOfEncoded(n, width);
    assert (EncodeInt(n, width) + rest)[..width] == EncodeInt(n, width);
    assert (EncodeInt(n, width) + rest)[width..] == rest;
  }

  lemma Limits()
    ensures Limit(1) == 0x100 && Limit(2) == 0x1_0000 && Limit(4) == 0x1_0000_0000
    ensures Limit(8) == 0x1_0000_0000_0000_0000
  {
    assert Limit(1) == 0x100;
    assert Limit(2) == 0x100 * Limit(1);
    assert Limit(3) == 0x100 * Limit(2);
    assert Limit(4) == 0x100 * Limit(3);
    assert Limit(5) == 0x100 * Limit(4);
    assert Limit(6) == 0x100 * Limit(5);
    assert Limit(7) == 0x100 * Limit(6);
    assert Limit(8) == 0x100 * Limit(7);
  }

  lemma DivideTwice(n: nat, d: nat)
    requires d > 0
    ensures 0x100 * d > 0 && n / 0x100 / d == n / (0x100 * d)
  {
    var q, c, b := n / 0x100 / d, n / 0x100 % d, n % 0x100;
    assert n / 0x100 == d * q + c;
    assert n == (0x100 * d) * q + (0x100 * c + b);
    QuotientIs(n, 0x100 * d, q, 0x100 * c + b);
  }

  lemma QuotientIs(n: nat, d: nat, q: nat, r: nat)
    requires r < d && n == d * q + r
    ensures n / d == q
  {
    var e := n / d - q;
    assert d * e == r - n % d;
    assert (e >= 1 ==> d * e >= d) && (e <= -1 ==> d * e + d <= 0);
  }

  lemma {:induction false} LimitIsPositive(width: nat)
    ensures Limit(width) > 0
  {
    if width > 0 {
      LimitIsPositive(width - 1);
    }
  }

  /** Most significant byte first: byte `k` counts the multiples of 256 to the power of the number of bytes behind. */
  lemma {:induction false} IntLayout(n: nat, width: nat, k: nat)
    requires k < width
    ensures |EncodeInt(n, width)| == width && Limit(width - 1 - k) > 0
    ensures EncodeInt(n, width)[k] == n / Limit(width - 1 - k) % 0x100
  {
    LimitIsPositive(width - 1 - k);
    if k < width - 1 {
      IntLayout(n / 0x100, width - 1, k);
      LimitIsPositive(width - 2 - k);
      DivideTwice(n, Limit(width - 2 - k));
    } else if width > 1 {
      IntLayout(n / 0x100, width - 1, 0);
    }
  }

  /** Every byte sequence is the encoding of the one number it is read as. */
  lemma {:induction false} ReadInt(b: Bytes)
    ensures IntOf(b) < Limit(|b|) && EncodeInt(IntOf(b), |b|) == b
  {
    if b != [] {
      ReadInt(b[..|b| - 1]);
    }
  }

  // ---- Wide strings ----

  function EncodeCodes(s: Path): Bytes {
    if s == [] then [] else EncodeInt(s[0], U32) + EncodeCodes(s[1..])
  }

  function EncodePath(s: Path): Bytes {
    EncodeInt(|s|, U32) + EncodeCodes(s)
  }

  /** Every unit read is cut to the 16 bits of a wide character. */
  function DecodeCodes(b: Bytes, n: nat): Parsed<Path>
    decreases n
  {
    if n == 0 then Some(([], b)) else
      match DecodeInt(b, U32)
      case None => None
      case Some((c, rest)) =>
        match DecodeCodes(rest, n - 1)
        case None => None
        case Some((s, left)) => Some(([c % 0x1_0000] + s, left))
  }

  function DecodePath(b: Bytes): Parsed<Path> {
    match DecodeInt(b, U32)
    case None => None
    case Some((n, rest)) => DecodeCodes(rest, n)
  }

  lemma CodesStep(b: Bytes, n: nat, c: Code, tail: Bytes, s: Path, left: Bytes)
    requires DecodeInt(b, U32) == Some((c, tail)) && DecodeCodes(tail, n) == Some((s, left))
    ensures DecodeCodes(b, n + 1) == Some(([c] + s, left))
  {
  }

  lemma {:induction false} CodesRoundTrip(s: Path, rest: Bytes)
    ensures DecodeCodes(EncodeCodes(s) + rest, |s|) == Some((s, rest))
  {
    if s == [] {
      assert EncodeCodes(s) + rest == rest;
    } else {
      Limits();
      var head, tail := EncodeInt(s[0], U32), EncodeCodes(s[1..]);
      Regroup(head, tail, rest);
      IntRoundTrip(s[0], U32, tail + rest);
      CodesRoundTrip(s[1..], rest);
      CodesStep(head + (tail + rest), |s| - 1, s[0], tail + rest, s[1..], rest);
      assert [s[0]] + s[1..] == s;
    }
  }

  /** A unit on the wire is 32 bits wide; what does not fit a wide character is cut off. */
  lemma UnitIsCut(v: nat, rest: Bytes)
    requires v < 0x1_0000_0000
    ensures DecodeCodes(EncodeInt(v, 4) + rest, 1) == Some(([v % 0x1_0000], rest))
  {
    Limits();
    IntRoundTrip(v, 4, rest);
    assert [v % 0x1_0000] + [] == [v % 0x1_0000];
  }

  lemma PathRoundTrip(s: Path, rest: Bytes)
    requires |s| < 0x1_0000_0000
    ensures DecodePath(EncodePath(s) + rest) == Some((s, rest))
  {
    Limits();
    Regroup(EncodeInt(|s|, U32), EncodeCodes(s), rest);
    IntRoundTrip(|s|, U32, EncodeCodes(s) + rest);
    CodesRoundTrip(s, rest);
  }

  // ---- One change ----

  function KindCode(k: ChangeType): Byte {
    match k
    case Addition => 0
    case Deletion => 1
    case Edit => 2
  }

  /** An unknown code is read as an edit. */
  function KindOf(n: nat): ChangeType {
    if n == 0 then Addition else if n == 1 then Deletion else Edit
  }

  function EncodeChange(c: Change): Bytes {
    EncodePath(c.path) + (EncodeInt(c.hash, U64) + EncodeInt(KindCode(c.kind), U8))
  }

  function DecodeChange(b: Bytes): Parsed<Change> {
    match DecodePath(b)
    case None => None
    case Some((path, afterPath)) =>
      match DecodeInt(afterPath, U64)
      case None => None
      case Some((hash, afterHash)) =>
        match DecodeInt(afterHash, U8)
        case None => None
        case Some((kind, rest)) => Some((Change(path, hash % 0x1_0000_0000_0000_0000, KindOf(kind)), rest))
  }

  /** The length field of a path is 32 bits. */
  predicate Encodable(c: Change) {
    |c.path| < 0x1_0000_0000
  }

  /** Path, hash and any type byte: 0 and 1 are additions and deletions, everything else is read as an edit. */
  lemma AnyKindByte(path: Path, hash: Hash, v: Byte, rest: Bytes)
    requires |path| < 0x1_0000_0000
    ensures DecodeChange(EncodePath(path) + (EncodeInt(hash, 8) + ([v] + rest)))
         == Some((Change(path, hash, if v == 0 then Addition else if v == 1 then Deletion else Edit), rest))
  {
    hide EncodePath, DecodePath, EncodeInt, IntOf;
    var afterHash := [v] + rest;
    var afterPath := EncodeInt(hash, 8) + afterHash;
    PathRoundTrip(path, afterPath);
    assert DecodeInt(afterPath, U64) == Some((hash, afterHash)) by {
      Limits();
      IntRoundTrip(hash, U64, afterHash);
    }
    assert DecodeInt(afterHash, U8) == Some((v, rest)) by {
      Limits();
      OneByte(v);
      IntRoundTrip(v, U8, rest);
    }
  }

  lemma OneByte(v: Byte)
    ensures EncodeInt(v, 1) == [v]
  {
  }

  lemma ChangeRoundTrip(c: Change, rest: Bytes)
    requires Encodable(c)
    ensures DecodeChange(EncodeChange(c) + rest) == Some((c, rest))
  {
    var path, hash, kind := EncodePath(c.path), EncodeInt(c.hash, U64), [KindCode(c.kind)];
    OneByte(KindCode(c.kind));
    Regroup(path, hash + kind, rest);
    Regroup(hash, kind, rest);
    AnyKindByte(c.path, c.hash, KindCode(c.kind), rest);
  }

  lemma {:induction false} CodesLayout(s: Path)
    ensures |EncodeCodes(s)| == 4 * |s|
    ensures forall k | 0 <= k < |s| :: EncodeCodes(s)[4 * k..4 * k + 4] == EncodeInt(s[k], U32)
  {
    if s != [] {
      CodesLayout(s[1..]);
      Limits();
      IntOfEncoded(s[0], U32);
      forall k | 0 < k < |s|
        ensures EncodeCodes(s)[4 * k..4 * k + 4] == EncodeInt(s[k], U32)
      {
        assert s[1..][k - 1] == s[k];
        assert EncodeCodes(s)[4 * k..4 * k + 4] == EncodeCodes(s[1..])[4 * (k - 1)..4 * (k - 1) + 4];
      }
    }
  }

  lemma UnitAt(s: Path, k: nat)
    requires k < |s|
    ensures |EncodeCodes(s)| == 4 * |s| && IntOf(EncodeCodes(s)[4 * k..4 * k + 4]) == s[k]
  {
    CodesLayout(s);
    Limits();
    IntOfEncoded(s[k], 4);
  }

  /** Where the parts of a change stand in its packet. */
  lemma ChangeLayout(c: Change)
    requires Encodable(c)
    ensures
      var b, n := EncodeChange(c), 4 * |c.path|;
      && |b| == n + 13
      && IntOf(b[..4]) == |c.path|
      && (forall k | 0 <= k < |c.path| :: IntOf(b[4 + 4 * k..8 + 4 * k]) == c.path[k])
      && IntOf(b[4 + n..12 + n]) == c.hash
      && b[12 + n] == (match c.kind case Addition => 0 case Deletion => 1 case Edit => 2)
  {
    hide EncodeInt, EncodeCodes, IntOf;
    var size, codes, hash, kind :=
      EncodeInt(|c.path|, U32), EncodeCodes(c.path), EncodeInt(c.hash, U64), EncodeInt(KindCode(c.kind), U8);
    assert |size| == 4 && |codes| == 4 * |c.path| && |hash| == 8 && |kind| == 1 by {
      Parts(c);
    }
    var b := EncodeChange(c);
    assert b == size + codes + (hash + kind);
    assert b[..4] == size && b[4 + |codes|..12 + |codes|] == hash && b[12 + |codes|] == kind[0];
    Parts(c);
    forall k | 0 <= k < |c.path|
      ensures IntOf(b[4 + 4 * k..8 + 4 * k]) == c.path[k]
    {
      UnitAt(c.path, k);
      assert b[4 + 4 * k..8 + 4 * k] == codes[4 * k..4 * k + 4];
    }
  }

  lemma Parts(c: Change)
    requires Encodable(c)
    ensures |EncodeInt(|c.path|, U32)| == 4 && IntOf(EncodeInt(|c.path|, U32)) == |c.path|
    ensures |EncodeCodes(c.path)| == 4 * |c.path|
    ensures |EncodeInt(c.hash, U64)| == 8 && IntOf(EncodeInt(c.hash, U64)) == c.hash
    ensures EncodeInt(KindCode(c.kind), U8) == [KindCode(c.kind)]
  {
    Limits();
    IntOfEncoded(|c.path|, U32);
    IntOfEncoded(c.hash, U64);
    CodesLayout(c.path);
  }

  // ---- A list of changes (pid 6) ----

  function EncodeEach(cs: seq<Change>): Bytes {
    if cs == [] then [] else EncodeChange(cs[0]) + EncodeEach(cs[1..])
  }

  function EncodeChanges(cs: seq<Change>): Bytes {
    EncodeInt(6, U8) + (EncodeInt(|cs| % 0x1_0000_0000, U32) + EncodeEach(cs))
  }

  function DecodeEach(b: Bytes, n: nat): Parsed<seq<Change>>
    decreases n
  {
    if n == 0 then Some(([], b)) else
      match DecodeChange(b)
      case None => None
      case Some((c, rest)) =>
        match DecodeEach(rest, n - 1)
        case None => None
        case Some((cs, left)) => Some(([c] + cs, left))
  }

  function DecodeChanges(b: Bytes): Parsed<seq<Change>> {
    match DecodeInt(b, U8)
    case None => None
    case Some((_, afterPid)) =>
      match DecodeInt(afterPid, U32)
      case None => None
      case Some((n, rest)) => DecodeEach(rest, n)
  }

  lemma EachStep(b: Bytes, n: nat, c: Change, tail: Bytes, cs: seq<Change>, left: Bytes)
    requires DecodeChange(b) == Some((c, tail)) && DecodeEach(tail, n) == Some((cs, left))
    ensures DecodeEach(b, n + 1) == Some(([c] + cs, left))
  {
  }

  lemma {:induction false} EachRoundTrip(cs: seq<Change>, rest: Bytes)
    requires forall c | c in cs :: Encodable(c)
    ensures DecodeEach(EncodeEach(cs) + rest, |cs|) == Some((cs, rest))
  {
    if cs == [] {
      assert EncodeEach(cs) + rest == rest;
    } else {
      var head, tail := EncodeChange(cs[0]), EncodeEach(cs[1..]);
      Regroup(head, tail, rest);
      ChangeRoundTrip(cs[0], tail + rest);
      EachRoundTrip(cs[1..], rest);
      EachStep(head + (tail + rest), |cs| - 1, cs[0], tail + rest, cs[1..], rest);
      assert [cs[0]] + cs[1..] == cs;
    }
  }

  lemma {:induction false} ChangesStep(b: Bytes, pid: nat, afterPid: Bytes, n: nat, each: Bytes)
    requires DecodeInt(b, U8) == Some((pid, afterPid)) && DecodeInt(afterPid, U32) == Some((n, each))
    ensures DecodeChanges(b) == DecodeEach(each, n)
  {
  }

  /** A list of fewer than 2^32 changes comes back whole and leaves exactly the bytes behind it. */
  lemma ChangesRoundTrip(cs: seq<Change>, rest: Bytes)
    requires |cs| < 0x1_0000_0000 && forall c | c in cs :: Encodable(c)
    ensures DecodeChanges(EncodeChanges(cs) + rest) == Some((cs, rest))
  {
    var pid, size, each := EncodeInt(6, U8), EncodeInt(|cs|, U32), EncodeEach(cs);
    var body := each + rest;
    var sized := size + body;
    assert EncodeChanges(cs) + rest == pid + sized by {
      Regroup(pid, size + each, rest);
      Regroup(size, each, rest);
    }
    assert DecodeInt(pid + sized, U8) == Some((6, sized)) by {
      Limits();
      IntRoundTrip(6, U8, sized);
    }
    assert DecodeInt(sized, U32) == Some((|cs|, body)) by {
      Limits();
      IntRoundTrip(|cs|, U32, body);
    }
    ChangesStep(pid + sized, 6, sized, |cs|, body);
    EachRoundTrip(cs, rest);
  }

  lemma TwoBytes(n: nat)
    requires n < 0x1_0000
    ensures EncodeInt(n, 2) == [n / 0x100, n % 0x100]
  {
    assert EncodeInt(n, 2) == EncodeInt(n / 0x100, 1) + [n % 0x100];
    OneByte(n / 0x100);
  }

  lemma FourBytes(n: nat)
    requires n < 0x1_0000_0000
    ensures EncodeInt(n, 4) == [n / 0x100_0000, n / 0x1_0000 % 0x100, n / 0x100 % 0x100, n % 0x100]
  {
    assert EncodeInt(n, 4) == EncodeInt(n / 0x100, 3) + [n % 0x100];
    assert EncodeInt(n / 0x100, 3) == EncodeInt(n / 0x1_0000, 2) + [n / 0x100 % 0x100];
    TwoBytes(n / 0x1_0000);
  }

  /** A broadcast is the byte 6, the number of changes in four bytes, then the changes. */
  lemma ChangesLayout(cs: seq<Change>)
    requires |cs| < 0x1_0000_0000
    ensures
      var b, n := EncodeChanges(cs), |cs|;
      && |b| >= 5 && b[0] == 6
      && b[1] == n / 0x100_0000 && b[2] == n / 0x1_0000 % 0x100 && b[3] == n / 0x100 % 0x100 && b[4] == n % 0x100
      && b[5..] == EncodeEach(cs)
      && (cs != [] ==> b[5..] == EncodeChange(cs[0]) + EncodeEach(cs[1..]))
  {
    hide EncodeChange, EncodeInt;
    FourBytes(|cs|);
    OneByte(6);
    var size, each := EncodeInt(|cs|, 4), EncodeEach(cs);
    assert EncodeChanges(cs) == [6] + size + each;
  }

  // ---- The transfer negotiation (pid 5 and its reply) ----

  function EncodeRequest(c: Change, negotiationPort: nat): Bytes {
    EncodeInt(5, U8) + (EncodeChange(c) + EncodeInt(negotiationPort, U16))
  }

  function DecodeRequest(b: Bytes): Parsed<(Change, nat)> {
    match DecodeInt(b, U8)
    case None => None
    case Some((_, afterPid)) => DecodeChangeAndPort(afterPid)
  }

  function DecodeChangeAndPort(b: Bytes): Parsed<(Change, nat)> {
    match DecodeChange(b)
    case None => None
    case Some((c, afterChange)) =>
      match DecodeInt(afterChange, U16)
      case None => None
      case Some((port, rest)) => Some(((c, port), rest))
  }

  function EncodeReply(abandon: bool, c: Change, tcpPort: nat): Bytes {
    EncodeInt(if abandon then 1 else 0, U8) + (EncodeChange(c) + EncodeInt(tcpPort, U16))
  }

  function DecodeReply(b: Bytes): Parsed<(bool, Change, nat)> {
    match DecodeInt(b, U8)
    case None => None
    case Some((flag, rest)) =>
      match DecodeChangeAndPort(rest)
      case None => None
      case Some(((c, port), left)) => Some(((flag != 0, c, port), left))
  }

  lemma {:induction false} ChangeAndPortRoundTrip(c: Change, port: nat, rest: Bytes)
    requires Encodable(c) && port < 0x1_0000
    ensures DecodeChangeAndPort(EncodeChange(c) + EncodeInt(port, U16) + rest) == Some(((c, port), rest))
  {
    Limits();
    Regroup(EncodeChange(c), EncodeInt(port, U16), rest);
    ChangeRoundTrip(c, EncodeInt(port, U16) + rest);
    IntRoundTrip(port, U16, rest);
  }

  /** Request and reply both come back as they were sent. */
  lemma NegotiationRoundTrip(c: Change, port: nat, abandon: bool, rest: Bytes)
    requires Encodable(c) && port < 0x1_0000
    ensures DecodeRequest(EncodeRequest(c, port) + rest) == Some(((c, port), rest))
    ensures DecodeReply(EncodeReply(abandon, c, port) + rest) == Some(((abandon, c, port), rest))
  {
    Limits();
    var body, flag := EncodeChange(c) + EncodeInt(port, U16), if abandon then 1 else 0;
    ChangeAndPortRoundTrip(c, port, rest);
    Regroup(EncodeInt(5, U8), body, rest);
    IntRoundTrip(5, U8, body + rest);
    Regroup(EncodeInt(flag, U8), body, rest);
    IntRoundTrip(flag, U8, body + rest);
  }

  /** Any flag but 0 calls the transfer off. */
  lemma AnyFlag(v: Byte, c: Change, port: nat, rest: Bytes)
    requires Encodable(c) && port < 0x1_0000
    ensures DecodeReply([v] + (EncodeChange(c) + EncodeInt(port, 2) + rest)) == Some(((v != 0, c, port), rest))
  {
    Limits();
    OneByte(v);
    IntRoundTrip(v, U8, EncodeChange(c) + EncodeInt(port, U16) + rest);
    ChangeAndPortRoundTrip(c, port, rest);
  }

  lemma ChangeAndPortLayout(first: Byte, c: Change, port: nat)
    requires Encodable(c) && port < 0x1_0000
    ensures
      var b, n := [first] + (EncodeChange(c) + EncodeInt(port, 2)), 4 * |c.path| + 14;
      |b| == n + 2 && b[1..n] == EncodeChange(c) && b[n] == port / 0x100 && b[n + 1] == port % 0x100
  {
    ChangeLayout(c);
    var change, ports := EncodeChange(c), EncodeInt(port, 2);
    TwoBytes(port);
    assert [first] + (change + ports) == [first] + change + ports;
  }

  /** A request is the byte 5, the change, and the port it is to be answered at; a reply has the flag instead of the 5.
      Ports are two bytes, the more significant one first. */
  lemma NegotiationLayout(c: Change, port: nat, abandon: bool)
    requires Encodable(c) && port < 0x1_0000
    ensures
      var b, n := EncodeRequest(c, port), 4 * |c.path| + 14;
      |b| == n + 2 && b[0] == 5 && b[1..n] == EncodeChange(c) && b[n] == port / 0x100 && b[n + 1] == port % 0x100
    ensures
      var b, n := EncodeReply(abandon, c, port), 4 * |c.path| + 14;
      && |b| == n + 2 && b[0] == (if abandon then 1 else 0)
      && b[1..n] == EncodeChange(c) && b[n] == port / 0x100 && b[n + 1] == port % 0x100
  {
    hide EncodeChange;
    OneByte(5);
    OneByte(if abandon then 1 else 0);
    ChangeAndPortLayout(5, c, port);
    ChangeAndPortLayout(if abandon then 1 else 0, c, port);
  }

  // ---- File tables (pid 0 and pid 1) ----

  function EncodeEntries(keys: seq<Path>, t: Table): Bytes
    requires forall k | k in keys :: k in t
  {
    if keys == [] then [] else
      (EncodePath(keys[0]) + EncodeInt(t[keys[0]], U64)) + EncodeEntries(keys[1..], t)
  }

  /** The number of entries, as far as 16 bits hold it. */
  function WireCount(t: Table): (n: nat)
    ensures n <= |t.Keys| && n < 0x1_0000 && (n == |t.Keys| <==> |t| < 0x1_0000)
  {
    assert |t.Keys| == |t|;
    |t| % 0x1_0000
  }

  /** All entries follow a 16-bit count of them. */
  function EncodeTable(t: Table): Bytes {
    EncodeInt(WireCount(t), U16) + EncodeEntries(InOrder(t.Keys), t)
  }

  function DecodeEntries(b: Bytes, n: nat, t: Table): Parsed<Table>
    decreases n
  {
    if n == 0 then Some((t, b)) else
      match DecodePath(b)
      case None => None
      case Some((path, afterPath)) =>
        match DecodeInt(afterPath, U64)
        case None => None
        case Some((hash, rest)) => DecodeEntries(rest, n - 1, t[path := hash % 0x1_0000_0000_0000_0000])
  }

  function DecodeTable(b: Bytes, t: Table): Parsed<Table> {
    match DecodeInt(b, U16)
    case None => None
    case Some((n, rest)) => DecodeEntries(rest, n, t)
  }

  function Restricted(t: Table, keys: seq<Path>): Table {
    map k | k in keys && k in t :: t[k]
  }

  /** The entries that survive the 16-bit count: the first ones in key order. */
  function OnTheWire(t: Table): (w: Table)
    ensures forall k | k in w :: k in t && w[k] == t[k]
  {
    Restricted(t, InOrder(t.Keys)[..WireCount(t)])
  }

  /** Splitting a list of distinct keys. */
  lemma AmongTheFirst(keys: seq<Path>, n: nat, i: nat)
    requires n <= |keys| && i < |keys| && forall i, j | 0 <= i < j < |keys| :: keys[i] != keys[j]
    ensures keys[i] in keys[..n] <==> i < n
  {
    if i < n {
      assert keys[..n][i] == keys[i];
    }
  }

  lemma OnTheWireAt(t: Table, i: nat)
    requires i < |InOrder(t.Keys)|
    ensures InOrder(t.Keys)[i] in OnTheWire(t) <==> i < WireCount(t)
  {
    AmongTheFirst(InOrder(t.Keys), WireCount(t), i);
    assert InOrder(t.Keys)[i] in t;
  }

  /** Every key that is cut off comes after all that are sent. */
  lemma {:induction false} FirstOnTheWire(t: Table, k: Path, l: Path)
    requires k in OnTheWire(t) && l in t && l !in OnTheWire(t)
    ensures Before(k, l)
  {
    var keys := InOrder(t.Keys);
    var i :| 0 <= i < |keys| && keys[i] == k;
    var j :| 0 <= j < |keys| && keys[j] == l;
    OnTheWireAt(t, i);
    OnTheWireAt(t, j);
    InOrderIsSorted(t.Keys);
  }

  lemma EntriesStep(b: Bytes, n: nat, k: Path, afterPath: Bytes, h: Hash, tail: Bytes, into: Table)
    requires DecodePath(b) == Some((k, afterPath)) && DecodeInt(afterPath, U64) == Some((h, tail))
    ensures DecodeEntries(b, n + 1, into) == DecodeEntries(tail, n, into[k := h])
  {
  }

  /** One entry in front of anything else. */
  lemma OneEntry(k: Path, h: Hash, n: nat, into: Table, tail: Bytes)
    requires |k| < 0x1_0000_0000
    ensures DecodeEntries((EncodePath(k) + EncodeInt(h, U64)) + tail, n + 1, into)
         == DecodeEntries(tail, n, into[k := h])
  {
    var path, hash := EncodePath(k), EncodeInt(h, U64);
    Regroup(path, hash, tail);
    PathRoundTrip(k, hash + tail);
    assert DecodeInt(hash + tail, U64) == Some((h, tail)) by {
      Limits();
      IntRoundTrip(h, U64, tail);
    }
    EntriesStep(path + (hash + tail), n, k, hash + tail, h, tail, into);
  }

  ghost predicate Entries(keys: seq<Path>, t: Table) {
    && (forall k | k in keys :: k in t && |k| < 0x1_0000_0000)
    && forall i, j | 0 <= i < j < |keys| :: keys[i] != keys[j]
  }

  lemma OneEntryLess(keys: seq<Path>, t: Table)
    requires keys != [] && Entries(keys, t)
    ensures Entries(keys[1..], t) && keys[0] in t && |keys[0]| < 0x1_0000_0000
  {
  }

  lemma RestrictedStep(keys: seq<Path>, n: nat, t: Table, into: Table)
    requires 0 < n <= |keys| && Entries(keys, t)
    ensures keys[0] in t && keys[1..][n - 1..] == keys[n..]
    ensures into[keys[0] := t[keys[0]]] + Restricted(t, keys[1..][..n - 1]) == into + Restricted(t, keys[..n])
  {
    assert keys[..n] == [keys[0]] + keys[1..][..n - 1];
  }

  lemma NoEntries(keys: seq<Path>, t: Table, into: Table, b: Bytes)
    ensures DecodeEntries(b, 0, into) == Some((into + Restricted(t, keys[..0]), b)) && keys[0..] == keys
  {
    assert into + Restricted(t, keys[..0]) == into;
  }

  lemma EntriesHead(keys: seq<Path>, t: Table, rest: Bytes)
    requires keys != [] && Entries(keys, t)
    ensures keys[0] in t
    ensures
      var tail := EncodeEntries(keys[1..], t);
      EncodeEntries(keys, t) + rest == (EncodePath(keys[0]) + EncodeInt(t[keys[0]], U64)) + (tail + rest)
  {
    Regroup(EncodePath(keys[0]) + EncodeInt(t[keys[0]], U64), EncodeEntries(keys[1..], t), rest);
  }

  lemma {:induction false} EntriesRoundTrip(keys: seq<Path>, n: nat, t: Table, into: Table, rest: Bytes)
    requires n <= |keys| && Entries(keys, t)
    ensures DecodeEntries(EncodeEntries(keys, t) + rest, n, into)
         == Some((into + Restricted(t, keys[..n]), EncodeEntries(keys[n..], t) + rest))
  {
    hide DecodeEntries, EncodeEntries, Restricted, EncodePath, EncodeInt;
    if n == 0 {
      NoEntries(keys, t, into, EncodeEntries(keys, t) + rest);
    } else {
      OneEntryLess(keys, t);
      EntriesHead(keys, t, rest);
      OneEntry(keys[0], t[keys[0]], n - 1, into, EncodeEntries(keys[1..], t) + rest);
      EntriesRoundTrip(keys[1..], n - 1, t, into[keys[0] := t[keys[0]]], rest);
      RestrictedStep(keys, n, t, into);
    }
  }

  /** The count in front of any bytes. */
  lemma CountRoundTrip(t: Table, into: Table, entries: Bytes)
    ensures DecodeTable(EncodeInt(WireCount(t), U16) + entries, into) == DecodeEntries(entries, WireCount(t), into)
  {
    Limits();
    IntRoundTrip(WireCount(t), U16, entries);
  }

  /** Decoding into a map overrides it by the first entries in key order, as many as 16 bits can count, and leaves the
      other entries unread. */
  lemma {:induction false} TableRoundTrip(t: Table, into: Table, rest: Bytes)
    requires forall k | k in t :: |k| < 0x1_0000_0000
    ensures DecodeTable(EncodeTable(t) + rest, into)
         == Some((into + OnTheWire(t), EncodeEntries(InOrder(t.Keys)[WireCount(t)..], t) + rest))
  {
    var keys := InOrder(t.Keys);
    Regroup(EncodeInt(WireCount(t), U16), EncodeEntries(keys, t), rest);
    CountRoundTrip(t, into, EncodeEntries(keys, t) + rest);
    EntriesRoundTrip(keys, WireCount(t), t, into, rest);
  }

  /** The whole table arrives if and only if it has fewer than 65536 entries. */
  lemma WholeTableIffSmall(t: Table)
    ensures OnTheWire(t) == t <==> |t| < 0x1_0000
  {
    var keys, n := InOrder(t.Keys), WireCount(t);
    if n == |keys| {
      forall k
        ensures Get(OnTheWire(t), k) == Get(t, k)
      {
        if k in t {
          var i :| 0 <= i < |keys| && keys[i] == k;
          OnTheWireAt(t, i);
        }
      }
      SameAnswersSameMap(OnTheWire(t), t);
    } else {
      OnTheWireAt(t, n);
      assert keys[n] in t && keys[n] !in OnTheWire(t);
    }
  }

  /** A table is the number of its entries in two bytes, as far as they hold it, then the entries in key order. */
  lemma TableLayout(t: Table)
    ensures
      var b, keys := EncodeTable(t), InOrder(t.Keys);
      && |b| >= 2 && b[0] == |t| / 0x100 % 0x100 && b[1] == |t| % 0x100
      && b[2..] == EncodeEntries(keys, t)
  {
    hide EncodeEntries, InOrder, EncodeInt;
    CountBytes(|t|);
    TwoBytes(|t| % 0x1_0000);
    var count, entries := EncodeInt(WireCount(t), 2), EncodeEntries(InOrder(t.Keys), t);
    assert |count| == 2 && (count + entries)[2..] == entries;
  }

  lemma CountBytes(n: nat)
    ensures n % 0x1_0000 / 0x100 == n / 0x100 % 0x100 && n % 0x1_0000 % 0x100 == n % 0x100
  {
  }

  /** An entry: the length of the path in four bytes, four for each character, eight for the hash; then the others. */
  lemma EntryLayout(keys: seq<Path>, t: Table)
    requires keys != [] && (forall k | k in keys :: k in t) && |keys[0]| < 0x1_0000_0000
    ensures
      var b, p, n := EncodeEntries(keys, t), keys[0], 4 * |keys[0]|;
      && |b| >= n + 12
      && IntOf(b[..4]) == |p|
      && (forall k | 0 <= k < |p| :: IntOf(b[4 + 4 * k..8 + 4 * k]) == p[k])
      && IntOf(b[4 + n..12 + n]) == t[p]
      && b[12 + n..] == EncodeEntries(keys[1..], t)
  {
    hide EncodeInt, IntOf, EncodeCodes;
    var p := keys[0];
    var c := Change(p, t[p], Addition);
    Parts(c);
    var size, codes, hash := EncodeInt(|p|, U32), EncodeCodes(p), EncodeInt(t[p], U64);
    var b := EncodeEntries(keys, t);
    assert b == size + codes + hash + EncodeEntries(keys[1..], t);
    assert b[..4] == size && b[4 + |codes|..12 + |codes|] == hash;
    forall k | 0 <= k < |p|
      ensures IntOf(b[4 + 4 * k..8 + 4 * k]) == p[k]
    {
      UnitAt(p, k);
      assert b[4 + 4 * k..8 + 4 * k] == codes[4 * k..4 * k + 4];
    }
  }

  // ---- A packet on arrival ----

  /** The packets that carry a table: the announcement of an arrival and the answer to it. */
  function EncodeArrival(t: Table): Bytes {
    EncodeInt(0, U8) + EncodeTable(t)
  }

  function EncodeAnswer(t: Table): Bytes {
    EncodeInt(1, U8) + EncodeTable(t)
  }

  datatype Content =
    | Arrival(table: Table)
    | Answer(table: Table)
    | Request(change: Change, port: nat)
    | News(changes: seq<Change>)
    | Unknown(pid: Byte)

  function TableIn(b: Bytes): Option<Table> {
    match DecodeTable(b, map[]) case None => None case Some((t, _)) => Some(t)
  }

  /** What a node takes a packet for: the first byte decides who reads it, and as what. */
  function Read(b: Bytes): Option<Content> {
    if b == [] then None
    else
      match b[0]
      case 0 => (match TableIn(b[1..]) case None => None case Some(t) => Some(Arrival(t)))
      case 1 => (match TableIn(b[1..]) case None => None case Some(t) => Some(Answer(t)))
      case 5 => (match DecodeRequest(b) case None => None case Some(((c, port), _)) => Some(Request(c, port)))
      case 6 => (match DecodeChanges(b) case None => None case Some((cs, _)) => Some(News(cs)))
      case pid => Some(Unknown(pid))
  }

  lemma TableReadsBack(pid: Byte, t: Table)
    requires forall k | k in t :: |k| < 0x1_0000_0000
    ensures EncodeInt(pid, U8) + EncodeTable(t) == [pid] + EncodeTable(t)
    ensures TableIn(([pid] + EncodeTable(t))[1..]) == Some(OnTheWire(t))
  {
    hide EncodeTable, OnTheWire, EncodeEntries, InOrder;
    OneByte(pid);
    TableRoundTrip(t, map[], []);
    assert EncodeTable(t) + [] == EncodeTable(t) && ([pid] + EncodeTable(t))[1..] == EncodeTable(t);
    assert map[] + OnTheWire(t) == OnTheWire(t);
  }

  /** Each of the four packets is taken for what it is: an arrival by the discoverer, an answer for the mailbox, a
      request for the handler to serve, a broadcast for it to work off; and it says what the sender put in. */
  lemma ReadsBack(t: Table, c: Change, port: nat, cs: seq<Change>)
    requires (forall k | k in t :: |k| < 0x1_0000_0000) && Encodable(c) && port < 0x1_0000
    requires |cs| < 0x1_0000_0000 && forall d | d in cs :: Encodable(d)
    ensures Read(EncodeArrival(t)) == Some(Arrival(OnTheWire(t))) && EncodeArrival(t)[0] == 0
    ensures Read(EncodeAnswer(t)) == Some(Answer(OnTheWire(t))) && EncodeAnswer(t)[0] == 1
    ensures Read(EncodeRequest(c, port)) == Some(Request(c, port)) && EncodeRequest(c, port)[0] == 5
    ensures Read(EncodeChanges(cs)) == Some(News(cs)) && EncodeChanges(cs)[0] == 6
  {
    hide EncodeTable, OnTheWire, TableIn, DecodeRequest, DecodeChanges;
    TableReadsBack(0, t);
    TableReadsBack(1, t);
    RequestReadsBack(c, port);
    BroadcastReadsBack(cs);
  }

  lemma RequestReadsBack(c: Change, port: nat)
    requires Encodable(c) && port < 0x1_0000
    ensures Read(EncodeRequest(c, port)) == Some(Request(c, port)) && EncodeRequest(c, port)[0] == 5
  {
    hide DecodeRequest, EncodeRequest;
    NegotiationLayout(c, port, false);
    NegotiationRoundTrip(c, port, false, []);
    assert EncodeRequest(c, port) + [] == EncodeRequest(c, port);
  }

  lemma BroadcastReadsBack(cs: seq<Change>)
    requires |cs| < 0x1_0000_0000 && forall d | d in cs :: Encodable(d)
    ensures Read(EncodeChanges(cs)) == Some(News(cs)) && EncodeChanges(cs)[0] == 6
  {
    hide DecodeChanges, EncodeChanges;
    ChangesLayout(cs);
    ChangesRoundTrip(cs, []);
    assert EncodeChanges(cs) + [] == EncodeChanges(cs);
  }

  // ---- The program's form ----

  /** The elements already read, in front of those a decoder still finds. */
  function Behind<T>(before: seq<T>, p: Parsed<seq<T>>): Parsed<seq<T>> {
    match p
    case None => None
    case Some((after, rest)) => Some((before + after, rest))
  }

  lemma NothingBefore<T>(p: Parsed<seq<T>>)
    ensures Behind([], p) == p
  {
    if p.Some? {
      assert [] + p.value.0 == p.value.0;
    }
  }

  lemma OneMoreBefore<T>(before: seq<T>, x: T, p: Parsed<seq<T>>)
    ensures Behind(before, Behind([x], p)) == Behind(before + [x], p)
  {
    if p.Some? {
      assert before + ([x] + p.value.0) == before + [x] + p.value.0;
    }
  }

  lemma {:induction false} ListHeader(before: Bytes, cs: seq<Change>)
    ensures before + EncodeInt(6, U8) + EncodeInt(|cs| % 0x1_0000_0000, U32) + EncodeEach(cs[0..])
         == before + EncodeChanges(cs)
  {
    var size := EncodeInt(|cs| % 0x1_0000_0000, U32);
    assert cs[0..] == cs;
    Regroup(before + EncodeInt(6, U8), size, EncodeEach(cs));
    Regroup(before, EncodeInt(6, U8), size + EncodeEach(cs));
  }

  lemma EachLoop(before: Bytes, cs: seq<Change>, i: nat)
    requires i < |cs|
    ensures before + EncodeEach(cs[i..]) == before + EncodeChange(cs[i]) + EncodeEach(cs[i + 1..])
  {
    assert cs[i..][1..] == cs[i + 1..];
    Regroup(before, EncodeChange(cs[i]), EncodeEach(cs[i + 1..]));
  }

  lemma {:induction false} EntriesLoop(before: Bytes, keys: seq<Path>, i: nat, t: Table)
    requires i < |keys| && forall k | k in keys :: k in t
    ensures before + EncodeEntries(keys[i..], t)
         == before + EncodePath(keys[i]) + EncodeInt(t[keys[i]], U64) + EncodeEntries(keys[i + 1..], t)
  {
    assert keys[i..][1..] == keys[i + 1..];
    var path, hash := EncodePath(keys[i]), EncodeInt(t[keys[i]], U64);
    Regroup(before, path, hash);
    Regroup(before, path + hash, EncodeEntries(keys[i + 1..], t));
  }

  /** Appended at the end, consumed from the cursor. */
  class Packet {
    var data: Bytes
    var readPos: nat

    ghost predicate Valid()
      reads this
    {
      readPos <= |data|
    }

    ghost function Unread(): Bytes
      reads this
      requires Valid()
    {
      data[readPos..]
    }

    constructor ()
      ensures Valid() && data == [] && readPos == 0
    {
      data, readPos := [], 0;
    }

    method PutInt(n: nat, width: nat)
      modifies `data
      ensures data == old(data) + EncodeInt(n, width)
    {
      data := data + EncodeInt(n, width);
    }

    method GetInt(width: nat) returns (r: Option<nat>)
      requires Valid()
      modifies `readPos
      ensures Valid()
      ensures DecodeInt(old(Unread()), width) == if r.Some? then Some((r.value, Unread())) else None
    {
      if |data| - readPos < width {
        return None;
      }
      r := Some(IntOf(data[readPos..readPos + width]));
      assert data[readPos..][..width] == data[readPos..readPos + width];
      assert data[readPos..][width..] == data[readPos + width..];
      readPos := readPos + width;
    }

    method PutPath(s: Path)
      requires |s| < 0x1_0000_0000
      modifies `data
      ensures data == old(data) + EncodePath(s)
    {
      PutInt(|s|, U32);
      Regroup(old(data), EncodeInt(|s|, U32), EncodeCodes(s));
      assert s[0..] == s;
      for i := 0 to |s|
        invariant data + EncodeCodes(s[i..]) == old(data) + EncodePath(s)
      {
        Regroup(data, EncodeInt(s[i], U32), EncodeCodes(s[i + 1..]));
        assert s[i..][1..] == s[i + 1..];
        PutInt(s[i], U32);
      }
    }

    method GetPath() returns (r: Option<Path>)
      requires Valid()
      modifies `readPos
      ensures Valid()
      ensures DecodePath(old(Unread())) == if r.Some? then Some((r.value, Unread())) else None
    {
      var length := GetInt(U32);
      if length.None? {
        return None;
      }
      var s: Path := [];
      ghost var start := Unread();
      NothingBefore(DecodeCodes(start, length.value));
      for i := 0 to length.value
        invariant Valid()
        invariant DecodeCodes(start, length.value)
               == Behind(s, DecodeCodes(Unread(), length.value - i))
      {
        var c := GetInt(U32);
        if c.None? {
          return None;
        }
        OneMoreBefore(s, c.value % 0x1_0000, DecodeCodes(Unread(), length.value - i - 1));
        s := s + [c.value % 0x1_0000];
      }
      assert s + [] == s;
      r := Some(s);
    }

    method PutChange(c: Change)
      requires Encodable(c)
      modifies `data
      ensures data == old(data) + EncodeChange(c)
    {
      PutPath(c.path);
      PutInt(c.hash, U64);
      PutInt(KindCode(c.kind), U8);
    }

    method GetChange() returns (r: Option<Change>)
      requires Valid()
      modifies `readPos
      ensures Valid()
      ensures DecodeChange(old(Unread())) == if r.Some? then Some((r.value, Unread())) else None
    {
      var path := GetPath();
      if path.None? { return None; }
      var hash := GetInt(U64);
      if hash.None? { return None; }
      var kind := GetInt(U8);
      if kind.None? { return None; }
      r := Some(Change(path.value, hash.value % 0x1_0000_0000_0000_0000, KindOf(kind.value)));
    }

    /** pid, count, then the changes one by one. */
    method PutChanges(cs: seq<Change>)
      requires forall c | c in cs :: Encodable(c)
      modifies `data
      ensures data == old(data) + EncodeChanges(cs)
    {
      PutInt(6, U8);
      PutInt(|cs| % 0x1_0000_0000, U32);
      ListHeader(old(data), cs);
      for i := 0 to |cs|
        invariant data + EncodeEach(cs[i..]) == old(data) + EncodeChanges(cs)
      {
        EachLoop(data, cs, i);
        PutChange(cs[i]);
      }
    }

    method GetChanges() returns (r: Option<seq<Change>>)
      requires Valid()
      modifies `readPos
      ensures Valid()
      ensures DecodeChanges(old(Unread())) == if r.Some? then Some((r.value, Unread())) else None
    {
      var pid := GetInt(U8);
      if pid.None? { return None; }
      var size := GetInt(U32);
      if size.None? { return None; }
      var cs: seq<Change> := [];
      ghost var start := Unread();
      NothingBefore(DecodeEach(start, size.value));
      for i := 0 to size.value
        invariant Valid()
        invariant DecodeEach(start, size.value)
               == Behind(cs, DecodeEach(Unread(), size.value - i))
      {
        var c := GetChange();
        if c.None? { return None; }
        OneMoreBefore(cs, c.value, DecodeEach(Unread(), size.value - i - 1));
        cs := cs + [c.value];
      }
      assert cs + [] == cs;
      r := Some(cs);
    }

    /** The entries one by one, in the order given. */
    method PutEntries(keys: seq<Path>, t: Table)
      requires forall k | k in keys :: k in t && |k| < 0x1_0000_0000
      modifies `data
      ensures data == old(data) + EncodeEntries(keys, t)
    {
      assert keys[0..] == keys;
      for i := 0 to |keys|
        invariant data + EncodeEntries(keys[i..], t) == old(data) + EncodeEntries(keys, t)
      {
        EntriesLoop(data, keys, i, t);
        PutPath(keys[i]);
        PutInt(t[keys[i]], U64);
      }
    }

    method PutTable(t: Table)
      requires forall k | k in t :: |k| < 0x1_0000_0000
      modifies `data
      ensures data == old(data) + EncodeTable(t)
    {
      PutInt(WireCount(t), U16);
      PutEntries(InOrder(t.Keys), t);
      Regroup(old(data), EncodeInt(WireCount(t), U16), EncodeEntries(InOrder(t.Keys), t));
    }

    /** The entries read go into the map that is passed in. */
    method GetTable(into: Table) returns (r: Option<Table>)
      requires Valid()
      modifies `readPos
      ensures Valid()
      ensures DecodeTable(old(Unread()), into) == if r.Some? then Some((r.value, Unread())) else None
    {
      var size := GetInt(U16);
      if size.None? { return None; }
      var t: Table := into;
      ghost var start := Unread();
      for i := 0 to size.value
        invariant Valid()
        invariant DecodeEntries(start, size.value, into) == DecodeEntries(Unread(), size.value - i, t)
      {
        var path := GetPath();
        if path.None? { return None; }
        var hash := GetInt(U64);
        if hash.None? { return None; }
        t := t[path.value := hash.value % 0x1_0000_0000_0000_0000];
      }
      r := Some(t);
    }
  }
}

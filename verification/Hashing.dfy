/** `getFileHash`: file size, path characters and file characters folded into one unsigned 64-bit number.

    The size and the characters a text-mode read yields are two separate inputs. Characters are signed 8-bit, sums wrap
    at 2^64 and are then reduced; the multiplier is the loop index, which cycles through 0..9. */
module Hashing {
  import opened Base

  const WRAP: nat := 0x1_0000_0000_0000_0000
  const MOD_BASE: nat := WRAP - 1001
  /** The number of listed multipliers; the index is reset after it has reached this value. */
  const LISTED: nat := 9

  type Text = seq<Byte>

  /** The value of a byte held in a signed `char`: two's complement. */
  function Signed(b: Byte): (v: int)
    ensures -128 <= v <= 127 && v % 256 == b
  {
    if b < 128 then b else b - 256
  }

  /** One addition in unsigned 64-bit arithmetic, then the reduction. */
  function AddReduced(hash: Hash, x: int): Hash {
    (hash + x) % WRAP % MOD_BASE
  }

  lemma NothingToReduce(hash: Hash, x: nat)
    requires hash + x < MOD_BASE
    ensures AddReduced(hash, x) == hash + x
  {
  }

  /** What the byte at position `k` contributes. */
  function Weighted(b: Byte, k: nat): int {
    Signed(b) * (k % 10)
  }

  function PathFold(start: Hash, path: Path): Hash {
    if path == [] then start
    else AddReduced(PathFold(start, path[..|path| - 1]), Signed(path[|path| - 1] % 256))
  }

  function TextFold(start: Hash, text: Text): Hash {
    if text == [] then start
    else
      var k := |text| - 1;
      AddReduced(TextFold(start, text[..k]), Weighted(text[k], k))
  }

  function FileHash(size: Hash, path: Path, text: Text): Hash {
    TextFold(PathFold(size, path), text)
  }

  lemma {:induction false} PathFoldStep(start: Hash, path: Path, n: nat)
    requires n < |path|
    ensures PathFold(start, path[..n + 1]) == AddReduced(PathFold(start, path[..n]), Signed(path[n] % 256))
  {
    assert path[..n + 1][..n] == path[..n];
  }

  lemma {:induction false} TextFoldStep(start: Hash, text: Text, k: nat)
    requires k < |text|
    ensures TextFold(start, text[..k + 1]) == AddReduced(TextFold(start, text[..k]), Signed(text[k]) * (k % 10))
  {
    assert text[..k + 1][..k] == text[..k];
  }

  lemma NextIndex(k: nat)
    ensures (if k % 10 == LISTED then 0 else k % 10 + 1) == (k + 1) % 10
  {
  }

  method HashPath(size: Hash, path: Path) returns (hash: Hash)
    ensures hash == PathFold(size, path)
  {
    hash := size;
    for n := 0 to |path|
      invariant hash == PathFold(size, path[..n])
    {
      PathFoldStep(size, path, n);
      hash := AddReduced(hash, Signed(path[n] % 256));
    }
    assert path[..|path|] == path;
  }

  /** The content loop, with the cycling index as it is written. */
  method HashText(start: Hash, text: Text) returns (hash: Hash)
    ensures hash == TextFold(start, text)
  {
    hash := start;
    var i := 0;
    for k := 0 to |text|
      invariant i == k % 10
      invariant hash == TextFold(start, text[..k])
    {
      TextFoldStep(start, text, k);
      NextIndex(k);
      hash := AddReduced(hash, Signed(text[k]) * i);
      i := if i == LISTED then 0 else i + 1;
    }
    assert text[..|text|] == text;
  }

  /** The size, then the path, then the content. */
  method GetFileHash(size: Hash, path: Path, text: Text) returns (hash: Hash)
    ensures hash == FileHash(size, path, text)
  {
    hash := HashPath(size, path);
    hash := HashText(hash, text);
  }

  // ---- For all inputs, wrap-around included ----

  /** What a byte can add in one step of either loop. */
  lemma StepRange(b: Byte, k: nat)
    ensures -1152 <= Weighted(b, k) <= 1143 && -128 <= Signed(b) <= 127
  {
    var i := k % 10;
    assert -128 * i <= Signed(b) * i <= 127 * i;
  }

  /** One addition to a reduced hash, with every way it can wrap at 2^64 and be reduced; the two ends differ by 1001. */
  function Wrapped(hash: Hash, x: int): int {
    if hash + x >= WRAP then hash + x - WRAP
    else if hash + x >= MOD_BASE then hash + x - MOD_BASE
    else if hash + x >= 0 then hash + x
    else if hash + x >= -1001 then hash + x + 1001
    else hash + x + WRAP
  }

  lemma AddedIsWrapped(hash: Hash, x: int)
    requires hash < MOD_BASE && -1152 <= x <= 1152
    ensures AddReduced(hash, x) == Wrapped(hash, x)
  {
    var sum := hash + x;
    assert sum % WRAP == if sum >= WRAP then sum - WRAP else if sum >= 0 then sum else sum + WRAP;
  }

  lemma SignedIs(b: Byte, v: int)
    requires -128 <= v <= 127 && v % 256 == b
    ensures Signed(b) == v
  {
  }

  /** Each step of the two loops takes a reduced hash through exactly these cases; what a character adds is the one
      number from -128 to 127 that is the character mod 256. */
  lemma {:induction false} StepCases(start: Hash, path: Path, text: Text, n: nat, k: nat, c: int, v: int)
    requires start < 0xFFFF_FFFF_FFFF_FC17 && n < |path| && k < |text|
    requires -128 <= c <= 127 && c % 256 == path[n] % 256
    requires -128 <= v <= 127 && v % 256 == text[k]
    ensures PathFold(start, path[..n + 1]) == Wrapped(PathFold(start, path[..n]), c)
    ensures TextFold(start, text[..k + 1]) == Wrapped(TextFold(start, text[..k]), v * (k % 10))
  {
    SignedIs(path[n] % 256, c);
    SignedIs(text[k], v);
    StepRange(path[n] % 256, n);
    StepRange(text[k], k);
    PathFoldStep(start, path, n);
    TextFoldStep(start, text, k);
    AddedIsWrapped(PathFold(start, path[..n]), c);
    AddedIsWrapped(TextFold(start, text[..k]), v * (k % 10));
  }

  lemma FoldsBegin(start: Hash, path: Path, text: Text)
    ensures PathFold(start, path[..0]) == start && TextFold(start, text[..0]) == start
  {
  }

  /** A character above 127 subtracts: the file of bytes 0 and 0xE9 at path \a. */
  lemma {:induction false} HighByteSubtracts(path: Path, text: Text)
    requires path == [92, 97] && text == [0, 0xE9]
    ensures FileHash(2, path, text) == 168
  {
    hide PathFold, TextFold;
    FoldsBegin(2, path, text);
    StepCases(2, path, text, 0, 0, 92, 0);
    StepCases(2, path, text, 1, 0, 97, 0);
    assert path[..2] == path && PathFold(2, path) == 191;
    FoldsBegin(191, path, text);
    StepCases(191, path, text, 0, 0, 92, 0);
    StepCases(191, path, text, 0, 1, 92, -23);
    assert text[..2] == text;
  }

  /** Once anything has been folded the hash is below the modulus. */
  lemma BelowModulus(size: Hash, path: Path, text: Text)
    ensures path != [] || text != [] || size < MOD_BASE ==> FileHash(size, path, text) < 0xFFFF_FFFF_FFFF_FC17
  {
    if text == [] && path != [] {
      assert PathFold(size, path) < MOD_BASE;
    }
  }

  /** Bytes at positions divisible by ten do not count. */
  lemma {:induction false} EveryTenthByteIsIgnored(start: Hash, a: Text, b: Text)
    requires |a| == |b| && forall k | 0 <= k < |a| && k % 10 != 0 :: a[k] == b[k]
    ensures TextFold(start, a) == TextFold(start, b)
  {
    if a != [] {
      var k := |a| - 1;
      EveryTenthByteIsIgnored(start, a[..k], b[..k]);
      assert Weighted(a[k], k) == Weighted(b[k], k);
    }
  }

  /** Two files that differ only there, under one path and of one size, have one hash. */
  lemma InvisibleEdit(size: Hash, path: Path, a: Text, b: Text)
    requires |a| == |b| && forall k | 0 <= k < |a| && k % 10 != 0 :: a[k] == b[k]
    ensures FileHash(size, path, a) == FileHash(size, path, b)
  {
    EveryTenthByteIsIgnored(PathFold(size, path), a, b);
  }

  // ---- The range in which nothing wraps ----

  function PathSum(path: Path): nat {
    if path == [] then 0 else PathSum(path[..|path| - 1]) + path[|path| - 1]
  }

  function WeightOf(b: Byte, k: nat): (w: nat)
    ensures b < 128 ==> w == Weighted(b, k) && w <= 1143
  {
    assert b < 128 ==> b * (k % 10) <= 127 * (k % 10);
    b * (k % 10)
  }

  function TextSum(text: Text): nat {
    if text == [] then 0 else TextSum(text[..|text| - 1]) + WeightOf(text[|text| - 1], |text| - 1)
  }

  predicate SevenBit(s: seq<int>) {
    forall k | 0 <= k < |s| :: 0 <= s[k] < 128
  }

  lemma SmallCode(c: Code)
    requires c < 128
    ensures Signed(c % 256) == c
  {
  }

  lemma {:induction false} PathClosedForm(start: Hash, path: Path)
    requires SevenBit(path) && start + PathSum(path) < MOD_BASE
    ensures PathFold(start, path) == start + PathSum(path)
  {
    if path != [] {
      PathClosedForm(start, path[..|path| - 1]);
      SmallCode(path[|path| - 1]);
      NothingToReduce(start + PathSum(path[..|path| - 1]), path[|path| - 1]);
    }
  }

  lemma {:induction false} TextClosedForm(start: Hash, text: Text)
    requires SevenBit(text) && start + TextSum(text) < MOD_BASE
    ensures TextFold(start, text) == start + TextSum(text)
  {
    if text != [] {
      var k := |text| - 1;
      TextClosedForm(start, text[..k]);
      NothingToReduce(start + TextSum(text[..k]), WeightOf(text[k], k));
    }
  }

  function ClosedForm(size: Hash, path: Path, text: Text): nat {
    size + PathSum(path) + TextSum(text)
  }

  /** For seven-bit characters the hash is the plain weighted sum if and only if that sum is below the modulus. */
  lemma ClosedFormIff(size: Hash, path: Path, text: Text)
    requires SevenBit(path) && SevenBit(text) && path != []
    ensures FileHash(size, path, text) == ClosedForm(size, path, text)
       <==> ClosedForm(size, path, text) < MOD_BASE
  {
    BelowModulus(size, path, text);
    if ClosedForm(size, path, text) < MOD_BASE {
      PathClosedForm(size, path);
      TextClosedForm(size + PathSum(path), text);
    }
  }

  lemma {:induction false} SumBounds(path: Path, text: Text)
    requires SevenBit(path) && SevenBit(text)
    ensures PathSum(path) <= 127 * |path| && TextSum(text) <= 1143 * |text|
    decreases |path| + |text|
  {
    if path != [] {
      SumBounds(path[..|path| - 1], text);
    } else if text != [] {
      SumBounds(path, text[..|text| - 1]);
    }
  }

  /** A bound a caller can check: every file of practical size is in the closed-form range. */
  lemma PracticalSizes(size: Hash, path: Path, text: Text)
    requires SevenBit(path) && SevenBit(text) && |text| <= size
    requires 1144 * size + 127 * |path| < MOD_BASE
    ensures FileHash(size, path, text) == ClosedForm(size, path, text)
  {
    SumBounds(path, text);
    PathClosedForm(size, path);
    TextClosedForm(size + PathSum(path), text);
  }

  lemma {:induction false} PathSumOfConcat(a: Path, b: Path)
    ensures PathSum(a + b) == PathSum(a) + PathSum(b)
  {
    if b == [] {
      assert a + b == a;
    } else {
      assert (a + b)[..|a + b| - 1] == a + b[..|b| - 1];
      PathSumOfConcat(a, b[..|b| - 1]);
    }
  }

  lemma {:induction false} PathSumOfPermutation(a: Path, b: Path)
    requires multiset(a) == multiset(b)
    ensures PathSum(a) == PathSum(b)
    decreases |a|
  {
    if a == [] {
      assert |multiset(b)| == |b|;
    } else {
      var init, c := a[..|a| - 1], a[|a| - 1];
      assert a == init + [c];
      assert c in multiset(b);
      var j :| 0 <= j < |b| && b[j] == c;
      assert b == b[..j] + ([c] + b[j + 1..]);
      assert multiset(init) == multiset(a) - multiset{c};
      assert multiset(b[..j] + b[j + 1..]) == multiset(b) - multiset{c};
      PathSumOfPermutation(init, b[..j] + b[j + 1..]);
      PathSumOfConcat(b[..j], b[j + 1..]);
      PathSumOfConcat(b[..j], [c] + b[j + 1..]);
      PathSumOfConcat([c], b[j + 1..]);
      assert [c][..0] == [];
    }
  }

  /** Where nothing wraps, the order of the path's characters is lost. */
  lemma PathOrderIsLost(size: Hash, a: Path, b: Path, text: Text)
    requires SevenBit(a) && SevenBit(b) && SevenBit(text) && multiset(a) == multiset(b)
    requires ClosedForm(size, a, text) < MOD_BASE
    ensures FileHash(size, a, text) == FileHash(size, b, text)
  {
    PathSumOfPermutation(a, b);
    PathClosedForm(size, a);
    PathClosedForm(size, b);
  }

  // ---- The receiver's skip test ----

  /** A stored file: its size in bytes and the characters a text-mode read of it yields. */
  datatype Stored = Stored(size: Hash, text: Text)

  /** The hash a watcher announces: `folder` is the shared folder relative to Documents, `path` starts with
      a separator. */
  function Announced(folder: Path, path: Path, f: Stored): Hash {
    FileHash(f.size, folder + path, f.text)
  }

  /** The hash the receiver recomputes, with one separator too many. */
  function Recomputed(folder: Path, path: Path, f: Stored): Hash {
    FileHash(f.size, folder + [SEPARATOR] + path, f.text)
  }

  lemma HashesInRange(folder: Path, path: Path, f: Stored)
    requires SevenBit(folder) && SevenBit(path) && SevenBit(f.text)
    ensures ClosedForm(f.size, folder + path, f.text) < MOD_BASE ==>
              Announced(folder, path, f) == ClosedForm(f.size, folder + path, f.text)
    ensures ClosedForm(f.size, folder + path, f.text) + 92 < MOD_BASE ==>
              Recomputed(folder, path, f) == ClosedForm(f.size, folder + path, f.text) + 92
  {
    var longer := folder + [SEPARATOR] + path;
    assert PathSum(longer) == PathSum(folder + path) + SEPARATOR by {
      PathSumOfConcat(folder, path);
      PathSumOfConcat(folder + [SEPARATOR], path);
      PathSumOfConcat(folder, [SEPARATOR]);
      assert [SEPARATOR][..0] == [];
    }
    if ClosedForm(f.size, folder + path, f.text) < MOD_BASE {
      PathClosedForm(f.size, folder + path);
      TextClosedForm(f.size + PathSum(folder + path), f.text);
    }
    if ClosedForm(f.size, longer, f.text) < MOD_BASE {
      PathClosedForm(f.size, longer);
      TextClosedForm(f.size + PathSum(longer), f.text);
    }
  }

  /** In the closed-form range the skip test asks whether two weights are exactly one separator apart, so it
      never fires on the very file that was announced. */
  lemma SkipTestMeaning(folder: Path, path: Path, mine: Stored, theirs: Stored)
    requires SevenBit(folder) && SevenBit(path) && SevenBit(mine.text) && SevenBit(theirs.text)
    requires ClosedForm(mine.size, folder + path, mine.text) + 92 < MOD_BASE
    requires ClosedForm(theirs.size, folder + path, theirs.text) < MOD_BASE
    ensures Recomputed(folder, path, mine) == Announced(folder, path, theirs)
       <==> mine.size + TextSum(mine.text) + 92 == theirs.size + TextSum(theirs.text)
    ensures mine == theirs ==> Recomputed(folder, path, mine) != Announced(folder, path, theirs)
  {
    HashesInRange(folder, path, mine);
    HashesInRange(folder, path, theirs);
  }

  // ---- Outside that range too, the announced file is never recognised ----

  predicate Multiple(a: int) {
    a % MOD_BASE == 0
  }

  lemma MultipleSum(a: int, b: int, c: int)
    requires Multiple(a) && Multiple(b) && Multiple(c)
    ensures Multiple(a + b - c)
  {
    var i, j, k := a / MOD_BASE, b / MOD_BASE, c / MOD_BASE;
    assert a + b - c == MOD_BASE * (i + j - k);
  }

  /** By how many multiples of 1001 wrapping at 2^64 moves the sum. */
  function Carry(hash: Hash, x: int): int {
    if hash + x >= WRAP then -1 else if hash + x < 0 then 1 else 0
  }

  lemma WrapOnce(sum: int)
    requires 0 <= sum + WRAP && sum < 2 * WRAP
    ensures sum % WRAP == if sum >= WRAP then sum - WRAP else if sum >= 0 then sum else sum + WRAP
  {
  }

  lemma ReducedIs(wrapped: nat, carry: int, sum: int)
    requires wrapped == sum + WRAP * carry
    ensures Multiple(wrapped % MOD_BASE - (sum + 1001 * carry))
  {
    var q := wrapped / MOD_BASE;
    assert wrapped % MOD_BASE == wrapped - MOD_BASE * q;
    assert wrapped % MOD_BASE - (sum + 1001 * carry) == MOD_BASE * (carry - q);
  }

  lemma CarryMeaning(hash: Hash, x: int)
    requires -1152 <= x <= 1152
    ensures Multiple(AddReduced(hash, x) - (hash + x + 1001 * Carry(hash, x)))
  {
    hide Multiple;
    WrapOnce(hash + x);
    ReducedIs((hash + x) % WRAP, Carry(hash, x), hash + x);
  }

  /** `b` is one separator ahead of `a`, but for `j` times 1001. */
  predicate OneAhead(a: Hash, b: Hash, j: int) {
    Multiple(b - a - SEPARATOR - 1001 * j)
  }

  lemma StepStaysAhead(a: Hash, b: Hash, j: int, x: int) returns (j': int)
    requires OneAhead(a, b, j) && -1152 <= x <= 1152
    ensures OneAhead(AddReduced(a, x), AddReduced(b, x), j') && j - 2 <= j' <= j + 2
  {
    CarryMeaning(a, x);
    CarryMeaning(b, x);
    j' := j + Carry(b, x) - Carry(a, x);
    var fromA := AddReduced(a, x) - (a + x + 1001 * Carry(a, x));
    var fromB := AddReduced(b, x) - (b + x + 1001 * Carry(b, x));
    MultipleSum(b - a - SEPARATOR - 1001 * j, fromB, fromA);
  }

  lemma {:induction false} PathStaysAhead(a: Hash, b: Hash, j: int, path: Path) returns (j': int)
    requires OneAhead(a, b, j)
    ensures OneAhead(PathFold(a, path), PathFold(b, path), j') && j - 2 * |path| <= j' <= j + 2 * |path|
  {
    if path == [] {
      j' := j;
    } else {
      j' := PathStaysAhead(a, b, j, path[..|path| - 1]);
      StepRange(path[|path| - 1] % 256, 0);
      j' := StepStaysAhead(PathFold(a, path[..|path| - 1]), PathFold(b, path[..|path| - 1]), j',
                           Signed(path[|path| - 1] % 256));
    }
  }

  lemma {:induction false} TextStaysAhead(a: Hash, b: Hash, j: int, text: Text) returns (j': int)
    requires OneAhead(a, b, j)
    ensures OneAhead(TextFold(a, text), TextFold(b, text), j') && j - 2 * |text| <= j' <= j + 2 * |text|
  {
    if text == [] {
      j' := j;
    } else {
      var k := |text| - 1;
      j' := TextStaysAhead(a, b, j, text[..k]);
      StepRange(text[k], k);
      j' := StepStaysAhead(TextFold(a, text[..k]), TextFold(b, text[..k]), j', Weighted(text[k], k));
    }
  }

  lemma {:induction false} PathFoldOfConcat(start: Hash, a: Path, b: Path)
    ensures PathFold(start, a + b) == PathFold(PathFold(start, a), b)
  {
    if b == [] {
      assert a + b == a;
    } else {
      assert (a + b)[..|a + b| - 1] == a + b[..|b| - 1];
      PathFoldOfConcat(start, a, b[..|b| - 1]);
    }
  }

  lemma AheadIsDifferent(a: Hash, b: Hash, j: int)
    requires OneAhead(a, b, j) && -0x20_0000_0000_0000 <= j <= 0x20_0000_0000_0000
    ensures a != b
  {
  }

  lemma SeparatorIsAhead(h: Hash) returns (j: int)
    ensures OneAhead(h, PathFold(h, [SEPARATOR]), j) && -1 <= j <= 1
  {
    assert [SEPARATOR][..0] == [];
    CarryMeaning(h, SEPARATOR);
    j := Carry(h, SEPARATOR);
  }

  /** Wrap-around or not, seven-bit or not: for every path and file together shorter than 2^52 characters the hash a
      receiver recomputes differs from the one announced, so its skip test never recognises the announced file. */
  lemma {:induction false} NeverRecognised(folder: Path, path: Path, f: Stored)
    requires |path| + |f.text| < 0x10_0000_0000_0000 - 1
    ensures Recomputed(folder, path, f) != Announced(folder, path, f)
  {
    var h := PathFold(f.size, folder);
    PathFoldOfConcat(f.size, folder, path);
    PathFoldOfConcat(f.size, folder, [SEPARATOR]);
    PathFoldOfConcat(f.size, folder + [SEPARATOR], path);
    var j := SeparatorIsAhead(h);
    var j' := PathStaysAhead(h, PathFold(h, [SEPARATOR]), j, path);
    var a, b := PathFold(f.size, folder + path), PathFold(f.size, folder + [SEPARATOR] + path);
    var j'' := TextStaysAhead(a, b, j', f.text);
    AheadIsDifferent(Announced(folder, path, f), Recomputed(folder, path, f), j'');
  }
}

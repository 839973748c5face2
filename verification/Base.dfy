/** The values every other module speaks about: bytes, paths, hashes, file changes and the
    key order in which a `std::map` is walked. */
module Base {

  datatype Option<+T> = None | Some(value: T)

  type Byte = x: int | 0 <= x < 0x100

  /** One UTF-16 unit of a Windows wide string. */
  type Code = x: int | 0 <= x < 0x1_0000

  type Path = seq<Code>

  /** An unsigned 64-bit file hash. */
  type Hash = x: int | 0 <= x < 0x1_0000_0000_0000_0000

  type Table = map<Path, Hash>

  datatype ChangeType = Addition | Deletion | Edit

  datatype Change = Change(path: Path, hash: Hash, kind: ChangeType)

  const SEPARATOR: Code := 92

  function Get<K, V>(m: map<K, V>, k: K): Option<V> {
    if k in m then Some(m[k]) else None
  }

  /** Two maps with the same answer for every key are the same map. */
  lemma SameAnswersSameMap<K, V>(a: map<K, V>, b: map<K, V>)
    requires forall k :: Get(a, k) == Get(b, k)
    ensures a == b
  {
    forall k
      ensures k in a <==> k in b
      ensures k in a ==> a[k] == b[k]
    {
      assert Get(a, k) == Get(b, k);
    }
  }

  lemma Regroup<T>(a: seq<T>, b: seq<T>, c: seq<T>)
    ensures a + b + c == a + (b + c)
  {
  }

  /** Lexicographic order of wide strings, the order of the map keys. */
  predicate Before(a: Path, b: Path) {
    && b != []
    && (a == [] || a[0] < b[0] || (a[0] == b[0] && Before(a[1..], b[1..])))
  }

  lemma {:induction false} BeforeIsTotal(a: Path, b: Path)
    ensures Before(a, b) || Before(b, a) || a == b
    ensures !(Before(a, b) && Before(b, a)) && !Before(a, a)
  {
    if a != [] && b != [] {
      BeforeIsTotal(a[1..], b[1..]);
      assert a == [a[0]] + a[1..] && b == [b[0]] + b[1..];
    }
    if a != [] {
      BeforeIsTotal(a[1..], a[1..]);
    }
  }

  lemma {:induction false} BeforeIsTransitive(a: Path, b: Path, c: Path)
    requires Before(a, b) && Before(b, c)
    ensures Before(a, c)
  {
    if a != [] && a[0] == b[0] && b[0] == c[0] {
      BeforeIsTransitive(a[1..], b[1..], c[1..]);
    }
  }

  /** Up to position `i` the same; there `a` ends or has the smaller unit. */
  predicate DecidedAt(a: Path, b: Path, i: nat) {
    i <= |a| && i < |b| && a[..i] == b[..i] && (i == |a| || a[i] < b[i])
  }

  lemma DecidedBehind(a: Path, b: Path, i: nat)
    requires a != [] && b != [] && a[0] == b[0]
    ensures DecidedAt(a, b, i + 1) <==> DecidedAt(a[1..], b[1..], i)
  {
    if i < |a| && i < |b| - 1 {
      assert a[..i + 1] == [a[0]] + a[1..][..i] && b[..i + 1] == [b[0]] + b[1..][..i];
      assert a[..i + 1][1..] == a[1..][..i] && b[..i + 1][1..] == b[1..][..i];
    }
  }

  lemma {:induction false} BeforeIsDecided(a: Path, b: Path)
    ensures Before(a, b) <==> exists i: nat :: DecidedAt(a, b, i)
  {
    if a != [] && b != [] && a[0] == b[0] {
      BeforeIsDecided(a[1..], b[1..]);
      forall i: nat
        ensures DecidedAt(a, b, i + 1) <==> DecidedAt(a[1..], b[1..], i)
      {
        DecidedBehind(a, b, i);
      }
      if i: nat :| DecidedAt(a, b, i) {
        assert DecidedAt(a[1..], b[1..], i - 1);
      }
      if i: nat :| DecidedAt(a[1..], b[1..], i) {
        assert DecidedAt(a, b, i + 1);
      }
    } else if a != [] && b != [] {
      assert DecidedAt(a, b, 0) <==> a[0] < b[0];
      forall i: nat | i > 0
        ensures !DecidedAt(a, b, i)
      {
        assert i <= |a| && i < |b| ==> a[..i][0] != b[..i][0];
      }
    } else if b != [] {
      assert DecidedAt(a, b, 0);
    }
  }

  /** At the first difference the smaller unit decides; a proper prefix comes first. */
  lemma BeforeIff(a: Path, b: Path)
    ensures Before(a, b) <==>
              || (|a| < |b| && a == b[..|a|])
              || (exists i :: 0 <= i < |a| && i < |b| && a[..i] == b[..i] && a[i] < b[i])
  {
    BeforeIsDecided(a, b);
    if |a| < |b| && a == b[..|a|] {
      assert a[..|a|] == a && DecidedAt(a, b, |a|);
    }
    if i :| 0 <= i < |a| && i < |b| && a[..i] == b[..i] && a[i] < b[i] {
      assert DecidedAt(a, b, i);
    }
    if i: nat :| DecidedAt(a, b, i) {
      assert i == |a| ==> a[..i] == a;
    }
  }

  predicate IsFirst(m: Path, s: set<Path>) {
    m in s && forall x | x in s && x != m :: Before(m, x)
  }

  lemma {:induction false} FirstExists(s: set<Path>)
    requires s != {}
    ensures exists m :: IsFirst(m, s)
    decreases |s|
  {
    var x :| x in s;
    var rest := s - {x};
    if rest == {} {
      assert s == {x};
      assert IsFirst(x, s);
    } else {
      FirstExists(rest);
      var m :| IsFirst(m, rest);
      BeforeIsTotal(x, m);
      if Before(x, m) {
        forall y | y in s && y != x
          ensures Before(x, y)
        {
          if y != m { BeforeIsTransitive(x, m, y); }
        }
        assert IsFirst(x, s);
      } else {
        assert IsFirst(m, s);
      }
    }
  }

  function First(s: set<Path>): (m: Path)
    requires s != {}
    ensures m in s && IsFirst(m, s)
  {
    FirstExists(s);
    assert forall a, b | IsFirst(a, s) && IsFirst(b, s) :: a == b by {
      forall a, b | IsFirst(a, s) && IsFirst(b, s)
        ensures a == b
      {
        BeforeIsTotal(a, b);
      }
    }
    var m :| IsFirst(m, s);
    m
  }

  /** The keys of a map in the order its iterator visits them. */
  function InOrder(s: set<Path>): (keys: seq<Path>)
    ensures |keys| == |s|
    ensures forall k :: k in keys <==> k in s
    ensures forall i, j | 0 <= i < j < |keys| :: keys[i] != keys[j]
  {
    if s == {} then [] else
      var m := First(s);
      [m] + InOrder(s - {m})
  }

  lemma {:induction false} InOrderIsSorted(s: set<Path>)
    ensures forall i, j | 0 <= i < j < |InOrder(s)| :: Before(InOrder(s)[i], InOrder(s)[j])
  {
    if s != {} {
      InOrderIsSorted(s - {First(s)});
    }
  }

  // ---- Runs of a state machine ----

  /** The state after a run, or nothing when the run takes a step that was not enabled. */
  function RunBy<S, E>(step: (S, E) -> Option<S>, s: S, events: seq<E>): Option<S>
    decreases events
  {
    if events == [] then Some(s)
    else
      match step(s, events[0])
      case None => None
      case Some(t) => RunBy(step, t, events[1..])
  }

  lemma {:induction false} RunByConcat<S, E>(step: (S, E) -> Option<S>, s: S, a: seq<E>, b: seq<E>)
    requires RunBy(step, s, a).Some?
    ensures RunBy(step, s, a + b) == RunBy(step, RunBy(step, s, a).value, b)
    decreases a
  {
    if a == [] {
      assert a + b == b;
    } else {
      assert (a + b)[1..] == a[1..] + b;
      RunByConcat(step, step(s, a[0]).value, a[1..], b);
    }
  }
}

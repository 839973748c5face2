/** Every interleaving ends: a measure that each event lowers, and the disks the network settles on. */
module Convergence {
  import opened Base
  import opened DirectoryDiff
  import opened RequestFiles
  import opened Network
  import opened Propagation
  import opened Preservation
  import PacketCodec
  import opened EraseLoop

  // ---- Sums over the nodes ----

  function Sum(ws: seq<int>): int {
    if ws == [] then 0 else Sum(ws[..|ws| - 1]) + ws[|ws| - 1]
  }

  /** Every weight but one moves by `d`. */
  lemma {:induction false} SumShift(ws: seq<int>, vs: seq<int>, n: nat, d: int)
    requires |ws| == |vs| && n < |ws|
    requires forall i | 0 <= i < |ws| && i != n :: vs[i] == ws[i] + d
    ensures Sum(vs) == Sum(ws) - ws[n] + vs[n] + (|ws| - 1) * d
  {
    var last := |ws| - 1;
    if n == last {
      AllShift(ws[..last], vs[..last], d);
    } else {
      SumShift(ws[..last], vs[..last], n, d);
      assert (last - 1) * d + d == last * d;
    }
  }

  lemma {:induction false} AllShift(ws: seq<int>, vs: seq<int>, d: int)
    requires |ws| == |vs| && forall i | 0 <= i < |ws| :: vs[i] == ws[i] + d
    ensures Sum(vs) == Sum(ws) + |ws| * d
  {
    if ws != [] {
      var last := |ws| - 1;
      AllShift(ws[..last], vs[..last], d);
      assert last * d + d == |ws| * d;
    }
  }

  lemma {:induction false} SumAtMostEach(ws: seq<int>, each: int)
    requires forall i | 0 <= i < |ws| :: ws[i] <= each
    ensures Sum(ws) <= |ws| * each
  {
    if ws != [] {
      SumAtMostEach(ws[..|ws| - 1], each);
      assert |ws| * each == (|ws| - 1) * each + each;
    }
  }

  // ---- The measure ----

  ghost function Missing<C>(sc: Scene<C>, i: nat, x: Node<C>): set<Path>
    requires i < |sc.start|
  {
    set p | p in Paths(sc) && !Arrived(sc, i, x, p)
  }

  ghost function Unsnapped<C>(sc: Scene<C>, x: Node<C>): set<Path> {
    set p | p in Paths(sc) && Get(x.snapshot, p) != Get(TableOf(sc.w.rules, x.disk), p)
  }

  /** What is still to be done about one job, opening it included; `bound` is the most a table can ask for. */
  function Work(bound: nat, j: Job): nat {
    if Busy(j) then
      3 * |j.changes| + if j.stage == Open then 1 else if j.stage == Heard && j.changes != [] then -1 else 0
    else
      match j.thread
      case Handler => 3 * |j.changes| + if j.stage == Sent then 3 else 2
      case Manager => 3 * bound + (if j.stage == Sent then 4 else if j.stage == Queued then 3 else 2)
      case Discoverer => 6 * bound + 6
  }

  function InboxWork(bound: nat, js: seq<Job>): nat {
    if js == [] then 0 else InboxWork(bound, js[..|js| - 1]) + Work(bound, js[|js| - 1])
  }

  /** `k` items of weight `c`. */
  function Times(k: nat, c: nat): nat {
    if k == 0 then 0 else Times(k - 1, c) + c
  }

  lemma {:induction false} TimesIs(k: nat, c: nat)
    ensures Times(k, c) == k * c
  {
    if k > 0 {
      TimesIs(k - 1, c);
      assert (k - 1) * c + c == k * c;
    }
  }

  lemma {:induction false} TimesAdd(j: nat, k: nat, c: nat)
    ensures Times(j + k, c) == Times(j, c) + Times(k, c)
  {
    if k > 0 {
      TimesAdd(j, k - 1, c);
    }
  }

  lemma {:induction false} TimesHeavier(k: nat, c: nat)
    ensures Times(k, c + 1) == Times(k, c) + k
  {
    if k > 0 {
      TimesHeavier(k - 1, c);
    }
  }

  lemma {:induction false} TimesMonotone(j: nat, k: nat, c: nat)
    requires j <= k
    ensures Times(j, c) <= Times(k, c)
  {
    TimesAdd(j, k - j, c);
  }

  /** A file still missing weighs more than an unsnapped one, that more than a buffered change, and a buffered change
      as much as all the messages it becomes. */
  function Combined(n: nat, missing: nat, unsnapped: nat, buffered: nat, work: nat): nat {
    Times(missing, 6 * n + 2) + Times(unsnapped, 6 * n + 1) + Times(buffered, 6 * n) + work
  }

  ghost function Weight<C>(sc: Scene<C>, i: nat, x: Node<C>): nat
    requires i < |sc.start|
  {
    Combined(|sc.start|, |Missing(sc, i, x)|, |Unsnapped(sc, x)|, |x.buf|, InboxWork(|Paths(sc)|, x.inbox))
  }

  ghost function Weights<C>(sc: Scene<C>, net: Net<C>): seq<int>
    requires |net| == |sc.start|
  {
    seq(|net|, i requires 0 <= i < |net| => Weight(sc, i, net[i]))
  }

  ghost function Measure<C>(sc: Scene<C>, net: Net<C>): int
    requires |net| == |sc.start|
  {
    Sum(Weights(sc, net))
  }

  lemma {:induction false} InboxWorkMore(bound: nat, js: seq<Job>, j: Job)
    ensures InboxWork(bound, js + [j]) == InboxWork(bound, js) + Work(bound, j)
  {
    assert (js + [j])[..|js|] == js;
  }

  lemma {:induction false} InboxWorkWith(bound: nat, js: seq<Job>, k: nat, j: Job)
    requires k < |js|
    ensures InboxWork(bound, js[k := j]) == InboxWork(bound, js) - Work(bound, js[k]) + Work(bound, j)
  {
    var n := |js| - 1;
    if k == n {
      assert js[k := j][..n] == js[..n];
    } else {
      InboxWorkWith(bound, js[..n], k, j);
      assert js[k := j][..n] == js[..n][k := j];
    }
  }

  lemma {:induction false} InboxWorkWithout(bound: nat, js: seq<Job>, k: nat)
    requires k < |js|
    ensures InboxWork(bound, js[..k] + js[k + 1..]) == InboxWork(bound, js) - Work(bound, js[k])
  {
    hide Work;
    var n := |js| - 1;
    var without := js[..k] + js[k + 1..];
    if k == n {
      assert without == js[..n];
    } else {
      InboxWorkWithout(bound, js[..n], k);
      assert without[..|without| - 1] == js[..n][..k] + js[..n][k + 1..];
    }
  }

  // ---- Steps that only touch inboxes ----

  /** Only the inbox differs. */
  lemma InboxWeight<C>(sc: Scene<C>, i: nat, x: Node<C>, y: Node<C>)
    requires i < |sc.start| && y == x.(inbox := y.inbox)
    ensures Weight(sc, i, y)
         == Weight(sc, i, x) - InboxWork(|Paths(sc)|, x.inbox) + InboxWork(|Paths(sc)|, y.inbox)
  {
    assert Missing(sc, i, y) == Missing(sc, i, x);
    assert Unsnapped(sc, y) == Unsnapped(sc, x);
  }

  lemma WithJobWeight<C>(sc: Scene<C>, i: nat, x: Node<C>, k: nat, j: Job)
    requires i < |sc.start| && k < |x.inbox|
    ensures Weight(sc, i, WithJob(x, k, j))
         == Weight(sc, i, x) - Work(|Paths(sc)|, x.inbox[k]) + Work(|Paths(sc)|, j)
  {
    InboxWeight(sc, i, x, WithJob(x, k, j));
    InboxWorkWith(|Paths(sc)|, x.inbox, k, j);
  }

  lemma WithoutJobWeight<C>(sc: Scene<C>, i: nat, x: Node<C>, k: nat)
    requires i < |sc.start| && k < |x.inbox|
    ensures Weight(sc, i, WithoutJob(x, k)) == Weight(sc, i, x) - Work(|Paths(sc)|, x.inbox[k])
  {
    InboxWeight(sc, i, x, WithoutJob(x, k));
    InboxWorkWithout(|Paths(sc)|, x.inbox, k);
  }

  lemma ReceivesWeight<C>(sc: Scene<C>, i: nat, x: Node<C>, j: Job)
    requires i < |sc.start|
    ensures Weight(sc, i, Receives(x, j)) == Weight(sc, i, x) + Work(|Paths(sc)|, j)
  {
    InboxWeight(sc, i, x, Receives(x, j));
    InboxWorkMore(|Paths(sc)|, x.inbox, j);
  }

  /** One node became lighter. */
  lemma OneLighter<C>(sc: Scene<C>, net: Net<C>, n: nat, y: Node<C>)
    requires |net| == |sc.start| && n < |net| && Weight(sc, n, y) < Weight(sc, n, net[n])
    ensures Measure(sc, net[n := y]) < Measure(sc, net)
  {
    hide Weight;
    SumShift(Weights(sc, net), Weights(sc, net[n := y]), n, 0);
  }

  lemma JobLighter<C>(sc: Scene<C>, net: Net<C>, n: nat, k: nat, j: Job)
    requires |net| == |sc.start| && At(net, n, k)
    requires Work(|Paths(sc)|, j) < Work(|Paths(sc)|, net[n].inbox[k])
    ensures Measure(sc, net[n := WithJob(net[n], k, j)]) < Measure(sc, net)
  {
    hide Weight, Work;
    WithJobWeight(sc, n, net[n], k, j);
    OneLighter(sc, net, n, WithJob(net[n], k, j));
  }

  lemma StageWork<C>(w: World<C>, net: Net<C>, e: Event, bound: nat)
    requires Enabled(w, net, e) && MovesOn(e) && JobShape(|net|, e.n, net[e.n].inbox[e.k])
    ensures
      var j := net[e.n].inbox[e.k];
      Work(bound, j.(stage := StageAfter(e))) < Work(bound, j)
  {
  }

  lemma StageLowers<C>(sc: Scene<C>, net: Net<C>, e: Event)
    requires |net| == |sc.start| && Enabled(sc.w, net, e) && MovesOn(e)
    requires JobShape(|net|, e.n, net[e.n].inbox[e.k])
    ensures Measure(sc, Do(sc.w, net, e)) < Measure(sc, net)
  {
    StageWork(sc.w, net, e, |Paths(sc)|);
    JobLighter(sc, net, e.n, e.k, net[e.n].inbox[e.k].(stage := StageAfter(e)));
  }

  lemma FinishLowers<C>(sc: Scene<C>, net: Net<C>, n: nat, k: nat)
    requires |net| == |sc.start| && Enabled(sc.w, net, Finish(n, k))
    ensures Measure(sc, Do(sc.w, net, Finish(n, k))) < Measure(sc, net)
  {
    hide Weight, Paths;
    WithoutJobWeight(sc, n, net[n], k);
    OneLighter(sc, net, n, WithoutJob(net[n], k));
  }

  /** A table that takes the slot pays for the one it overwrites. */
  lemma ReplacedWeight<C>(sc: Scene<C>, n: nat, x: Node<C>, k: nat, l: nat)
    requires n < |sc.start| && k < |x.inbox| && l < |x.inbox| && k != l
    requires x.inbox[k].thread == x.inbox[l].thread == Manager
    requires x.inbox[k].stage == Queued && x.inbox[l].stage == Posted
    ensures Weight(sc, n, WithoutJob(WithJob(x, l, x.inbox[k].(stage := Posted)), k)) < Weight(sc, n, x)
  {
    hide Weight, Paths;
    WithJobWeight(sc, n, x, l, x.inbox[k].(stage := Posted));
    WithoutJobWeight(sc, n, WithJob(x, l, x.inbox[k].(stage := Posted)), k);
  }

  lemma ReplaceLowers<C>(sc: Scene<C>, net: Net<C>, n: nat, k: nat, l: nat)
    requires |net| == |sc.start| && Enabled(sc.w, net, Replace(n, k, l)) && net[n].inbox[l].thread == Manager
    ensures Measure(sc, Do(sc.w, net, Replace(n, k, l))) < Measure(sc, net)
  {
    hide Weight;
    ReplacedWeight(sc, n, net[n], k, l);
    OneLighter(sc, net, n, WithoutJob(WithJob(net[n], l, net[n].inbox[k].(stage := Posted)), k));
  }

  // ---- Opening a job ----

  lemma {:induction false} UpsertsCount(keys: seq<Path>, host: Table, foreign: Table)
    requires forall k | k in keys :: k in foreign
    ensures |Upserts(keys, host, foreign)| <= |keys|
  {
    if keys != [] {
      UpsertsCount(keys[..|keys| - 1], host, foreign);
    }
  }

  lemma {:induction false} SurvivorsCount(d: seq<Change>, ignoreEdits: bool, n: nat)
    requires n <= |d|
    ensures |Survivors(d, ignoreEdits, n)| <= n
  {
    if n > 0 {
      SurvivorsCount(d, ignoreEdits, n - 1);
    }
  }

  lemma {:induction false} WantedCount(d: seq<Change>, ignoreEdits: bool)
    ensures |Wanted(d, ignoreEdits)| <= |d|
  {
    if d != [] {
      WantedCount(d[..|d| - 1], ignoreEdits);
    }
  }

  /** A table asks for no more than it lists. */
  lemma RequestsCount(literal: bool, host: Table, foreign: Table, ignoreEdits: bool)
    ensures |Requests(literal, host, foreign, ignoreEdits)| <= |foreign.Keys|
  {
    var d := MergeDiff(host, foreign);
    UpsertsCount(InOrder(foreign.Keys), host, foreign);
    SurvivorsCount(d, ignoreEdits, |d|);
    WantedCount(d, ignoreEdits);
  }

  lemma ListedInPaths<C>(sc: Scene<C>, net: Net<C>, n: nat, j: Job)
    requires n < |net| == |sc.start| && j.from < |net| && JobOk(sc, net, n, j) && j.thread != Handler && Unopened(j)
    ensures j.table.Keys <= Paths(sc)
  {
    forall p | p in j.table
      ensures p in Paths(sc)
    {
      if j.thread == Manager {
        assert TellOk(sc, net, n, j.from, p, j.table[p]);
      }
    }
  }

  lemma OpenedWork<C>(sc: Scene<C>, net: Net<C>, n: nat, j: Job)
    requires n < |net| == |sc.start| && j.from < |net| && JobOk(sc, net, n, j) && j.thread != Handler && Unopened(j)
    ensures Work(|Paths(sc)|, Opened(sc.w, net[n], j)) <= 3 * |Paths(sc)| + 1
  {
    ListedInPaths(sc, net, n, j);
    SubsetSize(j.table.Keys, Paths(sc));
    RequestsCount(sc.w.literal, net[n].table, j.table, j.thread == Discoverer);
  }

  /** An answer weighs less than opening the arrival saved. */
  lemma AnsweredLowers<C>(sc: Scene<C>, net: Net<C>, mid: Net<C>, n: nat, f: nat, answer: Job)
    requires |net| == |sc.start| && n < |net| && f < |net| && n != f && |mid| == |net| && mid == net[n := mid[n]]
    requires Weight(sc, n, mid[n]) + Work(|Paths(sc)|, answer) < Weight(sc, n, net[n])
    ensures Measure(sc, mid[f := Receives(mid[f], answer)]) < Measure(sc, net)
  {
    hide Weight, Paths, Work;
    ReceivesWeight(sc, f, mid[f], answer);
    var ws, vs, us := Weights(sc, net), Weights(sc, mid), Weights(sc, mid[f := Receives(mid[f], answer)]);
    SumShift(ws, vs, n, 0);
    SumShift(vs, us, f, 0);
  }

  lemma HelloLowers<C>(sc: Scene<C>, net: Net<C>, n: nat, k: nat, inHand: Job)
    requires |net| == |sc.start| && At(net, n, k) && net[n].inbox[k].thread == Discoverer && Unopened(net[n].inbox[k])
    requires n != net[n].inbox[k].from < |net| && Work(|Paths(sc)|, inHand) <= 3 * |Paths(sc)| + 1
    ensures
      var f, answer := net[n].inbox[k].from, Answer(n, PacketCodec.OnTheWire(net[n].table));
      var mid := net[n := WithJob(net[n], k, inHand)];
      Measure(sc, mid[f := Receives(mid[f], answer)]) < Measure(sc, net)
  {
    hide Weight, PacketCodec.OnTheWire, Paths;
    var f, answer := net[n].inbox[k].from, Answer(n, PacketCodec.OnTheWire(net[n].table));
    WithJobWeight(sc, n, net[n], k, inHand);
    AnsweredLowers(sc, net, net[n := WithJob(net[n], k, inHand)], n, f, answer);
  }

  lemma TakeLowers<C>(sc: Scene<C>, net: Net<C>, n: nat, k: nat)
    requires |net| == |sc.start| && Enabled(sc.w, net, Take(n, k))
    requires net[n].inbox[k].from < |net| && JobOk(sc, net, n, net[n].inbox[k])
    ensures Measure(sc, Do(sc.w, net, Take(n, k))) < Measure(sc, net)
  {
    hide Weight, Paths, PacketCodec.OnTheWire, Measure, JobOk;
    var j, inHand := net[n].inbox[k], Opened(sc.w, net[n], net[n].inbox[k]);
    if j.thread == Handler {
      JobLighter(sc, net, n, k, inHand);
    } else {
      OpenedWork(sc, net, n, j);
      if j.thread == Manager {
        JobLighter(sc, net, n, k, inHand);
      } else {
        HelloLowers(sc, net, n, k, inHand);
      }
    }
  }

  // ---- Scans, flushes, and changes dealt with ----

  /** Nothing outside these paths is ever seen. */
  lemma OutsidePaths<C>(sc: Scene<C>, i: nat, x: Node<C>, p: Path)
    requires i < |sc.start| && PathOk(sc, i, x, p) && p !in Paths(sc)
    ensures Get(x.disk, p) == None && Get(x.snapshot, p) == None
  {
  }

  lemma FoundCount<C>(sc: Scene<C>, i: nat, x: Node<C>)
    requires i < |sc.start| && forall p :: PathOk(sc, i, x, p)
    ensures |Found(sc.w.rules, x)| == |Unsnapped(sc, x)|
  {
    var next := TableOf(sc.w.rules, x.disk);
    forall p | Get(x.snapshot, p) != Get(next, p)
      ensures p in Paths(sc)
    {
      if p !in Paths(sc) {
        OutsidePaths(sc, i, x, p);
      }
    }
    SnapshotDiffDescribes(x.snapshot, next);
    DescribedCount(Found(sc.w.rules, x), x.snapshot, next, Paths(sc));
  }

  lemma ScanTrade(n: nat, m: nat, k: nat, b: nat, w: nat)
    ensures Combined(n, m, 0, b + k, w) == Combined(n, m, k, b, w) - k
  {
    TimesAdd(b, k, 6 * n);
    TimesHeavier(k, 6 * n);
  }

  lemma SameDiskMissing<C>(sc: Scene<C>, i: nat, x: Node<C>, y: Node<C>)
    requires i < |sc.start| && x.disk == y.disk
    ensures Missing(sc, i, y) == Missing(sc, i, x)
  {
  }

  /** One unsnapped path becomes one buffered change. */
  lemma ScanWeight<C>(sc: Scene<C>, i: nat, x: Node<C>, y: Node<C>, found: seq<Change>)
    requires i < |sc.start|
    requires y == x.(snapshot := TableOf(sc.w.rules, x.disk), buf := x.buf + found)
    requires |found| == |Unsnapped(sc, x)|
    ensures Weight(sc, i, y) == Weight(sc, i, x) - |found|
  {
    hide Times, Paths, InboxWork;
    SameDiskMissing(sc, i, x, y);
    assert Unsnapped(sc, y) == {};
    ScanTrade(|sc.start|, |Missing(sc, i, x)|, |found|, |x.buf|, InboxWork(|Paths(sc)|, x.inbox));
  }

  lemma ScanLowers<C>(sc: Scene<C>, net: Net<C>, n: nat)
    requires |net| == |sc.start| && Enabled(sc.w, net, Scan(n)) && forall p :: PathOk(sc, n, net[n], p)
    ensures Measure(sc, Do(sc.w, net, Scan(n))) < Measure(sc, net)
  {
    hide Weight, Paths, PathOk, Unsnapped, SnapshotDiff, TableOf, Measure;
    var y := Scanned(sc.w.rules, net[n]);
    FoundCount(sc, n, net[n]);
    ScanWeight(sc, n, net[n], y, Found(sc.w.rules, net[n]));
    OneLighter(sc, net, n, y);
    assert Do(sc.w, net, Scan(n)) == net[n := y];
  }

  lemma FlushWeight<C>(sc: Scene<C>, i: nat, x: Node<C>)
    requires i < |sc.start|
    ensures Weight(sc, i, Flushed(x)) == Weight(sc, i, x) - Times(|x.buf|, 6 * |sc.start|)
  {
    assert Missing(sc, i, Flushed(x)) == Missing(sc, i, x);
    assert Unsnapped(sc, Flushed(x)) == Unsnapped(sc, x);
  }

  lemma {:induction false} FlushTotal(n: nat, b: nat)
    requires n > 0 && b > 0
    ensures (n - 1) * (3 + 3 * b) < Times(b, 6 * n)
  {
    TimesIs(b, 6 * n);
    assert (n - 1) * (3 + 3 * b) == 3 * (n - 1) + 3 * ((n - 1) * b);
    assert b * (6 * n) == 3 * ((n - 1) * b) + 3 * ((n + 1) * b);
    assert (n + 1) * b >= n + 1;
  }

  lemma {:induction false} FlushSum(ws: seq<int>, vs: seq<int>, n: nat, b: nat)
    requires n < |ws| == |vs| && b > 0
    requires vs[n] == ws[n] - Times(b, 6 * |ws|)
    requires forall i | 0 <= i < |ws| && i != n :: vs[i] == ws[i] + (3 + 3 * b)
    ensures Sum(vs) < Sum(ws)
  {
    SumShift(ws, vs, n, 3 + 3 * b);
    FlushTotal(|ws|, b);
  }

  lemma FlushWeights<C>(sc: Scene<C>, net: Net<C>, n: nat, i: nat)
    requires Enabled(sc.w, net, Flush(n)) && i < |net| == |sc.start|
    ensures i == n ==>
      Weight(sc, i, Do(sc.w, net, Flush(n))[i]) == Weight(sc, i, net[i]) - Times(|net[n].buf|, 6 * |sc.start|)
    ensures i != n ==> Weight(sc, i, Do(sc.w, net, Flush(n))[i]) == Weight(sc, i, net[i]) + (3 + 3 * |net[n].buf|)
  {
    hide Weight, Times, Paths;
    FlushWeight(sc, i, net[i]);
    ReceivesWeight(sc, i, net[i], News(n, net[n].buf));
  }

  lemma FlushLowers<C>(sc: Scene<C>, net: Net<C>, n: nat)
    requires |net| == |sc.start| && Enabled(sc.w, net, Flush(n))
    ensures Measure(sc, Do(sc.w, net, Flush(n))) < Measure(sc, net)
  {
    hide Weight, Paths;
    var ws, vs, b := Weights(sc, net), Weights(sc, Do(sc.w, net, Flush(n))), |net[n].buf|;
    forall i | 0 <= i < |net|
      ensures i == n ==> vs[i] == ws[i] - Times(b, 6 * |sc.start|)
      ensures i != n ==> vs[i] == ws[i] + (3 + 3 * b)
    {
      FlushWeights(sc, net, n, i);
    }
    FlushSum(ws, vs, n, b);
  }

  lemma Smaller<T>(a: set<T>, b: set<T>, x: T)
    requires a <= b && x in b && x !in a
    ensures |a| < |b|
  {
    SubsetSize(a, b - {x});
  }

  /** A disk that changed at one path only, and arrived there, is no heavier for it. */
  lemma OnePathWeight<C>(sc: Scene<C>, i: nat, x: Node<C>, y: Node<C>, p: Path)
    requires i < |sc.start| && y == x.(disk := y.disk, inbox := y.inbox) && p in Paths(sc)
    requires Arrived(sc, i, y, p) && !Arrived(sc, i, x, p)
    requires forall q | q != p :: Get(x.disk, q) == Get(y.disk, q)
    ensures Weight(sc, i, y) - InboxWork(|Paths(sc)|, y.inbox) <= Weight(sc, i, x) - InboxWork(|Paths(sc)|, x.inbox)
  {
    FewerMissing(sc, i, x, y, p);
    OneMoreUnsnapped(sc, x, y, p);
    var n, m, m', u, u' := |sc.start|, |Missing(sc, i, x)|, |Missing(sc, i, y)|, |Unsnapped(sc, x)|, |Unsnapped(sc, y)|;
    Trade(n, m', m, u', u);
    CombinedIs(n, m, u, |x.buf|, InboxWork(|Paths(sc)|, x.inbox));
    CombinedIs(n, m', u', |y.buf|, InboxWork(|Paths(sc)|, y.inbox));
  }

  lemma CombinedIs(n: nat, m: nat, u: nat, b: nat, w: nat)
    ensures Combined(n, m, u, b, w) == Times(m, 6 * n + 2) + Times(u, 6 * n + 1) + Times(b, 6 * n) + w
  {
  }

  lemma FewerMissing<C>(sc: Scene<C>, i: nat, x: Node<C>, y: Node<C>, p: Path)
    requires i < |sc.start| && p in Paths(sc) && Arrived(sc, i, y, p) && !Arrived(sc, i, x, p)
    requires forall q | q != p :: Get(x.disk, q) == Get(y.disk, q)
    ensures |Missing(sc, i, y)| < |Missing(sc, i, x)|
  {
    forall q | q in Missing(sc, i, y)
      ensures q in Missing(sc, i, x)
    {
      assert q != p;
    }
    Smaller(Missing(sc, i, y), Missing(sc, i, x), p);
  }

  lemma OneMoreUnsnapped<C>(sc: Scene<C>, x: Node<C>, y: Node<C>, p: Path)
    requires x.snapshot == y.snapshot
    requires forall q | q != p :: Get(x.disk, q) == Get(y.disk, q)
    ensures |Unsnapped(sc, y)| <= |Unsnapped(sc, x)| + 1
  {
    forall q | q in Unsnapped(sc, y)
      ensures q in Unsnapped(sc, x) + {p}
    {
      if q != p {
        assert Get(x.disk, q) == Get(y.disk, q);
      }
    }
    SubsetSize(Unsnapped(sc, y), Unsnapped(sc, x) + {p});
  }

  /** A file that arrives pays for the snapshot it may make stale. */
  lemma Trade(n: nat, m': nat, m: nat, u': nat, u: nat)
    requires m' < m && u' <= u + 1
    ensures Times(m', 6 * n + 2) + Times(u', 6 * n + 1) <= Times(m, 6 * n + 2) + Times(u, 6 * n + 1)
  {
    TimesMonotone(m', m - 1, 6 * n + 2);
    TimesMonotone(u', u + 1, 6 * n + 1);
  }

  /** What a pull does to the weight of a disk. */
  lemma MovedWeight<C>(sc: Scene<C>, i: nat, x: Node<C>, y: Node<C>, p: Path)
    requires i < |sc.start| && y == x.(disk := y.disk, inbox := y.inbox) && PathOk(sc, i, x, p)
    requires Get(y.disk, p) == Get(x.disk, p) || AtCut(sc, i, y, p)
    requires forall q | q != p :: Get(x.disk, q) == Get(y.disk, q)
    ensures Weight(sc, i, y) - InboxWork(|Paths(sc)|, y.inbox) <= Weight(sc, i, x) - InboxWork(|Paths(sc)|, x.inbox)
  {
    if Get(y.disk, p) == Get(x.disk, p) {
      SameAnswersSameMap(x.disk, y.disk);
      InboxWeight(sc, i, x, y);
    } else {
      if p !in Paths(sc) {
        OutsidePaths(sc, i, x, p);
      }
      OnePathWeight(sc, i, x, y, p);
    }
  }

  /** A change dealt with, wherever the file came from. */
  lemma HandledWeight<C>(sc: Scene<C>, i: nat, x: Node<C>, y: Node<C>, k: nat)
    requires i < |sc.start| && k < |x.inbox| && Busy(x.inbox[k]) && x.inbox[k].changes != []
    requires y == WithJob(x.(disk := y.disk), k, x.inbox[k].(changes := x.inbox[k].changes[1..], stage := Open))
    requires PathOk(sc, i, x, x.inbox[k].changes[0].path)
    requires Get(y.disk, x.inbox[k].changes[0].path) == Get(x.disk, x.inbox[k].changes[0].path)
             || AtCut(sc, i, y, x.inbox[k].changes[0].path)
    requires forall q | q != x.inbox[k].changes[0].path :: Get(x.disk, q) == Get(y.disk, q)
    ensures Weight(sc, i, y) < Weight(sc, i, x)
  {
    var j := x.inbox[k];
    InboxWorkWith(|Paths(sc)|, x.inbox, k, j.(changes := j.changes[1..], stage := Open));
    MovedWeight(sc, i, x, y, j.changes[0].path);
  }

  lemma HandleLowers<C>(sc: Scene<C>, net: Net<C>, e: Event)
    requires Inv(sc, net) && Enabled(sc.w, net, e) && (e.Next? || e.Serve?)
    ensures Measure(sc, Do(sc.w, net, e)) < Measure(sc, net)
  {
    hide Weight, Paths;
    var n, k, x := e.n, e.k, net[e.n];
    HandledGrows(sc, net, n, k);
    StepIsHandled(sc, net, e);
    var j, y := x.inbox[k], Handled(sc, net, n, k);
    var p := j.changes[0].path;
    assert PathOk(sc, n, x, p) by {
      assert NodeOk(sc, net, n);
    }
    forall q | q != p
      ensures Get(x.disk, q) == Get(y.disk, q)
    {
      PullElsewhere(sc.w.rules, x.disk, net[j.from].disk, j.changes[0], q);
    }
    HandledWeight(sc, n, x, y, k);
    OneLighter(sc, net, n, y);
  }

  // ---- Every event lowers the measure ----

  lemma InvSize<C>(sc: Scene<C>, net: Net<C>)
    requires Inv(sc, net)
    ensures |net| == |sc.start| && Shape(net)
  {
  }

  lemma JobFacts<C>(sc: Scene<C>, net: Net<C>, n: nat, k: nat)
    requires Inv(sc, net) && At(net, n, k)
    ensures JobShape(|net|, n, net[n].inbox[k]) && net[n].inbox[k].from < |net| == |sc.start|
    ensures JobOk(sc, net, n, net[n].inbox[k])
  {
    hide JobOk, DiskOk, BufOk, WayOk;
    assert NodeOk(sc, net, n) && NodeShape(|net|, n, net[n]) && net[n].inbox[k] in net[n].inbox;
  }

  lemma PathFacts<C>(sc: Scene<C>, net: Net<C>, n: nat)
    requires Inv(sc, net) && n < |net|
    ensures |net| == |sc.start| && forall p :: PathOk(sc, n, net[n], p)
  {
    hide PathOk, InboxOk, BufOk, WayOk;
    assert NodeOk(sc, net, n);
  }

  lemma EventLowers<C>(sc: Scene<C>, net: Net<C>, e: Event)
    requires Inv(sc, net) && Enabled(sc.w, net, e)
    ensures Measure(sc, Do(sc.w, net, e)) < Measure(sc, net)
  {
    hide Measure, Do, Inv, JobOk, PathOk;
    PathFacts(sc, net, e.n);
    match e
    case Scan(n) => ScanLowers(sc, net, n);
    case Flush(n) => FlushLowers(sc, net, n);
    case Replace(n, k, l) =>
      JobFacts(sc, net, n, l);
      ReplaceLowers(sc, net, n, k, l);
    case Take(n, k) =>
      JobFacts(sc, net, n, k);
      TakeLowers(sc, net, n, k);
    case Finish(n, k) => FinishLowers(sc, net, n, k);
    case _ =>
      if MovesOn(e) {
        JobFacts(sc, net, e.n, e.k);
        StageLowers(sc, net, e);
      } else {
        HandleLowers(sc, net, e);
      }
  }

  lemma {:induction false} SumOfNaturals(ws: seq<int>)
    requires forall i | 0 <= i < |ws| :: ws[i] >= 0
    ensures Sum(ws) >= 0
  {
    if ws != [] {
      SumOfNaturals(ws[..|ws| - 1]);
    }
  }

  lemma MeasureIsNatural<C>(sc: Scene<C>, net: Net<C>)
    requires |net| == |sc.start|
    ensures Measure(sc, net) >= 0
  {
    SumOfNaturals(Weights(sc, net));
  }

  lemma {:induction false} RunLowers<C>(sc: Scene<C>, net: Net<C>, events: seq<Event>)
    requires Inv(sc, net) && Run(sc.w, net, events).Some?
    ensures Inv(sc, Run(sc.w, net, events).value)
    ensures |events| + Measure(sc, Run(sc.w, net, events).value) <= Measure(sc, net)
    decreases events
  {
    if events != [] {
      RunUnrolled(sc.w, net, events);
      EventKeepsInv(sc, net, events[0]);
      EventLowers(sc, net, events[0]);
      RunLowers(sc, Do(sc.w, net, events[0]), events[1..]);
    }
  }

  // ---- Main results ----

  /** The node has its final disk, and its watcher and its handler know it. */
  ghost predicate Settled<C>(sc: Scene<C>, i: nat, x: Node<C>)
    requires i < |sc.start|
  {
    && (forall p :: Arrived(sc, i, x, p))
    && x.table == x.snapshot == TableOf(sc.w.rules, x.disk)
    && x.buf == [] && x.inbox == []
  }

  lemma QuietSettles<C>(sc: Scene<C>, net: Net<C>)
    requires Inv(sc, net) && Quiet(sc.w.rules, net)
    ensures forall i | 0 <= i < |net| :: Settled(sc, i, net[i])
  {
    forall i | 0 <= i < |net|
      ensures Settled(sc, i, net[i])
    {
      QuietNode(sc, net, i);
      forall p
        ensures Arrived(sc, i, net[i], p)
      {
        QuietPath(sc, net, i, p);
      }
    }
  }

  /** From any state the invariant describes, every interleaving has at most as many events as the measure says; and a
      state in which nothing is left to do has every node's disk at its final state and every table and snapshot to
      match. */
  lemma {:induction false} EveryRunSettles<C>(sc: Scene<C>, net0: Net<C>, events: seq<Event>)
    requires Inv(sc, net0) && Run(sc.w, net0, events).Some?
    ensures |events| <= Measure(sc, net0)
    ensures
      var net := Run(sc.w, net0, events).value;
      |net| == |sc.start| && (Quiet(sc.w.rules, net) ==> forall i | 0 <= i < |net| :: Settled(sc, i, net[i]))
  {
    RunLowers(sc, net0, events);
    var net := Run(sc.w, net0, events).value;
    MeasureIsNatural(sc, net);
    if Quiet(sc.w.rules, net) {
      QuietSettles(sc, net);
    }
  }
}

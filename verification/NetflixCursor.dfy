/** How a matrix-factorization worker knows which users a minibatch holds: it counts rows beside
    the iterator.  The two agree forever under an exact condition. */
module NetflixCursor {
  import opened Multiples
  import opened Prefetch
  import opened PrefetchOrder
  import opened PrefetchReach

  /** Objects first..last of the training range, `workers` workers if non-zero. */
  datatype Job = Job(first: nat, last: nat, workers: nat, worker: nat, rows: nat, minibatch: nat)

  /** The objects the worker's iterator covers and the bounds of its row counter. */
  datatype Plan = Plan(left: nat, last: nat, start: nat, low: nat, high: nat)

  function Min(a: nat, b: nat): nat {
    if a < b then a else b
  }

  /** How many objects a share is long, but for its last. */
  function ShareLength(j: Job): nat
    requires j.workers > 0 && j.first <= j.last
  {
    (j.last - j.first) / j.workers + 1
  }

  function MakePlan(j: Job): Plan
    requires j.first <= j.last
  {
    if j.workers == 0 then Plan(j.first, j.last, 0, 0, j.rows * (j.last + 1))
    else
      var length := ShareLength(j);
      var left := j.worker * length;
      var last := Min(left + length, j.last);
      Plan(left, last, left * j.rows, left * j.rows, Min(j.rows * (j.last + 1), (last + 1) * j.rows))
  }

  /** The row counter at iteration k. */
  function Index(p: Plan, minibatch: nat, k: nat): nat {
    if k == 0 then p.start else Advance(p, minibatch, Index(p, minibatch, k - 1))
  }

  function Advance(p: Plan, minibatch: nat, at: nat): nat {
    if at + minibatch + minibatch > p.high then p.low else at + minibatch
  }

  lemma IndexNext(p: Plan, minibatch: nat, k: nat)
    ensures Index(p, minibatch, k + 1) == Advance(p, minibatch, Index(p, minibatch, k))
  {
  }

  /** The worker's loop, for a number of iterations: the first user it asks the server for in each. */
  method Iterate(p: Plan, minibatch: nat, count: nat) returns (bases: seq<nat>)
    ensures |bases| == count
    ensures forall k | 0 <= k < count :: bases[k] == Index(p, minibatch, k)
  {
    bases := [];
    var sampleIndex := p.start;
    assert sampleIndex == Index(p, minibatch, 0);
    hide Index, Advance;
    for k := 0 to count
      invariant |bases| == k && sampleIndex == Index(p, minibatch, k)
      invariant forall i | 0 <= i < k :: bases[i] == Index(p, minibatch, i)
    {
      IndexNext(p, minibatch, k);
      bases := bases + [sampleIndex];
      sampleIndex := Advance(p, minibatch, sampleIndex);
    }
  }

  /** The worker's iterator. */
  function Feed(j: Job): Config
    requires j.first <= j.last && j.minibatch > 0
  {
    var p := MakePlan(j);
    Config(p.left, p.last + 1, j.rows / j.minibatch, 1, false)
  }

  /** The first row of minibatch i of an object. */
  function RowOf(j: Job, obj: nat, i: nat): nat {
    obj * j.rows + i * j.minibatch
  }

  ghost predicate Usable(j: Job) {
    j.first <= j.last && 0 < j.minibatch <= j.rows
  }

  /** The plan's row counter starts at the iterator's first object and ends with its last. */
  ghost predicate Aligned(j: Job) {
    j.workers != 0 || j.first == 0
  }

  ghost predicate Whole(j: Job) {
    j.minibatch > 0 && j.rows % j.minibatch == 0
  }

  /** RowOf as repeated addition. */
  ghost function Rows(j: Job, obj: nat, i: nat): nat {
    Times(obj, j.rows) + Times(i, j.minibatch)
  }

  lemma RowsAre(j: Job, obj: nat, i: nat)
    ensures RowOf(j, obj, i) == Rows(j, obj, i)
  {
    TimesIsProduct(obj, j.rows);
    TimesIsProduct(i, j.minibatch);
  }

  lemma HighMark(rows: nat, last: nat, all: nat)
    requires last <= all
    ensures Min(rows * (all + 1), (last + 1) * rows) == Times(last + 1, rows)
    ensures rows * (last + 1) == Times(last + 1, rows)
  {
    TimesIsProduct(last + 1, rows);
    TimesIsProduct(all + 1, rows);
    TimesMonotone(last + 1, all + 1, rows);
    hide Times;
  }

  lemma PlanBounds(j: Job)
    requires Usable(j)
    ensures var p := MakePlan(j); Aligned(j) ==>
      p.start == p.low == Times(p.left, j.rows) && p.high == Times(p.last + 1, j.rows)
  {
    var p := MakePlan(j);
    TimesIsProduct(p.left, j.rows);
    assert p.last <= j.last;
    HighMark(j.rows, p.last, j.last);
    hide Times, Min;
  }

  /** The iterator's object and minibatch at iteration k. */
  ghost function Position(j: Job, k: nat): (nat, nat)
    requires Usable(j)
  {
    if k == 0 then (MakePlan(j).left, 0) else
      var (obj, i) := Position(j, k - 1);
      if i + 1 < j.rows / j.minibatch then (obj, i + 1) else (NextObject(Feed(j), obj), 0)
  }

  lemma PerObject(j: Job)
    requires Usable(j)
    ensures var n := j.rows / j.minibatch;
      n >= 1 && Times(n, j.minibatch) <= j.rows < Times(n, j.minibatch) + j.minibatch
      && (Whole(j) <==> Times(n, j.minibatch) == j.rows)
  {
    var n := j.rows / j.minibatch;
    TimesIsProduct(n, j.minibatch);
    assert j.rows == n * j.minibatch + j.rows % j.minibatch;
    hide Times;
    if n == 0 {
      assert false;
    }
  }

  lemma {:induction false} PositionBounds(j: Job, k: nat)
    requires Usable(j) && MakePlan(j).left <= MakePlan(j).last
    ensures var (obj, i) := Position(j, k);
      MakePlan(j).left <= obj <= MakePlan(j).last && i < j.rows / j.minibatch
  {
    PerObject(j);
    if k > 0 {
      PositionBounds(j, k - 1);
    }
  }

  /** One iteration, inside an object: the counter moves to the next minibatch. */
  lemma InsideObject(j: Job, obj: nat, i: nat)
    requires Usable(j) && Aligned(j)
    requires obj <= MakePlan(j).last && i + 1 < j.rows / j.minibatch
    ensures Advance(MakePlan(j), j.minibatch, Rows(j, obj, i)) == Rows(j, obj, i + 1)
  {
    PlanBounds(j);
    PerObject(j);
    var n, p := j.rows / j.minibatch, MakePlan(j);
    TimesMonotone(i + 2, n, j.minibatch);
    TimesMonotone(obj + 1, p.last + 1, j.rows);
    assert Times(i + 2, j.minibatch) == Times(i + 1, j.minibatch) + j.minibatch;
    assert Times(i + 1, j.minibatch) == Times(i, j.minibatch) + j.minibatch;
    assert Times(obj + 1, j.rows) == Times(obj, j.rows) + j.rows;
    hide Times, MakePlan;
  }

  /** One iteration, at the end of an object, when nothing is left over or there is one object. */
  lemma EndOfObject(j: Job, obj: nat)
    requires Usable(j) && Aligned(j)
    requires Whole(j) || MakePlan(j).left == MakePlan(j).last
    requires MakePlan(j).left <= obj <= MakePlan(j).last
    ensures j.rows / j.minibatch >= 1
    ensures Advance(MakePlan(j), j.minibatch, Rows(j, obj, j.rows / j.minibatch - 1))
         == Rows(j, NextObject(Feed(j), obj), 0)
  {
    PlanBounds(j);
    PerObject(j);
    var n, p := j.rows / j.minibatch, MakePlan(j);
    assert Times(n, j.minibatch) == Times(n - 1, j.minibatch) + j.minibatch;
    assert Times(obj + 1, j.rows) == Times(obj, j.rows) + j.rows;
    assert Times(0, j.minibatch) == 0;
    if obj < p.last {
      TimesMonotone(obj + 2, p.last + 1, j.rows);
      assert Times(obj + 2, j.rows) == Times(obj + 1, j.rows) + j.rows;
    }
    hide Times, MakePlan, Whole;
  }

  /** The counter starts where the iterator does, inside the range, and minibatches fill whole objects
      or there is a single object. */
  ghost predicate Counts(j: Job)
    requires j.first <= j.last
  {
    var p := MakePlan(j);
    Aligned(j) && p.left <= p.last && (Whole(j) || p.left == p.last)
  }

  lemma {:induction false} CounterFollows(j: Job, k: nat)
    requires Usable(j) && Counts(j)
    ensures Index(MakePlan(j), j.minibatch, k) == RowOf(j, Position(j, k).0, Position(j, k).1)
  {
    var (at, m) := Position(j, k);
    RowsAre(j, at, m);
    if k == 0 {
      PlanBounds(j);
      hide Rows, RowOf;
      assert Rows(j, at, 0) == Times(at, j.rows) by { RowsStart(j, at); }
    } else {
      CounterFollows(j, k - 1);
      PositionBounds(j, k - 1);
      var (obj, i) := Position(j, k - 1);
      RowsAre(j, obj, i);
      hide Rows, RowOf, MakePlan, Advance;
      if i + 1 < j.rows / j.minibatch {
        InsideObject(j, obj, i);
      } else {
        EndOfObject(j, obj);
      }
    }
  }

  lemma RowsStart(j: Job, obj: nat)
    ensures Rows(j, obj, 0) == Times(obj, j.rows)
  {
  }

  lemma {:induction false} FirstObject(j: Job, k: nat)
    requires Usable(j) && Aligned(j) && MakePlan(j).left <= MakePlan(j).last && k < j.rows / j.minibatch
    ensures Position(j, k) == (MakePlan(j).left, k)
    ensures Index(MakePlan(j), j.minibatch, k) == Rows(j, MakePlan(j).left, k)
  {
    if k == 0 {
      PlanBounds(j);
      RowsStart(j, MakePlan(j).left);
    } else {
      FirstObject(j, k - 1);
      InsideObject(j, MakePlan(j).left, k - 1);
    }
    hide Rows, MakePlan, Advance;
  }

  /** When rows are left over and there is a second object, the counter falls behind there. */
  lemma CounterSlips(j: Job)
    requires Usable(j) && Aligned(j) && !Whole(j) && MakePlan(j).left < MakePlan(j).last
    ensures var n := j.rows / j.minibatch;
      Index(MakePlan(j), j.minibatch, n) != RowOf(j, Position(j, n).0, Position(j, n).1)
  {
    PlanBounds(j);
    PerObject(j);
    var n, p := j.rows / j.minibatch, MakePlan(j);
    FirstObject(j, n - 1);
    assert Position(j, n) == (p.left + 1, 0);
    RowsAre(j, p.left + 1, 0);
    RowsStart(j, p.left + 1);
    assert Times(n, j.minibatch) == Times(n - 1, j.minibatch) + j.minibatch;
    assert Times(p.left + 1, j.rows) == Times(p.left, j.rows) + j.rows;
    assert Times(p.left + 2, j.rows) == Times(p.left + 1, j.rows) + j.rows;
    TimesMonotone(p.left + 2, p.last + 1, j.rows);
    hide Times, MakePlan, Whole, RowOf;
    assert Index(p, j.minibatch, n) == Rows(j, p.left, n - 1) + j.minibatch;
  }

  /** A worker that starts behind the range resets its counter after every minibatch. */
  lemma CounterStuck(j: Job)
    requires Usable(j) && MakePlan(j).left > MakePlan(j).last
    ensures Index(MakePlan(j), j.minibatch, 1) != RowOf(j, Position(j, 1).0, Position(j, 1).1)
  {
    PlanBounds(j);
    PerObject(j);
    var p := MakePlan(j);
    TimesMonotone(p.last + 1, p.left, j.rows);
    IndexNext(p, j.minibatch, 0);
    RowsAre(j, p.left, 0);
    RowsAre(j, p.left, 1);
    RowsAre(j, p.left + 1, 0);
    assert Position(j, 0) == (p.left, 0);
    assert Position(j, 1) == (p.left, 1) || Position(j, 1) == (p.left + 1, 0);
    assert Times(p.left + 1, j.rows) == Times(p.left, j.rows) + j.rows;
    assert Times(1, j.minibatch) == Times(0, j.minibatch) + j.minibatch == j.minibatch;
    hide Times, MakePlan, Position, RowOf;
  }

  lemma FollowsIff(j: Job)
    requires Usable(j)
    ensures (forall k: nat :: Index(MakePlan(j), j.minibatch, k) == RowOf(j, Position(j, k).0, Position(j, k).1))
       <==> Counts(j)
  {
    if Counts(j) {
      forall k: nat ensures Index(MakePlan(j), j.minibatch, k) == RowOf(j, Position(j, k).0, Position(j, k).1) {
        CounterFollows(j, k);
      }
    } else if MakePlan(j).left > MakePlan(j).last {
      CounterStuck(j);
    } else if Aligned(j) {
      CounterSlips(j);
    } else {
      assert Index(MakePlan(j), j.minibatch, 0) == 0;
      assert j.first * j.rows >= 1;
      assert RowOf(j, Position(j, 0).0, Position(j, 0).1) != 0;
    }
  }

  lemma NextQuotient(k: nat, n: nat)
    requires k > 0 && n > 0
    ensures var q, r := (k - 1) / n, (k - 1) % n;
      if r + 1 < n then k / n == q && k % n == r + 1 else k / n == q + 1 && k % n == 0
  {
    var q, r := (k - 1) / n, (k - 1) % n;
    assert k - 1 == q * n + r;
    if r + 1 < n {
      ModUnique(k, q, r + 1, n);
    } else {
      assert k == (q + 1) * n;
      ModUnique(k, q + 1, 0, n);
    }
  }

  lemma {:induction false} PositionIs(j: Job, k: nat)
    requires Usable(j)
    ensures var n := j.rows / j.minibatch;
      n > 0 && Position(j, k) == (Cycle(Feed(j), k / n), k % n)
  {
    PerObject(j);
    var n := j.rows / j.minibatch;
    if k == 0 {
      ModUnique(0, 0, 0, n);
    } else {
      PositionIs(j, k - 1);
      hide Feed;
      NextQuotient(k, n);
    }
  }

  lemma DeliveredIs(j: Job, run: seq<State>, k: nat)
    requires Usable(j) && MakePlan(j).left != MakePlan(j).last + 1
    requires IsRun(Feed(j), run) && k < |Last(run).delivered|
    ensures Last(run).delivered[k] == Position(j, k)
  {
    PerObject(j);
    DeliveryOrder(Feed(j), run, |run| - 1, k);
    PositionIs(j, k);
    CycleIs(Feed(j), k / (j.rows / j.minibatch));
    hide Position, IsRun, Cycle, NthObject;
  }

  /** Whether each minibatch the worker has received starts at the row its counter said. */
  ghost predicate KnowsItsRows(j: Job, run: seq<State>)
    requires j.first <= j.last && |run| > 0
  {
    var got := Last(run).delivered;
    forall k | 0 <= k < |got| :: Index(MakePlan(j), j.minibatch, k) == RowOf(j, got[k].0, got[k].1)
  }

  /** In every interleaving, the k-th minibatch the worker receives starts at the row its counter says. */
  lemma WorkerKnowsItsRows(j: Job, run: seq<State>)
    requires Usable(j) && Counts(j) && IsRun(Feed(j), run)
    ensures KnowsItsRows(j, run)
  {
    var got := Last(run).delivered;
    hide Index, RowOf, Position, IsRun;
    forall k | 0 <= k < |got| ensures Index(MakePlan(j), j.minibatch, k) == RowOf(j, got[k].0, got[k].1) {
      DeliveredIs(j, run, k);
      CounterFollows(j, k);
    }
  }

  /** The exact condition: the worker's counter names the right rows in every interleaving, forever and
      through every wrap-around, exactly when it never receives a minibatch, or its counter starts where
      its iterator does, inside the range, and its minibatches fill whole objects or it has a single one. */
  lemma CounterCorrectIff(j: Job)
    requires j.first <= j.last && j.minibatch > 0
    ensures (forall run | IsRun(Feed(j), run) :: KnowsItsRows(j, run))
       <==> (j.minibatch > j.rows || MakePlan(j).left == MakePlan(j).last + 1 || Counts(j))
  {
    var c := Feed(j);
    PlanReaches(j);
    if j.minibatch > j.rows || MakePlan(j).left == MakePlan(j).last + 1 {
      forall run | IsRun(c, run) ensures KnowsItsRows(j, run) {
        BarrenStarves(c, run, |run| - 1);
      }
    } else if Counts(j) {
      forall run | IsRun(c, run) ensures KnowsItsRows(j, run) {
        WorkerKnowsItsRows(j, run);
      }
    } else {
      FollowsIff(j);
      hide Counts, IsRun, Index, RowOf, Position, Feed;
      var k: nat :| Index(MakePlan(j), j.minibatch, k) != RowOf(j, Position(j, k).0, Position(j, k).1);
      var run := LongRun(c, k + 1);
      DeliveredIs(j, run, k);
      assert !KnowsItsRows(j, run);
    }
  }

  /** Objects hold a minibatch exactly if a minibatch is no longer than an object. */
  lemma PlanReaches(j: Job)
    requires j.first <= j.last && j.minibatch > 0
    ensures Feed(j).n >= 1 <==> j.minibatch <= j.rows
  {
    TimesIsProduct(j.rows / j.minibatch, j.minibatch);
    Divided(j.rows, j.minibatch);
    hide Times;
  }

  /** Some run of worker w's iterator delivers a minibatch of the object. */
  ghost predicate Trains(j: Job, w: nat, obj: nat)
    requires j.first <= j.last && j.minibatch > 0
  {
    exists run, k :: Hands(Feed(j.(worker := w)), run, k, obj)
  }

  /** The objects between the bounds of the plan; every object ahead for a plan that starts behind the
      range; none if it starts right behind the range. */
  predicate InShare(j: Job, w: nat, obj: nat)
    requires j.first <= j.last
  {
    var p := MakePlan(j.(worker := w));
    if p.left <= p.last then p.left <= obj <= p.last else p.left > p.last + 1 && obj >= p.left
  }

  /** The iterator's range, and where its objects lie. */
  lemma FeedIs(j: Job, w: nat)
    requires j.first <= j.last && j.minibatch > 0
    ensures var c := Feed(j.(worker := w));
      && !c.random && c.readAhead == 1 && (c.n == 0 <==> j.minibatch > j.rows)
      && c.left == MakePlan(j.(worker := w)).left && c.right == MakePlan(j.(worker := w)).last + 1
  {
    PlanReaches(j.(worker := w));
    hide MakePlan;
  }

  lemma TrainsIff(j: Job, w: nat, obj: nat)
    requires j.first <= j.last && j.minibatch > 0
    ensures Trains(j, w, obj) <==> j.minibatch <= j.rows && InShare(j, w, obj)
  {
    var c := Feed(j.(worker := w));
    FeedIs(j, w);
    hide Feed, MakePlan, Hands, NthObject;
    if Trains(j, w, obj) {
      var run, k :| Hands(c, run, k, obj);
      HandedIs(c, run, k, obj);
    }
    if j.minibatch <= j.rows && InShare(j, w, obj) {
      ObjectsAre(c, obj);
      var run, k := ObjectArrives(c, obj - c.left);
      assert Hands(c, run, k, obj);
    }
  }

  ghost predicate Assigned(j: Job, obj: nat)
    requires j.first <= j.last && j.minibatch > 0
  {
    exists w: nat :: w < j.workers && Trains(j, w, obj)
  }

  lemma SharesAre(j: Job, w: nat, obj: nat)
    requires j.workers > 0 && j.first <= j.last
    ensures var length := ShareLength(j);
      InShare(j, w, obj) <==>
        if obj <= j.last then Times(w, length) <= obj <= Times(w + 1, length)
        else j.last + 1 < Times(w, length) <= obj
  {
    TimesIsProduct(w, ShareLength(j));
    TimesNext(w, ShareLength(j));
    hide Times;
  }

  /** The first worker that starts more than one object behind the range. */
  function FirstRunaway(j: Job): nat
    requires j.workers > 0 && j.first <= j.last
  {
    (j.last + 1) / ShareLength(j) + 1
  }

  lemma RunawaysAre(j: Job, w: nat)
    requires j.workers > 0 && j.first <= j.last
    ensures j.last + 1 < Times(w, ShareLength(j)) <==> w >= FirstRunaway(j)
  {
    var length := ShareLength(j);
    var q := (j.last + 1) / length;
    Divided(j.last + 1, length);
    TimesIsProduct(q, length);
    TimesNext(q, length);
    if w > q {
      TimesMonotone(q + 1, w, length);
    } else {
      TimesMonotone(w, q, length);
    }
    hide Times, ShareLength;
  }

  predicate Reached(j: Job, obj: nat)
    requires j.workers > 0 && j.first <= j.last
  {
    if obj <= j.last then obj <= j.workers * ShareLength(j)
    else FirstRunaway(j) < j.workers && obj >= FirstRunaway(j) * ShareLength(j)
  }

  /** Together the workers train on the objects from 0, wherever the range starts, up to the range's end
      or as far as the shares reach; and on every object from the start of the first runaway on. */
  lemma AssignedIff(j: Job, obj: nat)
    requires j.workers > 0 && j.first <= j.last && j.minibatch > 0
    ensures Assigned(j, obj) <==> j.minibatch <= j.rows && Reached(j, obj)
  {
    var length, f := ShareLength(j), FirstRunaway(j);
    TimesIsProduct(j.workers, length);
    TimesIsProduct(f, length);
    RunawaysAre(j, f);
    hide InShare, Times, ShareLength, Trains, FirstRunaway;
    if Assigned(j, obj) {
      var w: nat :| w < j.workers && Trains(j, w, obj);
      TrainsIff(j, w, obj);
      SharesAre(j, w, obj);
      TimesMonotone(w + 1, j.workers, length);
      RunawaysAre(j, w);
      if w >= f {
        TimesMonotone(f, w, length);
      }
    }
    if j.minibatch <= j.rows && obj <= j.last && obj <= Times(j.workers, length) {
      var w := OwnerOf(obj, length, j.workers);
      SharesAre(j, w, obj);
      TrainsIff(j, w, obj);
    }
    if j.minibatch <= j.rows && obj > j.last && f < j.workers && obj >= Times(f, length) {
      SharesAre(j, f, obj);
      TrainsIff(j, f, obj);
    }
  }

  lemma OwnerOf(obj: nat, length: nat, workers: nat) returns (w: nat)
    requires workers > 0 && length > 0 && obj <= Times(workers, length)
    ensures w < workers && Times(w, length) <= obj <= Times(w + 1, length)
  {
    hide Times;
    w := obj / length;
    Divided(obj, length);
    TimesIsProduct(w, length);
    TimesNext(w, length);
    if w >= workers {
      TimesMonotone(workers, w, length);
      w := workers - 1;
      TimesNext(w, length);
    }
  }

  /** Every object of the range has a worker exactly if the shares, which are laid out from object 0,
      reach its end. */
  lemma RangeAssignedIff(j: Job)
    requires j.workers > 0 && j.first <= j.last && 0 < j.minibatch <= j.rows
    ensures (forall obj: nat | j.first <= obj <= j.last :: Assigned(j, obj)) <==> j.workers * ShareLength(j) >= j.last
  {
    AssignedIff(j, j.last);
    hide Assigned, ShareLength;
    forall obj: nat | obj <= j.last ensures Assigned(j, obj) <==> obj <= j.workers * ShareLength(j) {
      AssignedIff(j, obj);
    }
  }

  /** A range that starts at 0 is always covered. */
  lemma WholeRangeAssigned(j: Job)
    requires j.workers > 0 && j.first == 0 && 0 < j.minibatch <= j.rows
    ensures forall obj: nat | obj <= j.last :: Assigned(j, obj)
  {
    TimesIsProduct(j.workers, ShareLength(j));
    Divided(j.last, j.workers);
    RangeAssignedIff(j);
    hide Times, Assigned;
  }

  /** The workers train on no object in front of the range exactly if there is none. */
  lemma NothingInFrontIff(j: Job)
    requires j.workers > 0 && j.first <= j.last && 0 < j.minibatch <= j.rows
    ensures (forall obj: nat | obj < j.first :: !Assigned(j, obj)) <==> j.first == 0
  {
    if j.first > 0 {
      AssignedIff(j, 0);
    }
  }

  /** The workers train on no object behind the range exactly if the last of them starts at most right
      behind it. */
  lemma NothingBehindIff(j: Job)
    requires j.workers > 0 && j.first <= j.last && 0 < j.minibatch <= j.rows
    ensures (forall obj: nat | obj > j.last :: !Assigned(j, obj))
       <==> (j.workers - 1) * ShareLength(j) <= j.last + 1
  {
    var length, f := ShareLength(j), FirstRunaway(j);
    TimesIsProduct(j.workers - 1, length);
    TimesIsProduct(f, length);
    RunawaysAre(j, j.workers - 1);
    RunawaysAre(j, f);
    hide Assigned, ShareLength, FirstRunaway, Times;
    assert Times(f, length) > j.last + 1;
    if f < j.workers {
      AssignedIff(j, Times(f, length));
    } else {
      forall obj: nat | obj > j.last ensures !Assigned(j, obj) {
        AssignedIff(j, obj);
      }
    }
  }

  /** Some interleaving of worker w's iterator divides by zero exactly if its share starts right behind
      the range. */
  lemma WorkerCrashesIff(j: Job, w: nat)
    requires j.workers > 0 && j.first <= j.last && j.minibatch > 0
    ensures (exists run :: Crashes(Feed(j.(worker := w)), run)) <==> w * ShareLength(j) == j.last + 1
  {
    var c := Feed(j.(worker := w));
    CrashesIff(c);
  }

  /** Three workers on objects 10 to 19 train on 0 to 12. */
  lemma RangeMissed(j: Job)
    requires j.first == 10 && j.last == 19 && j.workers == 3 && 0 < j.minibatch <= j.rows
    ensures forall obj: nat :: Assigned(j, obj) <==> obj <= 12
  {
    hide Assigned;
    forall obj: nat ensures Assigned(j, obj) <==> obj <= 12 {
      AssignedIff(j, obj);
    }
  }

  /** Four workers on objects 0 to 4 train on everything but 5: the fourth starts at 6 and runs away. */
  lemma RangeLeft(j: Job)
    requires j.first == 0 && j.last == 4 && j.workers == 4 && 0 < j.minibatch <= j.rows
    ensures forall obj: nat :: Assigned(j, obj) <==> obj != 5
  {
    hide Assigned;
    forall obj: nat ensures Assigned(j, obj) <==> obj != 5 {
      AssignedIff(j, obj);
    }
  }

  /** Twenty workers on objects 0 to 47: worker 16 divides by zero, and the others train on 51 and on. */
  lemma TwentyWorkers(j: Job)
    requires j.first == 0 && j.last == 47 && j.workers == 20 && 0 < j.minibatch <= j.rows
    ensures exists run :: Crashes(Feed(j.(worker := 16)), run)
    ensures forall obj: nat | obj > j.last :: Assigned(j, obj) <==> obj >= 51
  {
    WorkerCrashesIff(j, 16);
    hide Assigned, Crashes;
    forall obj: nat | obj > j.last ensures Assigned(j, obj) <==> obj >= 51 {
      AssignedIff(j, obj);
    }
  }

  /** Two neighbours both train on an object exactly if it is the first of the second one, inside the
      range (a share ends one object late), or both run away and it lies ahead of the second. */
  lemma NeighboursShareIff(j: Job, obj: nat)
    requires j.first <= j.last && j.workers > 0 && j.minibatch > 0
    ensures var left, next := j.worker * ShareLength(j), (j.worker + 1) * ShareLength(j);
      Trains(j, j.worker, obj) && Trains(j, j.worker + 1, obj) <==>
        j.minibatch <= j.rows && (obj == next <= j.last || j.last + 1 < left < next <= obj)
  {
    var length := ShareLength(j);
    TrainsIff(j, j.worker, obj);
    TrainsIff(j, j.worker + 1, obj);
    SharesAre(j, j.worker, obj);
    SharesAre(j, j.worker + 1, obj);
    TimesIsProduct(j.worker, length);
    TimesIsProduct(j.worker + 1, length);
    TimesNext(j.worker, length);
    TimesNext(j.worker + 1, length);
    hide Times, Trains, InShare, ShareLength;
    assert length > 0;
  }
}

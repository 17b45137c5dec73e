/** What every interleaving keeps: delivery order, the counters, and the life of each string. */
module PrefetchOrder {
  import opened Multiples
  import opened Prefetch

  /** Everything the first v objects put into the ring, in order. */
  ghost function Items(v: nat, n: nat): (s: seq<Item>)
    ensures |s| == Times(v, n)
  {
    if v == 0 then [] else Items(v - 1, n) + Batch(v - 1, n)
  }

  /** The object that the k-th item comes from. */
  lemma {:induction false} Locate(k: nat, v: nat, n: nat) returns (u: nat)
    requires k < Times(v, n)
    ensures u < v && Times(u, n) <= k < Times(u + 1, n)
    ensures Items(v, n)[k] == Item(u, k - Times(u, n), if k + 1 == Times(u + 1, n) then u else -1)
  {
    if k >= Times(v - 1, n) {
      u := v - 1;
      assert Items(v, n)[k] == Batch(u, n)[k - Times(u, n)];
    } else {
      u := Locate(k, v - 1, n);
    }
  }

  ghost function Flat(ring: seq<seq<Item>>): seq<Item> {
    if ring == [] then [] else ring[0] + Flat(ring[1..])
  }

  lemma {:induction false} FlatAdd(ring: seq<seq<Item>>, q: seq<Item>)
    ensures Flat(ring + [q]) == Flat(ring) + q
  {
    if ring == [] {
      assert ring + [q] == [q] && [q][1..] == [];
    } else {
      assert (ring + [q])[1..] == ring[1..] + [q];
      FlatAdd(ring[1..], q);
    }
  }

  lemma {:induction false} FlatDrop(ring: seq<seq<Item>>)
    ensures Flat(DropEmpty(ring)) == Flat(ring)
  {
    if ring != [] && ring[0] == [] {
      FlatDrop(ring[1..]);
    }
  }

  /** Popping from a ring that holds something pops its first item. */
  lemma FlatPop(ring: seq<seq<Item>>)
    requires Flat(ring) != []
    ensures var r := DropEmpty(ring);
      && r != [] && r[0][0] == Flat(ring)[0]
      && Flat([r[0][1..]] + r[1..]) == Flat(ring)[1..]
  {
    FlatDrop(ring);
    var r := DropEmpty(ring);
    assert Flat(r) == r[0] + Flat(r[1..]);
    assert ([r[0][1..]] + r[1..])[1..] == r[1..];
  }

  ghost predicate InHand(k: Consumer) {
    k.Popped? || k.Counted? || k.SawLow? || k.Signaling? || k.Decoding?
  }

  /** Whether the thread has taken a permit and not yet filled the ring with it. */
  ghost function Held(p: Producer): nat {
    if p.Fetched? || p.Stored? then 1 else 0
  }

  ghost function Unposted(p: Producer): nat {
    if p.Posting? then p.left else 0
  }

  ghost function Uncounted(p: Producer): int {
    if p.Posting? then p.left - (if p.counted then 1 else 0) else 0
  }

  /** The semaphore and the counter against the ring's contents. */
  ghost predicate Counting(c: Config, s: State) {
    && |Flat(s.ring)| == s.ready + (if s.consumer.Token? then 1 else 0) + Unposted(s.producer)
    && s.numReady == |Flat(s.ring)| + (if s.consumer.Popped? then 1 else 0) - Uncounted(s.producer)
    && (s.producer.Posting? ==> s.producer.left <= c.n && (s.producer.counted ==> s.producer.left > 0))
  }

  /** First in, first out: what was popped, then what is in the ring, is what was pushed. */
  ghost predicate Fifo(c: Config, s: State) {
    && s.popped + Flat(s.ring) == Items(s.pushed, c.n)
    && |s.popped| == |s.delivered| + (if InHand(s.consumer) then 1 else 0)
    && (InHand(s.consumer) ==> s.consumer.item == s.popped[|s.popped| - 1])
  }

  /** Which object each version is, and where the thread is in the sequence of objects. */
  ghost predicate Objects(c: Config, s: State) {
    && |s.fetched| == s.pushed + Held(s.producer)
    && s.version == s.pushed - (if s.producer.Posting? then 1 else 0)
    && (s.producer.Fetched? ==> s.producer.obj == s.fetched[|s.fetched| - 1])
    && (forall j | 0 <= j < |s.fetched| :: InRange(c, s.fetched[j]))
    && (!c.random ==> InRange(c, s.current))
    && (!c.random ==> forall j | 0 <= j < |s.fetched| :: s.fetched[j] == Cycle(c, j))
    && (!c.random ==> s.current == Cycle(c, |s.fetched|))
  }

  /** Where the iterator can be: inside its range, or anywhere ahead if it started behind the range. */
  ghost predicate InRange(c: Config, obj: nat) {
    c.left <= obj && (c.left < c.right ==> obj < c.right)
  }

  /** The j-th object of a sequential iterator. */
  ghost function Cycle(c: Config, j: nat): nat {
    if j == 0 then c.left else NextObject(c, Cycle(c, j - 1))
  }

  ghost function SavedCount(s: State): nat {
    s.pushed + if s.producer.Stored? then 1 else 0
  }

  /** A string lives from when it is saved until the getNext after its last minibatch. */
  ghost predicate Lifetimes(c: Config, s: State) {
    && (forall v :: v in s.strings <==>
         (0 <= v < SavedCount(s) && (|s.delivered| < Times(v + 1, c.n) || (s.consumer.Idle? && v == s.toDelete))))
    && (forall v <- s.strings :: 0 <= v < |s.fetched| && s.strings[v] == s.fetched[v])
    && (s.consumer.Idle? ==> s.toDelete == if s.popped == [] then -1 else s.popped[|s.popped| - 1].last)
    && (s.consumer.SawLow? || s.consumer.Signaling? || s.consumer.Decoding? ==> s.toDelete == s.consumer.item.last)
  }

  /** Every delivered minibatch is the one its pointer named. */
  ghost predicate Faithful(c: Config, s: State) {
    forall k | 0 <= k < |s.delivered| ::
      (k < |s.popped| && s.popped[k].version < |s.fetched|
       && s.delivered[k] == (s.fetched[s.popped[k].version], s.popped[k].index))
  }

  ghost predicate Safe(c: Config, s: State) {
    !s.fault && Counting(c, s) && Fifo(c, s) && Objects(c, s) && Lifetimes(c, s) && Faithful(c, s)
  }

  lemma InitialSafe(c: Config)
    requires Sensible(c)
    ensures Safe(c, Initial(c))
  {
  }

  lemma ProducerKeepsCounting(c: Config, s: State, id: nat)
    requires ProducerEnabled(s) && Counting(c, s)
    ensures Counting(c, ProducerStep(c, s, id))
  {
    if s.producer.Stored? {
      FlatAdd(s.ring, Batch(s.version, c.n));
    }
  }

  lemma ProducerKeepsFifo(c: Config, s: State, id: nat)
    requires ProducerEnabled(s) && Fifo(c, s) && Objects(c, s)
    ensures Fifo(c, ProducerStep(c, s, id))
  {
    if s.producer.Stored? {
      FlatAdd(s.ring, Batch(s.version, c.n));
      assert s.popped + (Flat(s.ring) + Batch(s.version, c.n)) == s.popped + Flat(s.ring) + Batch(s.version, c.n);
    }
  }

  lemma ProducerKeepsObjects(c: Config, s: State, id: nat)
    requires Sensible(c) && ProducerEnabled(s) && CanFetch(c, s, id) && Objects(c, s)
    ensures Objects(c, ProducerStep(c, s, id))
  {
  }

  /** The string just saved still has all its minibatches to deliver. */
  lemma NewStringNeeded(c: Config, s: State)
    requires Sensible(c) && Fifo(c, s)
    ensures |s.delivered| < Times(s.pushed + 1, c.n)
  {
    assert |s.popped + Flat(s.ring)| == Times(s.pushed, c.n);
  }

  lemma SaveKeepsLifetimes(c: Config, s: State, id: nat)
    requires Sensible(c) && s.producer.Fetched? && Lifetimes(c, s) && Objects(c, s) && Fifo(c, s)
    ensures Lifetimes(c, ProducerStep(c, s, id))
  {
    NewStringNeeded(c, s);
    hide Times, Fifo, Items;
  }

  lemma ProducerKeepsLifetimes(c: Config, s: State, id: nat)
    requires Sensible(c) && ProducerEnabled(s) && Lifetimes(c, s) && Objects(c, s) && Fifo(c, s)
    ensures Lifetimes(c, ProducerStep(c, s, id))
  {
    hide Times, Fifo, Items;
    if s.producer.Fetched? {
      SaveKeepsLifetimes(c, s, id);
    }
  }

  lemma ProducerKeepsFaithful(c: Config, s: State, id: nat)
    requires ProducerEnabled(s) && Faithful(c, s)
    ensures Faithful(c, ProducerStep(c, s, id))
  {
  }

  lemma ProducerKeepsSafe(c: Config, s: State, id: nat)
    requires Sensible(c) && ProducerEnabled(s) && CanFetch(c, s, id) && Safe(c, s)
    ensures Safe(c, ProducerStep(c, s, id))
  {
    ProducerKeepsCounting(c, s, id);
    ProducerKeepsFifo(c, s, id);
    ProducerKeepsObjects(c, s, id);
    ProducerKeepsLifetimes(c, s, id);
    ProducerKeepsFaithful(c, s, id);
    hide Counting, Fifo, Objects, Lifetimes, Faithful;
  }

  lemma ConsumerKeepsCounting(c: Config, s: State)
    requires ConsumerEnabled(s) && Counting(c, s)
    ensures Counting(c, ConsumerStep(c, s))
  {
    if s.consumer.Token? {
      FlatPop(s.ring);
    }
  }

  /** A woken consumer finds a minibatch. */
  lemma TokenFinds(c: Config, s: State)
    requires s.consumer.Token? && Counting(c, s)
    ensures Flat(s.ring) != [] && DropEmpty(s.ring) != []
  {
    assert |Flat(s.ring)| > 0;
    FlatPop(s.ring);
  }

  lemma ConsumerKeepsFifo(c: Config, s: State)
    requires ConsumerEnabled(s) && Counting(c, s) && Fifo(c, s) && !ConsumerStep(c, s).fault
    ensures Fifo(c, ConsumerStep(c, s))
  {
    if s.consumer.Token? {
      TokenFinds(c, s);
      FlatPop(s.ring);
      var f := Flat(s.ring);
      assert s.popped + f == s.popped + [f[0]] + f[1..];
    }
  }

  /** The consumer leaves the thread's own variables alone. */
  lemma ConsumerFrame(c: Config, s: State)
    requires ConsumerEnabled(s)
    ensures var t := ConsumerStep(c, s);
      && t.fetched == s.fetched && t.pushed == s.pushed && t.version == s.version
      && t.producer == s.producer && t.current == s.current
      && (!s.consumer.Idle? ==> t.strings == s.strings)
      && (!s.consumer.Decoding? ==> t.delivered == s.delivered)
      && (!s.consumer.Counted? ==> t.toDelete == s.toDelete)
      && (!s.consumer.Token? ==> t.popped == s.popped && t.ring == s.ring)
  {
    hide DropEmpty;
  }

  lemma ConsumerKeepsObjects(c: Config, s: State)
    requires ConsumerEnabled(s) && Objects(c, s)
    ensures Objects(c, ConsumerStep(c, s))
  {
    ConsumerFrame(c, s);
    hide Cycle, ConsumerStep;
  }

  /** The item in hand is the one after the last delivered, and its object is known. */
  lemma HandItem(c: Config, s: State) returns (u: nat)
    requires Fifo(c, s) && InHand(s.consumer)
    ensures |s.delivered| + 1 == |s.popped| && s.consumer.item == s.popped[|s.delivered|]
    ensures u < s.pushed && Times(u, c.n) <= |s.delivered| < Times(u + 1, c.n)
    ensures s.consumer.item == Item(u, |s.delivered| - Times(u, c.n), if |s.popped| == Times(u + 1, c.n) then u else -1)
  {
    var k := |s.delivered|;
    var all := s.popped + Flat(s.ring);
    assert all[k] == s.popped[k];
    u := Locate(k, s.pushed, c.n);
  }

  /** The string a minibatch is decoded from is still there, and is the right object. */
  lemma DecodingSafe(c: Config, s: State)
    requires s.consumer.Decoding? && Fifo(c, s) && Objects(c, s) && Lifetimes(c, s)
    ensures s.consumer.item.version in s.strings && s.consumer.item.version < |s.fetched|
    ensures s.strings[s.consumer.item.version] == s.fetched[s.consumer.item.version]
  {
    var u := HandItem(c, s);
    hide Times, Fifo, Items;
    assert 0 <= u < SavedCount(s) && |s.delivered| < Times(u + 1, c.n);
  }

  /** What is about to be erased has delivered all its minibatches. */
  lemma EraseTarget(c: Config, s: State)
    requires s.consumer.Idle? && Fifo(c, s) && Lifetimes(c, s)
    ensures s.toDelete == -1 || (0 <= s.toDelete && |s.delivered| == Times(s.toDelete + 1, c.n))
  {
    if s.popped != [] {
      var k := |s.popped| - 1;
      assert (s.popped + Flat(s.ring))[k] == s.popped[k];
      var u := Locate(k, s.pushed, c.n);
    }
  }

  lemma EraseKeepsLifetimes(c: Config, s: State)
    requires s.consumer.Idle? && Fifo(c, s) && Lifetimes(c, s)
    ensures Lifetimes(c, ConsumerStep(c, s))
  {
    EraseTarget(c, s);
    hide Times, Fifo;
  }

  lemma DecodeKeepsLifetimes(c: Config, s: State)
    requires Sensible(c) && s.consumer.Decoding? && Fifo(c, s) && Objects(c, s) && Lifetimes(c, s)
    ensures Lifetimes(c, ConsumerStep(c, s))
  {
    DecodingSafe(c, s);
    var u := HandItem(c, s);
    var d := |s.delivered|;
    forall w: nat | w > 0 && Times(w, c.n) == d + 1 ensures w == u + 1 {
      assert Times(w - 1, c.n) <= d;
      TimesUnique(u, w - 1, d, c.n);
    }
    hide Times, Fifo, Items;
  }

  lemma ConsumerKeepsLifetimes(c: Config, s: State)
    requires Sensible(c) && ConsumerEnabled(s) && Fifo(c, s) && Objects(c, s) && Lifetimes(c, s)
    ensures Lifetimes(c, ConsumerStep(c, s))
  {
    if s.consumer.Idle? {
      EraseKeepsLifetimes(c, s);
    } else if s.consumer.Decoding? {
      DecodeKeepsLifetimes(c, s);
    } else {
      ConsumerFrame(c, s);
      ConsumerPhases(c, s);
      hide Times, Fifo, Items, ConsumerStep;
    }
  }

  lemma ConsumerPhases(c: Config, s: State)
    requires ConsumerEnabled(s)
    ensures var t := ConsumerStep(c, s);
      && (t.consumer.Idle? <==> s.consumer.Decoding? && s.consumer.item.version in s.strings)
      && (s.consumer.Token? ==> t.consumer.Popped? || t.consumer.Token?)
      && (t.consumer.SawLow? || t.consumer.Signaling? || t.consumer.Decoding? ==>
            InHand(s.consumer) && t.consumer.item == s.consumer.item)
      && (s.consumer.Counted? ==>
          t.toDelete == s.consumer.item.last && InHand(t.consumer) && t.consumer.item == s.consumer.item)
  {
    hide DropEmpty;
  }

  lemma ConsumerKeepsFaithful(c: Config, s: State)
    requires ConsumerEnabled(s) && Fifo(c, s) && Objects(c, s) && Lifetimes(c, s) && Faithful(c, s)
    ensures Faithful(c, ConsumerStep(c, s))
  {
    if s.consumer.Decoding? {
      var u := HandItem(c, s);
      DecodingSafe(c, s);
    }
    hide Times, Items, Flat, Lifetimes, Objects, Fifo;
  }

  lemma ConsumerNeverFaults(c: Config, s: State)
    requires ConsumerEnabled(s) && Safe(c, s)
    ensures !ConsumerStep(c, s).fault
  {
    if s.consumer.Token? {
      TokenFinds(c, s);
    } else if s.consumer.Decoding? {
      DecodingSafe(c, s);
    }
    hide Counting, Fifo, Objects, Lifetimes, Faithful;
  }

  lemma ConsumerKeepsSafe(c: Config, s: State)
    requires Sensible(c) && ConsumerEnabled(s) && Safe(c, s)
    ensures Safe(c, ConsumerStep(c, s))
  {
    ConsumerNeverFaults(c, s);
    ConsumerKeepsCounting(c, s);
    ConsumerKeepsFifo(c, s);
    ConsumerKeepsObjects(c, s);
    ConsumerKeepsLifetimes(c, s);
    ConsumerKeepsFaithful(c, s);
    hide Counting, Fifo, Objects, Lifetimes, Faithful;
  }

  /** Every state of every interleaving is safe. */
  lemma {:induction false} RunsAreSafe(c: Config, run: seq<State>, i: nat)
    requires Sensible(c) && IsRun(c, run) && i < |run|
    ensures Safe(c, run[i])
  {
    if i == 0 {
      InitialSafe(c);
    } else {
      RunStep(c, run, i - 1);
      hide Safe, IsRun;
      RunsAreSafe(c, run, i - 1);
      if ConsumerEnabled(run[i - 1]) && run[i] == ConsumerStep(c, run[i - 1]) {
        ConsumerKeepsSafe(c, run[i - 1]);
      } else {
        var id :| CanFetch(c, run[i - 1], id) && run[i] == ProducerStep(c, run[i - 1], id);
        ProducerKeepsSafe(c, run[i - 1], id);
      }
    }
  }

  /** A sequential iterator cycles through its objects; from behind its range it never wraps. */
  lemma {:induction false} CycleIs(c: Config, j: nat)
    requires c.left != c.right
    ensures Cycle(c, j) == NthObject(c, j)
  {
    if j != 0 {
      CycleIs(c, j - 1);
      if c.left < c.right {
        NextMod(j - 1, c.right - c.left);
      }
    }
  }

  ghost function NthObject(c: Config, j: nat): nat
    requires c.left != c.right
  {
    if c.left < c.right then c.left + j % (c.right - c.left) else c.left + j
  }

  /** The k-th minibatch delivered is number k % n of the object that was fetched (k / n)-th, and a
      sequential iterator fetches its range in a cycle, or, from behind its range, every object ahead:
      delivery is in fetch order, with nothing lost and nothing repeated. */
  lemma DeliveryOrder(c: Config, run: seq<State>, i: nat, k: nat)
    requires Sensible(c) && IsRun(c, run) && i < |run| && k < |run[i].delivered|
    ensures k / c.n < |run[i].fetched|
    ensures run[i].delivered[k] == (run[i].fetched[k / c.n], k % c.n)
    ensures !c.random ==> run[i].fetched[k / c.n] == NthObject(c, k / c.n)
  {
    RunsAreSafe(c, run, i);
    var s := run[i];
    var all := s.popped + Flat(s.ring);
    assert all[k] == s.popped[k];
    var u := Locate(k, s.pushed, c.n);
    TimesIsProduct(u, c.n);
    ModUnique(k, u, k - Times(u, c.n), c.n);
    if !c.random {
      CycleIs(c, u);
    }
    hide Counting, Lifetimes, Times, Items, Cycle;
  }

  /** While a queued minibatch waits, and while it is being decoded, the string it points into is
      there and holds the object it was cut from. */
  lemma PointersLive(c: Config, run: seq<State>, i: nat, k: nat)
    requires Sensible(c) && IsRun(c, run) && i < |run|
    requires var s := run[i]; k < |Flat(s.ring)| + |s.popped| && |s.delivered| <= k
    ensures var s := run[i]; var item := (s.popped + Flat(s.ring))[k];
      && item.version in s.strings && item.version < |s.fetched|
      && s.strings[item.version] == s.fetched[item.version]
  {
    RunsAreSafe(c, run, i);
    var s := run[i];
    var u := Locate(k, s.pushed, c.n);
    hide Counting, Faithful, Times, Items;
    assert |s.delivered| < Times(u + 1, c.n) && u < SavedCount(s);
  }
}

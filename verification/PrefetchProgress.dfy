/** How far the background thread can run ahead, and why the two threads never both block. */
module PrefetchProgress {
  import opened Multiples
  import opened Prefetch
  import opened PrefetchOrder

  /** The read-ahead budget: minibatches in the ring, and the ones that outstanding permits will
      add.  It grows only when the consumer signals, which it decides after seeing fewer than 200
      minibatches ready and a free permit. */
  ghost function Budget(c: Config, s: State): nat {
    |Flat(s.ring)| + Times(s.prefSem + Held(s.producer), c.n)
  }

  ghost predicate Credit(c: Config, s: State) {
    && s.prefSem <= c.readAhead
    && (s.consumer.Signaling? ==> s.prefSem < c.readAhead)
    && Budget(c, s) <= LOW_WATER - 1 + Times(c.readAhead + 2, c.n)
    && (s.consumer.SawLow? || s.consumer.Signaling? ==> Budget(c, s) <= LOW_WATER - 1 + Times(c.readAhead + 1, c.n))
  }

  /** Unless the consumer is still deciding whether to signal, there is a minibatch, a permit or a
      fetch under way. */
  ghost predicate Supplied(s: State) {
    s.consumer.Idle? || s.consumer.Erased? || s.consumer.Token? || s.consumer.Decoding? ==>
      |Flat(s.ring)| > 0 || s.prefSem > 0 || Held(s.producer) > 0
  }

  /** Every queue but the front one is still full. */
  ghost predicate Full(c: Config, ring: seq<seq<Item>>) {
    forall i | 0 <= i < |ring| :: |ring[i]| <= c.n && (i > 0 ==> |ring[i]| == c.n)
  }

  ghost predicate Sound(c: Config, s: State) {
    Safe(c, s) && Credit(c, s) && Supplied(s) && Full(c, s.ring)
  }

  lemma InitialSound(c: Config)
    requires Sensible(c)
    ensures Sound(c, Initial(c))
  {
    InitialSafe(c);
    TimesMonotone(c.readAhead, c.readAhead + 2, c.n);
    hide Safe, Times;
  }

  lemma ProducerKeepsCredit(c: Config, s: State, id: nat)
    requires ProducerEnabled(s) && Credit(c, s)
    ensures Budget(c, ProducerStep(c, s, id)) == Budget(c, s)
    ensures Credit(c, ProducerStep(c, s, id))
  {
    if s.producer.Stored? {
      FlatAdd(s.ring, Batch(s.version, c.n));
      hide Flat;
    } else {
      hide Flat, Times;
    }
  }

  lemma ProducerKeepsSupplied(c: Config, s: State, id: nat)
    requires Sensible(c) && ProducerEnabled(s) && Supplied(s)
    ensures Supplied(ProducerStep(c, s, id))
  {
    if s.producer.Stored? {
      FlatAdd(s.ring, Batch(s.version, c.n));
    }
    hide Flat;
  }

  lemma ProducerKeepsFull(c: Config, s: State, id: nat)
    requires ProducerEnabled(s) && Full(c, s.ring)
    ensures Full(c, ProducerStep(c, s, id).ring)
  {
  }

  /** The decision to signal is made with at most 199 minibatches counted, at most one object's
      minibatches not yet counted, and the permits then outstanding. */
  lemma DecideKeepsCredit(c: Config, s: State)
    requires s.consumer.Counted? && Counting(c, s) && Credit(c, s)
    ensures Credit(c, ConsumerStep(c, s))
  {
    TimesMonotone(s.prefSem + Held(s.producer), c.readAhead + Held(s.producer), c.n);
    assert Times(c.readAhead + 1, c.n) == Times(c.readAhead, c.n) + c.n;
    hide Times, Flat;
  }

  lemma SignalKeepsCredit(c: Config, s: State)
    requires s.consumer.Signaling? && Credit(c, s)
    ensures Credit(c, ConsumerStep(c, s))
  {
    assert Times(s.prefSem + 1 + Held(s.producer), c.n) == Times(s.prefSem + Held(s.producer), c.n) + c.n;
    assert Times(c.readAhead + 2, c.n) == Times(c.readAhead + 1, c.n) + c.n;
    hide Times, Flat;
  }

  lemma PopKeepsCredit(c: Config, s: State)
    requires s.consumer.Token? && Counting(c, s) && Credit(c, s)
    ensures Credit(c, ConsumerStep(c, s))
  {
    TokenFinds(c, s);
    FlatPop(s.ring);
    hide Times, Flat;
  }

  lemma ConsumerKeepsCredit(c: Config, s: State)
    requires ConsumerEnabled(s) && Counting(c, s) && Credit(c, s)
    ensures Credit(c, ConsumerStep(c, s))
  {
    if s.consumer.Token? {
      PopKeepsCredit(c, s);
    } else if s.consumer.Counted? {
      DecideKeepsCredit(c, s);
    } else if s.consumer.Signaling? {
      SignalKeepsCredit(c, s);
    } else {
      hide Times, Flat, DropEmpty;
    }
  }

  lemma ConsumerKeepsSupplied(c: Config, s: State)
    requires Sensible(c) && ConsumerEnabled(s) && Counting(c, s) && Credit(c, s) && Supplied(s)
    ensures Supplied(ConsumerStep(c, s))
  {
    if s.consumer.Token? {
      TokenFinds(c, s);
    }
    hide Times, Flat, DropEmpty;
  }

  lemma {:induction false} DropKeepsFull(c: Config, ring: seq<seq<Item>>)
    requires Full(c, ring)
    ensures Full(c, DropEmpty(ring))
  {
    if ring != [] && ring[0] == [] {
      DropKeepsFull(c, ring[1..]);
    }
  }

  lemma ConsumerKeepsFull(c: Config, s: State)
    requires ConsumerEnabled(s) && Full(c, s.ring)
    ensures Full(c, ConsumerStep(c, s).ring)
  {
    DropKeepsFull(c, s.ring);
    hide DropEmpty;
  }

  lemma NextKeepsSound(c: Config, s: State, s': State)
    requires Sensible(c) && Sound(c, s) && Next(c, s, s')
    ensures Sound(c, s')
  {
    hide Safe, Credit, Supplied, Full, ConsumerStep, ProducerStep, Counting;
    assert Counting(c, s) by { SafeCounts(c, s); }
    if ConsumerEnabled(s) && s' == ConsumerStep(c, s) {
      ConsumerKeepsSafe(c, s);
      ConsumerKeepsCredit(c, s);
      ConsumerKeepsSupplied(c, s);
      ConsumerKeepsFull(c, s);
    } else {
      var id :| CanFetch(c, s, id) && s' == ProducerStep(c, s, id);
      ProducerKeepsSafe(c, s, id);
      ProducerKeepsCredit(c, s, id);
      ProducerKeepsSupplied(c, s, id);
      ProducerKeepsFull(c, s, id);
    }
  }

  lemma SafeCounts(c: Config, s: State)
    requires Safe(c, s)
    ensures Counting(c, s)
  {
    hide Counting;
  }

  lemma {:induction false} RunsAreSound(c: Config, run: seq<State>, i: nat)
    requires Sensible(c) && IsRun(c, run) && i < |run|
    ensures Sound(c, run[i])
  {
    if i == 0 {
      InitialSound(c);
    } else {
      hide Sound, Next, IsRun;
      RunsAreSound(c, run, i - 1);
      RunStep(c, run, i - 1);
      NextKeepsSound(c, run[i - 1], run[i]);
    }
  }

  lemma {:induction false} FullQueues(c: Config, ring: seq<seq<Item>>)
    requires Full(c, ring) && ring != []
    ensures Times(|ring| - 1, c.n) <= |Flat(ring)|
    decreases |ring|
  {
    if |ring| > 1 {
      var tail := ring[1..];
      FullQueues(c, [[]] + tail[1..]);
      assert Flat([[]] + tail[1..]) == Flat(tail[1..]) by { assert ([[]] + tail[1..])[1..] == tail[1..]; }
    }
  }

  /** In every state of every interleaving the semaphore stays within the read-ahead, the
      minibatches waiting in the ring stay within 199 + (readAhead + 2) * n, and the ring holds at
      most readAhead + 202 queues, so the circular buffer is used far below its capacity. */
  lemma ReadAheadBounded(c: Config, run: seq<State>, i: nat)
    requires Sensible(c) && IsRun(c, run) && i < |run|
    ensures var s := run[i];
      && s.prefSem <= c.readAhead
      && |Flat(s.ring)| <= 199 + (c.readAhead + 2) * c.n
      && |s.ring| <= c.readAhead + 202
      && (c.readAhead == 1 ==> |s.ring| < 99_999)
  {
    var s := run[i];
    RunsAreSound(c, run, i);
    TimesIsProduct(c.readAhead + 2, c.n);
    if |s.ring| > c.readAhead + 202 {
      FullQueues(c, s.ring);
      TimesMonotone(c.readAhead + 202, |s.ring| - 1, c.n);
      TimesBeyond(c.readAhead + 2, LOW_WATER, c.n);
      assert false;
    }
  }

  /** The background thread and the consumer are never both blocked. */
  lemma NeverDeadlocked(c: Config, run: seq<State>, i: nat)
    requires Sensible(c) && IsRun(c, run) && i < |run|
    ensures ProducerEnabled(run[i]) || ConsumerEnabled(run[i])
  {
    RunsAreSound(c, run, i);
    hide Fifo, Objects, Lifetimes, Faithful, Credit, Full;
  }

  /** How many steps the background thread takes before it waits for a permit again. */
  ghost function ProducerRank(c: Config, p: Producer): nat {
    match p
    case Waiting => 0
    case Fetched(_) => 2 * c.n + 3
    case Stored => 2 * c.n + 2
    case Posting(left, counted) => if counted && left > 0 then 2 * left else 2 * left + 1
  }

  /** How many steps the consumer takes before it returns a minibatch. */
  ghost function ConsumerRank(k: Consumer): nat {
    match k
    case Idle => 7
    case Erased => 6
    case Token => 5
    case Popped(_) => 4
    case Counted(_) => 3
    case SawLow(_) => 2
    case Signaling(_) => 1
    case Decoding(_) => 0
  }

  /** What one permit lets the background thread do. */
  ghost function Work(c: Config): nat {
    2 * c.n + 4
  }

  ghost function Rank(c: Config, s: State): nat {
    Times(ConsumerRank(s.consumer), Work(c) + 1) + Times(s.prefSem, Work(c)) + ProducerRank(c, s.producer)
  }

  /** Every step that returns no minibatch brings the next one nearer. */
  lemma StepsCountDown(c: Config, s: State, s': State)
    requires Sensible(c) && Sound(c, s) && Next(c, s, s')
    ensures |s'.delivered| == |s.delivered| ==> Rank(c, s') < Rank(c, s)
    ensures |s'.delivered| >= |s.delivered|
  {
    hide Safe, Credit, Supplied, Full;
    if ConsumerEnabled(s) && s' == ConsumerStep(c, s) {
      ConsumerCountsDown(c, s);
    } else {
      var id :| CanFetch(c, s, id) && s' == ProducerStep(c, s, id);
      SafeCounts(c, s);
      ProducerCountsDown(c, s, id);
    }
  }

  lemma ProducerCountsDown(c: Config, s: State, id: nat)
    requires Walkable(c) && ProducerEnabled(s) && Counting(c, s)
    ensures Rank(c, ProducerStep(c, s, id)) < Rank(c, s) && ProducerStep(c, s, id).delivered == s.delivered
  {
    if s.producer.Waiting? {
      assert Times(s.prefSem, Work(c)) == Times(s.prefSem - 1, Work(c)) + Work(c);
    }
    hide Times, Flat;
  }

  lemma ConsumerAdvances(c: Config, s: State)
    requires ConsumerEnabled(s) && !ConsumerStep(c, s).fault
    ensures var t := ConsumerStep(c, s); t.producer == s.producer
    ensures var t := ConsumerStep(c, s); t.prefSem <= s.prefSem + 1
    ensures var t := ConsumerStep(c, s);
      if s.consumer.Decoding? then |t.delivered| == |s.delivered| + 1
      else t.delivered == s.delivered && ConsumerRank(t.consumer) < ConsumerRank(s.consumer)
  {
    hide DropEmpty;
  }

  lemma ConsumerCountsDown(c: Config, s: State)
    requires ConsumerEnabled(s) && Sound(c, s)
    ensures var t := ConsumerStep(c, s);
      && (|t.delivered| == |s.delivered| ==> Rank(c, t) < Rank(c, s))
      && |t.delivered| >= |s.delivered|
  {
    hide Safe, Credit, Supplied, Full, ConsumerRank, ProducerRank, Work;
    ConsumerNeverFaults(c, s);
    ConsumerAdvances(c, s);
    var t := ConsumerStep(c, s);
    var k, k', w := ConsumerRank(s.consumer), ConsumerRank(t.consumer), Work(c);
    hide ConsumerStep;
    if !s.consumer.Decoding? {
      TimesMonotone(k' + 1, k, w + 1);
      TimesMonotone(t.prefSem, s.prefSem + 1, w);
      assert Times(k' + 1, w + 1) == Times(k', w + 1) + w + 1;
      assert Times(s.prefSem + 1, w) == Times(s.prefSem, w) + w;
      hide Times;
    }
  }

  lemma RankBounded(c: Config, s: State)
    requires Sensible(c) && Sound(c, s)
    ensures Rank(c, s) <= 7 * (Work(c) + 1) + c.readAhead * Work(c) + 2 * c.n + 3
  {
    SafeCounts(c, s);
    TimesMonotone(ConsumerRank(s.consumer), 7, Work(c) + 1);
    TimesMonotone(s.prefSem, c.readAhead, Work(c));
    TimesIsProduct(7, Work(c) + 1);
    TimesIsProduct(c.readAhead, Work(c));
    hide Safe, Supplied, Full, Times, Flat;
  }

  lemma {:induction false} QuietRun(c: Config, run: seq<State>, i: nat, j: nat)
    requires Sensible(c) && IsRun(c, run) && i <= j < |run|
    ensures |run[i].delivered| <= |run[j].delivered|
    ensures |run[i].delivered| == |run[j].delivered| ==> Rank(c, run[j]) + (j - i) <= Rank(c, run[i])
    decreases j
  {
    hide IsRun, Next, Sound, Rank;
    if i < j {
      QuietRun(c, run, i, j - 1);
      RunsAreSound(c, run, j - 1);
      RunStep(c, run, j - 1);
      StepsCountDown(c, run[j - 1], run[j]);
    }
  }

  /** Liveness without any fairness: under every scheduling of the two threads, at most a fixed
      number of steps passes between one minibatch and the next. */
  lemma NextMinibatchArrives(c: Config, run: seq<State>, i: nat, j: nat)
    requires Sensible(c) && IsRun(c, run) && i <= j < |run|
    requires j - i > 7 * (Work(c) + 1) + c.readAhead * Work(c) + 2 * c.n + 3
    ensures |run[j].delivered| > |run[i].delivered|
  {
    RunsAreSound(c, run, i);
    RankBounded(c, run[i]);
    QuietRun(c, run, i, j);
    hide Rank, Sound;
  }

  /** Without a whole minibatch in an object, the first fetch leaves both threads blocked. */
  lemma NoMinibatchDeadlocks(c: Config) returns (run: seq<State>)
    requires Walkable(c) && c.n == 0 && c.readAhead == 1
    ensures IsRun(c, run)
    ensures !ProducerEnabled(run[|run| - 1]) && !ConsumerEnabled(run[|run| - 1])
  {
    var id := c.left;
    var s0 := Initial(c);
    var s1 := ProducerStep(c, s0, id);
    var s2 := ProducerStep(c, s1, id);
    var s3 := ProducerStep(c, s2, id);
    var s4 := ProducerStep(c, s3, id);
    var s5 := ConsumerStep(c, s4);
    run := [s0, s1, s2, s3, s4, s5];
    assert CanFetch(c, s0, id) && Next(c, s0, s1);
    var current := s1.current;
    var next := if c.random then id else current;
    assert CanFetch(c, s1, next) && ProducerStep(c, s1, next) == s2;
    assert CanFetch(c, s2, next) && ProducerStep(c, s2, next) == s3;
    assert CanFetch(c, s3, next) && ProducerStep(c, s3, next) == s4;
    assert Next(c, s4, s5);
    hide Next;
  }

  ghost predicate Stuck(c: Config, run: seq<State>) {
    IsRun(c, run) && !ProducerEnabled(run[|run| - 1]) && !ConsumerEnabled(run[|run| - 1])
  }

  /** With the source's read-ahead of one, some interleaving blocks both threads exactly when an
      object holds no whole minibatch. */
  lemma DeadlockIff(c: Config)
    requires Walkable(c) && c.readAhead == 1
    ensures (exists run :: Stuck(c, run)) <==> c.n == 0
  {
    if c.n == 0 {
      var run := NoMinibatchDeadlocks(c);
      assert Stuck(c, run);
    } else {
      forall run | IsRun(c, run) ensures !Stuck(c, run) {
        NeverDeadlocked(c, run, |run| - 1);
      }
    }
  }
}

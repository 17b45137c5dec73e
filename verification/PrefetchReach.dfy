/** Which minibatches some interleaving delivers, and which iterators deliver none. */
module PrefetchReach {
  import opened Multiples
  import opened Prefetch
  import opened PrefetchOrder
  import opened PrefetchProgress

  function Last(run: seq<State>): State
    requires |run| > 0
  {
    run[|run| - 1]
  }

  lemma Longer(c: Config, run: seq<State>, s: State)
    requires IsRun(c, run) && Next(c, Last(run), s)
    ensures IsRun(c, run + [s]) && Last(run + [s]) == s
  {
    hide Next;
    var more := run + [s];
    forall i | 0 <= i < |more| - 1 ensures Next(c, more[i], more[i + 1]) {
      if i < |run| - 1 {
        RunStep(c, run, i);
      }
    }
  }

  lemma ProducerMoves(c: Config, s: State)
    requires Sensible(c) && Safe(c, s) && ProducerEnabled(s)
    ensures exists id :: CanFetch(c, s, id) && Next(c, s, ProducerStep(c, s, id))
  {
    var id := if c.random then c.left else s.current;
    assert CanFetch(c, s, id);
    hide Counting, Fifo, Objects, Lifetimes, Faithful, ProducerStep;
    assert Next(c, s, ProducerStep(c, s, id));
  }

  /** Any run goes on. */
  lemma GoesOn(c: Config, run: seq<State>) returns (longer: seq<State>)
    requires Sensible(c) && IsRun(c, run)
    ensures IsRun(c, longer) && |longer| == |run| + 1 && longer[..|run|] == run
  {
    var s := Last(run);
    NeverDeadlocked(c, run, |run| - 1);
    RunsAreSafe(c, run, |run| - 1);
    hide IsRun, Safe;
    assert !s.fault by {
      SafeIsFaultless(c, s);
    }
    if ConsumerEnabled(s) {
      longer := run + [ConsumerStep(c, s)];
      Longer(c, run, ConsumerStep(c, s));
    } else {
      ProducerMoves(c, s);
      hide Next;
      var id :| CanFetch(c, s, id) && Next(c, s, ProducerStep(c, s, id));
      longer := run + [ProducerStep(c, s, id)];
      Longer(c, run, ProducerStep(c, s, id));
    }
  }

  lemma SafeIsFaultless(c: Config, s: State)
    requires Safe(c, s)
    ensures !s.fault
  {
    hide Counting, Fifo, Objects, Lifetimes, Faithful;
  }

  lemma {:induction false} GoesOnFor(c: Config, run: seq<State>, steps: nat) returns (longer: seq<State>)
    requires Sensible(c) && IsRun(c, run)
    ensures IsRun(c, longer) && |longer| == |run| + steps && longer[..|run|] == run
    decreases steps
  {
    hide IsRun;
    longer := run;
    if steps > 0 {
      var next := GoesOn(c, run);
      longer := GoesOnFor(c, next, steps - 1);
      assert longer[..|run|] == longer[..|next|][..|run|];
    }
  }

  lemma StartsAtInitial(c: Config)
    ensures IsRun(c, [Initial(c)])
  {
  }

  /** Some run delivers any given number of minibatches. */
  lemma {:induction false} LongRun(c: Config, count: nat) returns (run: seq<State>)
    requires Sensible(c)
    ensures IsRun(c, run) && |run| > 0 && |Last(run).delivered| >= count
  {
    hide IsRun, Work;
    if count == 0 {
      run := [Initial(c)];
      StartsAtInitial(c);
    } else {
      var short := LongRun(c, count - 1);
      var enough := 7 * (Work(c) + 1) + c.readAhead * Work(c) + 2 * c.n + 4;
      Enough(c, enough);
      run := GoesOnFor(c, short, enough);
      assert run[|short| - 1] == run[..|short|][|short| - 1];
      NextMinibatchArrives(c, run, |short| - 1, |run| - 1);
    }
  }

  lemma Enough(c: Config, enough: int)
    requires enough == 7 * (Work(c) + 1) + c.readAhead * Work(c) + 2 * c.n + 4
    ensures enough >= 0
  {
    hide Work;
    assert c.readAhead * Work(c) >= 0;
  }

  /** The run's k-th minibatch is one of the object. */
  ghost predicate Hands(c: Config, run: seq<State>, k: nat, obj: nat) {
    IsRun(c, run) && k < |Last(run).delivered| && Last(run).delivered[k].0 == obj
  }

  /** The first minibatch of the j-th object is delivered in some run. */
  lemma ObjectArrives(c: Config, j: nat) returns (run: seq<State>, k: nat)
    requires Sensible(c) && !c.random
    ensures Hands(c, run, k, NthObject(c, j))
  {
    k := j * c.n;
    run := LongRun(c, k + 1);
    ModUnique(k, j, 0, c.n);
    DeliveryOrder(c, run, |run| - 1, k);
    hide IsRun, NthObject;
  }

  /** No object holds a minibatch, or the iterator divides by the length of an empty range. */
  ghost predicate Barren(c: Config) {
    c.n == 0 || (!c.random && c.left == c.right)
  }

  ghost predicate Starved(c: Config, s: State) {
    && s.ready == 0 && s.delivered == [] && (s.consumer.Idle? || s.consumer.Erased?)
    && (s.producer.Posting? ==> s.producer.left == 0)
    && (c.left == c.right ==> s.producer.Waiting? || s.producer.Fetched?)
    && (s.fault ==> c.left == c.right)
  }

  lemma StaysStarved(c: Config, s: State, s': State)
    requires Barren(c) && Starved(c, s) && Next(c, s, s')
    ensures Starved(c, s')
  {
  }

  lemma {:induction false} BarrenStarves(c: Config, run: seq<State>, i: nat)
    requires Barren(c) && IsRun(c, run) && i < |run|
    ensures Starved(c, run[i])
  {
    if i > 0 {
      BarrenStarves(c, run, i - 1);
      RunStep(c, run, i - 1);
      hide Next, IsRun, Barren;
      StaysStarved(c, run[i - 1], run[i]);
    }
  }

  lemma ObjectsAre(c: Config, obj: nat)
    requires c.left != c.right
    ensures forall i: nat :: NthObject(c, i) >= c.left && (c.left < c.right ==> NthObject(c, i) < c.right)
    ensures obj >= c.left && (c.left < c.right ==> obj < c.right) ==> NthObject(c, obj - c.left) == obj
  {
    if obj >= c.left && c.left < c.right && obj < c.right {
      ModUnique(obj - c.left, 0, obj - c.left, c.right - c.left);
    }
  }

  /** What a sequential iterator delivers lies where it can be. */
  lemma HandedIs(c: Config, run: seq<State>, k: nat, obj: nat)
    requires !c.random && c.readAhead >= 1 && Hands(c, run, k, obj)
    ensures c.n >= 1 && c.left != c.right && InRange(c, obj)
  {
    if Barren(c) {
      BarrenStarves(c, run, |run| - 1);
      assert false;
    } else {
      HandedAt(c, run, k, obj);
    }
    hide Hands, Barren;
  }

  lemma HandedAt(c: Config, run: seq<State>, k: nat, obj: nat)
    requires Sensible(c) && !c.random && Hands(c, run, k, obj)
    ensures InRange(c, obj)
  {
    DeliveryOrder(c, run, |run| - 1, k);
    ObjectsAre(c, obj);
    hide NthObject, IsRun;
  }

  ghost predicate HandsAny(c: Config, run: seq<State>) {
    IsRun(c, run) && Last(run).delivered != []
  }

  /** A sequential iterator delivers something exactly if objects hold a minibatch and its range is not
      empty; a range that ends before it starts will do. */
  lemma DeliversIff(c: Config)
    requires !c.random && c.readAhead >= 1
    ensures (exists run :: HandsAny(c, run)) <==> c.n >= 1 && c.left != c.right
  {
    if c.n >= 1 && c.left != c.right {
      var run := LongRun(c, 1);
      assert HandsAny(c, run);
    } else {
      forall run | IsRun(c, run) ensures !HandsAny(c, run) {
        BarrenStarves(c, run, |run| - 1);
      }
    }
  }

  ghost predicate Crashes(c: Config, run: seq<State>) {
    IsRun(c, run) && Last(run).fault
  }

  /** Some interleaving of a sequential iterator fails exactly if the length of its range is 0. */
  lemma CrashesIff(c: Config)
    requires !c.random && c.readAhead >= 1
    ensures (exists run :: Crashes(c, run)) <==> c.left == c.right
  {
    if c.left == c.right {
      var run := FirstFetch(c);
      assert Crashes(c, run);
    } else {
      forall run | IsRun(c, run) ensures !Crashes(c, run) {
        if c.n >= 1 {
          RunsAreSafe(c, run, |run| - 1);
          SafeIsFaultless(c, Last(run));
        } else {
          BarrenStarves(c, run, |run| - 1);
        }
        hide IsRun, Safe;
      }
    }
  }

  lemma FirstFetch(c: Config) returns (run: seq<State>)
    requires !c.random && c.readAhead >= 1 && c.left == c.right
    ensures IsRun(c, run) && Last(run).fault
  {
    var s0 := Initial(c);
    var s1 := ProducerStep(c, s0, c.left);
    var s2 := ProducerStep(c, s1, s1.current);
    run := [s0, s1, s2];
    assert CanFetch(c, s0, c.left) && Next(c, s0, s1);
    assert CanFetch(c, s1, s1.current) && Next(c, s1, s2);
    hide Next;
  }

  /** The consumer gives a permit back exactly if it sees at most 199 minibatches ready and, then, a permit
      missing. */
  lemma PermitIsReturned(c: Config, s: State)
    requires s.consumer.Counted?
    ensures var seen := ConsumerStep(c, s);
      && ConsumerEnabled(s) && seen.prefSem == s.prefSem
      && (seen.consumer.SawLow? <==> s.numReady <= 199) && (seen.consumer.Decoding? <==> s.numReady > 199)
  {
  }

  predicate Returns(c: Config, s: State) {
    && ConsumerEnabled(s) && ConsumerStep(c, s).consumer.Decoding?
    && ConsumerStep(c, s).prefSem == s.prefSem + 1
  }

  lemma PermitIsMissing(c: Config, s: State)
    requires s.consumer.SawLow?
    ensures var asked := ConsumerStep(c, s);
      && ConsumerEnabled(s) && asked.prefSem == s.prefSem
      && (s.prefSem >= c.readAhead ==> asked.consumer.Decoding?)
      && (s.prefSem < c.readAhead ==> asked.consumer.Signaling? && Returns(c, asked))
  {
  }

  /** Whenever a random iterator can fetch, it can fetch any object of its range. */
  lemma AnyObjectCanBeDrawn(c: Config, run: seq<State>, id: nat) returns (longer: seq<State>)
    requires Sensible(c) && c.random && c.left <= id < c.right && IsRun(c, run)
    requires Last(run).producer.Waiting? && Last(run).prefSem > 0
    ensures IsRun(c, longer) && |longer| == |run| + 1 && Last(longer).fetched == Last(run).fetched + [id]
  {
    var s := Last(run);
    RunsAreSafe(c, run, |run| - 1);
    SafeIsFaultless(c, s);
    var s' := ProducerStep(c, s, id);
    assert CanFetch(c, s, id) && Next(c, s, s');
    hide IsRun, Safe, Next;
    Longer(c, run, s');
    longer := run + [s'];
  }
}

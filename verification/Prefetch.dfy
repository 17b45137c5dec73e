/** The prefetching iterator as interleaved steps of its background thread and its consumer.
    Each step is one access to shared state, in the order the two threads make them. */
module Prefetch {
  /** The iterator is told to fetch objects left..right-1, each holding n minibatches. */
  datatype Config = Config(left: nat, right: nat, n: nat, readAhead: nat, random: bool)

  /** A random iterator draws from its range.  A sequential one only compares with its right end, so it
      also runs from a left end behind that; it divides by the length of the range. */
  ghost predicate Walkable(c: Config) {
    if c.random then c.left < c.right else c.left != c.right
  }

  ghost predicate Sensible(c: Config) {
    Walkable(c) && c.n >= 1 && c.readAhead >= 1
  }

  const LOW_WATER := 200
  const RING_CAPACITY := 100000

  /** A queued pointer: the string it points into, the minibatch within it, and the string's
      version again if this is its last minibatch, -1 otherwise. */
  datatype Item = Item(version: nat, index: nat, last: int)

  datatype Producer =
    | Waiting                              // at pref_sem.wait()
    | Fetched(obj: nat)                    // has the object, about to count passes and save its string
    | Stored                               // about to add the object's queue to the ring
    | Posting(left: nat, counted: bool)    // in the loop that counts and posts each minibatch

  datatype Consumer =
    | Idle                                 // about to call getNext
    | Erased                               // at sem_wait()
    | Token                                // about to pop under the ring lock
    | Popped(item: Item)                   // about to decrement num_minibatches_ready
    | Counted(item: Item)                  // about to read num_minibatches_ready
    | SawLow(item: Item)                   // about to read the value of pref_sem
    | Signaling(item: Item)                // about to signal pref_sem
    | Decoding(item: Item)                 // about to build the dataset

  datatype State = State(
    prefSem: nat, ready: nat, numReady: int,
    strings: map<int, nat>, version: nat, ring: seq<seq<Item>>, current: nat,
    producer: Producer, consumer: Consumer, toDelete: int,
    fetched: seq<nat>,                     // every object id obtained, in order
    pushed: nat,                           // how many objects have entered the ring
    popped: seq<Item>,                     // every item taken from the ring, in order
    delivered: seq<(nat, nat)>,            // object id and index of every minibatch returned
    fault: bool)                           // an empty ring or a freed string was touched, or a division by zero

  /** The state after the constructor: the thread is started before `current` is set, and is
      modelled as starting after it. */
  function Initial(c: Config): State {
    State(c.readAhead, 0, 0, map[], 0, [], if c.random then 0 else c.left, Waiting, Idle, -1, [], 0, [], [], false)
  }

  /** The queue pushSamples builds for one object. */
  function Batch(v: nat, n: nat): (q: seq<Item>)
    ensures |q| == n
    ensures forall i | 0 <= i < n :: q[i] == Item(v, i, if i + 1 == n then v else -1)
  {
    seq(n, i requires 0 <= i < n => Item(v, i, if i + 1 == n then v else -1))
  }

  /** getObjId for a sequential iterator. */
  function NextObject(c: Config, current: nat): nat {
    if current + 1 == c.right then c.left else current + 1
  }

  predicate CanFetch(c: Config, s: State, id: nat) {
    if c.random then c.left <= id < c.right else id == s.current
  }

  predicate ProducerEnabled(s: State) {
    s.producer.Waiting? ==> s.prefSem > 0
  }

  function ProducerStep(c: Config, s: State, id: nat): State
    requires ProducerEnabled(s)
  {
    match s.producer
    case Waiting =>
      s.(prefSem := s.prefSem - 1, fetched := s.fetched + [id],
         current := if c.random then s.current else NextObject(c, s.current), producer := Fetched(id))
    case Fetched(obj) =>
      if c.left == c.right then s.(fault := true)
      else s.(strings := s.strings[s.version := obj], producer := Stored)
    case Stored =>
      s.(ring := s.ring + [Batch(s.version, c.n)], pushed := s.pushed + 1, producer := Posting(c.n, false))
    case Posting(left, counted) =>
      if left == 0 then s.(version := s.version + 1, producer := Waiting)
      else if !counted then s.(numReady := s.numReady + 1, producer := Posting(left, true))
      else s.(ready := s.ready + 1, producer := Posting(left - 1, false))
  }

  /** The loop that discards empty queues from the front of the ring. */
  function DropEmpty(ring: seq<seq<Item>>): (r: seq<seq<Item>>)
    ensures r != [] ==> r[0] != []
  {
    if ring != [] && ring[0] == [] then DropEmpty(ring[1..]) else ring
  }

  predicate ConsumerEnabled(s: State) {
    s.consumer.Erased? ==> s.ready > 0
  }

  function ConsumerStep(c: Config, s: State): State
    requires ConsumerEnabled(s)
  {
    match s.consumer
    case Idle => s.(strings := if s.toDelete == -1 then s.strings else s.strings - {s.toDelete}, consumer := Erased)
    case Erased => s.(ready := s.ready - 1, consumer := Token)
    case Token =>
      var ring := DropEmpty(s.ring);
      if ring == [] then s.(fault := true) else
        s.(ring := [ring[0][1..]] + ring[1..], popped := s.popped + [ring[0][0]], consumer := Popped(ring[0][0]))
    case Popped(item) => s.(numReady := s.numReady - 1, consumer := Counted(item))
    case Counted(item) =>
      s.(toDelete := item.last, consumer := if s.numReady < LOW_WATER then SawLow(item) else Decoding(item))
    case SawLow(item) => s.(consumer := if s.prefSem < c.readAhead then Signaling(item) else Decoding(item))
    case Signaling(item) => s.(prefSem := s.prefSem + 1, consumer := Decoding(item))
    case Decoding(item) =>
      if item.version in s.strings
      then s.(delivered := s.delivered + [(s.strings[item.version], item.index)], consumer := Idle)
      else s.(fault := true)
  }

  ghost predicate Next(c: Config, s: State, s': State) {
    && !s.fault
    && (|| (ProducerEnabled(s) && exists id :: CanFetch(c, s, id) && s' == ProducerStep(c, s, id))
        || (ConsumerEnabled(s) && s' == ConsumerStep(c, s)))
  }

  ghost predicate IsRun(c: Config, run: seq<State>) {
    && |run| > 0 && run[0] == Initial(c)
    && forall i | 0 <= i < |run| - 1 :: Next(c, run[i], run[i + 1])
  }

  lemma RunStep(c: Config, run: seq<State>, i: nat)
    requires IsRun(c, run) && i + 1 < |run|
    ensures Next(c, run[i], run[i + 1])
  {
    hide Next;
  }
}

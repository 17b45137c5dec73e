/** The iterator's list of queues: a circular buffer of queues, filled by the background thread and
    emptied from the front by the consumer, each under the ring lock. */
module QueueRings {
  import opened CircularBuffers
  import opened Prefetch
  import opened PrefetchOrder
  import opened PrefetchProgress

  class Queue {
    var items: seq<Item>

    constructor (items: seq<Item>)
      ensures this.items == items
    {
      this.items := items;
    }
  }

  ghost function ItemsOf(queues: seq<Queue>): (r: seq<seq<Item>>)
    reads queues
    ensures |r| == |queues| && forall i | 0 <= i < |r| :: r[i] == queues[i].items
  {
    if queues == [] then [] else [queues[0].items] + ItemsOf(queues[1..])
  }

  class QueueRing {
    const list: CircularBuffer<Queue?>
    ghost var queues: seq<Queue>

    ghost predicate Valid()
      reads this, list, list.buffer
    {
      && list.Valid() && list.Contents() == queues
      && forall i, j | 0 <= i < j < |queues| :: queues[i] != queues[j]
    }

    ghost function View(): seq<seq<Item>>
      reads this, queues
    {
      ItemsOf(queues)
    }

    constructor (capacity: nat)
      requires capacity >= 1
      ensures Valid() && View() == [] && queues == []
      ensures list.capacity == capacity && fresh(list) && fresh(list.buffer)
    {
      list := new CircularBuffer<Queue?>(capacity);
      queues := [];
    }

    /** A new queue goes to the end; in the last free cell it makes the list read as empty. */
    method AddQueue(items: seq<Item>)
      requires Valid()
      modifies this`queues, list`tail, list.buffer
      ensures Valid()
      ensures View() == if |old(queues)| < list.capacity - 1 then old(View()) + [items] else []
      ensures forall i | 0 <= i < |queues| :: fresh(queues[i]) || (i < |old(queues)| && queues[i] == old(queues)[i])
    {
      list.SizeIsLength();
      var queue := new Queue(items);
      list.Add(queue);
      queues := if |queues| < list.capacity - 1 then queues + [queue] else [];
    }

    /** Pops the queue at the front, and looks at the next. */
    method DropFront() returns (front: Option<Queue?>)
      requires Valid() && queues != []
      modifies this`queues, list`front
      ensures Valid() && queues == old(queues[1..]) && View() == old(View())[1..]
      ensures if queues == [] then front.None? else front.Some? && front.value == queues[0]
    {
      var dropped := list.Pop();
      queues := queues[1..];
      front := list.Front();
    }

    /** The loop that discards empty queues. */
    method DropAll() returns (front: Option<Queue?>)
      requires Valid()
      modifies this`queues, list`front
      ensures Valid() && View() == DropEmpty(old(View()))
      ensures |queues| <= |old(queues)| && queues == old(queues)[|old(queues)| - |queues|..]
      ensures if queues == [] then front.None? else front.Some? && front.value == queues[0]
    {
      hide ItemsOf;
      front := list.Front();
      ghost var k := 0;
      assert queues[0..] == queues;
      while front.Some? && front.value.items == []
        invariant 0 <= k <= |old(queues)| && queues == old(queues)[k..]
        invariant Valid() && if queues == [] then front.None? else front.Some? && front.value == queues[0]
        invariant DropEmpty(View()) == DropEmpty(old(View()))
        decreases |queues|
      {
        assert View()[0] == [] && old(queues)[k..][1..] == old(queues)[k + 1..];
        front := DropFront();
        k := k + 1;
      }
    }

    /** Takes an item out of the queue at the front. */
    method PopItem(queue: Queue) returns (item: Item)
      requires Valid() && queues != [] && queue == queues[0] && queue.items != []
      modifies queue
      ensures Valid()
      ensures item == old(queue.items[0]) && View() == [old(queue.items[1..])] + old(View())[1..]
    {
      item := queue.items[0];
      queue.items := queue.items[1..];
    }

    /** The locked section of getNext: empty queues at the front go, and the first item of the next one is
        taken out of it.  It throws when no queue holds anything. */
    method TakeNext() returns (item: Option<Item>)
      requires Valid()
      modifies this`queues, list`front, queues
      ensures Valid()
      ensures |queues| <= |old(queues)| && queues == old(queues)[|old(queues)| - |queues|..]
      ensures var left := DropEmpty(old(View()));
        if left == [] then item.None? && View() == []
        else item == Some(left[0][0]) && View() == [left[0][1..]] + left[1..]
    {
      hide DropEmpty, ItemsOf;
      var front := DropAll();
      item := None;
      if front.Some? {
        var next := PopItem(front.value);
        item := Some(next);
      }
    }
  }

  /** What a step does to the ring. */
  ghost predicate Moves(c: Config, s: State, s': State) {
    if s'.pushed > s.pushed then s'.ring == s.ring + [Batch(s.version, c.n)] && s'.popped == s.popped
    else if |s'.popped| > |s.popped| then
      var left := DropEmpty(s.ring);
      left != [] && s'.ring == [left[0][1..]] + left[1..] && s'.popped == s.popped + [left[0][0]]
    else s'.ring == s.ring && s'.popped == s.popped
  }

  lemma ProducerRings(c: Config, s: State, id: nat)
    requires ProducerEnabled(s)
    ensures Moves(c, s, ProducerStep(c, s, id))
  {
    hide DropEmpty, Batch;
  }

  lemma ConsumerRings(c: Config, s: State)
    requires ConsumerEnabled(s)
    ensures Moves(c, s, ConsumerStep(c, s))
  {
    hide DropEmpty, Batch;
  }

  lemma RingMoves(c: Config, run: seq<State>, i: nat)
    requires IsRun(c, run) && i + 1 < |run|
    ensures Moves(c, run[i], run[i + 1])
  {
    RunStep(c, run, i);
    var s := run[i];
    hide IsRun, Moves, ConsumerStep, ProducerStep;
    if ConsumerEnabled(s) && run[i + 1] == ConsumerStep(c, s) {
      ConsumerRings(c, s);
    } else {
      var id :| CanFetch(c, s, id) && run[i + 1] == ProducerStep(c, s, id);
      ProducerRings(c, s, id);
    }
  }

  /** The adds and pops of a run, made through the circular buffer. */
  method Mirror(c: Config, run: seq<State>) returns (ring: QueueRing, taken: seq<Item>)
    requires Sensible(c) && IsRun(c, run) && c.readAhead + 203 < RING_CAPACITY
    ensures fresh(ring) && ring.Valid() && ring.list.capacity == 100_000
    ensures ring.View() == run[|run| - 1].ring && taken == run[|run| - 1].popped
  {
    ring := new QueueRing(RING_CAPACITY);
    taken := [];
    assert |run| > 0 && run[0] == Initial(c);
    hide IsRun, DropEmpty, Batch, ItemsOf;
    for i := 0 to |run| - 1
      invariant fresh(ring) && fresh(ring.list) && fresh(ring.list.buffer)
      invariant fresh(ring.queues)
      invariant ring.Valid() && ring.list.capacity == RING_CAPACITY
      invariant ring.View() == run[i].ring && taken == run[i].popped
    {
      RingMoves(c, run, i);
      ReadAheadBounded(c, run, i);
      if run[i + 1].pushed > run[i].pushed {
        ring.AddQueue(Batch(run[i].version, c.n));
      } else if |run[i + 1].popped| > |run[i].popped| {
        var item := ring.TakeNext();
        taken := taken + [item.value];
      }
    }
  }
}

/** The parameter server's request dispatch: poll threads push ready connections into a queue, worker
    threads serve them, as interleaved steps of any number of threads over any number of connections. */
module Dispatch {
  import opened Repeats

  /** One pollfd and its socket.  `sent`, `handled` and `inHand` record the messages that the client sent,
      that a handler finished, and that a handler is working on. */
  datatype Slot = Slot(owner: nat, open: bool, events: bool, revents: bool, unpolled: bool, eof: bool,
                       incoming: seq<int>, inHand: seq<int>, handled: seq<int>, sent: seq<int>)

  /** Where a poll thread stands in loop(). */
  datatype PollPc =
    | Idle
    | Polling(watched: set<nat>)
    | Drain
    | Scan(next: nat)
    | Post(slot: nat)
    | Reset(slot: nat)

  /** Where a worker thread stands in gradient_f(). */
  datatype WorkerPc =
    | Waiting
    | Woken
    | Reading(slot: nat)
    | Handling(slot: nat, msg: int)
    | Rearming(slot: nat)
    | Notifying(slot: nat)

  datatype State = State(slots: seq<Slot>, queue: seq<nat>, sem: nat, polls: seq<PollPc>, pipes: seq<nat>,
                         workers: seq<WorkerPc>, fault: bool)

  datatype Action =
    | Connect(r: nat)
    | Send(slot: nat, msg: int)
    | HangUp(slot: nat)
    | PollCall(t: nat)
    | PollReturn(t: nat, listening: bool)
    | DrainPipe(t: nat)
    | ScanNext(t: nat)
    | PostSem(t: nat)
    | ResetRevents(t: nat)
    | Wake(w: nat)
    | Pop(w: nat)
    | Read(w: nat, slot: nat)
    | Handle(w: nat, slot: nat)
    | Rearm(w: nat, slot: nat)
    | Notify(w: nat, slot: nat)

  predicate Readable(s: Slot) {
    s.incoming != [] || s.eof
  }

  /** The slots thread t asks poll() to watch. */
  function Watched(slots: seq<Slot>, t: nat): (w: set<nat>)
    ensures forall k: nat :: k in w <==> (k < |slots| && slots[k].owner == t && slots[k].open && slots[k].events)
  {
    if slots == [] then {} else
      var n := |slots| - 1;
      var before := Watched(slots[..n], t);
      if slots[n].owner == t && slots[n].open && slots[n].events then before + {n} else before
  }

  /** poll() overwrites the revents of every slot of the calling thread. */
  function Returned(slots: seq<Slot>, t: nat, watched: set<nat>): (after: seq<Slot>)
    ensures |after| == |slots|
    ensures forall k | 0 <= k < |slots| ::
      after[k] == if slots[k].owner == t then slots[k].(revents := k in watched && Readable(slots[k])) else slots[k]
  {
    if slots == [] then [] else
      var n := |slots| - 1;
      var s := slots[n];
      Returned(slots[..n], t, watched) +
      [if s.owner == t then s.(revents := n in watched && Readable(s)) else s]
  }

  /** Once its thread calls poll(), a connection is no longer unpolled. */
  function Seen(slots: seq<Slot>, t: nat): (after: seq<Slot>)
    ensures |after| == |slots|
    ensures forall k | 0 <= k < |slots| ::
      after[k] == if slots[k].owner == t then slots[k].(unpolled := false) else slots[k]
  {
    if slots == [] then [] else
      var n := |slots| - 1;
      Seen(slots[..n], t) + [if slots[n].owner == t then slots[n].(unpolled := false) else slots[n]]
  }

  /** The accept branch: a new connection goes to any poll thread. */
  function Connected(s: State, r: nat): State {
    s.(slots := s.slots + [Slot(r, true, true, false, true, false, [], [], [], [])])
  }

  /** A client's data arrives. */
  function Sent(s: State, k: nat, msg: int): State
    requires k < |s.slots|
  {
    var slot := s.slots[k];
    s.(slots := s.slots[k := slot.(incoming := slot.incoming + [msg], sent := slot.sent + [msg])])
  }

  /** A client shuts its side down. */
  function HungUp(s: State, k: nat): State
    requires k < |s.slots|
  {
    s.(slots := s.slots[k := s.slots[k].(eof := true)])
  }

  /** loop() calls poll(). */
  function Blocked(s: State, t: nat): State
    requires t < |s.polls|
  {
    s.(polls := s.polls[t := Polling(Watched(s.slots, t))], slots := Seen(s.slots, t))
  }

  /** poll() returns: the pipe goes first, and a time-out finds nothing.  Thread 0 may also find that the
      listening socket has a connection to accept. */
  function Unblocked(s: State, t: nat, listening: bool): State
    requires t < |s.polls| == |s.pipes| && s.polls[t].Polling?
  {
    var after := Returned(s.slots, t, s.polls[t].watched);
    var any := exists k | 0 <= k < |after| :: after[k].owner == t && after[k].revents;
    var next := if s.pipes[t] > 0 then Drain else if any || (t == 0 && listening) then Scan(0) else Idle;
    s.(slots := after, polls := s.polls[t := next])
  }

  function Drained(s: State, t: nat): State
    requires t < |s.polls| == |s.pipes| && s.pipes[t] > 0
  {
    s.(pipes := s.pipes[t := s.pipes[t] - 1], polls := s.polls[t := Idle])
  }

  /** The scan over the returned events, and process() up to its push. */
  function Scanned(s: State, t: nat): State
    requires t < |s.polls| && s.polls[t].Scan?
  {
    var k := s.polls[t].next;
    if k >= |s.slots| then
      s.(polls := s.polls[t := Idle])
    else if s.slots[k].owner == t && s.slots[k].open && s.slots[k].revents then
      s.(slots := s.slots[k := s.slots[k].(events := false)], queue := s.queue + [k], polls := s.polls[t := Post(k)])
    else
      s.(polls := s.polls[t := Scan(k + 1)])
  }

  function Posted(s: State, t: nat): State
    requires t < |s.polls| && s.polls[t].Post?
  {
    s.(sem := s.sem + 1, polls := s.polls[t := Reset(s.polls[t].slot)])
  }

  function Resetted(s: State, t: nat): State
    requires t < |s.polls| && s.polls[t].Reset? && s.polls[t].slot < |s.slots|
  {
    var k := s.polls[t].slot;
    s.(slots := s.slots[k := s.slots[k].(revents := false)], polls := s.polls[t := Scan(k + 1)])
  }

  function WokenUp(s: State, w: nat): State
    requires w < |s.workers| && s.sem > 0
  {
    s.(sem := s.sem - 1, workers := s.workers[w := Woken])
  }

  /** Taking the front of an empty queue is a fault. */
  function Popped(s: State, w: nat): State
    requires w < |s.workers|
  {
    if s.queue == [] then s.(fault := true) else
      s.(queue := s.queue[1..], workers := s.workers[w := Reading(s.queue[0])])
  }

  /** The predicate of the steps that a worker takes while it has slot k. */
  predicate At(s: State, w: nat, k: nat) {
    && w < |s.workers| && !s.workers[w].Waiting? && !s.workers[w].Woken?
    && s.workers[w].slot == k < |s.slots|
  }

  /** A read that finds the stream at its end closes the connection. */
  function DoneReading(s: State, w: nat, k: nat): State
    requires At(s, w, k)
  {
    var slot := s.slots[k];
    if slot.incoming == [] then
      s.(slots := s.slots[k := slot.(open := false, revents := false)], workers := s.workers[w := Waiting])
    else
      s.(slots := s.slots[k := slot.(incoming := slot.incoming[1..], inHand := [slot.incoming[0]])],
         workers := s.workers[w := Handling(k, slot.incoming[0])])
  }

  function Handled(s: State, w: nat, k: nat): State
    requires At(s, w, k) && s.workers[w].Handling?
  {
    var slot := s.slots[k];
    s.(slots := s.slots[k := slot.(inHand := [], handled := slot.handled + [s.workers[w].msg])],
       workers := s.workers[w := Rearming(k)])
  }

  function Rearmed(s: State, w: nat, k: nat): State
    requires At(s, w, k)
  {
    s.(slots := s.slots[k := s.slots[k].(events := true)], workers := s.workers[w := Notifying(k)])
  }

  function Notified(s: State, w: nat, k: nat): State
    requires At(s, w, k) && s.slots[k].owner < |s.pipes|
  {
    var t := s.slots[k].owner;
    s.(pipes := s.pipes[t := s.pipes[t] + 1], workers := s.workers[w := Waiting])
  }

  predicate Enabled(s: State, a: Action) {
    match a
    case Connect(r) => r < |s.polls| && s.polls[0].Scan?
    case Send(k, _) => k < |s.slots| && s.slots[k].open && !s.slots[k].eof
    case HangUp(k) => k < |s.slots| && s.slots[k].open
    case PollCall(t) => t < |s.polls| && s.polls[t].Idle?
    case PollReturn(t, _) => t < |s.polls| == |s.pipes| && s.polls[t].Polling?
    case DrainPipe(t) => t < |s.polls| == |s.pipes| && s.polls[t].Drain? && s.pipes[t] > 0
    case ScanNext(t) => t < |s.polls| && s.polls[t].Scan?
    case PostSem(t) => t < |s.polls| && s.polls[t].Post?
    case ResetRevents(t) => t < |s.polls| && s.polls[t].Reset? && s.polls[t].slot < |s.slots|
    case Wake(w) => w < |s.workers| && s.workers[w].Waiting? && s.sem > 0
    case Pop(w) => w < |s.workers| && s.workers[w].Woken?
    case Read(w, k) => At(s, w, k) && s.workers[w].Reading? && Readable(s.slots[k])
    case Handle(w, k) => At(s, w, k) && s.workers[w].Handling?
    case Rearm(w, k) => At(s, w, k) && s.workers[w].Rearming?
    case Notify(w, k) => At(s, w, k) && s.workers[w].Notifying? && s.slots[k].owner < |s.pipes|
  }

  function Next(s: State, a: Action): State
    requires Enabled(s, a)
  {
    match a
    case Connect(r) => Connected(s, r)
    case Send(k, msg) => Sent(s, k, msg)
    case HangUp(k) => HungUp(s, k)
    case PollCall(t) => Blocked(s, t)
    case PollReturn(t, listening) => Unblocked(s, t, listening)
    case DrainPipe(t) => Drained(s, t)
    case ScanNext(t) => Scanned(s, t)
    case PostSem(t) => Posted(s, t)
    case ResetRevents(t) => Resetted(s, t)
    case Wake(w) => WokenUp(s, w)
    case Pop(w) => Popped(s, w)
    case Read(w, k) => DoneReading(s, w, k)
    case Handle(w, k) => Handled(s, w, k)
    case Rearm(w, k) => Rearmed(s, w, k)
    case Notify(w, k) => Notified(s, w, k)
  }

  /** The server before any client connects, poll threads about to poll and workers about to wait. */
  function Start(polls: nat, workers: nat): State {
    State([], [], 0, Repeat(polls, Idle), Repeat(polls, 0), Repeat(workers, Waiting), false)
  }

  /** A run: each action is enabled where it is taken. */
  ghost predicate IsRun(s: State, actions: seq<Action>)
    decreases |actions|
  {
    actions == [] || (Enabled(s, actions[0]) && IsRun(Next(s, actions[0]), actions[1..]))
  }

  ghost function RunTo(s: State, actions: seq<Action>): State
    requires IsRun(s, actions)
    decreases |actions|
  {
    if actions == [] then s else RunTo(Next(s, actions[0]), actions[1..])
  }
}

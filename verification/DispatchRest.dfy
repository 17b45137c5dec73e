/** The dispatch at rest: which messages are handled when nothing is left to do but time out. */
module DispatchRest {
  import opened Dispatch
  import opened DispatchSafety
  import opened Repeats
  import opened Sets

  /** Every worker waits, no post is outstanding, and every poll thread is blocked with nothing to wake it. */
  ghost predicate AtRest(s: State)
    requires Bounded(s)
  {
    && s.sem == 0
    && (forall w | 0 <= w < |s.workers| :: s.workers[w].Waiting?)
    && (forall t | 0 <= t < |s.polls| :: s.polls[t].Polling? && s.pipes[t] == 0)
    && (forall t | 0 <= t < |s.polls| :: forall k <- s.polls[t].watched :: k < |s.slots| ==> !Readable(s.slots[k]))
  }

  lemma {:induction false} NoneWoken(workers: seq<WorkerPc>)
    requires forall w | 0 <= w < |workers| :: workers[w].Waiting?
    ensures WokenCount(workers) == 0
  {
    if workers != [] {
      NoneWoken(workers[..|workers| - 1]);
    }
  }

  lemma {:induction false} NonePosting(polls: seq<PollPc>)
    requires forall t | 0 <= t < |polls| :: polls[t].Polling?
    ensures PostingCount(polls) == 0
  {
    if polls != [] {
      NonePosting(polls[..|polls| - 1]);
    }
  }

  /** No wake-up is lost: when the server comes to rest, every message of every open connection that its
      thread has polled at least once has been handled. */
  lemma NothingStranded(polls: nat, workers: nat, actions: seq<Action>, k: nat)
    requires IsRun(Start(polls, workers), actions)
    requires var s := RunTo(Start(polls, workers), actions);
      Bounded(s) && AtRest(s) && k < |s.slots| && s.slots[k].open && !s.slots[k].unpolled
    ensures var s := RunTo(Start(polls, workers), actions);
      s.queue == [] && s.slots[k].handled == s.slots[k].sent && !s.slots[k].eof
  {
    StartSafe(polls, workers);
    RunKeepsSafe(Start(polls, workers), actions);
    var s := RunTo(Start(polls, workers), actions);
    NoneWoken(s.workers);
    NonePosting(s.polls);
    NoHolder(s.workers, k);
    hide Holders, WokenCount, PostingCount, IsRun, RunTo, Start;
    assert s.queue == [];
    assert s.slots[k].events;
    assert !Pending(s.workers, k);
  }

  /** A connection that its thread has not polled yet is as it was accepted, and no blocked poll watches it. */
  ghost predicate Untouched(s: State) {
    && (forall k | 0 <= k < |s.slots| && s.slots[k].unpolled :: IsNew(s.slots[k]))
    && (forall t | 0 <= t < |s.polls| && s.polls[t].Polling? :: forall k <- s.polls[t].watched ::
          k < |s.slots| ==> !s.slots[k].unpolled)
  }

  predicate IsNew(slot: Slot) {
    slot.open && slot.events && !slot.revents && slot.inHand == [] && slot.handled == []
  }

  /** The steps of clients and poll threads. */
  lemma ConnectedUntouched(s: State, r: nat)
    requires Untouched(s) && Bounded(s) && Flagged(s)
    ensures Untouched(Connected(s, r))
  {
  }

  lemma SentUntouched(s: State, k: nat, msg: int)
    requires Untouched(s) && k < |s.slots|
    ensures Untouched(Sent(s, k, msg)) && Untouched(HungUp(s, k))
  {
  }

  lemma BlockedUntouched(s: State, t: nat)
    requires Untouched(s) && t < |s.polls|
    ensures Untouched(Blocked(s, t))
  {
    hide Watched, Seen;
  }

  lemma UnblockedUntouched(s: State, t: nat, listening: bool)
    requires Untouched(s) && t < |s.polls| == |s.pipes| && s.polls[t].Polling?
    ensures Untouched(Unblocked(s, t, listening))
  {
    hide Returned;
  }

  lemma ScannedUntouched(s: State, t: nat)
    requires Untouched(s) && t < |s.polls| && s.polls[t].Scan?
    ensures Untouched(Scanned(s, t))
  {
  }

  lemma ResettedUntouched(s: State, t: nat)
    requires Untouched(s) && t < |s.polls| && s.polls[t].Reset? && s.polls[t].slot < |s.slots|
    ensures Untouched(Resetted(s, t))
  {
  }

  /** The steps of a worker change only the connection it has, which is not armed and so not new. */
  lemma WorkerUntouched(s: State, w: nat, k: nat)
    requires Untouched(s) && Partitioned(s) && At(s, w, k) && !s.workers[w].Notifying?
    ensures Untouched(DoneReading(s, w, k)) && Untouched(Rearmed(s, w, k))
    ensures s.workers[w].Handling? ==> Untouched(Handled(s, w, k))
  {
    OnlyHolder(s, w, k);
    hide Partitioned;
    assert !s.slots[k].unpolled;
  }

  lemma StepUntouched(s: State, a: Action)
    requires Safe(s) && Untouched(s) && Enabled(s, a)
    ensures Untouched(Next(s, a))
  {
    hide Untouched, Partitioned, Counted, Fed, Flagged, InOrder, Awake, Bounded;
    match a
    case Connect(r) => ConnectedUntouched(s, r);
    case Send(k, msg) => SentUntouched(s, k, msg);
    case HangUp(k) => SentUntouched(s, k, 0);
    case PollCall(t) => BlockedUntouched(s, t);
    case PollReturn(t, listening) => UnblockedUntouched(s, t, listening);
    case DrainPipe(t) => SameSlotsUntouched(s, Next(s, a));
    case ScanNext(t) => ScannedUntouched(s, t);
    case PostSem(t) => SameSlotsUntouched(s, Next(s, a));
    case ResetRevents(t) => ResettedUntouched(s, t);
    case Wake(w) => SameSlotsUntouched(s, Next(s, a));
    case Pop(w) => SameSlotsUntouched(s, Next(s, a));
    case Read(w, k) => WorkerUntouched(s, w, k);
    case Handle(w, k) => WorkerUntouched(s, w, k);
    case Rearm(w, k) => WorkerUntouched(s, w, k);
    case Notify(w, k) => SameSlotsUntouched(s, Next(s, a));
  }

  /** A step that leaves the slots alone and blocks no further poll. */
  lemma SameSlotsUntouched(s: State, s': State)
    requires Untouched(s) && s'.slots == s.slots && |s'.polls| == |s.polls|
    requires forall t | 0 <= t < |s.polls| && s'.polls[t].Polling? :: s'.polls[t] == s.polls[t]
    ensures Untouched(s')
  {
    hide IsNew;
  }

  lemma {:induction false} RunKeepsUntouched(s: State, actions: seq<Action>)
    requires Safe(s) && Untouched(s) && IsRun(s, actions)
    ensures Untouched(RunTo(s, actions))
    decreases |actions|
  {
    hide Safe, Untouched, Next;
    if actions != [] {
      StepSafe(s, actions[0]);
      StepUntouched(s, actions[0]);
      RunKeepsUntouched(Next(s, actions[0]), actions[1..]);
    }
  }

  lemma StartUntouched(polls: nat, workers: nat)
    ensures Untouched(Start(polls, workers))
  {
  }

  /** The exact extent of it: when the server comes to rest, an open connection has a message left
      waiting exactly when it was handed to a thread that has not called poll() since, and has sent any. */
  lemma HandledAtRestIff(polls: nat, workers: nat, actions: seq<Action>, k: nat)
    requires IsRun(Start(polls, workers), actions)
    requires var s := RunTo(Start(polls, workers), actions);
      Bounded(s) && AtRest(s) && k < |s.slots| && s.slots[k].open
    ensures var slot := RunTo(Start(polls, workers), actions).slots[k];
      slot.handled == slot.sent <==> !slot.unpolled || slot.sent == []
  {
    var s := RunTo(Start(polls, workers), actions);
    if s.slots[k].unpolled {
      StartSafe(polls, workers);
      StartUntouched(polls, workers);
      RunKeepsUntouched(Start(polls, workers), actions);
      hide IsRun, RunTo, Start, AtRest, Bounded;
      assert IsNew(s.slots[k]);
    } else {
      hide AtRest, Bounded;
      NothingStranded(polls, workers, actions, k);
    }
  }

  /** How far thread t's scan has come: the slots in front have been looked at. */
  function Scanning(pc: PollPc): nat {
    match pc
    case Scan(next) => next
    case Post(k) => k
    case Reset(k) => k
    case _ => 0
  }

  /** Behind a scan no flag of its thread is left standing. */
  ghost predicate SweptBehind(s: State) {
    && (forall t | 0 <= t < |s.polls| :: Scanning(s.polls[t]) <= |s.slots|)
    && (forall t, k | 0 <= t < |s.polls| && 0 <= k < Scanning(s.polls[t]) && s.slots[k].owner == t ::
          !s.slots[k].revents)
  }

  /** A step that sends no scan on and raises no flag. */
  lemma StaysSwept(s: State, s': State)
    requires SweptBehind(s) && |s'.polls| == |s.polls| && |s'.slots| >= |s.slots|
    requires forall t | 0 <= t < |s.polls| :: Scanning(s'.polls[t]) <= Scanning(s.polls[t])
    requires forall k | 0 <= k < |s.slots| ::
      s'.slots[k].owner == s.slots[k].owner && (s'.slots[k].revents ==> s.slots[k].revents)
    ensures SweptBehind(s')
  {
    hide Scanning;
  }

  lemma UnblockedSwept(s: State, t: nat, listening: bool)
    requires SweptBehind(s) && t < |s.polls| == |s.pipes| && s.polls[t].Polling?
    ensures SweptBehind(Unblocked(s, t, listening))
  {
    var s' := Unblocked(s, t, listening);
    assert Scanning(s'.polls[t]) == 0;
    hide Returned, Scanning;
  }

  lemma ScannedSwept(s: State, t: nat)
    requires Bounded(s) && Flagged(s) && SweptBehind(s) && t < |s.polls| && s.polls[t].Scan?
    ensures SweptBehind(Scanned(s, t))
  {
    var k := s.polls[t].next;
    if k < |s.slots| {
      assert !AboutToReset(s.polls[t], k);
    }
    hide Bounded;
  }

  lemma ResettedSwept(s: State, t: nat)
    requires SweptBehind(s) && t < |s.polls| && s.polls[t].Reset? && s.polls[t].slot < |s.slots|
    ensures SweptBehind(Resetted(s, t))
  {
  }

  /** Every step keeps this: a scan passes over no connection that is flagged, and when it ends, every
      connection that the poll flagged has been pushed. */
  lemma StepSwept(s: State, a: Action)
    requires Bounded(s) && Flagged(s) && SweptBehind(s) && Enabled(s, a)
    ensures SweptBehind(Next(s, a))
  {
    hide SweptBehind, Bounded, Flagged, Watched;
    match a
    case PollReturn(t, listening) => UnblockedSwept(s, t, listening);
    case ScanNext(t) => ScannedSwept(s, t);
    case ResetRevents(t) => ResettedSwept(s, t);
    case _ => StaysSwept(s, Next(s, a));
  }

  lemma {:induction false} RunSwept(s: State, actions: seq<Action>)
    requires Safe(s) && SweptBehind(s) && IsRun(s, actions)
    ensures SweptBehind(RunTo(s, actions))
    decreases |actions|
  {
    hide Safe, SweptBehind, Next, Enabled;
    if actions != [] {
      StepSafe(s, actions[0]);
      SafeParts(s);
      StepSwept(s, actions[0]);
      RunSwept(Next(s, actions[0]), actions[1..]);
    }
  }

  lemma SafeParts(s: State)
    requires Safe(s)
    ensures Bounded(s) && Flagged(s)
  {
    hide Bounded, Partitioned, Counted, Fed, Flagged, InOrder, Awake;
  }

  /** When a scan comes to its end, no connection of its thread is left flagged: all have been pushed. */
  lemma ScanLeavesNone(polls: nat, workers: nat, actions: seq<Action>, t: nat, k: nat)
    requires IsRun(Start(polls, workers), actions)
    requires var s := RunTo(Start(polls, workers), actions);
      t < |s.polls| && s.polls[t].Scan? && s.polls[t].next >= |s.slots|
      && k < |s.slots| && s.slots[k].owner == t
    ensures !RunTo(Start(polls, workers), actions).slots[k].revents
  {
    StartSafe(polls, workers);
    assert SweptBehind(Start(polls, workers));
    hide IsRun, RunTo, Start, Safe;
    RunSwept(Start(polls, workers), actions);
  }

  ghost predicate Reaches(s: State, s': State) {
    exists actions :: IsRun(s, actions) && RunTo(s, actions) == s'
  }

  lemma {:induction false} RunSnoc(s: State, actions: seq<Action>, a: Action)
    requires IsRun(s, actions) && Enabled(RunTo(s, actions), a)
    ensures IsRun(s, actions + [a]) && RunTo(s, actions + [a]) == Next(RunTo(s, actions), a)
    decreases |actions|
  {
    hide Enabled, Next;
    if actions == [] {
      var s' := Next(s, a);
      assert IsRun(s', []) && RunTo(s', []) == s';
      assert [a][1..] == [];
      assert actions + [a] == [a];
    } else {
      assert (actions + [a])[1..] == actions[1..] + [a];
      RunSnoc(Next(s, actions[0]), actions[1..], a);
    }
  }

  lemma Then(start: State, s: State, a: Action, s': State)
    requires Reaches(start, s) && Enabled(s, a) && Next(s, a) == s'
    ensures Reaches(start, s')
  {
    hide Enabled, Next;
    var actions :| IsRun(start, actions) && RunTo(start, actions) == s;
    RunSnoc(start, actions, a);
  }

  lemma NoneWatched(slots: seq<Slot>, t: nat)
    requires forall k | 0 <= k < |slots| :: slots[k].owner != t
    ensures Watched(slots, t) == {}
  {
    if Watched(slots, t) != {} {
      var k := Pick(Watched(slots, t));
      assert false;
    }
  }

  lemma SmallStart()
    ensures Start(2, 1) == State([], [], 0, [Idle, Idle], [0, 0], [Waiting], false)
  {
    assert Repeat(2, Idle) == [Idle, Idle] && Repeat(2, 0) == [0, 0] && Repeat(1, Waiting) == [Waiting];
  }

  lemma ReachesItself(s: State)
    ensures Reaches(s, s)
  {
    assert IsRun(s, []) && RunTo(s, []) == s;
  }

  lemma BothBlocked()
    ensures Reaches(Start(2, 1), State([], [], 0, [Polling({}), Polling({})], [0, 0], [Waiting], false))
  {
    var s0 := Start(2, 1);
    SmallStart();
    ReachesItself(s0);
    NoneWatched([], 1);
    NoneWatched([], 0);
    hide Reaches, IsRun, RunTo, Watched, Start;
    var s1 := State([], [], 0, [Idle, Polling({})], [0, 0], [Waiting], false);
    Then(s0, s0, PollCall(1), s1);
    Then(s0, s1, PollCall(0), s1.(polls := [Polling({}), Polling({})]));
  }

  lemma AcceptedForOther(start: State, s: State, slot: Slot)
    requires Reaches(start, s)
    requires s == State([], [], 0, [Polling({}), Polling({})], [0, 0], [Waiting], false)
    requires slot == Slot(1, true, true, false, true, false, [], [], [], [])
    ensures Reaches(start, s.(slots := [slot], polls := [Scan(0), Polling({})]))
  {
    hide Reaches, Watched;
    var s1 := s.(polls := [Scan(0), Polling({})]);
    Then(start, s, PollReturn(0, true), s1);
    assert s1.slots + [slot] == [slot];
    Then(start, s1, Connect(1), s1.(slots := [slot]));
  }

  lemma BlockedAgain(start: State, s: State, slot: Slot)
    requires Reaches(start, s) && slot.owner == 1 && !slot.revents
    requires s == State([slot], [], 0, [Scan(0), Polling({})], [0, 0], [Waiting], false)
    ensures Reaches(start, s.(polls := [Polling({}), Polling({})]))
  {
    hide Reaches, Watched, Seen;
    assert Seen([slot], 0) == [slot];
    Then(start, s, ScanNext(0), s.(polls := [Scan(1), Polling({})]));
    Then(start, s.(polls := [Scan(1), Polling({})]), ScanNext(0), s.(polls := [Idle, Polling({})]));
    NoneWatched([slot], 0);
    Then(start, s.(polls := [Idle, Polling({})]), PollCall(0), s.(polls := [Polling({}), Polling({})]));
  }

  lemma IdleMessageRests(s: State, slot: Slot)
    requires slot == Slot(1, true, true, false, true, false, [7], [], [], [7])
    requires s == State([slot], [], 0, [Polling({}), Polling({})], [0, 0], [Waiting], false)
    ensures Bounded(s) && AtRest(s)
  {
  }

  /** The exception is real: a connection handed to a thread that is already blocked is not watched, and
      its message waits for that thread's time-out. */
  lemma UnpolledMustWait() returns (s: State)
    ensures Reaches(Start(2, 1), s) && Bounded(s) && AtRest(s)
    ensures |s.slots| == 1 && s.slots[0].open && s.slots[0].unpolled
    ensures s.slots[0].handled == [] && s.slots[0].sent == [7]
  {
    hide Reaches, Bounded, AtRest, Start;
    var slot := Slot(1, true, true, false, true, false, [], [], [], []);
    var blocked := State([], [], 0, [Polling({}), Polling({})], [0, 0], [Waiting], false);
    BothBlocked();
    AcceptedForOther(Start(2, 1), blocked, slot);
    BlockedAgain(Start(2, 1), blocked.(slots := [slot], polls := [Scan(0), Polling({})]), slot);
    s := blocked.(slots := [slot.(incoming := [7], sent := [7])]);
    var none: seq<int> := [];
    assert none + [7] == [7];
    Then(Start(2, 1), blocked.(slots := [slot]), Send(0, 7), s);
    IdleMessageRests(s, s.slots[0]);
  }
}

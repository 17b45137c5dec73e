/** The dispatch makes progress: however its threads are scheduled, the server comes to rest after a bounded
    number of its own steps, and then every message that was sent on a polled connection has been handled. */
module DispatchProgress {
  import opened Dispatch
  import opened DispatchRest
  import opened DispatchSafety
  import opened Multiples

  /** A step that a client causes: connecting, sending, hanging up, and a poll that returns for one that
      wants to connect. */
  predicate IsClients(a: Action) {
    a.Connect? || a.Send? || a.HangUp? || (a.PollReturn? && a.listening)
  }

  /** A poll that returns because time ran out. */
  predicate IsTimeout(s: State, a: Action)
    requires Enabled(s, a)
  {
    a.PollReturn? && s.pipes[a.t] == 0 && Unblocked(s, a.t, false).polls[a.t] == Idle
  }

  /** What the server does by itself, but for time-outs. */
  predicate IsServers(s: State, a: Action) {
    Enabled(s, a) && !IsClients(a) && !IsTimeout(s, a)
  }

  ghost predicate IsServerRun(s: State, actions: seq<Action>)
    decreases |actions|
  {
    actions == [] || (IsServers(s, actions[0]) && IsServerRun(Next(s, actions[0]), actions[1..]))
  }

  /** A scan is hot while a flagged slot of its thread lies ahead. */
  ghost predicate Hot(slots: seq<Slot>, t: nat, next: nat) {
    exists k :: next <= k < |slots| && slots[k].owner == t && slots[k].revents
  }

  /** The potential of a poll thread.  A hot scan will push, and has what follows paid by that; a cold one
      still has to get back to its poll. */
  ghost function PollRank(slots: seq<Slot>, t: nat, pc: PollPc): nat {
    var n := |slots|;
    match pc
    case Drain => 0
    case Polling(_) => n + 1
    case Idle => n + 2
    case Scan(next) => if next > n then n + 3 else if Hot(slots, t, next) then n - next else n + 3 + (n - next)
    case Reset(_) => 2 * n + 4
    case Post(_) => 2 * n + 7
  }

  ghost function PipeWeight(slots: nat): nat {
    slots + 3
  }

  ghost function ArmedWeight(slots: nat): nat {
    2 * slots + 8
  }

  /** The potential of a worker: a wake-up costs one, a message its handling, re-arming and notification. */
  ghost function WorkerRank(slots: nat, pc: WorkerPc): nat {
    match pc
    case Waiting => 0
    case Woken => 1
    case Reading(_) => 0
    case Notifying(_) => PipeWeight(slots) + 1
    case Rearming(_) => PipeWeight(slots) + ArmedWeight(slots) + 2
    case Handling(_, _) => PipeWeight(slots) + ArmedWeight(slots) + 3
  }

  ghost function MessageWeight(slots: nat): nat {
    PipeWeight(slots) + ArmedWeight(slots) + 4
  }

  /** The potential of a connection: its unread messages, its end of stream, and being armed with any. */
  ghost function SlotRank(slots: nat, slot: Slot): nat {
    Times(|slot.incoming|, MessageWeight(slots))
    + (if slot.eof && slot.open then MessageWeight(slots) else 0)
    + (if slot.events && Readable(slot) then ArmedWeight(slots) else 0)
  }

  ghost function PollSum(slots: seq<Slot>, polls: seq<PollPc>): nat {
    if polls == [] then 0 else
      var n := |polls| - 1; PollSum(slots, polls[..n]) + PollRank(slots, n, polls[n])
  }

  ghost function PipeSum(slots: nat, pipes: seq<nat>): nat {
    if pipes == [] then 0 else
      var n := |pipes| - 1; PipeSum(slots, pipes[..n]) + Times(pipes[n], PipeWeight(slots))
  }

  ghost function WorkerSum(slots: nat, workers: seq<WorkerPc>): nat {
    if workers == [] then 0 else
      var n := |workers| - 1; WorkerSum(slots, workers[..n]) + WorkerRank(slots, workers[n])
  }

  ghost function SlotSum(count: nat, slots: seq<Slot>): nat {
    if slots == [] then 0 else
      var n := |slots| - 1; SlotSum(count, slots[..n]) + SlotRank(count, slots[n])
  }

  /** An upper bound on the steps the server takes before it comes to rest. */
  ghost function Measure(s: State): nat {
    var n := |s.slots|;
    PollSum(s.slots, s.polls) + PipeSum(n, s.pipes) + WorkerSum(n, s.workers) + SlotSum(n, s.slots) + 2 * s.sem
  }

  lemma {:induction false} PollSumUpdate(slots: seq<Slot>, polls: seq<PollPc>, t: nat, pc: PollPc)
    requires t < |polls|
    ensures PollSum(slots, polls[t := pc]) + PollRank(slots, t, polls[t])
         == PollSum(slots, polls) + PollRank(slots, t, pc)
  {
    hide PollRank;
    var n := |polls| - 1;
    if t < n {
      PollSumUpdate(slots, polls[..n], t, pc);
      assert polls[t := pc][..n] == polls[..n][t := pc];
    } else {
      assert polls[t := pc][..n] == polls[..n];
    }
  }

  /** Only the flags of a thread's own slots are in its rank. */
  lemma {:induction false} PollSumSlots(slots: seq<Slot>, after: seq<Slot>, polls: seq<PollPc>)
    requires |after| == |slots|
    requires forall t | 0 <= t < |polls| :: PollRank(after, t, polls[t]) == PollRank(slots, t, polls[t])
    ensures PollSum(after, polls) == PollSum(slots, polls)
  {
    hide PollRank;
    if polls != [] {
      PollSumSlots(slots, after, polls[..|polls| - 1]);
    }
  }

  lemma {:induction false} PipeSumUpdate(n: nat, pipes: seq<nat>, t: nat, x: nat)
    requires t < |pipes|
    ensures PipeSum(n, pipes[t := x]) + Times(pipes[t], PipeWeight(n)) == PipeSum(n, pipes) + Times(x, PipeWeight(n))
  {
    hide Times;
    var m := |pipes| - 1;
    if t < m {
      PipeSumUpdate(n, pipes[..m], t, x);
      assert pipes[t := x][..m] == pipes[..m][t := x];
    } else {
      assert pipes[t := x][..m] == pipes[..m];
    }
  }

  lemma {:induction false} WorkerSumUpdate(n: nat, workers: seq<WorkerPc>, w: nat, pc: WorkerPc)
    requires w < |workers|
    ensures WorkerSum(n, workers[w := pc]) + WorkerRank(n, workers[w]) == WorkerSum(n, workers) + WorkerRank(n, pc)
  {
    hide WorkerRank;
    var m := |workers| - 1;
    if w < m {
      WorkerSumUpdate(n, workers[..m], w, pc);
      assert workers[w := pc][..m] == workers[..m][w := pc];
    } else {
      assert workers[w := pc][..m] == workers[..m];
    }
  }

  lemma {:induction false} SlotSumUpdate(n: nat, slots: seq<Slot>, k: nat, slot: Slot)
    requires k < |slots|
    ensures SlotSum(n, slots[k := slot]) + SlotRank(n, slots[k]) == SlotSum(n, slots) + SlotRank(n, slot)
  {
    hide SlotRank;
    var m := |slots| - 1;
    if k < m {
      SlotSumUpdate(n, slots[..m], k, slot);
      assert slots[k := slot][..m] == slots[..m][k := slot];
    } else {
      assert slots[k := slot][..m] == slots[..m];
    }
  }

  lemma {:induction false} SlotSumSame(n: nat, slots: seq<Slot>, after: seq<Slot>)
    requires |after| == |slots|
    requires forall k | 0 <= k < |slots| :: SlotRank(n, after[k]) == SlotRank(n, slots[k])
    ensures SlotSum(n, after) == SlotSum(n, slots)
  {
    hide SlotRank;
    if slots != [] {
      SlotSumSame(n, slots[..|slots| - 1], after[..|slots| - 1]);
    }
  }

  /** A slot that keeps its owner and its flag leaves every scan as it was. */
  lemma SameFlags(slots: seq<Slot>, after: seq<Slot>, polls: seq<PollPc>)
    requires |after| == |slots|
    requires forall k | 0 <= k < |slots| :: after[k].owner == slots[k].owner && after[k].revents == slots[k].revents
    ensures PollSum(after, polls) == PollSum(slots, polls)
  {
    forall t, next: nat ensures Hot(after, t, next) == Hot(slots, t, next) {
      if Hot(slots, t, next) {
        var k :| next <= k < |slots| && slots[k].owner == t && slots[k].revents;
        assert after[k].owner == t && after[k].revents;
      }
      if Hot(after, t, next) {
        var k :| next <= k < |slots| && after[k].owner == t && after[k].revents;
        assert slots[k].owner == t && slots[k].revents;
      }
    }
    hide Hot;
    PollSumSlots(slots, after, polls);
  }

  /** Thread t's flags may change where t does not scan. */
  lemma OwnFlags(slots: seq<Slot>, after: seq<Slot>, polls: seq<PollPc>, t: nat)
    requires |after| == |slots| && t < |polls| && !polls[t].Scan?
    requires forall k | 0 <= k < |slots| :: after[k].owner == slots[k].owner
    requires forall k | 0 <= k < |slots| && slots[k].owner != t :: after[k].revents == slots[k].revents
    ensures PollSum(after, polls) == PollSum(slots, polls)
  {
    forall r, next: nat | r != t ensures Hot(after, r, next) == Hot(slots, r, next) {
      if Hot(slots, r, next) {
        var k :| next <= k < |slots| && slots[k].owner == r && slots[k].revents;
        assert after[k].owner == r && after[k].revents;
      }
      if Hot(after, r, next) {
        var k :| next <= k < |slots| && after[k].owner == r && after[k].revents;
        assert slots[k].owner == r && slots[k].revents;
      }
    }
    hide Hot;
    PollSumSlots(slots, after, polls);
  }

  /** The steps of a poll thread. */
  lemma BlockedLess(s: State, t: nat)
    requires t < |s.polls| && s.polls[t].Idle?
    ensures Measure(Blocked(s, t)) < Measure(s)
  {
    var s' := Blocked(s, t);
    PollSumUpdate(s.slots, s.polls, t, s'.polls[t]);
    hide Watched, Seen;
    SameFlags(s.slots, s'.slots, s'.polls);
    SlotSumSame(|s.slots|, s.slots, s'.slots);
    hide PollSum, PipeSum, WorkerSum, SlotSum, SlotRank;
  }

  lemma UnblockedLess(s: State, t: nat)
    requires t < |s.polls| == |s.pipes| && s.polls[t].Polling?
    requires s.pipes[t] > 0 || !Unblocked(s, t, false).polls[t].Idle?
    ensures Measure(Unblocked(s, t, false)) < Measure(s)
  {
    var s' := Unblocked(s, t, false);
    OwnFlags(s.slots, s'.slots, s.polls, t);
    PollSumUpdate(s'.slots, s.polls, t, s'.polls[t]);
    SlotSumSame(|s.slots|, s.slots, s'.slots);
    if s'.polls[t].Scan? {
      var k :| 0 <= k < |s'.slots| && s'.slots[k].owner == t && s'.slots[k].revents;
      assert Hot(s'.slots, t, 0);
    }
    hide PollSum, PipeSum, WorkerSum, SlotSum, SlotRank, Returned, Hot;
  }

  lemma DrainedLess(s: State, t: nat)
    requires t < |s.polls| == |s.pipes| && s.polls[t].Drain? && s.pipes[t] > 0
    ensures Measure(Drained(s, t)) < Measure(s)
  {
    var n := |s.slots|;
    PollSumUpdate(s.slots, s.polls, t, Idle);
    PipeSumUpdate(n, s.pipes, t, s.pipes[t] - 1);
    TimesNext(s.pipes[t] - 1, PipeWeight(n));
    hide PollSum, PipeSum, WorkerSum, SlotSum, Times;
  }

  /** A scan either gets nearer to its end, or pushes a slot, which pays for a new scan. */
  lemma ScannedLess(s: State, t: nat)
    requires Bounded(s) && Flagged(s) && t < |s.polls| && s.polls[t].Scan?
    ensures Measure(Scanned(s, t)) < Measure(s)
  {
    var s', k := Scanned(s, t), s.polls[t].next;
    var n := |s.slots|;
    PollSumUpdate(s.slots, s.polls, t, s'.polls[t]);
    if k < n && s.slots[k].owner == t && s.slots[k].open && s.slots[k].revents {
      assert !AboutToReset(s.polls[t], k);
      assert s.slots[k].events && Readable(s.slots[k]);
      assert Hot(s.slots, t, k);
      SameFlags(s.slots, s'.slots, s'.polls);
      SlotSumUpdate(n, s.slots, k, s'.slots[k]);
    } else if k < n {
      HotAhead(s, t, k);
    }
    hide PollSum, PipeSum, WorkerSum, SlotSum, Hot, Flagged, Bounded, Times;
  }

  lemma HotAhead(s: State, t: nat, k: nat)
    requires Bounded(s) && Flagged(s) && t < |s.polls| && s.polls[t].Scan?
    requires k < |s.slots| && !(s.slots[k].owner == t && s.slots[k].open && s.slots[k].revents)
    ensures Hot(s.slots, t, k) <==> Hot(s.slots, t, k + 1)
  {
    assert !AboutToReset(s.polls[t], k);
    if Hot(s.slots, t, k) {
      var i :| k <= i < |s.slots| && s.slots[i].owner == t && s.slots[i].revents;
      assert i != k;
    }
  }

  lemma PostedLess(s: State, t: nat)
    requires t < |s.polls| && s.polls[t].Post?
    ensures Measure(Posted(s, t)) < Measure(s)
  {
    PollSumUpdate(s.slots, s.polls, t, Reset(s.polls[t].slot));
    hide PollSum, PipeSum, WorkerSum, SlotSum;
  }

  lemma ResettedLess(s: State, t: nat)
    requires Bounded(s) && t < |s.polls| && s.polls[t].Reset? && s.polls[t].slot < |s.slots|
    ensures Measure(Resetted(s, t)) < Measure(s)
  {
    var s', k := Resetted(s, t), s.polls[t].slot;
    OwnFlags(s.slots, s'.slots, s.polls, t);
    PollSumUpdate(s'.slots, s.polls, t, s'.polls[t]);
    SlotSumSame(|s.slots|, s.slots, s'.slots);
    hide PollSum, PipeSum, WorkerSum, SlotSum, SlotRank, Hot, Bounded;
  }

  /** The steps of a worker. */
  lemma WokenUpLess(s: State, w: nat)
    requires w < |s.workers| && s.workers[w].Waiting? && s.sem > 0
    ensures Measure(WokenUp(s, w)) < Measure(s)
  {
    WorkerSumUpdate(|s.slots|, s.workers, w, Woken);
    hide PollSum, PipeSum, WorkerSum, SlotSum;
  }

  lemma PoppedLess(s: State, w: nat)
    requires Counted(s) && w < |s.workers| && s.workers[w].Woken?
    ensures Measure(Popped(s, w)) < Measure(s)
  {
    NoFault(s, w);
    WorkerSumUpdate(|s.slots|, s.workers, w, Reading(s.queue[0]));
    hide PollSum, PipeSum, WorkerSum, SlotSum, Counted;
  }

  lemma DoneReadingLess(s: State, w: nat, k: nat)
    requires Bounded(s) && Partitioned(s) && Flagged(s) && At(s, w, k)
    requires s.workers[w].Reading? && Readable(s.slots[k])
    ensures Measure(DoneReading(s, w, k)) < Measure(s)
  {
    var s', n := DoneReading(s, w, k), |s.slots|;
    OnlyHolder(s, w, k);
    ReadPays(n, s.slots[k], s'.slots[k], k, s'.workers[w]);
    WorkerSumUpdate(n, s.workers, w, s'.workers[w]);
    SlotSumUpdate(n, s.slots, k, s'.slots[k]);
    HeldFlags(s, k, s'.slots[k]);
    hide PollSum, PipeSum, WorkerSum, SlotSum, Flagged, Bounded, Partitioned, SlotRank;
  }

  /** A message, or the end of the stream, pays for what its worker still has to do. */
  lemma ReadPays(n: nat, slot: Slot, after: Slot, k: nat, pc: WorkerPc)
    requires slot.open && !slot.events && Readable(slot)
    requires if slot.incoming == [] then after == slot.(open := false, revents := false) && pc == Waiting
             else after == slot.(incoming := slot.incoming[1..], inHand := [slot.incoming[0]])
                  && pc == Handling(k, slot.incoming[0])
    ensures SlotRank(n, after) + WorkerRank(n, pc) < SlotRank(n, slot)
  {
    if slot.incoming != [] {
      TimesNext(|slot.incoming| - 1, MessageWeight(n));
    }
    hide Times;
  }

  /** The flag of a slot that is not armed is in no scan's way. */
  lemma HeldFlags(s: State, k: nat, slot: Slot)
    requires Bounded(s) && Flagged(s) && k < |s.slots| && !s.slots[k].events
    requires slot.owner == s.slots[k].owner && (slot.revents ==> s.slots[k].revents)
    ensures PollSum(s.slots[k := slot], s.polls) == PollSum(s.slots, s.polls)
  {
    var t := s.slots[k].owner;
    if slot.revents == s.slots[k].revents {
      SameFlags(s.slots, s.slots[k := slot], s.polls);
    } else {
      assert AboutToReset(s.polls[t], k);
      OwnFlags(s.slots, s.slots[k := slot], s.polls, t);
    }
  }

  lemma HandledLess(s: State, w: nat, k: nat)
    requires At(s, w, k) && s.workers[w].Handling?
    ensures Measure(Handled(s, w, k)) < Measure(s)
  {
    var s', n := Handled(s, w, k), |s.slots|;
    WorkerSumUpdate(n, s.workers, w, Rearming(k));
    SameFlags(s.slots, s'.slots, s.polls);
    SlotSumSame(n, s.slots, s'.slots);
    hide PollSum, PipeSum, WorkerSum, SlotSum, SlotRank;
  }

  lemma RearmedLess(s: State, w: nat, k: nat)
    requires At(s, w, k) && s.workers[w].Rearming?
    ensures Measure(Rearmed(s, w, k)) < Measure(s)
  {
    var s', n := Rearmed(s, w, k), |s.slots|;
    WorkerSumUpdate(n, s.workers, w, Notifying(k));
    SameFlags(s.slots, s'.slots, s.polls);
    SlotSumUpdate(n, s.slots, k, s'.slots[k]);
    hide PollSum, PipeSum, WorkerSum, SlotSum, Times;
  }

  lemma NotifiedLess(s: State, w: nat, k: nat)
    requires At(s, w, k) && s.workers[w].Notifying? && s.slots[k].owner < |s.pipes|
    ensures Measure(Notified(s, w, k)) < Measure(s)
  {
    var n, t := |s.slots|, s.slots[k].owner;
    WorkerSumUpdate(n, s.workers, w, Waiting);
    PipeSumUpdate(n, s.pipes, t, s.pipes[t] + 1);
    TimesNext(s.pipes[t], PipeWeight(n));
    hide PollSum, PipeSum, WorkerSum, SlotSum, Times;
  }

  /** Every step that the server takes by itself, other than a time-out, brings it nearer to rest. */
  lemma StepLess(s: State, a: Action)
    requires Safe(s) && IsServers(s, a)
    ensures Measure(Next(s, a)) < Measure(s)
  {
    hide Measure, Bounded, Partitioned, Counted, Fed, Flagged, InOrder, Awake;
    match a
    case PollCall(t) => BlockedLess(s, t);
    case PollReturn(t, listening) => UnblockedLess(s, t);
    case DrainPipe(t) => DrainedLess(s, t);
    case ScanNext(t) => ScannedLess(s, t);
    case PostSem(t) => PostedLess(s, t);
    case ResetRevents(t) => ResettedLess(s, t);
    case Wake(w) => WokenUpLess(s, w);
    case Pop(w) => PoppedLess(s, w);
    case Read(w, k) => DoneReadingLess(s, w, k);
    case Handle(w, k) => HandledLess(s, w, k);
    case Rearm(w, k) => RearmedLess(s, w, k);
    case Notify(w, k) => NotifiedLess(s, w, k);
    case _ => assert false;
  }

  lemma {:induction false} ServerRunIsRun(s: State, actions: seq<Action>)
    requires IsServerRun(s, actions)
    ensures IsRun(s, actions)
    decreases |actions|
  {
    hide Next, Enabled;
    if actions != [] {
      ServerRunIsRun(Next(s, actions[0]), actions[1..]);
    }
  }

  /** However its threads are scheduled, the server takes at most so many steps by itself. */
  lemma {:induction false} ServerRunsEnd(s: State, actions: seq<Action>)
    requires Safe(s) && IsServerRun(s, actions)
    ensures IsRun(s, actions) && Safe(RunTo(s, actions))
    ensures |actions| + Measure(RunTo(s, actions)) <= Measure(s)
    decreases |actions|
  {
    hide Safe, Measure, Next, Enabled;
    ServerRunIsRun(s, actions);
    if actions != [] {
      StepLess(s, actions[0]);
      StepSafe(s, actions[0]);
      ServerRunsEnd(Next(s, actions[0]), actions[1..]);
    }
  }

  ghost predicate IsDone(s: State) {
    forall a :: !IsServers(s, a)
  }

  lemma PollsRest(s: State, t: nat)
    requires Bounded(s) && IsDone(s) && t < |s.polls|
    ensures s.polls[t].Polling? && s.pipes[t] == 0
    ensures forall k <- s.polls[t].watched :: k < |s.slots| && s.slots[k].owner == t ==> !Readable(s.slots[k])
  {
    assert !IsServers(s, PollCall(t)) && !IsServers(s, DrainPipe(t)) && !IsServers(s, ScanNext(t));
    assert !IsServers(s, PostSem(t)) && !IsServers(s, ResetRevents(t));
    assert s.polls[t].Polling?;
    assert !IsServers(s, PollReturn(t, false));
    var after := Unblocked(s, t, false).slots;
    forall k | k in s.polls[t].watched && k < |s.slots| && s.slots[k].owner == t ensures !Readable(s.slots[k]) {
      assert !(after[k].owner == t && after[k].revents);
    }
  }

  lemma WorkersRest(s: State, w: nat)
    requires Bounded(s) && Fed(s) && IsDone(s) && w < |s.workers|
    ensures s.workers[w].Waiting? && s.sem == 0
  {
    var k := if s.workers[w].Waiting? || s.workers[w].Woken? then 0 else s.workers[w].slot;
    assert !IsServers(s, Wake(w)) && !IsServers(s, Pop(w)) && !IsServers(s, Read(w, k));
    assert !IsServers(s, Handle(w, k)) && !IsServers(s, Rearm(w, k)) && !IsServers(s, Notify(w, k));
  }

  /** The server has nothing left to do by itself exactly when it is at rest. */
  lemma DoneIff(s: State)
    requires Bounded(s) && Fed(s) && Flagged(s) && |s.workers| > 0
    ensures IsDone(s) <==> AtRest(s)
  {
    if IsDone(s) {
      WorkersRest(s, 0);
      forall w | 0 <= w < |s.workers| ensures s.workers[w].Waiting? {
        WorkersRest(s, w);
      }
      forall t | 0 <= t < |s.polls| ensures s.polls[t].Polling? && s.pipes[t] == 0
        && forall k <- s.polls[t].watched :: k < |s.slots| ==> !Readable(s.slots[k])
      {
        PollsRest(s, t);
      }
    }
    if AtRest(s) {
      forall a | Enabled(s, a) ensures !IsServers(s, a) {
        RestIsDone(s, a);
      }
    }
  }

  lemma RestIsDone(s: State, a: Action)
    requires Bounded(s) && AtRest(s) && Enabled(s, a)
    ensures !IsServers(s, a)
  {
    if a.PollReturn? && !a.listening {
      var after := Unblocked(s, a.t, false).slots;
      forall k | 0 <= k < |after| && after[k].owner == a.t ensures !after[k].revents {
        assert k in s.polls[a.t].watched ==> !Readable(s.slots[k]);
      }
    }
  }

  /** From every state some schedule brings the server to rest. */
  lemma {:induction false} RestIsReached(s: State) returns (actions: seq<Action>)
    requires Safe(s)
    ensures IsServerRun(s, actions) && IsRun(s, actions) && IsDone(RunTo(s, actions))
    decreases Measure(s)
  {
    actions := [];
    hide Safe, Measure, IsServers;
    if !IsDone(s) {
      var a :| IsServers(s, a);
      ServersEnabled(s, a);
      StepLess(s, a);
      StepSafe(s, a);
      hide Next, Enabled, IsDone;
      var rest := RestIsReached(Next(s, a));
      actions := [a] + rest;
      assert actions[1..] == rest;
    }
  }

  lemma ServersEnabled(s: State, a: Action)
    requires IsServers(s, a)
    ensures Enabled(s, a)
  {
  }

  /** A closed connection has had all its messages handled. */
  ghost predicate ClosedDone(s: State) {
    forall k | 0 <= k < |s.slots| && !s.slots[k].open :: s.slots[k].handled == s.slots[k].sent
  }

  lemma StepClosedDone(s: State, a: Action)
    requires Safe(s) && ClosedDone(s) && Enabled(s, a)
    ensures ClosedDone(Next(s, a))
  {
    hide Holders, Holds, WokenCount, PostingCount, Watched, Counted, Flagged, Awake;
    if a.Read? || a.Handle? {
      OnlyHolder(s, a.w, a.slot);
      hide Partitioned;
      assert s.slots[a.slot].sent == s.slots[a.slot].handled + s.slots[a.slot].inHand + s.slots[a.slot].incoming;
    }
  }

  /** What the server does by itself leaves alone: what was sent, and that a slot was polled or hung up. */
  ghost predicate Kept(s: State, s': State) {
    && |s'.slots| == |s.slots| && |s'.workers| == |s.workers|
    && forall k | 0 <= k < |s.slots| ::
         (s'.slots[k].sent == s.slots[k].sent && s'.slots[k].eof == s.slots[k].eof
          && (!s.slots[k].unpolled ==> !s'.slots[k].unpolled))
  }

  lemma StepKept(s: State, a: Action)
    requires IsServers(s, a)
    ensures Kept(s, Next(s, a))
  {
    hide Watched;
  }

  lemma {:induction false} RunKept(s: State, actions: seq<Action>)
    requires Safe(s) && ClosedDone(s) && IsServerRun(s, actions)
    ensures IsRun(s, actions) && Kept(s, RunTo(s, actions)) && ClosedDone(RunTo(s, actions))
    decreases |actions|
  {
    hide Safe, ClosedDone, Next, Enabled;
    ServerRunIsRun(s, actions);
    if actions != [] {
      StepKept(s, actions[0]);
      StepSafe(s, actions[0]);
      StepClosedDone(s, actions[0]);
      RunKept(Next(s, actions[0]), actions[1..]);
    }
  }

  lemma SameWorkers(s: State, a: Action)
    requires Enabled(s, a)
    ensures |Next(s, a).workers| == |s.workers|
  {
    hide Watched;
  }

  lemma {:induction false} RunClosedDone(s: State, actions: seq<Action>)
    requires Safe(s) && ClosedDone(s) && IsRun(s, actions)
    ensures Safe(RunTo(s, actions)) && ClosedDone(RunTo(s, actions)) && |RunTo(s, actions).workers| == |s.workers|
    decreases |actions|
  {
    hide Safe, ClosedDone, Enabled, Next;
    if actions != [] {
      StepSafe(s, actions[0]);
      StepClosedDone(s, actions[0]);
      SameWorkers(s, actions[0]);
      RunClosedDone(Next(s, actions[0]), actions[1..]);
    }
  }

  /** A state that some run leads to. */
  ghost predicate Reached(polls: nat, workers: nat, s: State) {
    Reaches(Start(polls, workers), s)
  }

  lemma ReachedIs(polls: nat, workers: nat, s: State)
    requires Reached(polls, workers, s)
    ensures Safe(s) && ClosedDone(s) && |s.workers| == workers
  {
    var start := Start(polls, workers);
    var actions :| IsRun(start, actions) && RunTo(start, actions) == s;
    StartSafe(polls, workers);
    assert ClosedDone(start) && |start.workers| == workers;
    hide IsRun, RunTo, Safe, Start, ClosedDone;
    RunClosedDone(start, actions);
  }

  lemma {:induction false} RunsJoin(s: State, a: seq<Action>, b: seq<Action>)
    requires IsRun(s, a) && IsRun(RunTo(s, a), b)
    ensures IsRun(s, a + b) && RunTo(s, a + b) == RunTo(RunTo(s, a), b)
    decreases |a|
  {
    hide Enabled, Next;
    if a == [] {
      assert a + b == b;
    } else {
      assert (a + b)[1..] == a[1..] + b;
      RunsJoin(Next(s, a[0]), a[1..], b);
    }
  }

  lemma ReachedOn(polls: nat, workers: nat, s: State, more: seq<Action>)
    requires Reached(polls, workers, s) && IsRun(s, more)
    ensures Reached(polls, workers, RunTo(s, more))
  {
    var start := Start(polls, workers);
    var actions :| IsRun(start, actions) && RunTo(start, actions) == s;
    hide Start;
    RunsJoin(start, actions, more);
    hide IsRun, RunTo;
    assert RunTo(start, actions + more) == RunTo(s, more);
  }

  /** Messages get handled.  From every reachable state and under every schedule, the server has nothing
      left to do after at most Measure(s) of its own steps.  When it has, every message ever sent on every
      connection that its thread has polled is handled, and every such connection that was hung up closed. */
  lemma MessagesAreHandled(polls: nat, workers: nat, s: State, actions: seq<Action>, k: nat)
    requires workers > 0 && Reached(polls, workers, s) && IsServerRun(s, actions)
    ensures IsRun(s, actions) && |actions| <= Measure(s)
    ensures IsDone(RunTo(s, actions)) && k < |s.slots| && !s.slots[k].unpolled ==>
      var end := RunTo(s, actions);
      && k < |end.slots| && end.slots[k].handled == end.slots[k].sent == s.slots[k].sent
      && (s.slots[k].eof ==> !end.slots[k].open)
  {
    ReachedIs(polls, workers, s);
    ServerRunsEnd(s, actions);
    RunKept(s, actions);
    var end := RunTo(s, actions);
    ReachedOn(polls, workers, s, actions);
    if IsDone(end) && k < |s.slots| && !s.slots[k].unpolled {
      DoneIff(end);
      hide IsDone, IsServerRun, IsRun, RunTo, Measure, AtRest;
      if end.slots[k].open {
        var all :| IsRun(Start(polls, workers), all) && RunTo(Start(polls, workers), all) == end;
        NothingStranded(polls, workers, all, k);
      }
    }
  }

  /** And the server can always get there. */
  lemma AlwaysComesToRest(polls: nat, workers: nat, s: State) returns (actions: seq<Action>)
    requires workers > 0 && Reached(polls, workers, s)
    ensures IsServerRun(s, actions) && IsRun(s, actions) && IsDone(RunTo(s, actions))
    ensures Bounded(RunTo(s, actions)) && AtRest(RunTo(s, actions))
  {
    ReachedIs(polls, workers, s);
    actions := RestIsReached(s);
    ServerRunsEnd(s, actions);
    RunKept(s, actions);
    DoneIff(RunTo(s, actions));
    hide IsDone, AtRest, IsRun, RunTo, IsServerRun;
  }

  /** A message that a client sends now, on a polled connection, is handled after the ones before it. */
  lemma SentIsHandled(polls: nat, workers: nat, s: State, k: nat, msg: int, actions: seq<Action>)
    requires workers > 0 && Reached(polls, workers, s)
    requires k < |s.slots| && s.slots[k].open && !s.slots[k].unpolled && !s.slots[k].eof
    ensures Enabled(s, Send(k, msg))
    ensures IsServerRun(Next(s, Send(k, msg)), actions) ==>
      IsRun(Next(s, Send(k, msg)), actions)
    ensures IsServerRun(Next(s, Send(k, msg)), actions) && IsDone(RunTo(Next(s, Send(k, msg)), actions)) ==>
      var end := RunTo(Next(s, Send(k, msg)), actions);
      k < |end.slots| && end.slots[k].handled == s.slots[k].sent + [msg]
  {
    var s' := Next(s, Send(k, msg));
    OneMore(polls, workers, s, Send(k, msg));
    if IsServerRun(s', actions) {
      hide Reached, IsServerRun, IsDone, IsRun, RunTo;
      MessagesAreHandled(polls, workers, s', actions, k);
    }
  }

  lemma OneMore(polls: nat, workers: nat, s: State, a: Action)
    requires Reached(polls, workers, s) && Enabled(s, a)
    ensures Reached(polls, workers, Next(s, a))
  {
    hide Enabled, Next, Start, Reaches;
    Then(Start(polls, workers), s, a, Next(s, a));
  }

  /** A connection whose client hangs up is closed, with all its messages handled. */
  lemma HungUpIsClosed(polls: nat, workers: nat, s: State, k: nat, actions: seq<Action>)
    requires workers > 0 && Reached(polls, workers, s)
    requires k < |s.slots| && s.slots[k].open && !s.slots[k].unpolled
    ensures Enabled(s, HangUp(k))
    ensures IsServerRun(Next(s, HangUp(k)), actions) ==> IsRun(Next(s, HangUp(k)), actions)
    ensures IsServerRun(Next(s, HangUp(k)), actions) && IsDone(RunTo(Next(s, HangUp(k)), actions)) ==>
      var end := RunTo(Next(s, HangUp(k)), actions);
      k < |end.slots| && !end.slots[k].open && end.slots[k].handled == s.slots[k].sent
  {
    var s' := Next(s, HangUp(k));
    OneMore(polls, workers, s, HangUp(k));
    if IsServerRun(s', actions) {
      hide Reached, IsServerRun, IsDone, IsRun, RunTo;
      MessagesAreHandled(polls, workers, s', actions, k);
    }
  }

  /** A connection that its thread has not polled waits for no more than one time-out of that thread. */
  lemma OneTimeoutPolls(s: State, k: nat)
    requires Bounded(s) && Flagged(s) && AtRest(s) && k < |s.slots|
    ensures var t := s.slots[k].owner;
      && Enabled(s, PollReturn(t, false)) && IsTimeout(s, PollReturn(t, false))
      && var woken := Next(s, PollReturn(t, false));
      && Enabled(woken, PollCall(t)) && k < |Next(woken, PollCall(t)).slots|
      && !Next(woken, PollCall(t)).slots[k].unpolled
  {
    var t := s.slots[k].owner;
    var after := Unblocked(s, t, false).slots;
    forall i | 0 <= i < |after| && after[i].owner == t ensures !after[i].revents {
      assert i in s.polls[t].watched ==> !Readable(s.slots[i]);
    }
  }
}

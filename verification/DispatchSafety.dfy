/** What every step of the dispatch keeps, and what follows for all runs. */
module DispatchSafety {
  import opened Dispatch
  import opened Repeats

  predicate Holds(pc: WorkerPc, k: nat) {
    (pc.Reading? || pc.Handling? || pc.Rearming?) && pc.slot == k
  }

  /** How many workers are between taking slot k from the queue and re-arming it. */
  function Holders(workers: seq<WorkerPc>, k: nat): nat {
    if workers == [] then 0 else
      var n := |workers| - 1; Holders(workers[..n], k) + if Holds(workers[n], k) then 1 else 0
  }

  function WokenCount(workers: seq<WorkerPc>): nat {
    if workers == [] then 0 else
      var n := |workers| - 1; WokenCount(workers[..n]) + if workers[n].Woken? then 1 else 0
  }

  /** How many poll threads have pushed a request and not yet posted. */
  function PostingCount(polls: seq<PollPc>): nat {
    if polls == [] then 0 else
      var n := |polls| - 1; PostingCount(polls[..n]) + if polls[n].Post? then 1 else 0
  }

  lemma {:induction false} HoldersUpdate(workers: seq<WorkerPc>, w: nat, pc: WorkerPc, k: nat)
    requires w < |workers|
    ensures Holders(workers[w := pc], k) ==
            Holders(workers, k) + (if Holds(pc, k) then 1 else 0) - (if Holds(workers[w], k) then 1 else 0)
    ensures Holds(workers[w], k) ==> Holders(workers, k) > 0
  {
    var n := |workers| - 1;
    if w < n {
      HoldersUpdate(workers[..n], w, pc, k);
      assert workers[w := pc][..n] == workers[..n][w := pc];
    } else {
      assert workers[w := pc][..n] == workers[..n];
    }
  }

  lemma {:induction false} WokenUpdate(workers: seq<WorkerPc>, w: nat, pc: WorkerPc)
    requires w < |workers|
    ensures WokenCount(workers[w := pc]) ==
            WokenCount(workers) + (if pc.Woken? then 1 else 0) - (if workers[w].Woken? then 1 else 0)
    ensures workers[w].Woken? ==> WokenCount(workers) > 0
  {
    var n := |workers| - 1;
    if w < n {
      WokenUpdate(workers[..n], w, pc);
      assert workers[w := pc][..n] == workers[..n][w := pc];
    } else {
      assert workers[w := pc][..n] == workers[..n];
    }
  }

  lemma {:induction false} PostingUpdate(polls: seq<PollPc>, t: nat, pc: PollPc)
    requires t < |polls|
    ensures PostingCount(polls[t := pc]) ==
            PostingCount(polls) + (if pc.Post? then 1 else 0) - (if polls[t].Post? then 1 else 0)
  {
    var n := |polls| - 1;
    if t < n {
      PostingUpdate(polls[..n], t, pc);
      assert polls[t := pc][..n] == polls[..n][t := pc];
    } else {
      assert polls[t := pc][..n] == polls[..n];
    }
  }

  /** Two distinct holders would count for two. */
  lemma {:induction false} TwoHolders(workers: seq<WorkerPc>, v: nat, w: nat, k: nat)
    requires v < w < |workers| && Holds(workers[v], k) && Holds(workers[w], k)
    ensures Holders(workers, k) >= 2
  {
    var n := |workers| - 1;
    if w < n {
      TwoHolders(workers[..n], v, w, k);
    } else {
      HoldersUpdate(workers[..n], v, Waiting, k);
    }
  }

  /** Everything named exists. */
  ghost predicate Bounded(s: State) {
    && |s.pipes| == |s.polls|
    && (forall k | 0 <= k < |s.slots| :: s.slots[k].owner < |s.polls|)
    && (forall i | 0 <= i < |s.queue| :: s.queue[i] < |s.slots|)
    && (forall t | 0 <= t < |s.polls| :: s.polls[t].Post? || s.polls[t].Reset? ==>
          s.polls[t].slot < |s.slots| && s.slots[s.polls[t].slot].owner == t)
    && (forall t | 0 <= t < |s.polls| && s.polls[t].Drain? :: s.pipes[t] > 0)
    && (forall w | 0 <= w < |s.workers| :: !s.workers[w].Waiting? && !s.workers[w].Woken? ==>
        s.workers[w].slot < |s.slots|)
  }

  /** Every open connection is armed, queued once, or held by one worker; a closed one is none of these. */
  ghost predicate Partitioned(s: State) {
    forall k | 0 <= k < |s.slots| ::
      (if s.slots[k].events then 1 else 0) + multiset(s.queue)[k] + Holders(s.workers, k)
      == if s.slots[k].open then 1 else 0
  }

  /** Each queued request has its wake-up: posted, taken by a woken worker, or about to be posted. */
  ghost predicate Counted(s: State) {
    |s.queue| == s.sem + WokenCount(s.workers) + PostingCount(s.polls)
  }

  predicate AboutToReset(pc: PollPc, k: nat) {
    (pc.Post? || pc.Reset?) && pc.slot == k
  }

  /** A worker that reads finds something to read. */
  ghost predicate Fed(s: State)
    requires Bounded(s)
  {
    && (forall i | 0 <= i < |s.queue| :: Readable(s.slots[s.queue[i]]))
    && (forall w | 0 <= w < |s.workers| && s.workers[w].Reading? :: Readable(s.slots[s.workers[w].slot]))
  }

  /** A scan pushes only armed connections with something to read. */
  ghost predicate Flagged(s: State)
    requires Bounded(s)
  {
    && (forall k | 0 <= k < |s.slots| && s.slots[k].revents && !AboutToReset(s.polls[s.slots[k].owner], k) ::
          s.slots[k].open && s.slots[k].events && Readable(s.slots[k]))
    && (forall t | 0 <= t < |s.polls| && s.polls[t].Polling? :: forall k <- s.polls[t].watched ::
          k < |s.slots| && s.slots[k].owner == t && s.slots[k].open && s.slots[k].events)
  }

  /** Nothing a client sent is lost, repeated or reordered. */
  ghost predicate Streams(s: State) {
    forall k | 0 <= k < |s.slots| :: s.slots[k].sent == s.slots[k].handled + s.slots[k].inHand + s.slots[k].incoming
  }

  /** A message in hand is with the worker that handles it. */
  ghost predicate Tracked(s: State)
    requires Bounded(s)
  {
    && (forall k | 0 <= k < |s.slots| && s.slots[k].inHand != [] :: Holders(s.workers, k) == 1)
    && (forall w | 0 <= w < |s.workers| :: s.workers[w].Reading? || s.workers[w].Rearming? ==>
          s.slots[s.workers[w].slot].inHand == [])
    && (forall w | 0 <= w < |s.workers| && s.workers[w].Handling? ::
          s.slots[s.workers[w].slot].inHand == [s.workers[w].msg])
  }

  ghost predicate InOrder(s: State)
    requires Bounded(s)
  {
    Streams(s) && Tracked(s)
  }

  ghost predicate Pending(workers: seq<WorkerPc>, k: nat) {
    exists w :: 0 <= w < |workers| && workers[w] == Notifying(k)
  }

  /** A blocked poll that does not watch an armed connection has a wake-up in its pipe or on the way. */
  ghost predicate Awake(s: State)
    requires Bounded(s)
  {
    forall k | 0 <= k < |s.slots| && s.slots[k].open && s.slots[k].events && !s.slots[k].unpolled ::
      var t := s.slots[k].owner;
      s.polls[t].Polling? ==> k in s.polls[t].watched || s.pipes[t] > 0 || Pending(s.workers, k)
  }

  ghost predicate Safe(s: State) {
    Bounded(s) && Partitioned(s) && Counted(s) && Fed(s) && Flagged(s) && InOrder(s) && Awake(s) && !s.fault
  }

  /** A woken worker finds a request. */
  lemma NoFault(s: State, w: nat)
    requires Counted(s) && w < |s.workers| && s.workers[w].Woken?
    ensures s.queue != []
  {
    WokenUpdate(s.workers, w, Waiting);
  }

  lemma PendingKept(workers: seq<WorkerPc>, w: nat, pc: WorkerPc)
    requires w < |workers|
    ensures forall k: nat | Pending(workers, k) && workers[w] != Notifying(k) :: Pending(workers[w := pc], k)
  {
    forall k: nat | Pending(workers, k) && workers[w] != Notifying(k) ensures Pending(workers[w := pc], k) {
      var v :| 0 <= v < |workers| && workers[v] == Notifying(k);
      assert workers[w := pc][v] == Notifying(k);
    }
  }

  lemma HoldersUpdates(workers: seq<WorkerPc>, w: nat, pc: WorkerPc)
    requires w < |workers|
    ensures forall k: nat :: (Holders(workers[w := pc], k) ==
            Holders(workers, k) + (if Holds(pc, k) then 1 else 0) - (if Holds(workers[w], k) then 1 else 0))
  {
    forall k: nat
      ensures Holders(workers[w := pc], k) ==
              Holders(workers, k) + (if Holds(pc, k) then 1 else 0) - (if Holds(workers[w], k) then 1 else 0)
    {
      HoldersUpdate(workers, w, pc, k);
    }
  }

  lemma {:induction false} NoHolder(workers: seq<WorkerPc>, k: nat)
    requires forall w | 0 <= w < |workers| :: !Holds(workers[w], k)
    ensures Holders(workers, k) == 0
  {
    if workers != [] {
      NoHolder(workers[..|workers| - 1], k);
    }
  }

  /** No socket is read by two threads. */
  lemma OneHolder(s: State, v: nat, w: nat, k: nat)
    requires Partitioned(s) && k < |s.slots|
    requires v < |s.workers| && w < |s.workers| && Holds(s.workers[v], k) && Holds(s.workers[w], k)
    ensures v == w && Holders(s.workers, k) == 1 && k !in s.queue && !s.slots[k].events && s.slots[k].open
  {
    HoldersUpdate(s.workers, w, Waiting, k);
    if v < w {
      TwoHolders(s.workers, v, w, k);
    } else if w < v {
      TwoHolders(s.workers, w, v, k);
    }
  }

  lemma OnlyHolder(s: State, w: nat, k: nat)
    requires Partitioned(s) && At(s, w, k) && !s.workers[w].Notifying?
    ensures forall v: nat | v < |s.workers| && Holds(s.workers[v], k) :: v == w
    ensures Holders(s.workers, k) == 1 && k !in s.queue && !s.slots[k].events && s.slots[k].open
  {
    OneHolder(s, w, w, k);
    forall v: nat | v < |s.workers| && Holds(s.workers[v], k) ensures v == w {
      OneHolder(s, v, w, k);
    }
  }

  lemma ConnectedSafe(s: State, r: nat)
    requires Safe(s) && r < |s.polls|
    ensures Safe(Connected(s, r))
  {
    NoHolder(s.workers, |s.slots|);
    ConnectedFlags(s, r);
    hide Holders, WokenCount, PostingCount, Pending, Watched, Returned, Seen, Flagged;
  }

  lemma ConnectedFlags(s: State, r: nat)
    requires Bounded(s) && Flagged(s) && r < |s.polls|
    ensures Bounded(Connected(s, r)) && Flagged(Connected(s, r))
  {
    hide Holders, WokenCount, PostingCount, Pending, Watched, Returned, Seen;
  }

  lemma SentSafe(s: State, k: nat, msg: int)
    requires Safe(s) && k < |s.slots| && s.slots[k].open
    ensures Safe(Sent(s, k, msg))
  {
    SentFlags(s, k, msg);
    hide Holders, WokenCount, PostingCount, Pending, Watched, Returned, Seen, Flagged, Fed;
  }

  lemma SentFlags(s: State, k: nat, msg: int)
    requires Bounded(s) && Flagged(s) && k < |s.slots|
    ensures Bounded(Sent(s, k, msg)) && Flagged(Sent(s, k, msg)) && (Fed(s) ==> Fed(Sent(s, k, msg)))
  {
    hide Holders, WokenCount, PostingCount, Pending, Watched, Returned, Seen;
  }

  lemma HungUpSafe(s: State, k: nat)
    requires Safe(s) && k < |s.slots| && s.slots[k].open
    ensures Safe(HungUp(s, k))
  {
    HungUpFlags(s, k);
    hide Holders, WokenCount, PostingCount, Pending, Watched, Returned, Seen, Flagged;
  }

  lemma HungUpFlags(s: State, k: nat)
    requires Bounded(s) && Flagged(s) && k < |s.slots|
    ensures Bounded(HungUp(s, k)) && Flagged(HungUp(s, k))
  {
    hide Holders, WokenCount, PostingCount, Pending, Watched, Returned, Seen;
  }

  lemma BlockedCounts(s: State, t: nat)
    requires Bounded(s) && Counted(s) && t < |s.polls| && s.polls[t].Idle?
    ensures Bounded(Blocked(s, t)) && Counted(Blocked(s, t)) && Blocked(s, t).fault == s.fault
  {
    PostingUpdate(s.polls, t, Blocked(s, t).polls[t]);
    hide Holders, WokenCount, PostingCount, Pending, Watched, Returned, Seen;
  }

  lemma BlockedParts(s: State, t: nat)
    requires Bounded(s) && Partitioned(s) && Fed(s) && Flagged(s) && t < |s.polls| && s.polls[t].Idle?
    requires Bounded(Blocked(s, t))
    ensures Partitioned(Blocked(s, t)) && Fed(Blocked(s, t))
  {
    hide Holders, WokenCount, PostingCount, Pending, Watched, Returned, Seen;
  }

  lemma BlockedFlags(s: State, t: nat)
    requires Bounded(s) && Flagged(s) && t < |s.polls| && s.polls[t].Idle?
    requires Bounded(Blocked(s, t))
    ensures Flagged(Blocked(s, t))
  {
    hide Holders, WokenCount, PostingCount, Pending, Watched, Returned, Seen, Counted;
  }

  lemma BlockedOrder(s: State, t: nat)
    requires Bounded(s) && Partitioned(s) && InOrder(s) && t < |s.polls| && s.polls[t].Idle?
    requires Bounded(Blocked(s, t))
    ensures InOrder(Blocked(s, t))
  {
    hide Holders, WokenCount, PostingCount, Pending, Watched, Returned, Seen;
  }

  lemma BlockedWakes(s: State, t: nat)
    requires Bounded(s) && Awake(s) && t < |s.polls| && s.polls[t].Idle?
    requires Bounded(Blocked(s, t))
    ensures Awake(Blocked(s, t))
  {
    hide WokenCount, PostingCount, Pending, Watched, Returned, Seen;
  }

  lemma BlockedSafe(s: State, t: nat)
    requires Safe(s) && t < |s.polls| && s.polls[t].Idle?
    ensures Safe(Blocked(s, t))
  {
    hide Bounded, Counted, Partitioned, Fed, Flagged, InOrder, Awake, Blocked;
    BlockedCounts(s, t);
    BlockedParts(s, t);
    BlockedFlags(s, t);
    BlockedOrder(s, t);
    BlockedWakes(s, t);
  }

  lemma UnblockedCounts(s: State, t: nat, listening: bool)
    requires Bounded(s) && Counted(s) && t < |s.polls| && s.polls[t].Polling?
    ensures Bounded(Unblocked(s, t, listening)) && Counted(Unblocked(s, t, listening))
    ensures Unblocked(s, t, listening).fault == s.fault
  {
    PostingUpdate(s.polls, t, Unblocked(s, t, listening).polls[t]);
    hide Holders, WokenCount, PostingCount, Pending, Watched, Returned, Seen;
  }

  lemma UnblockedParts(s: State, t: nat, listening: bool)
    requires Bounded(s) && Partitioned(s) && Fed(s) && Flagged(s) && t < |s.polls| && s.polls[t].Polling?
    requires Bounded(Unblocked(s, t, listening))
    ensures Partitioned(Unblocked(s, t, listening)) && Fed(Unblocked(s, t, listening))
  {
    hide Holders, WokenCount, PostingCount, Pending, Watched, Returned, Seen;
  }

  lemma UnblockedFlags(s: State, t: nat, listening: bool)
    requires Bounded(s) && Flagged(s) && t < |s.polls| && s.polls[t].Polling?
    requires Bounded(Unblocked(s, t, listening))
    ensures Flagged(Unblocked(s, t, listening))
  {
    hide Holders, WokenCount, PostingCount, Pending, Watched, Returned, Seen, Counted;
  }

  lemma UnblockedOrder(s: State, t: nat, listening: bool)
    requires Bounded(s) && Partitioned(s) && InOrder(s) && t < |s.polls| && s.polls[t].Polling?
    requires Bounded(Unblocked(s, t, listening))
    ensures InOrder(Unblocked(s, t, listening))
  {
    hide Holders, WokenCount, PostingCount, Pending, Watched, Returned, Seen;
  }

  lemma UnblockedWakes(s: State, t: nat, listening: bool)
    requires Bounded(s) && Awake(s) && t < |s.polls| && s.polls[t].Polling?
    requires Bounded(Unblocked(s, t, listening))
    ensures Awake(Unblocked(s, t, listening))
  {
    hide WokenCount, PostingCount, Pending, Watched, Returned, Seen;
  }

  lemma UnblockedSafe(s: State, t: nat, listening: bool)
    requires Safe(s) && t < |s.polls| && s.polls[t].Polling?
    ensures Safe(Unblocked(s, t, listening))
  {
    hide Bounded, Counted, Partitioned, Fed, Flagged, InOrder, Awake, Unblocked;
    UnblockedCounts(s, t, listening);
    UnblockedParts(s, t, listening);
    UnblockedFlags(s, t, listening);
    UnblockedOrder(s, t, listening);
    UnblockedWakes(s, t, listening);
  }

  lemma DrainedSafe(s: State, t: nat)
    requires Safe(s) && t < |s.polls| && s.polls[t].Drain? && s.pipes[t] > 0
    ensures Safe(Drained(s, t))
  {
    PostingUpdate(s.polls, t, Drained(s, t).polls[t]);
    hide Holders, WokenCount, PostingCount, Pending, Watched, Returned, Seen;
  }

  lemma ScannedCounts(s: State, t: nat)
    requires Bounded(s) && Counted(s) && t < |s.polls| && s.polls[t].Scan?
    ensures Bounded(Scanned(s, t)) && Counted(Scanned(s, t)) && Scanned(s, t).fault == s.fault
  {
    PostingUpdate(s.polls, t, Scanned(s, t).polls[t]);
    hide Holders, WokenCount, PostingCount, Pending, Watched, Returned, Seen;
  }

  lemma ScannedParts(s: State, t: nat)
    requires Bounded(s) && Partitioned(s) && Flagged(s) && t < |s.polls| && s.polls[t].Scan?
    requires Bounded(Scanned(s, t))
    ensures Partitioned(Scanned(s, t))
  {
    hide Holders, Readable;
  }

  lemma ScannedFed(s: State, t: nat)
    requires Bounded(s) && Fed(s) && Flagged(s) && t < |s.polls| && s.polls[t].Scan?
    requires Bounded(Scanned(s, t))
    ensures Fed(Scanned(s, t))
  {
  }

  lemma ScannedFlags(s: State, t: nat)
    requires Bounded(s) && Flagged(s) && t < |s.polls| && s.polls[t].Scan?
    requires Bounded(Scanned(s, t))
    ensures Flagged(Scanned(s, t))
  {
    hide Holders, WokenCount, PostingCount, Pending, Watched, Returned, Seen, Counted;
  }

  lemma ScannedOrder(s: State, t: nat)
    requires Bounded(s) && Partitioned(s) && InOrder(s) && t < |s.polls| && s.polls[t].Scan?
    requires Bounded(Scanned(s, t))
    ensures InOrder(Scanned(s, t))
  {
    hide Holders, WokenCount, PostingCount, Pending, Watched, Returned, Seen;
  }

  lemma ScannedWakes(s: State, t: nat)
    requires Bounded(s) && Awake(s) && t < |s.polls| && s.polls[t].Scan?
    requires Bounded(Scanned(s, t))
    ensures Awake(Scanned(s, t))
  {
    hide WokenCount, PostingCount, Pending, Watched, Returned, Seen;
  }

  lemma ScannedSafe(s: State, t: nat)
    requires Safe(s) && t < |s.polls| && s.polls[t].Scan?
    ensures Safe(Scanned(s, t))
  {
    hide Bounded, Counted, Partitioned, Fed, Flagged, InOrder, Awake, Scanned;
    ScannedCounts(s, t);
    ScannedParts(s, t);
    ScannedFed(s, t);
    ScannedFlags(s, t);
    ScannedOrder(s, t);
    ScannedWakes(s, t);
  }

  lemma PostedSafe(s: State, t: nat)
    requires Safe(s) && t < |s.polls| && s.polls[t].Post?
    ensures Safe(Posted(s, t))
  {
    PostingUpdate(s.polls, t, Posted(s, t).polls[t]);
    hide Holders, WokenCount, PostingCount, Pending, Watched, Returned, Seen;
  }

  lemma ResettedCounts(s: State, t: nat)
    requires Bounded(s) && Counted(s) && t < |s.polls| && s.polls[t].Reset? && s.polls[t].slot < |s.slots|
    ensures Bounded(Resetted(s, t)) && Counted(Resetted(s, t)) && Resetted(s, t).fault == s.fault
  {
    PostingUpdate(s.polls, t, Resetted(s, t).polls[t]);
    hide Holders, WokenCount, PostingCount, Pending, Watched, Returned, Seen;
  }

  lemma ResettedParts(s: State, t: nat)
    requires Bounded(s) && Partitioned(s) && Fed(s) && Flagged(s) && t < |s.polls| && s.polls[t].Reset?
    requires s.polls[t].slot < |s.slots|
    requires Bounded(Resetted(s, t))
    ensures Partitioned(Resetted(s, t)) && Fed(Resetted(s, t))
  {
    hide Holders, WokenCount, PostingCount, Pending, Watched, Returned, Seen;
  }

  lemma ResettedFlags(s: State, t: nat)
    requires Bounded(s) && Flagged(s) && t < |s.polls| && s.polls[t].Reset? && s.polls[t].slot < |s.slots|
    requires Bounded(Resetted(s, t))
    ensures Flagged(Resetted(s, t))
  {
    hide Holders, WokenCount, PostingCount, Pending, Watched, Returned, Seen, Counted;
  }

  lemma ResettedOrder(s: State, t: nat)
    requires Bounded(s) && Partitioned(s) && InOrder(s) && t < |s.polls| && s.polls[t].Reset?
    requires s.polls[t].slot < |s.slots|
    requires Bounded(Resetted(s, t))
    ensures InOrder(Resetted(s, t))
  {
    hide Holders, WokenCount, PostingCount, Pending, Watched, Returned, Seen;
  }

  lemma ResettedWakes(s: State, t: nat)
    requires Bounded(s) && Awake(s) && t < |s.polls| && s.polls[t].Reset? && s.polls[t].slot < |s.slots|
    requires Bounded(Resetted(s, t))
    ensures Awake(Resetted(s, t))
  {
    hide WokenCount, PostingCount, Pending, Watched, Returned, Seen;
  }

  lemma ResettedSafe(s: State, t: nat)
    requires Safe(s) && t < |s.polls| && s.polls[t].Reset? && s.polls[t].slot < |s.slots|
    ensures Safe(Resetted(s, t))
  {
    hide Bounded, Counted, Partitioned, Fed, Flagged, InOrder, Awake, Resetted;
    ResettedCounts(s, t);
    ResettedParts(s, t);
    ResettedFlags(s, t);
    ResettedOrder(s, t);
    ResettedWakes(s, t);
  }

  lemma WokenUpSafe(s: State, w: nat)
    requires Safe(s) && w < |s.workers| && s.workers[w].Waiting? && s.sem > 0
    ensures Safe(WokenUp(s, w))
  {
    HoldersUpdates(s.workers, w, WokenUp(s, w).workers[w]);
    WokenUpdate(s.workers, w, WokenUp(s, w).workers[w]);
    PendingKept(s.workers, w, WokenUp(s, w).workers[w]);
    hide Holders, WokenCount, PostingCount, Pending, Watched, Returned, Seen;
  }

  lemma PoppedCounts(s: State, w: nat)
    requires Bounded(s) && Counted(s) && w < |s.workers| && s.workers[w].Woken?
    ensures Bounded(Popped(s, w)) && Counted(Popped(s, w)) && Popped(s, w).fault == s.fault
  {
    NoFault(s, w);
    assert s.queue == [s.queue[0]] + s.queue[1..];
    WokenUpdate(s.workers, w, Popped(s, w).workers[w]);
    hide Holders, WokenCount, PostingCount, Pending, Watched, Returned, Seen;
  }

  lemma PoppedParts(s: State, w: nat)
    requires Bounded(s) && Counted(s) && Partitioned(s) && Fed(s) && Flagged(s) && w < |s.workers|
    requires s.workers[w].Woken?
    requires Bounded(Popped(s, w))
    ensures Partitioned(Popped(s, w)) && Fed(Popped(s, w))
  {
    NoFault(s, w);
    assert s.queue == [s.queue[0]] + s.queue[1..];
    HoldersUpdates(s.workers, w, Popped(s, w).workers[w]);
    hide Holders, WokenCount, PostingCount, Pending, Watched, Returned, Seen;
  }

  lemma PoppedFlags(s: State, w: nat)
    requires Bounded(s) && Flagged(s) && w < |s.workers| && s.workers[w].Woken?
    requires Bounded(Popped(s, w))
    ensures Flagged(Popped(s, w))
  {
    hide Holders, WokenCount, PostingCount, Pending, Watched, Returned, Seen, Counted;
  }

  lemma PoppedOrder(s: State, w: nat)
    requires Bounded(s) && Partitioned(s) && InOrder(s) && w < |s.workers| && s.workers[w].Woken?
    requires Bounded(Popped(s, w))
    ensures InOrder(Popped(s, w))
  {
    HoldersUpdates(s.workers, w, Popped(s, w).workers[w]);
    hide Holders, WokenCount, PostingCount, Pending, Watched, Returned, Seen;
  }

  lemma PoppedWakes(s: State, w: nat)
    requires Bounded(s) && Awake(s) && w < |s.workers| && s.workers[w].Woken?
    requires Bounded(Popped(s, w))
    ensures Awake(Popped(s, w))
  {
    PendingKept(s.workers, w, Popped(s, w).workers[w]);
    hide WokenCount, PostingCount, Pending, Watched, Returned, Seen;
  }

  lemma PoppedSafe(s: State, w: nat)
    requires Safe(s) && w < |s.workers| && s.workers[w].Woken?
    ensures Safe(Popped(s, w))
  {
    hide Bounded, Counted, Partitioned, Fed, Flagged, InOrder, Awake, Popped;
    PoppedCounts(s, w);
    PoppedParts(s, w);
    PoppedFlags(s, w);
    PoppedOrder(s, w);
    PoppedWakes(s, w);
  }

  lemma DoneReadingCounts(s: State, w: nat, k: nat)
    requires Bounded(s) && Counted(s) && At(s, w, k) && s.workers[w].Reading? && Readable(s.slots[k])
    ensures Bounded(DoneReading(s, w, k)) && Counted(DoneReading(s, w, k)) && DoneReading(s, w, k).fault == s.fault
  {
    WokenUpdate(s.workers, w, DoneReading(s, w, k).workers[w]);
    hide Holders, WokenCount, PostingCount, Pending, Watched, Returned, Seen;
  }

  lemma DoneReadingParts(s: State, w: nat, k: nat)
    requires Bounded(s) && Counted(s) && Partitioned(s) && Fed(s) && Flagged(s) && At(s, w, k)
    requires s.workers[w].Reading? && Readable(s.slots[k])
    requires Bounded(DoneReading(s, w, k))
    ensures Partitioned(DoneReading(s, w, k)) && Fed(DoneReading(s, w, k))
  {
    OnlyHolder(s, w, k);
    HoldersUpdates(s.workers, w, DoneReading(s, w, k).workers[w]);
    hide Holders, WokenCount, PostingCount, Pending, Watched, Returned, Seen;
  }

  lemma DoneReadingFlags(s: State, w: nat, k: nat)
    requires Bounded(s) && Partitioned(s) && Flagged(s) && At(s, w, k) && s.workers[w].Reading? && Readable(s.slots[k])
    requires Bounded(DoneReading(s, w, k))
    ensures Flagged(DoneReading(s, w, k))
  {
    OnlyHolder(s, w, k);
    hide Holders, WokenCount, PostingCount, Pending, Watched, Returned, Seen, Counted;
  }

  lemma DoneReadingStreams(s: State, w: nat, k: nat)
    requires Bounded(s) && InOrder(s) && At(s, w, k) && s.workers[w].Reading?
    ensures Streams(DoneReading(s, w, k))
  {
    var slot := s.slots[k];
    assert slot.inHand == [];
    assert slot.incoming != [] ==> slot.incoming == [slot.incoming[0]] + slot.incoming[1..];
    hide Tracked;
  }

  lemma DoneReadingOrder(s: State, w: nat, k: nat)
    requires Bounded(s) && Partitioned(s) && InOrder(s) && At(s, w, k) && s.workers[w].Reading?
    requires Bounded(DoneReading(s, w, k))
    ensures InOrder(DoneReading(s, w, k))
  {
    var s' := DoneReading(s, w, k);
    DoneReadingStreams(s, w, k);
    OnlyHolder(s, w, k);
    HoldersUpdates(s.workers, w, s'.workers[w]);
    hide Holders, Partitioned, Streams;
    assert s'.slots[k].inHand != [] ==> Holders(s'.workers, k) == 1;
    forall v | 0 <= v < |s.workers| && (s'.workers[v].Reading? || s'.workers[v].Rearming?)
      ensures s'.slots[s'.workers[v].slot].inHand == []
    {
      assert v != w && Holds(s.workers[v], s.workers[v].slot);
    }
    forall v | 0 <= v < |s.workers| && s'.workers[v].Handling?
      ensures s'.slots[s'.workers[v].slot].inHand == [s'.workers[v].msg]
    {
      assert v != w ==> Holds(s.workers[v], s.workers[v].slot);
    }
  }

  lemma DoneReadingWakes(s: State, w: nat, k: nat)
    requires Bounded(s) && Awake(s) && At(s, w, k) && s.workers[w].Reading? && Readable(s.slots[k])
    requires Bounded(DoneReading(s, w, k))
    ensures Awake(DoneReading(s, w, k))
  {
    PendingKept(s.workers, w, DoneReading(s, w, k).workers[w]);
    hide WokenCount, PostingCount, Pending, Watched, Returned, Seen;
  }

  lemma DoneReadingSafe(s: State, w: nat, k: nat)
    requires Safe(s) && At(s, w, k) && s.workers[w].Reading? && Readable(s.slots[k])
    ensures Safe(DoneReading(s, w, k))
  {
    hide Bounded, Counted, Partitioned, Fed, Flagged, InOrder, Awake, DoneReading;
    DoneReadingCounts(s, w, k);
    DoneReadingParts(s, w, k);
    DoneReadingFlags(s, w, k);
    DoneReadingOrder(s, w, k);
    DoneReadingWakes(s, w, k);
  }

  lemma HandledFlow(s: State, w: nat, k: nat)
    requires Bounded(s) && Counted(s) && Partitioned(s) && Fed(s) && Flagged(s) && At(s, w, k) && s.workers[w].Handling?
    ensures var s' := Handled(s, w, k);
      Bounded(s') && Counted(s') && Partitioned(s') && Fed(s') && Flagged(s') && s'.fault == s.fault
  {
    OnlyHolder(s, w, k);
    HoldersUpdates(s.workers, w, Handled(s, w, k).workers[w]);
    WokenUpdate(s.workers, w, Handled(s, w, k).workers[w]);
    hide Holders, WokenCount, PostingCount, Pending, Watched, Returned, Seen;
  }

  lemma HandledData(s: State, w: nat, k: nat)
    requires Bounded(s) && Partitioned(s) && InOrder(s) && Awake(s) && At(s, w, k) && s.workers[w].Handling?
    requires Bounded(Handled(s, w, k))
    ensures InOrder(Handled(s, w, k)) && Awake(Handled(s, w, k))
  {
    OnlyHolder(s, w, k);
    HoldersUpdates(s.workers, w, Handled(s, w, k).workers[w]);
    PendingKept(s.workers, w, Handled(s, w, k).workers[w]);
    hide Holders, WokenCount, PostingCount, Pending, Watched, Returned, Seen;
  }

  lemma HandledSafe(s: State, w: nat, k: nat)
    requires Safe(s) && At(s, w, k) && s.workers[w].Handling?
    ensures Safe(Handled(s, w, k))
  {
    hide Bounded, Counted, Partitioned, Fed, Flagged, InOrder, Awake, Handled;
    HandledFlow(s, w, k);
    HandledData(s, w, k);
  }

  lemma RearmedFlow(s: State, w: nat, k: nat)
    requires Bounded(s) && Counted(s) && Partitioned(s) && Fed(s) && Flagged(s) && At(s, w, k) && s.workers[w].Rearming?
    ensures var s' := Rearmed(s, w, k);
      Bounded(s') && Counted(s') && Partitioned(s') && Fed(s') && Flagged(s') && s'.fault == s.fault
  {
    OnlyHolder(s, w, k);
    HoldersUpdates(s.workers, w, Rearmed(s, w, k).workers[w]);
    WokenUpdate(s.workers, w, Rearmed(s, w, k).workers[w]);
    hide Holders, WokenCount, PostingCount, Pending, Watched, Returned, Seen;
  }

  lemma RearmedData(s: State, w: nat, k: nat)
    requires Bounded(s) && Partitioned(s) && InOrder(s) && Awake(s) && At(s, w, k) && s.workers[w].Rearming?
    requires Bounded(Rearmed(s, w, k))
    ensures InOrder(Rearmed(s, w, k)) && Awake(Rearmed(s, w, k))
  {
    OnlyHolder(s, w, k);
    HoldersUpdates(s.workers, w, Rearmed(s, w, k).workers[w]);
    PendingKept(s.workers, w, Rearmed(s, w, k).workers[w]);
    hide Holders, WokenCount, PostingCount, Pending, Watched, Returned, Seen;
  }

  lemma RearmedSafe(s: State, w: nat, k: nat)
    requires Safe(s) && At(s, w, k) && s.workers[w].Rearming?
    ensures Safe(Rearmed(s, w, k))
  {
    hide Bounded, Counted, Partitioned, Fed, Flagged, InOrder, Awake, Rearmed;
    RearmedFlow(s, w, k);
    RearmedData(s, w, k);
  }

  lemma NotifiedSafe(s: State, w: nat, k: nat)
    requires Safe(s) && At(s, w, k) && s.workers[w].Notifying?
    ensures Safe(Notified(s, w, k))
  {
    HoldersUpdates(s.workers, w, Notified(s, w, k).workers[w]);
    WokenUpdate(s.workers, w, Notified(s, w, k).workers[w]);
    PendingKept(s.workers, w, Notified(s, w, k).workers[w]);
    hide Holders, WokenCount, PostingCount, Pending, Watched, Returned, Seen;
  }

  lemma StepSafe(s: State, a: Action)
    requires Safe(s) && Enabled(s, a)
    ensures Safe(Next(s, a))
  {
    hide Safe;
    match a
    case Connect(r) => ConnectedSafe(s, r);
    case Send(k, msg) => SentSafe(s, k, msg);
    case HangUp(k) => HungUpSafe(s, k);
    case PollCall(t) => BlockedSafe(s, t);
    case PollReturn(t, listening) => UnblockedSafe(s, t, listening);
    case DrainPipe(t) => DrainedSafe(s, t);
    case ScanNext(t) => ScannedSafe(s, t);
    case PostSem(t) => PostedSafe(s, t);
    case ResetRevents(t) => ResettedSafe(s, t);
    case Wake(w) => WokenUpSafe(s, w);
    case Pop(w) => PoppedSafe(s, w);
    case Read(w, k) => DoneReadingSafe(s, w, k);
    case Handle(w, k) => HandledSafe(s, w, k);
    case Rearm(w, k) => RearmedSafe(s, w, k);
    case Notify(w, k) => NotifiedSafe(s, w, k);
  }

  lemma {:induction false} NoneAtStart(polls: nat, workers: nat)
    ensures PostingCount(Repeat(polls, Idle)) == 0 && WokenCount(Repeat(workers, Waiting)) == 0
  {
    if polls > 0 {
      NoneAtStart(polls - 1, workers);
      assert Repeat(polls, Idle)[..polls - 1] == Repeat(polls - 1, Idle);
    } else if workers > 0 {
      NoneAtStart(polls, workers - 1);
      assert Repeat(workers, Waiting)[..workers - 1] == Repeat(workers - 1, Waiting);
    }
  }

  lemma StartSafe(polls: nat, workers: nat)
    ensures Safe(Start(polls, workers))
  {
    NoneAtStart(polls, workers);
    hide PostingCount, WokenCount, Holders;
  }

  lemma {:induction false} RunKeepsSafe(s: State, actions: seq<Action>)
    requires Safe(s) && IsRun(s, actions)
    ensures Safe(RunTo(s, actions))
    decreases |actions|
  {
    hide Safe;
    if actions != [] {
      StepSafe(s, actions[0]);
      RunKeepsSafe(Next(s, actions[0]), actions[1..]);
    }
  }

  /** A woken worker finds a request, and a worker about to read has a message or the end of the stream
      before it. */
  ghost predicate NeverIdleHanded(s: State) {
    && (forall w | 0 <= w < |s.workers| && s.workers[w].Woken? :: s.queue != [])
    && (forall w | 0 <= w < |s.workers| && s.workers[w].Reading? ::
          s.workers[w].slot < |s.slots| && Enabled(s, Read(w, s.workers[w].slot)))
  }

  /** Connection k has no second worker and no place in the queue while worker v has it. */
  ghost predicate Alone(s: State, v: nat, k: nat) {
    k !in s.queue && forall w: nat | w < |s.workers| && Holds(s.workers[w], k) :: v == w
  }

  ghost predicate ServedByOne(s: State) {
    forall v: nat, k: nat | v < |s.workers| && k < |s.slots| && Holds(s.workers[v], k) :: Alone(s, v, k)
  }

  /** No connection is queued twice, and the messages handled are the first ones sent, in order. */
  ghost predicate HandledOnce(s: State) {
    && (forall k | 0 <= k < |s.slots| :: multiset(s.queue)[k] <= 1)
    && (forall k | 0 <= k < |s.slots| :: s.slots[k].handled <= s.slots[k].sent)
  }

  lemma HandsOver(s: State)
    requires Bounded(s) && Counted(s) && Fed(s)
    ensures NeverIdleHanded(s)
  {
    forall w | 0 <= w < |s.workers| && s.workers[w].Woken? ensures s.queue != [] {
      NoFault(s, w);
    }
    hide Counted, Readable;
    forall w | 0 <= w < |s.workers| && s.workers[w].Reading?
      ensures s.workers[w].slot < |s.slots| && Enabled(s, Read(w, s.workers[w].slot))
    {
      assert At(s, w, s.workers[w].slot);
    }
  }

  lemma IsAlone(s: State, v: nat, k: nat)
    requires Partitioned(s) && v < |s.workers| && k < |s.slots| && Holds(s.workers[v], k)
    ensures Alone(s, v, k)
  {
    hide Holders, Holds, Partitioned;
    OneHolder(s, v, v, k);
    forall w: nat | w < |s.workers| && Holds(s.workers[w], k) ensures v == w {
      OneHolder(s, v, w, k);
    }
  }

  lemma OneServer(s: State)
    requires Partitioned(s)
    ensures ServedByOne(s)
  {
    hide Holders, Alone, Partitioned;
    forall v: nat, k: nat | v < |s.workers| && k < |s.slots| && Holds(s.workers[v], k) ensures Alone(s, v, k) {
      IsAlone(s, v, k);
    }
  }

  lemma OnceEach(s: State)
    requires Bounded(s) && Partitioned(s) && InOrder(s)
    ensures HandledOnce(s)
  {
    hide Holders;
    forall k | 0 <= k < |s.slots| ensures multiset(s.queue)[k] <= 1 && s.slots[k].handled <= s.slots[k].sent {
      assert (if s.slots[k].events then 1 else 0) + multiset(s.queue)[k] + Holders(s.workers, k)
          == if s.slots[k].open then 1 else 0;
      assert s.slots[k].sent == s.slots[k].handled + (s.slots[k].inHand + s.slots[k].incoming);
    }
  }

  /** Every run of any number of poll threads and workers over any clients. */
  lemma EveryRunIsSound(polls: nat, workers: nat, actions: seq<Action>)
    requires IsRun(Start(polls, workers), actions)
    ensures var s := RunTo(Start(polls, workers), actions);
      !s.fault && NeverIdleHanded(s) && ServedByOne(s) && HandledOnce(s)
  {
    hide IsRun, RunTo, Bounded, Counted, Partitioned, Fed, Flagged, InOrder, Awake;
    hide NeverIdleHanded, ServedByOne, HandledOnce;
    StartSafe(polls, workers);
    RunKeepsSafe(Start(polls, workers), actions);
    var s := RunTo(Start(polls, workers), actions);
    HandsOver(s);
    OneServer(s);
    OnceEach(s);
  }
}

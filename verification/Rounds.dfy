/** Why a round trip through a worker is the same as training on the server: the pure core, for
    one round and for any interleaving of many workers' rounds. */
module Rounds {
  import opened Factorization
  import opened GradientShift
  import opened MFGradients
  import opened Sets

  /** The gradient a worker computes from a snapshot of the model. */
  ghost predicate IsGradientOf(g: MFGradient, snapshot: Model, ratings: seq<Rating>, h: Hyper,
                               users: set<int>, items: set<int>)
    requires Shaped(snapshot, NUM_FACTORS)
  {
    && UsersOf(ratings) <= users && ItemsOf(ratings) <= items
    && SendableBlocks(g.usersWeights) && SendableBlocks(g.itemsWeights)
    && Covers(snapshot, ratings)
    && var trained := Run(snapshot, ratings, h, NUM_FACTORS);
    && IsDelta(g.usersBias, g.usersWeights, snapshot.users, trained.users, users)
    && IsDelta(g.itemsBias, g.itemsWeights, snapshot.items, trained.items, items)
  }

  /** Shifting one side of the model by a delta measured on an agreeing snapshot. */
  lemma ShiftSide(now: map<int, Entity>, goal: map<int, Entity>, bias: map<int, real>, blocks: seq<Block>,
                  before: map<int, Entity>, after: map<int, Entity>, ids: set<int>)
    requires forall id <- now :: |now[id].weights| == NUM_FACTORS
    requires forall b <- blocks :: |b.1| == NUM_FACTORS
    requires IsDelta(bias, blocks, before, after, ids)
    requires forall id :: id in goal <==> id in now
    requires forall id <- ids :: id in now && now[id] == before[id] && goal[id] == after[id]
    requires forall id <- now :: id !in ids ==> goal[id] == now[id]
    ensures ShiftAll(now, bias, blocks) == goal
  {
    hide IsDelta, ShiftEntity;
    forall id | id in now ensures ShiftEntity(now[id], id, bias, blocks) == goal[id] {
      ShiftByDelta(now[id], id, bias, blocks, before, after, ids);
    }
    SameIntMap(ShiftAll(now, bias, blocks), goal);
  }

  /** The round-trip theorem.  If the snapshot agrees with the server's model on the users and
      items of the round, adding the worker's gradient to the server's model is training the
      server's model in place. */
  lemma RoundRefinesTraining(m: Model, snapshot: Model, g: MFGradient, ratings: seq<Rating>, h: Hyper,
                             users: set<int>, items: set<int>)
    requires Shaped(m, NUM_FACTORS) && Shaped(snapshot, NUM_FACTORS)
    requires IsGradientOf(g, snapshot, ratings, h, users, items)
    requires Agree(m, snapshot, users, items)
    ensures Covers(m, ratings)
    ensures Shift(m, g) == Run(m, ratings, h, NUM_FACTORS)
  {
    hide Run, IsDelta, ShiftAll;
    AgreeCovers(m, snapshot, ratings, users, items);
    RunIsLocal(m, snapshot, ratings, h, NUM_FACTORS, users, items);
    RunFrames(m, ratings, h, NUM_FACTORS);
    var goal, trained := Run(m, ratings, h, NUM_FACTORS), Run(snapshot, ratings, h, NUM_FACTORS);
    assert goal.users.Keys == m.users.Keys && goal.items.Keys == m.items.Keys;
    ShiftSide(m.users, goal.users, g.usersBias, g.usersWeights, snapshot.users, trained.users, users);
    ShiftSide(m.items, goal.items, g.itemsBias, g.itemsWeights, snapshot.items, trained.items, items);
  }

  /** A round in flight: what its worker has been sent of the model so far, and the ratings it trains on. */
  datatype Job = Job(snapshot: Model, ratings: seq<Rating>, users: set<int>, items: set<int>)

  /** The model lock, which a thread holds while it adds a gradient. */
  datatype Lock = Free | Held(worker: nat)

  /** The server's model, the rounds in flight by worker, the lock, and the ratings applied so far.
      While the lock is held the model is the one before the update. */
  datatype Cluster = Cluster(model: Model, jobs: map<nat, Job>, lock: Lock, applied: seq<Rating>)

  ghost predicate Disjoint(a: Job, b: Job) {
    a.users !! b.users && a.items !! b.items
  }

  /** A worker asks for its slice of the model: users and items that no round in flight uses. */
  ghost predicate Request(c: Cluster, c': Cluster, w: nat, job: Job) {
    && w !in c.jobs
    && job.snapshot == Model(map[], map[])
    && UsersOf(job.ratings) <= job.users <= c.model.users.Keys
    && ItemsOf(job.ratings) <= job.items <= c.model.items.Keys
    && (forall o <- c.jobs :: Disjoint(job, c.jobs[o]))
    && c' == c.(jobs := c.jobs[w := job])
  }

  /** The slice is read entity by entity and without the lock: an entity of a round that is being
      added at that moment reads as anything. */
  ghost predicate ReadUser(c: Cluster, c': Cluster, w: nat, u: int, e: Entity) {
    && w in c.jobs && c.lock != Held(w) && u in c.jobs[w].users && u in c.model.users
    && (UserIsTorn(c, u) || e == c.model.users[u])
    && var seen := c.jobs[w].snapshot;
    && c' == c.(jobs := c.jobs[w := c.jobs[w].(snapshot := seen.(users := seen.users[u := e]))])
  }

  ghost predicate ReadItem(c: Cluster, c': Cluster, w: nat, i: int, e: Entity) {
    && w in c.jobs && c.lock != Held(w) && i in c.jobs[w].items && i in c.model.items
    && (ItemIsTorn(c, i) || e == c.model.items[i])
    && var seen := c.jobs[w].snapshot;
    && c' == c.(jobs := c.jobs[w := c.jobs[w].(snapshot := seen.(items := seen.items[i := e]))])
  }

  ghost predicate UserIsTorn(c: Cluster, u: int) {
    c.lock.Held? && c.lock.worker in c.jobs && u in c.jobs[c.lock.worker].users
  }

  ghost predicate ItemIsTorn(c: Cluster, i: int) {
    c.lock.Held? && c.lock.worker in c.jobs && i in c.jobs[c.lock.worker].items
  }

  /** A worker's gradient arrives and the model lock is taken. */
  ghost predicate Acquire(c: Cluster, c': Cluster, w: nat) {
    w in c.jobs && c.lock == Free && c' == c.(lock := Held(w))
  }

  /** The gradient of a completely read slice has been added, and the lock is given back. */
  ghost predicate Apply(c: Cluster, c': Cluster, w: nat, g: MFGradient, h: Hyper)
    requires Shaped(c.model, NUM_FACTORS)
  {
    && w in c.jobs && c.lock == Held(w)
    && IsComplete(c.jobs[w]) && Shaped(c.jobs[w].snapshot, NUM_FACTORS)
    && IsGradientOf(g, c.jobs[w].snapshot, c.jobs[w].ratings, h, c.jobs[w].users, c.jobs[w].items)
    && c' == Cluster(Shift(c.model, g), map o | o in c.jobs && o != w :: c.jobs[o], Free,
                     c.applied + c.jobs[w].ratings)
  }

  ghost predicate IsComplete(job: Job) {
    job.users <= job.snapshot.users.Keys && job.items <= job.snapshot.items.Keys
  }

  ghost predicate ClusterNext(c: Cluster, c': Cluster, h: Hyper)
    requires Shaped(c.model, NUM_FACTORS)
  {
    || (exists w, job :: Request(c, c', w, job))
    || (exists w, u, e :: ReadUser(c, c', w, u, e))
    || (exists w, i, e :: ReadItem(c, c', w, i, e))
    || (exists w :: Acquire(c, c', w))
    || (exists w, g :: Apply(c, c', w, g, h))
  }

  /** The server's model is the initial model trained on everything applied, and what every round in
      flight has read is still current. */
  ghost predicate Serial(c: Cluster, initial: Model, h: Hyper)
    requires Shaped(initial, NUM_FACTORS)
  {
    && Trained(initial, c.applied, c.model, h, NUM_FACTORS)
    && (forall w <- c.jobs :: Fresh(c, c.jobs[w]))
    && (forall w, o | w in c.jobs && o in c.jobs && w != o :: Disjoint(c.jobs[w], c.jobs[o]))
  }

  ghost predicate Fresh(c: Cluster, job: Job) {
    && (forall u <- job.snapshot.users ::
          u in job.users && u in c.model.users && job.snapshot.users[u] == c.model.users[u])
    && (forall i <- job.snapshot.items ::
          i in job.items && i in c.model.items && job.snapshot.items[i] == c.model.items[i])
  }

  lemma RequestKeepsSerial(c: Cluster, c': Cluster, w: nat, job: Job, initial: Model, h: Hyper)
    requires Shaped(initial, NUM_FACTORS) && Serial(c, initial, h)
    requires Request(c, c', w, job)
    ensures Serial(c', initial, h)
  {
    hide Trained;
    assert Fresh(c', job);
    forall o | o in c.jobs ensures Fresh(c', c.jobs[o]) {
      assert Fresh(c, c.jobs[o]);
    }
  }

  /** No read is ever torn: the round being added shares no entity with the reading one. */
  lemma NothingTorn(c: Cluster, w: nat, initial: Model, h: Hyper)
    requires Shaped(initial, NUM_FACTORS) && Serial(c, initial, h)
    requires w in c.jobs && c.lock != Held(w)
    ensures forall u <- c.jobs[w].users :: !UserIsTorn(c, u)
    ensures forall i <- c.jobs[w].items :: !ItemIsTorn(c, i)
  {
    hide Trained;
    if c.lock.Held? && c.lock.worker in c.jobs {
      assert Disjoint(c.jobs[w], c.jobs[c.lock.worker]);
    }
  }

  lemma ReadKeepsSerial(c: Cluster, c': Cluster, w: nat, k: int, e: Entity, initial: Model, h: Hyper)
    requires Shaped(initial, NUM_FACTORS) && Serial(c, initial, h)
    requires ReadUser(c, c', w, k, e) || ReadItem(c, c', w, k, e)
    ensures Serial(c', initial, h)
  {
    NothingTorn(c, w, initial, h);
    hide Trained;
    forall o | o in c'.jobs ensures Fresh(c', c'.jobs[o]) {
      assert o in c.jobs && Fresh(c, c.jobs[o]);
    }
    forall a, b | a in c'.jobs && b in c'.jobs && a != b ensures Disjoint(c'.jobs[a], c'.jobs[b]) {
      assert Disjoint(c.jobs[a], c.jobs[b]);
    }
  }

  lemma AcquireKeepsSerial(c: Cluster, c': Cluster, w: nat, initial: Model, h: Hyper)
    requires Shaped(initial, NUM_FACTORS) && Serial(c, initial, h)
    requires Acquire(c, c', w)
    ensures Serial(c', initial, h)
  {
    hide Trained;
    forall o | o in c.jobs ensures Fresh(c', c.jobs[o]) {
      assert Fresh(c, c.jobs[o]);
    }
  }

  lemma ApplyTrains(c: Cluster, c': Cluster, w: nat, g: MFGradient, initial: Model, h: Hyper)
    requires Shaped(initial, NUM_FACTORS) && Shaped(c.model, NUM_FACTORS) && Serial(c, initial, h)
    requires Apply(c, c', w, g, h)
    ensures Covers(c.model, c.jobs[w].ratings) && c'.model == Run(c.model, c.jobs[w].ratings, h, NUM_FACTORS)
    ensures Trained(initial, c'.applied, c'.model, h, NUM_FACTORS)
  {
    hide Run, IsGradientOf;
    var job := c.jobs[w];
    assert Fresh(c, job);
    assert Agree(c.model, job.snapshot, job.users, job.items);
    hide Agree;
    RoundRefinesTraining(c.model, job.snapshot, g, job.ratings, h, job.users, job.items);
    TrainedMore(initial, c.applied, c.model, job.ratings, h, NUM_FACTORS);
  }

  /** Another round's update leaves current what a disjoint round has read. */
  lemma StaysFresh(c: Cluster, c': Cluster, done: Job, other: Job, h: Hyper)
    requires Shaped(c.model, NUM_FACTORS) && Covers(c.model, done.ratings)
    requires UsersOf(done.ratings) <= done.users && ItemsOf(done.ratings) <= done.items
    requires c'.model == Run(c.model, done.ratings, h, NUM_FACTORS)
    requires Disjoint(done, other) && Fresh(c, other)
    ensures Fresh(c', other)
  {
    hide Run;
    RunFrames(c.model, done.ratings, h, NUM_FACTORS);
  }

  lemma ApplyKeepsSerial(c: Cluster, c': Cluster, w: nat, g: MFGradient, initial: Model, h: Hyper)
    requires Shaped(initial, NUM_FACTORS) && Shaped(c.model, NUM_FACTORS) && Serial(c, initial, h)
    requires Apply(c, c', w, g, h)
    ensures Serial(c', initial, h)
  {
    ApplyTrains(c, c', w, g, initial, h);
    hide Run, Trained, Fresh, IsDelta, Shift;
    forall o | o in c'.jobs ensures Fresh(c', c'.jobs[o]) {
      assert o in c.jobs && Disjoint(c.jobs[w], c.jobs[o]);
      StaysFresh(c, c', c.jobs[w], c.jobs[o], h);
    }
  }

  ghost predicate ClusterRun(states: seq<Cluster>, initial: Model, h: Hyper) {
    && |states| > 0 && Shaped(initial, NUM_FACTORS) && states[0] == Cluster(initial, map[], Free, [])
    && forall i | 0 <= i < |states| - 1 ::
         (Shaped(states[i].model, NUM_FACTORS) && ClusterNext(states[i], states[i + 1], h))
  }

  /** Serializability: whatever the interleaving of requests, reads of single entities and updates by
      any number of workers whose rounds in flight share no user and no item, the server's model is the
      initial model trained in place, one rating at a time, on the rounds in the order of their updates. */
  lemma {:induction false} RoundsAreSerializable(states: seq<Cluster>, initial: Model, h: Hyper)
    requires ClusterRun(states, initial, h)
    ensures var last := states[|states| - 1];
      && Serial(last, initial, h)
      && Covers(initial, last.applied) && last.model == Run(initial, last.applied, h, NUM_FACTORS)
    decreases |states|
  {
    if |states| == 1 {
      TrainedNot(initial, h, NUM_FACTORS);
    } else {
      var n := |states| - 2;
      assert states[..n + 1][n] == states[n];
      RoundsAreSerializable(states[..n + 1], initial, h);
      hide Run;
      var c, c' := states[n], states[n + 1];
      assert ClusterNext(c, c', h);
      if w, job :| Request(c, c', w, job) {
        RequestKeepsSerial(c, c', w, job, initial, h);
      } else if w, u, e :| ReadUser(c, c', w, u, e) {
        ReadKeepsSerial(c, c', w, u, e, initial, h);
      } else if w, i, e :| ReadItem(c, c', w, i, e) {
        ReadKeepsSerial(c, c', w, i, e, initial, h);
      } else if w :| Acquire(c, c', w) {
        AcquireKeepsSerial(c, c', w, initial, h);
      } else {
        var w, g :| Apply(c, c', w, g, h);
        ApplyKeepsSerial(c, c', w, g, initial, h);
      }
    }
  }

  /** c' follows from c in n steps. */
  ghost predicate Leads(c: Cluster, c': Cluster, h: Hyper, n: nat)
    decreases n
  {
    if n == 0 then c == c'
    else Shaped(c.model, NUM_FACTORS) && exists d :: ClusterNext(c, d, h) && Leads(d, c', h, n - 1)
  }

  lemma First(c: Cluster, d: Cluster, c': Cluster, h: Hyper, n: nat)
    requires Shaped(c.model, NUM_FACTORS) && ClusterNext(c, d, h) && Leads(d, c', h, n)
    ensures Leads(c, c', h, n + 1)
  {
    hide Shaped, ClusterNext;
  }

  /** The entities of a table that are in a set. */
  ghost function Part(t: map<int, Entity>, ids: set<int>): map<int, Entity> {
    map id | id in t && id in ids :: t[id]
  }

  ghost function InFlight(c: Cluster, w: nat, job: Job, users: set<int>, items: set<int>): Cluster {
    c.(jobs := c.jobs[w := job.(snapshot := Model(Part(c.model.users, users), Part(c.model.items, items)))])
  }

  /** Whether worker w can start a round for the ratings now. */
  ghost predicate CanStart(c: Cluster, w: nat, job: Job) {
    && w !in c.jobs && c.lock == Free && Shaped(c.model, NUM_FACTORS)
    && UsersOf(job.ratings) <= job.users <= c.model.users.Keys
    && ItemsOf(job.ratings) <= job.items <= c.model.items.Keys
    && (forall o <- c.jobs :: Disjoint(job, c.jobs[o]))
  }

  ghost function Finished(c: Cluster, job: Job, g: MFGradient): Cluster
    requires Shaped(c.model, NUM_FACTORS) && SendableBlocks(g.usersWeights) && SendableBlocks(g.itemsWeights)
  {
    Cluster(Shift(c.model, g), c.jobs, Free, c.applied + job.ratings)
  }

  /** The model restricted to a round. */
  ghost function SliceOf(m: Model, job: Job): (slice: Model)
    requires Shaped(m, NUM_FACTORS)
    ensures Shaped(slice, NUM_FACTORS)
  {
    Model(Part(m.users, job.users), Part(m.items, job.items))
  }

  /** With everything read, the gradient can be added. */
  lemma AddsAtLast(c: Cluster, w: nat, job: Job, g: MFGradient, h: Hyper)
    requires CanStart(c, w, job)
    requires IsGradientOf(g, SliceOf(c.model, job), job.ratings, h, job.users, job.items)
    ensures Leads(InFlight(c, w, job, job.users, job.items), Finished(c, job, g), h, 2)
  {
    var read := InFlight(c, w, job, job.users, job.items);
    var held := read.(lock := Held(w));
    var done := Finished(c, job, g);
    hide IsGradientOf, Shift, Shaped;
    assert CanStart(c, w, job) && read.jobs[w].snapshot == SliceOf(c.model, job);
    assert Acquire(read, held, w);
    assert (map o | o in read.jobs && o != w :: read.jobs[o]) == c.jobs;
    assert Apply(held, done, w, g, h);
    hide Apply, Acquire;
    assert ClusterNext(held, done, h) && ClusterNext(read, held, h);
    hide ClusterNext;
    assert Leads(done, done, h, 0);
    First(held, done, done, h, 0);
    First(read, held, done, h, 1);
  }

  lemma ReadsItem(c: Cluster, w: nat, job: Job, items: set<int>, i: int, h: Hyper)
    requires CanStart(c, w, job) && i in job.items
    ensures var here := InFlight(c, w, job, job.users, items);
      Shaped(here.model, NUM_FACTORS) && ClusterNext(here, InFlight(c, w, job, job.users, items + {i}), h)
  {
    var here, next := InFlight(c, w, job, job.users, items), InFlight(c, w, job, job.users, items + {i});
    assert Part(c.model.items, items + {i}) == Part(c.model.items, items)[i := c.model.items[i]];
    hide Shaped;
    assert ReadItem(here, next, w, i, c.model.items[i]);
    hide ReadItem;
    assert ClusterNext(here, next, h);
  }

  lemma ReadsUser(c: Cluster, w: nat, job: Job, users: set<int>, u: int, h: Hyper)
    requires CanStart(c, w, job) && u in job.users
    ensures var here := InFlight(c, w, job, users, {});
      Shaped(here.model, NUM_FACTORS) && ClusterNext(here, InFlight(c, w, job, users + {u}, {}), h)
  {
    var here, next := InFlight(c, w, job, users, {}), InFlight(c, w, job, users + {u}, {});
    assert Part(c.model.users, users + {u}) == Part(c.model.users, users)[u := c.model.users[u]];
    hide Shaped;
    assert ReadUser(here, next, w, u, c.model.users[u]);
    hide ReadUser;
    assert ClusterNext(here, next, h);
  }

  lemma {:induction false} ReadsItems(c: Cluster, w: nat, job: Job, items: set<int>, done: Cluster, h: Hyper, n: nat)
    returns (steps: nat)
    requires CanStart(c, w, job) && items <= job.items
    requires Leads(InFlight(c, w, job, job.users, job.items), done, h, n)
    ensures Leads(InFlight(c, w, job, job.users, items), done, h, steps)
    decreases |job.items - items|
  {
    hide Leads;
    steps := n;
    if items != job.items {
      var i := PickMissing(items, job.items);
      var here, next := InFlight(c, w, job, job.users, items), InFlight(c, w, job, job.users, items + {i});
      assert job.items - (items + {i}) == job.items - items - {i};
      steps := ReadsItems(c, w, job, items + {i}, done, h, n);
      ReadsItem(c, w, job, items, i, h);
      hide ClusterNext, InFlight;
      First(here, next, done, h, steps);
      steps := steps + 1;
    }
  }

  lemma {:induction false} ReadsUsers(c: Cluster, w: nat, job: Job, users: set<int>, done: Cluster, h: Hyper, n: nat)
    returns (steps: nat)
    requires CanStart(c, w, job) && users <= job.users
    requires Leads(InFlight(c, w, job, job.users, {}), done, h, n)
    ensures Leads(InFlight(c, w, job, users, {}), done, h, steps)
    decreases |job.users - users|
  {
    hide Leads;
    steps := n;
    if users != job.users {
      var u := PickMissing(users, job.users);
      var here, next := InFlight(c, w, job, users, {}), InFlight(c, w, job, users + {u}, {});
      assert job.users - (users + {u}) == job.users - users - {u};
      steps := ReadsUsers(c, w, job, users + {u}, done, h, n);
      ReadsUser(c, w, job, users, u, h);
      hide ClusterNext, InFlight;
      First(here, next, done, h, steps);
      steps := steps + 1;
    }
  }

  /** Rounds complete: whenever the lock is free, a round on users and items that no other round in flight
      uses can be run to its end, and then the server has trained on its ratings. */
  lemma RoundCompletes(c: Cluster, w: nat, job: Job, g: MFGradient, h: Hyper) returns (steps: nat)
    requires CanStart(c, w, job)
    requires IsGradientOf(g, SliceOf(c.model, job), job.ratings, h, job.users, job.items)
    ensures Leads(c, Finished(c, job, g), h, steps)
    ensures Covers(c.model, job.ratings) && Finished(c, job, g).model == Run(c.model, job.ratings, h, NUM_FACTORS)
  {
    var done := Finished(c, job, g);
    AddsAtLast(c, w, job, g, h);
    AllAgree(c.model, job);
    RoundRefinesTraining(c.model, SliceOf(c.model, job), g, job.ratings, h, job.users, job.items);
    hide *;
    steps := ReadsItems(c, w, job, {}, done, h, 2);
    steps := ReadsUsers(c, w, job, {}, done, h, steps);
    Asks(c, w, job, done, h, steps);
    steps := steps + 1;
  }

  lemma AllAgree(m: Model, job: Job)
    requires Shaped(m, NUM_FACTORS) && job.users <= m.users.Keys && job.items <= m.items.Keys
    ensures Agree(m, SliceOf(m, job), job.users, job.items)
  {
  }

  lemma Asks(c: Cluster, w: nat, job: Job, done: Cluster, h: Hyper, n: nat)
    requires CanStart(c, w, job) && Leads(InFlight(c, w, job, {}, {}), done, h, n)
    ensures Leads(c, done, h, n + 1)
  {
    var asked, empty := InFlight(c, w, job, {}, {}), job.(snapshot := Model(map[], map[]));
    assert Part(c.model.users, {}) == map[] && Part(c.model.items, {}) == map[];
    hide Leads, Shaped;
    assert Request(c, asked, w, empty);
    hide Request;
    assert ClusterNext(c, asked, h);
    hide ClusterNext;
    First(c, asked, done, h, n);
  }
}

/** The parameter server's register of tasks: registration, deregistration and the lifetime sweep. */
module TaskRegistries {
  import opened Sets

  const TWO_32 := 0x1_0000_0000
  const TIMEOUT_THRESHOLD_SEC := 3

  datatype Phase = NeverSeen | Live | Dead

  /** The maps of the server: every id ever registered, its remaining time (-1 once dead), and the
      start time of each live task. */
  datatype Registry = Registry(registered: set<int>, remaining: map<int, int>, started: map<int, int>)

  function PhaseOf(r: Registry, id: int): Phase {
    if id !in r.registered then NeverSeen else if id in r.started then Live else Dead
  }

  /** Remaining time is known for exactly the registered tasks, and is -1 for exactly the dead ones. */
  ghost predicate Consistent(r: Registry) {
    && (forall id :: id in r.remaining <==> id in r.registered)
    && (forall id <- r.started :: id in r.registered)
    && (forall id <- r.remaining :: r.remaining[id] == -1 <==> PhaseOf(r, id) == Dead)
    && (forall id <- r.started :: 0 <= r.remaining[id] < TWO_32)
  }

  /** Whether a sweep at time now ends the task. */
  predicate Overdue(r: Registry, id: int, now: int)
    requires id in r.started && id in r.remaining
  {
    now - r.started[id] > r.remaining[id] + TIMEOUT_THRESHOLD_SEC
  }

  /** A task is overdue from its fourth second behind the time it said it had left. */
  lemma OverdueIff(r: Registry, id: int, now: int)
    requires id in r.started && id in r.remaining
    ensures Overdue(r, id, now) <==> now >= r.started[id] + r.remaining[id] + 4
  {
  }

  /** What the server does in one step, under its lock. */
  datatype Event = Register(id: int, time: int, now: int) | Deregister(id: int) | Sweep(now: int)

  /** The phase after an event. */
  ghost function PhaseAfter(r: Registry, e: Event, id: int): Phase
    requires Consistent(r)
  {
    var phase := PhaseOf(r, id);
    match e
    case Register(k, _, _) => if k == id && phase == NeverSeen then Live else phase
    case Deregister(k) => if k == id && phase == Live then Dead else phase
    case Sweep(now) => if phase == Live && Overdue(r, id, now) then Dead else phase
  }

  /** A step of the registry, told by phases: lives that continue keep their times. */
  ghost predicate Steps(r: Registry, e: Event, r': Registry)
    requires Consistent(r)
  {
    && Consistent(r')
    && (forall id :: PhaseOf(r', id) == PhaseAfter(r, e, id))
    && (forall id <- r.started :: PhaseOf(r', id) == Live ==>
          r'.started[id] == r.started[id] && r'.remaining[id] == r.remaining[id])
    && (e.Register? && PhaseOf(r, e.id) == NeverSeen ==>
          PhaseOf(r', e.id) == Live && r'.started[e.id] == e.now && r'.remaining[e.id] == e.time)
  }

  predicate WellSent(e: Event) {
    e.Register? ==> 0 <= e.time < TWO_32
  }

  /** The answer on the wire. */
  ghost function Answer(r: Registry, e: Event): int {
    match e
    case Register(id, _, _) => if PhaseOf(r, id) == NeverSeen then 0 else 1
    case Deregister(id) =>
      (match PhaseOf(r, id) case Live => 0 case Dead => 1 case NeverSeen => 2)
    case Sweep(_) => 0
  }

  function Rank(p: Phase): nat {
    match p case NeverSeen => 0 case Live => 1 case Dead => 2
  }

  /** The registries before, between and after the events. */
  ghost predicate IsHistory(rs: seq<Registry>, es: seq<Event>) {
    && |rs| == |es| + 1
    && rs[0] == Registry({}, map[], map[])
    && (forall i | 0 <= i <= |es| :: Consistent(rs[i]))
    && (forall i | 0 <= i < |es| :: Steps(rs[i], es[i], rs[i + 1]))
  }

  /** A task id only ever moves from never seen to live to dead. */
  lemma {:induction false} PhasesOnlyAdvance(rs: seq<Registry>, es: seq<Event>, i: nat, j: nat, id: int)
    requires IsHistory(rs, es) && i <= j < |rs|
    ensures Rank(PhaseOf(rs[i], id)) <= Rank(PhaseOf(rs[j], id))
    decreases j - i
  {
    if i < j {
      PhasesOnlyAdvance(rs, es, i, j - 1, id);
      assert Steps(rs[j - 1], es[j - 1], rs[j - 1 + 1]);
    }
  }

  /** No id is registered twice, and no id is deregistered twice. */
  lemma AnswersZeroOnce(rs: seq<Registry>, es: seq<Event>, i: nat, j: nat, id: int)
    requires IsHistory(rs, es) && i < j < |es|
    requires !es[i].Sweep? && es[i].id == id && Answer(rs[i], es[i]) == 0
    requires !es[j].Sweep? && es[j].id == id && Answer(rs[j], es[j]) == 0
    ensures es[i].Register? && es[j].Deregister?
  {
    assert Steps(rs[i], es[i], rs[i + 1]);
    PhasesOnlyAdvance(rs, es, i + 1, j, id);
  }

  ghost function Refusals(rs: seq<Registry>, es: seq<Event>): nat
    requires |es| <= |rs|
  {
    if es == [] then 0 else
      var n := |es| - 1;
      Refusals(rs, es[..n]) + if es[n].Register? && Answer(rs[n], es[n]) != 0 then 1 else 0
  }

  lemma {:induction false} RefusalsPrefix(rs: seq<Registry>, more: seq<Registry>, es: seq<Event>)
    requires |es| <= |rs|
    ensures Refusals(rs + more, es) == Refusals(rs, es)
  {
    if es != [] {
      RefusalsPrefix(rs, more, es[..|es| - 1]);
    }
  }

  lemma Admitted(r: Registry, id: int, time: int, now: int)
    requires Consistent(r) && PhaseOf(r, id) == NeverSeen && 0 <= time < TWO_32
    ensures Steps(r, Register(id, time, now),
                  Registry(r.registered + {id}, r.remaining[id := time], r.started[id := now]))
    ensures |r.started[id := now]| == |r.started| + 1
  {
    hide Overdue;
    OneMore(r.started, id, now);
  }

  lemma OneMore<V>(m: map<int, V>, k: int, v: V)
    requires k !in m
    ensures |m[k := v]| == |m| + 1
  {
    assert m[k := v].Keys == m.Keys + {k};
  }

  lemma Killed(r: Registry, id: int)
    requires Consistent(r) && PhaseOf(r, id) == Live
    ensures Steps(r, Deregister(id), Registry(r.registered, r.remaining[id := -1], r.started - {id}))
    ensures |r.started - {id}| == |r.started| - 1
  {
    hide Overdue;
    RemoveOne(r.started, id);
  }

  class TaskRegistry {
    var registeredTasks: set<int>
    var taskToRemainingTime: map<int, int>
    var taskToStarttime: map<int, int>
    /** A uint32_t that is decremented under the lock and incremented outside it. */
    var numTasks: nat

    /** Registrations accepted and refused, increments made, and deaths declared. */
    ghost var accepted: int
    ghost var refused: int
    ghost var counted: int
    ghost var died: int

    constructor ()
      ensures Valid() && View() == Registry({}, map[], map[])
      ensures accepted == 0 && refused == 0 && counted == 0 && died == 0
    {
      registeredTasks, taskToRemainingTime, taskToStarttime, numTasks := {}, map[], map[], 0;
      accepted, refused, counted, died := 0, 0, 0, 0;
    }

    ghost function View(): Registry
      reads this
    {
      Registry(registeredTasks, taskToRemainingTime, taskToStarttime)
    }

    ghost predicate Valid()
      reads this
    {
      && Consistent(View())
      && |taskToStarttime| == accepted - died
      && numTasks == (counted - died) % TWO_32
    }

    /** The locked part of process_register_task. */
    method Admit(id: int, time: int, now: int) returns (reply: nat)
      requires Valid() && 0 <= time < TWO_32
      modifies `registeredTasks, `taskToRemainingTime, `taskToStarttime, `accepted, `refused
      ensures Valid()
      ensures reply == Answer(old(View()), Register(id, time, now))
      ensures Steps(old(View()), Register(id, time, now), View())
      ensures accepted == old(accepted) + (if reply == 0 then 1 else 0)
      ensures refused == old(refused) + (if reply == 0 then 0 else 1)
    {
      reply := if id in registeredTasks then 1 else 0;
      if reply == 0 {
        Admitted(View(), id, time, now);
        hide Consistent, Steps;
        registeredTasks := registeredTasks + {id};
        taskToRemainingTime := taskToRemainingTime[id := time];
        taskToStarttime := taskToStarttime[id := now];
        accepted := accepted + 1;
      } else {
        refused := refused + 1;
      }
    }

    /** num_tasks++, for refused registrations too. */
    method Count()
      requires Valid()
      modifies `numTasks, `counted
      ensures Valid() && counted == old(counted) + 1
    {
      numTasks := (numTasks + 1) % TWO_32;
      counted := counted + 1;
    }

    /** process_register_task; `sent` tells whether the reply could be sent. */
    method ProcessRegister(id: int, time: int, now: int, sent: bool) returns (ok: bool, reply: nat)
      requires Valid() && 0 <= time < TWO_32
      modifies this
      ensures Valid() && ok == sent
      ensures reply == Answer(old(View()), Register(id, time, now))
      ensures Steps(old(View()), Register(id, time, now), View())
      ensures accepted + refused == old(accepted + refused) + 1
      ensures counted == old(counted) + (if sent then 1 else 0)
    {
      reply := Admit(id, time, now);
      ok := sent;
      if ok {
        Count();
      }
    }

    /** declare_task_dead */
    method DeclareTaskDead(id: int) returns (ret: nat)
      requires Valid() && id in registeredTasks
      modifies `taskToRemainingTime, `taskToStarttime, `numTasks, `died
      ensures Valid()
      ensures ret == Answer(old(View()), Deregister(id))
      ensures Steps(old(View()), Deregister(id), View())
      ensures taskToStarttime == old(taskToStarttime) - {id}
      ensures died == old(died) + (if ret == 0 then 1 else 0)
    {
      if id !in taskToStarttime {
        assert taskToStarttime - {id} == taskToStarttime;
        return 1;
      }
      Killed(View(), id);
      hide Consistent, Steps;
      taskToRemainingTime := taskToRemainingTime[id := -1];
      taskToStarttime := taskToStarttime - {id};
      numTasks := (numTasks - 1) % TWO_32;
      died := died + 1;
      ret := 0;
    }

    /** process_deregister_task */
    method ProcessDeregister(id: int) returns (ret: nat)
      requires Valid()
      modifies `taskToRemainingTime, `taskToStarttime, `numTasks, `died
      ensures Valid()
      ensures ret == Answer(old(View()), Deregister(id))
      ensures Steps(old(View()), Deregister(id), View())
      ensures died == old(died) + (if ret == 0 then 1 else 0)
    {
      if id in registeredTasks {
        ret := DeclareTaskDead(id);
      } else {
        ret := 2;
      }
    }

    /** check_tasks_lifetime: kills exactly the overdue tasks. */
    method CheckTasksLifetime(now: int)
      requires Valid()
      modifies `taskToRemainingTime, `taskToStarttime, `numTasks, `died
      ensures Valid()
      ensures Steps(old(View()), Sweep(now), View())
    {
      var left := taskToStarttime.Keys;
      while left != {}
        invariant Valid()
        invariant left <= taskToStarttime.Keys
        invariant SweptUpTo(old(View()), now, left, View())
        decreases |left|
      {
        ghost var was, before := old(View()), View();
        ghost var any := Pick(left);
        var id :| id in left;
        var elapsed := now - taskToStarttime[id];
        if elapsed > taskToRemainingTime[id] + TIMEOUT_THRESHOLD_SEC {
          var ret := DeclareTaskDead(id);
        }
        left := left - {id};
        SweepNext(was, now, left, id, before, View());
      }
    }

    /** num_tasks counts live and refused tasks exactly when as many replies have been counted as sent;
        an accepted task whose reply is lost leaves it short for ever. */
    lemma WhatNumTasksCounts()
      requires Valid()
      ensures numTasks == (|taskToStarttime| + counted - accepted) % 0x1_0000_0000
      ensures numTasks == (|taskToStarttime| + refused) % 0x1_0000_0000
         <==> (counted - accepted - refused) % 0x1_0000_0000 == 0
    {
      var live, extra := |taskToStarttime|, counted - accepted - refused;
      assert live + counted - accepted == live + refused + extra;
      if extra % TWO_32 == 0 {
        assert live + refused + extra == live + refused + extra / TWO_32 * TWO_32;
        AddMultiple(live + refused, extra / TWO_32);
      } else if (live + refused + extra) % TWO_32 == (live + refused) % TWO_32 {
        var a, b := live + refused + extra, live + refused;
        assert extra == (a / TWO_32 - b / TWO_32) * TWO_32;
        AddMultiple(0, a / TWO_32 - b / TWO_32);
        assert false;
      }
    }

    /** One event, its handler run to the end and its reply sent. */
    method Serve(e: Event) returns (answer: int)
      requires Valid() && WellSent(e)
      modifies this
      ensures Valid()
      ensures Steps(old(View()), e, View()) && answer == Answer(old(View()), e)
      ensures accepted + refused == old(accepted + refused) + (if e.Register? then 1 else 0)
      ensures counted - accepted - refused == old(counted - accepted - refused)
      ensures refused == old(refused) + (if e.Register? && answer != 0 then 1 else 0)
    {
      match e
      case Register(id, time, now) => {
        answer := Admit(id, time, now);
        Count();
      }
      case Deregister(id) => answer := ProcessDeregister(id);
      case Sweep(now) => {
        answer := 0;
        CheckTasksLifetime(now);
      }
    }

    /** Every run whose handlers are atomic and whose replies all arrive. */
    method ServeAll(es: seq<Event>) returns (answers: seq<int>, ghost rs: seq<Registry>)
      requires Valid() && View() == Registry({}, map[], map[]) && counted == accepted + refused && refused == 0
      requires forall i | 0 <= i < |es| :: WellSent(es[i])
      modifies this
      ensures Valid() && IsHistory(rs, es) && View() == rs[|es|]
      ensures |answers| == |es| && forall i | 0 <= i < |es| :: answers[i] == Answer(rs[i], es[i])
      ensures numTasks == (|rs[|es|].started| + Refusals(rs, es)) % TWO_32
    {
      hide Consistent, Steps, Answer, WellSent;
      answers, rs := [], [View()];
      assert Consistent(View());
      for i := 0 to |es|
        invariant Valid() && IsHistory(rs, es[..i]) && View() == rs[i]
        invariant |answers| == i && forall j | 0 <= j < i :: answers[j] == Answer(rs[j], es[j])
        invariant counted == accepted + refused && refused == Refusals(rs, es[..i])
      {
        var answer := Serve(es[i]);
        assert es[..i + 1][..i] == es[..i];
        RefusalsPrefix(rs, [View()], es[..i]);
        answers, rs := answers + [answer], rs + [View()];
      }
      assert es[..|es|] == es;
      WhatNumTasksCounts();
    }
  }

  lemma {:induction false} AddMultiple(a: int, k: int)
    ensures (a + k * TWO_32) % TWO_32 == a % TWO_32
    decreases if k < 0 then -k else k
  {
    if k > 0 {
      AddMultiple(a, k - 1);
    } else if k < 0 {
      AddMultiple(a, k + 1);
    }
  }

  /** The sweep so far: the tasks still to visit are as they were, the others are as the sweep leaves them. */
  ghost predicate SweptUpTo(was: Registry, now: int, left: set<int>, r: Registry)
    requires Consistent(was)
  {
    && Consistent(r)
    && (forall id :: PhaseOf(r, id) == if id in left then PhaseOf(was, id) else PhaseAfter(was, Sweep(now), id))
    && (forall id <- was.started :: PhaseOf(r, id) == Live ==>
          r.started[id] == was.started[id] && r.remaining[id] == was.remaining[id])
  }

  lemma SweepNext(was: Registry, now: int, left: set<int>, id: int, before: Registry, r: Registry)
    requires Consistent(was) && id !in left && id in before.started
    requires SweptUpTo(was, now, left + {id}, before)
    requires if now - before.started[id] > before.remaining[id] + TIMEOUT_THRESHOLD_SEC
      then Steps(before, Deregister(id), r) else r == before
    ensures SweptUpTo(was, now, left, r)
  {
  }

  lemma RemoveOne<V>(m: map<int, V>, k: int)
    requires k in m
    ensures |m - {k}| == |m| - 1
  {
    assert (m - {k}).Keys == m.Keys - {k};
    assert |m.Keys - {k}| == |m.Keys| - 1;
  }
}

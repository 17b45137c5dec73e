/** The Lambda handlers as clients of the task register: any number of invocations, duplicates included,
    with replies that may be lost; and the ids of the tasks they are launched for. */
module Handlers {
  import opened TaskRegistries

  /** The registration message of one invocation. */
  datatype Message = Unsent | InTransit | Answered(reply: int)

  /** Where an invocation stands in run().  Cleaning is the code that deregisters; `raised` tells that
      register() itself raised. */
  datatype Pc = Registering | Running | Refused | Cleaning(raised: bool) | Done(raised: bool)

  datatype Invocation = Invocation(id: int, msg: Message, pc: Pc, launched: bool, deregistered: bool)

  datatype System = System(registry: Registry, invocations: seq<Invocation>)

  datatype Action =
    | Invoke(id: int)
    | Request(i: nat)
    | ServerRegisters(i: nat, time: int, now: int)
    | GetReply(i: nat)
    | Raise(i: nat)
    | Finish(i: nat)
    | ServerDeregisters(i: nat)
    | Leave(i: nat)
    | SweepTick(now: int)

  predicate Enabled(s: System, a: Action) {
    match a
    case Invoke(_) => true
    case SweepTick(_) => true
    case Request(i) => i < |s.invocations| && s.invocations[i].pc.Registering? && s.invocations[i].msg.Unsent?
    case ServerRegisters(i, time, _) => i < |s.invocations| && s.invocations[i].msg.InTransit? && 0 <= time < TWO_32
    case GetReply(i) => i < |s.invocations| && s.invocations[i].pc.Registering? && s.invocations[i].msg.Answered?
    case Raise(i) => i < |s.invocations| && s.invocations[i].pc.Registering?
    case Finish(i) => i < |s.invocations| && s.invocations[i].pc.Running?
    case ServerDeregisters(i) => i < |s.invocations| && s.invocations[i].pc.Cleaning?
    case Leave(i) => i < |s.invocations| && s.invocations[i].pc.Cleaning?
  }

  /** The invocation after its own step. */
  ghost function Moved(s: System, a: Action): Invocation
    requires Enabled(s, a) && !a.Invoke? && !a.SweepTick?
  {
    var inv := s.invocations[a.i];
    match a
    case Request(_) => inv.(msg := InTransit)
    case ServerRegisters(_, time, now) => inv.(msg := Answered(Answer(s.registry, Register(inv.id, time, now))))
    case GetReply(_) => if inv.msg.reply == 0 then inv.(pc := Running, launched := true) else inv.(pc := Refused)
    case Raise(_) => inv.(pc := Cleaning(true))
    case Finish(_) => inv.(pc := Cleaning(false))
    case ServerDeregisters(_) => inv.(deregistered := true)
    case Leave(_) => inv.(pc := Done(inv.pc.raised))
  }

  /** What the server sees of an action, if anything. */
  function Seen(s: System, a: Action): (e: seq<Event>)
    requires Enabled(s, a)
    ensures |e| <= 1
  {
    match a
    case ServerRegisters(i, time, now) => [Register(s.invocations[i].id, time, now)]
    case ServerDeregisters(i) => [Deregister(s.invocations[i].id)]
    case SweepTick(now) => [Sweep(now)]
    case _ => []
  }

  ghost predicate Step(s: System, a: Action, s': System)
    requires Consistent(s.registry)
  {
    && Enabled(s, a)
    && (if Seen(s, a) == [] then s'.registry == s.registry else Steps(s.registry, Seen(s, a)[0], s'.registry))
    && s'.invocations ==
       if a.Invoke? then s.invocations + [Invocation(a.id, Unsent, Registering, false, false)]
       else if a.SweepTick? then s.invocations
       else s.invocations[a.i := Moved(s, a)]
  }

  ghost predicate IsRun(ss: seq<System>, actions: seq<Action>) {
    && |ss| == |actions| + 1
    && ss[0] == System(Registry({}, map[], map[]), [])
    && (forall i | 0 <= i <= |actions| :: Consistent(ss[i].registry))
    && (forall i | 0 <= i < |actions| :: Step(ss[i], actions[i], ss[i + 1]))
  }

  predicate Winner(inv: Invocation) {
    inv.msg == Answered(0)
  }

  /** What one invocation's fields say about each other. */
  predicate Coherent(inv: Invocation) {
    && (inv.msg.Answered? ==> inv.msg.reply == 0 || inv.msg.reply == 1)
    && (inv.pc.Running? || inv.pc == Cleaning(false) || inv.pc == Done(false) ==> Winner(inv))
    && (inv.launched ==> Winner(inv))
    && (inv.pc.Refused? ==> inv.msg == Answered(1))
    && (inv.deregistered ==> inv.pc.Cleaning? || inv.pc.Done?)
  }

  /** Some invocation had the task's registration accepted. */
  ghost predicate HasWinner(invocations: seq<Invocation>, id: int) {
    exists i :: 0 <= i < |invocations| && Winner(invocations[i]) && invocations[i].id == id
  }

  ghost predicate OneWinnerEach(s: System) {
    && Consistent(s.registry)
    && (forall i | 0 <= i < |s.invocations| :: Coherent(s.invocations[i]))
    && (forall i | 0 <= i < |s.invocations| && Winner(s.invocations[i]) ::
          PhaseOf(s.registry, s.invocations[i].id) != NeverSeen)
    && (forall i, j | 0 <= i < j < |s.invocations| && Winner(s.invocations[i]) && Winner(s.invocations[j]) ::
          s.invocations[i].id != s.invocations[j].id)
  }

  ghost predicate Safe(s: System) {
    && OneWinnerEach(s)
    && (forall id: int | PhaseOf(s.registry, id) != NeverSeen :: HasWinner(s.invocations, id))
  }

  lemma StepOneWinner(s: System, a: Action, s': System)
    requires OneWinnerEach(s) && Step(s, a, s')
    ensures OneWinnerEach(s')
  {
    hide Consistent;
  }

  lemma WinnerKept(s: System, a: Action, s': System, id: int)
    requires Safe(s) && Step(s, a, s')
    ensures HasWinner(s.invocations, id) ==> HasWinner(s'.invocations, id)
    ensures PhaseOf(s'.registry, id) != NeverSeen ==> HasWinner(s'.invocations, id)
  {
    hide Consistent, Coherent;
    if HasWinner(s.invocations, id) {
      var i :| 0 <= i < |s.invocations| && Winner(s.invocations[i]) && s.invocations[i].id == id;
      assert Winner(s'.invocations[i]) && s'.invocations[i].id == id;
    }
    if PhaseOf(s'.registry, id) != NeverSeen && PhaseOf(s.registry, id) == NeverSeen {
      assert a.ServerRegisters? && s.invocations[a.i].id == id;
      assert Winner(s'.invocations[a.i]);
    }
  }

  lemma StepSafe(s: System, a: Action, s': System)
    requires Safe(s) && Step(s, a, s')
    ensures Safe(s')
  {
    hide OneWinnerEach, HasWinner, Step;
    forall id: int | PhaseOf(s'.registry, id) != NeverSeen ensures HasWinner(s'.invocations, id) {
      WinnerKept(s, a, s', id);
    }
    StepOneWinner(s, a, s');
  }

  lemma StartSafe(s: System)
    requires s == System(Registry({}, map[], map[]), [])
    ensures Safe(s)
  {
  }

  lemma {:induction false} RunSafe(ss: seq<System>, actions: seq<Action>, n: nat)
    requires IsRun(ss, actions) && n < |ss|
    ensures Safe(ss[n])
  {
    hide Consistent, Steps, Step, Safe;
    if n == 0 {
      StartSafe(ss[0]);
    } else {
      RunSafe(ss, actions, n - 1);
      assert Step(ss[n - 1], actions[n - 1], ss[n - 1 + 1]);
      StepSafe(ss[n - 1], actions[n - 1], ss[n]);
    }
  }

  /** Under any duplication of invocations and any loss of replies, at most one invocation per task id
      reaches the worker launch, and one that was refused never deregisters. */
  lemma AtMostOneLaunch(ss: seq<System>, actions: seq<Action>, n: nat)
    requires IsRun(ss, actions) && n < |ss|
    ensures var all := ss[n].invocations;
      && (forall i, j | 0 <= i < j < |all| && all[i].launched && all[j].launched :: all[i].id != all[j].id)
      && (forall i | 0 <= i < |all| && all[i].pc.Refused? :: !all[i].deregistered)
  {
    RunSafe(ss, actions, n);
    hide IsRun, Consistent;
  }

  /** A deregistration ends a live task that another invocation won exactly when its own register()
      raised and it did not win the task itself. */
  lemma EndsAnothersTaskIff(ss: seq<System>, actions: seq<Action>, n: nat, i: nat)
    requires IsRun(ss, actions) && n < |actions| && actions[n] == ServerDeregisters(i) && i < |ss[n].invocations|
    ensures var all, inv, before, after := ss[n].invocations, ss[n].invocations[i], ss[n].registry, ss[n + 1].registry;
      (exists j :: 0 <= j < |all| && j != i && Winner(all[j]) && all[j].id == inv.id
         && PhaseOf(before, inv.id) == Live && PhaseOf(after, inv.id) == Dead)
      <==> PhaseOf(before, inv.id) == Live && inv.pc == Cleaning(true) && !Winner(inv)
  {
    RunSafe(ss, actions, n);
    assert Step(ss[n], actions[n], ss[n + 1]);
    hide IsRun, Consistent;
    var inv := ss[n].invocations[i];
    if PhaseOf(ss[n].registry, inv.id) == Live {
      assert HasWinner(ss[n].invocations, inv.id);
    }
  }

  /** Without a raise from register() and without sweeps, a running worker's task stays live. */
  ghost predicate RunningLive(s: System) {
    && (forall i | 0 <= i < |s.invocations| ::
          (s.invocations[i].pc.Cleaning? || s.invocations[i].pc.Done? ==> !s.invocations[i].pc.raised))
    && (forall i | 0 <= i < |s.invocations| && Winner(s.invocations[i]) ::
          s.invocations[i].pc.Registering? || s.invocations[i].pc.Running? ==>
              PhaseOf(s.registry, s.invocations[i].id) == Live)
  }

  lemma StepRunningLive(s: System, a: Action, s': System)
    requires Safe(s) && RunningLive(s) && Step(s, a, s') && !a.Raise? && !a.SweepTick?
    ensures RunningLive(s')
  {
    hide Consistent;
  }

  lemma {:induction false} WinnerStaysLive(ss: seq<System>, actions: seq<Action>, n: nat)
    requires IsRun(ss, actions) && n < |ss|
    requires forall k | 0 <= k < n :: !actions[k].Raise? && !actions[k].SweepTick?
    ensures RunningLive(ss[n])
  {
    hide Consistent, Steps, Step, Safe;
    if n > 0 {
      WinnerStaysLive(ss, actions, n - 1);
      RunSafe(ss, actions, n - 1);
      assert Step(ss[n - 1], actions[n - 1], ss[n - 1 + 1]);
      hide RunningLive;
      StepRunningLive(ss[n - 1], actions[n - 1], ss[n]);
    }
  }

  lemma Extend(ss: seq<System>, actions: seq<Action>, a: Action, s': System)
    requires IsRun(ss, actions) && Step(ss[|actions|], a, s') && Consistent(s'.registry)
    ensures IsRun(ss + [s'], actions + [a])
  {
    hide Consistent, Step;
    var more, longer := ss + [s'], actions + [a];
    forall i | 0 <= i < |longer| ensures Step(more[i], longer[i], more[i + 1]) {
      assert i < |actions| ==> Step(ss[i], actions[i], ss[i + 1]);
    }
  }

  lemma BothInvoked() returns (ss: seq<System>, actions: seq<Action>)
    ensures IsRun(ss, actions)
    ensures var new1 := Invocation(5, Unsent, Registering, false, false);
      ss[|actions|] == System(Registry({}, map[], map[]), [new1, new1])
  {
    var empty := Registry({}, map[], map[]);
    var new1 := Invocation(5, Unsent, Registering, false, false);
    ss, actions := [System(empty, [])], [];
    assert IsRun(ss, actions) && Consistent(empty);
    hide IsRun, Steps, Consistent;
    ss, actions := Then(ss, actions, Invoke(5), System(empty, [new1]));
    ss, actions := Then(ss, actions, Invoke(5), System(empty, [new1, new1]));
  }

  /** Two invocations of the same task have asked to register, and nothing has been answered. */
  lemma BothAsk() returns (ss: seq<System>, actions: seq<Action>)
    ensures IsRun(ss, actions)
    ensures var sent := Invocation(5, InTransit, Registering, false, false);
      ss[|actions|] == System(Registry({}, map[], map[]), [sent, sent])
  {
    var empty := Registry({}, map[], map[]);
    var new1 := Invocation(5, Unsent, Registering, false, false);
    var sent := new1.(msg := InTransit);
    ss, actions := BothInvoked();
    assert Consistent(empty);
    hide IsRun, Steps, Consistent;
    ss, actions := Then(ss, actions, Request(0), System(empty, [sent, new1]));
    ss, actions := Then(ss, actions, Request(1), System(empty, [sent, sent]));
  }

  /** Then the first of them runs, and the second was refused. */
  lemma SecondRefused() returns (ss: seq<System>, actions: seq<Action>)
    ensures IsRun(ss, actions)
    ensures ss[|actions|] == System(Registry({5}, map[5 := 60], map[5 := 0]),
      [Invocation(5, Answered(0), Running, true, false), Invocation(5, Answered(1), Registering, false, false)])
  {
    var empty := Registry({}, map[], map[]);
    var one := Registry({5}, map[5 := 60], map[5 := 0]);
    var sent := Invocation(5, InTransit, Registering, false, false);
    var won, refused := sent.(msg := Answered(0)), sent.(msg := Answered(1));
    var running := won.(pc := Running, launched := true);
    ss, actions := BothAsk();
    RegisteredOnce(empty, one);
    hide IsRun, Steps, Consistent;
    ss, actions := Then(ss, actions, ServerRegisters(0, 60, 0), System(one, [won, sent]));
    ss, actions := Then(ss, actions, GetReply(0), System(one, [running, sent]));
    ss, actions := Then(ss, actions, ServerRegisters(1, 60, 0), System(one, [running, refused]));
  }

  lemma RegisteredOnce(empty: Registry, one: Registry)
    requires empty == Registry({}, map[], map[]) && one == Registry({5}, map[5 := 60], map[5 := 0])
    ensures Consistent(empty) && Consistent(one)
    ensures Steps(empty, Register(5, 60, 0), one) && Steps(one, Register(5, 60, 0), one)
  {
  }

  lemma Then(ss: seq<System>, actions: seq<Action>, a: Action, s': System)
    returns (more: seq<System>, longer: seq<Action>)
    requires IsRun(ss, actions) && Consistent(ss[|actions|].registry) && Consistent(s'.registry)
    requires Step(ss[|actions|], a, s')
    ensures more == ss + [s'] && longer == actions + [a] && IsRun(more, longer)
    ensures |longer| == |actions| + 1 && more[|longer|] == s'
  {
    Extend(ss, actions, a, s');
    more, longer := ss + [s'], actions + [a];
  }

  /** The race is real: the refusal of a duplicate is lost, its cleanup ends the task of the running winner. */
  lemma LostRefusalEndsTheWinner() returns (ss: seq<System>, actions: seq<Action>)
    ensures IsRun(ss, actions)
    ensures var s := ss[|actions|];
      |s.invocations| == 2 && s.invocations[0].pc == Running && PhaseOf(s.registry, s.invocations[0].id) == Dead
  {
    ss, actions := SecondRefused();
    var s := ss[|actions|];
    var dead := Registry({5}, map[5 := -1], map[]);
    assert Consistent(s.registry) && Consistent(dead) && Steps(s.registry, Deregister(5), dead);
    hide IsRun, Steps, Consistent;
    var raised := s.invocations[1].(pc := Cleaning(true));
    ss, actions := Then(ss, actions, Raise(1), s.(invocations := [s.invocations[0], raised]));
    ss, actions := Then(ss, actions, ServerDeregisters(1),
                        System(dead, [s.invocations[0], raised.(deregistered := true)]));
  }

  /** The regular course: one invocation registers, is launched, finishes, deregisters and leaves, and its
      task has been live and is dead. */
  lemma OneInvocationRuns() returns (ss: seq<System>, actions: seq<Action>, n: nat)
    ensures IsRun(ss, actions) && n < |actions|
    ensures |ss[n].invocations| == 1 && ss[n].invocations[0].pc == Running && PhaseOf(ss[n].registry, 5) == Live
    ensures var s := ss[|actions|];
      && |s.invocations| == 1 && s.invocations[0] == Invocation(5, Answered(0), Done(false), true, true)
      && PhaseOf(s.registry, 5) == Dead
  {
    ss, actions := OneStarts();
    n := |actions|;
    ghost var start := ss;
    var one := Registry({5}, map[5 := 60], map[5 := 0]);
    var dead := Registry({5}, map[5 := -1], map[]);
    assert Consistent(one) && Consistent(dead) && Steps(one, Deregister(5), dead);
    hide IsRun, Steps, Consistent;
    var cleaning := Invocation(5, Answered(0), Cleaning(false), true, false);
    ss, actions := Then(ss, actions, Finish(0), System(one, [cleaning]));
    ss, actions := Then(ss, actions, ServerDeregisters(0), System(dead, [cleaning.(deregistered := true)]));
    ss, actions := Then(ss, actions, Leave(0),
                        System(dead, [cleaning.(deregistered := true, pc := Done(false))]));
    assert ss[n] == start[n];
  }

  lemma OneStarts() returns (ss: seq<System>, actions: seq<Action>)
    ensures IsRun(ss, actions)
    ensures ss[|actions|] == System(Registry({5}, map[5 := 60], map[5 := 0]),
                                    [Invocation(5, Answered(0), Running, true, false)])
  {
    var empty := Registry({}, map[], map[]);
    var one := Registry({5}, map[5 := 60], map[5 := 0]);
    var new1 := Invocation(5, Unsent, Registering, false, false);
    ss, actions := [System(empty, [])], [];
    assert IsRun(ss, actions);
    RegisteredOnce(empty, one);
    hide IsRun, Steps, Consistent;
    ss, actions := Then(ss, actions, Invoke(5), System(empty, [new1]));
    ss, actions := Then(ss, actions, Request(0), System(empty, [new1.(msg := InTransit)]));
    var won := new1.(msg := Answered(0));
    ss, actions := Then(ss, actions, ServerRegisters(0, 60, 0), System(one, [won]));
    ss, actions := Then(ss, actions, GetReply(0), System(one, [won.(pc := Running, launched := true)]));
  }

  const MAX_LAMBDA_GENERATIONS := 10_000
  const MAX_WORKERS_PER_EXPERIMENT := 1_000

  function WorkerId(experiment: nat, worker: nat): nat {
    experiment * MAX_WORKERS_PER_EXPERIMENT + worker
  }

  function TaskId(workerId: nat, generation: nat): nat {
    workerId * MAX_LAMBDA_GENERATIONS + generation
  }

  /** maintain_one: one launch per generation until told to stop; the assertion bounds the generations. */
  method MaintainOne(workerId: nat, stopAfter: nat) returns (ok: bool, launched: seq<nat>)
    ensures ok <==> stopAfter <= 10_000
    ensures |launched| == if ok then stopAfter else 10_000
    ensures forall g | 0 <= g < |launched| :: launched[g] == TaskId(workerId, g)
  {
    launched := [];
    var generation := 0;
    while generation < stopAfter
      invariant 0 <= generation <= stopAfter && generation <= MAX_LAMBDA_GENERATIONS
      invariant |launched| == generation
      invariant forall g | 0 <= g < generation :: launched[g] == TaskId(workerId, g)
    {
      if generation >= MAX_LAMBDA_GENERATIONS {
        return false, launched;
      }
      launched := launched + [workerId * MAX_LAMBDA_GENERATIONS + generation];
      generation := generation + 1;
    }
    ok := true;
  }

  /** No two launches of any experiments share a task id. */
  lemma TaskIdsDistinct(e1: nat, w1: nat, g1: nat, e2: nat, w2: nat, g2: nat)
    requires w1 < 1_000 && w2 < 1_000 && g1 < 10_000 && g2 < 10_000
    requires TaskId(WorkerId(e1, w1), g1) == TaskId(WorkerId(e2, w2), g2)
    ensures e1 == e2 && w1 == w2 && g1 == g2
  {
  }

  /** Seven digits of a task id are the worker and its generation. */
  lemma TaskIdsAre(experiment: nat, worker: nat, generation: nat)
    ensures TaskId(WorkerId(experiment, worker), generation) == 10_000_000 * experiment + 10_000 * worker + generation
  {
  }

  /** Every id of an experiment fits the 32-bit field of the registration message exactly up to
      experiment 428. */
  lemma TaskIdsFitIff(experiment: nat)
    ensures (forall w: nat, g: nat | w < 1_000 && g < 10_000 ::
               TaskId(WorkerId(experiment, w), g) < 0x1_0000_0000) <==> experiment <= 428
  {
    if experiment > 428 {
      assert TaskId(WorkerId(experiment, 999), 9_999) >= 0x1_0000_0000;
    }
  }
}

/** Every handler comes to its end, whatever its calls answer, and every state of the system can be
    brought to one in which no handler is in flight. */
module Completion {
  import opened Wrappers
  import opened HandlerSteps
  import opened HandlerOutcomes
  import opened AgentProtocol
  import opened EnvInvariant
  import opened AgentSystem
  import opened SystemTheorems

  function CreateStepsLeft(stage: CreateStage): nat {
    match stage
    case AllocateGpus => 12
    case CreateSidecar => 11
    case StartSidecar => 10
    case AwaitSidecar => 9
    case CreateDev => 8
    case StartDev => 7
  }

  function StartStepsLeft(stage: StartStage): nat {
    match stage
    case InspectDev => 16
    case InspectSidecar => 15
    case ReallocateGpus => 14
    case RemoveOldSidecar => 13
    case RecreateSidecar => 12
    case RestartSidecar => 11
    case AwaitNewSidecar => 10
    case RemoveOldDev => 9
    case RecreateDev => 8
    case RestartDev => 7
  }

  /** A bound on the steps a handler still makes, counting those of its longest exit. */
  function StepsLeft(t: Task): nat {
    match t
    case Creating(stage, _, _) => CreateStepsLeft(stage)
    case Starting(stage, _, _, _, _) => StartStepsLeft(stage)
    case Announcing(_) => 1
    case Aborting(acts) => |acts| + 1
    case Stopping(acts) => |acts| + 1
    case Done => 0
  }

  lemma CreatingFalls(w: World, e: EnvId, t: Task, r: Reply)
    requires t.Creating?
    ensures StepsLeft(Step(w, e, t, r).1) < StepsLeft(t)
  {
  }

  lemma StartingEarlyFalls(w: World, e: EnvId, t: Task, r: Reply)
    requires t.Starting? && !Reallocated(t.start)
    ensures StepsLeft(Step(w, e, t, r).1) < StepsLeft(t)
  {
    if Step(w, e, t, r).1.Aborting? {
      if t.start.ReallocateGpus? { ReallocateExits(w, e, t, r); } else { InspectExits(w, e, t, r); }
    }
  }

  lemma StartingSidecarFalls(w: World, e: EnvId, t: Task, r: Reply)
    requires t.Starting? && SidecarStage(t.start)
    ensures StepsLeft(Step(w, e, t, r).1) < StepsLeft(t)
  {
  }

  lemma StartingDevFalls(w: World, e: EnvId, t: Task, r: Reply)
    requires t.Starting? && DevStage(t.start)
    ensures StepsLeft(Step(w, e, t, r).1) < StepsLeft(t)
  {
  }

  /** Every step of a handler, whatever its call answers, brings it closer to its end. */
  lemma StepFalls(w: World, e: EnvId, t: Task, r: Reply)
    requires t != Done
    ensures StepsLeft(Step(w, e, t, r).1) < StepsLeft(t)
  {
    match t
    case Creating(_, _, _) => CreatingFalls(w, e, t, r);
    case Starting(stage, _, _, _, _) =>
      if DevStage(stage) { StartingDevFalls(w, e, t, r); }
      else if SidecarStage(stage) { StartingSidecarFalls(w, e, t, r); }
      else { StartingEarlyFalls(w, e, t, r); }
    case _ =>
  }

  lemma {:induction false} FewerLeft(w: World, e: EnvId, t: Task, replies: seq<Reply>)
    ensures var q := Run(w, e, t, replies).t; q == Done || StepsLeft(q) + |replies| <= StepsLeft(t)
  {
    if replies != [] {
      var front := Run(w, e, t, replies[..|replies| - 1]);
      FewerLeft(w, e, t, replies[..|replies| - 1]);
      if front.t != Done {
        StepFalls(front.w, e, front.t, replies[|replies| - 1]);
      }
    }
  }

  lemma SomeLeft(t: Task)
    ensures t != Done ==> StepsLeft(t) > 0
  {
  }

  /** A handler is done after at most StepsLeft of its task steps, whatever its calls answer. */
  lemma EveryHandlerFinishes(w: World, e: EnvId, t: Task, replies: seq<Reply>)
    requires |replies| >= StepsLeft(t)
    ensures Run(w, e, t, replies).t == Done
  {
    FewerLeft(w, e, t, replies);
    SomeLeft(Run(w, e, t, replies).t);
  }

  /* ---- The system ---- */

  lemma ExecFirst(s: System, ev: Event, rest: seq<Event>)
    requires Enabled(s, ev) && Legal(After(s, ev), rest)
    ensures Legal(s, [ev] + rest) && Exec(s, [ev] + rest) == Exec(After(s, ev), rest)
  {
    assert ([ev] + rest)[1..] == rest;
  }

  lemma {:induction false} ExecAppend(s: System, a: seq<Event>, b: seq<Event>)
    requires Legal(s, a) && Legal(Exec(s, a), b)
    ensures Legal(s, a + b) && Exec(s, a + b) == Exec(Exec(s, a), b)
    decreases |a|
  {
    if a == [] {
      assert a + b == b;
    } else {
      ExecAppend(After(s, a[0]), a[1..], b);
      ExecFirst(s, a[0], a[1..] + b);
      assert a + b == [a[0]] + (a[1..] + b);
    }
  }

  predicate OnlySteps(evs: seq<Event>) {
    forall k :: 0 <= k < |evs| ==> evs[k].HandlerStep?
  }

  /** One handler runs to its end while the others wait; `answers` says what its calls answer. */
  lemma {:induction false} FinishOne(s: System, e: EnvId, answers: System -> Reply) returns (evs: seq<Event>)
    requires Inv(s) && e in s.tasks
    ensures OnlySteps(evs) && Legal(s, evs) && Exec(s, evs).tasks == s.tasks - {e}
    decreases StepsLeft(s.tasks[e])
  {
    var ev := HandlerStep(e, answers(s));
    var s1 := After(s, ev);
    EventKeepsInv(s, ev);
    StepFalls(s.world, e, s.tasks[e], answers(s));
    if e in s1.tasks {
      var rest := FinishOne(s1, e, answers);
      evs := [ev] + rest;
    } else {
      evs := [ev];
      assert evs[1..] == [];
    }
  }

  /** Whatever the calls answer, every state with handlers in flight has a run in which all of them finish. */
  lemma {:induction false} Settle(s: System, answers: System -> Reply) returns (evs: seq<Event>)
    requires Inv(s)
    ensures OnlySteps(evs) && Legal(s, evs) && Exec(s, evs).tasks == map[]
    decreases |s.tasks|
  {
    if s.tasks == map[] {
      evs := [];
    } else {
      var e :| e in s.tasks;
      var first := FinishOne(s, e, answers);
      RunKeepsInv(s, first);
      var rest := Settle(Exec(s, first), answers);
      ExecAppend(s, first, rest);
      evs := first + rest;
    }
  }

  /** So every state leads, whatever the calls answer, to one with no handler in flight and every message delivered:
      the one a new connection may begin from. */
  lemma Quiesce(s: System, answers: System -> Reply) returns (evs: seq<Event>)
    requires Inv(s)
    ensures Legal(s, evs)
    ensures var z := Exec(s, evs); z.tasks == map[] && z.delivered == |z.world.sent|
  {
    var steps := Settle(s, answers);
    var settled := Exec(s, steps);
    RunKeepsInv(s, steps);
    var delivers := Delivers(|settled.world.sent| - settled.delivered);
    Drain(settled);
    ExecAppend(s, steps, delivers);
    evs := steps + delivers;
  }
}

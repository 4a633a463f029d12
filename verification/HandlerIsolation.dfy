/** Handlers of different environments do not disturb each other: as its own environment sees it, a handler in an
    interleaved run does what it would do running alone from some state of that run. */
module HandlerIsolation {
  import opened Wrappers
  import opened AgentProtocol
  import opened Docker
  import opened GpuAllocator
  import opened EnvTable
  import opened HandlerSteps
  import opened HandlerOutcomes
  import opened EnvInvariant
  import opened AgentSystem
  import opened SystemTheorems

  /* ---- What a handler sees ---- */

  /** The handler has yet to ask the allocator, the one call that looks at other environments. */
  predicate BeforeAllocation(t: Task) {
    (t.Creating? && t.create.AllocateGpus?) || (t.Starting? && !Reallocated(t.start))
  }

  predicate Inspects(t: Task) {
    t.Starting? && (t.start.InspectDev? || t.start.InspectSidecar?)
  }

  predicate OwnAction(a: Action, e: EnvId) {
    match a
    case Stop(n) => n == SidecarName(e) || n == DevName(e)
    case Remove(n) => n == SidecarName(e) || n == DevName(e)
    case RemoveVolume(_) => true
    case Release => true
    case Send(m) => About(m, e)
  }

  ghost predicate OwnTask(t: Task, e: EnvId) {
    match t
    case Creating(_, cmd, _) => cmd.envId == e
    case Starting(_, cmd, _, _, _) => cmd.envId == e
    case Announcing(msg) => About(msg, e)
    case Aborting(acts) => forall a :: a in acts ==> OwnAction(a, e)
    case Stopping(acts) => forall a :: a in acts ==> OwnAction(a, e)
    case Done => true
  }

  /** The same calls on containers failed. */
  ghost predicate SameFailures(a: set<Action>, b: set<Action>) {
    forall x: Action :: !x.RemoveVolume? ==> (x in a <==> x in b)
  }

  /** What a run or a step added to what was sent before: messages about `e` only. */
  ghost predicate Adds(before: seq<AgentMessage>, after: seq<AgentMessage>, added: seq<AgentMessage>, e: EnvId) {
    after == before + added && forall k :: 0 <= k < |added| ==> About(added[k], e)
  }

  lemma AddsMore(a: seq<AgentMessage>, b: seq<AgentMessage>, c: seq<AgentMessage>, x: seq<AgentMessage>,
                 y: seq<AgentMessage>, e: EnvId)
    requires Adds(a, b, x, e) && Adds(b, c, y, e)
    ensures Adds(a, c, x + y, e)
  {
  }

  /** What was sent after a state. */
  function NewSince(before: seq<AgentMessage>, after: seq<AgentMessage>): seq<AgentMessage> {
    if before <= after then after[|before|..] else []
  }

  lemma NewIsAdded(before: seq<AgentMessage>, added: seq<AgentMessage>)
    ensures NewSince(before, before + added) == added
  {
  }

  /** The two runs are at the same point, and did the same for `e`. */
  ghost predicate Alike(p: Progress, q: Progress, e: EnvId, added: seq<AgentMessage>) {
    && p.t == q.t && OwnTask(p.t, e) && !BeforeAllocation(p.t)
    && Agree(p.w, q.w, e)
    && Adds(p.w0.sent, p.w.sent, added, e) && Adds(q.w0.sent, q.w.sent, added, e)
    && SameFailures(p.failed, q.failed)
  }

  /* ---- Past the allocation a handler's steps depend on its own environment only ---- */

  /** What a step of a task sends. */
  function Message(t: Task): seq<AgentMessage> {
    match t
    case Announcing(msg) => [msg]
    case Aborting(acts) => if acts != [] && acts[0].Send? then [acts[0].msg] else []
    case Stopping(acts) => if acts != [] && acts[0].Send? then [acts[0].msg] else []
    case _ => []
  }

  /** One step taken in two worlds. */
  ghost predicate StepsAlike(v: World, w: World, e: EnvId, t: Task, r: Reply) {
    var (v', t1) := Step(v, e, t, r);
    var (w', t2) := Step(w, e, t, r);
    t1 == t2 && Agree(v', w', e) && v'.sent == v.sent + Message(t) && w'.sent == w.sent + Message(t)
  }

  lemma CreateSidecarAlike(v: World, w: World, e: EnvId, t: Task, r: Reply)
    requires Agree(v, w, e) && OwnTask(t, e) && t.Creating? && t.create.CreateSidecar?
    ensures StepsAlike(v, w, e, t, r)
  {
    NamesDiffer(e, e);
  }

  lemma UpSidecarAlike(v: World, w: World, e: EnvId, t: Task, r: Reply)
    requires Agree(v, w, e) && OwnTask(t, e) && t.Creating? && (t.create.StartSidecar? || t.create.AwaitSidecar?)
    ensures StepsAlike(v, w, e, t, r)
  {
    NamesDiffer(e, e);
  }

  lemma CreateDevAlike(v: World, w: World, e: EnvId, t: Task, r: Reply)
    requires Agree(v, w, e) && OwnTask(t, e) && t.Creating? && t.create.CreateDev?
    ensures StepsAlike(v, w, e, t, r)
  {
    NamesDiffer(e, e);
  }

  lemma UpDevAlike(v: World, w: World, e: EnvId, t: Task, r: Reply)
    requires Agree(v, w, e) && OwnTask(t, e) && t.Creating? && t.create.StartDev?
    ensures StepsAlike(v, w, e, t, r)
  {
    NamesDiffer(e, e);
  }

  lemma CreatingAlike(v: World, w: World, e: EnvId, t: Task, r: Reply)
    requires Agree(v, w, e) && OwnTask(t, e) && t.Creating? && !BeforeAllocation(t)
    ensures StepsAlike(v, w, e, t, r)
  {
    match t.create
    case CreateSidecar => CreateSidecarAlike(v, w, e, t, r);
    case CreateDev => CreateDevAlike(v, w, e, t, r);
    case StartDev => UpDevAlike(v, w, e, t, r);
    case _ => UpSidecarAlike(v, w, e, t, r);
  }

  lemma OldSidecarAlike(v: World, w: World, e: EnvId, t: Task, r: Reply)
    requires Agree(v, w, e) && OwnTask(t, e) && t.Starting? && (t.start.RemoveOldSidecar? || t.start.RecreateSidecar?)
    ensures StepsAlike(v, w, e, t, r)
  {
    NamesDiffer(e, e);
  }

  lemma NewSidecarAlike(v: World, w: World, e: EnvId, t: Task, r: Reply)
    requires Agree(v, w, e) && OwnTask(t, e) && t.Starting? && (t.start.RestartSidecar? || t.start.AwaitNewSidecar?)
    ensures StepsAlike(v, w, e, t, r)
  {
    NamesDiffer(e, e);
  }

  lemma OldDevAlike(v: World, w: World, e: EnvId, t: Task, r: Reply)
    requires Agree(v, w, e) && OwnTask(t, e) && t.Starting? && (t.start.RemoveOldDev? || t.start.RecreateDev?)
    ensures StepsAlike(v, w, e, t, r)
  {
    NamesDiffer(e, e);
  }

  lemma NewDevAlike(v: World, w: World, e: EnvId, t: Task, r: Reply)
    requires Agree(v, w, e) && OwnTask(t, e) && t.Starting? && t.start.RestartDev?
    ensures StepsAlike(v, w, e, t, r)
  {
    NamesDiffer(e, e);
  }

  lemma StartingAlike(v: World, w: World, e: EnvId, t: Task, r: Reply)
    requires Agree(v, w, e) && OwnTask(t, e) && t.Starting? && !BeforeAllocation(t)
    ensures StepsAlike(v, w, e, t, r)
  {
    if t.start.RestartDev? { NewDevAlike(v, w, e, t, r); }
    else if DevStage(t.start) { OldDevAlike(v, w, e, t, r); }
    else if t.start.RestartSidecar? || t.start.AwaitNewSidecar? { NewSidecarAlike(v, w, e, t, r); }
    else { OldSidecarAlike(v, w, e, t, r); }
  }

  lemma ExitIsOwn(t: Task, e: EnvId)
    requires IsExit(t, e)
    ensures OwnTask(t, e)
  {
    forall a | a in t.actions ensures OwnAction(a, e) {
      assert AbortAction(a, e);
    }
  }

  lemma CreatingStaysOwn(w: World, e: EnvId, t: Task, r: Reply)
    requires OwnTask(t, e) && t.Creating?
    ensures var t' := Step(w, e, t, r).1; OwnTask(t', e) && !BeforeAllocation(t')
  {
    if Step(w, e, t, r).1.Aborting? {
      CreateExits(w, e, t, r);
      ExitIsOwn(Step(w, e, t, r).1, e);
    }
  }

  lemma StartingStaysOwn(w: World, e: EnvId, t: Task, r: Reply)
    requires OwnTask(t, e) && t.Starting?
    ensures var t' := Step(w, e, t, r).1;
      OwnTask(t', e) && (!t.start.InspectDev? && !t.start.InspectSidecar? ==> !BeforeAllocation(t'))
  {
    if Step(w, e, t, r).1.Aborting? {
      StartExits(w, e, t, r);
      ExitIsOwn(Step(w, e, t, r).1, e);
    }
  }

  lemma StaysOwn(w: World, e: EnvId, t: Task, r: Reply)
    requires OwnTask(t, e)
    ensures var t' := Step(w, e, t, r).1;
      OwnTask(t', e) && (!Inspects(t) ==> !BeforeAllocation(t'))
  {
    match t
    case Creating(_, _, _) => CreatingStaysOwn(w, e, t, r);
    case Starting(_, _, _, _, _) => StartingStaysOwn(w, e, t, r);
    case Aborting(acts) => if acts != [] { TailMembers(acts); }
    case Stopping(acts) => if acts != [] { TailMembers(acts); }
    case _ =>
  }

  lemma PerformAlike(v: World, w: World, e: EnvId, a: Action, r: Reply)
    requires Agree(v, w, e) && OwnAction(a, e)
    ensures var v', w' := Perform(v, e, a, r), Perform(w, e, a, r);
      && Agree(v', w', e)
      && v'.sent == v.sent + (if a.Send? then [a.msg] else [])
      && w'.sent == w.sent + (if a.Send? then [a.msg] else [])
  {
    NamesDiffer(e, e);
  }

  lemma LineAlike(v: World, w: World, e: EnvId, t: Task, r: Reply)
    requires Agree(v, w, e) && OwnTask(t, e) && (t.Aborting? || t.Stopping?)
    ensures StepsAlike(v, w, e, t, r)
    ensures forall k :: 0 <= k < |Message(t)| ==> About(Message(t)[k], e)
  {
    if t.actions != [] {
      assert OwnAction(t.actions[0], e);
      PerformAlike(v, w, e, t.actions[0], r);
    }
  }

  lemma StepAlike(v: World, w: World, e: EnvId, t: Task, r: Reply)
    requires Agree(v, w, e) && OwnTask(t, e) && !BeforeAllocation(t)
    ensures StepsAlike(v, w, e, t, r)
    ensures forall k :: 0 <= k < |Message(t)| ==> About(Message(t)[k], e)
  {
    match t
    case Creating(_, _, _) => CreatingAlike(v, w, e, t, r);
    case Starting(_, _, _, _, _) => StartingAlike(v, w, e, t, r);
    case Announcing(msg) =>
    case Done =>
    case _ => LineAlike(v, w, e, t, r);
  }

  lemma FailuresAlike(v: World, w: World, e: EnvId, t: Task, r: Reply)
    requires Agree(v, w, e) && OwnTask(t, e)
    ensures SameFailures(LeftBehind(v, t, r), LeftBehind(w, t, r))
  {
    if Ignores(t) {
      assert OwnAction(t.actions[0], e);
    }
  }

  lemma TickAlike(p: Progress, q: Progress, e: EnvId, added: seq<AgentMessage>, r: Reply)
    requires Alike(p, q, e, added)
    ensures Alike(Tick(p, e, r), Tick(q, e, r), e, added + Message(p.t))
  {
    StepAlike(p.w, q.w, e, p.t, r);
    StaysOwn(p.w, e, p.t, r);
    FailuresAlike(p.w, q.w, e, p.t, r);
    var p', q' := Tick(p, e, r), Tick(q, e, r);
    AddsMore(p.w0.sent, p.w.sent, p'.w.sent, added, Message(p.t), e);
    AddsMore(q.w0.sent, q.w.sent, q'.w.sent, added, Message(p.t), e);
  }

  lemma {:induction false} RunAlike(v: World, w: World, e: EnvId, t: Task, replies: seq<Reply>)
    returns (added: seq<AgentMessage>)
    requires Agree(v, w, e) && OwnTask(t, e) && !BeforeAllocation(t)
    ensures Alike(Run(v, e, t, replies), Run(w, e, t, replies), e, added)
  {
    if replies == [] {
      added := [];
    } else {
      var front := replies[..|replies| - 1];
      var before := RunAlike(v, w, e, t, front);
      var p, q := Run(v, e, t, front), Run(w, e, t, front);
      TickAlike(p, q, e, before, replies[|replies| - 1]);
      added := before + Message(p.t);
    }
  }

  /* ---- A run, seen from its first step ---- */

  lemma TickLater(p: Progress, q: Progress, e: EnvId, r: Reply, earlier: set<Action>)
    requires p.w == q.w && p.t == q.t && p.failed == earlier + q.failed
    ensures var p', q' := Tick(p, e, r), Tick(q, e, r);
      p'.w == q'.w && p'.t == q'.t && p'.failed == earlier + q'.failed
  {
  }

  /** A run goes on from where an earlier part of it ended. */
  lemma {:induction false} RunSplit(w: World, e: EnvId, t: Task, first: seq<Reply>, rest: seq<Reply>)
    ensures var p0 := Run(w, e, t, first);
      var p, q := Run(w, e, t, first + rest), Run(p0.w, e, p0.t, rest);
      p.w == q.w && p.t == q.t && p.failed == p0.failed + q.failed
  {
    if rest == [] {
      assert first + rest == first;
    } else {
      var p0, front, last := Run(w, e, t, first), rest[..|rest| - 1], rest[|rest| - 1];
      assert rest == front + [last] && first + rest == (first + front) + [last];
      RunSplit(w, e, t, first, front);
      RunLast(w, e, t, first + front, last);
      RunLast(p0.w, e, p0.t, front, last);
      TickLater(Run(w, e, t, first + front), Run(p0.w, e, p0.t, front), e, last, p0.failed);
    }
  }

  lemma FirstTick(w: World, e: EnvId, t: Task, r: Reply)
    ensures var p := Run(w, e, t, [r]);
      p.w == Step(w, e, t, r).0 && p.t == Step(w, e, t, r).1 && p.failed == LeftBehind(w, t, r)
  {
    assert [] + [r] == [r];
    RunLast(w, e, t, [], r);
    assert Run(w, e, t, []) == Begin(w, t);
  }

  lemma RunCons(w: World, e: EnvId, t: Task, r: Reply, rest: seq<Reply>)
    ensures var (w1, t1) := Step(w, e, t, r);
      var p, q := Run(w, e, t, [r] + rest), Run(w1, e, t1, rest);
      p.w == q.w && p.t == q.t && p.failed == LeftBehind(w, t, r) + q.failed
  {
    FirstTick(w, e, t, r);
    RunSplit(w, e, t, [r], rest);
  }

  /* ---- Interleaved runs ---- */

  predicate StepsOf(ev: Event, e: EnvId) {
    ev.HandlerStep? && ev.env == e
  }

  predicate Commands(ev: Event, e: EnvId) {
    match ev
    case BeginCreate(cmd) => cmd.envId == e
    case BeginStart(cmd) => cmd.envId == e
    case BeginStop(f) => f == e
    case BeginDelete(f) => f == e
    case _ => false
  }

  /** No further command for `e` arrives. */
  predicate NoCommand(evs: seq<Event>, e: EnvId) {
    forall k :: 0 <= k < |evs| ==> !Commands(evs[k], e)
  }

  /** What the calls of `e`'s handler answered in a run. */
  function OwnReplies(evs: seq<Event>, e: EnvId): seq<Reply> {
    if evs == [] then []
    else (if StepsOf(evs[0], e) then [evs[0].reply] else []) + OwnReplies(evs[1..], e)
  }

  function Mine(msgs: seq<AgentMessage>, e: EnvId): seq<AgentMessage> {
    if msgs == [] then [] else (if About(msgs[0], e) then [msgs[0]] else []) + Mine(msgs[1..], e)
  }

  lemma {:induction false} MineAppend(a: seq<AgentMessage>, b: seq<AgentMessage>, e: EnvId)
    ensures Mine(a + b, e) == Mine(a, e) + Mine(b, e)
  {
    if a == [] {
      assert a + b == b;
    } else {
      var first := if About(a[0], e) then [a[0]] else [];
      assert (a + b)[0] == a[0] && (a + b)[1..] == a[1..] + b;
      MineAppend(a[1..], b, e);
      assert Mine(a + b, e) == first + (Mine(a[1..], e) + Mine(b, e));
    }
  }

  lemma {:induction false} AllMine(msgs: seq<AgentMessage>, e: EnvId)
    requires forall k :: 0 <= k < |msgs| ==> About(msgs[k], e)
    ensures Mine(msgs, e) == msgs
  {
    if msgs != [] {
      AllMine(msgs[1..], e);
    }
  }

  lemma {:induction false} NoneMine(msgs: seq<AgentMessage>, e: EnvId)
    requires forall k :: 0 <= k < |msgs| ==> !About(msgs[k], e)
    ensures Mine(msgs, e) == []
  {
    if msgs != [] {
      NoneMine(msgs[1..], e);
    }
  }

  /** The messages about `e` that a run of the system sent. */
  function Reported(s: System, z: System, e: EnvId): seq<AgentMessage> {
    Mine(NewSince(s.world.sent, z.world.sent), e)
  }

  lemma ReportedChain(a: System, b: System, c: System, e: EnvId)
    requires a.world.sent <= b.world.sent <= c.world.sent
    ensures Reported(a, c, e) == Reported(a, b, e) + Reported(b, c, e)
  {
    var x, y := NewSince(a.world.sent, b.world.sent), NewSince(b.world.sent, c.world.sent);
    assert c.world.sent == b.world.sent + y;
    assert NewSince(a.world.sent, c.world.sent) == x + y;
    MineAppend(x, y, e);
  }

  lemma EventSends(s: System, ev: Event)
    requires Inv(s) && Enabled(s, ev)
    ensures s.world.sent <= After(s, ev).world.sent
  {
    if ev.HandlerStep? {
      assert EnvOk(s, ev.env);
      StepTouches(s.world, ev.env, s.node, RowOf(s, ev.env), s.tasks[ev.env], ev.env in s.faults, ev.reply);
    }
  }

  lemma {:induction false} RunSends(s: System, evs: seq<Event>)
    requires Inv(s) && Legal(s, evs)
    ensures s.world.sent <= Exec(s, evs).world.sent
    decreases |evs|
  {
    if evs != [] {
      EventSends(s, evs[0]);
      EventKeepsInv(s, evs[0]);
      RunSends(After(s, evs[0]), evs[1..]);
    }
  }

  lemma ForeignStep(s: System, f: EnvId, r: Reply, e: EnvId)
    requires Inv(s) && f in s.tasks && f != e
    ensures var s1 := AfterStep(s, f, r);
      TaskOf(s1, e) == TaskOf(s, e) && Agree(s1.world, s.world, e) && GrewBy(s.world.sent, s1.world.sent, f)
  {
    assert EnvOk(s, f);
    StepTouches(s.world, f, s.node, RowOf(s, f), s.tasks[f], f in s.faults, r);
    OthersUntouched(s.world, AfterStep(s, f, r).world, f, e);
  }

  lemma OthersReport(sent: seq<AgentMessage>, sent': seq<AgentMessage>, f: EnvId, e: EnvId)
    requires GrewBy(sent, sent', f) && f != e
    ensures sent <= sent' && Mine(NewSince(sent, sent'), e) == []
  {
    NoneMine(NewSince(sent, sent'), e);
  }

  /** What is not a step of `e`'s handler does not change what it sees. */
  lemma ForeignEvent(s: System, ev: Event, e: EnvId)
    requires Inv(s) && Enabled(s, ev) && !StepsOf(ev, e) && !Commands(ev, e)
    ensures var s1 := After(s, ev);
      && TaskOf(s1, e) == TaskOf(s, e) && Agree(s1.world, s.world, e)
      && s.world.sent <= s1.world.sent && Reported(s, s1, e) == []
  {
    if ev.HandlerStep? {
      ForeignStep(s, ev.env, ev.reply, e);
      OthersReport(s.world.sent, After(s, ev).world.sent, ev.env, e);
    } else {
      NoneMine(NewSince(s.world.sent, After(s, ev).world.sent), e);
    }
  }

  /** What an interleaved run from `s` to `z` did for `e` is what a run of `e`'s handler alone from `w0` does. */
  ghost predicate DoesTheSame(w0: World, s: System, z: System, e: EnvId, replies: seq<Reply>) {
    var p := Run(w0, e, TaskOf(s, e), replies);
    && Agree(w0, s.world, e)
    && p.t == TaskOf(z, e) && Agree(p.w, z.world, e)
    && s.world.sent <= z.world.sent && Adds(w0.sent, p.w.sent, Reported(s, z, e), e)
  }

  /** `w0` is the agent's state at some point of the run. */
  ghost predicate OnTheWay(w0: World, s: System, evs: seq<Event>)
    requires Legal(s, evs)
    decreases |evs|
  {
    w0 == s.world || (evs != [] && OnTheWay(w0, After(s, evs[0]), evs[1..]))
  }

  /** An own step before the allocation only reads. */
  lemma InspectAlike(v: World, w: World, e: EnvId, t: Task, r: Reply)
    requires Agree(v, w, e) && OwnTask(t, e) && Inspects(t)
    ensures Step(v, e, t, r) == (v, Step(w, e, t, r).1)
    ensures LeftBehind(v, t, r) == {}
  {
  }

  lemma AllocationSendsNothing(w: World, e: EnvId, t: Task, r: Reply)
    requires BeforeAllocation(t)
    ensures Step(w, e, t, r).0.sent == w.sent
  {
  }

  lemma OwnStepSends(w: World, e: EnvId, t: Task, r: Reply)
    requires OwnTask(t, e)
    ensures Adds(w.sent, Step(w, e, t, r).0.sent, Message(t), e)
  {
    if !BeforeAllocation(t) {
      StepAlike(w, w, e, t, r);
    } else {
      AllocationSendsNothing(w, e, t, r);
    }
  }

  lemma OwnStepReports(s: System, z: System, r: Reply, e: EnvId)
    requires e in s.tasks && OwnTask(s.tasks[e], e)
    requires AfterStep(s, e, r).world.sent <= z.world.sent
    ensures s.world.sent <= z.world.sent
    ensures Reported(s, z, e) == Message(s.tasks[e]) + Reported(AfterStep(s, e, r), z, e)
  {
    var s1, m := AfterStep(s, e, r), Message(s.tasks[e]);
    OwnStepSends(s.world, e, s.tasks[e], r);
    NewIsAdded(s.world.sent, m);
    AllMine(m, e);
    ReportedChain(s, s1, z, e);
  }

  /** From the state after a step that only read to the state before it. */
  lemma InspectFirst(s: System, z: System, r: Reply, e: EnvId, w0: World, replies: seq<Reply>)
    requires e in s.tasks && OwnTask(s.tasks[e], e)
    requires Inspects(s.tasks[e])
    requires DoesTheSame(w0, AfterStep(s, e, r), z, e, replies)
    ensures DoesTheSame(w0, s, z, e, [r] + replies)
  {
    var t := s.tasks[e];
    OwnStepReports(s, z, r, e);
    InspectAlike(s.world, s.world, e, t, r);
    InspectAlike(w0, s.world, e, t, r);
    RunCons(w0, e, t, r, replies);
  }

  /** From the state after any other step of the handler to the state before it. */
  lemma ActFirst(s: System, z: System, r: Reply, e: EnvId, w1: World, replies: seq<Reply>)
    requires e in s.tasks && OwnTask(s.tasks[e], e)
    requires !Inspects(s.tasks[e])
    requires DoesTheSame(w1, AfterStep(s, e, r), z, e, replies)
    ensures DoesTheSame(s.world, s, z, e, [r] + replies)
  {
    var t := s.tasks[e];
    var (w, t1) := Step(s.world, e, t, r);
    OwnStepReports(s, z, r, e);
    OwnStepSends(s.world, e, t, r);
    StaysOwn(s.world, e, t, r);
    RunCons(s.world, e, t, r, replies);
    SameFrom(w, w1, z.world, e, t1, replies, Reported(AfterStep(s, e, r), z, e));
    AddsMore(s.world.sent, w.sent, Run(w, e, t1, replies).w.sent, Message(t), Reported(AfterStep(s, e, r), z, e), e);
  }

  lemma SameFrom(v: World, w: World, z: World, e: EnvId, t: Task, replies: seq<Reply>, added: seq<AgentMessage>)
    requires Agree(v, w, e) && OwnTask(t, e) && !BeforeAllocation(t)
    requires var q := Run(w, e, t, replies); Agree(q.w, z, e) && Adds(w.sent, q.w.sent, added, e)
    ensures var p := Run(v, e, t, replies);
      p.t == Run(w, e, t, replies).t && Agree(p.w, z, e) && Adds(v.sent, p.w.sent, added, e)
  {
    var both := RunAlike(v, w, e, t, replies);
    assert w.sent + both == w.sent + added;
    NewIsAdded(w.sent, both);
    NewIsAdded(w.sent, added);
  }

  lemma OwnRepliesFirst(evs: seq<Event>, e: EnvId)
    requires evs != []
    ensures OwnReplies(evs, e) ==
      if StepsOf(evs[0], e) then [evs[0].reply] + OwnReplies(evs[1..], e) else OwnReplies(evs[1..], e)
  {
  }

  lemma NoSteps(s: System, e: EnvId)
    ensures DoesTheSame(s.world, s, s, e, [])
  {
    assert s.world.sent + [] == s.world.sent;
    NewIsAdded(s.world.sent, []);
  }

  lemma ForeignFirst(s: System, s1: System, z: System, e: EnvId, w0: World, replies: seq<Reply>)
    requires TaskOf(s1, e) == TaskOf(s, e) && Agree(s1.world, s.world, e)
    requires s.world.sent <= s1.world.sent && Reported(s, s1, e) == []
    requires DoesTheSame(w0, s1, z, e, replies)
    ensures DoesTheSame(w0, s, z, e, replies)
  {
    ReportedChain(s, s1, z, e);
    assert Reported(s, z, e) == Reported(s1, z, e);
  }

  lemma OwnFirst(s: System, z: System, r: Reply, e: EnvId, w1: World, replies: seq<Reply>) returns (w0: World)
    requires e in s.tasks && OwnTask(s.tasks[e], e)
    requires DoesTheSame(w1, AfterStep(s, e, r), z, e, replies)
    ensures (w0 == s.world || w0 == w1) && DoesTheSame(w0, s, z, e, [r] + replies)
  {
    var t := s.tasks[e];
    if Inspects(t) {
      InspectFirst(s, z, r, e, w1, replies);
      w0 := w1;
    } else {
      ActFirst(s, z, r, e, w1, replies);
      w0 := s.world;
    }
  }

  lemma OwnTaskKept(s: System, ev: Event, e: EnvId)
    requires Inv(s) && Enabled(s, ev) && OwnTask(TaskOf(s, e), e) && !Commands(ev, e)
    ensures OwnTask(TaskOf(After(s, ev), e), e)
  {
    if StepsOf(ev, e) {
      StaysOwn(s.world, e, s.tasks[e], ev.reply);
    } else {
      ForeignEvent(s, ev, e);
    }
  }

  /** In every interleaved run, what the handler of `e` does to its containers and its grant, and what it
      reports, is what it does running alone with the same answers from a state the agent was in on the way. */
  lemma {:induction false} HandlersAreIsolated(s: System, evs: seq<Event>, e: EnvId) returns (w0: World)
    requires Inv(s) && Legal(s, evs) && OwnTask(TaskOf(s, e), e) && NoCommand(evs, e)
    ensures OnTheWay(w0, s, evs) && DoesTheSame(w0, s, Exec(s, evs), e, OwnReplies(evs, e))
    decreases |evs|
  {
    if evs == [] {
      w0 := s.world;
      NoSteps(s, e);
    } else {
      var ev, rest := evs[0], evs[1..];
      OwnRepliesFirst(evs, e);
      EventKeepsInv(s, ev);
      OwnTaskKept(s, ev, e);
      var w1 := HandlersAreIsolated(After(s, ev), rest, e);
      if StepsOf(ev, e) {
        w0 := OwnFirst(s, Exec(After(s, ev), rest), ev.reply, e, w1, OwnReplies(rest, e));
      } else {
        w0 := w1;
        ForeignEvent(s, ev, e);
        ForeignFirst(s, After(s, ev), Exec(After(s, ev), rest), e, w0, OwnReplies(rest, e));
      }
    }
  }

  /* ---- What that makes of Create and Start ---- */

  lemma OneMessage(before: seq<AgentMessage>, after: seq<AgentMessage>, added: seq<AgentMessage>, e: EnvId)
    requires Adds(before, after, added, e) && |after| == |before| + 1
    ensures added == [after[|before|]]
  {
    assert after[|before|] == added[0];
  }

  /** Both containers run as specified, with one list granted, attached and reported. */
  ghost predicate Up(w: World, e: EnvId, sidecar: ContainerSpec, dev: ContainerSpec, reported: seq<AgentMessage>) {
    && Lookup(w.containers, SidecarName(e)) == Some(Container(sidecar, State.Running))
    && Lookup(w.containers, DevName(e)) == Some(Container(dev, State.Running))
    && Held(w.grants, e) == dev.gpuIndices
    && reported == [ReadyMessage(e, dev.gpuIndices)]
  }

  /** Nothing is granted, the dev container does not run, and the one report is an EnvError. */
  ghost predicate Down(w: World, e: EnvId, reported: seq<AgentMessage>) {
    e !in w.grants && !DevRuns(w, e) && |reported| == 1 && reported[0].EnvError? && reported[0].envId == e
  }

  lemma AloneFinished(s: System, z: System, e: EnvId, w0: World, replies: seq<Reply>)
    requires DoesTheSame(w0, s, z, e, replies) && e !in z.tasks
    ensures var p := Run(w0, e, TaskOf(s, e), replies);
      && p.t == Done && Agree(p.w, z.world, e) && Agree(w0, s.world, e)
      && Adds(w0.sent, p.w.sent, Reported(s, z, e), e)
  {
  }

  /** The calls of `e`'s handler, begun with task `t`, that failed and left something behind. */
  ghost predicate FailedCalls(failed: set<Action>, s: System, evs: seq<Event>, e: EnvId, t: Task) {
    exists w0: World :: Agree(w0, s.world, e) && Run(w0, e, t, OwnReplies(evs, e)).failed == failed
  }

  /** How a finished Create looks in another world that agrees on `e`. */
  lemma CreateSeen(w0: World, w: World, z: World, cmd: CreateEnv, failed: set<Action>, added: seq<AgentMessage>)
    requires Unknown(w0, cmd.envId) && (CreateDone(w0, w, cmd) || CreateFailed(w0, w, cmd.envId, failed))
    requires Agree(w, z, cmd.envId) && Adds(w0.sent, w.sent, added, cmd.envId)
    ensures var e, gpus := cmd.envId, Held(w.grants, cmd.envId);
      || (|gpus| == cmd.gpuRequest && Up(z, e, SidecarSpec(cmd), DevSpec(cmd, gpus), added))
      || (&& Down(z, e, added)
          && (SidecarName(e) in z.containers <==> Remove(SidecarName(e)) in failed)
          && (DevName(e) in z.containers <==> Remove(DevName(e)) in failed))
  {
    NamesDiffer(cmd.envId, cmd.envId);
    OneMessage(w0.sent, w.sent, added, cmd.envId);
  }

  lemma StartUpSeen(w0: World, w: World, z: World, v: World, cmd: StartEnv, added: seq<AgentMessage>)
    requires Idle(w0, cmd.envId) && StartDone(w0, w, cmd)
    requires Agree(w, z, cmd.envId) && Agree(w0, v, cmd.envId) && Adds(w0.sent, w.sent, added, cmd.envId)
    ensures var e, gpus := cmd.envId, Held(w.grants, cmd.envId);
      var sidecar, dev := LabelsOf(v, SidecarName(e)), LabelsOf(v, DevName(e));
      |gpus| == GpuCount(dev) && Up(z, e, RestartedSidecarSpec(cmd, sidecar), RestartedDevSpec(cmd, dev, gpus), added)
  {
    NamesDiffer(cmd.envId, cmd.envId);
    OneMessage(w0.sent, w.sent, added, cmd.envId);
  }

  lemma StartDownSeen(w0: World, w: World, z: World, v: World, e: EnvId, failed: set<Action>, added: seq<AgentMessage>)
    requires StartFailed(w0, w, e, failed) && Idle(w0, e)
    requires Agree(w, z, e) && Agree(w0, v, e) && Adds(w0.sent, w.sent, added, e)
    ensures Down(z, e, added)
    ensures SidecarRuns(z, e) ==>
      SidecarRuns(v, e) || (Stop(SidecarName(e)) in failed && Remove(SidecarName(e)) in failed)
  {
    OneMessage(w0.sent, w.sent, added, e);
  }

  /** All or nothing among interleaved handlers: a Create that has finished has either both containers running with one
      list of as many GPUs as asked for granted, attached and reported, or it has reported one EnvError, nothing is
      granted, and of its containers exactly those are left whose removal failed. */
  lemma CreateAmongOthers(s: System, evs: seq<Event>, cmd: CreateEnv) returns (gpus: seq<int>, failed: set<Action>)
    requires Inv(s) && Legal(s, evs) && NoCommand(evs, cmd.envId)
    requires TaskOf(s, cmd.envId) == CreateTask(cmd) && Unknown(s.world, cmd.envId)
    requires cmd.envId !in Exec(s, evs).tasks
    ensures FailedCalls(failed, s, evs, cmd.envId, CreateTask(cmd))
    ensures var e, z := cmd.envId, Exec(s, evs);
      || (|gpus| == cmd.gpuRequest && Up(z.world, e, SidecarSpec(cmd), DevSpec(cmd, gpus), Reported(s, z, e)))
      || (&& Down(z.world, e, Reported(s, z, e))
          && (SidecarName(e) in z.world.containers <==> Remove(SidecarName(e)) in failed)
          && (DevName(e) in z.world.containers <==> Remove(DevName(e)) in failed))
  {
    var e, z := cmd.envId, Exec(s, evs);
    var w0 := HandlersAreIsolated(s, evs, e);
    var p := Run(w0, e, CreateTask(cmd), OwnReplies(evs, e));
    AloneFinished(s, z, e, w0, OwnReplies(evs, e));
    CreateAllOrNothing(w0, cmd, OwnReplies(evs, e));
    gpus, failed := Held(p.w.grants, e), p.failed;
    CreateSeen(w0, p.w, z.world, cmd, failed, Reported(s, z, e));
  }

  /** The same for Start, on any env whose dev container does not run. */
  lemma StartAmongOthers(s: System, evs: seq<Event>, cmd: StartEnv) returns (gpus: seq<int>, failed: set<Action>)
    requires Inv(s) && Legal(s, evs) && NoCommand(evs, cmd.envId)
    requires TaskOf(s, cmd.envId) == StartTask(cmd) && cmd.envId !in Exec(s, evs).tasks
    ensures FailedCalls(failed, s, evs, cmd.envId, StartTask(cmd))
    ensures var e, z := cmd.envId, Exec(s, evs);
      var sidecar, dev := LabelsOf(s.world, SidecarName(e)), LabelsOf(s.world, DevName(e));
      || (&& |gpus| == GpuCount(dev)
          && Up(z.world, e, RestartedSidecarSpec(cmd, sidecar), RestartedDevSpec(cmd, dev, gpus), Reported(s, z, e)))
      || (&& Down(z.world, e, Reported(s, z, e))
          && (SidecarRuns(z.world, e) ==>
                SidecarRuns(s.world, e) || (Stop(SidecarName(e)) in failed && Remove(SidecarName(e)) in failed)))
  {
    var e, z := cmd.envId, Exec(s, evs);
    assert EnvOk(s, e);
    var w0 := HandlersAreIsolated(s, evs, e);
    var p := Run(w0, e, StartTask(cmd), OwnReplies(evs, e));
    AloneFinished(s, z, e, w0, OwnReplies(evs, e));
    StartAllOrNothing(w0, cmd, OwnReplies(evs, e));
    gpus, failed := Held(p.w.grants, e), p.failed;
    if StartDone(w0, p.w, cmd) {
      StartUpSeen(w0, p.w, z.world, s.world, cmd, Reported(s, z, e));
    } else {
      StartDownSeen(w0, p.w, z.world, s.world, e, failed, Reported(s, z, e));
    }
  }
}

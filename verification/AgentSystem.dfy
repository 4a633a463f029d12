/** One connection of a node agent: any number of handlers interleaved step by step, their
    messages queued in order, and the control plane's table they are folded into. */
module AgentSystem {
  import opened Wrappers
  import opened AgentProtocol
  import opened Docker
  import opened GpuAllocator
  import opened EnvTable
  import opened HandlerSteps
  import opened HandlerOutcomes
  import opened EnvInvariant

  /** `sent` is everything the agent sent on this connection; the first `delivered` of it are in `rows`. */
  datatype System = System(node: NodeId, world: World, tasks: map<EnvId, Task>, rows: Rows, delivered: nat,
                           faults: set<EnvId>)

  datatype Event =
    | InsertRow(env: EnvId, row: Row)           // envs.Create on the control plane
    | BeginCreate(createCmd: CreateEnv)         // a command reaches the agent and its handler is spawned
    | BeginStop(env: EnvId)
    | BeginStart(startCmd: StartEnv)
    | BeginDelete(env: EnvId)
    | HandlerStep(env: EnvId, reply: Reply)     // one step of one handler
    | Deliver                                   // the control plane receives the next message

  function TaskOf(s: System, e: EnvId): Task {
    if e in s.tasks then s.tasks[e] else Done
  }

  /** The table once every message sent so far is delivered. */
  function Table(s: System): Rows
    requires s.delivered <= |s.world.sent|
  {
    Replay(s.rows, s.node, s.world.sent[s.delivered..])
  }

  function RowOf(s: System, e: EnvId): Option<Row>
    requires s.delivered <= |s.world.sent|
  {
    Lookup(Table(s), e)
  }

  /** Commands come one at a time per env, and never for an env of another node; the row may be gone by then. */
  predicate Commanded(s: System, e: EnvId) {
    IsUuid(e) && e !in s.tasks && (e in s.rows ==> s.rows[e].nodeId == s.node)
  }

  /** What the environment of the system may do. Create comes once for a fresh id; Start only
      while the dev container is not running; a new row has an id never used before. */
  predicate Enabled(s: System, ev: Event) {
    match ev
    case InsertRow(e, row) =>
      && IsUuid(e) && e !in s.rows && e !in s.tasks && Unknown(s.world, e)
      && (forall k :: 0 <= k < |s.world.sent| ==> !About(s.world.sent[k], e))
      && row.nodeId == s.node && row.status.Creating? && row.gpuIndices == []
    case BeginCreate(cmd) =>
      && Commanded(s, cmd.envId) && Unknown(s.world, cmd.envId)
      && (cmd.envId in s.rows ==> cmd.gpuRequest == s.rows[cmd.envId].gpuRequest)
    case BeginStop(e) => Commanded(s, e)
    case BeginStart(cmd) => Commanded(s, cmd.envId) && !DevRuns(s.world, cmd.envId)
    case BeginDelete(e) => Commanded(s, e)
    case HandlerStep(e, _) => e in s.tasks
    case Deliver => s.delivered < |s.world.sent|
  }

  function AfterStep(s: System, e: EnvId, r: Reply): System
    requires e in s.tasks
  {
    var (w, t) := Step(s.world, e, s.tasks[e], r);
    s.(world := w,
       tasks := if t == Done then s.tasks - {e} else s.tasks[e := t],
       faults := if FaultAfter(s.world, e, s.tasks[e], r, w, e in s.faults) then s.faults + {e} else s.faults - {e})
  }

  function After(s: System, ev: Event): System
    requires Enabled(s, ev)
  {
    match ev
    case InsertRow(e, row) => s.(rows := s.rows[e := row])
    case BeginCreate(cmd) => s.(tasks := s.tasks[cmd.envId := CreateTask(cmd)])
    case BeginStop(e) => s.(tasks := s.tasks[e := StopTask(e)])
    case BeginStart(cmd) => s.(tasks := s.tasks[cmd.envId := StartTask(cmd)])
    case BeginDelete(e) => s.(tasks := s.tasks[e := DeleteTask(e)])
    case HandlerStep(e, r) => AfterStep(s, e, r)
    case Deliver => s.(rows := Apply(s.rows, s.node, s.world.sent[s.delivered]), delivered := s.delivered + 1)
  }

  /* ---- The invariant ---- */

  /** A container labelled as an env's dev container has that env's name; other containers may be anything. */
  ghost predicate WellNamed(cs: Containers) {
    forall n :: n in cs && cs[n].spec.labels.role == "dev" ==> n == DevName(cs[n].spec.labels.envId)
  }

  ghost predicate EnvOk(s: System, e: EnvId)
    requires s.delivered <= |s.world.sent|
  {
    EnvInv(s.world, e, s.node, RowOf(s, e), TaskOf(s, e), e in s.faults)
  }

  ghost predicate Inv(s: System) {
    && s.delivered <= |s.world.sent|
    && Sound(s.world.total, s.world.grants)
    && FitsInt32(s.world.total)
    && WellNamed(s.world.containers)
    && (forall e :: e in s.tasks ==> s.tasks[e] != Done)
    && forall e :: EnvOk(s, e)
  }

  /* ---- Frames ---- */

  lemma TaskInvSame(w: World, w': World, e: EnvId, node: NodeId, row: Option<Row>, t: Task, fault: bool)
    requires Agree(w', w, e) && TaskInv(w, e, node, row, t, fault)
    ensures TaskInv(w', e, node, row, t, fault)
  {
  }

  /** A change that touches only `e` keeps every other env's invariant. */
  lemma OthersKeep(w: World, w': World, e: EnvId, f: EnvId, node: NodeId, row: Option<Row>, t: Task, fault: bool)
    requires TouchesOnly(w, w', e) && f != e && EnvInv(w, f, node, row, t, fault)
    ensures EnvInv(w', f, node, row, t, fault)
  {
    OthersUntouched(w, w', e, f);
    TaskInvSame(w, w', f, node, row, t, fault);
  }

  lemma PerformTouches(w: World, e: EnvId, a: Action, r: Reply)
    requires AbortAction(a, e) || StopAction(a, e) || a.Release? || (a.Send? && About(a.msg, e))
    ensures TouchesOnly(w, Perform(w, e, a, r), e)
  {
  }

  lemma CreatingTouches(w: World, e: EnvId, t: Task, r: Reply)
    requires t.Creating? && t.createCmd.envId == e
    ensures var w' := Step(w, e, t, r).0; TouchesOnly(w, w', e) && w'.sent == w.sent
  {
  }

  lemma StartingSidecarTouches(w: World, e: EnvId, t: Task, r: Reply)
    requires t.Starting? && t.startCmd.envId == e && !DevStage(t.start)
    ensures var w' := Step(w, e, t, r).0; TouchesOnly(w, w', e) && w'.sent == w.sent
  {
  }

  lemma StartingDevTouches(w: World, e: EnvId, t: Task, r: Reply)
    requires t.Starting? && t.startCmd.envId == e && DevStage(t.start)
    ensures var w' := Step(w, e, t, r).0; TouchesOnly(w, w', e) && w'.sent == w.sent
  {
  }

  /** A step of `e`'s handler touches only `e`, and sends at most one message, about `e`. */
  lemma StepTouches(w: World, e: EnvId, node: NodeId, row: Option<Row>, t: Task, fault: bool, r: Reply)
    requires EnvInv(w, e, node, row, t, fault) && t != Done
    ensures var w' := Step(w, e, t, r).0;
      && TouchesOnly(w, w', e)
      && GrewBy(w.sent, w'.sent, e)
  {
    match t
    case Creating(_, _, _) => CreatingTouches(w, e, t, r);
    case Starting(stage, _, _, _, _) =>
      if DevStage(stage) { StartingDevTouches(w, e, t, r); } else { StartingSidecarTouches(w, e, t, r); }
    case Announcing(_) =>
    case Aborting(acts) =>
      assert acts[0] in acts;
      PerformTouches(w, e, acts[0], r);
    case Stopping(acts) =>
      if |acts| > 1 {
        StopShapeTail(acts, e);
      }
      PerformTouches(w, e, acts[0], r);
  }

  /** The grants may change by what the allocator picks for `e`. */
  predicate Granted(w: World, g: Grants, e: EnvId, count: nat) {
    g == w.grants || (Pick(w.total, w.grants, count).Some? && g == w.grants[e := Pick(w.total, w.grants, count).value])
  }

  lemma CreatingGrants(w: World, e: EnvId, t: Task, r: Reply)
    requires t.Creating?
    ensures Granted(w, Step(w, e, t, r).0.grants, e, t.createCmd.gpuRequest)
  {
  }

  lemma StartingGrants(w: World, e: EnvId, t: Task, r: Reply)
    requires t.Starting?
    ensures Granted(w, Step(w, e, t, r).0.grants, e, GpuCount(t.devLabels))
  {
  }

  lemma OtherGrants(w: World, e: EnvId, t: Task, r: Reply)
    requires !t.Creating? && !t.Starting?
    ensures var g := Step(w, e, t, r).0.grants; g == w.grants || g == w.grants - {e}
  {
  }

  lemma GrantedKeepsSound(w: World, g: Grants, e: EnvId, count: nat)
    requires Sound(w.total, w.grants) && Granted(w, g, e, count)
    ensures Sound(w.total, g)
  {
    if Pick(w.total, w.grants, count).Some? {
      AllocateKeepsSound(w.total, w.grants, e, count);
    }
  }

  lemma StepKeepsSound(w: World, e: EnvId, t: Task, r: Reply)
    requires Sound(w.total, w.grants)
    ensures Sound(w.total, Step(w, e, t, r).0.grants)
  {
    var g := Step(w, e, t, r).0.grants;
    match t
    case Creating(_, cmd, _) =>
      CreatingGrants(w, e, t, r);
      GrantedKeepsSound(w, g, e, cmd.gpuRequest);
    case Starting(_, _, _, _, _) =>
      StartingGrants(w, e, t, r);
      GrantedKeepsSound(w, g, e, GpuCount(t.devLabels));
    case _ =>
      OtherGrants(w, e, t, r);
      ReleaseKeepsSound(w.total, w.grants, e);
  }

  lemma HeldFits(w: World, e: EnvId)
    requires Sound(w.total, w.grants) && FitsInt32(w.total)
    ensures FitsInt32(Held(w.grants, e))
  {
    forall i | i in Held(w.grants, e) ensures IsInt32(i) {
      assert i in Elements(w.grants[e]);
      assert i in Elements(w.total);
    }
  }

  /** Delivering a message changes only the row it is about. */
  lemma ApplyRow(rows: Rows, node: NodeId, msg: AgentMessage, f: EnvId)
    requires !msg.EnvSnapshot?
    ensures Lookup(Apply(rows, node, msg), f) == RowAfter(Lookup(rows, f), f, msg)
  {
  }

  /* ---- Every event keeps the invariant ---- */

  /** The queue grew by at most one message about `e`. */
  predicate GrewBy(sent: seq<AgentMessage>, sent': seq<AgentMessage>, e: EnvId) {
    sent' == sent || (|sent'| == |sent| + 1 && sent <= sent' && About(sent'[|sent|], e))
  }

  lemma QueueRow(rows: Rows, node: NodeId, sent: seq<AgentMessage>, sent': seq<AgentMessage>, from: nat,
                 e: EnvId, f: EnvId)
    requires from <= |sent| && GrewBy(sent, sent', e)
    ensures from <= |sent'|
    ensures var row := Lookup(Replay(rows, node, sent[from..]), f);
      Lookup(Replay(rows, node, sent'[from..]), f) ==
        if f == e && sent' != sent then RowAfter(row, e, sent'[|sent|])
        else row
  {
    if sent' != sent {
      var msg := sent'[|sent|];
      assert sent'[from..] == sent[from..] + [msg];
      ReplayAppend(rows, node, sent[from..], msg);
      ApplyRow(Replay(rows, node, sent[from..]), node, msg, f);
    }
  }

  lemma StepTable(s: System, e: EnvId, r: Reply, f: EnvId)
    requires s.delivered <= |s.world.sent| && e in s.tasks
    requires GrewBy(s.world.sent, AfterStep(s, e, r).world.sent, e)
    ensures var s' := AfterStep(s, e, r);
      s'.delivered <= |s'.world.sent| && RowOf(s', f) ==
        if f == e then RowStep(s.world, s'.world, e, RowOf(s, e))
        else RowOf(s, f)
  {
    QueueRow(s.rows, s.node, s.world.sent, AfterStep(s, e, r).world.sent, s.delivered, e, f);
  }

  lemma StepKeepsInv(s: System, e: EnvId, r: Reply)
    requires Inv(s) && e in s.tasks
    ensures Inv(AfterStep(s, e, r))
  {
    var s' := AfterStep(s, e, r);
    var t := s.tasks[e];
    assert EnvOk(s, e);
    StepTouches(s.world, e, s.node, RowOf(s, e), t, e in s.faults, r);
    StepKeepsSound(s.world, e, t, r);
    HeldFits(s.world, e);
    StepTable(s, e, r, e);
    OwnStepKeeps(s.world, e, s.node, RowOf(s, e), t, e in s.faults, r);
    assert EnvOk(s', e);
    forall f ensures EnvOk(s', f) {
      if f != e {
        assert EnvOk(s, f);
        StepTable(s, e, r, f);
        OthersKeep(s.world, s'.world, e, f, s.node, RowOf(s, f), TaskOf(s, f), f in s.faults);
      }
    }
    StaysWellNamed(s.world, s'.world, e, s'.node, RowOf(s', e), TaskOf(s', e), e in s'.faults);
  }

  lemma StaysWellNamed(w: World, w': World, e: EnvId, node: NodeId, row: Option<Row>, t: Task, fault: bool)
    requires WellNamed(w.containers) && TouchesOnly(w, w', e) && EnvInv(w', e, node, row, t, fault)
    ensures WellNamed(w'.containers)
  {
    forall n | n in w'.containers && w'.containers[n].spec.labels.role == "dev"
      ensures n == DevName(w'.containers[n].spec.labels.envId)
    {
      if n != DevName(e) && n != SidecarName(e) {
        assert Lookup(w'.containers, n) == Lookup(w.containers, n);
      }
    }
  }

  /** A row of the final table is, in node and request, the row of the present one. */
  lemma TableIdentity(s: System, e: EnvId)
    requires s.delivered <= |s.world.sent|
    ensures RowOf(s, e).Some? ==>
      (e in s.rows && RowOf(s, e).value.nodeId == s.rows[e].nodeId &&
        RowOf(s, e).value.gpuRequest == s.rows[e].gpuRequest)
  {
    if e in Table(s) {
      ReplayKeepsIdentity(s.rows, s.node, s.world.sent[s.delivered..], e);
    }
  }

  lemma BeginKeepsInv(s: System, e: EnvId, t: Task)
    requires Inv(s) && Commanded(s, e)
    requires t == StopTask(e) || t == DeleteTask(e)
      || (t.Creating? && t == CreateTask(t.createCmd) && t.createCmd.envId == e && Unknown(s.world, e)
            && (e in s.rows ==> t.createCmd.gpuRequest == s.rows[e].gpuRequest))
      || (t.Starting? && t == StartTask(t.startCmd) && t.startCmd.envId == e && !DevRuns(s.world, e))
    ensures Inv(s.(tasks := s.tasks[e := t]))
  {
    var s' := s.(tasks := s.tasks[e := t]);
    TableIdentity(s, e);
    assert EnvOk(s, e);
    if t.Stopping? {
      assert t.actions[0] == Stop(DevName(e));
      assert HaltsDev(t.actions, e);
    }
    assert EnvOk(s', e);
    forall f ensures EnvOk(s', f) {
      assert EnvOk(s, f);
    }
  }

  lemma InsertKeepsInv(s: System, e: EnvId, row: Row)
    requires Inv(s) && Enabled(s, InsertRow(e, row))
    ensures Inv(s.(rows := s.rows[e := row]))
  {
    var s' := s.(rows := s.rows[e := row]);
    var queue := s.world.sent[s.delivered..];
    forall k | 0 <= k < |queue| ensures !About(queue[k], e) {
      assert queue[k] == s.world.sent[s.delivered + k];
    }
    ReplayInsert(s.rows, s.node, queue, e, row);
    forall f ensures EnvOk(s', f) {
      assert EnvOk(s, f);
    }
  }

  lemma DeliverKeepsInv(s: System)
    requires Inv(s) && s.delivered < |s.world.sent|
    ensures Inv(After(s, Deliver)) && Table(After(s, Deliver)) == Table(s)
  {
    var s' := After(s, Deliver);
    var queue := s.world.sent[s.delivered..];
    assert queue[0] == s.world.sent[s.delivered] && queue[1..] == s.world.sent[s.delivered + 1..];
    forall f ensures EnvOk(s', f) {
      assert EnvOk(s, f);
    }
  }

  lemma EventKeepsInv(s: System, ev: Event)
    requires Inv(s) && Enabled(s, ev)
    ensures Inv(After(s, ev))
  {
    match ev
    case InsertRow(e, row) => InsertKeepsInv(s, e, row);
    case BeginCreate(cmd) => BeginKeepsInv(s, cmd.envId, CreateTask(cmd));
    case BeginStop(e) => BeginKeepsInv(s, e, StopTask(e));
    case BeginStart(cmd) => BeginKeepsInv(s, cmd.envId, StartTask(cmd));
    case BeginDelete(e) => BeginKeepsInv(s, e, DeleteTask(e));
    case HandlerStep(e, r) => StepKeepsInv(s, e, r);
    case Deliver => DeliverKeepsInv(s);
  }
}

/** What holds of one environment at every point between handler steps: its containers, its grant,
    its row once every message sent is delivered, and where its handler is. */
module EnvInvariant {
  import opened Wrappers
  import opened AgentProtocol
  import opened Docker
  import opened GpuAllocator
  import opened EnvTable
  import opened HandlerSteps
  import opened HandlerOutcomes
  import GpuLabels

  function GpuCount(labels: Labels): nat {
    |GpuLabels.ParseCsv(labels.gpuIndices)|
  }

  predicate RowRuns(row: Option<Row>, node: NodeId) {
    row.Some? && RunningOn(row.value, node)
  }

  /** The row, if there is one, asks for `n` GPUs. */
  predicate Asks(row: Option<Row>, n: int) {
    row.Some? ==> row.value.gpuRequest == n
  }

  /** The dev container at `e`'s name carries `e`'s labels; the label lists as many GPUs as are attached. */
  predicate DevLabelled(w: World, e: EnvId, row: Option<Row>) {
    DevName(e) in w.containers ==>
      var spec := w.containers[DevName(e)].spec;
      spec.labels.role == "dev" && spec.labels.envId == e && GpuCount(spec.labels) == |spec.gpuIndices| &&
        Asks(row, |spec.gpuIndices|)
  }

  predicate SidecarLabelled(w: World, e: EnvId) {
    SidecarName(e) in w.containers ==> w.containers[SidecarName(e)].spec.labels.role != "dev"
  }

  function Attached(w: World, e: EnvId): seq<int>
    requires DevName(e) in w.containers
  {
    w.containers[DevName(e)].spec.gpuIndices
  }

  /* ---- Per handler ---- */

  /** No handler: a running row is backed by both containers with exactly the row's GPUs,
      and a grant is backed by a running dev container. */
  predicate IdleInv(w: World, e: EnvId, node: NodeId, row: Option<Row>, fault: bool) {
    && (RowRuns(row, node) ==> DevRuns(w, e) && SidecarRuns(w, e) && !fault && row.value.gpuIndices == Attached(w, e))
    && (!DevRuns(w, e) || fault ==> e !in w.grants)
  }

  predicate CreatingInv(w: World, e: EnvId, row: Option<Row>, stage: CreateStage, cmd: CreateEnv, gpus: seq<int>) {
    && cmd.envId == e
    && Asks(row, cmd.gpuRequest)
    && (if stage.AllocateGpus? then e !in w.grants
        else |gpus| == cmd.gpuRequest && e in w.grants && w.grants[e] == gpus)
    && (if stage.StartDev? then DevName(e) in w.containers && Attached(w, e) == gpus else DevName(e) !in w.containers)
    && (stage.CreateDev? || stage.StartDev? ==> SidecarRuns(w, e))
    && (stage.AwaitSidecar? ==> SidecarRuns(w, e))
  }

  predicate StartingInv(w: World, e: EnvId, row: Option<Row>, t: Task)
    requires t.Starting?
  {
    var stage := t.start;
    && t.startCmd.envId == e
    && (!stage.InspectDev? ==> t.devLabels.role == "dev" && t.devLabels.envId == e && Asks(row, GpuCount(t.devLabels)))
    && (!stage.InspectDev? && !stage.InspectSidecar? ==> t.sidecarLabels.role != "dev")
    && (if Reallocated(stage) then |t.gpus| == GpuCount(t.devLabels) && Held(w.grants, e) == t.gpus else e !in w.grants)
    && (stage.AwaitNewSidecar? || DevStage(stage) ==> SidecarRuns(w, e))
    && (stage.RestartDev? ==> DevName(e) in w.containers && Attached(w, e) == t.gpus)
  }

  /** Stop and Delete: calls on `e`'s own containers, then Release, then one message. */
  predicate StopAction(a: Action, e: EnvId) {
    match a
    case Stop(n) => n == SidecarName(e) || n == DevName(e)
    case Remove(n) => n == SidecarName(e) || n == DevName(e)
    case RemoveVolume(_) => true
    case Release => false
    case Send(_) => false
  }

  ghost predicate StopShape(acts: seq<Action>, e: EnvId) {
    && acts != []
    && (acts[|acts| - 1] == Send(EnvStopped(e)) || acts[|acts| - 1] == Send(EnvDeleted(e)))
    && (|acts| > 1 ==> acts[|acts| - 2] == Release)
    && forall k :: 0 <= k < |acts| - 2 ==> StopAction(acts[k], e)
  }

  ghost predicate HaltsDev(acts: seq<Action>, e: EnvId) {
    exists k :: 0 <= k < |acts| - 2 && (acts[k] == Stop(DevName(e)) || acts[k] == Remove(DevName(e)))
  }

  ghost predicate StoppingInv(w: World, e: EnvId, node: NodeId, row: Option<Row>, acts: seq<Action>, fault: bool) {
    && StopShape(acts, e)
    && (if |acts| > 1 then
          && (DevRuns(w, e) && !fault ==> HaltsDev(acts, e))
          && (RowRuns(row, node) ==> row.value.gpuIndices == Held(w.grants, e))
        else
          e !in w.grants && (DevRuns(w, e) ==> fault))
  }

  /** Until the handler has announced, the row does not run and neither does the dev container. */
  predicate Quiet(w: World, e: EnvId, node: NodeId, row: Option<Row>) {
    !RowRuns(row, node) && !DevRuns(w, e)
  }

  ghost predicate TaskInv(w: World, e: EnvId, node: NodeId, row: Option<Row>, t: Task, fault: bool) {
    match t
    case Done => IdleInv(w, e, node, row, fault)
    case Creating(stage, cmd, gpus) => Quiet(w, e, node, row) && CreatingInv(w, e, row, stage, cmd, gpus)
    case Starting(_, _, _, _, _) => Quiet(w, e, node, row) && StartingInv(w, e, row, t)
    case Announcing(msg) => !RowRuns(row, node) && DevRuns(w, e) && SidecarRuns(w, e) && !fault &&
      msg == ReadyMessage(e, Attached(w, e))
    case Aborting(acts) => Quiet(w, e, node, row) && acts != [] && (forall a :: a in acts ==> AbortAction(a, e))
                           && (Release in acts || e !in w.grants)
    case Stopping(acts) => StoppingInv(w, e, node, row, acts, fault)
  }

  /** `fault`: a call that should have halted the running dev container failed, and it still runs. */
  ghost predicate EnvInv(w: World, e: EnvId, node: NodeId, row: Option<Row>, t: Task, fault: bool) {
    && (fault ==> DevRuns(w, e))
    && (DevRuns(w, e) && !fault ==> Attached(w, e) == Held(w.grants, e))
    && DevLabelled(w, e, row) && SidecarLabelled(w, e)
    && (row.Some? && !row.value.status.Running? ==> row.value.gpuIndices == [])
    && (t != Done ==> IsUuid(e) && (row.Some? ==> row.value.nodeId == node))
    && TaskInv(w, e, node, row, t, fault)
  }

  /* ---- One step of the env's own handler ---- */

  /** Whether a failed call leaves a dev container running that the code believes halted. */
  predicate FaultAfter(w: World, e: EnvId, t: Task, r: Reply, w': World, fault: bool) {
    DevRuns(w', e) &&
    (fault || (DevRuns(w, e) && t.Stopping? && t.actions != [] && r.Err?
               && (t.actions[0] == Stop(DevName(e)) || t.actions[0] == Remove(DevName(e)))))
  }

  /** What a message does to the row of `e`. */
  function RowAfter(row: Option<Row>, e: EnvId, msg: AgentMessage): Option<Row> {
    if row.None? || !About(msg, e) || !IsUuid(e) then row
    else
      match msg
      case EnvReady(_, sid, did, gpus) => Some(ToRunning(row.value, sid, did, gpus))
      case EnvStopped(_) => Some(ToStopped(row.value))
      case EnvDeleted(_) => None
      case EnvError(_, stage, detail) => Some(ToError(row.value, stage, detail))
      case _ => row
  }

  /** The row once the step's message, if it sends one, is delivered too. */
  function RowStep(w: World, w': World, e: EnvId, row: Option<Row>): Option<Row> {
    if |w'.sent| == |w.sent| + 1 then RowAfter(row, e, w'.sent[|w.sent|]) else row
  }

  predicate FitsInt32(idx: seq<int>) {
    forall i :: i in idx ==> IsInt32(i)
  }

  lemma LabelCount(cmd: CreateEnv, gpus: seq<int>)
    requires FitsInt32(gpus)
    ensures GpuCount(DevLabels(cmd, gpus)) == |gpus|
  {
    GpuLabels.ParseCsvOfCsv(gpus);
  }

  /** An error exit starts with the world untouched, from any stage at which the env is quiet. */
  lemma ExitKeeps(w: World, e: EnvId, node: NodeId, row: Option<Row>, t: Task, t': Task)
    requires EnvInv(w, e, node, row, t, false) && (t.Creating? || t.Starting?)
    requires IsExit(t', e) && (Release in t'.actions || e !in w.grants)
    ensures EnvInv(w, e, node, row, t', false)
  {
  }

  lemma CreateGpuStepKeeps(w: World, e: EnvId, node: NodeId, row: Option<Row>, t: Task, fault: bool, r: Reply)
    requires EnvInv(w, e, node, row, t, fault) && t.Creating? && t.create.AllocateGpus?
    ensures var (w', t') := Step(w, e, t, r); w'.sent == w.sent && EnvInv(w', e, node, row, t', false)
  {
    NamesDiffer(e, e);
    var (w', t') := Step(w, e, t, r);
    if t'.Aborting? {
      CreateExits(w, e, t, r);
      ExitKeeps(w, e, node, row, t, t');
    }
  }

  lemma CreateSidecarStepKeeps(w: World, e: EnvId, node: NodeId, row: Option<Row>, t: Task, fault: bool, r: Reply)
    requires EnvInv(w, e, node, row, t, fault) && t.Creating?
    requires t.create.CreateSidecar? || t.create.StartSidecar? || t.create.AwaitSidecar?
    ensures var (w', t') := Step(w, e, t, r); w'.sent == w.sent && EnvInv(w', e, node, row, t', false)
  {
    NamesDiffer(e, e);
    var (w', t') := Step(w, e, t, r);
    if t'.Aborting? {
      CreateExits(w, e, t, r);
      ExitKeeps(w, e, node, row, t, t');
    }
  }

  lemma CreateDevStepKeeps(w: World, e: EnvId, node: NodeId, row: Option<Row>, t: Task, fault: bool, r: Reply)
    requires EnvInv(w, e, node, row, t, fault) && t.Creating? && FitsInt32(Held(w.grants, e))
    requires t.create.CreateDev? || t.create.StartDev?
    ensures var (w', t') := Step(w, e, t, r); w'.sent == w.sent && EnvInv(w', e, node, row, t', false)
  {
    NamesDiffer(e, e);
    var (w', t') := Step(w, e, t, r);
    if t'.Aborting? {
      CreateExits(w, e, t, r);
      ExitKeeps(w, e, node, row, t, t');
    } else if t.create.CreateDev? {
      LabelCount(t.createCmd, t.gpus);
    }
  }

  lemma StartInspectStepKeeps(w: World, e: EnvId, node: NodeId, row: Option<Row>, t: Task, fault: bool, r: Reply)
    requires EnvInv(w, e, node, row, t, fault) && t.Starting? && (t.start.InspectDev? || t.start.InspectSidecar?)
    ensures var (w', t') := Step(w, e, t, r); w'.sent == w.sent && EnvInv(w', e, node, row, t', false)
  {
    NamesDiffer(e, e);
    var (w', t') := Step(w, e, t, r);
    if t'.Aborting? {
      StartExits(w, e, t, r);
      ExitKeeps(w, e, node, row, t, t');
    }
  }

  lemma StartGrantKeeps(w: World, e: EnvId, node: NodeId, row: Option<Row>, t: Task, gpus: seq<int>)
    requires EnvInv(w, e, node, row, t, false) && t.Starting? && t.start.ReallocateGpus?
    requires |gpus| == GpuCount(t.devLabels)
    ensures var w' := if gpus == [] then w else w.(grants := w.grants[e := gpus]);
      EnvInv(w', e, node, row, t.(start := RemoveOldSidecar, gpus := gpus), false)
  {
  }

  lemma StartGpuStepKeeps(w: World, e: EnvId, node: NodeId, row: Option<Row>, t: Task, fault: bool, r: Reply)
    requires EnvInv(w, e, node, row, t, fault) && t.Starting? && t.start.ReallocateGpus?
    ensures var (w', t') := Step(w, e, t, r); w'.sent == w.sent && EnvInv(w', e, node, row, t', false)
  {
    var t' := Step(w, e, t, r).1;
    if t'.Aborting? {
      StartExits(w, e, t, r);
      ExitKeeps(w, e, node, row, t, t');
    } else {
      StartGrantKeeps(w, e, node, row, t, t'.gpus);
    }
  }

  lemma StartReplaceSidecarStepKeeps(w: World, e: EnvId, node: NodeId, row: Option<Row>, t: Task, fault: bool, r: Reply)
    requires EnvInv(w, e, node, row, t, fault) && t.Starting? && (t.start.RemoveOldSidecar? || t.start.RecreateSidecar?)
    ensures var (w', t') := Step(w, e, t, r); w'.sent == w.sent && EnvInv(w', e, node, row, t', false)
  {
    NamesDiffer(e, e);
    var (w', t') := Step(w, e, t, r);
    if t'.Aborting? {
      StartExits(w, e, t, r);
      ExitKeeps(w, e, node, row, t, t');
    }
  }

  lemma StartRestartSidecarStepKeeps(w: World, e: EnvId, node: NodeId, row: Option<Row>, t: Task, fault: bool, r: Reply)
    requires EnvInv(w, e, node, row, t, fault) && t.Starting? && (t.start.RestartSidecar? || t.start.AwaitNewSidecar?)
    ensures var (w', t') := Step(w, e, t, r); w'.sent == w.sent && EnvInv(w', e, node, row, t', false)
  {
    NamesDiffer(e, e);
    var (w', t') := Step(w, e, t, r);
    if t'.Aborting? {
      StartExits(w, e, t, r);
      ExitKeeps(w, e, node, row, t, t');
    }
  }

  lemma StartRemoveDevStepKeeps(w: World, e: EnvId, node: NodeId, row: Option<Row>, t: Task, fault: bool, r: Reply)
    requires EnvInv(w, e, node, row, t, fault) && t.Starting? && t.start.RemoveOldDev?
    ensures var (w', t') := Step(w, e, t, r); w'.sent == w.sent && EnvInv(w', e, node, row, t', false)
  {
    NamesDiffer(e, e);
    var (w', t') := Step(w, e, t, r);
    if t'.Aborting? {
      StartExits(w, e, t, r);
      ExitKeeps(w, e, node, row, t, t');
    }
  }

  lemma StartRecreateDevStepKeeps(w: World, e: EnvId, node: NodeId, row: Option<Row>, t: Task, fault: bool, r: Reply)
    requires EnvInv(w, e, node, row, t, fault) && t.Starting? && t.start.RecreateDev?
    ensures var (w', t') := Step(w, e, t, r); w'.sent == w.sent && EnvInv(w', e, node, row, t', false)
  {
    NamesDiffer(e, e);
    var (w', t') := Step(w, e, t, r);
    if t'.Aborting? {
      StartExits(w, e, t, r);
      ExitKeeps(w, e, node, row, t, t');
    }
  }

  lemma StartRestartDevStepKeeps(w: World, e: EnvId, node: NodeId, row: Option<Row>, t: Task, fault: bool, r: Reply)
    requires EnvInv(w, e, node, row, t, fault) && t.Starting? && t.start.RestartDev?
    ensures var (w', t') := Step(w, e, t, r); w'.sent == w.sent && EnvInv(w', e, node, row, t', false)
  {
    NamesDiffer(e, e);
    var (w', t') := Step(w, e, t, r);
    if t'.Aborting? {
      StartExits(w, e, t, r);
      ExitKeeps(w, e, node, row, t, t');
    }
  }

  /** Announcing makes the row run, with exactly the attached GPUs. */
  lemma AnnounceStepKeeps(w: World, e: EnvId, node: NodeId, row: Option<Row>, t: Task, fault: bool, r: Reply)
    requires EnvInv(w, e, node, row, t, fault) && t.Announcing? && FitsInt32(Held(w.grants, e))
    ensures var (w', t') := Step(w, e, t, r); EnvInv(w', e, node, RowStep(w, w', e, row), t', false)
  {
    ToInt32sIdentity(Attached(w, e));
  }

  lemma AbortStepKeeps(w: World, e: EnvId, node: NodeId, row: Option<Row>, t: Task, fault: bool, r: Reply)
    requires EnvInv(w, e, node, row, t, fault) && t.Aborting?
    ensures var (w', t') := Step(w, e, t, r); EnvInv(w', e, node, RowStep(w, w', e, row), t', false)
  {
    NamesDiffer(e, e);
    var acts := t.actions;
    TailMembers(acts);
    assert AbortAction(acts[0], e);
    var (w', t') := Step(w, e, t, r);
    assert w' == Perform(w, e, acts[0], r);
  }

  lemma StopShapeTail(acts: seq<Action>, e: EnvId)
    requires StopShape(acts, e) && |acts| > 1
    ensures StopShape(acts[1..], e)
    ensures acts[0] == Release <==> |acts| == 2
    ensures |acts| > 2 ==> StopAction(acts[0], e)
    ensures HaltsDev(acts, e) ==> acts[0] == Stop(DevName(e)) || acts[0] == Remove(DevName(e)) || HaltsDev(acts[1..], e)
  {
    var rest := acts[1..];
    assert forall k :: 0 <= k < |rest| ==> rest[k] == acts[k + 1];
    if HaltsDev(acts, e) && acts[0] != Stop(DevName(e)) && acts[0] != Remove(DevName(e)) {
      var k :| 0 <= k < |acts| - 2 && (acts[k] == Stop(DevName(e)) || acts[k] == Remove(DevName(e)));
      assert rest[k - 1] == acts[k];
    }
  }

  /** The calls of Stop and Delete on containers and the volume. */
  lemma HaltCallKeeps(w: World, e: EnvId, node: NodeId, row: Option<Row>, t: Task, fault: bool, r: Reply)
    requires EnvInv(w, e, node, row, t, fault) && t.Stopping? && |t.actions| > 2
    ensures var (w', t') := Step(w, e, t, r);
      w'.sent == w.sent && EnvInv(w', e, node, row, t', FaultAfter(w, e, t, r, w', fault))
  {
    NamesDiffer(e, e);
    LineStep(w, e, t.actions, r);
    StopShapeTail(t.actions, e);
  }

  /** The Release of Stop and Delete. */
  lemma ReleaseKeeps(w: World, e: EnvId, node: NodeId, row: Option<Row>, t: Task, fault: bool, r: Reply)
    requires EnvInv(w, e, node, row, t, fault) && t.Stopping? && |t.actions| == 2
    ensures var (w', t') := Step(w, e, t, r);
      w'.sent == w.sent && EnvInv(w', e, node, row, t', FaultAfter(w, e, t, r, w', fault))
  {
    LineStep(w, e, t.actions, r);
    StopShapeTail(t.actions, e);
  }

  lemma StopMessageKeeps(w: World, e: EnvId, node: NodeId, row: Option<Row>, t: Task, fault: bool, r: Reply)
    requires EnvInv(w, e, node, row, t, fault) && t.Stopping? && |t.actions| == 1
    ensures var (w', t') := Step(w, e, t, r);
      EnvInv(w', e, node, RowStep(w, w', e, row), t', FaultAfter(w, e, t, r, w', fault))
  {
    assert t.actions[0] == Send(EnvStopped(e)) || t.actions[0] == Send(EnvDeleted(e));
  }

  lemma CreatingStepKeeps(w: World, e: EnvId, node: NodeId, row: Option<Row>, t: Task, fault: bool, r: Reply)
    requires EnvInv(w, e, node, row, t, fault) && t.Creating? && FitsInt32(Held(w.grants, e))
    ensures var (w', t') := Step(w, e, t, r); w'.sent == w.sent && EnvInv(w', e, node, row, t', false)
  {
    if t.create.AllocateGpus? { CreateGpuStepKeeps(w, e, node, row, t, fault, r); }
    else if t.create.CreateDev? || t.create.StartDev? { CreateDevStepKeeps(w, e, node, row, t, fault, r); }
    else { CreateSidecarStepKeeps(w, e, node, row, t, fault, r); }
  }

  lemma StartingStepKeeps(w: World, e: EnvId, node: NodeId, row: Option<Row>, t: Task, fault: bool, r: Reply)
    requires EnvInv(w, e, node, row, t, fault) && t.Starting?
    ensures var (w', t') := Step(w, e, t, r); w'.sent == w.sent && EnvInv(w', e, node, row, t', false)
  {
    match t.start
    case InspectDev => StartInspectStepKeeps(w, e, node, row, t, fault, r);
    case InspectSidecar => StartInspectStepKeeps(w, e, node, row, t, fault, r);
    case ReallocateGpus => StartGpuStepKeeps(w, e, node, row, t, fault, r);
    case RemoveOldSidecar => StartReplaceSidecarStepKeeps(w, e, node, row, t, fault, r);
    case RecreateSidecar => StartReplaceSidecarStepKeeps(w, e, node, row, t, fault, r);
    case RestartSidecar => StartRestartSidecarStepKeeps(w, e, node, row, t, fault, r);
    case AwaitNewSidecar => StartRestartSidecarStepKeeps(w, e, node, row, t, fault, r);
    case RemoveOldDev => StartRemoveDevStepKeeps(w, e, node, row, t, fault, r);
    case RecreateDev => StartRecreateDevStepKeeps(w, e, node, row, t, fault, r);
    case RestartDev => StartRestartDevStepKeeps(w, e, node, row, t, fault, r);
  }

  lemma NoFaultWithoutHalt(w: World, e: EnvId, t: Task, r: Reply, w': World)
    requires t.Creating? || t.Starting?
    ensures !FaultAfter(w, e, t, r, w', false)
  {
  }

  /** Every step of `e`'s handler keeps the invariant of `e`. */
  lemma OwnStepKeeps(w: World, e: EnvId, node: NodeId, row: Option<Row>, t: Task, fault: bool, r: Reply)
    requires EnvInv(w, e, node, row, t, fault) && t != Done && FitsInt32(Held(w.grants, e))
    ensures var (w', t') := Step(w, e, t, r);
      EnvInv(w', e, node, RowStep(w, w', e, row), t', FaultAfter(w, e, t, r, w', fault))
  {
    match t
    case Creating(_, _, _) =>
      CreatingStepKeeps(w, e, node, row, t, fault, r);
      NoFaultWithoutHalt(w, e, t, r, Step(w, e, t, r).0);
    case Starting(_, _, _, _, _) =>
      StartingStepKeeps(w, e, node, row, t, fault, r);
      NoFaultWithoutHalt(w, e, t, r, Step(w, e, t, r).0);
    case Announcing(_) => AnnounceStepKeeps(w, e, node, row, t, fault, r);
    case Aborting(_) => AbortStepKeeps(w, e, node, row, t, fault, r);
    case Stopping(acts) =>
      if |acts| > 2 { HaltCallKeeps(w, e, node, row, t, fault, r); }
      else if |acts| == 2 { ReleaseKeeps(w, e, node, row, t, fault, r); }
      else { StopMessageKeeps(w, e, node, row, t, fault, r); }
  }
}

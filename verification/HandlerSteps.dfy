/** The agent's command handlers, one step at a time. A step is one Docker call, one allocator
    call or one send: the points between which handlers of other environments may run. */
module HandlerSteps {
  import opened Wrappers
  import opened AgentProtocol
  import opened Docker
  import opened GpuAllocator
  import GpuLabels
  import Decimal
  import Text

  function SidecarName(id: string): string {
    "flex-net-" + id
  }

  function DevName(id: string): string {
    "flex-env-" + id
  }

  /** A dev and a sidecar never share a name, and names tell environments apart. */
  lemma NamesDiffer(a: string, b: string)
    ensures SidecarName(a) != DevName(b)
    ensures a != b ==> SidecarName(a) != SidecarName(b) && DevName(a) != DevName(b)
  {
    assert SidecarName(a)[5] == 'n' && DevName(b)[5] == 'e';
    assert SidecarName(a)[9..] == a && SidecarName(b)[9..] == b;
    assert DevName(a)[9..] == a && DevName(b)[9..] == b;
  }

  /* ---- What the handlers ask Docker for ---- */

  function SidecarLabels(cmd: CreateEnv): Labels {
    NO_LABELS.(envId := cmd.envId, role := "sidecar", hostname := cmd.hostname, headscaleUrl := cmd.headscaleUrl,
               tags := Text.Join(cmd.tags, ','), imageRef := cmd.sidecarImageRef)
  }

  function SidecarEnv(hostname: string, authKey: string, headscaleUrl: string, tags: string): map<string, string> {
    map["FLEXCTL_HOSTNAME" := hostname, "FLEXCTL_AUTHKEY" := authKey,
        "FLEXCTL_HEADSCALE_URL" := headscaleUrl, "FLEXCTL_TAGS" := tags]
  }

  function SidecarSpec(cmd: CreateEnv): ContainerSpec {
    ContainerSpec(SidecarName(cmd.envId), cmd.sidecarImageRef, [],
                  SidecarEnv(cmd.hostname, cmd.preauthKey, cmd.headscaleUrl, Text.Join(cmd.tags, ',')),
                  SidecarLabels(cmd), "", ["NET_ADMIN"], ["/dev/net/tun"], [], [])
  }

  function DevLabels(cmd: CreateEnv, gpus: seq<int>): Labels {
    NO_LABELS.(envId := cmd.envId, role := "dev", imageRef := cmd.imageRef, gpuIndices := GpuLabels.Csv(gpus),
               volumeName := "flex-env-" + cmd.envId)
  }

  function DevSpec(cmd: CreateEnv, gpus: seq<int>): ContainerSpec {
    ContainerSpec(DevName(cmd.envId), cmd.imageRef, cmd.defaultCmd,
                  map["FLEXCTL_AUTHORIZED_KEYS" := cmd.authorizedKeys], DevLabels(cmd, gpus),
                  "container:" + SidecarName(cmd.envId), [], [], gpus,
                  [VolumeMount("flex-env-" + cmd.envId, "/home/dev")])
  }

  function RestartedSidecarSpec(cmd: StartEnv, labels: Labels): ContainerSpec {
    ContainerSpec(SidecarName(cmd.envId), labels.imageRef, [],
                  SidecarEnv(labels.hostname, cmd.preauthKey, labels.headscaleUrl, labels.tags),
                  labels, "", ["NET_ADMIN"], ["/dev/net/tun"], [], [])
  }

  function RestartedDevSpec(cmd: StartEnv, labels: Labels, gpus: seq<int>): ContainerSpec {
    ContainerSpec(DevName(cmd.envId), labels.imageRef, [],
                  map["FLEXCTL_AUTHORIZED_KEYS" := cmd.authorizedKeys], labels,
                  "container:" + SidecarName(cmd.envId), [], [], gpus,
                  [VolumeMount(labels.volumeName, "/home/dev")])
  }

  function ReadyMessage(id: string, gpus: seq<int>): AgentMessage {
    EnvReady(id, SidecarName(id), DevName(id), ToInt32s(gpus))
  }

  function ShortageText(count: nat, free: nat): string {
    "insufficient GPUs: requested " + Decimal.Itoa(count) + ", available " + Decimal.Itoa(free)
  }

  /* ---- The agent's state and its handlers in flight ---- */

  datatype World = World(total: seq<int>, containers: Containers, volumes: set<string>, grants: Grants,
                         sent: seq<AgentMessage>)

  /** The straight-line calls left once a handler cannot branch any more; Docker's answers are ignored. */
  datatype Action = Stop(name: string) | Remove(name: string) | RemoveVolume(volume: string) | Release
                  | Send(msg: AgentMessage)

  datatype CreateStage = AllocateGpus | CreateSidecar | StartSidecar | AwaitSidecar | CreateDev | StartDev

  datatype StartStage = InspectDev | InspectSidecar | ReallocateGpus | RemoveOldSidecar | RecreateSidecar
                      | RestartSidecar | AwaitNewSidecar | RemoveOldDev | RecreateDev | RestartDev

  datatype Task =
    | Creating(create: CreateStage, createCmd: CreateEnv, gpus: seq<int>)
    | Starting(start: StartStage, startCmd: StartEnv, devLabels: Labels, sidecarLabels: Labels, gpus: seq<int>)
    | Announcing(msg: AgentMessage)     // every container runs, EnvReady is still to be sent
    | Aborting(actions: seq<Action>)    // an error exit of Create or Start
    | Stopping(actions: seq<Action>)    // Stop and Delete
    | Done

  function CreateTask(cmd: CreateEnv): Task {
    Creating(AllocateGpus, cmd, [])
  }

  function StartTask(cmd: StartEnv): Task {
    Starting(InspectDev, cmd, NO_LABELS, NO_LABELS, [])
  }

  function StopTask(id: EnvId): Task {
    Stopping([Stop(DevName(id)), Stop(SidecarName(id)), Release, Send(EnvStopped(id))])
  }

  function DeleteTask(id: EnvId): Task {
    Stopping([Stop(DevName(id)), Stop(SidecarName(id)), Remove(DevName(id)), Remove(SidecarName(id)),
              RemoveVolume("flex-env-" + id), Release, Send(EnvDeleted(id))])
  }

  /* ---- Steps ---- */

  /** Docker's answer, given that a call on a missing container fails. */
  function OnContainer(r: Reply, found: bool): Reply {
    if r.Ok? && !found then Err("not found") else r
  }

  function Perform(w: World, e: EnvId, a: Action, r: Reply): World {
    match a
    case Stop(n) => if r.Ok? then w.(containers := WithState(w.containers, n, Exited)) else w
    case Remove(n) => if r.Ok? then w.(containers := w.containers - {n}) else w
    case RemoveVolume(v) => if r.Ok? then w.(volumes := w.volumes - {v}) else w
    case Release => w.(grants := w.grants - {e})
    case Send(m) => w.(sent := w.sent + [m])
  }

  /* The error exits. */

  function Report(e: EnvId, stage: string, detail: string): Action {
    Send(EnvError(e, stage, detail))
  }

  function Refused(e: EnvId, stage: string, detail: string): Task {
    Aborting([Report(e, stage, detail)])
  }

  function ReleaseThenReport(e: EnvId, stage: string, detail: string): Task {
    Aborting([Release, Report(e, stage, detail)])
  }

  function ReportThenRelease(e: EnvId, stage: string, detail: string): Task {
    Aborting([Report(e, stage, detail), Release])
  }

  function DropSidecar(e: EnvId, stage: string, detail: string): Task {
    Aborting([Remove(SidecarName(e)), Release, Report(e, stage, detail)])
  }

  function UndoSidecar(e: EnvId, stage: string, detail: string): Task {
    Aborting([Stop(SidecarName(e)), Remove(SidecarName(e)), Release, Report(e, stage, detail)])
  }

  function UndoBoth(e: EnvId, stage: string, detail: string): Task {
    Aborting([Remove(DevName(e)), Stop(SidecarName(e)), Remove(SidecarName(e)), Release, Report(e, stage, detail)])
  }

  /* The container calls, when Docker grants them. */

  function AddContainer(w: World, spec: ContainerSpec): World {
    w.(containers := w.containers[spec.name := Container(spec, Created)])
  }

  function StartContainer(w: World, name: string): World {
    w.(containers := WithState(w.containers, name, Running))
  }

  function DropContainer(w: World, name: string): World {
    w.(containers := w.containers - {name})
  }

  function LabelsOf(w: World, name: string): Labels {
    if name in w.containers then w.containers[name].spec.labels else NO_LABELS
  }

  function Shortage(w: World, count: nat): string {
    ShortageText(count, |Free(w.total, Used(w.grants))|)
  }

  /** Create, stage by stage. */
  function StepAllocateGpus(w: World, e: EnvId, cmd: CreateEnv): (World, Task) {
    match Pick(w.total, w.grants, cmd.gpuRequest)
    case Some(pick) => (w.(grants := w.grants[e := pick]), Creating(CreateSidecar, cmd, pick))
    case None => (w, Refused(e, "unknown", Shortage(w, cmd.gpuRequest)))
  }

  function StepCreateSidecar(w: World, e: EnvId, cmd: CreateEnv, gpus: seq<int>, r: Reply): (World, Task) {
    match r
    case Ok => (AddContainer(w, SidecarSpec(cmd)), Creating(StartSidecar, cmd, gpus))
    case Err(text) => (w, ReleaseThenReport(e, "sidecar_start", text))
  }

  function StepStartSidecar(w: World, e: EnvId, cmd: CreateEnv, gpus: seq<int>, r: Reply): (World, Task) {
    match OnContainer(r, SidecarName(e) in w.containers)
    case Ok => (StartContainer(w, SidecarName(e)), Creating(AwaitSidecar, cmd, gpus))
    case Err(text) => (w, DropSidecar(e, "sidecar_start", text))
  }

  function StepAwaitSidecar(w: World, e: EnvId, cmd: CreateEnv, gpus: seq<int>, r: Reply): (World, Task) {
    match r
    case Ok => (w, Creating(CreateDev, cmd, gpus))
    case Err(text) => (w, UndoSidecar(e, "sidecar_health", text))
  }

  function StepCreateDev(w: World, e: EnvId, cmd: CreateEnv, gpus: seq<int>, r: Reply): (World, Task) {
    match r
    case Ok => (AddContainer(w, DevSpec(cmd, gpus)), Creating(StartDev, cmd, gpus))
    case Err(text) => (w, UndoSidecar(e, "dev_start", text))
  }

  function StepStartDev(w: World, e: EnvId, gpus: seq<int>, r: Reply): (World, Task) {
    match OnContainer(r, DevName(e) in w.containers)
    case Ok => (StartContainer(w, DevName(e)), Announcing(ReadyMessage(e, gpus)))
    case Err(text) => (w, UndoBoth(e, "dev_start", text))
  }

  function StepCreate(w: World, e: EnvId, stage: CreateStage, cmd: CreateEnv, gpus: seq<int>, r: Reply): (World, Task) {
    match stage
    case AllocateGpus => StepAllocateGpus(w, e, cmd)
    case CreateSidecar => StepCreateSidecar(w, e, cmd, gpus, r)
    case StartSidecar => StepStartSidecar(w, e, cmd, gpus, r)
    case AwaitSidecar => StepAwaitSidecar(w, e, cmd, gpus, r)
    case CreateDev => StepCreateDev(w, e, cmd, gpus, r)
    case StartDev => StepStartDev(w, e, gpus, r)
  }

  /** Start, stage by stage; `t` is the task at that stage. */
  function StepInspectDev(w: World, e: EnvId, t: Task, r: Reply): (World, Task)
    requires t.Starting?
  {
    match OnContainer(r, DevName(e) in w.containers)
    case Ok => (w, t.(start := InspectSidecar, devLabels := LabelsOf(w, DevName(e))))
    case Err(text) => (w, Refused(e, "start", "dev container not found: " + text))
  }

  function StepInspectSidecar(w: World, e: EnvId, t: Task, r: Reply): (World, Task)
    requires t.Starting?
  {
    match OnContainer(r, SidecarName(e) in w.containers)
    case Ok => (w, t.(start := ReallocateGpus, sidecarLabels := LabelsOf(w, SidecarName(e))))
    case Err(text) => (w, Refused(e, "start", "sidecar container not found: " + text))
  }

  function StepReallocateGpus(w: World, e: EnvId, t: Task): (World, Task)
    requires t.Starting?
  {
    var count := |GpuLabels.ParseCsv(t.devLabels.gpuIndices)|;
    if count == 0 then (w, t.(start := RemoveOldSidecar, gpus := []))
    else
      match Pick(w.total, w.grants, count)
      case Some(pick) => (w.(grants := w.grants[e := pick]), t.(start := RemoveOldSidecar, gpus := pick))
      case None => (w, Refused(e, "start", Shortage(w, count)))
  }

  function StepRemoveOldSidecar(w: World, e: EnvId, t: Task, r: Reply): (World, Task)
    requires t.Starting?
  {
    match r
    case Ok => (DropContainer(w, SidecarName(e)), t.(start := RecreateSidecar))
    case Err(text) => (w, ReportThenRelease(e, "start", "rm sidecar: " + text))
  }

  function StepRecreateSidecar(w: World, e: EnvId, t: Task, r: Reply): (World, Task)
    requires t.Starting?
  {
    match r
    case Ok => (AddContainer(w, RestartedSidecarSpec(t.startCmd, t.sidecarLabels)), t.(start := RestartSidecar))
    case Err(text) => (w, ReportThenRelease(e, "start", "create sidecar: " + text))
  }

  function StepRestartSidecar(w: World, e: EnvId, t: Task, r: Reply): (World, Task)
    requires t.Starting?
  {
    match OnContainer(r, SidecarName(e) in w.containers)
    case Ok => (StartContainer(w, SidecarName(e)), t.(start := AwaitNewSidecar))
    case Err(text) => (w, DropSidecar(e, "start", "start sidecar: " + text))
  }

  function StepAwaitNewSidecar(w: World, e: EnvId, t: Task, r: Reply): (World, Task)
    requires t.Starting?
  {
    match r
    case Ok => (w, t.(start := RemoveOldDev))
    case Err(text) => (w, UndoSidecar(e, "start", "sidecar health: " + text))
  }

  function StepRemoveOldDev(w: World, e: EnvId, t: Task, r: Reply): (World, Task)
    requires t.Starting?
  {
    match r
    case Ok => (DropContainer(w, DevName(e)), t.(start := RecreateDev))
    case Err(text) => (w, UndoSidecar(e, "start", "rm dev: " + text))
  }

  function StepRecreateDev(w: World, e: EnvId, t: Task, r: Reply): (World, Task)
    requires t.Starting?
  {
    match r
    case Ok => (AddContainer(w, RestartedDevSpec(t.startCmd, t.devLabels, t.gpus)), t.(start := RestartDev))
    case Err(text) => (w, UndoSidecar(e, "start", "create dev: " + text))
  }

  function StepRestartDev(w: World, e: EnvId, t: Task, r: Reply): (World, Task)
    requires t.Starting?
  {
    match OnContainer(r, DevName(e) in w.containers)
    case Ok => (StartContainer(w, DevName(e)), Announcing(ReadyMessage(e, t.gpus)))
    case Err(text) => (w, UndoBoth(e, "start", "start dev: " + text))
  }

  function StepStart(w: World, e: EnvId, t: Task, r: Reply): (World, Task)
    requires t.Starting?
  {
    match t.start
    case InspectDev => StepInspectDev(w, e, t, r)
    case InspectSidecar => StepInspectSidecar(w, e, t, r)
    case ReallocateGpus => StepReallocateGpus(w, e, t)
    case RemoveOldSidecar => StepRemoveOldSidecar(w, e, t, r)
    case RecreateSidecar => StepRecreateSidecar(w, e, t, r)
    case RestartSidecar => StepRestartSidecar(w, e, t, r)
    case AwaitNewSidecar => StepAwaitNewSidecar(w, e, t, r)
    case RemoveOldDev => StepRemoveOldDev(w, e, t, r)
    case RecreateDev => StepRecreateDev(w, e, t, r)
    case RestartDev => StepRestartDev(w, e, t, r)
  }

  function StepIgnored(w: World, e: EnvId, actions: seq<Action>, r: Reply): (World, seq<Action>)
  {
    if actions == [] then (w, []) else (Perform(w, e, actions[0], r), actions[1..])
  }

  /** One step of `e`'s handler, when the call it makes answers `r` (only Docker calls look at `r`). */
  function Step(w: World, e: EnvId, t: Task, r: Reply): (World, Task) {
    match t
    case Creating(stage, cmd, gpus) => StepCreate(w, e, stage, cmd, gpus, r)
    case Starting(_, _, _, _, _) => StepStart(w, e, t, r)
    case Announcing(msg) => (w.(sent := w.sent + [msg]), Done)
    case Aborting(actions) =>
      var (w', rest) := StepIgnored(w, e, actions, r);
      (w', if rest == [] then Done else Aborting(rest))
    case Stopping(actions) =>
      var (w', rest) := StepIgnored(w, e, actions, r);
      (w', if rest == [] then Done else Stopping(rest))
    case Done => (w, Done)
  }

  /** The call made next is one whose answer the code ignores. */
  predicate Ignores(t: Task) {
    (t.Aborting? || t.Stopping?) && t.actions != []
  }

  /** An ignored failure that leaves something behind: the container or volume was there. */
  predicate LeavesBehind(w: World, t: Task, r: Reply) {
    Ignores(t) && r.Err? &&
    match t.actions[0]
    case Stop(n) => n in w.containers
    case Remove(n) => n in w.containers
    case RemoveVolume(v) => v in w.volumes
    case Release => false
    case Send(_) => false
  }

  /* ---- A whole handler run ---- */

  /** A handler run so far: where it began, what its calls answered, where it is,
      which of the calls whose answers are ignored failed and left something behind, and all Docker calls and waits
      of the agent with their answers, those before the run included. */
  datatype Progress = Progress(w0: World, t0: Task, calls0: seq<Called>, waits0: seq<Reply>, replies: seq<Reply>,
                               w: World, t: Task, failed: set<Action>, calls: seq<Called>, waits: seq<Reply>)

  /** The Docker call a task makes next, other than the polls of a wait. */
  function NextCallOf(t: Task, e: EnvId): Option<Call> {
    match t
    case Creating(stage, _, _) =>
      (match stage
       case AllocateGpus => None
       case CreateSidecar => Some(CreateCall(SidecarName(e)))
       case StartSidecar => Some(StartCall(SidecarName(e)))
       case AwaitSidecar => None
       case CreateDev => Some(CreateCall(DevName(e)))
       case StartDev => Some(StartCall(DevName(e))))
    case Starting(stage, _, _, _, _) =>
      (match stage
       case InspectDev => Some(InspectCall(DevName(e)))
       case InspectSidecar => Some(InspectCall(SidecarName(e)))
       case ReallocateGpus => None
       case RemoveOldSidecar => Some(RemoveCall(SidecarName(e)))
       case RecreateSidecar => Some(CreateCall(SidecarName(e)))
       case RestartSidecar => Some(StartCall(SidecarName(e)))
       case AwaitNewSidecar => None
       case RemoveOldDev => Some(RemoveCall(DevName(e)))
       case RecreateDev => Some(CreateCall(DevName(e)))
       case RestartDev => Some(StartCall(DevName(e))))
    case Announcing(_) => None
    case Aborting(acts) => if acts == [] then None else CallOfAction(acts[0])
    case Stopping(acts) => if acts == [] then None else CallOfAction(acts[0])
    case Done => None
  }

  function CallOfAction(a: Action): Option<Call> {
    match a
    case Stop(n) => Some(StopCall(n))
    case Remove(n) => Some(RemoveCall(n))
    case RemoveVolume(v) => Some(RemoveVolumeCall(v))
    case Release => None
    case Send(_) => None
  }

  function CallsAfter(calls: seq<Called>, t: Task, e: EnvId, r: Reply): seq<Called> {
    match NextCallOf(t, e)
    case None => calls
    case Some(call) => calls + [Called(call, r)]
  }

  function WaitsAfter(waits: seq<Reply>, t: Task, r: Reply): seq<Reply> {
    if (t.Creating? && t.create.AwaitSidecar?) || (t.Starting? && t.start.AwaitNewSidecar?) then waits + [r] else waits
  }

  function LeftBehind(w: World, t: Task, r: Reply): set<Action> {
    if LeavesBehind(w, t, r) then {t.actions[0]} else {}
  }

  function Begin(w: World, t: Task): Progress {
    BeginAfter(w, t, [], [])
  }

  /** A run that begins after these calls and waits. */
  function BeginAfter(w: World, t: Task, calls: seq<Called>, waits: seq<Reply>): Progress {
    Progress(w, t, calls, waits, [], w, t, {}, calls, waits)
  }

  function Tick(p: Progress, e: EnvId, r: Reply): Progress {
    var (w, t) := Step(p.w, e, p.t, r);
    Progress(p.w0, p.t0, p.calls0, p.waits0, p.replies + [r], w, t, p.failed + LeftBehind(p.w, p.t, r),
             CallsAfter(p.calls, p.t, e, r), WaitsAfter(p.waits, p.t, r))
  }

  function Run(w: World, e: EnvId, t: Task, replies: seq<Reply>): (p: Progress)
    ensures p.w0 == w && p.t0 == t
  {
    if replies == [] then Begin(w, t)
    else Tick(Run(w, e, t, replies[..|replies| - 1]), e, replies[|replies| - 1])
  }

  lemma RunLast(w: World, e: EnvId, t: Task, front: seq<Reply>, r: Reply)
    ensures Run(w, e, t, front + [r]) == Tick(Run(w, e, t, front), e, r)
  {
    assert (front + [r])[..|front|] == front;
  }

  /** The states of a run, each one step after the one before. */
  ghost predicate AreStates(states: seq<Progress>, p: Progress, e: EnvId) {
    && |states| == |p.replies| + 1
    && states[0] == BeginAfter(p.w0, p.t0, p.calls0, p.waits0) && states[|p.replies|] == p
    && forall i {:trigger p.replies[i]} :: 0 <= i < |p.replies| ==> states[i + 1] == Tick(states[i], e, p.replies[i])
  }

  ghost predicate IsRun(p: Progress, e: EnvId) {
    exists states :: AreStates(states, p, e)
  }

  lemma BeginIsRun(w: World, t: Task, calls: seq<Called>, waits: seq<Reply>, e: EnvId)
    ensures IsRun(BeginAfter(w, t, calls, waits), e)
  {
    var p := BeginAfter(w, t, calls, waits);
    assert AreStates([p], p, e);
  }

  /** The run one step further. */
  ghost function Advance(p: Progress, e: EnvId, r: Reply): (q: Progress)
    requires IsRun(p, e)
    ensures IsRun(q, e) && q == Tick(p, e, r)
  {
    TickIsRun(p, e, r);
    Tick(p, e, r)
  }

  lemma TickIsRun(p: Progress, e: EnvId, r: Reply)
    requires IsRun(p, e)
    ensures IsRun(Tick(p, e, r), e)
  {
    var q := Tick(p, e, r);
    var states :| AreStates(states, p, e);
    forall i | 0 <= i < |q.replies|
      ensures (states + [q])[i + 1] == Tick((states + [q])[i], e, q.replies[i])
    {
      if i < |p.replies| {
        assert q.replies[i] == p.replies[i];
      }
    }
    assert AreStates(states + [q], q, e);
  }

  /** The same run, seen with and without what was called before it. */
  predicate SameRun(p: Progress, q: Progress) {
    && p.w == q.w && p.t == q.t && p.failed == q.failed
    && p.calls == p.calls0 + q.calls && p.waits == p.waits0 + q.waits
  }

  lemma TickSame(p: Progress, q: Progress, e: EnvId, r: Reply)
    requires SameRun(p, q)
    ensures SameRun(Tick(p, e, r), Tick(q, e, r))
  {
    assert CallsAfter(p.calls0 + q.calls, p.t, e, r) == p.calls0 + CallsAfter(q.calls, p.t, e, r);
    assert WaitsAfter(p.waits0 + q.waits, p.t, r) == p.waits0 + WaitsAfter(q.waits, p.t, r);
  }

  /** A run is what its answers make of its beginning. */
  lemma RunIs(p: Progress, e: EnvId)
    requires IsRun(p, e)
    ensures SameRun(p, Run(p.w0, e, p.t0, p.replies))
  {
    var states :| AreStates(states, p, e);
    StateIs(states, p, e, |p.replies|);
    assert p.replies[..|p.replies|] == p.replies;
  }

  lemma StatesBegin(states: seq<Progress>, p: Progress, e: EnvId)
    requires AreStates(states, p, e)
    ensures SameRun(states[0], Run(p.w0, e, p.t0, p.replies[..0]))
    ensures states[0].calls0 == p.calls0 && states[0].waits0 == p.waits0
  {
    assert p.replies[..0] == [];
  }

  lemma StatesNext(states: seq<Progress>, p: Progress, e: EnvId, n: nat)
    requires AreStates(states, p, e) && n < |p.replies|
    requires SameRun(states[n], Run(p.w0, e, p.t0, p.replies[..n]))
    requires states[n].calls0 == p.calls0 && states[n].waits0 == p.waits0
    ensures SameRun(states[n + 1], Run(p.w0, e, p.t0, p.replies[..n + 1]))
    ensures states[n + 1].calls0 == p.calls0 && states[n + 1].waits0 == p.waits0
  {
    var r := p.replies[n];
    assert p.replies[..n + 1] == p.replies[..n] + [r];
    RunLast(p.w0, e, p.t0, p.replies[..n], r);
    TickSame(states[n], Run(p.w0, e, p.t0, p.replies[..n]), e, r);
  }

  lemma {:induction false} StateIs(states: seq<Progress>, p: Progress, e: EnvId, n: nat)
    requires AreStates(states, p, e) && n <= |p.replies|
    ensures SameRun(states[n], Run(p.w0, e, p.t0, p.replies[..n]))
    ensures states[n].calls0 == p.calls0 && states[n].waits0 == p.waits0
  {
    if n == 0 {
      StatesBegin(states, p, e);
    } else {
      StateIs(states, p, e, n - 1);
      StatesNext(states, p, e, n - 1);
    }
  }

  /* ---- What a finished handler leaves ---- */

  predicate DevRuns(w: World, e: EnvId) {
    DevName(e) in w.containers && w.containers[DevName(e)].state.Running?
  }

  predicate SidecarRuns(w: World, e: EnvId) {
    SidecarName(e) in w.containers && w.containers[SidecarName(e)].state.Running?
  }

  /** Nothing on this node knows the environment yet. */
  predicate Unknown(w: World, e: EnvId) {
    e !in w.grants && SidecarName(e) !in w.containers && DevName(e) !in w.containers
  }

  /** The environment holds nothing and its dev container does not run; a sidecar that could not be stopped may. */
  predicate Idle(w: World, e: EnvId) {
    e !in w.grants && !DevRuns(w, e)
  }

  /** Exactly one message more: an EnvError for `e`. */
  predicate ReportsError(w0: World, w: World, e: EnvId) {
    |w.sent| == |w0.sent| + 1 && w0.sent <= w.sent && w.sent[|w0.sent|].EnvError? && w.sent[|w0.sent|].envId == e
  }

  /** The two worlds are the same as far as `e`'s containers and grant go. */
  predicate Agree(v: World, w: World, e: EnvId) {
    && Lookup(v.containers, SidecarName(e)) == Lookup(w.containers, SidecarName(e))
    && Lookup(v.containers, DevName(e)) == Lookup(w.containers, DevName(e))
    && Lookup(v.grants, e) == Lookup(w.grants, e)
  }

  /** Only `e`'s two containers and `e`'s grant may differ. */
  ghost predicate TouchesOnly(w0: World, w: World, e: EnvId) {
    && w.total == w0.total
    && (forall n :: n != SidecarName(e) && n != DevName(e) ==> Lookup(w.containers, n) == Lookup(w0.containers, n))
    && (forall f :: f != e ==> Lookup(w.grants, f) == Lookup(w0.grants, f))
  }

  /** Create succeeded: both containers run, and what is granted, attached and reported is one list. */
  predicate CreateDone(w0: World, w: World, cmd: CreateEnv) {
    var e := cmd.envId;
    match Pick(w0.total, w0.grants, cmd.gpuRequest)
    case None => false
    case Some(gpus) =>
      w == w0.(containers := w0.containers[SidecarName(e) := Container(SidecarSpec(cmd), Running)]
                                          [DevName(e) := Container(DevSpec(cmd, gpus), Running)],
               grants := w0.grants[e := gpus],
               sent := w0.sent + [ReadyMessage(e, gpus)])
  }

  /** Create failed: one error, no grant, dev not running, and beside the containers there were before exactly
      those whose removal failed. */
  ghost predicate CreateFailed(w0: World, w: World, e: EnvId, failed: set<Action>) {
    && ReportsError(w0, w, e)
    && TouchesOnly(w0, w, e)
    && w.grants == w0.grants && w.volumes == w0.volumes
    && !DevRuns(w, e)
    && (forall n :: n in w.containers <==> n in w0.containers || Remove(n) in failed)
  }

  /** The GPUs a restart attaches: as many as the label lists, newly picked. */
  function RestartGpus(w0: World, e: EnvId): Option<seq<int>>
    requires DevName(e) in w0.containers
  {
    Pick(w0.total, w0.grants, |GpuLabels.ParseCsv(w0.containers[DevName(e)].spec.labels.gpuIndices)|)
  }

  predicate StartDone(w0: World, w: World, cmd: StartEnv) {
    var e := cmd.envId;
    DevName(e) in w0.containers && SidecarName(e) in w0.containers &&
    match RestartGpus(w0, e)
    case None => false
    case Some(gpus) =>
      var sidecar := RestartedSidecarSpec(cmd, w0.containers[SidecarName(e)].spec.labels);
      var dev := RestartedDevSpec(cmd, w0.containers[DevName(e)].spec.labels, gpus);
      w == w0.(containers := w0.containers[SidecarName(e) := Container(sidecar, Running)]
                                          [DevName(e) := Container(dev, Running)],
               grants := if gpus == [] then w0.grants else w0.grants[e := gpus],
               sent := w0.sent + [ReadyMessage(e, gpus)])
  }

  /** Start failed: one error, no grant, dev not running. The sidecar runs exactly if it ran before and nothing was
      changed, or if both clean-up calls for the new one failed. */
  ghost predicate StartFailed(w0: World, w: World, e: EnvId, failed: set<Action>) {
    && ReportsError(w0, w, e)
    && TouchesOnly(w0, w, e)
    && w.grants == w0.grants && w.volumes == w0.volumes
    && !DevRuns(w, e)
    && (SidecarRuns(w, e) <==>
          || (SidecarRuns(w0, e) && w.containers == w0.containers)
          || (Stop(SidecarName(e)) in failed && Remove(SidecarName(e)) in failed))
  }
}

/** What a handler that ran to its end leaves behind, whatever its calls answered. */
module HandlerOutcomes {
  import opened Wrappers
  import opened AgentProtocol
  import opened Docker
  import opened GpuAllocator
  import opened HandlerSteps

  /** A change that touches only `e` is not seen by others. */
  lemma OthersUntouched(w0: World, w: World, e: EnvId, f: EnvId)
    requires TouchesOnly(w0, w, e) && f != e
    ensures Agree(w, w0, f)
  {
    NamesDiffer(f, e);
    NamesDiffer(e, f);
  }

  /* ---- The straight-line tail of an error exit ---- */

  function Sends(acts: seq<Action>): nat {
    if acts == [] then 0 else (if acts[0].Send? then 1 else 0) + Sends(acts[1..])
  }

  /** An error exit of `e` stops or removes only `e`'s containers and reports only `e`'s error. */
  predicate AbortAction(a: Action, e: EnvId) {
    match a
    case Stop(n) => n == SidecarName(e) || n == DevName(e)
    case Remove(n) => n == SidecarName(e) || n == DevName(e)
    case RemoveVolume(_) => false
    case Release => true
    case Send(m) => m.EnvError? && m.envId == e
  }

  /** In an exit every call comes once, and a container is stopped before it is removed. */
  predicate WellOrdered(acts: seq<Action>) {
    && (forall i, j :: 0 <= i < j < |acts| ==> acts[i] != acts[j])
    && (forall i, j :: 0 <= i < j < |acts| && acts[i].Remove? ==> acts[j] != Stop(acts[i].name))
  }

  ghost predicate AbortInv(w0: World, w: World, e: EnvId, acts: seq<Action>) {
    && (forall a :: a in acts ==> AbortAction(a, e))
    && WellOrdered(acts)
    && TouchesOnly(w0, w, e) && w.volumes == w0.volumes
    && !DevRuns(w, e)
    && (if Sends(acts) == 0 then ReportsError(w0, w, e) else Sends(acts) == 1 && w.sent == w0.sent)
    && w.grants - {e} == w0.grants
    && (Release in acts || w.grants == w0.grants)
  }

  lemma TailMembers(acts: seq<Action>)
    requires acts != []
    ensures forall a :: a in acts <==> a == acts[0] || a in acts[1..]
  {
    assert acts == [acts[0]] + acts[1..];
  }

  /** What the order of an exit's calls says about its first one. */
  lemma OrderedTail(acts: seq<Action>)
    requires acts != [] && WellOrdered(acts)
    ensures WellOrdered(acts[1..]) && acts[0] !in acts[1..]
    ensures acts[0].Remove? ==> Stop(acts[0].name) !in acts[1..]
  {
    var rest := acts[1..];
    assert forall k :: 0 <= k < |rest| ==> rest[k] == acts[k + 1];
  }

  lemma AbortStep(w0: World, w: World, e: EnvId, acts: seq<Action>, r: Reply)
    requires acts != [] && AbortInv(w0, w, e, acts)
    ensures AbortInv(w0, Perform(w, e, acts[0], r), e, acts[1..])
  {
    TailMembers(acts);
    OrderedTail(acts);
    NamesDiffer(e, e);
    assert AbortAction(acts[0], e);
    match acts[0]
    case Stop(n) =>
    case Remove(n) =>
    case Release =>
      assert w.grants - {e} - {e} == w.grants - {e};
    case Send(m) =>
      assert Sends(acts) == 1 + Sends(acts[1..]);
  }

  /* ---- Create ---- */

  /** The containers while Create is at a stage. */
  function CreateContainers(w0: World, cmd: CreateEnv, gpus: seq<int>, stage: CreateStage): Containers {
    var sc, dev := SidecarName(cmd.envId), DevName(cmd.envId);
    match stage
    case AllocateGpus => w0.containers
    case CreateSidecar => w0.containers
    case StartSidecar => w0.containers[sc := Container(SidecarSpec(cmd), Created)]
    case AwaitSidecar => w0.containers[sc := Container(SidecarSpec(cmd), Running)]
    case CreateDev => w0.containers[sc := Container(SidecarSpec(cmd), Running)]
    case StartDev =>
      w0.containers[sc := Container(SidecarSpec(cmd), Running)][dev := Container(DevSpec(cmd, gpus), Created)]
  }

  /** Of the containers with a name of `e`, those are there whose removal is still to come or has failed. */
  ghost predicate Clears(w: World, e: EnvId, acts: seq<Action>, failed: set<Action>) {
    && (forall n :: n in {SidecarName(e), DevName(e)} ==>
          (n in w.containers <==> Remove(n) in acts || Remove(n) in failed))
    && (forall n :: Remove(n) in failed ==> n in {SidecarName(e), DevName(e)} && Remove(n) !in acts)
  }

  ghost predicate CreateStageInv(w0: World, w: World, cmd: CreateEnv, gpus: seq<int>, stage: CreateStage) {
    if stage.AllocateGpus? then w == w0
    else
      && Pick(w0.total, w0.grants, cmd.gpuRequest) == Some(gpus)
      && w == w0.(grants := w0.grants[cmd.envId := gpus], containers := CreateContainers(w0, cmd, gpus, stage))
  }

  ghost predicate CreateInv(p: Progress, cmd: CreateEnv) {
    var e := cmd.envId;
    match p.t
    case Creating(stage, c, gpus) => c == cmd && p.failed == {} && CreateStageInv(p.w0, p.w, cmd, gpus, stage)
    case Announcing(msg) => p.failed == {} && CreateDone(p.w0, p.w.(sent := p.w.sent + [msg]), cmd)
    case Aborting(acts) => acts != [] && AbortInv(p.w0, p.w, e, acts) && Clears(p.w, e, acts, p.failed)
    case Done => CreateDone(p.w0, p.w, cmd) || CreateFailed(p.w0, p.w, e, p.failed)
    case _ => false
  }

  ghost predicate IsExit(t: Task, e: EnvId) {
    t.Aborting? && t.actions != [] && Sends(t.actions) == 1 && WellOrdered(t.actions)
    && forall a :: a in t.actions ==> AbortAction(a, e)
  }

  lemma AbortBegins(w0: World, w: World, e: EnvId, t: Task)
    requires TouchesOnly(w0, w, e) && w.volumes == w0.volumes && w.sent == w0.sent
    requires IsExit(t, e) && !DevRuns(w, e)
    requires w.grants - {e} == w0.grants && (w.grants == w0.grants || Release in t.actions)
    ensures AbortInv(w0, w, e, t.actions)
  {
  }

  /* The steps of an error exit. */

  lemma LastExitStep(w: World, e: EnvId, a: Action, r: Reply)
    ensures Step(w, e, Aborting([a]), r) == (Perform(w, e, a, r), Done)
  {
    assert [a][1..] == [];
  }

  lemma ExitStep(w: World, e: EnvId, a: Action, b: Action, r: Reply)
    ensures Step(w, e, Aborting([a, b]), r) == (Perform(w, e, a, r), Aborting([b]))
  {
    assert [a, b][1..] == [b];
  }

  /* The steps of Stop and Delete. */

  lemma LineStep(w: World, e: EnvId, acts: seq<Action>, r: Reply)
    requires acts != []
    ensures Step(w, e, Stopping(acts), r) ==
      (Perform(w, e, acts[0], r), if |acts| == 1 then Done else Stopping(acts[1..]))
  {
  }

  /* The action lists of the error exits. */

  lemma SendsOne(a: Action)
    ensures Sends([a]) == if a.Send? then 1 else 0
  {
    assert [a][1..] == [];
    assert Sends([]) == 0;
  }

  lemma SendsMore(a: Action, acts: seq<Action>)
    ensures Sends([a] + acts) == (if a.Send? then 1 else 0) + Sends(acts)
  {
    assert ([a] + acts)[1..] == acts;
  }

  /** One more call in front of an exit. */
  lemma LongerExit(e: EnvId, a: Action, acts: seq<Action>)
    requires IsExit(Aborting(acts), e) && AbortAction(a, e) && !a.Send?
    requires a !in acts && (a.Remove? ==> Stop(a.name) !in acts)
    ensures IsExit(Aborting([a] + acts), e)
    ensures forall b :: b in [a] + acts <==> b == a || b in acts
  {
    SendsMore(a, acts);
  }

  lemma RefusedIsExit(e: EnvId, stage: string, detail: string)
    ensures IsExit(Refused(e, stage, detail), e)
    ensures forall b :: b in Refused(e, stage, detail).actions <==> b == Report(e, stage, detail)
  {
    SendsOne(Report(e, stage, detail));
  }

  lemma ReleaseThenReportIsExit(e: EnvId, stage: string, detail: string)
    ensures IsExit(ReleaseThenReport(e, stage, detail), e)
    ensures forall b :: b in ReleaseThenReport(e, stage, detail).actions <==> b in {Release, Report(e, stage, detail)}
  {
    var acts := Refused(e, stage, detail).actions;
    RefusedIsExit(e, stage, detail);
    LongerExit(e, Release, acts);
    assert ReleaseThenReport(e, stage, detail).actions == [Release] + acts;
  }

  lemma ReportThenReleaseIsExit(e: EnvId, stage: string, detail: string)
    ensures IsExit(ReportThenRelease(e, stage, detail), e)
    ensures forall b :: b in ReportThenRelease(e, stage, detail).actions <==> b in {Release, Report(e, stage, detail)}
  {
    var r := Report(e, stage, detail);
    SendsOne(Release);
    SendsMore(r, [Release]);
    assert ReportThenRelease(e, stage, detail).actions == [r] + [Release];
  }

  lemma DropSidecarIsExit(e: EnvId, stage: string, detail: string)
    ensures IsExit(DropSidecar(e, stage, detail), e)
    ensures forall b :: b in DropSidecar(e, stage, detail).actions <==>
      b in {Remove(SidecarName(e)), Release, Report(e, stage, detail)}
  {
    var acts := ReleaseThenReport(e, stage, detail).actions;
    ReleaseThenReportIsExit(e, stage, detail);
    LongerExit(e, Remove(SidecarName(e)), acts);
    assert DropSidecar(e, stage, detail).actions == [Remove(SidecarName(e))] + acts;
  }

  lemma UndoSidecarIsExit(e: EnvId, stage: string, detail: string)
    ensures IsExit(UndoSidecar(e, stage, detail), e)
    ensures forall b :: b in UndoSidecar(e, stage, detail).actions <==>
      b in {Stop(SidecarName(e)), Remove(SidecarName(e)), Release, Report(e, stage, detail)}
  {
    var acts := DropSidecar(e, stage, detail).actions;
    DropSidecarIsExit(e, stage, detail);
    LongerExit(e, Stop(SidecarName(e)), acts);
    assert UndoSidecar(e, stage, detail).actions == [Stop(SidecarName(e))] + acts;
  }

  lemma UndoBothIsExit(e: EnvId, stage: string, detail: string)
    ensures IsExit(UndoBoth(e, stage, detail), e)
    ensures forall b :: b in UndoBoth(e, stage, detail).actions <==>
      b in {Remove(DevName(e)), Stop(SidecarName(e)), Remove(SidecarName(e)), Release, Report(e, stage, detail)}
  {
    var acts := UndoSidecar(e, stage, detail).actions;
    NamesDiffer(e, e);
    UndoSidecarIsExit(e, stage, detail);
    LongerExit(e, Remove(DevName(e)), acts);
    assert UndoBoth(e, stage, detail).actions == [Remove(DevName(e))] + acts;
  }

  /** Which clean-up calls an exit makes. */
  ghost predicate Undoes(t: Task, e: EnvId, release: bool, sidecar: bool, stop: bool, dev: bool) {
    && IsExit(t, e)
    && (Release in t.actions <==> release)
    && (Remove(SidecarName(e)) in t.actions <==> sidecar)
    && (Stop(SidecarName(e)) in t.actions <==> stop)
    && (Remove(DevName(e)) in t.actions <==> dev)
  }

  lemma ShortExits(e: EnvId, stage: string, detail: string)
    ensures Undoes(Refused(e, stage, detail), e, false, false, false, false)
    ensures Undoes(ReleaseThenReport(e, stage, detail), e, true, false, false, false)
    ensures Undoes(ReportThenRelease(e, stage, detail), e, true, false, false, false)
  {
    RefusedIsExit(e, stage, detail);
    ReleaseThenReportIsExit(e, stage, detail);
    ReportThenReleaseIsExit(e, stage, detail);
  }

  lemma SidecarExits(e: EnvId, stage: string, detail: string)
    ensures Undoes(DropSidecar(e, stage, detail), e, true, true, false, false)
    ensures Undoes(UndoSidecar(e, stage, detail), e, true, true, true, false)
  {
    NamesDiffer(e, e);
    DropSidecarIsExit(e, stage, detail);
    UndoSidecarIsExit(e, stage, detail);
  }

  lemma BothExit(e: EnvId, stage: string, detail: string)
    ensures Undoes(UndoBoth(e, stage, detail), e, true, true, true, true)
  {
    NamesDiffer(e, e);
    UndoBothIsExit(e, stage, detail);
  }

  lemma EarlyCreateExits(w: World, e: EnvId, t: Task, r: Reply)
    requires t.Creating? && Step(w, e, t, r).1.Aborting? && (t.create.AllocateGpus? || t.create.CreateSidecar?)
    ensures var (w', t') := Step(w, e, t, r); w' == w && Undoes(t', e, t.create.CreateSidecar?, false, false, false)
  {
    var acts := Step(w, e, t, r).1.actions;
    ShortExits(e, acts[|acts| - 1].msg.stage, acts[|acts| - 1].msg.detail);
  }

  lemma SidecarCreateExits(w: World, e: EnvId, t: Task, r: Reply)
    requires t.Creating? && Step(w, e, t, r).1.Aborting?
    requires t.create.StartSidecar? || t.create.AwaitSidecar? || t.create.CreateDev?
    ensures var (w', t') := Step(w, e, t, r); w' == w && Undoes(t', e, true, true, !t.create.StartSidecar?, false)
  {
    var acts := Step(w, e, t, r).1.actions;
    SidecarExits(e, acts[|acts| - 1].msg.stage, acts[|acts| - 1].msg.detail);
  }

  lemma DevCreateExits(w: World, e: EnvId, t: Task, r: Reply)
    requires t.Creating? && Step(w, e, t, r).1.Aborting? && t.create.StartDev?
    ensures var (w', t') := Step(w, e, t, r); w' == w && Undoes(t', e, true, true, true, true)
  {
    var acts := Step(w, e, t, r).1.actions;
    BothExit(e, acts[|acts| - 1].msg.stage, acts[|acts| - 1].msg.detail);
  }

  predicate SidecarCreated(stage: CreateStage) {
    stage.StartSidecar? || stage.AwaitSidecar? || stage.CreateDev? || stage.StartDev?
  }

  /** Where Create takes an error exit nothing has changed in that step, and the exit undoes exactly what the
      stages before built. */
  lemma CreateExits(w: World, e: EnvId, t: Task, r: Reply)
    requires t.Creating? && Step(w, e, t, r).1.Aborting?
    ensures var (w', t') := Step(w, e, t, r);
      && w' == w
      && Undoes(t', e, !t.create.AllocateGpus?, SidecarCreated(t.create),
                SidecarCreated(t.create) && !t.create.StartSidecar?, t.create.StartDev?)
  {
    if t.create.AllocateGpus? || t.create.CreateSidecar? {
      EarlyCreateExits(w, e, t, r);
    } else if t.create.StartDev? {
      DevCreateExits(w, e, t, r);
    } else {
      SidecarCreateExits(w, e, t, r);
    }
  }

  lemma CreateStepForward(p: Progress, cmd: CreateEnv, r: Reply)
    requires Unknown(p.w0, cmd.envId) && CreateInv(p, cmd) && p.t.Creating?
    requires !Tick(p, cmd.envId, r).t.Aborting?
    ensures CreateInv(Tick(p, cmd.envId, r), cmd)
  {
    var w0, w, gpus := p.w0, p.w, p.t.gpus;
    var q := Tick(p, cmd.envId, r);
    match p.t.create
    case AllocateGpus =>
    case CreateSidecar =>
    case StartSidecar =>
      CreateThenStart(w0.containers, SidecarSpec(cmd));
      assert q.w.containers == CreateContainers(w0, cmd, gpus, AwaitSidecar);
    case AwaitSidecar =>
    case CreateDev =>
    case StartDev =>
      CreateThenStart(CreateContainers(w0, cmd, gpus, CreateDev), DevSpec(cmd, gpus));
      assert q.w.containers ==
        CreateContainers(w0, cmd, gpus, CreateDev)[DevName(cmd.envId) := Container(DevSpec(cmd, gpus), Running)];
  }

  lemma CreateStageTouches(w0: World, w: World, cmd: CreateEnv, gpus: seq<int>, stage: CreateStage)
    requires Unknown(w0, cmd.envId) && CreateStageInv(w0, w, cmd, gpus, stage)
    ensures TouchesOnly(w0, w, cmd.envId) && w.volumes == w0.volumes && w.sent == w0.sent
    ensures w.grants - {cmd.envId} == w0.grants && !DevRuns(w, cmd.envId)
    ensures SidecarName(cmd.envId) in w.containers <==> SidecarCreated(stage)
    ensures DevName(cmd.envId) in w.containers <==> stage.StartDev?
  {
    NamesDiffer(cmd.envId, cmd.envId);
  }

  lemma CreateStepBack(p: Progress, cmd: CreateEnv, r: Reply)
    requires Unknown(p.w0, cmd.envId) && CreateInv(p, cmd) && p.t.Creating?
    requires Tick(p, cmd.envId, r).t.Aborting?
    ensures CreateInv(Tick(p, cmd.envId, r), cmd)
  {
    CreateExits(p.w, cmd.envId, p.t, r);
    CreateStageTouches(p.w0, p.w, cmd, p.t.gpus, p.t.create);
    AbortBegins(p.w0, p.w, cmd.envId, Tick(p, cmd.envId, r).t);
  }

  lemma ClearsStep(w: World, e: EnvId, acts: seq<Action>, failed: set<Action>, r: Reply)
    requires acts != [] && WellOrdered(acts) && AbortAction(acts[0], e) && Clears(w, e, acts, failed)
    ensures Clears(Perform(w, e, acts[0], r), e, acts[1..], failed + LeftBehind(w, Aborting(acts), r))
  {
    NamesDiffer(e, e);
    TailMembers(acts);
    OrderedTail(acts);
  }

  lemma CreateAbortStep(p: Progress, cmd: CreateEnv, r: Reply)
    requires Unknown(p.w0, cmd.envId) && CreateInv(p, cmd) && p.t.Aborting?
    ensures CreateInv(Tick(p, cmd.envId, r), cmd)
  {
    var e, q, acts := cmd.envId, Tick(p, cmd.envId, r), p.t.actions;
    assert AbortAction(acts[0], e);
    AbortStep(p.w0, p.w, e, acts, r);
    ClearsStep(p.w, e, acts, p.failed, r);
    if acts[1..] == [] {
      AllCleared(p.w0, q.w, e, q.failed);
    }
  }

  lemma AllCleared(w0: World, w: World, e: EnvId, failed: set<Action>)
    requires Unknown(w0, e) && TouchesOnly(w0, w, e) && Clears(w, e, [], failed)
    ensures forall n :: n in w.containers <==> n in w0.containers || Remove(n) in failed
  {
    forall n ensures n in w.containers <==> n in w0.containers || Remove(n) in failed {
      assert n !in {SidecarName(e), DevName(e)} ==> Lookup(w.containers, n) == Lookup(w0.containers, n);
    }
  }

  lemma {:induction false} CreateRunInv(w: World, cmd: CreateEnv, replies: seq<Reply>)
    requires Unknown(w, cmd.envId)
    ensures var p := Run(w, cmd.envId, CreateTask(cmd), replies); CreateInv(p, cmd) && p.w0 == w
  {
    if replies != [] {
      CreateRunInv(w, cmd, replies[..|replies| - 1]);
      var p, r := Run(w, cmd.envId, CreateTask(cmd), replies[..|replies| - 1]), replies[|replies| - 1];
      match p.t
      case Creating(_, _, _) =>
        if Tick(p, cmd.envId, r).t.Aborting? { CreateStepBack(p, cmd, r); } else { CreateStepForward(p, cmd, r); }
      case Aborting(_) => CreateAbortStep(p, cmd, r);
      case _ =>
    }
  }

  /** Create is all or nothing: on an unknown env every finished run reports exactly one message, which is EnvReady
      with both containers running and one list granted, attached and reported, or an EnvError with nothing left
      but the containers whose removal failed. */
  lemma CreateAllOrNothing(w: World, cmd: CreateEnv, replies: seq<Reply>)
    requires Unknown(w, cmd.envId)
    requires Run(w, cmd.envId, CreateTask(cmd), replies).t == Done
    ensures var p := Run(w, cmd.envId, CreateTask(cmd), replies);
      CreateDone(w, p.w, cmd) || CreateFailed(w, p.w, cmd.envId, p.failed)
  {
    CreateRunInv(w, cmd, replies);
  }

  /* ---- Start ---- */

  /** The containers once the new sidecar runs. */
  function WithNewSidecar(w0: World, cmd: StartEnv): Containers
    requires SidecarName(cmd.envId) in w0.containers
  {
    var sc := SidecarName(cmd.envId);
    w0.containers[sc := Container(RestartedSidecarSpec(cmd, w0.containers[sc].spec.labels), Running)]
  }

  function StartContainers(w0: World, cmd: StartEnv, gpus: seq<int>, stage: StartStage): Containers
    requires SidecarName(cmd.envId) in w0.containers && DevName(cmd.envId) in w0.containers
  {
    var sc, dev := SidecarName(cmd.envId), DevName(cmd.envId);
    match stage
    case InspectDev => w0.containers
    case InspectSidecar => w0.containers
    case ReallocateGpus => w0.containers
    case RemoveOldSidecar => w0.containers
    case RecreateSidecar => w0.containers - {sc}
    case RestartSidecar =>
      w0.containers[sc := Container(RestartedSidecarSpec(cmd, w0.containers[sc].spec.labels), Created)]
    case AwaitNewSidecar => WithNewSidecar(w0, cmd)
    case RemoveOldDev => WithNewSidecar(w0, cmd)
    case RecreateDev => WithNewSidecar(w0, cmd) - {dev}
    case RestartDev =>
      WithNewSidecar(w0, cmd)[dev := Container(RestartedDevSpec(cmd, w0.containers[dev].spec.labels, gpus), Created)]
  }

  predicate Reallocated(stage: StartStage) {
    !stage.InspectDev? && !stage.InspectSidecar? && !stage.ReallocateGpus?
  }

  ghost predicate StartStageInv(w0: World, w: World, t: Task, cmd: StartEnv)
    requires t.Starting?
  {
    var e := cmd.envId;
    && t.startCmd == cmd
    && (!t.start.InspectDev? ==> DevName(e) in w0.containers && t.devLabels == w0.containers[DevName(e)].spec.labels)
    && (!t.start.InspectDev? && !t.start.InspectSidecar? ==>
          SidecarName(e) in w0.containers && t.sidecarLabels == w0.containers[SidecarName(e)].spec.labels)
    && if Reallocated(t.start) then
         && RestartGpus(w0, e) == Some(t.gpus)
         && w == w0.(grants := if t.gpus == [] then w0.grants else w0.grants[e := t.gpus],
                     containers := StartContainers(w0, cmd, t.gpus, t.start))
       else w == w0
  }

  /** While Start backs out: nothing was changed, or it is known from the calls to come and those that failed whether
      the new sidecar runs. */
  ghost predicate SidecarInv(w0: World, w: World, e: EnvId, acts: seq<Action>, failed: set<Action>) {
    var stop, remove := Stop(SidecarName(e)), Remove(SidecarName(e));
    || (w.containers == w0.containers && failed == {} && forall n :: Stop(n) !in acts && Remove(n) !in acts)
    || (&& (stop in acts ==> remove in acts && stop !in failed)
        && (remove in acts ==> remove !in failed)
        && (SidecarRuns(w, e) <==> (stop in acts || stop in failed) && (remove in acts || remove in failed)))
  }

  ghost predicate StartInv(p: Progress, cmd: StartEnv) {
    var e := cmd.envId;
    match p.t
    case Starting(_, _, _, _, _) => p.failed == {} && StartStageInv(p.w0, p.w, p.t, cmd)
    case Announcing(msg) => p.failed == {} && StartDone(p.w0, p.w.(sent := p.w.sent + [msg]), cmd)
    case Aborting(acts) => acts != [] && AbortInv(p.w0, p.w, e, acts) && SidecarInv(p.w0, p.w, e, acts, p.failed)
    case Done => StartDone(p.w0, p.w, cmd) || StartFailed(p.w0, p.w, e, p.failed)
    case _ => false
  }

  lemma StartContainersTouch(w0: World, cmd: StartEnv, gpus: seq<int>, stage: StartStage)
    requires SidecarName(cmd.envId) in w0.containers && DevName(cmd.envId) in w0.containers && Idle(w0, cmd.envId)
    ensures var w := w0.(containers := StartContainers(w0, cmd, gpus, stage));
      && TouchesOnly(w0, w, cmd.envId) && !DevRuns(w, cmd.envId)
      && (Reallocated(stage) && !stage.RemoveOldSidecar? ==>
            (SidecarRuns(w, cmd.envId) <==> stage.AwaitNewSidecar? || DevStage(stage)))
  {
    NamesDiffer(cmd.envId, cmd.envId);
  }

  lemma StartStageTouches(w0: World, w: World, t: Task, cmd: StartEnv)
    requires t.Starting? && Idle(w0, cmd.envId) && StartStageInv(w0, w, t, cmd)
    ensures TouchesOnly(w0, w, cmd.envId) && w.volumes == w0.volumes && w.sent == w0.sent
    ensures w.grants - {cmd.envId} == w0.grants && !DevRuns(w, cmd.envId)
    ensures !Reallocated(t.start) ==> w.grants == w0.grants
    ensures if !Reallocated(t.start) || t.start.RemoveOldSidecar? then w.containers == w0.containers
            else SidecarRuns(w, cmd.envId) <==> t.start.AwaitNewSidecar? || DevStage(t.start)
  {
    if Reallocated(t.start) {
      StartContainersTouch(w0, cmd, t.gpus, t.start);
    }
  }

  predicate SidecarStage(stage: StartStage) {
    stage.RemoveOldSidecar? || stage.RecreateSidecar? || stage.RestartSidecar? || stage.AwaitNewSidecar?
  }

  predicate DevStage(stage: StartStage) {
    stage.RemoveOldDev? || stage.RecreateDev? || stage.RestartDev?
  }

  lemma InspectExits(w: World, e: EnvId, t: Task, r: Reply)
    requires t.Starting? && Step(w, e, t, r).1.Aborting? && (t.start.InspectDev? || t.start.InspectSidecar?)
    ensures var (w', t') := Step(w, e, t, r); w' == w && t' == Refused(e, "start", t'.actions[0].msg.detail)
  {
  }

  lemma ReallocateExits(w: World, e: EnvId, t: Task, r: Reply)
    requires t.Starting? && Step(w, e, t, r).1.Aborting? && t.start.ReallocateGpus?
    ensures var (w', t') := Step(w, e, t, r); w' == w && t' == Refused(e, "start", t'.actions[0].msg.detail)
  {
  }

  lemma RefusedUndoesNothing(e: EnvId, stage: string, detail: string)
    ensures var t := Refused(e, stage, detail);
      Undoes(t, e, false, false, false, false) && forall n :: Stop(n) !in t.actions && Remove(n) !in t.actions
  {
    RefusedIsExit(e, stage, detail);
  }

  lemma EarlyStartExits(w: World, e: EnvId, t: Task, r: Reply)
    requires t.Starting? && Step(w, e, t, r).1.Aborting? && !DevStage(t.start) && !SidecarStage(t.start)
    ensures var (w', t') := Step(w, e, t, r);
      && w' == w && Undoes(t', e, false, false, false, false)
      && forall n :: Stop(n) !in t'.actions && Remove(n) !in t'.actions
  {
    if t.start.ReallocateGpus? { ReallocateExits(w, e, t, r); } else { InspectExits(w, e, t, r); }
    RefusedUndoesNothing(e, "start", Step(w, e, t, r).1.actions[0].msg.detail);
  }

  lemma OldSidecarExits(w: World, e: EnvId, t: Task, r: Reply)
    requires t.Starting? && Step(w, e, t, r).1.Aborting? && (t.start.RemoveOldSidecar? || t.start.RecreateSidecar?)
    ensures var (w', t') := Step(w, e, t, r);
      && w' == w && Undoes(t', e, true, false, false, false)
      && forall n :: Stop(n) !in t'.actions && Remove(n) !in t'.actions
  {
    var msg := Step(w, e, t, r).1.actions[0].msg;
    ShortExits(e, msg.stage, msg.detail);
    ReportThenReleaseIsExit(e, msg.stage, msg.detail);
  }

  lemma NewSidecarExits(w: World, e: EnvId, t: Task, r: Reply)
    requires t.Starting? && Step(w, e, t, r).1.Aborting? && (t.start.RestartSidecar? || t.start.AwaitNewSidecar?)
    ensures var (w', t') := Step(w, e, t, r); w' == w && Undoes(t', e, true, true, t.start.AwaitNewSidecar?, false)
  {
    var acts := Step(w, e, t, r).1.actions;
    SidecarExits(e, acts[|acts| - 1].msg.stage, acts[|acts| - 1].msg.detail);
  }

  lemma DevStartExits(w: World, e: EnvId, t: Task, r: Reply)
    requires t.Starting? && Step(w, e, t, r).1.Aborting? && DevStage(t.start)
    ensures var (w', t') := Step(w, e, t, r); w' == w && Undoes(t', e, true, true, true, t.start.RestartDev?)
  {
    var acts := Step(w, e, t, r).1.actions;
    SidecarExits(e, acts[|acts| - 1].msg.stage, acts[|acts| - 1].msg.detail);
    BothExit(e, acts[|acts| - 1].msg.stage, acts[|acts| - 1].msg.detail);
  }

  /** Where Start takes an error exit nothing has changed in that step; the exit releases exactly what was granted,
      removes a new sidecar, and stops it first if it was started. */
  lemma StartExits(w: World, e: EnvId, t: Task, r: Reply)
    requires t.Starting? && Step(w, e, t, r).1.Aborting?
    ensures var (w', t') := Step(w, e, t, r);
      var started := t.start.AwaitNewSidecar? || DevStage(t.start);
      && w' == w
      && Undoes(t', e, Reallocated(t.start), started || t.start.RestartSidecar?, started, t.start.RestartDev?)
      && (!started && !t.start.RestartSidecar? ==> forall n :: Stop(n) !in t'.actions && Remove(n) !in t'.actions)
  {
    if t.start.RemoveOldSidecar? || t.start.RecreateSidecar? { OldSidecarExits(w, e, t, r); }
    else if SidecarStage(t.start) { NewSidecarExits(w, e, t, r); }
    else if DevStage(t.start) { DevStartExits(w, e, t, r); }
    else { EarlyStartExits(w, e, t, r); }
  }

  lemma StartStepBack(p: Progress, cmd: StartEnv, r: Reply)
    requires Idle(p.w0, cmd.envId) && StartInv(p, cmd) && p.t.Starting?
    requires Tick(p, cmd.envId, r).t.Aborting?
    ensures StartInv(Tick(p, cmd.envId, r), cmd)
  {
    StartExits(p.w, cmd.envId, p.t, r);
    StartStageTouches(p.w0, p.w, p.t, cmd);
    AbortBegins(p.w0, p.w, cmd.envId, Tick(p, cmd.envId, r).t);
  }

  lemma StartStepForwardEarly(p: Progress, cmd: StartEnv, r: Reply)
    requires Idle(p.w0, cmd.envId) && StartInv(p, cmd) && p.t.Starting?
    requires !Tick(p, cmd.envId, r).t.Aborting? && !Reallocated(p.t.start)
    ensures StartInv(Tick(p, cmd.envId, r), cmd)
  {
  }

  lemma StartStepForwardOldSidecar(p: Progress, cmd: StartEnv, r: Reply)
    requires Idle(p.w0, cmd.envId) && StartInv(p, cmd) && p.t.Starting?
    requires !Tick(p, cmd.envId, r).t.Aborting? && (p.t.start.RemoveOldSidecar? || p.t.start.RecreateSidecar?)
    ensures StartInv(Tick(p, cmd.envId, r), cmd)
  {
    var w0, sc := p.w0, SidecarName(cmd.envId);
    if p.t.start.RecreateSidecar? {
      Recreate(w0.containers, sc, Container(RestartedSidecarSpec(cmd, w0.containers[sc].spec.labels), Created));
    }
  }

  lemma StartStepForwardRestartSidecar(p: Progress, cmd: StartEnv, r: Reply)
    requires Idle(p.w0, cmd.envId) && StartInv(p, cmd) && p.t.Starting?
    requires !Tick(p, cmd.envId, r).t.Aborting? && p.t.start.RestartSidecar?
    ensures StartInv(Tick(p, cmd.envId, r), cmd)
  {
    var w0, sc := p.w0, SidecarName(cmd.envId);
    CreateThenStart(w0.containers, RestartedSidecarSpec(cmd, w0.containers[sc].spec.labels));
  }

  lemma StartStepForwardAwaitSidecar(p: Progress, cmd: StartEnv, r: Reply)
    requires Idle(p.w0, cmd.envId) && StartInv(p, cmd) && p.t.Starting?
    requires !Tick(p, cmd.envId, r).t.Aborting? && p.t.start.AwaitNewSidecar?
    ensures StartInv(Tick(p, cmd.envId, r), cmd)
  {
  }

  lemma StartStepForwardRemoveDev(p: Progress, cmd: StartEnv, r: Reply)
    requires Idle(p.w0, cmd.envId) && StartInv(p, cmd) && p.t.Starting?
    requires !Tick(p, cmd.envId, r).t.Aborting? && p.t.start.RemoveOldDev?
    ensures StartInv(Tick(p, cmd.envId, r), cmd)
  {
  }

  lemma StartStepForwardRecreateDev(p: Progress, cmd: StartEnv, r: Reply)
    requires Idle(p.w0, cmd.envId) && StartInv(p, cmd) && p.t.Starting?
    requires !Tick(p, cmd.envId, r).t.Aborting? && p.t.start.RecreateDev?
    ensures StartInv(Tick(p, cmd.envId, r), cmd)
  {
    var w0, dev := p.w0, DevName(cmd.envId);
    Recreate(WithNewSidecar(w0, cmd), dev,
             Container(RestartedDevSpec(cmd, w0.containers[dev].spec.labels, p.t.gpus), Created));
  }

  lemma StartStepForwardNewDev(p: Progress, cmd: StartEnv, r: Reply)
    requires Idle(p.w0, cmd.envId) && StartInv(p, cmd) && p.t.Starting?
    requires !Tick(p, cmd.envId, r).t.Aborting? && p.t.start.RestartDev?
    ensures StartInv(Tick(p, cmd.envId, r), cmd)
  {
    var w0, dev := p.w0, DevName(cmd.envId);
    CreateThenStart(WithNewSidecar(w0, cmd), RestartedDevSpec(cmd, w0.containers[dev].spec.labels, p.t.gpus));
  }

  lemma StartStep(p: Progress, cmd: StartEnv, r: Reply)
    requires Idle(p.w0, cmd.envId) && StartInv(p, cmd) && p.t.Starting?
    ensures StartInv(Tick(p, cmd.envId, r), cmd)
  {
    if Tick(p, cmd.envId, r).t.Aborting? {
      StartStepBack(p, cmd, r);
    } else {
      if p.t.start.RemoveOldSidecar? || p.t.start.RecreateSidecar? { StartStepForwardOldSidecar(p, cmd, r); }
      else if p.t.start.RestartSidecar? { StartStepForwardRestartSidecar(p, cmd, r); }
      else if p.t.start.AwaitNewSidecar? { StartStepForwardAwaitSidecar(p, cmd, r); }
      else if p.t.start.RestartDev? { StartStepForwardNewDev(p, cmd, r); }
      else if p.t.start.RemoveOldDev? { StartStepForwardRemoveDev(p, cmd, r); }
      else if p.t.start.RecreateDev? { StartStepForwardRecreateDev(p, cmd, r); }
      else { StartStepForwardEarly(p, cmd, r); }
    }
  }

  lemma SidecarInvStep(w0: World, w: World, e: EnvId, acts: seq<Action>, failed: set<Action>, r: Reply)
    requires acts != [] && WellOrdered(acts) && AbortAction(acts[0], e) && SidecarInv(w0, w, e, acts, failed)
    ensures SidecarInv(w0, Perform(w, e, acts[0], r), e, acts[1..], failed + LeftBehind(w, Aborting(acts), r))
  {
    NamesDiffer(e, e);
    TailMembers(acts);
    OrderedTail(acts);
  }

  lemma StartAbortStep(p: Progress, cmd: StartEnv, r: Reply)
    requires Idle(p.w0, cmd.envId) && StartInv(p, cmd) && p.t.Aborting?
    ensures StartInv(Tick(p, cmd.envId, r), cmd)
  {
    var e, acts := cmd.envId, p.t.actions;
    assert AbortAction(acts[0], e);
    AbortStep(p.w0, p.w, e, acts, r);
    SidecarInvStep(p.w0, p.w, e, acts, p.failed, r);
  }

  lemma {:induction false} StartRunInv(w: World, cmd: StartEnv, replies: seq<Reply>)
    requires Idle(w, cmd.envId)
    ensures var p := Run(w, cmd.envId, StartTask(cmd), replies); StartInv(p, cmd) && p.w0 == w
  {
    if replies != [] {
      StartRunInv(w, cmd, replies[..|replies| - 1]);
      var p, r := Run(w, cmd.envId, StartTask(cmd), replies[..|replies| - 1]), replies[|replies| - 1];
      match p.t
      case Starting(_, _, _, _, _) => StartStep(p, cmd, r);
      case Aborting(_) => StartAbortStep(p, cmd, r);
      case _ =>
    }
  }

  /** Start on an env whose dev container does not run: every finished run reports exactly one message. EnvReady comes
      with both containers rebuilt and running; every error exit leaves no grant for the env, its dev container not
      running, and its sidecar running only as StartFailed says. */
  lemma StartAllOrNothing(w: World, cmd: StartEnv, replies: seq<Reply>)
    requires Idle(w, cmd.envId)
    requires Run(w, cmd.envId, StartTask(cmd), replies).t == Done
    ensures var p := Run(w, cmd.envId, StartTask(cmd), replies);
      StartDone(w, p.w, cmd) || StartFailed(w, p.w, cmd.envId, p.failed)
  {
    StartRunInv(w, cmd, replies);
  }

  /* ---- Stop and Delete ---- */

  /** The first `k` of a list of calls, whatever Docker answers. */
  function PerformFirst(w: World, e: EnvId, acts: seq<Action>, replies: seq<Reply>, k: nat): World
    requires k <= |acts| && k <= |replies|
  {
    if k == 0 then w else Perform(PerformFirst(w, e, acts, replies, k - 1), e, acts[k - 1], replies[k - 1])
  }

  function AllOk(n: nat): (r: seq<Reply>)
    ensures |r| == n && forall k :: 0 <= k < n ==> r[k] == Ok
  {
    seq(n, _ => Ok)
  }

  /** A failure that leaves nothing behind has the effect of a success. */
  lemma HarmlessFailure(w: World, e: EnvId, acts: seq<Action>, r: Reply)
    requires acts != [] && !LeavesBehind(w, Stopping(acts), r)
    ensures Perform(w, e, acts[0], r) == Perform(w, e, acts[0], Ok)
  {
    match acts[0]
    case Stop(n) => RemoveForgets(w.containers, n, Exited);
    case Remove(n) => RemoveForgets(w.containers, n, Exited);
    case RemoveVolume(v) => assert r.Err? ==> w.volumes - {v} == w.volumes;
    case Release =>
    case Send(_) =>
  }

  function CallsMade(acts: seq<Action>, replies: seq<Reply>): nat {
    if |replies| < |acts| then |replies| else |acts|
  }

  lemma LineTick(q: Progress, e: EnvId, acts: seq<Action>, n: nat, r: Reply)
    requires n < |acts| && q.t == Stopping(acts[n..])
    ensures var q' := Tick(q, e, r);
      q'.w == Perform(q.w, e, acts[n], r) && q'.t == if n + 1 == |acts| then Done else Stopping(acts[n + 1..])
  {
    LineStep(q.w, e, acts[n..], r);
    assert acts[n..][0] == acts[n] && acts[n..][1..] == acts[n + 1..];
  }

  lemma {:induction false} LineSoFar(w: World, e: EnvId, acts: seq<Action>, replies: seq<Reply>)
    requires acts != []
    ensures var p, k := Run(w, e, Stopping(acts), replies), CallsMade(acts, replies);
      p.w == PerformFirst(w, e, acts, replies, k) && p.t == if k == |acts| then Done else Stopping(acts[k..])
  {
    if replies == [] {
      assert acts[0..] == acts;
    } else {
      var n := |replies| - 1;
      var front, last := replies[..n], replies[n];
      assert replies == front + [last];
      LineSoFar(w, e, acts, front);
      RunLast(w, e, Stopping(acts), front, last);
      PerformFirstPrefix(w, e, acts, front, replies, CallsMade(acts, front));
      if n < |acts| {
        LineTick(Run(w, e, Stopping(acts), front), e, acts, n, last);
        NextCall(w, e, acts, replies, n);
      }
    }
  }

  lemma HarmlessTick(q: Progress, e: EnvId, acts: seq<Action>, n: nat, r: Reply)
    requires n < |acts| && q.t == Stopping(acts[n..]) && Tick(q, e, r).failed == {}
    ensures Perform(q.w, e, acts[n], r) == Perform(q.w, e, acts[n], Ok)
  {
    assert acts[n..][0] == acts[n];
    HarmlessFailure(q.w, e, acts[n..], r);
  }

  lemma {:induction false} HarmlessLine(w: World, e: EnvId, acts: seq<Action>, replies: seq<Reply>)
    requires acts != [] && Run(w, e, Stopping(acts), replies).failed == {}
    ensures var k := CallsMade(acts, replies);
      PerformFirst(w, e, acts, replies, k) == PerformFirst(w, e, acts, AllOk(|acts|), k)
  {
    if replies != [] {
      var n := |replies| - 1;
      var front, last := replies[..n], replies[n];
      var q := Run(w, e, Stopping(acts), front);
      assert replies == front + [last];
      RunLast(w, e, Stopping(acts), front, last);
      LineSoFar(w, e, acts, front);
      HarmlessLine(w, e, acts, front);
      PerformFirstPrefix(w, e, acts, front, replies, CallsMade(acts, front));
      if n < |acts| {
        HarmlessTick(q, e, acts, n, last);
        NextCall(w, e, acts, replies, n);
        NextCall(w, e, acts, AllOk(|acts|), n);
      }
    }
  }

  /** Stop and Delete make their calls in order, one a step, and then are done; if every ignored call
      did its work, the result is that of all of them succeeding. */
  lemma StraightLine(w: World, e: EnvId, acts: seq<Action>, replies: seq<Reply>)
    requires acts != []
    ensures var p, k := Run(w, e, Stopping(acts), replies), CallsMade(acts, replies);
      && p.w == PerformFirst(w, e, acts, replies, k)
      && p.t == (if k == |acts| then Done else Stopping(acts[k..]))
      && (p.failed == {} ==> p.w == PerformFirst(w, e, acts, AllOk(|acts|), k))
  {
    LineSoFar(w, e, acts, replies);
    if Run(w, e, Stopping(acts), replies).failed == {} {
      HarmlessLine(w, e, acts, replies);
    }
  }

  lemma {:induction false} PerformFirstPrefix(w: World, e: EnvId, acts: seq<Action>, a: seq<Reply>,
                                              b: seq<Reply>, k: nat)
    requires k <= |acts| && k <= |a| && a <= b
    ensures PerformFirst(w, e, acts, a, k) == PerformFirst(w, e, acts, b, k)
  {
    if k > 0 {
      PerformFirstPrefix(w, e, acts, a, b, k - 1);
      assert a[k - 1] == b[k - 1];
    }
  }

  /** What Docker's answers make of the containers when Stop runs. */
  function StoppedContainers(cs: Containers, e: EnvId, dev: Reply, sidecar: Reply): Containers {
    var c1 := if dev.Ok? then WithState(cs, DevName(e), Exited) else cs;
    if sidecar.Ok? then WithState(c1, SidecarName(e), Exited) else c1
  }

  /** Stop always releases the grant and reports EnvStopped, also when a container could not be stopped. */
  lemma StopOutcome(w: World, e: EnvId, replies: seq<Reply>)
    requires Run(w, e, StopTask(e), replies).t == Done
    ensures |replies| >= 4
    ensures var p := Run(w, e, StopTask(e), replies);
      && p.w == w.(containers := StoppedContainers(w.containers, e, replies[0], replies[1]),
                   grants := w.grants - {e}, sent := w.sent + [EnvStopped(e)])
      && (p.failed == {} ==> p.w.containers == StoppedContainers(w.containers, e, Ok, Ok))
  {
    var acts := StopTask(e).actions;
    StraightLine(w, e, acts, replies);
    StopCalls(w, e, replies);
    StopCalls(w, e, AllOk(4));
  }

  /** The two stops that Stop and Delete begin with. */
  lemma StoppingCalls(w: World, e: EnvId, acts: seq<Action>, rs: seq<Reply>)
    requires |rs| >= 2 && |acts| >= 2 && acts[0] == Stop(DevName(e)) && acts[1] == Stop(SidecarName(e))
    ensures PerformFirst(w, e, acts, rs, 2) == w.(containers := StoppedContainers(w.containers, e, rs[0], rs[1]))
  {
    NextCall(w, e, acts, rs, 0);
    NextCall(w, e, acts, rs, 1);
  }

  lemma StopCalls(w: World, e: EnvId, rs: seq<Reply>)
    requires |rs| >= 4
    ensures PerformFirst(w, e, StopTask(e).actions, rs, 4) ==
      w.(containers := StoppedContainers(w.containers, e, rs[0], rs[1]),
         grants := w.grants - {e}, sent := w.sent + [EnvStopped(e)])
  {
    var acts := StopTask(e).actions;
    StoppingCalls(w, e, acts, rs);
    NextCall(w, e, acts, rs, 2);
    NextCall(w, e, acts, rs, 3);
  }

  lemma NextCall(w: World, e: EnvId, acts: seq<Action>, rs: seq<Reply>, k: nat)
    requires k < |acts| && k < |rs|
    ensures PerformFirst(w, e, acts, rs, k + 1) == Perform(PerformFirst(w, e, acts, rs, k), e, acts[k], rs[k])
  {
  }

  function DeletedContainers(cs: Containers, e: EnvId, rs: seq<Reply>): Containers
    requires |rs| >= 4
  {
    var c2 := StoppedContainers(cs, e, rs[0], rs[1]);
    var c3 := if rs[2].Ok? then c2 - {DevName(e)} else c2;
    if rs[3].Ok? then c3 - {SidecarName(e)} else c3
  }

  lemma RemovalCalls(w: World, e: EnvId, acts: seq<Action>, rs: seq<Reply>)
    requires |rs| >= 4 && |acts| >= 4 && acts[2] == Remove(DevName(e)) && acts[3] == Remove(SidecarName(e))
    ensures var w2 := PerformFirst(w, e, acts, rs, 2);
      PerformFirst(w, e, acts, rs, 4) == w2.(containers :=
        var c3 := if rs[2].Ok? then w2.containers - {DevName(e)} else w2.containers;
        if rs[3].Ok? then c3 - {SidecarName(e)} else c3)
  {
    NextCall(w, e, acts, rs, 2);
    NextCall(w, e, acts, rs, 3);
  }

  lemma DeleteContainerCalls(w: World, e: EnvId, rs: seq<Reply>)
    requires |rs| >= 7
    ensures PerformFirst(w, e, DeleteTask(e).actions, rs, 4) == w.(containers := DeletedContainers(w.containers, e, rs))
  {
    var acts := DeleteTask(e).actions;
    StoppingCalls(w, e, acts, rs);
    RemovalCalls(w, e, acts, rs);
  }

  lemma DeleteCalls(w: World, e: EnvId, rs: seq<Reply>)
    requires |rs| >= 7
    ensures PerformFirst(w, e, DeleteTask(e).actions, rs, 7) ==
      w.(containers := DeletedContainers(w.containers, e, rs),
         volumes := if rs[4].Ok? then w.volumes - {"flex-env-" + e} else w.volumes,
         grants := w.grants - {e}, sent := w.sent + [EnvDeleted(e)])
  {
    var acts := DeleteTask(e).actions;
    DeleteContainerCalls(w, e, rs);
    NextCall(w, e, acts, rs, 4);
    NextCall(w, e, acts, rs, 5);
    NextCall(w, e, acts, rs, 6);
  }

  lemma AllDeleted(cs: Containers, e: EnvId)
    ensures DeletedContainers(cs, e, AllOk(7)) == cs - {DevName(e), SidecarName(e)}
  {
    NamesDiffer(e, e);
  }

  /** Delete always releases the grant and reports EnvDeleted; if every call did its work, both containers
      and the volume are gone and everything else is as before. */
  lemma DeleteOutcome(w: World, e: EnvId, replies: seq<Reply>)
    requires Run(w, e, DeleteTask(e), replies).t == Done
    ensures |replies| >= 7
    ensures var p := Run(w, e, DeleteTask(e), replies);
      && p.w == w.(containers := DeletedContainers(w.containers, e, replies),
                   volumes := if replies[4].Ok? then w.volumes - {"flex-env-" + e} else w.volumes,
                   grants := w.grants - {e}, sent := w.sent + [EnvDeleted(e)])
      && (p.failed == {} ==>
            && p.w.containers == w.containers - {DevName(e), SidecarName(e)}
            && p.w.volumes == w.volumes - {"flex-env-" + e})
  {
    StraightLine(w, e, DeleteTask(e).actions, replies);
    DeleteCalls(w, e, replies);
    DeleteCalls(w, e, AllOk(7));
    AllDeleted(w.containers, e);
  }

  /* ---- When stopping is safe ---- */

  /** Every running dev container has exactly its env's granted GPUs attached. */
  ghost predicate GpuSafe(w: World) {
    forall f :: DevRuns(w, f) ==> w.containers[DevName(f)].spec.gpuIndices == Held(w.grants, f)
  }

  /** Only the env whose grant is taken away can become unsafe. */
  lemma SafeAfterRelease(w: World, w': World, e: EnvId)
    requires GpuSafe(w) && TouchesOnly(w, w', e) && e !in w'.grants
    ensures GpuSafe(w') <==> !(DevRuns(w', e) && w'.containers[DevName(e)].spec.gpuIndices != [])
  {
    forall f | DevRuns(w', f) && f != e
      ensures w'.containers[DevName(f)].spec.gpuIndices == Held(w'.grants, f)
    {
      OthersUntouched(w, w', e, f);
      assert DevRuns(w, f);
    }
  }

  lemma HaltedDev(cs: Containers, e: EnvId, rs: seq<Reply>)
    requires |rs| >= 4
    ensures var stopped, deleted := StoppedContainers(cs, e, rs[0], rs[1]), DeletedContainers(cs, e, rs);
      && (DevName(e) in stopped <==> DevName(e) in cs)
      && (DevName(e) in cs ==>
            stopped[DevName(e)] == if rs[0].Ok? then cs[DevName(e)].(state := Exited) else cs[DevName(e)])
      && (DevName(e) in deleted <==> DevName(e) in cs && rs[2].Err?)
      && (DevName(e) in deleted ==> deleted[DevName(e)] == stopped[DevName(e)])
      && (forall n :: n != SidecarName(e) && n != DevName(e) ==>
            Lookup(stopped, n) == Lookup(cs, n) && Lookup(deleted, n) == Lookup(cs, n))
  {
    NamesDiffer(e, e);
  }

  /** The code releases the GPUs without looking at whether the container stopped. From a safe state, Stop
      ends in a safe state exactly unless the dev container runs, holds GPUs and could not be stopped. */
  lemma StopIsSafeIff(w: World, e: EnvId, replies: seq<Reply>)
    requires GpuSafe(w)
    requires Run(w, e, StopTask(e), replies).t == Done
    ensures |replies| >= 4
    ensures GpuSafe(Run(w, e, StopTask(e), replies).w) <==>
      !(DevRuns(w, e) && w.containers[DevName(e)].spec.gpuIndices != [] && replies[0].Err?)
  {
    StopOutcome(w, e, replies);
    HaltedDev(w.containers, e, replies);
    SafeAfterRelease(w, Run(w, e, StopTask(e), replies).w, e);
  }

  lemma DeletedIsSafeIff(w: World, w': World, e: EnvId, rs: seq<Reply>)
    requires GpuSafe(w) && |rs| >= 4
    requires w'.total == w.total && w'.containers == DeletedContainers(w.containers, e, rs) &&
      w'.grants == w.grants - {e}
    ensures GpuSafe(w') <==>
      !(DevRuns(w, e) && w.containers[DevName(e)].spec.gpuIndices != [] && rs[0].Err? && rs[2].Err?)
  {
    HaltedDev(w.containers, e, rs);
    SafeAfterRelease(w, w', e);
  }

  /** Delete gets a second chance: it is unsafe only when the forced removal fails as well. */
  lemma DeleteIsSafeIff(w: World, e: EnvId, replies: seq<Reply>)
    requires GpuSafe(w)
    requires Run(w, e, DeleteTask(e), replies).t == Done
    ensures |replies| >= 7
    ensures GpuSafe(Run(w, e, DeleteTask(e), replies).w) <==>
      !(DevRuns(w, e) && w.containers[DevName(e)].spec.gpuIndices != [] && replies[0].Err? && replies[2].Err?)
  {
    DeleteOutcome(w, e, replies);
    DeletedIsSafeIff(w, Run(w, e, DeleteTask(e), replies).w, e, replies);
  }

  /* ---- When every call succeeds ---- */

  lemma AllOkNext(w: World, e: EnvId, t: Task, k: nat)
    ensures Run(w, e, t, AllOk(k + 1)) == Tick(Run(w, e, t, AllOk(k)), e, Ok)
  {
    assert AllOk(k + 1)[..k] == AllOk(k);
  }

  /** Create succeeds whenever enough GPUs are free and Docker grants every call. */
  lemma CreateSucceeds(w: World, cmd: CreateEnv)
    requires Unknown(w, cmd.envId) && Pick(w.total, w.grants, cmd.gpuRequest).Some?
    ensures var p := Run(w, cmd.envId, CreateTask(cmd), AllOk(7)); p.t == Done && CreateDone(w, p.w, cmd)
  {
    CreateReaches(w, cmd, 6);
    CreateRunInv(w, cmd, AllOk(6));
    AllOkNext(w, cmd.envId, CreateTask(cmd), 6);
  }

  const CREATE_STAGES := [AllocateGpus, CreateSidecar, StartSidecar, AwaitSidecar, CreateDev, StartDev]

  /** After `k` granted calls Create is at its k-th stage. */
  predicate AtCreateStage(t: Task, k: nat)
    requires k <= 6
  {
    if k == 6 then t.Announcing? else t.Creating? && t.create == CREATE_STAGES[k]
  }

  lemma GrantedCallAdvances(w: World, e: EnvId, t: Task, k: nat)
    requires k < 6 && AtCreateStage(t, k)
    requires t.create.AllocateGpus? ==> Pick(w.total, w.grants, t.createCmd.gpuRequest).Some?
    requires t.create.StartSidecar? ==> SidecarName(e) in w.containers
    requires t.create.StartDev? ==> DevName(e) in w.containers
    ensures AtCreateStage(Step(w, e, t, Ok).1, k + 1)
  {
  }

  lemma CreateAdvances(w: World, cmd: CreateEnv, k: nat)
    requires Unknown(w, cmd.envId) && Pick(w.total, w.grants, cmd.gpuRequest).Some?
    requires k < 6 && AtCreateStage(Run(w, cmd.envId, CreateTask(cmd), AllOk(k)).t, k)
    ensures AtCreateStage(Run(w, cmd.envId, CreateTask(cmd), AllOk(k + 1)).t, k + 1)
  {
    var p := Run(w, cmd.envId, CreateTask(cmd), AllOk(k));
    CreateRunInv(w, cmd, AllOk(k));
    CreateStageTouches(w, p.w, cmd, p.t.gpus, p.t.create);
    AllOkNext(w, cmd.envId, CreateTask(cmd), k);
    GrantedCallAdvances(p.w, cmd.envId, p.t, k);
  }

  lemma {:induction false} CreateReaches(w: World, cmd: CreateEnv, k: nat)
    requires Unknown(w, cmd.envId) && Pick(w.total, w.grants, cmd.gpuRequest).Some? && k <= 6
    ensures AtCreateStage(Run(w, cmd.envId, CreateTask(cmd), AllOk(k)).t, k)
  {
    if k > 0 {
      CreateReaches(w, cmd, k - 1);
      CreateAdvances(w, cmd, k - 1);
    }
  }
}

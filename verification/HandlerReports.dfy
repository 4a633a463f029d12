/** The one message a handler sends: which it is, and with what stage and text, as a function of what its calls
    answered. */
module HandlerReports {
  import opened Wrappers
  import opened AgentProtocol
  import opened Docker
  import opened GpuAllocator
  import opened HandlerSteps
  import opened HandlerOutcomes
  import Decimal
  import GpuLabels

  /** The first failure among the answers number `lo` up to `hi`. */
  function FirstErr(replies: seq<Reply>, lo: nat, hi: nat): (r: Option<nat>)
    requires lo <= hi
    ensures r.Some? ==> lo <= r.value < hi && r.value < |replies| && replies[r.value].Err?
    ensures r.Some? ==> forall k :: lo <= k < r.value ==> replies[k].Ok?
    ensures r.None? ==> forall k :: lo <= k < hi && k < |replies| ==> replies[k].Ok?
    decreases hi - lo
  {
    if lo == hi then None
    else if lo < |replies| && replies[lo].Err? then Some(lo)
    else FirstErr(replies, lo + 1, hi)
  }

  /** An answer more does not change which failure came first, nor whether there was one among calls all made. */
  lemma {:induction false} FirstErrStays(replies: seq<Reply>, r: Reply, lo: nat, hi: nat)
    requires lo <= hi && (FirstErr(replies, lo, hi).Some? || hi <= |replies|)
    ensures FirstErr(replies + [r], lo, hi) == FirstErr(replies, lo, hi)
    decreases hi - lo
  {
    if lo < hi && !(lo < |replies| && replies[lo].Err?) {
      FirstErrStays(replies, r, lo + 1, hi);
    }
  }

  function Insufficient(w: World, e: EnvId, stage: string, count: nat): AgentMessage {
    EnvError(e, stage, "insufficient GPUs: requested " + Decimal.Itoa(count) +
                       ", available " + Decimal.Itoa(|Free(w.total, Used(w.grants))|))
  }

  function Ready(e: EnvId, gpus: seq<int>): AgentMessage {
    EnvReady(e, "flex-net-" + e, "flex-env-" + e, ToInt32s(gpus))
  }

  /* ---- Create ---- */

  /** The stage Create reports when call `k` fails: 1 creates the sidecar, 2 starts it, 3 waits for it, 4
      creates the dev container, 5 starts it. */
  function CreateStageName(k: nat): string {
    if k == 1 || k == 2 then "sidecar_start" else if k == 3 then "sidecar_health" else "dev_start"
  }

  function CreateReport(w: World, cmd: CreateEnv, replies: seq<Reply>): AgentMessage {
    match Pick(w.total, w.grants, cmd.gpuRequest)
    case None => Insufficient(w, cmd.envId, "unknown", cmd.gpuRequest)
    case Some(gpus) =>
      match FirstErr(replies, 1, 6)
      case None => Ready(cmd.envId, gpus)
      case Some(k) => EnvError(cmd.envId, CreateStageName(k), replies[k].text)
  }

  predicate CreateDecided(w: World, cmd: CreateEnv, replies: seq<Reply>) {
    Pick(w.total, w.grants, cmd.gpuRequest).None? || FirstErr(replies, 1, 6).Some? || |replies| >= 6
  }

  lemma CreateReportStays(w: World, cmd: CreateEnv, replies: seq<Reply>, r: Reply)
    requires CreateDecided(w, cmd, replies)
    ensures CreateDecided(w, cmd, replies + [r])
    ensures CreateReport(w, cmd, replies + [r]) == CreateReport(w, cmd, replies)
  {
    if Pick(w.total, w.grants, cmd.gpuRequest).Some? {
      FirstErrStays(replies, r, 1, 6);
    }
  }

  function CreateCallNumber(stage: CreateStage): nat {
    match stage
    case AllocateGpus => 0
    case CreateSidecar => 1
    case StartSidecar => 2
    case AwaitSidecar => 3
    case CreateDev => 4
    case StartDev => 5
  }

  /** An exit still has one report to send, or has sent it. */
  ghost predicate WillReport(w0: World, w: World, acts: seq<Action>, report: AgentMessage) {
    && (forall m :: Send(m) in acts ==> m == report)
    && (Sends(acts) == 0 ==> w.sent == w0.sent + [report])
  }

  ghost predicate CreateSpeaks(p: Progress, cmd: CreateEnv) {
    var report := CreateReport(p.w0, cmd, p.replies);
    match p.t
    case Creating(stage, _, _) =>
      |p.replies| == CreateCallNumber(stage) && forall k :: 1 <= k < |p.replies| ==> p.replies[k].Ok?
    case Announcing(msg) => CreateDecided(p.w0, cmd, p.replies) && msg == report
    case Aborting(acts) => CreateDecided(p.w0, cmd, p.replies) && WillReport(p.w0, p.w, acts, report)
    case Stopping(_) => false
    case Starting(_, _, _, _, _) => false
    case Done => CreateDecided(p.w0, cmd, p.replies) && p.w.sent == p.w0.sent + [report]
  }

  lemma OnlyReport(acts: seq<Action>, e: EnvId, stage: string, detail: string)
    requires forall a :: a in acts && a.Send? ==> a == Report(e, stage, detail)
    ensures forall m :: Send(m) in acts ==> m == EnvError(e, stage, detail)
  {
  }

  lemma ExitReports(e: EnvId, stage: string, detail: string)
    ensures forall m :: Send(m) in Refused(e, stage, detail).actions ==> m == EnvError(e, stage, detail)
    ensures forall m :: Send(m) in ReleaseThenReport(e, stage, detail).actions ==> m == EnvError(e, stage, detail)
    ensures forall m :: Send(m) in ReportThenRelease(e, stage, detail).actions ==> m == EnvError(e, stage, detail)
    ensures forall m :: Send(m) in DropSidecar(e, stage, detail).actions ==> m == EnvError(e, stage, detail)
    ensures forall m :: Send(m) in UndoSidecar(e, stage, detail).actions ==> m == EnvError(e, stage, detail)
    ensures forall m :: Send(m) in UndoBoth(e, stage, detail).actions ==> m == EnvError(e, stage, detail)
  {
  }

  /** The text of each error exit of Create. */
  lemma CreateExitSays(w: World, e: EnvId, t: Task, r: Reply)
    requires t.Creating? && Step(w, e, t, r).1.Aborting?
    requires t.create.StartSidecar? ==> SidecarName(e) in w.containers
    requires t.create.StartDev? ==> DevName(e) in w.containers
    ensures var k, acts := CreateCallNumber(t.create), Step(w, e, t, r).1.actions;
      if k == 0 then
        && Pick(w.total, w.grants, t.createCmd.gpuRequest).None?
        && forall m :: Send(m) in acts ==> m == Insufficient(w, e, "unknown", t.createCmd.gpuRequest)
      else
        r.Err? && forall m :: Send(m) in acts ==> m == EnvError(e, CreateStageName(k), r.text)
  {
    match t.create
    case AllocateGpus => ExitReports(e, "unknown", Shortage(w, t.createCmd.gpuRequest));
    case CreateSidecar => ExitReports(e, "sidecar_start", r.text);
    case StartSidecar => ExitReports(e, "sidecar_start", r.text);
    case AwaitSidecar => ExitReports(e, "sidecar_health", r.text);
    case CreateDev => ExitReports(e, "dev_start", r.text);
    case StartDev => ExitReports(e, "dev_start", r.text);
  }

  lemma CreateFirstErr(w: World, cmd: CreateEnv, replies: seq<Reply>, r: Reply)
    requires 1 <= |replies| <= 5 && forall k :: 1 <= k < |replies| ==> replies[k].Ok?
    ensures r.Err? ==> FirstErr(replies + [r], 1, 6) == Some(|replies|)
    ensures r.Ok? && |replies| == 5 ==> FirstErr(replies + [r], 1, 6) == None
  {
    var all := replies + [r];
    assert forall k :: 1 <= k < |replies| ==> all[k].Ok?;
    assert all[|replies|] == r;
  }

  /** A call of Create that works leads to the next one, or to the announcement. */
  lemma CreateForward(w: World, e: EnvId, t: Task, r: Reply)
    requires t.Creating? && !Step(w, e, t, r).1.Aborting?
    ensures t.create.AllocateGpus? || r.Ok?
    ensures var t' := Step(w, e, t, r).1;
      if t.create.StartDev? then t' == Announcing(ReadyMessage(e, t.gpus))
      else t'.Creating? && CreateCallNumber(t'.create) == CreateCallNumber(t.create) + 1
  {
  }

  lemma CreateBack(p: Progress, cmd: CreateEnv, r: Reply)
    requires Unknown(p.w0, cmd.envId) && CreateInv(p, cmd) && p.t.Creating?
    requires Tick(p, cmd.envId, r).t.Aborting?
    ensures var q, k := Tick(p, cmd.envId, r), CreateCallNumber(p.t.create);
      if k == 0 then
        && Pick(p.w0.total, p.w0.grants, cmd.gpuRequest).None?
        && WillReport(p.w0, q.w, q.t.actions, Insufficient(p.w0, cmd.envId, "unknown", cmd.gpuRequest))
      else
        r.Err? && WillReport(p.w0, q.w, q.t.actions, EnvError(cmd.envId, CreateStageName(k), r.text))
  {
    CreateStageTouches(p.w0, p.w, cmd, p.t.gpus, p.t.create);
    CreateExits(p.w, cmd.envId, p.t, r);
    CreateExitSays(p.w, cmd.envId, p.t, r);
  }

  lemma CreateStepSpeaks(p: Progress, cmd: CreateEnv, r: Reply)
    requires Unknown(p.w0, cmd.envId) && CreateInv(p, cmd) && CreateSpeaks(p, cmd) && p.t.Creating?
    ensures CreateSpeaks(Tick(p, cmd.envId, r), cmd)
  {
    if |p.replies| > 0 {
      CreateFirstErr(p.w0, cmd, p.replies, r);
    }
    if Tick(p, cmd.envId, r).t.Aborting? {
      CreateBack(p, cmd, r);
    } else {
      CreateForward(p.w, cmd.envId, p.t, r);
    }
  }

  lemma WillReportStep(w0: World, w: World, e: EnvId, acts: seq<Action>, r: Reply, report: AgentMessage)
    requires acts != [] && AbortInv(w0, w, e, acts) && WillReport(w0, w, acts, report)
    ensures WillReport(w0, Perform(w, e, acts[0], r), acts[1..], report)
  {
    TailMembers(acts);
  }

  lemma AllSent(w0: World, w: World, report: AgentMessage)
    requires WillReport(w0, w, [], report)
    ensures w.sent == w0.sent + [report]
  {
  }

  lemma CreateAbortSpeaks(p: Progress, cmd: CreateEnv, r: Reply)
    requires CreateInv(p, cmd) && CreateSpeaks(p, cmd) && p.t.Aborting?
    ensures CreateSpeaks(Tick(p, cmd.envId, r), cmd)
  {
    var q := Tick(p, cmd.envId, r);
    CreateReportStays(p.w0, cmd, p.replies, r);
    WillReportStep(p.w0, p.w, cmd.envId, p.t.actions, r, CreateReport(p.w0, cmd, p.replies));
    if p.t.actions[1..] == [] {
      AllSent(p.w0, q.w, CreateReport(p.w0, cmd, p.replies));
    }
  }

  lemma CreateEndSpeaks(p: Progress, cmd: CreateEnv, r: Reply)
    requires CreateInv(p, cmd) && CreateSpeaks(p, cmd) && (p.t.Announcing? || p.t.Done?)
    ensures CreateSpeaks(Tick(p, cmd.envId, r), cmd)
  {
    CreateReportStays(p.w0, cmd, p.replies, r);
  }

  lemma CreateTickSpeaks(p: Progress, cmd: CreateEnv, r: Reply)
    requires Unknown(p.w0, cmd.envId) && CreateInv(p, cmd) && CreateSpeaks(p, cmd)
    ensures CreateSpeaks(Tick(p, cmd.envId, r), cmd)
  {
    match p.t
    case Creating(_, _, _) => CreateStepSpeaks(p, cmd, r);
    case Aborting(_) => CreateAbortSpeaks(p, cmd, r);
    case _ => CreateEndSpeaks(p, cmd, r);
  }

  lemma {:induction false} CreateRunSpeaks(w: World, cmd: CreateEnv, replies: seq<Reply>)
    requires Unknown(w, cmd.envId)
    ensures var p := Run(w, cmd.envId, CreateTask(cmd), replies); CreateSpeaks(p, cmd) && p.replies == replies
  {
    if replies != [] {
      var front, last := replies[..|replies| - 1], replies[|replies| - 1];
      assert replies == front + [last];
      CreateRunSpeaks(w, cmd, front);
      CreateRunInv(w, cmd, front);
      RunLast(w, cmd.envId, CreateTask(cmd), front, last);
      CreateTickSpeaks(Run(w, cmd.envId, CreateTask(cmd), front), cmd, last);
    }
  }

  /** Every finished Create on an unknown env has sent exactly one message: that the GPUs do not suffice, the stage and
      text of the first call that failed, or that the env is ready. */
  lemma CreateReports(w: World, cmd: CreateEnv, replies: seq<Reply>)
    requires Unknown(w, cmd.envId) && Run(w, cmd.envId, CreateTask(cmd), replies).t == Done
    ensures Run(w, cmd.envId, CreateTask(cmd), replies).w.sent == w.sent + [CreateReport(w, cmd, replies)]
  {
    CreateRunSpeaks(w, cmd, replies);
  }

  /* ---- Start ---- */

  /** What Start reports when call `k` fails: 0 and 1 look up the containers, 3 to 6 replace the sidecar, 7 to 9 the dev
      container. (2 asks the allocator.) */
  function StartFailure(k: nat): string {
    if k == 0 then "dev container not found: "
    else if k == 1 then "sidecar container not found: "
    else if k == 3 then "rm sidecar: "
    else if k == 4 then "create sidecar: "
    else if k == 5 then "start sidecar: "
    else if k == 6 then "sidecar health: "
    else if k == 7 then "rm dev: "
    else if k == 8 then "create dev: "
    else "start dev: "
  }

  /** Looking up a container that is not there fails. */
  function LookedUp(w: World, name: string, r: Reply): Reply {
    if r.Ok? && name !in w.containers then Err("not found") else r
  }

  /** What call `k` answered, if it was made. */
  function Answer(replies: seq<Reply>, k: nat): Reply {
    if k < |replies| then replies[k] else Ok
  }

  function DevLookedUp(w: World, e: EnvId, replies: seq<Reply>): Reply {
    LookedUp(w, "flex-env-" + e, Answer(replies, 0))
  }

  function SidecarLookedUp(w: World, e: EnvId, replies: seq<Reply>): Reply {
    LookedUp(w, "flex-net-" + e, Answer(replies, 1))
  }

  /** How many GPUs the dev container's label lists. */
  function ListedGpus(w: World, e: EnvId): nat {
    if "flex-env-" + e in w.containers
    then |GpuLabels.ParseCsv(w.containers["flex-env-" + e].spec.labels.gpuIndices)| else 0
  }

  function StartReport(w: World, cmd: StartEnv, replies: seq<Reply>): AgentMessage {
    var e := cmd.envId;
    var dev, sidecar := DevLookedUp(w, e, replies), SidecarLookedUp(w, e, replies);
    if dev.Err? then EnvError(e, "start", StartFailure(0) + dev.text)
    else if sidecar.Err? then EnvError(e, "start", StartFailure(1) + sidecar.text)
    else
      match Pick(w.total, w.grants, ListedGpus(w, e))
      case None => Insufficient(w, e, "start", ListedGpus(w, e))
      case Some(gpus) =>
        match FirstErr(replies, 3, 10)
        case None => Ready(e, gpus)
        case Some(k) => EnvError(e, "start", StartFailure(k) + replies[k].text)
  }

  predicate StartDecided(w: World, cmd: StartEnv, replies: seq<Reply>) {
    var e := cmd.envId;
    || (|replies| >= 1 && DevLookedUp(w, e, replies).Err?)
    || (|replies| >= 2 && SidecarLookedUp(w, e, replies).Err?)
    || (|replies| >= 3 && (Pick(w.total, w.grants, ListedGpus(w, e)).None? || FirstErr(replies, 3, 10).Some?))
    || |replies| >= 10
  }

  lemma StartReportStays(w: World, cmd: StartEnv, replies: seq<Reply>, r: Reply)
    requires StartDecided(w, cmd, replies)
    ensures StartDecided(w, cmd, replies + [r])
    ensures StartReport(w, cmd, replies + [r]) == StartReport(w, cmd, replies)
  {
    assert forall k :: 0 <= k < |replies| ==> Answer(replies + [r], k) == Answer(replies, k);
    if |replies| >= 3 && (FirstErr(replies, 3, 10).Some? || |replies| >= 10) {
      FirstErrStays(replies, r, 3, 10);
    }
  }

  function StartCallNumber(stage: StartStage): nat {
    match stage
    case InspectDev => 0
    case InspectSidecar => 1
    case ReallocateGpus => 2
    case RemoveOldSidecar => 3
    case RecreateSidecar => 4
    case RestartSidecar => 5
    case AwaitNewSidecar => 6
    case RemoveOldDev => 7
    case RecreateDev => 8
    case RestartDev => 9
  }

  ghost predicate StartSpeaks(p: Progress, cmd: StartEnv) {
    var report := StartReport(p.w0, cmd, p.replies);
    match p.t
    case Starting(stage, _, _, _, _) =>
      && |p.replies| == StartCallNumber(stage)
      && forall k :: 0 <= k < |p.replies| && k != 2 ==> p.replies[k].Ok?
    case Announcing(msg) => StartDecided(p.w0, cmd, p.replies) && msg == report
    case Aborting(acts) => StartDecided(p.w0, cmd, p.replies) && WillReport(p.w0, p.w, acts, report)
    case Stopping(_) => false
    case Creating(_, _, _) => false
    case Done => StartDecided(p.w0, cmd, p.replies) && p.w.sent == p.w0.sent + [report]
  }

  /** The text of each error exit of Start: looking up. */
  lemma InspectSays(w: World, e: EnvId, t: Task, r: Reply)
    requires t.Starting? && Step(w, e, t, r).1.Aborting? && (t.start.InspectDev? || t.start.InspectSidecar?)
    ensures var found := LookedUp(w, if t.start.InspectDev? then "flex-env-" + e else "flex-net-" + e, r);
      found.Err? && forall m :: Send(m) in Step(w, e, t, r).1.actions ==>
        m == EnvError(e, "start", StartFailure(StartCallNumber(t.start)) + found.text)
  {
    var found := LookedUp(w, if t.start.InspectDev? then DevName(e) else SidecarName(e), r);
    ExitReports(e, "start", StartFailure(StartCallNumber(t.start)) + found.text);
  }

  lemma ReallocateSays(w: World, e: EnvId, t: Task, r: Reply)
    requires t.Starting? && Step(w, e, t, r).1.Aborting? && t.start.ReallocateGpus?
    ensures var count := |GpuLabels.ParseCsv(t.devLabels.gpuIndices)|;
      Pick(w.total, w.grants, count).None?
      && forall m :: Send(m) in Step(w, e, t, r).1.actions ==> m == Insufficient(w, e, "start", count)
  {
    ExitReports(e, "start", Shortage(w, |GpuLabels.ParseCsv(t.devLabels.gpuIndices)|));
  }

  /** Replacing the sidecar. */
  lemma SidecarSays(w: World, e: EnvId, t: Task, r: Reply)
    requires t.Starting? && Step(w, e, t, r).1.Aborting? && SidecarStage(t.start)
    requires t.start.RestartSidecar? ==> SidecarName(e) in w.containers
    ensures r.Err? && forall m :: Send(m) in Step(w, e, t, r).1.actions ==>
      m == EnvError(e, "start", StartFailure(StartCallNumber(t.start)) + r.text)
  {
    if r.Err? {
      ExitReports(e, "start", StartFailure(StartCallNumber(t.start)) + r.text);
    }
  }

  /** Replacing the dev container. */
  lemma DevSays(w: World, e: EnvId, t: Task, r: Reply)
    requires t.Starting? && Step(w, e, t, r).1.Aborting? && DevStage(t.start)
    requires t.start.RestartDev? ==> DevName(e) in w.containers
    ensures r.Err? && forall m :: Send(m) in Step(w, e, t, r).1.actions ==>
      m == EnvError(e, "start", StartFailure(StartCallNumber(t.start)) + r.text)
  {
    if r.Err? {
      ExitReports(e, "start", StartFailure(StartCallNumber(t.start)) + r.text);
    }
  }

  lemma StartFirstErr(replies: seq<Reply>, r: Reply)
    requires 3 <= |replies| <= 9 && forall k :: 3 <= k < |replies| ==> replies[k].Ok?
    ensures r.Err? ==> FirstErr(replies + [r], 3, 10) == Some(|replies|)
    ensures r.Ok? && |replies| == 9 ==> FirstErr(replies + [r], 3, 10) == None
  {
    var all := replies + [r];
    assert forall k :: 3 <= k < |replies| ==> all[k].Ok?;
    assert all[|replies|] == r;
  }

  /** What the report is once looking up has failed, or allocating. */
  lemma EarlyReport(w: World, cmd: StartEnv, replies: seq<Reply>, r: Reply)
    requires |replies| <= 2 && forall k :: 0 <= k < |replies| ==> replies[k].Ok?
    requires |replies| >= 1 ==> "flex-env-" + cmd.envId in w.containers
    requires |replies| >= 2 ==> "flex-net-" + cmd.envId in w.containers
    ensures var all, e := replies + [r], cmd.envId;
      var failed := LookedUp(w, if |replies| == 0 then "flex-env-" + e else "flex-net-" + e, r);
      && (|replies| <= 1 && failed.Err? ==>
            && StartDecided(w, cmd, all)
            && StartReport(w, cmd, all) == EnvError(e, "start", StartFailure(|replies|) + failed.text))
      && (|replies| == 2 && Pick(w.total, w.grants, ListedGpus(w, e)).None? ==>
            && StartDecided(w, cmd, all)
            && StartReport(w, cmd, all) == Insufficient(w, e, "start", ListedGpus(w, e)))
  {
    var all := replies + [r];
    assert forall k :: 0 <= k < |replies| ==> all[k] == replies[k];
    assert all[|replies|] == r;
  }

  lemma EarlyForward(w: World, e: EnvId, t: Task, r: Reply)
    requires t.Starting? && !Reallocated(t.start) && !Step(w, e, t, r).1.Aborting?
    ensures t.start.ReallocateGpus? || r.Ok?
    ensures var t' := Step(w, e, t, r).1;
      t'.Starting? && StartCallNumber(t'.start) == StartCallNumber(t.start) + 1
  {
  }

  lemma EarlySpeaks(p: Progress, cmd: StartEnv, r: Reply)
    requires Idle(p.w0, cmd.envId) && StartInv(p, cmd) && StartSpeaks(p, cmd)
    requires p.t.Starting? && !Reallocated(p.t.start)
    ensures StartSpeaks(Tick(p, cmd.envId, r), cmd)
  {
    var e := cmd.envId;
    if Tick(p, e, r).t.Aborting? {
      EarlyReport(p.w0, cmd, p.replies, r);
      EarlyStartExits(p.w, e, p.t, r);
      if p.t.start.ReallocateGpus? { ReallocateSays(p.w, e, p.t, r); } else { InspectSays(p.w, e, p.t, r); }
    } else {
      EarlyForward(p.w, e, p.t, r);
    }
  }

  /** What the report is once the GPUs are allocated and all calls up to now have worked. */
  lemma LateReport(w: World, cmd: StartEnv, replies: seq<Reply>, r: Reply)
    requires 3 <= |replies| <= 9 && forall k :: 0 <= k < |replies| && k != 2 ==> replies[k].Ok?
    requires DevName(cmd.envId) in w.containers && SidecarName(cmd.envId) in w.containers
    requires Pick(w.total, w.grants, ListedGpus(w, cmd.envId)).Some?
    ensures var all := replies + [r];
      && (r.Err? ==>
            && StartDecided(w, cmd, all)
            && StartReport(w, cmd, all) == EnvError(cmd.envId, "start", StartFailure(|replies|) + r.text))
      && (r.Ok? && |replies| == 9 ==>
            && StartDecided(w, cmd, all)
            && StartReport(w, cmd, all) == Ready(cmd.envId, Pick(w.total, w.grants, ListedGpus(w, cmd.envId)).value))
  {
    var all := replies + [r];
    assert all[0] == replies[0] && all[1] == replies[1] && all[|replies|] == r;
    StartFirstErr(replies, r);
  }

  /** Past the allocation a call that works leads to the next one, or to the announcement. */
  lemma LateForward(w: World, e: EnvId, t: Task, r: Reply)
    requires t.Starting? && Reallocated(t.start) && !Step(w, e, t, r).1.Aborting?
    ensures r.Ok?
    ensures var t' := Step(w, e, t, r).1;
      if t.start.RestartDev? then t' == Announcing(ReadyMessage(e, t.gpus))
      else t'.Starting? && StartCallNumber(t'.start) == StartCallNumber(t.start) + 1
  {
  }

  lemma LateBack(p: Progress, cmd: StartEnv, r: Reply)
    requires Idle(p.w0, cmd.envId) && StartInv(p, cmd) && p.t.Starting? && Reallocated(p.t.start)
    requires Tick(p, cmd.envId, r).t.Aborting?
    ensures var q := Tick(p, cmd.envId, r);
      r.Err? && WillReport(p.w0, q.w, q.t.actions,
                           EnvError(cmd.envId, "start", StartFailure(StartCallNumber(p.t.start)) + r.text))
  {
    StartExits(p.w, cmd.envId, p.t, r);
    if DevStage(p.t.start) { DevSays(p.w, cmd.envId, p.t, r); } else { SidecarSays(p.w, cmd.envId, p.t, r); }
  }

  lemma LateSpeaks(p: Progress, cmd: StartEnv, r: Reply)
    requires Idle(p.w0, cmd.envId) && StartInv(p, cmd) && StartSpeaks(p, cmd) && p.t.Starting? && Reallocated(p.t.start)
    ensures StartSpeaks(Tick(p, cmd.envId, r), cmd)
  {
    LateReport(p.w0, cmd, p.replies, r);
    if Tick(p, cmd.envId, r).t.Aborting? {
      LateBack(p, cmd, r);
    } else {
      LateForward(p.w, cmd.envId, p.t, r);
    }
  }

  lemma StartAbortSpeaks(p: Progress, cmd: StartEnv, r: Reply)
    requires StartInv(p, cmd) && StartSpeaks(p, cmd) && p.t.Aborting?
    ensures StartSpeaks(Tick(p, cmd.envId, r), cmd)
  {
    var q := Tick(p, cmd.envId, r);
    StartReportStays(p.w0, cmd, p.replies, r);
    WillReportStep(p.w0, p.w, cmd.envId, p.t.actions, r, StartReport(p.w0, cmd, p.replies));
    if p.t.actions[1..] == [] {
      AllSent(p.w0, q.w, StartReport(p.w0, cmd, p.replies));
    }
  }

  lemma StartEndSpeaks(p: Progress, cmd: StartEnv, r: Reply)
    requires StartInv(p, cmd) && StartSpeaks(p, cmd) && (p.t.Announcing? || p.t.Done?)
    ensures StartSpeaks(Tick(p, cmd.envId, r), cmd)
  {
    StartReportStays(p.w0, cmd, p.replies, r);
  }

  lemma StartTickSpeaks(p: Progress, cmd: StartEnv, r: Reply)
    requires Idle(p.w0, cmd.envId) && StartInv(p, cmd) && StartSpeaks(p, cmd)
    ensures StartSpeaks(Tick(p, cmd.envId, r), cmd)
  {
    match p.t
    case Starting(stage, _, _, _, _) =>
      if Reallocated(stage) { LateSpeaks(p, cmd, r); } else { EarlySpeaks(p, cmd, r); }
    case Aborting(_) => StartAbortSpeaks(p, cmd, r);
    case _ => StartEndSpeaks(p, cmd, r);
  }

  lemma {:induction false} StartRunSpeaks(w: World, cmd: StartEnv, replies: seq<Reply>)
    requires Idle(w, cmd.envId)
    ensures var p := Run(w, cmd.envId, StartTask(cmd), replies); StartSpeaks(p, cmd) && p.replies == replies
  {
    if replies != [] {
      var front, last := replies[..|replies| - 1], replies[|replies| - 1];
      assert replies == front + [last];
      StartRunSpeaks(w, cmd, front);
      StartRunInv(w, cmd, front);
      RunLast(w, cmd.envId, StartTask(cmd), front, last);
      StartTickSpeaks(Run(w, cmd.envId, StartTask(cmd), front), cmd, last);
    }
  }

  /** Every finished Start on an env whose dev container does not run has sent exactly one message: what the first call
      that failed answered, that the GPUs do not suffice, or that the env is ready. */
  lemma StartReports(w: World, cmd: StartEnv, replies: seq<Reply>)
    requires Idle(w, cmd.envId) && Run(w, cmd.envId, StartTask(cmd), replies).t == Done
    ensures Run(w, cmd.envId, StartTask(cmd), replies).w.sent == w.sent + [StartReport(w, cmd, replies)]
  {
    StartRunSpeaks(w, cmd, replies);
  }
}

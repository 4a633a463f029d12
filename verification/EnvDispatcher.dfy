/** The agent's dispatcher: the command handlers as they run against Docker, the allocator and
    the stream. Each handler is shown to be a run of the step machine of HandlerSteps, and its
    outcome is stated outright. */
module EnvDispatcher {
  import opened Wrappers
  import opened AgentProtocol
  import opened Docker
  import opened GpuAllocator
  import opened HandlerSteps
  import opened HandlerOutcomes
  import opened HandlerReports
  import opened ContainerContents
  import GpuLabels
  import Text

  /** Whether the context is done at its k-th check. */
  datatype Context = Context(done: nat -> bool)

  /** Nanoseconds; sleeping takes at least the time asked for. */
  class Clock {
    var now: int
    /** How long was asked to sleep so far. */
    var slept: nat

    constructor ()
      ensures slept == 0
    {
      now, slept := *, 0;
    }

    method Now() returns (t: int)
      modifies this`now
      ensures t == now && old(now) <= now
    {
      var drift: int := *;
      now := if drift > 0 then now + drift else now;
      t := now;
    }

    method Sleep(d: nat)
      modifies this
      ensures old(now) + d <= now && slept == old(slept) + d
    {
      slept := slept + d;
      var drift: int := *;
      now := if drift > 0 then now + d + drift else now + d;
    }
  }

  /** The agent's end of the stream; on a live connection every message sent is delivered, in order. */
  class AgentSender {
    var sent: seq<AgentMessage>

    constructor ()
      ensures sent == []
    {
      sent := [];
    }

    method Send(msg: AgentMessage)
      modifies this
      ensures sent == old(sent) + [msg]
    {
      sent := sent + [msg];
    }
  }

  const POLL_INTERVAL: nat := 50_000_000

  /** The output of a call that worked contains the text. */
  ghost predicate Shows(output: Option<string>, text: string) {
    output.Some? && exists i :: Text.OccursAt(output.value, text, i)
  }

  class Dispatcher {
    const docker: DockerClient
    const alloc: GPUAllocator
    const sender: AgentSender
    const clock: Clock
    const healthTimeout: int
    /** healthTimeout as Go prints a duration. */
    const healthTimeoutText: string
    /** How each wait for a sidecar so far ended. */
    var waits: seq<Reply>

    constructor (docker: DockerClient, alloc: GPUAllocator, sender: AgentSender, clock: Clock, healthTimeout: int,
                 text: string)
      ensures this.docker == docker && this.alloc == alloc && this.sender == sender && this.clock == clock
      ensures this.healthTimeout == healthTimeout && healthTimeoutText == text && waits == []
    {
      this.docker, this.alloc, this.sender, this.clock := docker, alloc, sender, clock;
      this.healthTimeout, this.healthTimeoutText := healthTimeout, text;
      waits := [];
    }

    ghost function View(): World
      reads docker, alloc, sender
    {
      World(alloc.total, docker.containers, docker.volumes, alloc.grants, sender.sent)
    }

    method SendError(envId: string, stage: string, detail: string)
      modifies sender
      ensures sender.sent == old(sender.sent) + [EnvError(envId, stage, detail)]
    {
      sender.Send(EnvError(envId, stage, detail));
    }

    method SendReady(envId: string, sidecarId: string, devId: string, gpus: seq<int>)
      modifies sender
      ensures sender.sent == old(sender.sent) + [EnvReady(envId, sidecarId, devId, ToInt32s(gpus))]
    {
      var idx: seq<int> := [];
      for k := 0 to |gpus|
        invariant idx == ToInt32s(gpus[..k])
        invariant sender.sent == old(sender.sent)
      {
        idx := idx + [ToInt32(gpus[k])];
        assert idx == ToInt32s(gpus[..k + 1]);
      }
      assert gpus[..|gpus|] == gpus;
      sender.Send(EnvReady(envId, sidecarId, devId, idx));
    }

    /** Polls the sidecar until a poll shows a tailnet address, the context is done or the time is over.
        `polls` are the commands run; there are at most ceil(healthTimeout / 50ms) of them. */
    method WaitSidecarHealth(ctx: Context, sidecarId: string) returns (reply: Reply, ghost polls: seq<Executed>)
      modifies docker`execs, clock, this`waits
      ensures waits == old(waits) + [reply]
      ensures docker.execs == old(docker.execs) + polls
      ensures forall k :: 0 <= k < |polls| ==>
        polls[k].container == sidecarId && polls[k].command == ["tailscale", "status"]
      ensures polls != [] ==> (|polls| - 1) * 50_000_000 < healthTimeout
      ensures clock.slept == old(clock.slept) + (|polls| - (if reply.Ok? then 1 else 0)) * 50_000_000
      ensures reply.Ok? <==> polls != [] && Shows(polls[|polls| - 1].output, "100.")
      ensures forall k :: 0 <= k < |polls| - 1 ==> !Shows(polls[k].output, "100.")
      ensures (forall k :: !ctx.done(k)) ==>
        (reply.Ok? <==> exists k :: 0 <= k < |polls| && Shows(polls[k].output, "100."))
      ensures reply.Err? ==>
        || ctx.done(|polls|)
        || (old(clock.now) + healthTimeout <= clock.now
            && reply.text == "sidecar did not report tailnet IP in " + healthTimeoutText)
    {
      polls := [];
      var start := clock.Now();
      var deadline := start + healthTimeout;
      var now := clock.Now();
      var checks := 0;
      while now < deadline
        invariant old(clock.now) <= start && now <= clock.now && checks == |polls|
        invariant start + |polls| * POLL_INTERVAL <= now
        invariant clock.slept == old(clock.slept) + |polls| * POLL_INTERVAL
        invariant docker.execs == old(docker.execs) + polls && waits == old(waits)
        invariant polls != [] ==> (|polls| - 1) * POLL_INTERVAL < healthTimeout
        invariant forall k :: 0 <= k < |polls| ==>
          polls[k].container == sidecarId && polls[k].command == ["tailscale", "status"]
        invariant forall k :: 0 <= k < |polls| ==> !Shows(polls[k].output, "100.")
        decreases deadline - now
      {
        if ctx.done(checks) {
          reply := Err("context canceled");
          waits := waits + [reply];
          return;
        }
        var stdout, r := docker.Exec(sidecarId, ["tailscale", "status"]);
        checks := checks + 1;
        polls := polls + [Executed(sidecarId, ["tailscale", "status"], if r.Ok? then Some(stdout) else None)];
        if r.Ok? {
          if Text.Contains(stdout, "100.") {
            reply := Ok;
            waits := waits + [reply];
            return;
          }
        }
        clock.Sleep(POLL_INTERVAL);
        now := clock.Now();
      }
      reply := Err("sidecar did not report tailnet IP in " + healthTimeoutText);
      waits := waits + [reply];
    }

    /** Rejection of a command whose env id does not parse. */
    ghost predicate Rejected(before: World, envId: string, detail: string)
      reads docker, alloc, sender
    {
      View() == before.(sent := before.sent + [EnvError(envId, "unknown", detail)])
    }

    /** `q` continues the run `p` and describes the present state. */
    ghost predicate Continues(q: Progress, p: Progress, e: EnvId)
      reads this, docker, alloc, sender
    {
      && IsRun(q, e) && q.w0 == p.w0 && q.t0 == p.t0 && q.calls0 == p.calls0 && q.waits0 == p.waits0
      && q.w == View() && q.calls == docker.calls && q.waits == waits
    }

    /** All polls since then were made in this container, with this command. */
    ghost predicate PolledOnly(before: seq<Executed>, id: string)
      reads docker
    {
      before <= docker.execs &&
      forall k :: |before| <= k < |docker.execs| ==>
        docker.execs[k].container == id && docker.execs[k].command == ["tailscale", "status"]
    }

    /** A run that begins here. */
    ghost function BeginHere(t: Task): Progress
      reads this, docker, alloc, sender
    {
      BeginAfter(View(), t, docker.calls, waits)
    }

    /* The error exits shared by the handlers. */

    method Refuse(e: EnvId, stage: string, detail: string, ghost p: Progress) returns (ghost q: Progress)
      requires Continues(p, p, e) && p.t == Refused(e, stage, detail)
      modifies sender
      ensures Continues(q, p, e) && q.t == Done
    {
      LastExitStep(View(), e, Report(e, stage, detail), Ok);
      SendError(e, stage, detail);
      q := Advance(p, e, Ok);
    }

    method ReleaseAndRefuse(e: EnvId, stage: string, detail: string, ghost p: Progress) returns (ghost q: Progress)
      requires Continues(p, p, e) && p.t == ReleaseThenReport(e, stage, detail)
      modifies alloc`grants, sender
      ensures Continues(q, p, e) && q.t == Done
    {
      ExitStep(View(), e, Release, Report(e, stage, detail), Ok);
      alloc.Release(e);
      q := Advance(p, e, Ok);
      q := Refuse(e, stage, detail, q);
    }

    method RefuseAndRelease(e: EnvId, stage: string, detail: string, ghost p: Progress) returns (ghost q: Progress)
      requires Continues(p, p, e) && p.t == ReportThenRelease(e, stage, detail)
      modifies alloc`grants, sender
      ensures Continues(q, p, e) && q.t == Done
    {
      ExitStep(View(), e, Report(e, stage, detail), Release, Ok);
      SendError(e, stage, detail);
      q := Advance(p, e, Ok);
      LastExitStep(View(), e, Release, Ok);
      alloc.Release(e);
      q := Advance(q, e, Ok);
    }

    method DropSidecarAndRefuse(e: EnvId, sidecarId: string, stage: string, detail: string, ghost p: Progress)
      returns (ghost q: Progress)
      requires Continues(p, p, e) && p.t == DropSidecar(e, stage, detail) && sidecarId == SidecarName(e)
      modifies docker`containers, docker`calls, alloc`grants, sender
      ensures Continues(q, p, e) && q.t == Done
    {
      var r := docker.RemoveContainer(sidecarId);
      q := Advance(p, e, r);
      q := ReleaseAndRefuse(e, stage, detail, q);
    }

    method UndoSidecarAndRefuse(e: EnvId, sidecarId: string, stage: string, detail: string, ghost p: Progress)
      returns (ghost q: Progress)
      requires Continues(p, p, e) && p.t == UndoSidecar(e, stage, detail) && sidecarId == SidecarName(e)
      modifies docker`containers, docker`calls, alloc`grants, sender
      ensures Continues(q, p, e) && q.t == Done
    {
      var r := docker.StopContainer(sidecarId);
      q := Advance(p, e, r);
      q := DropSidecarAndRefuse(e, sidecarId, stage, detail, q);
    }

    method UndoBothAndRefuse(e: EnvId, sidecarId: string, devId: string, stage: string, detail: string,
                             ghost p: Progress)
      returns (ghost q: Progress)
      requires Continues(p, p, e) && p.t == UndoBoth(e, stage, detail)
      requires sidecarId == SidecarName(e) && devId == DevName(e)
      modifies docker`containers, docker`calls, alloc`grants, sender
      ensures Continues(q, p, e) && q.t == Done
    {
      var r := docker.RemoveContainer(devId);
      q := Advance(p, e, r);
      q := UndoSidecarAndRefuse(e, sidecarId, stage, detail, q);
    }

    method Announce(e: EnvId, sidecarId: string, devId: string, gpus: seq<int>, ghost p: Progress)
      returns (ghost q: Progress)
      requires Continues(p, p, e) && p.t == Announcing(ReadyMessage(e, gpus))
      requires sidecarId == SidecarName(e) && devId == DevName(e)
      modifies sender
      ensures Continues(q, p, e) && q.t == Done
    {
      SendReady(e, sidecarId, devId, gpus);
      q := Advance(p, e, Ok);
    }

    /* Create */

    method HandleCreate(ctx: Context, cmd: CreateEnv) returns (ghost p: Progress)
      modifies docker, alloc`grants, sender, clock, this`waits
      ensures !IsUuid(cmd.envId) ==>
        |sender.sent| > 0 && var last := sender.sent[|sender.sent| - 1];
        last.EnvError? && "invalid env_id: " <= last.detail && Rejected(old(View()), cmd.envId, last.detail)
      ensures IsUuid(cmd.envId) ==>
        Continues(p, old(BeginHere(CreateTask(cmd))), cmd.envId) && p.t == Done
      ensures IsUuid(cmd.envId) && Unknown(old(View()), cmd.envId) ==>
        CreateDone(old(View()), View(), cmd) || CreateFailed(old(View()), View(), cmd.envId, p.failed)
      ensures IsUuid(cmd.envId) && Unknown(old(View()), cmd.envId) ==>
        && sender.sent == old(sender.sent) + [CreateReport(old(View()), cmd, p.replies)]
        && (sender.sent[|old(sender.sent)|].EnvReady? ==>
              CreatedAs(docker.containers, cmd, Held(alloc.grants, cmd.envId)))
      ensures PolledOnly(old(docker.execs), "flex-net-" + cmd.envId)
      ensures !IsUuid(cmd.envId) ==> docker.calls == old(docker.calls)
    {
      p := BeginHere(CreateTask(cmd));
      if !IsUuid(cmd.envId) {
        var text: string := *;
        var detail := "invalid env_id: " + text;
        SendError(cmd.envId, "unknown", detail);
        return;
      }
      p := CreateFor(ctx, cmd);
      RunIs(p, cmd.envId);
      if Unknown(old(View()), cmd.envId) {
        CreateAllOrNothing(old(View()), cmd, p.replies);
        CreateReports(old(View()), cmd, p.replies);
        if CreateDone(old(View()), View(), cmd) {
          CreateBuilds(old(View()), View(), cmd);
        }
      }
    }

    method CreateFor(ctx: Context, cmd: CreateEnv) returns (ghost p: Progress)
      modifies docker, alloc`grants, sender, clock, this`waits
      ensures Continues(p, old(BeginHere(CreateTask(cmd))), cmd.envId) && p.t == Done
      ensures PolledOnly(old(docker.execs), "flex-net-" + cmd.envId)
    {
      p := BeginHere(CreateTask(cmd));
      BeginIsRun(p.w, p.t, docker.calls, waits, cmd.envId);
      var e := cmd.envId;
      var picked := alloc.Allocate(e, cmd.gpuRequest);
      p := Advance(p, e, Ok);
      if picked.None? {
        p := Refuse(e, "unknown", ShortageText(cmd.gpuRequest, |Free(alloc.total, Used(alloc.grants))|), p);
        return;
      }
      var indices := picked.value;
      var up;
      up, p := CreateSidecarFor(ctx, cmd, indices, p);
      if !up {
        return;
      }
      p := CreateDevFor(cmd, indices, p);
    }

    /** Creates and starts the sidecar and waits for its network; `up` says whether that worked. */
    method CreateSidecarFor(ctx: Context, cmd: CreateEnv, indices: seq<int>, ghost p: Progress)
      returns (up: bool, ghost q: Progress)
      requires Continues(p, p, cmd.envId) && p.t == Creating(CreateSidecar, cmd, indices)
      modifies docker, alloc`grants, sender, clock, this`waits
      ensures Continues(q, p, cmd.envId) && q.t == if up then Creating(CreateDev, cmd, indices) else Done
      ensures PolledOnly(old(docker.execs), "flex-net-" + cmd.envId)
    {
      var e := cmd.envId;
      var sidecarId, r := docker.CreateContainer(SidecarSpec(cmd));
      q := Advance(p, e, r);
      if r.Err? {
        q := ReleaseAndRefuse(e, "sidecar_start", r.text, q);
        return false, q;
      }
      up, q := StartSidecarFor(ctx, cmd, sidecarId, indices, q);
    }

    method StartSidecarFor(ctx: Context, cmd: CreateEnv, sidecarId: string, indices: seq<int>, ghost p: Progress)
      returns (up: bool, ghost q: Progress)
      requires Continues(p, p, cmd.envId) && p.t == Creating(StartSidecar, cmd, indices) &&
        sidecarId == SidecarName(cmd.envId)
      modifies docker, alloc`grants, sender, clock, this`waits
      ensures Continues(q, p, cmd.envId) && q.t == if up then Creating(CreateDev, cmd, indices) else Done
      ensures PolledOnly(old(docker.execs), "flex-net-" + cmd.envId)
    {
      var e := cmd.envId;
      var r := docker.StartContainer(sidecarId);
      q := Advance(p, e, r);
      if r.Err? {
        q := DropSidecarAndRefuse(e, sidecarId, "sidecar_start", r.text, q);
        return false, q;
      }
      ghost var polls;
      r, polls := WaitSidecarHealth(ctx, sidecarId);
      q := Advance(q, e, r);
      if r.Err? {
        q := UndoSidecarAndRefuse(e, sidecarId, "sidecar_health", r.text, q);
        return false, q;
      }
      up := true;
    }

    method CreateDevFor(cmd: CreateEnv, indices: seq<int>, ghost p: Progress) returns (ghost q: Progress)
      requires Continues(p, p, cmd.envId) && p.t == Creating(CreateDev, cmd, indices)
      modifies docker`containers, docker`calls, alloc`grants, sender
      ensures Continues(q, p, cmd.envId) && q.t == Done
    {
      var e := cmd.envId;
      var sidecarId := SidecarName(e);
      var devId, r := docker.CreateContainer(DevSpec(cmd, indices));
      q := Advance(p, e, r);
      if r.Err? {
        q := UndoSidecarAndRefuse(e, sidecarId, "dev_start", r.text, q);
        return;
      }
      r := docker.StartContainer(devId);
      q := Advance(q, e, r);
      if r.Err? {
        q := UndoBothAndRefuse(e, sidecarId, devId, "dev_start", r.text, q);
        return;
      }
      q := Announce(e, sidecarId, devId, indices, q);
    }

    /* Stop and Delete */

    method HandleStop(ctx: Context, envId: string) returns (ghost p: Progress)
      modifies docker`containers, docker`calls, alloc`grants, sender
      ensures !IsUuid(envId) ==> Rejected(old(View()), envId, "invalid env_id")
      ensures IsUuid(envId) ==>
        Continues(p, old(BeginHere(StopTask(envId))), envId) && p.t == Done
      ensures IsUuid(envId) ==>
        sender.sent == old(sender.sent) + [EnvStopped(envId)] && alloc.grants == old(alloc.grants) - {envId}
      ensures IsUuid(envId) && p.failed == {} ==>
        HaltedIn(old(docker.containers), docker.containers, envId)
      ensures !IsUuid(envId) ==> docker.calls == old(docker.calls)
    {
      p := BeginHere(StopTask(envId));
      if !IsUuid(envId) {
        SendError(envId, "unknown", "invalid env_id");
        return;
      }
      p := StopFor(envId);
      RunIs(p, envId);
      StopOutcome(old(View()), envId, p.replies);
      StoppedAreHalted(old(docker.containers), envId);
    }

    method StopFor(envId: EnvId) returns (ghost p: Progress)
      modifies docker`containers, docker`calls, alloc`grants, sender
      ensures Continues(p, old(BeginHere(StopTask(envId))), envId) && p.t == Done
    {
      p := BeginHere(StopTask(envId));
      BeginIsRun(p.w, p.t, docker.calls, waits, envId);
      var r := docker.StopContainer("flex-env-" + envId);
      p := Advance(p, envId, r);
      r := docker.StopContainer("flex-net-" + envId);
      p := Advance(p, envId, r);
      p := ReleaseAndReport(envId, EnvStopped(envId), p);
    }

    method HandleDelete(ctx: Context, envId: string) returns (ghost p: Progress)
      modifies docker`containers, docker`volumes, docker`calls, alloc`grants, sender
      ensures !IsUuid(envId) ==> Rejected(old(View()), envId, "invalid env_id")
      ensures IsUuid(envId) ==>
        Continues(p, old(BeginHere(DeleteTask(envId))), envId) && p.t == Done
      ensures IsUuid(envId) ==>
        sender.sent == old(sender.sent) + [EnvDeleted(envId)] && alloc.grants == old(alloc.grants) - {envId}
      ensures IsUuid(envId) && p.failed == {} ==>
        && docker.containers == old(docker.containers) - {"flex-env-" + envId, "flex-net-" + envId}
        && docker.volumes == old(docker.volumes) - {"flex-env-" + envId}
      ensures !IsUuid(envId) ==> docker.calls == old(docker.calls)
    {
      p := BeginHere(DeleteTask(envId));
      if !IsUuid(envId) {
        SendError(envId, "unknown", "invalid env_id");
        return;
      }
      p := DeleteFor(envId);
      RunIs(p, envId);
      DeleteOutcome(old(View()), envId, p.replies);
    }

    method DeleteFor(envId: EnvId) returns (ghost p: Progress)
      modifies docker`containers, docker`volumes, docker`calls, alloc`grants, sender
      ensures Continues(p, old(BeginHere(DeleteTask(envId))), envId) && p.t == Done
    {
      p := BeginHere(DeleteTask(envId));
      BeginIsRun(p.w, p.t, docker.calls, waits, envId);
      p := StopAndRemove(envId, p);
      var r := docker.RemoveVolume("flex-env-" + envId);
      p := Advance(p, envId, r);
      p := ReleaseAndReport(envId, EnvDeleted(envId), p);
    }

    method ReleaseAndReport(envId: EnvId, msg: AgentMessage, ghost p: Progress) returns (ghost q: Progress)
      requires Continues(p, p, envId) && p.t == Stopping([Release, Send(msg)])
      modifies alloc`grants, sender
      ensures Continues(q, p, envId) && q.t == Done
    {
      LineStep(View(), envId, [Release, Send(msg)], Ok);
      assert [Release, Send(msg)][1..] == [Send(msg)];
      alloc.Release(envId);
      q := Advance(p, envId, Ok);
      LineStep(View(), envId, [Send(msg)], Ok);
      sender.Send(msg);
      q := Advance(q, envId, Ok);
    }

    method StopAndRemove(envId: EnvId, ghost p: Progress) returns (ghost q: Progress)
      requires Continues(p, p, envId) && p.t == DeleteTask(envId)
      modifies docker`containers, docker`calls
      ensures Continues(q, p, envId)
      ensures q.t == Stopping([RemoveVolume("flex-env-" + envId), Release, Send(EnvDeleted(envId))])
    {
      var r := docker.StopContainer("flex-env-" + envId);
      q := Advance(p, envId, r);
      r := docker.StopContainer("flex-net-" + envId);
      q := Advance(q, envId, r);
      r := docker.RemoveContainer("flex-env-" + envId);
      q := Advance(q, envId, r);
      r := docker.RemoveContainer("flex-net-" + envId);
      q := Advance(q, envId, r);
    }

    /* Start */

    method HandleStart(ctx: Context, cmd: StartEnv) returns (ghost p: Progress)
      modifies docker, alloc`grants, sender, clock, this`waits
      ensures !IsUuid(cmd.envId) ==> Rejected(old(View()), cmd.envId, "invalid env_id")
      ensures IsUuid(cmd.envId) ==>
        Continues(p, old(BeginHere(StartTask(cmd))), cmd.envId) && p.t == Done
      ensures IsUuid(cmd.envId) && Idle(old(View()), cmd.envId) ==>
        StartDone(old(View()), View(), cmd) || StartFailed(old(View()), View(), cmd.envId, p.failed)
      ensures IsUuid(cmd.envId) && Idle(old(View()), cmd.envId) ==>
        && sender.sent == old(sender.sent) + [StartReport(old(View()), cmd, p.replies)]
        && (sender.sent[|old(sender.sent)|].EnvReady? ==>
              RestartedAs(old(docker.containers), docker.containers, cmd, Held(alloc.grants, cmd.envId)))
      ensures PolledOnly(old(docker.execs), "flex-net-" + cmd.envId)
      ensures !IsUuid(cmd.envId) ==> docker.calls == old(docker.calls)
    {
      p := BeginHere(StartTask(cmd));
      if !IsUuid(cmd.envId) {
        SendError(cmd.envId, "unknown", "invalid env_id");
        return;
      }
      p := StartFor(ctx, cmd);
      RunIs(p, cmd.envId);
      if Idle(old(View()), cmd.envId) {
        StartAllOrNothing(old(View()), cmd, p.replies);
        StartReports(old(View()), cmd, p.replies);
        if StartDone(old(View()), View(), cmd) {
          StartBuilds(old(View()), View(), cmd);
        }
      }
    }

    method StartFor(ctx: Context, cmd: StartEnv) returns (ghost p: Progress)
      modifies docker, alloc`grants, sender, clock, this`waits
      ensures Continues(p, old(BeginHere(StartTask(cmd))), cmd.envId) && p.t == Done
      ensures PolledOnly(old(docker.execs), "flex-net-" + cmd.envId)
    {
      p := BeginHere(StartTask(cmd));
      BeginIsRun(p.w, p.t, docker.calls, waits, cmd.envId);
      var up, devLabels, sidecarLabels;
      up, devLabels, sidecarLabels, p := InspectFor(cmd, p);
      if !up {
        return;
      }
      var gpus;
      up, gpus, p := Reallocate(cmd, devLabels, sidecarLabels, p);
      if !up {
        return;
      }
      up, p := RestartSidecarFor(ctx, cmd, devLabels, sidecarLabels, gpus, p);
      if !up {
        return;
      }
      p := RestartDevFor(cmd, devLabels, sidecarLabels, gpus, p);
    }

    /** Looks up both containers for their labels. */
    method InspectFor(cmd: StartEnv, ghost p: Progress)
      returns (up: bool, devLabels: Labels, sidecarLabels: Labels, ghost q: Progress)
      requires Continues(p, p, cmd.envId) && p.t == StartTask(cmd)
      modifies docker`calls, sender
      ensures Continues(q, p, cmd.envId)
      ensures q.t == if up then Starting(ReallocateGpus, cmd, devLabels, sidecarLabels, []) else Done
    {
      var e := cmd.envId;
      devLabels, sidecarLabels := NO_LABELS, NO_LABELS;
      var devInfo, r := docker.InspectContainer(DevName(e));
      q := Advance(p, e, r);
      if r.Err? {
        q := Refuse(e, "start", "dev container not found: " + r.text, q);
        return false, devLabels, sidecarLabels, q;
      }
      devLabels := devInfo.spec.labels;
      var sidecarInfo;
      sidecarInfo, r := docker.InspectContainer(SidecarName(e));
      q := Advance(q, e, r);
      if r.Err? {
        q := Refuse(e, "start", "sidecar container not found: " + r.text, q);
        return false, devLabels, sidecarLabels, q;
      }
      sidecarLabels := sidecarInfo.spec.labels;
      up := true;
    }

    /** Picks as many GPUs as the label lists; the list itself is not reused. */
    method Reallocate(cmd: StartEnv, devLabels: Labels, sidecarLabels: Labels, ghost p: Progress)
      returns (up: bool, gpus: seq<int>, ghost q: Progress)
      requires Continues(p, p, cmd.envId)
      requires p.t.Starting? && p.t.(gpus := []) == Starting(ReallocateGpus, cmd, devLabels, sidecarLabels, [])
      modifies alloc`grants, sender
      ensures Continues(q, p, cmd.envId)
      ensures q.t == if up then Starting(RemoveOldSidecar, cmd, devLabels, sidecarLabels, gpus) else Done
    {
      var e := cmd.envId;
      gpus := GpuLabels.ParseIndicesCSV(devLabels.gpuIndices);
      if |gpus| > 0 {
        var picked := alloc.Allocate(e, |gpus|);
        q := Advance(p, e, Ok);
        if picked.None? {
          q := Refuse(e, "start", ShortageText(|gpus|, |Free(alloc.total, Used(alloc.grants))|), q);
          return false, gpus, q;
        }
        gpus := picked.value;
      } else {
        q := Advance(p, e, Ok);
      }
      up := true;
    }

    /** Replaces the sidecar by a new one with the new key, and waits for its network. */
    method RestartSidecarFor(ctx: Context, cmd: StartEnv, devLabels: Labels, sidecarLabels: Labels, gpus: seq<int>,
                             ghost p: Progress)
      returns (up: bool, ghost q: Progress)
      requires Continues(p, p, cmd.envId) && p.t == Starting(RemoveOldSidecar, cmd, devLabels, sidecarLabels, gpus)
      modifies docker, alloc`grants, sender, clock, this`waits
      ensures Continues(q, p, cmd.envId)
      ensures q.t == if up then Starting(RemoveOldDev, cmd, devLabels, sidecarLabels, gpus) else Done
      ensures PolledOnly(old(docker.execs), "flex-net-" + cmd.envId)
    {
      var e := cmd.envId;
      up, q := ReplaceSidecar(cmd, devLabels, sidecarLabels, gpus, p);
      if !up {
        return;
      }
      up, q := StartNewSidecar(ctx, cmd, devLabels, sidecarLabels, gpus, q);
    }

    method StartNewSidecar(ctx: Context, cmd: StartEnv, devLabels: Labels, sidecarLabels: Labels, gpus: seq<int>,
                           ghost p: Progress)
      returns (up: bool, ghost q: Progress)
      requires Continues(p, p, cmd.envId) && p.t == Starting(RestartSidecar, cmd, devLabels, sidecarLabels, gpus)
      modifies docker, alloc`grants, sender, clock, this`waits
      ensures Continues(q, p, cmd.envId)
      ensures q.t == if up then Starting(RemoveOldDev, cmd, devLabels, sidecarLabels, gpus) else Done
      ensures PolledOnly(old(docker.execs), "flex-net-" + cmd.envId)
    {
      var e := cmd.envId;
      var sidecarId := SidecarName(e);
      var r := docker.StartContainer(sidecarId);
      q := Advance(p, e, r);
      if r.Err? {
        q := DropSidecarAndRefuse(e, sidecarId, "start", "start sidecar: " + r.text, q);
        return false, q;
      }
      ghost var polls;
      r, polls := WaitSidecarHealth(ctx, sidecarId);
      q := Advance(q, e, r);
      if r.Err? {
        q := UndoSidecarAndRefuse(e, sidecarId, "start", "sidecar health: " + r.text, q);
        return false, q;
      }
      up := true;
    }

    method ReplaceSidecar(cmd: StartEnv, devLabels: Labels, sidecarLabels: Labels, gpus: seq<int>, ghost p: Progress)
      returns (up: bool, ghost q: Progress)
      requires Continues(p, p, cmd.envId) && p.t == Starting(RemoveOldSidecar, cmd, devLabels, sidecarLabels, gpus)
      modifies docker`containers, docker`calls, alloc`grants, sender
      ensures Continues(q, p, cmd.envId)
      ensures q.t == if up then Starting(RestartSidecar, cmd, devLabels, sidecarLabels, gpus) else Done
    {
      var e := cmd.envId;
      var r := docker.RemoveContainer(SidecarName(e));
      q := Advance(p, e, r);
      if r.Err? {
        q := RefuseAndRelease(e, "start", "rm sidecar: " + r.text, q);
        return false, q;
      }
      var sidecarId;
      sidecarId, r := docker.CreateContainer(RestartedSidecarSpec(cmd, sidecarLabels));
      q := Advance(q, e, r);
      if r.Err? {
        q := RefuseAndRelease(e, "start", "create sidecar: " + r.text, q);
        return false, q;
      }
      up := true;
    }

    /** Replaces the dev container by one with the new keys and the newly picked GPUs. */
    /** Replaces the dev container by a new one with the new keys, starts it and reports. */
    method RestartDevFor(cmd: StartEnv, devLabels: Labels, sidecarLabels: Labels, gpus: seq<int>, ghost p: Progress)
      returns (ghost q: Progress)
      requires Continues(p, p, cmd.envId) && p.t == Starting(RemoveOldDev, cmd, devLabels, sidecarLabels, gpus)
      modifies docker`containers, docker`calls, alloc`grants, sender
      ensures Continues(q, p, cmd.envId) && q.t == Done
    {
      var e := cmd.envId;
      var r := docker.RemoveContainer(DevName(e));
      q := Advance(p, e, r);
      if r.Err? {
        q := UndoSidecarAndRefuse(e, SidecarName(e), "start", "rm dev: " + r.text, q);
        return;
      }
      q := RecreateDevFor(cmd, devLabels, sidecarLabels, gpus, q);
    }

    method RecreateDevFor(cmd: StartEnv, devLabels: Labels, sidecarLabels: Labels, gpus: seq<int>, ghost p: Progress)
      returns (ghost q: Progress)
      requires Continues(p, p, cmd.envId) && p.t == Starting(RecreateDev, cmd, devLabels, sidecarLabels, gpus)
      modifies docker`containers, docker`calls, alloc`grants, sender
      ensures Continues(q, p, cmd.envId) && q.t == Done
    {
      var e := cmd.envId;
      var devId, r := docker.CreateContainer(RestartedDevSpec(cmd, devLabels, gpus));
      q := Advance(p, e, r);
      if r.Err? {
        q := UndoSidecarAndRefuse(e, SidecarName(e), "start", "create dev: " + r.text, q);
        return;
      }
      q := StartNewDev(cmd, devLabels, sidecarLabels, gpus, q);
    }

    method StartNewDev(cmd: StartEnv, devLabels: Labels, sidecarLabels: Labels, gpus: seq<int>, ghost p: Progress)
      returns (ghost q: Progress)
      requires Continues(p, p, cmd.envId) && p.t == Starting(RestartDev, cmd, devLabels, sidecarLabels, gpus)
      modifies docker`containers, docker`calls, alloc`grants, sender
      ensures Continues(q, p, cmd.envId) && q.t == Done
    {
      var e := cmd.envId;
      var r := docker.StartContainer(DevName(e));
      q := Advance(p, e, r);
      if r.Err? {
        q := UndoBothAndRefuse(e, SidecarName(e), DevName(e), "start", "start dev: " + r.text, q);
        return;
      }
      q := Announce(e, SidecarName(e), DevName(e), gpus, q);
    }
  }
}

/** Over all stops and starts an env keeps its own home volume, the one Delete removes, and its own network. */
module Wiring {
  import opened Wrappers
  import opened AgentProtocol
  import opened Docker
  import opened HandlerSteps
  import opened HandlerOutcomes
  import opened EnvInvariant
  import opened AgentSystem
  import opened SystemTheorems
  import opened HandlerIsolation

  /** The container mounts the env's volume at /home/dev, says so in its label, and is in the env's sidecar's
      network. */
  predicate IsWired(spec: ContainerSpec, e: EnvId) {
    && spec.labels.volumeName == "flex-env-" + e
    && spec.volumeMounts == [VolumeMount("flex-env-" + e, "/home/dev")]
    && spec.networkMode == "container:" + ("flex-net-" + e)
  }

  /** And a Start in flight will see to it that the next one does. */
  predicate Wired(w: World, e: EnvId, t: Task) {
    && (DevName(e) in w.containers ==> IsWired(w.containers[DevName(e)].spec, e))
    && (t.Starting? && !t.start.InspectDev? ==> t.devLabels.volumeName == "flex-env-" + e)
  }

  lemma CreatingStaysWired(w: World, e: EnvId, t: Task, r: Reply)
    requires t.Creating? && t.createCmd.envId == e && Wired(w, e, t)
    ensures var (w', t') := Step(w, e, t, r); Wired(w', e, t')
  {
    NamesDiffer(e, e);
  }

  lemma StartingSidecarStaysWired(w: World, e: EnvId, t: Task, r: Reply)
    requires t.Starting? && t.startCmd.envId == e && Wired(w, e, t) && !DevStage(t.start)
    ensures var (w', t') := Step(w, e, t, r); Wired(w', e, t')
  {
    NamesDiffer(e, e);
  }

  lemma StartingDevStaysWired(w: World, e: EnvId, t: Task, r: Reply)
    requires t.Starting? && t.startCmd.envId == e && Wired(w, e, t) && DevStage(t.start)
    ensures var (w', t') := Step(w, e, t, r); Wired(w', e, t')
  {
    NamesDiffer(e, e);
  }

  lemma LineStaysWired(w: World, e: EnvId, t: Task, r: Reply)
    requires !t.Creating? && !t.Starting? && Wired(w, e, t)
    ensures var (w', t') := Step(w, e, t, r); Wired(w', e, t')
  {
  }

  lemma StepStaysWired(w: World, e: EnvId, t: Task, r: Reply)
    requires OwnTask(t, e) && Wired(w, e, t)
    ensures var (w', t') := Step(w, e, t, r); Wired(w', e, t')
  {
    match t
    case Creating(_, _, _) => CreatingStaysWired(w, e, t, r);
    case Starting(stage, _, _, _, _) =>
      if DevStage(stage) { StartingDevStaysWired(w, e, t, r); } else { StartingSidecarStaysWired(w, e, t, r); }
    case _ => LineStaysWired(w, e, t, r);
  }

  lemma OwnStepStaysWired(s: System, e: EnvId, r: Reply)
    requires e in s.tasks && OwnTask(s.tasks[e], e) && Wired(s.world, e, s.tasks[e])
    ensures var s1 := AfterStep(s, e, r); OwnTask(TaskOf(s1, e), e) && Wired(s1.world, e, TaskOf(s1, e))
  {
    StaysOwn(s.world, e, s.tasks[e], r);
    StepStaysWired(s.world, e, s.tasks[e], r);
  }

  lemma CommandStaysWired(s: System, ev: Event, e: EnvId)
    requires Enabled(s, ev) && Commands(ev, e) && Wired(s.world, e, Done)
    ensures var s1 := After(s, ev); OwnTask(TaskOf(s1, e), e) && Wired(s1.world, e, TaskOf(s1, e))
  {
  }

  lemma EventStaysWired(s: System, ev: Event, e: EnvId)
    requires Inv(s) && Enabled(s, ev) && OwnTask(TaskOf(s, e), e) && Wired(s.world, e, TaskOf(s, e))
    ensures var s1 := After(s, ev); OwnTask(TaskOf(s1, e), e) && Wired(s1.world, e, TaskOf(s1, e))
  {
    if StepsOf(ev, e) {
      OwnStepStaysWired(s, e, ev.reply);
    } else if Commands(ev, e) {
      CommandStaysWired(s, ev, e);
    } else {
      ForeignEvent(s, ev, e);
    }
  }

  /** In every run a dev container, running or not, has its env's own volume as its home and its env's own
      sidecar as its network, however often it was rebuilt. */
  lemma {:induction false} OwnVolumeAndNetwork(s: System, evs: seq<Event>, e: EnvId)
    requires Inv(s) && Legal(s, evs) && OwnTask(TaskOf(s, e), e) && Wired(s.world, e, TaskOf(s, e))
    ensures var z := Exec(s, evs);
      && Wired(z.world, e, TaskOf(z, e))
      && (DevName(e) in z.world.containers ==> IsWired(z.world.containers[DevName(e)].spec, e))
    decreases |evs|
  {
    if evs != [] {
      EventKeepsInv(s, evs[0]);
      EventStaysWired(s, evs[0], e);
      OwnVolumeAndNetwork(After(s, evs[0]), evs[1..], e);
    }
  }

  /** An env the node does not know may begin such a run. */
  lemma UnknownIsWired(w: World, e: EnvId)
    requires Unknown(w, e)
    ensures Wired(w, e, Done) && OwnTask(Done, e)
  {
  }
}

/** How far the container labels carry: rebuilding containers on Start, and rebuilding the
    allocator with RestoreFromDocker. */
module Restarts {
  import opened Wrappers
  import opened AgentProtocol
  import opened Docker
  import opened GpuAllocator
  import opened EnvTable
  import opened HandlerSteps
  import opened HandlerOutcomes
  import opened EnvInvariant
  import opened AgentSystem
  import opened SystemTheorems
  import Decimal
  import GpuLabels

  /* ---- Start rebuilds containers from labels ---- */

  /** The sidecar's labels are enough: Start builds what Create would with the new key. */
  lemma RestartRebuildsSidecar(create: CreateEnv, start: StartEnv)
    requires start.envId == create.envId
    ensures RestartedSidecarSpec(start, SidecarSpec(create).labels) ==
      SidecarSpec(create.(preauthKey := start.preauthKey))
  {
  }

  predicate Int64s(idx: seq<int>) {
    forall i :: i in idx ==> Decimal.IsInt64(i)
  }

  /** The dev container's labels are not: the command is not among them, and the GPU list is the one of the
      Create. Start builds what Create would build now exactly if there was no command and the GPUs are the same. */
  lemma RestartRebuildsDevIff(create: CreateEnv, start: StartEnv, before: seq<int>, now: seq<int>)
    requires start.envId == create.envId && Int64s(before) && Int64s(now)
    ensures RestartedDevSpec(start, DevSpec(create, before).labels, now) ==
      DevSpec(create.(authorizedKeys := start.authorizedKeys), now)
      <==> create.defaultCmd == [] && before == now
  {
    if GpuLabels.Csv(before) == GpuLabels.Csv(now) {
      GpuLabels.CsvInjective(before, now);
    }
  }

  /** After a restart the label names the GPUs of the Create, and the right number of them; it names
      the attached ones exactly if the allocator happened to pick the same again. */
  lemma LabelGoesStale(create: CreateEnv, start: StartEnv, before: seq<int>, now: seq<int>)
    requires Int64s(before)
    ensures var spec := RestartedDevSpec(start, DevSpec(create, before).labels, now);
      && GpuLabels.ParseCsv(spec.labels.gpuIndices) == before
      && (GpuLabels.ParseCsv(spec.labels.gpuIndices) == spec.gpuIndices <==> now == before)
  {
    GpuLabels.ParseCsvOfCsv(before);
  }

  /* ---- Restoring the allocator ---- */

  ghost predicate DevsHaveIds(w: World) {
    forall e :: DevName(e) in w.containers ==> IsUuid(e)
  }

  lemma RestoredEntries(s: System, list: seq<Container>, e: EnvId)
    requires Inv(s) && ListsDevs(list, s.world.containers) && DevsHaveIds(s.world)
    ensures e in Restored(list, map[]) <==> DevName(e) in s.world.containers
    ensures e in Restored(list, map[]) ==>
      Restored(list, map[])[e] == GpuLabels.ParseCsv(s.world.containers[DevName(e)].spec.labels.gpuIndices)
  {
    RestoredReadsLabels(list);
    assert EnvOk(s, e);
    var cs := s.world.containers;
    if DevName(e) in cs {
      assert cs[DevName(e)] in cs.Values && cs[DevName(e)] in list;
    }
    if e in Restored(list, map[]) {
      var indices := Restored(list, map[])[e];
      assert SomeLabel(list, e, indices);
      var c :| c in list && c.spec.labels.envId == e && indices == GpuLabels.ParseCsv(c.spec.labels.gpuIndices);
      var n :| n in cs && cs[n] == c;
    }
  }

  /** The GPUs the label of the env's dev container lists; none without a dev container. */
  function LabelledGpus(w: World, e: EnvId): seq<int> {
    GpuLabels.ParseCsv(LabelsOf(w, DevName(e)).gpuIndices)
  }

  /** A dev container whose label lists GPUs runs, has them attached, and did not outlive a failed halt. */
  predicate LabelHolds(w: World, faults: set<EnvId>, e: EnvId) {
    LabelledGpus(w, e) != [] ==> DevRuns(w, e) && e !in faults && LabelledGpus(w, e) == Attached(w, e)
  }

  /** What is restored for an env, and what the live allocator holds for it while no handler runs. */
  lemma RestoredAndLive(s: System, list: seq<Container>, e: EnvId)
    requires Inv(s) && s.tasks == map[] && ListsDevs(list, s.world.containers) && DevsHaveIds(s.world)
    ensures Held(Restored(list, map[]), e) == LabelledGpus(s.world, e)
    ensures Held(s.world.grants, e) == if DevRuns(s.world, e) && e !in s.faults then Attached(s.world, e) else []
    ensures LabelledGpus(s.world, e) == [] && DevRuns(s.world, e) ==> Attached(s.world, e) == []
  {
    RestoredEntries(s, list, e);
    assert EnvOk(s, e);
    assert GpuLabels.ParseCsv("") == [];
  }

  /** With no handler in flight, a fresh allocator that restores from Docker holds for every env what the live one holds
      exactly if every dev container whose label lists GPUs runs, has just these attached, and did not outlive a
      failed halt. (A stopped env breaks it: its container is still listed. So does a restarted one that was given
      other GPUs: its label is stale.) */
  lemma RestoreAgreesIff(s: System, list: seq<Container>)
    requires Inv(s) && s.tasks == map[] && ListsDevs(list, s.world.containers) && DevsHaveIds(s.world)
    ensures (forall e :: Held(Restored(list, map[]), e) == Held(s.world.grants, e)) <==>
      forall e :: LabelHolds(s.world, s.faults, e)
  {
    forall e ensures Held(Restored(list, map[]), e) == Held(s.world.grants, e) <==> LabelHolds(s.world, s.faults, e) {
      RestoredAndLive(s, list, e);
    }
  }

  /** Entries without GPUs apart, holding the same means being the same: if every dev container's label lists GPUs,
      the two maps are equal under that condition. */
  lemma RestoredMapIff(s: System, list: seq<Container>)
    requires Inv(s) && s.tasks == map[] && ListsDevs(list, s.world.containers) && DevsHaveIds(s.world)
    requires forall e :: DevName(e) in s.world.containers ==> LabelledGpus(s.world, e) != []
    ensures Restored(list, map[]) == s.world.grants <==> forall e :: LabelHolds(s.world, s.faults, e)
  {
    var g := Restored(list, map[]);
    RestoreAgreesIff(s, list);
    forall e
      ensures e in g <==> Held(g, e) != []
      ensures e in s.world.grants <==> Held(s.world.grants, e) != []
    {
      RestoredEntries(s, list, e);
      RestoredAndLive(s, list, e);
      assert EnvOk(s, e);
    }
    if forall e :: Held(g, e) == Held(s.world.grants, e) {
      forall e ensures Lookup(g, e) == Lookup(s.world.grants, e) {
      }
      SameLookups(g, s.world.grants);
    }
  }

  /** Allocators that hold the same for every env pick the same, whether or not they have entries without GPUs. */
  lemma SameHeldPicksSame(total: seq<int>, g: Grants, h: Grants, count: nat)
    requires forall e :: Held(g, e) == Held(h, e)
    ensures Pick(total, g, count) == Pick(total, h, count)
  {
    forall i ensures i in Used(g) <==> i in Used(h) {
      if i in Used(g) {
        var e :| e in g && i in g[e];
        assert i in Held(h, e);
      }
      if i in Used(h) {
        var e :| e in h && i in h[e];
        assert i in Held(g, e);
      }
    }
    assert Used(g) == Used(h);
  }

  /* ---- Histories of creates and deletes ---- */

  /** An event of such a history, with no ignored call leaving anything behind. */
  predicate CreateDeleteEvent(s: System, ev: Event) {
    match ev
    case BeginStop(_) => false
    case BeginStart(_) => false
    case HandlerStep(e, r) => e in s.tasks && !LeavesBehind(s.world, s.tasks[e], r)
    case _ => true
  }

  predicate CreateDeleteHistory(s: System, evs: seq<Event>)
    requires Legal(s, evs)
    decreases |evs|
  {
    evs == [] || (CreateDeleteEvent(s, evs[0]) && CreateDeleteHistory(After(s, evs[0]), evs[1..]))
  }

  /** What such a history keeps of one env. */
  predicate Pristine(w: World, e: EnvId, t: Task) {
    && !t.Starting?
    && (DevName(e) in w.containers ==>
          && IsUuid(e)
          && GpuLabels.ParseCsv(w.containers[DevName(e)].spec.labels.gpuIndices) == Attached(w, e)
          && match t
             case Done => DevRuns(w, e) && e in w.grants
             case Announcing(_) => e in w.grants
             case Aborting(acts) => Remove(DevName(e)) in acts
             case Stopping(acts) => Remove(DevName(e)) in acts
             case Creating(_, _, gpus) => e in w.grants
             case Starting(_, _, _, _, _) => false)
  }

  ghost predicate AllPristine(s: System) {
    s.faults == {} && forall e :: Pristine(s.world, e, TaskOf(s, e))
  }

  lemma OthersStayPristine(w: World, w': World, e: EnvId, f: EnvId, t: Task)
    requires TouchesOnly(w, w', e) && f != e && Pristine(w, f, t)
    ensures Pristine(w', f, t)
  {
    OthersUntouched(w, w', e, f);
  }

  lemma LabelLists(cmd: CreateEnv, gpus: seq<int>)
    requires FitsInt32(gpus)
    ensures GpuLabels.ParseCsv(DevSpec(cmd, gpus).labels.gpuIndices) == gpus
  {
    GpuLabels.ParseCsvOfCsv(gpus);
  }

  lemma CreateDevStaysPristine(w: World, e: EnvId, node: NodeId, row: Option<Row>, t: Task, r: Reply)
    requires EnvInv(w, e, node, row, t, false) && FitsInt32(Held(w.grants, e)) && t.Creating? && t.create.CreateDev?
    ensures var (w', t') := Step(w, e, t, r); Pristine(w', e, t')
  {
    var (w', t') := Step(w, e, t, r);
    if r.Ok? {
      assert t' == t.(create := StartDev) && w'.grants == w.grants;
      assert w'.containers[DevName(e)].spec == DevSpec(t.createCmd, t.gpus);
      LabelLists(t.createCmd, t.gpus);
    } else {
      assert t'.Aborting? && DevName(e) !in w'.containers;
    }
  }

  lemma CreatingStaysPristine(w: World, e: EnvId, node: NodeId, row: Option<Row>, t: Task, r: Reply)
    requires EnvInv(w, e, node, row, t, false) && t.Creating? && !t.create.CreateDev? && Pristine(w, e, t)
    ensures var (w', t') := Step(w, e, t, r); Pristine(w', e, t')
  {
    NamesDiffer(e, e);
  }

  lemma PerformStaysPristine(w: World, e: EnvId, a: Action, r: Reply)
    requires AbortAction(a, e) || StopAction(a, e) || a == Release || a.Send?
    requires r.Err? && a.Remove? ==> a.name !in w.containers
    ensures var w' := Perform(w, e, a, r);
      && (DevName(e) in w'.containers ==>
            DevName(e) in w.containers && w'.containers[DevName(e)].spec == w.containers[DevName(e)].spec)
      && (a == Remove(DevName(e)) ==> DevName(e) !in w'.containers)
  {
  }

  lemma UnwindingStaysPristine(w: World, e: EnvId, node: NodeId, row: Option<Row>, t: Task, r: Reply)
    requires EnvInv(w, e, node, row, t, false) && (t.Aborting? || t.Stopping?) && Pristine(w, e, t)
    requires !LeavesBehind(w, t, r)
    ensures var (w', t') := Step(w, e, t, r); Pristine(w', e, t')
  {
    var acts := t.actions;
    TailMembers(acts);
    if t.Stopping? && |acts| > 1 {
      StopShapeTail(acts, e);
    }
    PerformStaysPristine(w, e, acts[0], r);
  }

  lemma StepStaysPristine(s: System, e: EnvId, r: Reply)
    requires Inv(s) && AllPristine(s) && CreateDeleteEvent(s, HandlerStep(e, r))
    ensures AllPristine(AfterStep(s, e, r))
  {
    var s' := AfterStep(s, e, r);
    var t := s.tasks[e];
    assert EnvOk(s, e) && Pristine(s.world, e, TaskOf(s, e));
    HeldFits(s.world, e);
    StepTouches(s.world, e, s.node, RowOf(s, e), t, false, r);
    match t {
      case Creating(stage, _, _) =>
        if stage.CreateDev? {
          CreateDevStaysPristine(s.world, e, s.node, RowOf(s, e), t, r);
        } else {
          CreatingStaysPristine(s.world, e, s.node, RowOf(s, e), t, r);
        }
      case Aborting(_) => UnwindingStaysPristine(s.world, e, s.node, RowOf(s, e), t, r);
      case Stopping(_) => UnwindingStaysPristine(s.world, e, s.node, RowOf(s, e), t, r);
      case _ =>
    }
    assert Pristine(s'.world, e, TaskOf(s', e));
    forall f ensures Pristine(s'.world, f, TaskOf(s', f)) {
      if f != e {
        assert Pristine(s.world, f, TaskOf(s, f));
        OthersStayPristine(s.world, s'.world, e, f, TaskOf(s, f));
      }
    }
  }

  lemma EventStaysPristine(s: System, ev: Event)
    requires Inv(s) && Enabled(s, ev) && AllPristine(s) && CreateDeleteEvent(s, ev)
    ensures AllPristine(After(s, ev))
  {
    if ev.HandlerStep? {
      StepStaysPristine(s, ev.env, ev.reply);
    } else {
      if ev.BeginDelete? {
        assert DeleteTask(ev.env).actions[2] == Remove(DevName(ev.env));
      }
      var s' := After(s, ev);
      forall f ensures Pristine(s'.world, f, TaskOf(s', f)) {
        assert Pristine(s.world, f, TaskOf(s, f));
      }
    }
  }

  lemma {:induction false} HistoryStaysPristine(s: System, evs: seq<Event>)
    requires Inv(s) && Legal(s, evs) && AllPristine(s) && CreateDeleteHistory(s, evs)
    ensures Inv(Exec(s, evs)) && AllPristine(Exec(s, evs))
    decreases |evs|
  {
    if evs != [] {
      EventStaysPristine(s, evs[0]);
      EventKeepsInv(s, evs[0]);
      HistoryStaysPristine(After(s, evs[0]), evs[1..]);
    }
  }

  /** After any interleaved history of creates, failed ones included, and deletes, a fresh allocator that
      restores from Docker holds exactly the live entries, and so picks the same GPUs next. */
  lemma RestoreAgreesAfterCreatesAndDeletes(s: System, evs: seq<Event>, list: seq<Container>, count: nat)
    requires Inv(s) && Legal(s, evs) && AllPristine(s) && CreateDeleteHistory(s, evs)
    requires Exec(s, evs).tasks == map[] && ListsDevs(list, Exec(s, evs).world.containers)
    ensures var w := Exec(s, evs).world;
      && Restored(list, map[]) == w.grants
      && Pick(w.total, Restored(list, map[]), count) == Pick(w.total, w.grants, count)
  {
    HistoryStaysPristine(s, evs);
    var z := Exec(s, evs);
    forall e ensures DevName(e) in z.world.containers ==> IsUuid(e) {
      assert Pristine(z.world, e, TaskOf(z, e));
    }
    forall e ensures Lookup(Restored(list, map[]), e) == Lookup(z.world.grants, e) {
      assert Pristine(z.world, e, TaskOf(z, e));
      assert EnvOk(z, e);
      RestoredEntries(z, list, e);
    }
    SameLookups(Restored(list, map[]), z.world.grants);
  }

  /* ---- What a stop does to restoring ---- */

  const ENV_A: EnvId := "00000000-0000-0000-0000-00000000000a"
  const ENV_B: EnvId := "00000000-0000-0000-0000-00000000000b"

  function RequestOne(id: EnvId): CreateEnv {
    CreateEnv(id, "", "", "", "", "", [], "", 1, [])
  }

  /** A node with one GPU and nothing else. */
  function EmptyNode(): World {
    World([0], map[], {}, map[], [])
  }

  lemma EmptyNodePicks()
    ensures Pick([0], map[], 1) == Some([0])
  {
    var none: Grants := map[];
    assert Used(none) == {};
    assert [0][..0] == [];
    assert Free([0][..0], {}) == [];
    assert Free([0], {}) == [0];
    assert [0][..1] == [0];
  }

  lemma {:induction false} GrantedCallsFailNothing(w: World, e: EnvId, t: Task, n: nat)
    ensures Run(w, e, t, AllOk(n)).failed == {}
  {
    if n > 0 {
      GrantedCallsFailNothing(w, e, t, n - 1);
      AllOkNext(w, e, t, n - 1);
    }
  }

  function SidecarOf(id: EnvId): Container {
    Container(SidecarSpec(RequestOne(id)), State.Exited)
  }

  function DevOf(id: EnvId): Container {
    Container(DevSpec(RequestOne(id), [0]), State.Exited)
  }

  /** The node after Create and Stop, all calls granted. */
  lemma CreatedAndStopped(id: EnvId)
    ensures var created := Run(EmptyNode(), id, CreateTask(RequestOne(id)), AllOk(7));
      var stopped := Run(created.w, id, StopTask(id), AllOk(4));
      && created.t == Done && stopped.t == Done && stopped.failed == {}
      && stopped.w.containers == map[SidecarName(id) := SidecarOf(id), DevName(id) := DevOf(id)]
      && stopped.w.grants == map[]
  {
    var cmd := RequestOne(id);
    EmptyNodePicks();
    CreateSucceeds(EmptyNode(), cmd);
    var w := Run(EmptyNode(), id, CreateTask(cmd), AllOk(7)).w;
    StraightLine(w, id, StopTask(id).actions, AllOk(4));
    StopOutcome(w, id, AllOk(4));
    GrantedCallsFailNothing(w, id, StopTask(id), 4);
    NamesDiffer(id, id);
    BothExited(id);
    assert w.grants == map[id := [0]];
  }

  lemma BothExited(id: EnvId)
    ensures var cs: Containers := map[SidecarName(id) := Container(SidecarSpec(RequestOne(id)), State.Running)]
                                     [DevName(id) := Container(DevSpec(RequestOne(id), [0]), State.Running)];
      StoppedContainers(cs, id, Ok, Ok) == map[SidecarName(id) := SidecarOf(id), DevName(id) := DevOf(id)]
  {
    NamesDiffer(id, id);
  }

  lemma RestoredFromOne(c: Container)
    requires IsUuid(c.spec.labels.envId)
    ensures Restored([c], map[]) == map[c.spec.labels.envId := GpuLabels.ParseCsv(c.spec.labels.gpuIndices)]
  {
    assert [c][..0] == [];
    assert Restored([], map[]) == map[];
  }

  lemma FullNodePicksNone(id: EnvId)
    ensures Pick([0], map[id := [0]], 1) == None
  {
    var g: Grants := map[id := [0]];
    assert 0 in g[id] && 0 in Used(g);
    assert [0][..0] == [];
    assert Free([0][..0], Used(g)) == [];
    assert Free([0], Used(g)) == [];
  }

  /** Create, Stop, restore: the live allocator has GPU 0 free again; the restored one still holds it for the stopped
      env, and answers the next Allocate differently. */
  lemma StopBreaksRestore(id: EnvId)
    requires IsUuid(id)
    ensures var created := Run(EmptyNode(), id, CreateTask(RequestOne(id)), AllOk(7));
      var stopped := Run(created.w, id, StopTask(id), AllOk(4));
      && created.t == Done && stopped.t == Done && stopped.failed == {}
      && ListsDevs([DevOf(id)], stopped.w.containers)
      && Restored([DevOf(id)], map[]) == map[id := [0]] && stopped.w.grants == map[]
      && Pick([0], stopped.w.grants, 1) == Some([0]) && Pick([0], Restored([DevOf(id)], map[]), 1) == None
  {
    CreatedAndStopped(id);
    LabelLists(RequestOne(id), [0]);
    RestoredFromOne(DevOf(id));
    FullNodePicksNone(id);
    EmptyNodePicks();
    OneDevListed(id);
  }

  lemma OneDevListed(id: EnvId)
    ensures ListsDevs([DevOf(id)], map[SidecarName(id) := SidecarOf(id), DevName(id) := DevOf(id)])
  {
    var cs: Containers := map[SidecarName(id) := SidecarOf(id), DevName(id) := DevOf(id)];
    NamesDiffer(id, id);
    assert cs[DevName(id)] == DevOf(id);
    assert DevOf(id) in cs.Values;
    assert forall c :: c in cs.Values ==> c == SidecarOf(id) || c == DevOf(id);
  }

  /* ---- What a failed halt costs ---- */

  function OneGpuDev(): Container {
    Container(ContainerSpec(DevName(ENV_A), "", [], map[], NO_LABELS.(envId := ENV_A, role := "dev", gpuIndices := "0"),
                            "", [], [], [0], []), State.Running)
  }

  /** A node with one GPU, attached to A's running dev container and granted to A. */
  function OneGpuWorld(): World {
    World([0], map[DevName(ENV_A) := OneGpuDev()], {}, map[ENV_A := [0]], [])
  }

  /** The answers to a Stop whose first call fails. */
  function FailedStop(): seq<Reply> {
    [Err("cannot stop"), Err("not found"), Ok, Ok]
  }

  /** Exclusivity needs halts to work: A's container does not stop, its GPU is released all the same,
      and Create gives it to B. */
  lemma FailedStopSharesGpu()
    ensures GpuSafe(OneGpuWorld())
    ensures var stopped := Run(OneGpuWorld(), ENV_A, StopTask(ENV_A), FailedStop());
      var created := Run(stopped.w, ENV_B, CreateTask(RequestOne(ENV_B)), AllOk(7));
      && stopped.t == Done && created.t == Done
      && DevRuns(created.w, ENV_A) && DevRuns(created.w, ENV_B)
      && 0 in Attached(created.w, ENV_A) && 0 in Attached(created.w, ENV_B)
  {
    var w := OneGpuWorld();
    forall f | DevRuns(w, f) ensures w.containers[DevName(f)].spec.gpuIndices == Held(w.grants, f) {
      NamesDiffer(ENV_A, f);
    }
    var stopped := Run(w, ENV_A, StopTask(ENV_A), FailedStop());
    StraightLine(w, ENV_A, StopTask(ENV_A).actions, FailedStop());
    StopOutcome(w, ENV_A, FailedStop());
    NamesDiffer(ENV_A, ENV_B);
    NamesDiffer(ENV_B, ENV_A);
    AfterFailedStop(stopped.w);
    CreateSucceeds(stopped.w, RequestOne(ENV_B));
  }

  lemma AfterFailedStop(w: World)
    requires w == OneGpuWorld().(grants := OneGpuWorld().grants - {ENV_A}, sent := [EnvStopped(ENV_A)])
    ensures Unknown(w, ENV_B) && Pick(w.total, w.grants, 1) == Some([0])
  {
    assert ENV_A[35] != ENV_B[35];
    NamesDiffer(ENV_A, ENV_B);
    NamesDiffer(ENV_B, ENV_A);
    assert w.grants == map[];
    assert Used(w.grants) == {};
    assert [0][..0] == [];
    assert Free([0][..0], {}) == [];
    assert Free([0], {}) == [0];
    assert [0][..1] == [0];
    assert w.containers.Keys == {DevName(ENV_A)};
  }
}

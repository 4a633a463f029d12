/** Connecting: the snapshot the agent sends first, what the control plane makes of it,
    and how one connection follows another. */
module Reconnect {
  import opened Wrappers
  import opened AgentProtocol
  import opened Docker
  import opened GpuAllocator
  import opened EnvTable
  import opened HandlerSteps
  import opened HandlerOutcomes
  import opened EnvInvariant
  import opened AgentSystem
  import opened SystemTheorems
  import GpuLabels

  /** Some running dev container carries the env id. */
  ghost predicate RunningDev(cs: Containers, id: EnvId) {
    exists c :: c in cs.Values && c.spec.labels.role == "dev" && c.state.Running? && c.spec.labels.envId == id
  }

  /** What BuildEnvStateSnapshot returns: the env ids of the running dev containers. */
  ghost predicate Reports(ids: seq<EnvId>, cs: Containers) {
    forall id :: id in ids <==> id != "" && RunningDev(cs, id)
  }

  method BuildEnvStateSnapshot(docker: DockerClient) returns (ids: seq<EnvId>, reply: Reply)
    modifies docker`calls
    ensures docker.calls == old(docker.calls) + [Called(ListCall("dev"), reply)]
    ensures reply.Ok? ==> Reports(ids, docker.containers)
  {
    var list;
    list, reply := docker.ListContainers("dev");
    ids := [];
    if reply.Err? {
      return;
    }
    for k := 0 to |list|
      invariant forall id :: id in ids <==>
        id != "" && exists j :: 0 <= j < k && list[j].state.Running? && list[j].spec.labels.envId == id
    {
      var c := list[k];
      if c.state.Running? {
        if c.spec.labels.envId != "" {
          ids := ids + [c.spec.labels.envId];
        }
      }
    }
    forall id ensures id in ids <==> id != "" && RunningDev(docker.containers, id) {
      if id != "" && RunningDev(docker.containers, id) {
        var c :| c in docker.containers.Values && c.spec.labels.role == "dev" && c.state.Running? &&
          c.spec.labels.envId == id;
        assert c in list;
      }
      if id in ids {
        var j :| 0 <= j < |list| && list[j].state.Running? && list[j].spec.labels.envId == id;
        assert list[j] in list;
      }
    }
  }

  /* ---- The resync rule ---- */

  /** The node's own containers are labelled as the handlers label them. */
  ghost predicate Labelled(w: World) {
    && WellNamed(w.containers)
    && forall e :: DevLabelled(w, e, None)
  }

  lemma RunningDevIsDevRuns(w: World, e: EnvId)
    requires Labelled(w)
    ensures RunningDev(w.containers, e) <==> DevRuns(w, e)
  {
    assert DevLabelled(w, e, None);
    if DevRuns(w, e) {
      assert w.containers[DevName(e)] in w.containers.Values;
    }
    if RunningDev(w.containers, e) {
      var c :| c in w.containers.Values && c.spec.labels.role == "dev" && c.state.Running? && c.spec.labels.envId == e;
      var n :| n in w.containers && w.containers[n] == c;
    }
  }

  /** For any rows at all, the snapshot flags exactly the running rows of the node whose dev container
      does not run, and changes nothing else. */
  lemma ResyncFlagsExactly(w: World, node: NodeId, rows: Rows, ids: seq<EnvId>, e: EnvId)
    requires Labelled(w) && Reports(ids, w.containers)
    requires e in rows && IsUuid(e)
    ensures var table := Apply(rows, node, EnvSnapshot(ids));
      e in table && table[e] ==
        if RunningOn(rows[e], node) && !DevRuns(w, e) then ToError(rows[e], RESYNC_STAGE, RESYNC_DETAIL)
        else rows[e]
  {
    RunningDevIsDevRuns(w, e);
  }

  /** After the resync every running row of the node is backed by a running dev container, whatever the rows were. The
      snapshot carries no GPU lists, so no row's indices are repaired: they agree with the attached GPUs exactly if
      those of the rows with a running container did before. */
  lemma ResyncAgreesIff(w: World, node: NodeId, rows: Rows, ids: seq<EnvId>)
    requires Labelled(w) && Reports(ids, w.containers)
    requires forall e :: e in rows ==> IsUuid(e)
    ensures var table := Resynced(rows, node, set id | id in ids);
      && (forall e :: e in table && RunningOn(table[e], node) ==> DevRuns(w, e) && table[e] == rows[e])
      && ((forall e :: e in table && RunningOn(table[e], node) && DevRuns(w, e) ==>
        table[e].gpuIndices == Attached(w, e)) <==>
          (forall e :: e in rows && RunningOn(rows[e], node) && DevRuns(w, e) ==> rows[e].gpuIndices == Attached(w, e)))
  {
    var table := Resynced(rows, node, set id | id in ids);
    forall e | e in rows
      ensures RunningOn(table[e], node) <==> RunningOn(rows[e], node) && DevRuns(w, e)
      ensures RunningOn(table[e], node) ==> table[e] == rows[e]
    {
      ResyncFlagsExactly(w, node, rows, ids, e);
    }
  }

  const SOME_ID: EnvId := "00000000-0000-0000-0000-000000000000"

  /** An env stopped and started again, now on GPU 1; both reports were lost with the old connection,
      so its row still says running on GPU 0. */
  function StaleDev(): Container {
    Container(ContainerSpec(DevName(SOME_ID), "", [], map[],
                            NO_LABELS.(envId := SOME_ID, role := "dev", gpuIndices := GpuLabels.Csv([0])),
                            "", [], [], [1], []), State.Running)
  }

  function StaleWorld(): World {
    World([0, 1], map[DevName(SOME_ID) := StaleDev()], {}, map[SOME_ID := [1]], [])
  }

  function StaleRow(): Row {
    Row("u", "n", "t", "a", "h", Status.Running, "", "", "", 1, [0], "v")
  }

  lemma StaleDevLabelled()
    ensures Labelled(StaleWorld())
  {
    GpuLabels.ParseCsvOfCsv([0]);
    forall f ensures DevLabelled(StaleWorld(), f, None) {
      NamesDiffer(SOME_ID, f);
    }
  }

  lemma StaleWorldLabelled()
    ensures Labelled(StaleWorld()) && Reports([SOME_ID], StaleWorld().containers) && DevRuns(StaleWorld(), SOME_ID)
  {
    var w := StaleWorld();
    StaleDevLabelled();
    forall id ensures id in [SOME_ID] <==> id != "" && RunningDev(w.containers, id) {
      RunningDevIsDevRuns(w, id);
      NamesDiffer(SOME_ID, id);
    }
  }

  /** The row stays wrong across the resync. */
  lemma ResyncMissesStaleIndices()
    ensures Labelled(StaleWorld()) && Reports([SOME_ID], StaleWorld().containers) && DevRuns(StaleWorld(), SOME_ID)
    ensures Apply(map[SOME_ID := StaleRow()], "n", EnvSnapshot([SOME_ID])) == map[SOME_ID := StaleRow()]
    ensures RunningOn(StaleRow(), "n") && StaleRow().gpuIndices != Attached(StaleWorld(), SOME_ID)
  {
    StaleWorldLabelled();
    assert [0][0] != [1][0];
  }

  /* ---- A connection begins ---- */

  /** The agent's side of an env while no handler runs. */
  predicate AgentIdle(w: World, e: EnvId, fault: bool) {
    && (fault ==> DevRuns(w, e))
    && (DevRuns(w, e) && !fault ==> Attached(w, e) == Held(w.grants, e))
    && DevLabelled(w, e, None) && SidecarLabelled(w, e)
    && (!DevRuns(w, e) || fault ==> e !in w.grants)
  }

  /** A row that may be out of date, but not about the GPUs of a container that runs. */
  predicate RowCurrent(w: World, e: EnvId, node: NodeId, row: Row, fault: bool) {
    && (DevName(e) in w.containers ==> row.gpuRequest == |Attached(w, e)|)
    && (!row.status.Running? ==> row.gpuIndices == [])
    && (RunningOn(row, node) && DevRuns(w, e) ==> SidecarRuns(w, e) && !fault && row.gpuIndices == Attached(w, e))
  }

  /** The state right after the agent, with no handler left from before, has sent its snapshot. */
  function Connected(node: NodeId, w: World, rows: Rows, ids: seq<EnvId>, faults: set<EnvId>): System {
    System(node, w.(sent := [EnvSnapshot(ids)]), map[], rows, 0, faults)
  }

  ghost predicate CanConnect(node: NodeId, w: World, rows: Rows, ids: seq<EnvId>, faults: set<EnvId>) {
    && Sound(w.total, w.grants) && FitsInt32(w.total)
    && WellNamed(w.containers) && Reports(ids, w.containers)
    && (forall e :: AgentIdle(w, e, e in faults))
    && (forall e :: e in rows ==> IsUuid(e) && RowCurrent(w, e, node, rows[e], e in faults))
  }

  /** The table of a connection that begins is the old one after the resync. */
  lemma ConnectedTable(node: NodeId, w: World, rows: Rows, ids: seq<EnvId>, faults: set<EnvId>)
    ensures var s := Connected(node, w, rows, ids, faults);
      s.delivered <= |s.world.sent| && Table(s) == Apply(rows, node, EnvSnapshot(ids))
  {
    var s, msg := Connected(node, w, rows, ids, faults), EnvSnapshot(ids);
    assert s.world.sent[s.delivered..] == [msg];
    assert Replay(rows, node, [msg]) == Replay(Apply(rows, node, msg), node, []);
  }

  lemma ConnectedEnv(node: NodeId, w: World, rows: Rows, ids: seq<EnvId>, faults: set<EnvId>, e: EnvId)
    requires CanConnect(node, w, rows, ids, faults)
    ensures var s := Connected(node, w, rows, ids, faults); s.delivered <= |s.world.sent| && EnvOk(s, e)
  {
    ConnectedTable(node, w, rows, ids, faults);
    forall f ensures DevLabelled(w, f, None) {
      assert AgentIdle(w, f, f in faults);
    }
    assert AgentIdle(w, e, e in faults);
    if e in rows {
      ResyncFlagsExactly(w, node, rows, ids, e);
    }
  }

  /** The snapshot, handled before anything else, establishes the invariant. */
  lemma ConnectEstablishesInv(node: NodeId, w: World, rows: Rows, ids: seq<EnvId>, faults: set<EnvId>)
    requires CanConnect(node, w, rows, ids, faults)
    ensures var s := Connected(node, w, rows, ids, faults);
      Inv(s) && Table(s) == Apply(rows, node, EnvSnapshot(ids))
  {
    ConnectedTable(node, w, rows, ids, faults);
    forall e ensures EnvOk(Connected(node, w, rows, ids, faults), e) {
      ConnectedEnv(node, w, rows, ids, faults, e);
    }
  }

  /** A fresh node with no rows can connect. */
  lemma FreshNodeCanConnect(node: NodeId, total: seq<int>)
    requires Ascending(total) && FitsInt32(total)
    ensures CanConnect(node, World(total, map[], {}, map[], []), map[], [], {})
  {
  }

  /** An env of a state with no handler left and everything delivered. */
  lemma QuietEnv(z: System, e: EnvId)
    requires Inv(z) && z.tasks == map[] && z.delivered == |z.world.sent|
    ensures AgentIdle(z.world, e, e in z.faults)
    ensures e in z.rows ==> RowCurrent(z.world, e, z.node, z.rows[e], e in z.faults)
    ensures e in z.rows && RunningOn(z.rows[e], z.node) ==> DevRuns(z.world, e)
  {
    assert z.world.sent[z.delivered..] == [];
    assert Table(z) == z.rows;
    assert EnvOk(z, e);
  }

  lemma QuietReconnect(z: System, ids: seq<EnvId>)
    requires Inv(z) && z.tasks == map[] && z.delivered == |z.world.sent|
    requires Reports(ids, z.world.containers) && forall e :: e in z.rows ==> IsUuid(e)
    ensures CanConnect(z.node, z.world, z.rows, ids, z.faults)
    ensures Apply(z.rows, z.node, EnvSnapshot(ids)) == z.rows
  {
    forall e
      ensures AgentIdle(z.world, e, e in z.faults)
      ensures e in z.rows ==> RowCurrent(z.world, e, z.node, z.rows[e], e in z.faults)
    {
      QuietEnv(z, e);
    }
    forall f ensures DevLabelled(z.world, f, None) {
      assert AgentIdle(z.world, f, f in z.faults);
    }
    var after := Apply(z.rows, z.node, EnvSnapshot(ids));
    forall e | e in z.rows ensures after[e] == z.rows[e] {
      QuietEnv(z, e);
      ResyncFlagsExactly(z.world, z.node, z.rows, ids, e);
    }
  }

  /** Connections chain: when no handler is left and everything sent was delivered, the agent can connect
      again, and the resync of the new connection flags no row. */
  lemma ReconnectFlagsNothing(s: System, evs: seq<Event>, ids: seq<EnvId>)
    requires Inv(s) && Legal(s, evs)
    requires Exec(s, evs).tasks == map[] && Exec(s, evs).delivered == |Exec(s, evs).world.sent|
    requires Reports(ids, Exec(s, evs).world.containers)
    requires forall e :: e in Exec(s, evs).rows ==> IsUuid(e)
    ensures var z := Exec(s, evs);
      && CanConnect(z.node, z.world, z.rows, ids, z.faults)
      && Apply(z.rows, z.node, EnvSnapshot(ids)) == z.rows
  {
    RunKeepsInv(s, evs);
    QuietReconnect(Exec(s, evs), ids);
  }

  /* ---- The snapshot comes first ---- */

  predicate SnapshotFirst(sent: seq<AgentMessage>) {
    sent != [] && forall k :: 0 < k < |sent| ==> !sent[k].EnvSnapshot?
  }

  lemma GrowthKeepsSnapshotFirst(sent: seq<AgentMessage>, sent': seq<AgentMessage>, e: EnvId)
    requires SnapshotFirst(sent) && GrewBy(sent, sent', e)
    ensures SnapshotFirst(sent')
  {
  }

  lemma EventKeepsSnapshotFirst(s: System, ev: Event)
    requires Inv(s) && Enabled(s, ev) && SnapshotFirst(s.world.sent)
    ensures SnapshotFirst(After(s, ev).world.sent)
  {
    if ev.HandlerStep? {
      var e := ev.env;
      assert EnvOk(s, e);
      StepTouches(s.world, e, s.node, RowOf(s, e), s.tasks[e], e in s.faults, ev.reply);
      GrowthKeepsSnapshotFirst(s.world.sent, After(s, ev).world.sent, e);
    }
  }

  lemma {:induction false} RunKeepsSnapshotFirst(s: System, evs: seq<Event>)
    requires Inv(s) && Legal(s, evs) && SnapshotFirst(s.world.sent)
    ensures SnapshotFirst(Exec(s, evs).world.sent)
    decreases |evs|
  {
    if evs != [] {
      EventKeepsSnapshotFirst(s, evs[0]);
      EventKeepsInv(s, evs[0]);
      RunKeepsSnapshotFirst(After(s, evs[0]), evs[1..]);
    }
  }

  /* ---- What the last message about an env makes of its row ---- */

  /** Message `k` is the last one about `e`. */
  predicate LastWord(sent: seq<AgentMessage>, e: EnvId, k: nat) {
    k < |sent| && About(sent[k], e) && forall j :: k < j < |sent| ==> !About(sent[j], e)
  }

  /** The row says what the message says: running with what was reported, stopped, in error with stage and detail, or
      gone. */
  predicate Shows(row: Option<Row>, msg: AgentMessage) {
    match msg
    case EnvReady(_, sid, did, gpus) =>
      row.Some? ==>
        && row.value.status == Status.Running && row.value.statusMessage == ""
        && row.value.gpuIndices == ToInt32s(gpus)
        && row.value.sidecarContainerId == sid && row.value.devContainerId == did
    case EnvStopped(_) => row.Some? ==> row.value.status == Status.Stopped && row.value.gpuIndices == []
    case EnvError(_, stage, detail) =>
      row.Some? ==>
        && row.value.status == Status.Error && row.value.statusMessage == "[" + stage + "] " + detail
        && row.value.gpuIndices == []
    case EnvDeleted(_) => row.None?
    case _ => true
  }

  ghost predicate LastWordHolds(s: System, e: EnvId)
    requires s.delivered <= |s.world.sent|
  {
    forall k: nat :: LastWord(s.world.sent, e, k) ==> Shows(RowOf(s, e), s.world.sent[k])
  }

  lemma RowAfterShows(row: Option<Row>, e: EnvId, msg: AgentMessage)
    requires About(msg, e) && IsUuid(e)
    ensures Shows(RowAfter(row, e, msg), msg)
  {
  }

  lemma LastWordGrows(sent: seq<AgentMessage>, sent': seq<AgentMessage>, f: EnvId, e: EnvId, k: nat)
    requires GrewBy(sent, sent', f) && LastWord(sent', e, k)
    ensures if sent' != sent && f == e then k == |sent| else LastWord(sent, e, k) && sent'[k] == sent[k]
  {
    if sent' != sent && f == e {
      assert About(sent'[|sent|], e);
    }
  }

  lemma StepKeepsLastWord(s: System, f: EnvId, r: Reply, e: EnvId)
    requires Inv(s) && f in s.tasks && LastWordHolds(s, e)
    ensures var s1 := AfterStep(s, f, r); s1.delivered <= |s1.world.sent| && LastWordHolds(s1, e)
  {
    var s1 := AfterStep(s, f, r);
    assert EnvOk(s, f);
    StepTouches(s.world, f, s.node, RowOf(s, f), s.tasks[f], f in s.faults, r);
    StepTable(s, f, r, e);
    forall k: nat | LastWord(s1.world.sent, e, k) ensures Shows(RowOf(s1, e), s1.world.sent[k]) {
      LastWordGrows(s.world.sent, s1.world.sent, f, e, k);
      if s1.world.sent != s.world.sent && f == e {
        RowAfterShows(RowOf(s, e), e, s1.world.sent[k]);
      }
    }
  }

  lemma InsertKeepsLastWord(s: System, f: EnvId, row: Row, e: EnvId)
    requires Inv(s) && Enabled(s, InsertRow(f, row)) && LastWordHolds(s, e)
    ensures LastWordHolds(After(s, InsertRow(f, row)), e)
  {
    var queue := s.world.sent[s.delivered..];
    forall k | 0 <= k < |queue| ensures !About(queue[k], f) {
      assert queue[k] == s.world.sent[s.delivered + k];
    }
    ReplayInsert(s.rows, s.node, queue, f, row);
  }

  lemma EventKeepsLastWord(s: System, ev: Event, e: EnvId)
    requires Inv(s) && Enabled(s, ev) && LastWordHolds(s, e)
    ensures Inv(After(s, ev)) && LastWordHolds(After(s, ev), e)
  {
    EventKeepsInv(s, ev);
    match ev
    case HandlerStep(f, r) => StepKeepsLastWord(s, f, r, e);
    case InsertRow(f, row) => InsertKeepsLastWord(s, f, row, e);
    case Deliver => DeliverKeepsInv(s);
    case _ =>
  }

  lemma {:induction false} RunKeepsLastWord(s: System, evs: seq<Event>, e: EnvId)
    requires Inv(s) && Legal(s, evs) && LastWordHolds(s, e)
    ensures Inv(Exec(s, evs)) && LastWordHolds(Exec(s, evs), e)
    decreases |evs|
  {
    if evs != [] {
      EventKeepsLastWord(s, evs[0], e);
      RunKeepsLastWord(After(s, evs[0]), evs[1..], e);
    }
  }

  /** In every run of a connection, the row of an env, whether it was there at the start or was inserted since,
      says what the last message about the env says. */
  lemma TableShowsLastWord(node: NodeId, w: World, rows: Rows, ids: seq<EnvId>, faults: set<EnvId>, evs: seq<Event>,
                           e: EnvId, k: nat)
    requires CanConnect(node, w, rows, ids, faults) && Legal(Connected(node, w, rows, ids, faults), evs)
    requires LastWord(Exec(Connected(node, w, rows, ids, faults), evs).world.sent, e, k)
    ensures var z := Exec(Connected(node, w, rows, ids, faults), evs);
      z.delivered <= |z.world.sent| && Shows(RowOf(z, e), z.world.sent[k])
  {
    ConnectEstablishesInv(node, w, rows, ids, faults);
    assert forall j: nat :: !LastWord([EnvSnapshot(ids)], e, j);
    RunKeepsLastWord(Connected(node, w, rows, ids, faults), evs, e);
  }

  /** So a resync can not flag an env that became ready on this connection: while EnvReady is the last message about it,
      its row runs with what was reported. */
  lemma ReadyIsNeverFlagged(node: NodeId, w: World, rows: Rows, ids: seq<EnvId>, faults: set<EnvId>, evs: seq<Event>,
                            e: EnvId, k: nat)
    requires CanConnect(node, w, rows, ids, faults) && Legal(Connected(node, w, rows, ids, faults), evs)
    requires var sent := Exec(Connected(node, w, rows, ids, faults), evs).world.sent;
      LastWord(sent, e, k) && sent[k].EnvReady?
    ensures var z := Exec(Connected(node, w, rows, ids, faults), evs);
      z.delivered <= |z.world.sent| &&
      (RowOf(z, e).Some? ==>
        var row, ready := RowOf(z, e).value, z.world.sent[k];
        && row.status == Status.Running && row.gpuIndices == ToInt32s(ready.gpuIndices)
        && row.sidecarContainerId == ready.sidecarContainerId && row.devContainerId == ready.devContainerId)
  {
    TableShowsLastWord(node, w, rows, ids, faults, evs, e, k);
  }
}

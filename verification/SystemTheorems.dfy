/** What holds in every state a connection can reach: GPU exclusivity, agreement of the
    table with the node, no leaked grants, and rows of other nodes. */
module SystemTheorems {
  import opened Wrappers
  import opened AgentProtocol
  import opened Docker
  import opened GpuAllocator
  import opened EnvTable
  import opened HandlerSteps
  import opened HandlerOutcomes
  import opened EnvInvariant
  import opened AgentSystem

  /* ---- Runs ---- */

  predicate Legal(s: System, evs: seq<Event>)
    decreases |evs|
  {
    evs == [] || (Enabled(s, evs[0]) && Legal(After(s, evs[0]), evs[1..]))
  }

  function Exec(s: System, evs: seq<Event>): System
    requires Legal(s, evs)
    decreases |evs|
  {
    if evs == [] then s else Exec(After(s, evs[0]), evs[1..])
  }

  /** Whatever the interleaving and whatever fails, the invariant holds at the end of every run. */
  lemma {:induction false} RunKeepsInv(s: System, evs: seq<Event>)
    requires Inv(s) && Legal(s, evs)
    ensures Inv(Exec(s, evs))
    decreases |evs|
  {
    if evs != [] {
      EventKeepsInv(s, evs[0]);
      RunKeepsInv(After(s, evs[0]), evs[1..]);
    }
  }

  /* ---- Exclusive GPUs ---- */

  /** No GPU is attached to two running dev containers, unless one of them outlived a failed halt. */
  lemma NoSharedGpu(s: System, evs: seq<Event>, e: EnvId, f: EnvId)
    requires Inv(s) && Legal(s, evs) && e != f
    ensures var z := Exec(s, evs);
      DevRuns(z.world, e) && DevRuns(z.world, f) && e !in z.faults && f !in z.faults ==>
        Disjoint(Attached(z.world, e), Attached(z.world, f))
  {
    RunKeepsInv(s, evs);
    var z := Exec(s, evs);
    assert EnvOk(z, e) && EnvOk(z, f);
  }

  /** The event is a failed Stop or Remove, in Stop or Delete, of a running dev container. */
  predicate FailedHalt(s: System, ev: Event) {
    ev.HandlerStep? && ev.env in s.tasks && ev.reply.Err? && DevRuns(s.world, ev.env) &&
    var t := s.tasks[ev.env];
    t.Stopping? && t.actions != [] && (t.actions[0] == Stop(DevName(ev.env)) || t.actions[0] == Remove(DevName(ev.env)))
  }

  predicate NoFailedHalt(s: System, evs: seq<Event>)
    requires Legal(s, evs)
    decreases |evs|
  {
    evs == [] || (!FailedHalt(s, evs[0]) && NoFailedHalt(After(s, evs[0]), evs[1..]))
  }

  lemma {:induction false} FaultsNeedFailedHalts(s: System, evs: seq<Event>)
    requires Legal(s, evs) && NoFailedHalt(s, evs)
    ensures Exec(s, evs).faults <= s.faults
    decreases |evs|
  {
    if evs != [] {
      FaultsNeedFailedHalts(After(s, evs[0]), evs[1..]);
    }
  }

  /** As long as every halt of a running dev container works, no two running dev containers ever share a GPU. */
  lemma NoSharedGpuWithoutFailedHalts(s: System, evs: seq<Event>)
    requires Inv(s) && s.faults == {} && Legal(s, evs) && NoFailedHalt(s, evs)
    ensures var z := Exec(s, evs);
      forall e, f :: e != f && DevRuns(z.world, e) && DevRuns(z.world, f) ==>
        Disjoint(Attached(z.world, e), Attached(z.world, f))
  {
    var z := Exec(s, evs);
    FaultsNeedFailedHalts(s, evs);
    forall e, f | e != f && DevRuns(z.world, e) && DevRuns(z.world, f)
      ensures Disjoint(Attached(z.world, e), Attached(z.world, f))
    {
      NoSharedGpu(s, evs, e, f);
    }
  }

  /** No leak: a grant without a handler in flight belongs to a running dev container with exactly these GPUs. */
  lemma NoLeakedGrant(s: System, evs: seq<Event>, e: EnvId)
    requires Inv(s) && Legal(s, evs)
    ensures var z := Exec(s, evs);
      e in z.world.grants && e !in z.tasks ==> DevRuns(z.world, e) && Attached(z.world, e) == z.world.grants[e]
  {
    RunKeepsInv(s, evs);
    assert EnvOk(Exec(s, evs), e);
  }

  /* ---- The table ---- */

  function Delivers(n: nat): (evs: seq<Event>)
    ensures |evs| == n && forall k :: 0 <= k < n ==> evs[k] == Deliver
  {
    seq(n, _ => Deliver)
  }

  /** Delivering the queue is a legal run that turns the rows into the table and touches nothing else. */
  lemma {:induction false} Drain(s: System)
    requires Inv(s)
    ensures var evs := Delivers(|s.world.sent| - s.delivered);
      Legal(s, evs) && Exec(s, evs) == s.(rows := Table(s), delivered := |s.world.sent|)
    decreases |s.world.sent| - s.delivered
  {
    var n := |s.world.sent| - s.delivered;
    var evs := Delivers(n);
    if n == 0 {
      assert s.world.sent[s.delivered..] == [];
    } else {
      DeliverKeepsInv(s);
      Drain(After(s, Deliver));
      assert evs[1..] == Delivers(n - 1);
    }
  }

  /** The handler of `e` has halted or is halting it and has not reported that yet. */
  predicate BeingStopped(s: System, e: EnvId) {
    TaskOf(s, e).Stopping?
  }

  predicate Released(s: System, e: EnvId) {
    TaskOf(s, e).Stopping? && |TaskOf(s, e).actions| == 1
  }

  /** A row that says running tells the truth, over any number of stops and starts: both containers run, and the
      row's GPUs are the attached ones, the granted ones, and as many as the env asked for. */
  lemma RunningRowsAreReal(s: System, evs: seq<Event>, e: EnvId)
    requires Inv(s) && Legal(s, evs)
    ensures var z := Exec(s, evs);
      z.delivered <= |z.world.sent| &&
      (RowRuns(RowOf(z, e), z.node) && !BeingStopped(z, e) ==>
        && DevRuns(z.world, e) && SidecarRuns(z.world, e)
        && RowOf(z, e).value.gpuIndices == Attached(z.world, e) == Held(z.world.grants, e)
        && |RowOf(z, e).value.gpuIndices| == RowOf(z, e).value.gpuRequest)
  {
    RunKeepsInv(s, evs);
    assert EnvOk(Exec(s, evs), e);
  }

  /** What a row lists is what the env holds, or nothing. */
  lemma RowListsHeld(z: System, e: EnvId)
    requires Inv(z)
    ensures RowRuns(RowOf(z, e), z.node) && !Released(z, e) ==>
      RowOf(z, e).value.gpuIndices == Held(z.world.grants, e)
    ensures RowOf(z, e).Some? && !RowOf(z, e).value.status.Running? ==> RowOf(z, e).value.gpuIndices == []
  {
    assert EnvOk(z, e);
  }

  lemma HeldDisjoint(total: seq<int>, grants: Grants, e: EnvId, f: EnvId)
    requires Sound(total, grants) && e != f
    ensures Disjoint(Held(grants, e), Held(grants, f))
  {
  }

  /** Running rows of the node never list a common GPU, apart from envs between Release and the message;
      rows that are not running list none. */
  lemma RunningRowsDisjoint(s: System, evs: seq<Event>, e: EnvId, f: EnvId)
    requires Inv(s) && Legal(s, evs) && e != f
    ensures var z := Exec(s, evs);
      z.delivered <= |z.world.sent| &&
      (RowRuns(RowOf(z, e), z.node) && RowRuns(RowOf(z, f), z.node) && !Released(z, e) && !Released(z, f) ==>
        Disjoint(RowOf(z, e).value.gpuIndices, RowOf(z, f).value.gpuIndices))
    ensures var z := Exec(s, evs);
      RowOf(z, e).Some? && !RowOf(z, e).value.status.Running? ==> RowOf(z, e).value.gpuIndices == []
  {
    RunKeepsInv(s, evs);
    var z := Exec(s, evs);
    RowListsHeld(z, e);
    RowListsHeld(z, f);
    HeldDisjoint(z.world.total, z.world.grants, e, f);
  }

  lemma EventKeepsOtherNodes(s: System, ev: Event, e: EnvId)
    requires Inv(s) && Enabled(s, ev)
    requires RowOf(s, e).Some? && RowOf(s, e).value.nodeId != s.node
    ensures Inv(After(s, ev)) && RowOf(After(s, ev), e) == RowOf(s, e)
  {
    EventKeepsInv(s, ev);
    TableIdentity(s, e);
    assert EnvOk(s, e);
    match ev
    case InsertRow(f, row) =>
      var queue := s.world.sent[s.delivered..];
      forall k | 0 <= k < |queue| ensures !About(queue[k], f) {
        assert queue[k] == s.world.sent[s.delivered + k];
      }
      ReplayInsert(s.rows, s.node, queue, f, row);
    case HandlerStep(f, r) =>
      assert EnvOk(s, f);
      StepTouches(s.world, f, s.node, RowOf(s, f), s.tasks[f], f in s.faults, r);
      StepTable(s, f, r, e);
    case Deliver => DeliverKeepsInv(s);
    case _ =>
  }

  /** An agent's connection never changes a row of another node. */
  lemma {:induction false} OtherNodesUntouched(s: System, evs: seq<Event>, e: EnvId)
    requires Inv(s) && Legal(s, evs)
    requires RowOf(s, e).Some? && RowOf(s, e).value.nodeId != s.node
    ensures Inv(Exec(s, evs)) && RowOf(Exec(s, evs), e) == RowOf(s, e)
    decreases |evs|
  {
    if evs != [] {
      EventKeepsOtherNodes(s, evs[0], e);
      var s1 := After(s, evs[0]);
      assert s1.node == s.node;
      OtherNodesUntouched(s1, evs[1..], e);
    }
  }
}

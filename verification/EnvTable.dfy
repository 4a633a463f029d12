/** The envs table of the control plane: its rows, the updates that move a row through
    its life, and what a stream of agent messages does to the table. */
module EnvTable {
  import opened Wrappers
  import opened Text
  import opened AgentProtocol

  type NodeId = string
  type UserId = string

  datatype Status = Creating | Running | Stopped | Error

  datatype Row = Row(ownerUserId: UserId, nodeId: NodeId, templateId: string, name: string, hostname: string,
                     status: Status, statusMessage: string, sidecarContainerId: string, devContainerId: string,
                     gpuRequest: int, gpuIndices: seq<int>, volumeName: string)

  type Rows = map<EnvId, Row>

  /* ---- Row updates ---- */

  function ToRunning(row: Row, sidecarId: string, devId: string, gpus: seq<int>): Row {
    row.(status := Status.Running, statusMessage := "", sidecarContainerId := sidecarId, devContainerId := devId,
         gpuIndices := ToInt32s(gpus))
  }

  function ToStopped(row: Row): Row {
    row.(status := Status.Stopped, gpuIndices := [])
  }

  function ToError(row: Row, stage: string, detail: string): Row {
    row.(status := Status.Error, statusMessage := "[" + stage + "] " + detail, gpuIndices := [])
  }

  predicate RunningOn(row: Row, node: NodeId) {
    row.status.Running? && row.nodeId == node
  }

  const RESYNC_STAGE := "resync"
  const RESYNC_DETAIL := "lost during agent reconnect"

  /** The resync rule: a running row of the node that the agent did not report is lost. */
  function Resynced(rows: Rows, node: NodeId, reported: set<EnvId>): Rows {
    map e | e in rows :: if RunningOn(rows[e], node) && e !in reported
                         then ToError(rows[e], RESYNC_STAGE, RESYNC_DETAIL) else rows[e]
  }

  /** The rule in full: those rows go to error with this text and without GPUs, nothing else changes. */
  lemma ResyncedRows(rows: Rows, node: NodeId, ids: seq<EnvId>)
    ensures var after := Resynced(rows, node, set id | id in ids);
      && after.Keys == rows.Keys
      && forall e :: e in rows ==>
           after[e] == if rows[e].status == Status.Running && rows[e].nodeId == node && e !in ids
                       then rows[e].(status := Status.Error,
                         statusMessage := "[" + "resync" + "] " + "lost during agent reconnect",
                                     gpuIndices := []) else rows[e]
  {
  }

  /** What one message received from `node`'s agent does to the table. */
  function Apply(rows: Rows, node: NodeId, msg: AgentMessage): Rows {
    match msg
    case Register(_) => rows
    case Heartbeat => rows
    case EnvReady(e, sid, did, gpus) =>
      if IsUuid(e) && e in rows then rows[e := ToRunning(rows[e], sid, did, gpus)]
      else rows
    case EnvStopped(e) => if IsUuid(e) && e in rows then rows[e := ToStopped(rows[e])] else rows
    case EnvDeleted(e) => if IsUuid(e) then rows - {e} else rows
    case EnvError(e, stage, detail) =>
      if IsUuid(e) && e in rows then rows[e := ToError(rows[e], stage, detail)]
      else rows
    case EnvSnapshot(ids) => Resynced(rows, node, set id | id in ids)
  }

  function Replay(rows: Rows, node: NodeId, msgs: seq<AgentMessage>): Rows {
    if msgs == [] then rows else Replay(Apply(rows, node, msgs[0]), node, msgs[1..])
  }

  /* ---- Facts about replaying ---- */

  lemma {:induction false} ReplayAppend(rows: Rows, node: NodeId, msgs: seq<AgentMessage>, msg: AgentMessage)
    ensures Replay(rows, node, msgs + [msg]) == Apply(Replay(rows, node, msgs), node, msg)
  {
    var all := msgs + [msg];
    if msgs == [] {
      assert all[1..] == [];
    } else {
      assert all[0] == msgs[0] && all[1..] == msgs[1..] + [msg];
      ReplayAppend(Apply(rows, node, msgs[0]), node, msgs[1..], msg);
    }
  }

  predicate About(msg: AgentMessage, e: EnvId) {
    match msg
    case EnvReady(id, _, _, _) => id == e
    case EnvStopped(id) => id == e
    case EnvDeleted(id) => id == e
    case EnvError(id, _, _) => id == e
    case _ => false
  }

  /** A row inserted while nothing about it is in flight, and that is not running, stays as inserted. */
  lemma {:induction false} ReplayInsert(rows: Rows, node: NodeId, msgs: seq<AgentMessage>, e: EnvId, row: Row)
    requires !row.status.Running?
    requires forall k :: 0 <= k < |msgs| ==> !About(msgs[k], e)
    ensures Replay(rows[e := row], node, msgs) == Replay(rows, node, msgs)[e := row]
  {
    if msgs != [] {
      var next := Apply(rows, node, msgs[0]);
      assert !About(msgs[0], e);
      assert Apply(rows[e := row], node, msgs[0]) == next[e := row];
      forall k | 0 <= k < |msgs[1..]| ensures !About(msgs[1..][k], e) {
        assert msgs[1..][k] == msgs[k + 1];
      }
      ReplayInsert(next, node, msgs[1..], e, row);
    }
  }

  /** What belongs to an env for good: owner, node, template, name, host name, request and volume. */
  predicate SameIdentity(a: Row, b: Row) {
    && a.ownerUserId == b.ownerUserId && a.nodeId == b.nodeId && a.templateId == b.templateId && a.name == b.name
    && a.hostname == b.hostname && a.gpuRequest == b.gpuRequest && a.volumeName == b.volumeName
  }

  /** Messages change none of that; they never add a row. */
  lemma {:induction false} ReplayKeepsIdentity(rows: Rows, node: NodeId, msgs: seq<AgentMessage>, e: EnvId)
    requires e in Replay(rows, node, msgs)
    ensures e in rows && SameIdentity(Replay(rows, node, msgs)[e], rows[e])
  {
    if msgs != [] {
      ReplayKeepsIdentity(Apply(rows, node, msgs[0]), node, msgs[1..], e);
    }
  }

  /** Only running rows hold indices. */
  ghost predicate Tidy(rows: Rows) {
    forall e :: e in rows && !rows[e].status.Running? ==> rows[e].gpuIndices == []
  }

  /** The last message about an environment decides its row: after EnvReady, later traffic about
      other environments (a snapshot excepted) leaves it running with the reported indices. */
  lemma {:induction false} LastMessageWins(rows: Rows, node: NodeId, ready: AgentMessage, later: seq<AgentMessage>)
    requires ready.EnvReady? && IsUuid(ready.envId) && ready.envId in rows
    requires forall k :: 0 <= k < |later| ==> !About(later[k], ready.envId) && !later[k].EnvSnapshot?
    ensures var after := Replay(rows, node, [ready] + later);
      ready.envId in after
      && after[ready.envId] ==
        ToRunning(rows[ready.envId], ready.sidecarContainerId, ready.devContainerId, ready.gpuIndices)
  {
    if later == [] {
      assert [ready] + later == [ready];
      assert Replay(rows, node, [ready]) == Replay(Apply(rows, node, ready), node, []);
    } else {
      var front, last := later[..|later| - 1], later[|later| - 1];
      LastMessageWins(rows, node, ready, front);
      assert [ready] + later == ([ready] + front) + [last];
      ReplayAppend(rows, node, [ready] + front, last);
    }
  }

  /* ---- The service ---- */

  datatype CreateRequest = CreateRequest(ownerUserId: UserId, nodeId: NodeId, templateId: string, name: string,
                                         gpuRequest: int)

  /** `Failed`: there is no such owner, template or node, or the database does not answer. */
  datatype CreateError = InvalidName | NameTaken | Failed

  function NewRow(req: CreateRequest, ownerSlug: string, id: EnvId): Row {
    Row(req.ownerUserId, req.nodeId, req.templateId, req.name, ownerSlug + "-" + req.name, Status.Creating, "", "", "",
        req.gpuRequest, [], "flex-env-" + id)
  }

  /** A row as requested: creating, on no GPUs and in no containers yet, reachable under owner and name. */
  predicate IsNewRow(row: Row, req: CreateRequest, ownerSlug: string, volumeName: string) {
    && row.ownerUserId == req.ownerUserId && row.nodeId == req.nodeId && row.templateId == req.templateId
    && row.name == req.name && row.hostname == ownerSlug + "-" + req.name
    && row.status == Status.Creating && row.statusMessage == ""
    && row.sidecarContainerId == "" && row.devContainerId == ""
    && row.gpuRequest == req.gpuRequest && row.gpuIndices == [] && row.volumeName == volumeName
  }

  predicate TakenBy(rows: Rows, req: CreateRequest) {
    exists e :: e in rows && rows[e].ownerUserId == req.ownerUserId && rows[e].name == req.name
  }

  /** A row is inserted: the name is right and free, the owner is known, and the first two statements work. */
  predicate Inserts(rows: Rows, req: CreateRequest, ownerSlug: Option<string>, fails: nat -> bool) {
    IsSlug(req.name) && !fails(0) && ownerSlug.Some? && !fails(1) && !TakenBy(rows, req)
  }

  /** The UNIQUE(owner_user_id, name) constraint. */
  ghost predicate UniqueNames(rows: Rows) {
    forall d, e :: d in rows && e in rows && d != e && rows[d].ownerUserId == rows[e].ownerUserId ==>
      rows[d].name != rows[e].name
  }

  class EnvService {
    var rows: Rows

    constructor ()
      ensures rows == map[]
    {
      rows := map[];
    }

    /** `id` is the key the database generates; `ownerSlug` is what the users table holds for the owner; `fails` says
        which of the statements fail: 0 asks for the slug, 1 inserts, 2 sets the volume name. */
    method Create(req: CreateRequest, ownerSlug: Option<string>, id: EnvId, fails: nat -> bool)
      returns (error: Option<CreateError>)
      requires id !in rows
      modifies this`rows
      ensures error ==
        if !IsSlug(req.name) then Some(InvalidName)
        else if fails(0) || ownerSlug.None? || fails(1) then Some(Failed)
        else if TakenBy(old(rows), req) then Some(NameTaken)
        else if fails(2) then Some(Failed)
        else None
      ensures rows.Keys == old(rows.Keys) + if Inserts(old(rows), req, ownerSlug, fails) then {id} else {}
      ensures forall e :: e in old(rows) ==> rows[e] == old(rows)[e]
      ensures Inserts(old(rows), req, ownerSlug, fails) ==>
        IsNewRow(rows[id], req, ownerSlug.value, if fails(2) then "" else "flex-env-" + id)
      ensures old(UniqueNames(rows)) ==> UniqueNames(rows)
      ensures old(Tidy(rows)) ==> Tidy(rows)
    {
      if !IsSlug(req.name) {
        return Some(InvalidName);
      }
      if fails(0) || ownerSlug.None? {
        return Some(Failed);
      }
      if fails(1) {
        return Some(Failed);
      }
      if TakenBy(rows, req) {
        return Some(NameTaken);
      }
      rows := rows[id := NewRow(req, ownerSlug.value, id).(volumeName := "")];
      if fails(2) {
        return Some(Failed);
      }
      rows := rows[id := rows[id].(volumeName := "flex-env-" + id)];
      error := None;
    }

    method MarkRunning(id: EnvId, sidecarId: string, devId: string, gpus: seq<int>) returns (found: bool)
      modifies this`rows
      ensures found <==> id in old(rows)
      ensures rows == if !found then old(rows) else
        old(rows)[id := old(rows)[id].(status := Status.Running, statusMessage := "", sidecarContainerId := sidecarId,
                                       devContainerId := devId, gpuIndices := ToInt32s(gpus))]
    {
      var idx: seq<int> := [];
      for k := 0 to |gpus|
        invariant idx == ToInt32s(gpus[..k])
        invariant rows == old(rows)
      {
        idx := idx + [ToInt32(gpus[k])];
        assert idx == ToInt32s(gpus[..k + 1]);
      }
      assert gpus[..|gpus|] == gpus;
      found := id in rows;
      if found {
        rows := rows[id := rows[id].(status := Status.Running, statusMessage := "", sidecarContainerId := sidecarId,
                                     devContainerId := devId, gpuIndices := idx)];
      }
    }

    method MarkStopped(id: EnvId) returns (found: bool)
      modifies this`rows
      ensures found <==> id in old(rows)
      ensures rows == if !found then old(rows) else
        old(rows)[id := old(rows)[id].(status := Status.Stopped, gpuIndices := [])]
    {
      found := id in rows;
      if found {
        rows := rows[id := rows[id].(status := Status.Stopped, gpuIndices := [])];
      }
    }

    method MarkError(id: EnvId, stage: string, detail: string) returns (found: bool)
      modifies this`rows
      ensures found <==> id in old(rows)
      ensures rows == if !found then old(rows) else
        old(rows)[id := old(rows)[id].(status := Status.Error, statusMessage := "[" + stage + "] " + detail,
                                       gpuIndices := [])]
    {
      found := id in rows;
      if found {
        rows := rows[id := rows[id].(status := Status.Error, statusMessage := "[" + stage + "] " + detail,
                                     gpuIndices := [])];
      }
    }

    method Delete(id: EnvId) returns (found: bool)
      modifies this`rows
      ensures found <==> id in old(rows)
      ensures rows == old(rows) - {id}
    {
      found := id in rows;
      rows := rows - {id};
    }

    /** The ids of the running rows of a node, each once, in some order. */
    method ListRunningOnNode(node: NodeId) returns (ids: seq<EnvId>)
      ensures forall e :: e in ids <==> e in rows && RunningOn(rows[e], node)
      ensures forall i, j :: 0 <= i < j < |ids| ==> ids[i] != ids[j]
    {
      ids := [];
      var todo := rows.Keys;
      while todo != {}
        invariant todo <= rows.Keys
        invariant forall e :: e in ids <==> e in rows.Keys - todo && RunningOn(rows[e], node)
        invariant forall i, j :: 0 <= i < j < |ids| ==> ids[i] != ids[j]
      {
        var e :| e in todo;
        assert e !in ids;
        todo := todo - {e};
        if RunningOn(rows[e], node) {
          ids := ids + [e];
        }
      }
    }
  }
}

/** The control plane's end of an agent connection: the receive loop that folds agent
    messages into the envs table, and the commands it sends. */
module AgentStream {
  import opened Wrappers
  import opened AgentProtocol
  import opened EnvTable

  datatype ControlMessage =
    | RegisterAck(nodeId: NodeId)
    | HeartbeatAck
    | StopEnv(envId: EnvId)
    | DeleteEnv(envId: EnvId)

  type Streams = map<NodeId, seq<ControlMessage>>

  datatype StreamEnd = Eof | NoRegister | RegisterFailed

  /** Each heartbeat is acknowledged. */
  function Acks(msgs: seq<AgentMessage>): seq<ControlMessage> {
    if msgs == [] then [] else Acks(msgs[..|msgs| - 1]) + if msgs[|msgs| - 1].Heartbeat? then [HeartbeatAck] else []
  }

  lemma AcksMore(msgs: seq<AgentMessage>, msg: AgentMessage)
    ensures Acks(msgs + [msg]) == Acks(msgs) + if msg.Heartbeat? then [HeartbeatAck] else []
  {
    assert (msgs + [msg])[..|msgs|] == msgs;
  }

  function Answered(streams: Streams, node: NodeId, acks: seq<ControlMessage>): Streams
    requires node in streams
  {
    streams[node := streams[node] + acks]
  }

  lemma Unanswered(streams: Streams, node: NodeId)
    requires node in streams
    ensures Answered(streams, node, []) == streams
  {
    assert streams[node] + [] == streams[node];
  }

  lemma AnsweredMore(streams: Streams, node: NodeId, msgs: seq<AgentMessage>, msg: AgentMessage)
    requires node in streams
    ensures Answered(streams, node, Acks(msgs + [msg])) ==
      if msg.Heartbeat? then Answered(Answered(streams, node, Acks(msgs)), node, [HeartbeatAck])
      else Answered(streams, node, Acks(msgs))
  {
    AcksMore(msgs, msg);
    assert (streams[node] + Acks(msgs)) + [HeartbeatAck] == streams[node] + (Acks(msgs) + [HeartbeatAck]);
    assert Acks(msgs) + [] == Acks(msgs);
  }

  /** The message is about an env that has a row. */
  predicate Concerns(msg: AgentMessage, rows: Rows) {
    (msg.EnvReady? || msg.EnvStopped? || msg.EnvError? || msg.EnvDeleted?) && IsUuid(msg.envId) && msg.envId in rows
  }

  class Server {
    const envs: EnvService
    /** Per connected node, what was sent to its agent on this connection. */
    var streams: Streams

    constructor (envs: EnvService)
      ensures this.envs == envs && streams == map[]
    {
      this.envs := envs;
      streams := map[];
    }

    method Send(node: NodeId, msg: ControlMessage)
      modifies this`streams
      ensures streams == if node in old(streams) then old(streams)[node := old(streams)[node] + [msg]] else old(streams)
    {
      if node in streams {
        streams := streams[node := streams[node] + [msg]];
      }
    }

    /** Handles one message of the main loop. */
    method Receive(node: NodeId, msg: AgentMessage)
      modifies this`streams, envs`rows
      ensures envs.rows == Apply(old(envs.rows), node, msg)
      ensures Concerns(msg, old(envs.rows)) ==> var e, before := msg.envId, old(envs.rows);
        match msg
        case EnvReady(_, sid, did, gpus) =>
          envs.rows == before[e := before[e].(status := Status.Running, statusMessage := "", sidecarContainerId := sid,
                                              devContainerId := did, gpuIndices := ToInt32s(gpus))]
        case EnvStopped(_) => envs.rows == before[e := before[e].(status := Status.Stopped, gpuIndices := [])]
        case EnvError(_, stage, detail) =>
          envs.rows == before[e := before[e].(status := Status.Error, statusMessage := "[" + stage + "] " + detail,
                                              gpuIndices := [])]
        case EnvDeleted(_) => envs.rows == before - {e}
        case _ => true
      ensures !Concerns(msg, old(envs.rows)) && !msg.EnvSnapshot? ==> envs.rows == old(envs.rows)
      ensures streams == if msg.Heartbeat? && node in old(streams)
                         then old(streams)[node := old(streams)[node] + [HeartbeatAck]] else old(streams)
    {
      match msg {
        case Register(_) =>
        case Heartbeat =>
          Send(node, HeartbeatAck);
        case EnvReady(e, sid, did, gpus) =>
          if IsUuid(e) {
            var _ := envs.MarkRunning(e, sid, did, gpus);
          }
        case EnvStopped(e) =>
          if IsUuid(e) {
            var _ := envs.MarkStopped(e);
          }
        case EnvDeleted(e) =>
          if IsUuid(e) {
            var _ := envs.Delete(e);
          }
        case EnvError(e, stage, detail) =>
          if IsUuid(e) {
            var _ := envs.MarkError(e, stage, detail);
          }
        case EnvSnapshot(ids) =>
          Resync(node, ids);
      }
    }

    method Resync(node: NodeId, ids: seq<EnvId>)
      modifies envs`rows
      ensures envs.rows == Resynced(old(envs.rows), node, set id | id in ids)
      ensures envs.rows.Keys == old(envs.rows.Keys)
      ensures forall e :: e in envs.rows ==>
        var before := old(envs.rows)[e];
        envs.rows[e] == if before.status == Status.Running && before.nodeId == node && e !in ids
                        then before.(status := Status.Error,
                          statusMessage := "[" + "resync" + "] " + "lost during agent reconnect",
                                     gpuIndices := []) else before
    {
      FlagUnreported(node, ids);
      ResyncedRows(old(envs.rows), node, ids);
    }

    method FlagUnreported(node: NodeId, ids: seq<EnvId>)
      modifies envs`rows
      ensures envs.rows == Resynced(old(envs.rows), node, set id | id in ids)
    {
      var reported: set<EnvId> := set id | id in ids;
      var running := envs.ListRunningOnNode(node);
      for k := 0 to |running|
        invariant envs.rows.Keys == old(envs.rows.Keys)
        invariant forall e :: e in envs.rows ==>
          (envs.rows[e] == if e in running[..k] && e !in reported
                           then ToError(old(envs.rows)[e], RESYNC_STAGE, RESYNC_DETAIL) else old(envs.rows)[e])
      {
        var e := running[k];
        assert e in running && e !in running[..k];
        assert running[..k + 1] == running[..k] + [e];
        if e !in reported {
          var _ := envs.MarkError(e, "resync", "lost during agent reconnect");
        }
      }
      assert running[..|running|] == running;
    }

    /** One connection of an authenticated agent, until it closes: `msgs` is all it sends. Recording the registration
        or acknowledging it may fail, before anything else is read. `answers` is what the agent is sent. */
    method Stream(node: NodeId, msgs: seq<AgentMessage>, recordFails: bool, ackFails: bool)
      returns (end: StreamEnd, ghost answers: seq<ControlMessage>)
      modifies this`streams, envs`rows
      ensures end ==
        if msgs == [] || !msgs[0].Register? then NoRegister else if recordFails || ackFails then RegisterFailed else Eof
      ensures envs.rows == if end == Eof then Replay(old(envs.rows), node, msgs) else old(envs.rows)
      ensures answers == if end == Eof then [RegisterAck(node)] + Acks(msgs[1..]) else []
      ensures streams == old(streams) - {node}
    {
      streams := streams[node := []];
      answers := [];
      if msgs == [] || !msgs[0].Register? {
        streams := streams - {node};
        return NoRegister, answers;
      }
      if recordFails || ackFails {
        streams := streams - {node};
        return RegisterFailed, answers;
      }
      Send(node, RegisterAck(node));
      MainLoop(node, msgs[1..]);
      answers := streams[node];
      streams := streams - {node};
      end := Eof;
    }

    method MainLoop(node: NodeId, msgs: seq<AgentMessage>)
      requires node in streams
      modifies this`streams, envs`rows
      ensures envs.rows == Replay(old(envs.rows), node, msgs)
      ensures streams == old(streams)[node := old(streams)[node] + Acks(msgs)]
    {
      ghost var rows0, streams0 := envs.rows, streams;
      Unanswered(streams0, node);
      for k := 0 to |msgs|
        invariant envs.rows == Replay(rows0, node, msgs[..k])
        invariant streams == Answered(streams0, node, Acks(msgs[..k]))
      {
        Receive(node, msgs[k]);
        ReplayAppend(rows0, node, msgs[..k], msgs[k]);
        AnsweredMore(streams0, node, msgs[..k], msgs[k]);
        assert msgs[..k] + [msgs[k]] == msgs[..k + 1];
      }
      assert msgs[..|msgs|] == msgs;
    }

    /** EnvsDispatcher.Delete: with the agent offline the row goes at once, else the agent is told. */
    method Delete(e: EnvId) returns (found: bool)
      modifies this`streams, envs`rows
      ensures found <==> e in old(envs.rows)
      ensures !found ==> streams == old(streams) && envs.rows == old(envs.rows)
      ensures found ==> var node := old(envs.rows)[e].nodeId;
        if node in old(streams)
        then envs.rows == old(envs.rows) && streams == old(streams)[node := old(streams)[node] + [DeleteEnv(e)]]
        else envs.rows == old(envs.rows) - {e} && streams == old(streams)
    {
      if e !in envs.rows {
        return false;
      }
      var node := envs.rows[e].nodeId;
      if node !in streams {
        var _ := envs.Delete(e);
        return true;
      }
      Send(node, DeleteEnv(e));
      found := true;
    }
  }
}

/** Docker as the agent sees it: a map of named containers. A call that answers an
    error has no effect; any call may answer one. */
module Docker {
  import opened Wrappers

  /** The flexctl.* labels; a label that is not set reads as "". */
  datatype Labels = Labels(envId: string, role: string, hostname: string, headscaleUrl: string,
                           tags: string, imageRef: string, gpuIndices: string, volumeName: string)

  const NO_LABELS := Labels("", "", "", "", "", "", "", "")

  datatype VolumeMount = VolumeMount(source: string, target: string)

  datatype ContainerSpec = ContainerSpec(name: string, image: string, cmd: seq<string>, env: map<string, string>,
                                         labels: Labels, networkMode: string, capAdd: seq<string>,
                                         devices: seq<string>, gpuIndices: seq<int>, volumeMounts: seq<VolumeMount>)

  datatype State = Created | Running | Exited

  datatype Container = Container(spec: ContainerSpec, state: State)

  /** A call by container or volume name, or by role. */
  datatype Call =
    | CreateCall(name: string)
    | StartCall(name: string)
    | StopCall(name: string)
    | RemoveCall(name: string)
    | InspectCall(name: string)
    | RemoveVolumeCall(name: string)
    | ListCall(role: string)

  datatype Called = Called(call: Call, reply: Reply)

  datatype Executed = Executed(container: string, command: seq<string>, output: Option<string>)

  /** Containers by id; the id of a container is its name. */
  type Containers = map<string, Container>

  function WithState(cs: Containers, name: string, state: State): Containers {
    if name in cs then cs[name := cs[name].(state := state)] else cs
  }

  /** Removing a container leaves the others, whatever its state was; removing a missing one leaves all. */
  lemma RemoveForgets(cs: Containers, name: string, state: State)
    ensures WithState(cs, name, state) - {name} == cs - {name}
    ensures name !in cs ==> cs - {name} == cs && WithState(cs, name, state) == cs
  {
  }

  lemma CreateThenStart(cs: Containers, spec: ContainerSpec)
    ensures WithState(cs[spec.name := Container(spec, Created)], spec.name, Running) ==
      cs[spec.name := Container(spec, Running)]
  {
  }

  lemma Recreate<V>(m: map<string, V>, k: string, v: V)
    ensures (m - {k})[k := v] == m[k := v]
  {
  }

  class DockerClient {
    var containers: Containers
    var volumes: set<string>
    /** Each Exec so far: where it ran, what it ran, and what that printed, or None when the call failed. */
    var execs: seq<Executed>
    /** Every other call so far, and its answer. */
    var calls: seq<Called>

    constructor ()
      ensures containers == map[] && volumes == {} && execs == [] && calls == []
    {
      containers, volumes, execs, calls := map[], {}, [], [];
    }

    method CreateContainer(spec: ContainerSpec) returns (id: string, reply: Reply)
      modifies this`containers, this`calls
      ensures id == spec.name
      ensures containers ==
        if reply.Ok? then old(containers)[spec.name := Container(spec, Created)] else old(containers)
      ensures calls == old(calls) + [Called(CreateCall(spec.name), reply)]
    {
      id := spec.name;
      reply := *;
      if reply.Ok? {
        containers := containers[spec.name := Container(spec, Created)];
      }
      calls := calls + [Called(CreateCall(spec.name), reply)];
    }

    method StartContainer(id: string) returns (reply: Reply)
      modifies this`containers, this`calls
      ensures reply.Ok? ==> id in old(containers)
      ensures containers == if reply.Ok? then WithState(old(containers), id, Running) else old(containers)
      ensures calls == old(calls) + [Called(StartCall(id), reply)]
    {
      reply := *;
      if reply.Ok? && id !in containers {
        reply := Err("not found");
      }
      if reply.Ok? {
        containers := containers[id := containers[id].(state := Running)];
      }
      calls := calls + [Called(StartCall(id), reply)];
    }

    method StopContainer(id: string) returns (reply: Reply)
      modifies this`containers, this`calls
      ensures reply.Ok? ==> id in old(containers)
      ensures containers == if reply.Ok? then WithState(old(containers), id, Exited) else old(containers)
      ensures calls == old(calls) + [Called(StopCall(id), reply)]
    {
      reply := *;
      if reply.Ok? && id !in containers {
        reply := Err("not found");
      }
      if reply.Ok? {
        containers := containers[id := containers[id].(state := Exited)];
      }
      calls := calls + [Called(StopCall(id), reply)];
    }

    method RemoveContainer(id: string) returns (reply: Reply)
      modifies this`containers, this`calls
      ensures containers == if reply.Ok? then old(containers) - {id} else old(containers)
      ensures calls == old(calls) + [Called(RemoveCall(id), reply)]
    {
      reply := *;
      if reply.Ok? {
        containers := containers - {id};
      }
      calls := calls + [Called(RemoveCall(id), reply)];
    }

    method InspectContainer(id: string) returns (info: Container, reply: Reply)
      modifies this`calls
      ensures reply.Ok? ==> id in containers && info == containers[id]
      ensures calls == old(calls) + [Called(InspectCall(id), reply)]
    {
      reply := *;
      if reply.Ok? && id !in containers {
        reply := Err("not found");
      }
      if reply.Ok? {
        info := containers[id];
      } else {
        info := *;
      }
      calls := calls + [Called(InspectCall(id), reply)];
    }

    /** All containers with the given role label, running or not, in some order. */
    method ListContainers(role: string) returns (list: seq<Container>, reply: Reply)
      modifies this`calls
      ensures reply.Ok? ==> forall c :: c in list <==> c in containers.Values && c.spec.labels.role == role
      ensures calls == old(calls) + [Called(ListCall(role), reply)]
    {
      reply := *;
      list := [];
      var todo := containers.Keys;
      while todo != {}
        invariant todo <= containers.Keys
        invariant forall c :: c in list <==>
          exists n :: n in containers.Keys - todo && containers[n] == c && c.spec.labels.role == role
      {
        var n :| n in todo;
        todo := todo - {n};
        ghost var before := list;
        if containers[n].spec.labels.role == role {
          list := list + [containers[n]];
        }
        forall c ensures c in list <==>
          exists n :: n in containers.Keys - todo && containers[n] == c && c.spec.labels.role == role
        {
          assert c in list ==> c in before || c == containers[n];
          assert c in before ==> exists m ::
            m in containers.Keys - todo && containers[m] == c && c.spec.labels.role == role;
        }
      }
      calls := calls + [Called(ListCall(role), reply)];
    }

    /** Runs a command in a container; the output may be anything. */
    method Exec(id: string, command: seq<string>) returns (stdout: string, reply: Reply)
      modifies this`execs
      ensures execs == old(execs) + [Executed(id, command, if reply.Ok? then Some(stdout) else None)]
    {
      reply := *;
      stdout := *;
      execs := execs + [Executed(id, command, if reply.Ok? then Some(stdout) else None)];
    }

    method RemoveVolume(name: string) returns (reply: Reply)
      modifies this`volumes, this`calls
      ensures volumes == if reply.Ok? then old(volumes) - {name} else old(volumes)
      ensures calls == old(calls) + [Called(RemoveVolumeCall(name), reply)]
    {
      reply := *;
      if reply.Ok? {
        volumes := volumes - {name};
      }
      calls := calls + [Called(RemoveVolumeCall(name), reply)];
    }
  }
}

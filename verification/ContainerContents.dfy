/** What the containers of an environment are, field by field and in the words of the commands: name, image, command,
    environment, labels, network, devices, GPUs and mounts. */
module ContainerContents {
  import opened Wrappers
  import opened AgentProtocol
  import opened Docker
  import opened GpuAllocator
  import opened HandlerSteps
  import opened HandlerOutcomes
  import GpuLabels
  import Text

  /** The env's sidecar runs this image under this host name, key, URL and tags. */
  ghost predicate SidecarRunsAs(cs: Containers, id: string, image: string, hostname: string, authKey: string,
                                headscaleUrl: string, tags: string)
  {
    var name := "flex-net-" + id;
    name in cs && cs[name].state == State.Running &&
    var spec := cs[name].spec;
    && spec.name == name && spec.image == image && spec.cmd == []
    && spec.env.Keys == {"FLEXCTL_HOSTNAME", "FLEXCTL_AUTHKEY", "FLEXCTL_HEADSCALE_URL", "FLEXCTL_TAGS"}
    && spec.env["FLEXCTL_HOSTNAME"] == hostname
    && spec.env["FLEXCTL_AUTHKEY"] == authKey
    && spec.env["FLEXCTL_HEADSCALE_URL"] == headscaleUrl
    && spec.env["FLEXCTL_TAGS"] == tags
    && spec.networkMode == "" && spec.capAdd == ["NET_ADMIN"] && spec.devices == ["/dev/net/tun"]
    && spec.gpuIndices == [] && spec.volumeMounts == []
  }

  /** The env's dev container runs this image and command with these keys and GPUs, in the network of its sidecar
      and with this volume as its home. */
  ghost predicate DevRunsAs(cs: Containers, id: string, image: string, cmd: seq<string>, authorizedKeys: string,
                            gpus: seq<int>, volume: string)
  {
    var name := "flex-env-" + id;
    name in cs && cs[name].state == State.Running &&
    var spec := cs[name].spec;
    && spec.name == name && spec.image == image && spec.cmd == cmd
    && spec.env.Keys == {"FLEXCTL_AUTHORIZED_KEYS"} && spec.env["FLEXCTL_AUTHORIZED_KEYS"] == authorizedKeys
    && spec.networkMode == "container:" + ("flex-net-" + id) && spec.capAdd == [] && spec.devices == []
    && spec.gpuIndices == gpus
    && |spec.volumeMounts| == 1 && spec.volumeMounts[0].source == volume && spec.volumeMounts[0].target == "/home/dev"
  }

  /** The labels from which a restart rebuilds the sidecar. */
  ghost predicate SidecarLabelled(cs: Containers, id: string, image: string, hostname: string, headscaleUrl: string,
                                  tags: string)
  {
    var name := "flex-net-" + id;
    name in cs &&
    var labels := cs[name].spec.labels;
    && labels.envId == id && labels.role == "sidecar" && labels.imageRef == image && labels.hostname == hostname
    && labels.headscaleUrl == headscaleUrl && labels.tags == tags
    && labels.gpuIndices == "" && labels.volumeName == ""
  }

  ghost predicate DevLabelledAs(cs: Containers, id: string, image: string, gpuIndices: string, volume: string)
  {
    var name := "flex-env-" + id;
    name in cs &&
    var labels := cs[name].spec.labels;
    && labels.envId == id && labels.role == "dev" && labels.imageRef == image
    && labels.gpuIndices == gpuIndices && labels.volumeName == volume
    && labels.hostname == "" && labels.headscaleUrl == "" && labels.tags == ""
  }

  /** What a successful Create leaves, each value from its own field of the command. */
  ghost predicate CreatedAs(cs: Containers, cmd: CreateEnv, gpus: seq<int>) {
    && SidecarRunsAs(cs, cmd.envId, cmd.sidecarImageRef, cmd.hostname, cmd.preauthKey, cmd.headscaleUrl,
                     Text.Join(cmd.tags, ','))
    && SidecarLabelled(cs, cmd.envId, cmd.sidecarImageRef, cmd.hostname, cmd.headscaleUrl, Text.Join(cmd.tags, ','))
    && DevRunsAs(cs, cmd.envId, cmd.imageRef, cmd.defaultCmd, cmd.authorizedKeys, gpus, "flex-env-" + cmd.envId)
    && DevLabelledAs(cs, cmd.envId, cmd.imageRef, GpuLabels.Csv(gpus), "flex-env-" + cmd.envId)
  }

  /** What a successful Start leaves: the new keys of the command, all else from the labels there were. */
  ghost predicate RestartedAs(before: Containers, cs: Containers, cmd: StartEnv, gpus: seq<int>) {
    "flex-net-" + cmd.envId in before && "flex-env-" + cmd.envId in before &&
    var sidecar := before["flex-net-" + cmd.envId].spec.labels;
    var dev := before["flex-env-" + cmd.envId].spec.labels;
    && SidecarRunsAs(cs, cmd.envId, sidecar.imageRef, sidecar.hostname, cmd.preauthKey, sidecar.headscaleUrl,
                     sidecar.tags)
    && DevRunsAs(cs, cmd.envId, dev.imageRef, [], cmd.authorizedKeys, gpus, dev.volumeName)
    && cs["flex-net-" + cmd.envId].spec.labels == sidecar
    && cs["flex-env-" + cmd.envId].spec.labels == dev
  }

  /** Both containers of the env, if there, have exited; nothing else differs. */
  ghost predicate HaltedIn(before: Containers, after: Containers, id: string) {
    && after.Keys == before.Keys
    && (forall n :: n in after && (n == "flex-env-" + id || n == "flex-net-" + id) ==>
          after[n].state == State.Exited && after[n].spec == before[n].spec)
    && (forall n :: n in after && n != "flex-env-" + id && n != "flex-net-" + id ==> after[n] == before[n])
  }

  lemma StoppedAreHalted(cs: Containers, id: string)
    ensures HaltedIn(cs, StoppedContainers(cs, id, Ok, Ok), id)
  {
  }

  lemma CreatedSidecarIs(cmd: CreateEnv, cs: Containers)
    requires Lookup(cs, SidecarName(cmd.envId)) == Some(Container(SidecarSpec(cmd), State.Running))
    ensures SidecarRunsAs(cs, cmd.envId, cmd.sidecarImageRef, cmd.hostname, cmd.preauthKey, cmd.headscaleUrl,
                          Text.Join(cmd.tags, ','))
    ensures SidecarLabelled(cs, cmd.envId, cmd.sidecarImageRef, cmd.hostname, cmd.headscaleUrl,
                            Text.Join(cmd.tags, ','))
  {
  }

  lemma CreatedDevIs(cmd: CreateEnv, cs: Containers, gpus: seq<int>)
    requires Lookup(cs, DevName(cmd.envId)) == Some(Container(DevSpec(cmd, gpus), State.Running))
    ensures DevRunsAs(cs, cmd.envId, cmd.imageRef, cmd.defaultCmd, cmd.authorizedKeys, gpus, "flex-env-" + cmd.envId)
    ensures DevLabelledAs(cs, cmd.envId, cmd.imageRef, GpuLabels.Csv(gpus), "flex-env-" + cmd.envId)
  {
  }

  /** Create builds the containers the command asks for. */
  lemma CreateBuilds(w0: World, w: World, cmd: CreateEnv)
    requires CreateDone(w0, w, cmd)
    ensures CreatedAs(w.containers, cmd, Held(w.grants, cmd.envId))
  {
    NamesDiffer(cmd.envId, cmd.envId);
    var gpus := Held(w.grants, cmd.envId);
    CreatedSidecarIs(cmd, w.containers);
    CreatedDevIs(cmd, w.containers, gpus);
  }

  lemma RestartedSidecarIs(cmd: StartEnv, labels: Labels, cs: Containers)
    requires Lookup(cs, SidecarName(cmd.envId)) == Some(Container(RestartedSidecarSpec(cmd, labels), State.Running))
    ensures SidecarRunsAs(cs, cmd.envId, labels.imageRef, labels.hostname, cmd.preauthKey, labels.headscaleUrl,
                          labels.tags)
    ensures cs["flex-net-" + cmd.envId].spec.labels == labels
  {
  }

  lemma RestartedDevIs(cmd: StartEnv, labels: Labels, gpus: seq<int>, cs: Containers)
    requires Lookup(cs, DevName(cmd.envId)) == Some(Container(RestartedDevSpec(cmd, labels, gpus), State.Running))
    ensures DevRunsAs(cs, cmd.envId, labels.imageRef, [], cmd.authorizedKeys, gpus, labels.volumeName)
    ensures cs["flex-env-" + cmd.envId].spec.labels == labels
  {
  }

  /** Start rebuilds the containers from their labels, with the keys of the command. */
  lemma StartBuilds(w0: World, w: World, cmd: StartEnv)
    requires StartDone(w0, w, cmd) && Idle(w0, cmd.envId)
    ensures RestartedAs(w0.containers, w.containers, cmd, Held(w.grants, cmd.envId))
  {
    var e := cmd.envId;
    NamesDiffer(e, e);
    RestartedSidecarIs(cmd, w0.containers[SidecarName(e)].spec.labels, w.containers);
    RestartedDevIs(cmd, w0.containers[DevName(e)].spec.labels, Held(w.grants, e), w.containers);
  }
}

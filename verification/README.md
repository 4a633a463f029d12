# flexctl: a verified model

flexctl runs development environments on GPU nodes. A control plane keeps a table of environments; an agent on
every node creates, stops, starts and deletes their containers, hands out GPUs, and reports one message per command
over an ordered stream. This project models that protocol and the smaller cores around it, and proves their
properties for every input, every interleaving and every failing call.

`dafny verify dfyconfig.toml` checks everything.

## How the model is laid out

| part | files |
|---|---|
| The environment lifecycle | `AgentProtocol`, `Docker`, `GpuLabels`, `GpuAllocator`, `HandlerSteps`, `HandlerOutcomes`, `HandlerReports`, `ContainerContents`, `EnvDispatcher` |
| The table and the stream | `EnvTable`, `AgentStream` |
| Everything at once | `EnvInvariant`, `AgentSystem`, `SystemTheorems`, `HandlerIsolation`, `Completion`, `Wiring`, `Reconnect`, `Restarts` |
| The block in `~/.ssh/config` | `SshConfig`, `SshConfigLaws` |
| Reconnect backoff | `Backoff` |
| Access policy and signup | `Acl`, `PolicySync` |
| The client's configuration file | `ClientConfig` |
| Shared | `Wrappers`, `Text`, `Decimal`, `Sorting` |

The four command handlers appear twice. `EnvDispatcher.Dispatcher` has them as methods over a Docker client, the
allocator and the sender, call by call as in the source. `HandlerSteps.Step` has them as a machine that makes one
Docker call, allocator call or send per step. Each method is proved to be a run of that machine, so that what is
proved of the machine, also with any number of handlers interleaved (`AgentSystem`), is proved of the methods.
`HandlerIsolation` shows that interleaving does not change what a handler does to its own environment, and
`Completion` that every handler ends, whatever its calls answer.
The long handlers are split into methods for their phases; each keeps the same contract (`Continues`). It also ties
the answers of the run to the calls the Docker client recorded, so that no call can be left out or its answer made up.
`ContainerContents` and `HandlerReports` say in the words of the commands what the containers are and which message
is sent.

Any Docker call may fail, with any error text, and then has no effect. That includes the calls whose errors the
source ignores. `faults` is the set of environments whose dev container still runs although Stop or Delete went
on; exclusivity is proved outside that set, and proved without exception for runs in which no halt of a running
dev container fails. `Restarts.FailedStopSharesGpu` shows a run in which one failed stop makes two running
containers share a GPU.

### What the proofs assume

The code does not enforce these; they are preconditions (`AgentSystem.Enabled`) or types.

- At most one handler per environment is in flight; handlers of different environments interleave freely.
- Create comes once for an environment the node does not know, with a request of at least 0
  (`internal/envs/handlers.go:85`); Start comes only while the dev container is not running. Stop, Start and
  Delete may come after the row is gone; no command comes for an environment whose row is on another node.
- The node's GPU indices are distinct and fit in 32 bits (`internal/flexctlcli/agent.go:46-50` passes 0..n-1).
- A connection delivers what was sent, in order.

### Where the code and its documentation differ

- `Allocate` with count 0 is documented to reserve nothing; it replaces the environment's entry by an empty one, so
  an environment that held indices loses them (`internal/envlifecycle/allocator.go:31-39`). `AllocateZeroIff` says
  when that is harmless, `AllocateZeroLosesGpu` is an input where it is not.
- Stop and Delete release the GPUs without looking at whether the container stopped; `StopIsSafeIff` and
  `DeleteIsSafeIff` say exactly when that is safe.
- Start drops the image's default command, and it copies the label of the GPUs of the Create while attaching newly
  picked ones: `RestartRebuildsDevIff`, `LabelGoesStale`. So `RestoreFromDocker` agrees with the live allocator after
  histories of creates and deletes, and otherwise exactly under the condition of `RestoreAgreesIff`;
  `StopBreaksRestore` is a history (Create, Stop, restore) that violates it.
- The snapshot carries no GPU lists, so a resync does not repair a row with stale indices: `ResyncAgreesIff`,
  `ResyncMissesStaleIndices`.
- Doubling a backoff of 2^62 ns or more overflows to a negative duration, which is below the cap. The closed form
  holds exactly if both bounds are below 2^62 (2^62 itself already overflows).
- The rollback of a signup uses the request's own context, so a cancelled request can fail in the hook and in the
  rollback. `InSyncIff` says what that does to the pushed policy.
- The editor's last write does not win if a field of the block written before contains the end marker
  (`LastWriteWinsIff`).

## Model

| member | source | states |
|---|---|---|
| GpuAllocator.GPUAllocator.constructor | internal/envlifecycle/allocator.go:25-29 | the indices are kept sorted, duplicates included; the allocator starts sound exactly if no index was passed twice |
| GpuAllocator.GPUAllocator.Allocate | internal/envlifecycle/allocator.go:33-58 | the two loops compute the first free indices; the entry is replaced on success, nothing changes on failure |
| GpuAllocator.GPUAllocator.Release | internal/envlifecycle/allocator.go:60-64 | the entry goes, every other entry stays |
| GpuAllocator.GPUAllocator.RestoreFromDocker | internal/envlifecycle/allocator.go:68-92 | the entries of all listed dev containers are read from their labels on top of the old ones; a failed listing changes nothing |
| GpuAllocator.FreePlusHeldIsTotal | internal/envlifecycle/allocator.go:40-51 | conservation: free and held indices split the node's indices, in sets and in numbers |
| GpuAllocator.PickIsSmallest | internal/envlifecycle/allocator.go:46-57 | Allocate succeeds iff the count is at most what is free, and then picks that many, ascending, all free, none larger than a free index left over |
| GpuAllocator.AllocateKeepsSound | internal/envlifecycle/allocator.go:33-58 | entries stay duplicate-free, within the node's indices and pairwise disjoint, also when the env held indices before |
| GpuAllocator.AllocateZeroIff | internal/envlifecycle/allocator.go:31-39 | Allocate with count 0 leaves the env's indices and the free ones as they were iff the env held none; otherwise all it held becomes free |
| GpuAllocator.AllocateZeroLosesGpu | internal/envlifecycle/allocator.go:31-39 | an env that held GPU 0 and allocates 0 loses it: the next env's request for one GPU, refused before, now gets it |
| GpuAllocator.EveryHistoryConserves | internal/envlifecycle/allocator.go:33-64 | soundness and conservation after every sequence of Allocate and Release |
| GpuAllocator.RestoredReadsLabels | internal/envlifecycle/allocator.go:78-90 | every restored entry is some listed container's label, and every listed container with a valid id has an entry |
| GpuLabels.IndicesCSV | internal/envlifecycle/allocator.go:121-127 | the loop and the join print the list as specified |
| GpuLabels.ParseIndicesCSV | internal/envlifecycle/allocator.go:105-118 | the loop over the split text keeps exactly the parts that parse, in order |
| GpuLabels.ParseCsvOfCsv | internal/envlifecycle/allocator.go:105-127 | parsing undoes printing for every list of 64-bit integers, negative ones and the empty list included |
| GpuLabels.CsvInjective | internal/envlifecycle/allocator.go:121-127 | different lists have different labels |
| GpuLabels.CsvOf | internal/envlifecycle/allocator.go:121-127 | commas between the numbers and nothing else |
| Text.TrimSpaceIs | internal/envlifecycle/allocator.go:106-113 | trimming takes away white space at both ends, and all of it |
| Text.JoinSplit | internal/envlifecycle/allocator.go:110 | joining undoes splitting, and no part contains the separator |
| Decimal.AtoiItoa | internal/envlifecycle/allocator.go:113-124 | decimal parsing undoes decimal printing for every 64-bit integer |
| Decimal.ItoaOf | internal/envlifecycle/allocator.go:124 | the digits and their places |
| Decimal.AtoiNeedsDigits | internal/envlifecycle/allocator.go:113 | what parses is one optional sign and at least one digit |
| Docker.DockerClient.CreateContainer | internal/envdocker/mock.go:43-58 | on success a container in state created under the spec's name, on failure no change |
| Docker.DockerClient.StartContainer | internal/envdocker/mock.go:60-73 | success only for an existing container, which then runs |
| Docker.DockerClient.StopContainer | internal/envdocker/mock.go:75-88 | success only for an existing container, which then has exited |
| Docker.DockerClient.RemoveContainer | internal/envdocker/mock.go:90-98 | success removes the name, present or not, running or not |
| Docker.DockerClient.InspectContainer | internal/envdocker/mock.go:100-111 | success answers the existing container |
| Docker.DockerClient.ListContainers | internal/envdocker/mock.go:113-133 | exactly the containers with the role, stopped ones included |
| EnvDispatcher.Dispatcher.HandleCreate | internal/envlifecycle/dispatcher.go:60-160 | a bad id is refused with one EnvError and no call; otherwise a complete run of the Create steps, each answer being that of the recorded call; on an unknown env the result is CreateDone or CreateFailed, the message is CreateReport's, and EnvReady comes only with both containers as the command asks, field by field (CreatedAs); polls are made in the env's sidecar only |
| EnvDispatcher.Dispatcher.HandleStop | internal/envlifecycle/dispatcher.go:184-205 | a complete run of the Stop steps; the grant goes and EnvStopped is sent whatever the calls answer; if they work exactly flex-env-ID and flex-net-ID have exited and nothing else differs |
| EnvDispatcher.Dispatcher.HandleStart | internal/envlifecycle/dispatcher.go:207-315 | a complete run of the Start steps; on an env whose dev container does not run the result is StartDone or StartFailed, the message is StartReport's, and EnvReady comes only with both containers rebuilt from the old labels with the new keys, field by field (RestartedAs) |
| EnvDispatcher.Dispatcher.HandleDelete | internal/envlifecycle/dispatcher.go:317-342 | a complete run of the Delete steps; the grant goes and EnvDeleted is sent; if the calls work exactly the containers flex-env-ID and flex-net-ID and the volume flex-env-ID are gone |
| EnvDispatcher.Dispatcher.WaitSidecarHealth | internal/envlifecycle/dispatcher.go:164-182 | runs tailscale status in the given container, sleeping 50 ms after each poll that does not show "100."; ends after at most ceil(timeout/50ms) polls; without cancellation it succeeds iff some poll showed it; it fails only when the context is done, or when the time is over, with that text |
| EnvDispatcher.Dispatcher.SendReady | internal/envlifecycle/dispatcher.go:46-58 | exactly one EnvReady, indices truncated to 32 bits |
| HandlerOutcomes.CreateAllOrNothing | internal/envlifecycle/dispatcher.go:60-160 | over all answers: exactly one message; EnvReady iff both containers run and one list is granted, attached, labelled and reported; otherwise EnvError, allocator as before, and beside the containers there were exactly those whose removal failed |
| HandlerOutcomes.CreateSucceeds | internal/envlifecycle/dispatcher.go:60-160 | with enough free GPUs and every call granted, Create ends ready |
| HandlerOutcomes.CreateExits | internal/envlifecycle/dispatcher.go:98-156 | the failing call changed nothing, and the exit releases, stops and removes exactly what the stages before granted, started and created |
| HandlerOutcomes.StartAllOrNothing | internal/envlifecycle/dispatcher.go:207-315 | over all answers, on an env whose dev container does not run: exactly one message; ready with both containers rebuilt, as many GPUs as the label lists, one list granted, attached and reported; otherwise no grant, dev not running, and the sidecar running iff it ran before and nothing was changed, or both clean-up calls for the new one failed |
| HandlerOutcomes.StartExits | internal/envlifecycle/dispatcher.go:241-311 | the failing call changed nothing; the exit releases iff GPUs were reallocated, removes a new sidecar, and stops it first iff it was started |
| ContainerContents.CreateBuilds | internal/envlifecycle/dispatcher.go:78-140 | after a successful Create image, command, every environment variable, labels, network, capabilities, devices, GPUs and mounts of both running containers, each from its own field of the command |
| ContainerContents.StartBuilds | internal/envlifecycle/dispatcher.go:247-300 | after a successful Start the same for the rebuilt containers: keys from the command, the rest from the labels there were, no command |
| HandlerReports.CreateReports | internal/envlifecycle/dispatcher.go:63-159 | the one message a finished Create has sent, as a function of the answers: insufficient GPUs with both numbers, or stage and text of the first call that failed, or EnvReady with names and indices |
| HandlerReports.StartReports | internal/envlifecycle/dispatcher.go:210-314 | the same for Start, with the prefix of each stage |
| HandlerOutcomes.StraightLine | internal/envlifecycle/dispatcher.go:192-204 | Stop and Delete make their calls in order whatever they answer; harmless failures have the effect of successes |
| HandlerOutcomes.StopOutcome | internal/envlifecycle/dispatcher.go:192-204 | the whole state after Stop, as a function of the two answers |
| HandlerOutcomes.DeleteOutcome | internal/envlifecycle/dispatcher.go:327-341 | the whole state after Delete, as a function of the answers |
| HandlerOutcomes.StopIsSafeIff | internal/envlifecycle/dispatcher.go:192-198 | running containers keep exactly their granted GPUs across a Stop iff not (dev ran with GPUs and could not be stopped) |
| HandlerOutcomes.DeleteIsSafeIff | internal/envlifecycle/dispatcher.go:327-334 | the same for Delete: unsafe iff the stop and the forced removal of a running dev with GPUs both fail |
| HandlerIsolation.HandlersAreIsolated | internal/flexctlagent/agent.go:195-205 | in every interleaved run, what a handler does to its env's containers and grant and what it reports is what it does running alone, with the same answers, from a state the agent was in on the way |
| HandlerIsolation.CreateAmongOthers | internal/envlifecycle/dispatcher.go:60-160 | Create is all or nothing also with other handlers interleaved: ready with one list of the requested length, or one EnvError, no grant, and exactly the containers whose removal failed |
| HandlerIsolation.StartAmongOthers | internal/envlifecycle/dispatcher.go:207-315 | the same for Start, with the specs rebuilt from the labels the containers had when it began |
| Wiring.OwnVolumeAndNetwork | internal/envlifecycle/dispatcher.go:133-139 | in every run, however often rebuilt, a dev container mounts its env's own volume at /home/dev, the one Delete removes, and is in its env's own sidecar's network |
| Completion.StepFalls | internal/envlifecycle/dispatcher.go:60-342 | every step of any handler, whatever its call answers, brings it closer to its end |
| Completion.EveryHandlerFinishes | internal/envlifecycle/dispatcher.go:60-342 | a handler is done after a number of steps bounded by its task, whatever its calls answer |
| Completion.Quiesce | internal/flexctlagent/agent.go:184-208 | whatever the calls answer, every reachable state leads to one with no handler in flight and every message delivered |
| EnvTable.EnvService.Create | internal/envs/service.go:53-97 | the error as a function of name, owner, table and failing statements; a row is inserted exactly if the first two statements work and the name is right and free, with every field as requested, host name owner-name, and the volume flex-env-ID unless the last statement fails; no other row changes |
| Text.SlugIs | internal/envs/service.go:21 | the rule for names in full: 2 to 32 of these characters, a letter first, no hyphen last |
| EnvTable.EnvService.MarkRunning | internal/envs/service.go:176-195 | the row, if there is one, runs with the given ids and indices; nothing else changes |
| EnvTable.EnvService.MarkStopped | internal/envs/service.go:197-209 | the row is stopped and lists no indices; nothing else changes |
| EnvTable.EnvService.MarkError | internal/envs/service.go:211-223 | the row has status error, the message "[stage] detail" and no indices; its other fields and all other rows stay |
| EnvTable.EnvService.Delete | internal/envs/service.go:225-234 | the row goes; reports whether there was one |
| EnvTable.EnvService.ListRunningOnNode | internal/envs/service.go:141-162 | exactly the running rows of the node, each once |
| EnvTable.LastMessageWins | internal/agentstream/server.go:159-199 | after EnvReady, later messages about other envs (snapshots aside) leave the row running with the reported indices |
| EnvTable.ReplayKeepsIdentity | internal/agentstream/server.go:150-217 | messages never add a row nor change a row's owner, node, template, name, host name, request or volume |
| EnvTable.ReplayInsert | internal/envs/service.go:53-84 | a row inserted while no message about it is queued commutes with replaying the queue |
| AgentStream.Server.Receive | internal/agentstream/server.go:150-221 | EnvReady makes the row running with empty message, the ids and indices; EnvStopped stopped; EnvError error with "[stage] detail"; EnvDeleted removes it; every other field and row stays; a heartbeat is acknowledged |
| AgentStream.Server.Resync | internal/agentstream/server.go:201-217 | exactly the node's running rows that were not reported go to error with "[resync] lost during agent reconnect" and without indices |
| AgentStream.Server.Stream | internal/agentstream/server.go:107-223 | without Register first, or if the registration cannot be recorded or acknowledged, nothing is applied; otherwise the table is the replay of all messages in order, and the agent is sent one RegisterAck with its node and one HeartbeatAck a heartbeat; the stream is unregistered at the end |
| AgentStream.Server.Delete | internal/agentstream/server.go:359-372 | offline agent: the row goes at once; connected: the row stays and one DeleteEnv is sent; unknown env: nothing |
| AgentProtocol.UuidGroups | internal/envlifecycle/dispatcher.go:61-65 | an id is five groups of 8, 4, 4, 4 and 12 hexadecimal digits with hyphens between |
| EnvInvariant.OwnStepKeeps | internal/envlifecycle/dispatcher.go:60-342 | every single step of an env's handler keeps that env's invariant over containers, grant, queued messages and row |
| AgentSystem.StepTouches | internal/envlifecycle/dispatcher.go:60-342 | a step touches only its own env's two containers and grant, and sends at most one message, about that env |
| AgentSystem.StepKeepsInv | internal/flexctlagent/agent.go:195-205 | a step of any handler keeps the invariant of every env |
| AgentSystem.BeginKeepsInv | internal/flexctlagent/agent.go:195-205 | spawning a handler keeps the invariant, also for an env whose row is gone |
| AgentSystem.DeliverKeepsInv | internal/agentstream/server.go:142-222 | receiving a message keeps the invariant and does not change what the table will be |
| AgentSystem.EventKeepsInv | internal/flexctlagent/agent.go:184-208 | every event of the system keeps the invariant |
| SystemTheorems.RunKeepsInv | internal/flexctlagent/agent.go:184-208 | the invariant holds after every run, any interleaving, any failures |
| SystemTheorems.NoSharedGpu | internal/envlifecycle/allocator.go:33-64 | after every run two running dev containers share no GPU, unless one outlived a failed halt |
| SystemTheorems.NoSharedGpuWithoutFailedHalts | internal/envlifecycle/allocator.go:33-64 | without failed halts, no GPU is ever attached to two running dev containers |
| SystemTheorems.FaultsNeedFailedHalts | internal/envlifecycle/dispatcher.go:192-197 | only a failed stop or remove of a running dev container, in Stop or Delete, makes an exception |
| SystemTheorems.NoLeakedGrant | internal/envlifecycle/dispatcher.go:60-342 | a grant without a handler in flight belongs to a running dev container with exactly these GPUs |
| SystemTheorems.Drain | internal/agentstream/server.go:142-222 | from any state, delivering the queue is possible and turns the rows into the replayed table, touching nothing else |
| SystemTheorems.RunningRowsAreReal | internal/agentstream/server.go:159-199 | after every run, over any number of stops and starts, a running row not being stopped has both containers running, and its indices are the attached ones, the granted ones, and as many as the env asked for |
| SystemTheorems.RunningRowsDisjoint | internal/envs/service.go:176-234 | running rows of the node have disjoint indices, apart from envs between Release and Send; rows not running have none |
| SystemTheorems.OtherNodesUntouched | internal/agentstream/server.go:201-217 | no run of one agent's connection changes a row of another node |
| Reconnect.BuildEnvStateSnapshot | internal/envlifecycle/dispatcher.go:346-363 | reports exactly the env ids of running dev containers |
| Reconnect.ResyncFlagsExactly | internal/agentstream/server.go:201-217 | the resync puts in error exactly the node's running rows without a running dev container and changes no other row |
| Reconnect.ResyncAgreesIff | internal/agentstream/server.go:201-217 | after it every running row of the node is backed and unchanged; the indices of running rows are right iff those of backed rows were right before, for it repairs none |
| Reconnect.ResyncMissesStaleIndices | internal/envlifecycle/dispatcher.go:346-363 | a concrete row that stays wrong across the resync |
| Reconnect.ConnectEstablishesInv | internal/flexctlagent/agent.go:148-160 | snapshot first, from out-of-date rows, establishes the invariant of the connection |
| Reconnect.FreshNodeCanConnect | internal/flexctlcli/agent.go:46-50 | a node without containers and rows meets the precondition |
| Reconnect.ReconnectFlagsNothing | internal/flexctlagent/agent.go:148-160 | when a connection ended with nothing in flight the next one may begin, and its resync changes no row |
| Reconnect.RunKeepsSnapshotFirst | internal/flexctlagent/agent.go:148-208 | in every run the snapshot stays the only one and ahead of every report |
| Reconnect.TableShowsLastWord | internal/agentstream/server.go:159-199 | in every run of a connection the row of an env, inserted before or during it, says what the last message about the env says: running as reported, stopped, in error with stage and detail, or gone |
| Reconnect.ReadyIsNeverFlagged | internal/flexctlagent/agent.go:148-208 | in every run of a connection, while EnvReady is the last message about an env its row, inserted before or during the connection, runs with the reported indices and containers |
| Restarts.RestartRebuildsSidecar | internal/envlifecycle/dispatcher.go:247-259 | Start builds from labels the sidecar that Create would build with the new key |
| Restarts.RestartRebuildsDevIff | internal/envlifecycle/dispatcher.go:291-300 | Start builds the dev container that Create would build now iff there was no default command and the GPUs are those of the Create |
| Restarts.LabelGoesStale | internal/envlifecycle/dispatcher.go:286-300 | after a restart the label lists the GPUs of the Create, and the attached ones iff the same were picked |
| Restarts.RestoreAgreesIff | internal/envlifecycle/allocator.go:68-92 | with no handler in flight a restored allocator holds for every env what the live one holds iff every dev container whose label lists GPUs runs, has just these attached, and did not outlive a failed halt |
| Restarts.RestoredMapIff | internal/envlifecycle/allocator.go:68-92 | if every dev container's label lists GPUs the two maps are equal under the same condition |
| Restarts.SameHeldPicksSame | internal/envlifecycle/allocator.go:40-57 | allocators that hold the same for every env answer every Allocate the same, with or without empty entries |
| Restarts.StopBreaksRestore | internal/envlifecycle/allocator.go:68-92 | Create, Stop, restore on a node with one GPU: the restored allocator still holds it and refuses the next request, which the live one grants |
| Restarts.RestoreAgreesAfterCreatesAndDeletes | internal/envlifecycle/allocator.go:68-92 | after every interleaved history of creates, failed ones included, and deletes it does, and the next Allocate answers the same |
| Restarts.FailedStopSharesGpu | internal/envlifecycle/dispatcher.go:192-198 | a concrete run: a failed stop, then a Create, and two running containers share GPU 0 |
| SshConfig.AppendBlock | internal/flexctlcli/sshconfig.go:89-100 | the buffer ends up as the text, a newline if missing, an empty line, the block |
| SshConfig.ReplaceBlock | internal/flexctlcli/sshconfig.go:102-128 | the buffer ends up as the specified splice, unchanged text without a closed block included |
| SshConfig.Disk.UpsertSSHConfig | internal/flexctlcli/sshconfig.go:40-66 | the file becomes the upserted text; a backup is written exactly for a non-empty file without a block; no other file changes |
| SshConfig.Disk.RemoveSSHConfigBlock | internal/flexctlcli/sshconfig.go:70-87 | a file with a block is backed up and rewritten; otherwise nothing changes |
| SshConfigLaws.FirstEnd | internal/flexctlcli/sshconfig.go:22-35 | in a rendered block, whatever follows, the first end marker is the closing one iff no field contains the marker |
| SshConfigLaws.BlockSays | internal/flexctlcli/sshconfig.go:22-35 | the eleven lines of a block, in order, with binary and known hosts in their places, for fields without a newline |
| SshConfigLaws.BlocksEqualIff | internal/flexctlcli/sshconfig.go:22-35 | blocks with such fields are equal iff both fields are |
| SshConfigLaws.UpsertKeepsOutside | internal/flexctlcli/sshconfig.go:102-128 | text before the block is kept, text behind it up to trailing blanks, and the first begin marker stays where it was |
| SshConfigLaws.UpsertedBlockSays | internal/flexctlcli/sshconfig.go:40-66 | in the file after an upsert the text from the first begin marker to past the first end marker has exactly the lines of the block written |
| SshConfigLaws.UnclosedStays | internal/flexctlcli/sshconfig.go:107-110 | a file whose begin marker is never closed is left alone by both edits |
| Text.TrimRightBlanksIs | internal/flexctlcli/sshconfig.go:127 | trimming takes away spaces and tabs at the end, and all of them |
| SshConfigLaws.LastWriteWinsIff | internal/flexctlcli/sshconfig.go:40-66 | writing b1 then b2 equals writing b2, for every file and all blocks, iff b1's fields do not contain the end marker or the file's block is never closed |
| SshConfigLaws.RemoveUndoesUpsertIff | internal/flexctlcli/sshconfig.go:70-128 | on a file without a begin marker removal gives the file back iff the fields are clean and it was empty or ended in a newline; else a clean block costs one newline more |
| SshConfigLaws.RemoveAfterRewriteIff | internal/flexctlcli/sshconfig.go:102-128 | on a file with a closed block, rewriting first changes a removal's result iff only blanks follow the block and a newline precedes it |
| Backoff.Run | internal/flexctlagent/agent.go:86-110 | the loop's waits are the jittered backoffs of the specification, for every sequence of outcomes |
| Backoff.ClosedFormIff | internal/flexctlagent/agent.go:226-232 | in every round of every run the backoff is min(initial * 2^k, max), k the consecutive errors just before, iff both bounds are below 2^62 |
| Backoff.DefaultsFollowClosedForm | internal/flexctlagent/agent.go:71-82 | the defaults, 1 s and 60 s, follow it |
| Backoff.NewIs | internal/flexctlagent/agent.go:71-82 | 30 s, 1 s and 60 s for what is 0, nothing else changed |
| Backoff.JitterIff | internal/flexctlagent/agent.go:234-242 | for d >= 4 every wait lies in [d - d/4, d + d/4) iff that interval fits in 64 bits, and then every value in it can occur |
| Backoff.ShortWaitsAreExact | internal/flexctlagent/agent.go:234-239 | below 4 ns, zero and negative durations included, there is no jitter |
| Backoff.EveryWaitIsNearTheBackoff | internal/flexctlagent/agent.go:86-110 | every wait of a run is within a quarter of the capped backoff |
| Acl.GenerateACL | internal/headscale/acl.go:34-66 | a policy iff every slug is valid, else the error names the first invalid one; the loop fills owners and rules as specified |
| Acl.SamePolicyIff | internal/headscale/acl.go:40-60 | two lists give the same policy iff they are permutations of each other |
| Acl.IsolatingIff | internal/headscale/acl.go:51-59 | a source reaches a port of a destination iff for one listed x they are tag:device-x and tag:env-x and the port is 22 |
| Acl.UsersAreIsolated | internal/headscale/acl.go:54-58 | tag:device-x reaches tag:env-y on port 22 iff x == y and x is listed |
| Acl.DevicesAreOutOfReach | internal/headscale/acl.go:54-58 | nothing reaches a device tag on any port, and an env tag reaches nothing |
| Acl.OwnersAre | internal/headscale/acl.go:52-53 | the owned tags are exactly tag:device-s and tag:env-s of the listed s, owned by control-plane |
| Acl.RulesAre | internal/headscale/acl.go:40-58 | one accept rule from tag:device-s to tag:env-s:22 a listed slug, in ascending order |
| Acl.StringLeIs | internal/headscale/acl.go:41 | the order is the lexicographic one: a prefix, or smaller at the first difference |
| Acl.OwnedIffUsed | internal/headscale/acl.go:51-59 | a tag has an owner, the control plane, iff some rule of the policy names it as a source or, with some port, as a destination |
| Sorting.SortCanonical | internal/headscale/acl.go:40-41 | the sorted form depends only on which elements a list has |
| PolicySync.UserService.Signup | internal/users/service.go:47-83 | the result as a function of request, table and failing calls: the checks in order, each error with its cause; an inserted row has the address and the trimmed, lower-cased slug |
| PolicySync.UserService.HardDelete | internal/users/service.go:130-139 | removes the row, or reports that there was none, or fails without effect |
| PolicySync.Policy.AllSlugs | internal/policy/policy.go:94-110 | the loop lists each user's slug once, in any order |
| PolicySync.Policy.Refresh | internal/policy/policy.go:46-66 | succeeds iff both calls work and all slugs are valid; then the pushed policy is the one for exactly the table's slugs, the placeholder if there are none; otherwise nothing is pushed |
| PolicySync.Policy.Initialize | internal/policy/policy.go:70-76 | the user control-plane exists afterwards unless that call fails; then a refresh; succeeds iff all calls work |
| PolicySync.Policy.OnUserCreated | internal/policy/policy.go:83-92 | the Headscale user of the slug exists afterwards unless that call fails, and no user is lost; then a refresh; succeeds iff all calls work |
| PolicySync.Handlers.Signup | internal/users/handlers.go:149-199 | status and error text, and what happened to the row, the policy and the Headscale users, as a function of request, table and failing calls; a failed hook is rolled back, or strands the row if the rollback fails |
| PolicySync.AnyListing | internal/policy/policy.go:94-110 | whether the policy is in sync does not depend on the order in which the database lists the slugs |
| PolicySync.PolicyForOneSet | internal/policy/policy.go:52-60 | a policy, the placeholder included, is the right one for at most one set of slugs |
| PolicySync.InSyncIsolates | internal/headscale/acl.go:51-59 | while in sync, a device of x reaches an env of y iff x == y is a registered user; with no users, nobody reaches anything |
| PolicySync.InSyncIff | internal/users/handlers.go:185-192 | after every run of signups from a start-up, the pushed policy is in sync with the table iff no signup was stranded since the last successful push |
| PolicySync.RollbacksKeepSync | internal/users/handlers.go:185-192 | if rollbacks succeed it is in sync after every request |
| PolicySync.RegisteredAreKnown | internal/policy/policy.go:83-87 | over every run Headscale knows each user that registered, and control-plane once initialized |
| PolicySync.PlaceholderIs | internal/policy/policy.go:35-42 | the placeholder policy, in full |
| PolicySync.LowerRuneIs | internal/users/service.go:54 | which characters lower-casing changes, as far as slugs can tell |
| ClientConfigFile.ReadClientConfig | internal/flexctlcli/clientconfig.go:36-76 | the loop assigns exactly the settings of the lines, the last one of a key winning |
| ClientConfigFile.UnquoteOfQuote | internal/flexctlcli/clientconfig.go:25-56 | unquoting undoes quoting for all ASCII text |
| ClientConfigFile.ReadOfPrinted | internal/flexctlcli/clientconfig.go:21-76 | reading a written file gives the configuration back, for all ASCII values |
| ClientConfigFile.PrintedIs | internal/flexctlcli/clientconfig.go:25-32 | the six lines of the file, each key with the quoted value of its own field |
| ClientConfigFile.EscapesAre | internal/flexctlcli/clientconfig.go:25-32 | how %q writes quotes, backslashes and the usual control characters |
| ClientConfigFile.SettingIs | internal/flexctlcli/clientconfig.go:46-59 | a line key = value sets that key to the unquoted value |
| ClientConfigFile.NoSetting | internal/flexctlcli/clientconfig.go:46-53 | blank lines, comments and lines without "=" set nothing |
| ClientConfigFile.OtherLinesAreIgnored | internal/flexctlcli/clientconfig.go:47-59 | a line that sets no field may be inserted anywhere without effect |

## Left out

- Environment ids: only the canonical lower-case form of a UUID, the one the control plane sends, is accepted; the library also accepts braces, `urn:uuid:`, bare hexadecimal and upper case.
- EnvDispatcher.Dispatcher.HandleCreate: refuses the other forms of a UUID.
- EnvDispatcher.Dispatcher.HandleStop: refuses the other forms of a UUID.
- EnvDispatcher.Dispatcher.HandleStart: refuses the other forms of a UUID.
- EnvDispatcher.Dispatcher.HandleDelete: refuses the other forms of a UUID.
- AgentStream.Server.Receive: drops messages with the other forms of a UUID.
- GpuAllocator.GPUAllocator.RestoreFromDocker: skips labels with the other forms of a UUID.
- Reconnect.ResyncAgreesIff: the resync compares ids only, so the condition on indices is theirs from before; nothing in the snapshot could settle it.
- Docker: the semantics are those of the in-memory mock (a container's id is its name, creating over an existing name replaces it, a failed call has no effect); the real client, image pulls, port and device plumbing are not part of this model.
- The grace periods of stops and the force flag of removals, which the mock ignores too.
- Headscale's own rules for user names: creating a user fails as a whole or leaves the user there; the client's reading of every status 400 as an existing user is not part of this model.
- Containers that stop by themselves, and volumes beyond their removal by Delete.
- Two handlers of one environment at the same time; overlapping sessions of one node in the stream registry.
- A handler still running when its connection breaks: its message goes to a dead stream, so agreement of the table is per connection, and `ReconnectFlagsNothing` asks that nothing is in flight.
- Failing table updates: the receive loop only logs them, so the agreement theorems need them to work.
- The control plane's side of Create, Stop and Start (lookups, pre-auth keys, the deletion of a row whose command could not be sent): the system begins where a command reaches the agent.
- `MarkStatus`, which nothing calls.
- GPU counts below 0: the HTTP handler refuses them and `Allocate` would panic.
- The texts of UUID parse errors, durations and context errors, which are arbitrary here.
- Label maps are records with the labels the handlers use; a missing label is the empty text, as a lookup in the source gives it.
- Backoff bounds that are negative durations; `New` replaces only 0.
- Heartbeats as a timer, registration of the GPU inventory, authentication of nodes and users, sessions, pairing, SSH keys and devices.
- The JSON text of a policy: the policy is the value that is marshalled.
- Concurrent signups, which may read the users between each other's insert and push.
- Email parsing and password hashing, which are inputs; slugs are lower-cased rune by rune, and runes above ASCII only as far as validity can tell.
- File errors, permissions and directories of the three files; timestamps of backups are inputs.
- ClientConfigFile.UnquoteOfQuote: for values above ASCII %q keeps printable runes, which depends on Unicode tables; quoted forms outside the modelled subset are an arbitrary function in `Unquote`.
- ClientConfigFile.ReadOfPrinted: does not model the line scanner's limit of 64 KB.
- Handlers for HTTP, the command line, tsnet, the sidecar program and GPU detection.

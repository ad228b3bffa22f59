# docker-volume-backup, modelled in Dafny

This project models the backup run of docker-volume-backup. The run works in
three phases:

- It connects to the Docker daemon.
- It inspects every named container. From each mount table it keeps the
  destinations of the named volumes of the `local` driver. It builds a target
  table that maps each container name to its destination list, and it reports
  how many volumes it found.
- It then visits the containers in input order. For each one it pulls the
  `alpine` image and creates a helper container. The helper binds the working
  directory at `/docker-volume-backup` and takes its volumes from the target
  container. The run starts the helper, runs `echo Hello World` in it once per
  target, then stops and removes it.

Any call that throws ends the whole run in its single `catch`. No later call is
made and nothing is cleaned up. The model also covers `ToStringStream`. That
writable stream keeps every chunk written to it, reads back as the decoding of
their concatenation, and is empty when nothing was written or the text trims
to nothing.

Modules:

- `Mounts` (mounts.dfy): the mount filter of `getMountsFromContainer`.
- `Targets` (targets.dfy):
  - the target table built by `zipWith` and `assign`;
  - the volume count, lodash `sum` over the table's values.
- `Runtime` (runtime.dfy): the Docker client as a class `DockerRuntime`.
  - It keeps a log of the calls that returned, a call counter, and the id the
    next created container gets.
  - An environment `Env` says which calls throw. The call with index `j` throws
    when `j` is one of the faults. An inspection of a container the daemon does
    not know always throws.
  - `Ran(env, start, planned, done, ok)` states that `done` is the longest
    prefix of `planned` whose calls all return.
- `Backup` (backup.dfy):
  - `Plan` lists the calls of a run in which nothing throws.
  - The run itself, as methods with loops, mirrors `dockerVolumeBackup`,
    `prepareContainer`, `test` and `closeContainer`.
  - Each method is proved to leave exactly the part of its plan that `Ran`
    allows.
- `Stream` (stream.dfy):
  - the class `ToStringStream`;
  - the `\s` whitespace class of JavaScript regular expressions;
  - lodash `trim`.

This version of `dockerVolumeBackup` does not stop or restart the target
container, run `tar`, classify exit codes, isolate per-container failures,
clean up helpers after a throw, or restore. `StoppedRoundLeavesHelper` states
the consequence of the missing cleanup: a throw after the helper was created
leaves it behind.

## Model

| member | source | states |
|---|---|---|
| Mounts.MountsFromContainer | src/index.ts:61 | the destinations kept are never more than the mounts inspected |
| Mounts.MountsFromContainerSelects | src/index.ts:61 | the result is the destinations, in inspection order, of a strictly increasing list of positions; that list holds every mount of type `volume` and driver `local` and no other mount |
| Mounts.MountsFromContainerAppend | src/index.ts:61 | filtering a concatenated mount table filters each part, in order |
| Mounts.AllLocalVolumesKept | src/index.ts:61 | a table of local named volumes only keeps every destination, in order |
| Mounts.NoLocalVolumeNothingKept | src/index.ts:61 | a table with no local named volume (bind mounts, other drivers) yields no destination |
| Targets.TargetsTable | src/index.ts:40 | the table's keys are exactly the container names |
| Targets.LaterEntryWins | src/index.ts:40 | each name is bound to the destination list at its last position; an earlier entry of a repeated name is overridden |
| Targets.DistinctNamesPairedByIndex | src/index.ts:40 | without repeated names every name is bound to its own list, paired by index |
| Targets.TotalLength | src/index.ts:41 | the volume count is at least the length of every list in the table, and zero exactly when every list is empty |
| Targets.TotalLengthRemove | src/index.ts:41 | the sum of the list lengths does not depend on the order in which the table's entries are visited |
| Targets.TotalLengthAdd | src/index.ts:41 | adding a list under a new name adds its length to the sum |
| Targets.CountVolumes | src/index.ts:41 | the reported count is the sum of the lengths of all lists in the table |
| Targets.DistinctNamesCountAll | src/index.ts:40-41 | without repeated names the reported count is the total number of destinations discovered |
| Targets.RepeatedNameCountedOnce | src/index.ts:40-41 | two containers of the same name with one volume each report one volume, while the lists discovered hold two |
| Runtime.DockerRuntime.constructor | src/index.ts:30 | a new client has made no call, logged nothing and created no container |
| Runtime.DockerRuntime.Call | src/index.ts:31 | a call returns and is appended to the log exactly when the environment does not make it throw; every call, thrown or not, is counted |
| Runtime.DockerRuntime.InspectContainer | src/index.ts:59-60 | an inspection returns the mount table the daemon holds for the name, and throws for a name the daemon does not know |
| Runtime.DockerRuntime.CreateContainer | src/index.ts:68-75 | a created container gets the next id and is logged with its image, binds, volumes-from list and stdin flag; a failed creation creates nothing |
| Backup.PrepareEvents | src/index.ts:64-79 | `prepareContainer` plans three calls; the second creates the helper with the given id and the volumes of the target container, and the third starts that same helper |
| Backup.ContainerEvents | src/index.ts:45-51 | a round plans five calls besides its execs; the helper is created second, and stopping and removing it are the last two calls |
| Backup.ExecEvents | src/index.ts:47-49 | the execs of one round are one per target, each the test command in the round's helper |
| Backup.InspectEvents | src/index.ts:34-39 | discovery plans one inspection per container |
| Backup.DiscoveryEvents | src/index.ts:30-39 | discovery is the ping followed by one call per container |
| Backup.DiscoveryInOrder | src/index.ts:34-39 | after the ping, the containers are inspected in input order |
| Backup.Discovered | src/index.ts:34-39 | discovery yields one destination list per container |
| Backup.DiscoveredAt | src/index.ts:34-39 | position `i` of the discovered lists holds the local volumes the daemon reports for the container named at position `i` |
| Backup.Plan | src/index.ts:27-52 | a run that nothing interrupts begins with discovery |
| Backup.PlanLength | src/index.ts:30-52 | besides its execs, a run that nothing interrupts makes one ping and six calls per container: its inspection, and pull, create, start, stop and remove of its helper |
| Backup.BackupLength | src/index.ts:45-51 | besides its execs, the backup loop makes five calls per container |
| Backup.RunTargets | src/index.ts:40 | every named container has an entry in the table the run builds |
| Backup.PrepareContainer | src/index.ts:64-79 | pull, create (binding the working directory at the fixed mount point, volumes from the target, stdin open), start, stopping at the first throw with no later call issued; the helper returned is the container just created, and the id counter advances exactly when the create returned |
| Backup.Test | src/index.ts:81-87 | one exec of `echo Hello World` in the helper, returned or thrown; no container is created |
| Backup.CloseContainer | src/index.ts:89-94 | stop, then remove; when the stop threw, the remove is not issued (one call issued, none logged) |
| Backup.InspectReturned | src/index.ts:34-39 | an inspection that returned extends the returned inspections and the destination lists by that container's |
| Backup.DiscoveredAll | src/index.ts:34-39 | when every inspection returned, discovery ran in full |
| Backup.GetAllMounts | src/index.ts:34-39 | every container inspected in order until one throws, with no inspection issued after it; when none throws, the destination lists of all containers by position |
| Backup.BackupContainer | src/index.ts:45-51 | one round: prepare, one test per target, close, stopping at the first throw with no later call issued; the id counter advances exactly when the helper's create returned |
| Backup.RoundDone | src/index.ts:45-53 | after a round the loop either goes on with the round completed or stops inside it for good |
| Backup.BackupContainers | src/index.ts:45-53 | the rounds of all containers in input order, stopping at the first throw, no later call made |
| Backup.Discover | src/index.ts:30-39 | ping, then the inspections, stopping at the first throw with no later call issued; no container is created |
| Backup.DiscoveryThrows | src/index.ts:28-39 | a throw during discovery ends the run's plan there |
| Backup.DiscoveryReturns | src/index.ts:34-52 | a discovery that returned in full is followed by the backup loop over the table it built |
| Backup.DockerVolumeBackup | src/index.ts:27-57 | the calls that returned are the longest prefix of the plan whose calls return; the run completes exactly when no call throws, and an aborted run issued no call after the one that threw; the volume count is reported exactly when discovery returned in full, and it is the sum of the list lengths of the discovered table |
| Backup.ContainersInInputOrder | src/index.ts:45-52 | container `k`'s round begins exactly after the rounds of containers `0..k-1`, and with them begins the loop: rounds in input order, none interleaved |
| Backup.BackupEventsPrefix | src/index.ts:45-52 | the loop over the first containers begins the loop over all of them |
| Backup.ContainerExecs | src/index.ts:46-50 | a round makes exactly as many execs as its container has targets |
| Backup.VolumesPerContainer | src/index.ts:47 | each visited container is backed up with its own entry of the table |
| Backup.BackupExecs | src/index.ts:45-49 | the loop makes one exec per target of every container it visits, a repeated name once per occurrence |
| Backup.DistinctNamesOneExecPerVolume | src/index.ts:41-49 | without repeated names, a run that nothing interrupts makes exactly as many execs as the volume count it reports |
| Backup.StoppedRoundLeavesHelper | src/index.ts:45-56 | a round that stopped at a throw never removes its helper; once the create returned, the helper exists; it was stopped only when the call that threw was its removal |
| Backup.CompletedLoopRemovesEveryHelper | src/index.ts:45-52 | a completed loop stopped and removed the helper of every container |
| Backup.NoVolumesStillCycled | src/index.ts:45-52 | a container without local volumes still has its helper pulled, created, started, stopped and removed |
| Stream.Concat | src/stream.ts:14 | concatenating no chunks gives no bytes |
| Stream.ConcatAppend | src/stream.ts:14 | concatenation distributes over splitting the chunk list |
| Stream.ConcatHoldsChunk | src/stream.ts:14 | every byte of every chunk sits in the concatenation at its chunk's offset |
| Stream.ConcatFindByte | src/stream.ts:14 | every byte of the concatenation comes from some chunk |
| Stream.TrimEnd | src/stream.ts:14 | the result is a prefix, what was cut is all whitespace, and the result is empty or does not end in whitespace |
| Stream.TrimStart | src/stream.ts:14 | the result is a suffix, what was cut is all whitespace, and the result is empty or does not start with whitespace |
| Stream.Trim | src/stream.ts:14 | `trim` never lengthens the text, leaves text that neither starts nor ends with whitespace, and leaves nothing exactly when the text is all whitespace |
| Stream.ConcatSplit | src/stream.ts:14 | the concatenation of the chunks splits at any chunk boundary into the concatenations of the two parts |
| Stream.ToStringStream.constructor | src/stream.ts:6 | a new stream holds no chunks and is empty |
| Stream.ToStringStream.Write | src/stream.ts:8-11 | the chunk is appended, the callback gets no error, and the text becomes the decoding of everything written before followed by the chunk |
| Stream.ToStringStream.ToString | src/stream.ts:17-19 | the text is the decoding of the whole concatenation: the bytes written before any chunk boundary followed by those written after it, decoded together; with nothing written, the decoding of no bytes |
| Stream.ToStringStream.IsEmpty | src/stream.ts:13-15 | empty exactly when no chunk was written or the text is all whitespace; it only reads the stream, so the chunks stay as they are |
| Stream.AsciiBlankIffWhitespaceBytes | src/stream.ts:14 | ASCII text is all whitespace exactly when its bytes are all ASCII whitespace |
| Stream.ChunksWhitespaceIffConcat | src/stream.ts:14 | every byte of every chunk is whitespace exactly when every byte of their concatenation is |
| Stream.ToStringStream.EmptyIffWhitespaceBytes | src/stream.ts:13-19 | with a decoder that reads ASCII as ASCII and only ASCII written, empty exactly when every byte written is ASCII whitespace |

## Left out

- The Docker client, the network and the daemon are not modelled. Each call is an `Event`, and the environment `Env` decides whether it throws.
- `docker.getContainer(name)` makes no call and is not modelled.
- Option parsing (`dockerOptions`) and the call at src/index.ts:96 are left out.
- Backup.GetAllMounts: `Promise.all` issues all inspections concurrently; the model issues them one after the other and stops at the first that throws. The run still fails as a whole in both cases, but the model does not capture inspections after the failing one.
- Backup.Test: the exec's creation and its start (src/index.ts:83-84) are one `Exec` event.
- Backup.Test: demultiplexing the output onto the process's stdout and stderr, and the wait for the stream's `end` event (src/index.ts:85-86), are I/O and are not modelled. A stream that never ends would hang the run; the model does not capture this.
- Backup.PrepareContainer: `docker.pull` resolves once the pull request is answered, not when the image is downloaded; the model has one `Pull` event.
- Backup.PrepareContainer: `path.resolve('.')` is the parameter `cwd`.
- Runtime.DockerRuntime.CreateContainer: the daemon's container ids are hexadecimal strings; the model numbers helpers in creation order.
- The spinner (`ora`), `console.log(util.inspect(targets))`, `progress.fail()` and `console.error` are output only. The `Aborted` outcome stands for the `catch` branch.
- `WrappedStdoutStream` (src/stream.ts:22-38) writes to the terminal around a spinner and is not modelled.
- Stream.ToStringStream.IsEmpty: UTF-8 decoding is a parameter of the stream, its decoder. Only `EmptyIffWhitespaceBytes` assumes anything of it, namely that ASCII bytes read as the same characters.
- Stream.Trim: JavaScript strings are UTF-16 while Dafny characters are Unicode scalar values. Every whitespace character of the `\s` class lies in the Basic Multilingual Plane, so trimming agrees on any decoded text.
- Stream.ToStringStream.Write: the model keeps each chunk as a value, a copy. Node passes the writer's `Buffer` itself and the stream stores that reference (src/stream.ts:9). Aliasing, and a later change to that buffer showing up in the text, are not captured.
- `_write`'s `encoding` argument is ignored by the source and is not modelled.

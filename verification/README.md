# fluentd-pilot pairing reconciler, modelled in Dafny

The pilot is a sidecar that writes fluentd configuration files under
`/etc/fluentd/conf.d`, one per paired workload container whose
infrastructure container carries a non-empty topic. It distinguishes two
kinds of container. An infrastructure container (entrypoint `/pause`) carries the
`logtopic` label. Any other container, the workload, carries the container
id and the runtime's log path. The code pairs the two by container name in a
process-wide table, `containerLogs`. When the pair is complete and the
topic is not empty, it renders the fluentd template with the log path and the
topic. The result goes to `/etc/fluentd/conf.d/<id>.conf`. A "destroy" event
removes that file. At startup the pilot removes the regular files directly
inside the directory, leaving other entries in place. It then feeds the
listed containers through the same pairing logic in order, skipping those
being removed, and stops at the first container it cannot inspect.

The model is a functional state machine. The state is the pending table
(`map<string, LogInfo>`, with `""` standing for a field not yet contributed,
as with Go's zero values) plus an abstract file system (`map` from path to
`Regular(content)`, `Directory` or `Special`). The runtime's answers come in
as plain values: the container list, a map from id to inspected container,
and events. The parsed template is a parameter of type
`map<string, string> -> Rendered`, and executing it may fail.

Files:
- `filesystem.dfy` (`FileSystem`): paths, `Parent`, and the write, remove and
  directory-membership operations with their failure cases.
- `docker.dfy` (`Docker`): inspected containers, list entries, listing
  results and events.
- `pilot.dfy` (`Pilot`): `newContainer`, `newContainerLog`, `render`,
  `pathOf`, `delContainer`, `exists`, `processEvent`, `cleanConfigs` and
  `processAllContainers`, plus the label scan.
- `pairing.dfy`, `events.dfy`, `bootstrap.dfy`: properties relating several
  calls.

Behaviour of pilot/pilot.go that the model keeps as written:
- A `/pause` container that finds a pending record completes it without
  checking that a workload contributed it (pilot/pilot.go:173-177). So two
  pause containers under one name, the second carrying a topic, write a
  record with an empty id and an empty log path to
  `/etc/fluentd/conf.d/.conf` (`Pairing.DoublePauseWritesEmptyId`).
- `newContainer` discards `newContainerLog`'s error (pilot/pilot.go:176,
  187), and `processEvent` discards `delContainer`'s (pilot/pilot.go:242).
- A failed inspection ends the startup pass with an error, but the table
  changes and writes made for earlier containers stay
  (pilot/pilot.go:145-155, `Bootstrap.PassFailsFast`).
- A pending record met a second time under its name is deleted whatever its
  contents. For example, a workload container seen twice with no pause
  container in between is dropped (pilot/pilot.go:183-190,
  `Pairing.WorkloadTwiceIsDropped`).

The event actions are compared as the code writes them: "running" and
"destroy". The model takes action strings as given and does not check which
ones the runtime actually sends.

## Model

| member | source | states |
|---|---|---|
| `Pilot.ScanTopic` | pilot/pilot.go:166-172 | the topic is the value of the `logtopic` label when that key is present, and "" otherwise |
| `Pilot.NewContainer` | pilot/pilot.go:160-194 | a container that is not "running" changes nothing; for a running one, a name with a pending record loses it, a name without one gains exactly one, holding that container's contribution (topic only, or id and log path only), and no file changes; every other name's record is untouched |
| `Pairing.NewContainerTouchesOnePath` | pilot/pilot.go:160-194 | feeding one container changes at most one file: the file of the id of the record the pairing completes |
| `Pairing.PairInEitherOrder` | pilot/pilot.go:173-192 | for a name with no pending record, pause-then-workload and workload-then-pause end in the same state; the table is as before, and the record {workload id, log path, topic} is materialised exactly when the topic is non-empty |
| `Pairing.PairWritesOneFile` | pilot/pilot.go:183-190 | when that pairing's write succeeds, exactly the workload's file is added or replaced, and it holds the rendered merged record; every other file is unchanged |
| `Pairing.EmptyTopicNeverWrites` | pilot/pilot.go:174-190 | a pause container with an empty or missing topic never writes, and neither does a workload container joining a record with an empty topic |
| `Pairing.DoublePauseWritesEmptyId` | pilot/pilot.go:173-177 | two pause containers under one name, the second with a topic, restore the table and write the record {"", "", topic} to `/etc/fluentd/conf.d/.conf` |
| `Pairing.WorkloadTwiceIsDropped` | pilot/pilot.go:183-192 | a workload container seen twice under one name leaves the table and files exactly as before |
| `Pilot.PathOf` | pilot/pilot.go:209-211 | a container's file starts with `/etc/fluentd/conf.d/`, is the id plus 25 characters long, and for an id without '/' is an entry directly inside the configuration directory |
| `Pairing.PathOfInjective` | pilot/pilot.go:209-211 | two ids have the same configuration file if and only if they are equal |
| `Pilot.NewContainerLog` | pilot/pilot.go:197-207 | a render failure reports an error and leaves the file system unchanged, and so does a failed write; success happens exactly when rendering and writing succeed, and then the container's file holds exactly the rendered text, whatever it held before; no other path changes |
| `Pairing.NewContainerLogIdempotent` | pilot/pilot.go:197-207 | writing the same record again yields the same outcome and the same file system |
| `Pilot.Render` | pilot/pilot.go:254-265 | the result is the template executed on the context whose keys are exactly "logPath" and "logTopic", bound to the record's log path and topic |
| `Pairing.RenderSeesOnlyPathAndTopic` | pilot/pilot.go:254-265 | only the log path and the topic reach the template: records that agree on them render identically |
| `FileSystem.LastSlash` | pilot/pilot.go:202 | the index found is a '/' and no '/' follows it, or there is none at all (used to find the directory the write needs) |
| `FileSystem.WriteFile` | pilot/pilot.go:202 | the write succeeds exactly when the parent is an existing directory and the path is absent or a regular file; it then sets the path to the data and leaves every other path unchanged |
| `FileSystem.Remove` | pilot/pilot.go:215 | removal succeeds exactly when the path exists, fails with "not exist" otherwise, and removes only that path |
| `Pilot.Exists` | pilot/pilot.go:247-252 | a container's file exists exactly when removing it would succeed |
| `Events.ExistsTracksWriteAndRemove` | pilot/pilot.go:247-252 | the existence test sees a container's file after a successful write of its record, and no longer sees it after a successful removal |
| `Pilot.DelContainer` | pilot/pilot.go:213-219 | removing a container's file succeeds exactly when the file exists; afterwards it no longer exists, no other path appears or disappears, and every other file keeps its content |
| `Pilot.ProcessEvent` | pilot/pilot.go:225-245 | "running" with the file on disk changes nothing; "running" for an id that cannot be inspected fails and changes nothing; otherwise "running" feeds the inspected container; "destroy" removes the file, returns no error and leaves the table alone; any other action is a no-op |
| `Events.DestroyWithoutFileIsQuiet` | pilot/pilot.go:241-243 | destroying a container without a file makes `delContainer` fail with "not exist", yet the event reports no error and changes nothing |
| `Events.DestroyTwice` | pilot/pilot.go:241-243 | a repeated destroy event is a no-op |
| `Events.RunningTwice` | pilot/pilot.go:229-234 | once a container's file is on disk, a repeated "running" event for it is a no-op |
| `Events.PairThenDestroy` | pilot/pilot.go:225-245 | running events for a pause container and then its workload write the workload's file and leave the table as it was; a destroy event for the workload then removes the file |
| `Pilot.CleanConfigs` | pilot/pilot.go:106-131 | cleaning fails exactly when the configuration directory is missing or not a directory; on success no regular file is left in it, every other entry (non-regular nodes and paths outside the directory) is kept with its content, and nothing is added |
| `Bootstrap.CleanConfigsIdempotent` | pilot/pilot.go:106-131 | clearing the configuration directory a second time changes nothing |
| `Pilot.ProcessAllContainers` | pilot/pilot.go:133-158 | a failed listing and a failed clean each return their error and change nothing; after a successful clean the pass feeds the listed containers starting from the cleaned file system, and it succeeds exactly when every listed container that is not "removing" can be inspected |
| `Bootstrap.PassFailsFast` | pilot/pilot.go:141-155 | when the pass fails after cleaning, the error names the first listed container not being removed that cannot be inspected, and the state is what the containers before it produced from the cleaned state |
| `Bootstrap.PassSkipsRemoving` | pilot/pilot.go:145-148 | inserting a "removing" container anywhere in the list does not change the startup pass's result |
| `Pilot.Feed` | pilot/pilot.go:145-155 | the loop succeeds exactly when every listed container that is not "removing" can be inspected, and otherwise reports an inspection failure for an id that cannot be inspected |
| `Bootstrap.FeedFailFast` | pilot/pilot.go:145-155 | when the loop fails, the error names the first listed container not being removed that cannot be inspected, every earlier such container can be inspected, and the state is what the containers before it produced |
| `Bootstrap.FeedSkipsRemoving` | pilot/pilot.go:146-148 | inserting a "removing" container anywhere in the list does not change the pass's result |
| `Bootstrap.FeedTableBound` | pilot/pilot.go:145-155 | the pass adds at most one pending record per listed container |
| `Bootstrap.FeedKeepsNonRegular` | pilot/pilot.go:145-155 | feeding containers never replaces or removes a node that is not a regular file |
| `Bootstrap.BootstrapLeavesOnlyKnownFiles` | pilot/pilot.go:133-158 | at startup (empty table), a pass that gets past listing and cleaning leaves in the directory only files of listed containers that are not "removing", inspect as running and are not `/pause` containers, or the file of the empty id; so no stale file survives, nor one of an exited or removed container; every non-regular node is kept |

## Left out

- The `watch` loop (pilot/pilot.go:54-85): the `select` over the event and
  error channels, resubscription on errors other than EOF, and the
  `reloadable` flag. These concern concurrent stream consumption. Single
  events are modelled by `ProcessEvent`.
- `New` and the Docker client (pilot/pilot.go:37-52, 221-223): template
  parsing, `client.NewEnvClient`, `ContainerList`, `ContainerInspect` and
  `Events`. Their results are inputs (`Listing`, `Inspector`, `Event`). A
  template that does not parse is not modelled, and inspection is a fixed map
  that cannot change between calls.
- `text/template` execution: the template is an arbitrary total function
  from context to text or failure.
- The unused `Source` and `LogConfig` structs (pilot/pilot.go:87-104), all
  logging, and `main.go` (flags, log level, reading the template file).
- File modes (0644), symbolic links, and `Stat` errors other than "not
  exist". The file system has no other failure modes. As a result, the
  per-entry `Stat` and `Remove` failures in `cleanConfigs`'s loop cannot
  happen in the model, and `exists` is plain membership.
- `FileSystem.Remove`: always succeeds on an existing path, including a
  non-empty directory, where `os.Remove` would fail. A container's file is
  only a directory if something else created it.
- `FileSystem.WriteFile`: a write to a `Special` node (device, FIFO, socket)
  is modelled as failing and leaving the node as it is. `ioutil.WriteFile`
  succeeds on a device, blocks on a FIFO and fails only on a socket. The only
  caller discards the error, and no file content changes in any of these
  cases, so the model does not distinguish them.
- `Pilot.CleanConfigs`: the model does not tell an `os.Open` failure apart
  from a `Readdirnames` failure. A missing directory reports "not exist" and
  a non-directory reports "not directory".

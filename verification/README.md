# A verified model of isula-transform

isula-transform turns running docker containers into iSulad containers. This project models the
parts of it where something can go subtly wrong, and proves what they do.

**Filtering and replaying the read-write layer** (`Paths`, `DiffSpec`, `DiffTries`, `RootFs`,
`ReplayMeaning`, `ReplayConverse`, `ReplayExamples`, `DeviceMapper`). The device mapper driver asks
docker how a container's filesystem differs from its image, puts the changes into a trie on the heap,
reads the trie breadth first, and replays what is left on a new root filesystem with `cp -ra` and
`RemoveAll`. The trie is a class whose nodes are shown to form an unshared tree; its contents are
characterised exactly for every change list, in any order and with duplicates. The source's comment says
that only leaves are dealt with. That is not so in general; the project states exactly for which lists it
is, and shows that docker's lists, which are closed under parents, are among them. The main theorem says when the
replay reproduces the container's filesystem: exactly when the parent of every surviving copied path is a
directory of the new rootfs and no entry changed its type. It is false otherwise: a new directory with
one new file in it becomes a file. A copy whose parent and grandparent are both missing, with nothing that
could take their place, makes the replay fail. Map iteration order does not matter when the parents are there,
and can matter when one is missing. The contract of `TransformRWLayer` states all conditions on what a caller
has in hand before the call: the change list, the mounts and the two filesystems.

**The saga and its rollback** (`Saga`, `SagaSafety`, `SagaTheorems`, `SagaExamples`, `Transformer`). One
`transform` acquires a bundle directory, a rootfs and a shm mount, registering an undo after each. A
watcher goroutine races it to run the undos when a signal comes. Both are one machine of atomic steps; the
theorems hold for every interleaving. `Transformer` is the same code as objects and straight-line methods,
run without a signal and proved to be one of the machine's interleavings. Its contract names the step that fails, from
the answers of the outside alone, and it carries the configuration files through a run: one that succeeds has written
files that agree, with docker's and with each other.
Two granularities are modelled: with the flag's load and store in `rollback.run` as one step (`fine` false),
and with load, store and reading the list's length as three (`fine` true). Undo calls are always separate steps.

**Claiming and collecting** (`Claims`, `FanOut`, `FanOutSafety`, `FanOutTheorems`, `FanOutRuns`). `Transform` starts one
worker per requested id; workers claim containers by prefix in a shared map, run their sagas with their watchers,
and report on one bounded channel that is closed behind two wait groups. The whole is one machine that
contains the saga's machine once per worker; every run in it is shown to be a run of the saga's machine on its own
steps, so that trace safety and all-or-nothing hold for `Transform` as a whole.

**When two workers want one container** (`Races`, `Rivals`, `RivalsExamples`). With the look and the store of `matchID`
apart, any number of calls can claim the same container. Their runs then share the outside world, and only the bundle
directory stands between them. The project shows which of them gets past it, that a run that is refused does no harm,
and exactly at which granularities at most one of them holds the directory.

**Rewriting configuration** (`Reconcile`, `ConfigMeaning`, `SpecMeaning`). `Reconcile` is the code: options, annotations,
network file paths, cgroup paths, namespaces, mounts and devices. The other two modules say, key by key and entry by entry
and without the functions of `Reconcile`, what ends up in config.v2.json and in the OCI spec.

`Lists` holds facts about lists without repetition, `Options` values that may be absent. `dafny verify dfyconfig.toml` checks the whole project.

Four places where the code and its description part, and the code is followed:

- The comment at `transform/docker/devicemapper.go:151-161` speaks of leaf nodes. The trie keeps a kind where exactly one
  change passes; see `DiffSpec.LeafRuleIff`, `DiffSpec.LeafRuleFails`.
- `rollback.run` looks at `closed`. No thread can be inside `run` while it is set; see
  `SagaTheorems.ClosedNeverDecides`.
- A container's cgroup parent directly below the root is not kept: `/ID` becomes the relative path `ID`; see
  `Reconcile.RootCgroup`.
- The required devices are meant to be allowed. An entry that names one of them and denies it is taken for the device
  itself, and nothing is added; see `Reconcile.MustDevicesAllowedIff`.

What is assumed of the outside: paths, not inodes, identify entries; `cp -ra` copies into an existing directory, replaces the
destination itself when its last component is missing, and fails when a directory would replace a file or a file a
directory; `RemoveAll` on the bundle directory fails while the shm is mounted in it; an external call that fails
changes nothing, except that a failing shm mount may have made its directory; without a bundle directory there is no
rootfs and no mount of that container. `PrepareBundleDir` is taken to see a directory that is there: on any error of
`os.Stat` other than a missing file the source would go on and accept an existing directory
(pkg/isulad/isulad.go:157-161), and `SagaTheorems.NoForeignDeletion` rests on that not happening. The machine does not
tie a write into the bundle directory to the directory still being there: a step may succeed after a watcher has
removed it, which allows more interleavings than the code. A directory's times are not part of its attributes, since
docker lists no directory for a changed time alone.

## Model

| member | source | states |
|---|---|---|
| Paths.CleanOfClean | pkg/isulad/isulad.go:180-183 | cleaning a path with one component more only depends on the cleaned path, for every string, relative or with dot components |
| Paths.CleanDots | pkg/isulad/isulad.go:180-183 | cleaning drops empty and dot components and a component followed by `..`, behind any path |
| Paths.RootUp | pkg/isulad/isulad.go:180-183 | nothing is above the root |
| Paths.CleanUp | pkg/isulad/isulad.go:180-183 | a relative path may lead upwards, and the empty path is the current directory |
| Paths.JoinNested | pkg/isulad/isulad.go:180-183 | joining in two steps is joining in one, for every list of elements |
| Paths.SplitOfJoin | transform/docker/devicemapper.go:56-57 | splitting a joined path gives its components back |
| Paths.JoinOfSplit | transform/docker/devicemapper.go:56-57 | joining the split parts of any string gives the string back |
| Paths.RenderItems | transform/docker/devicemapper.go:56-66 | a full path is reproduced exactly from the components the trie walks |
| Paths.JoinOne | transform/docker/devicemapper.go:65 | a node's path joined with a child key is the path of the child's components, for every slash-free key including the empty one and dots |
| DiffTries.DiffTrie.Insert | transform/docker/devicemapper.go:55-75 | the heap stays a tree, new nodes are fresh, and the kinds held change as one insertion does: new positions take the kind, met ones are ignored, all others keep theirs |
| DiffTries.DiffTrie.Descend | transform/docker/devicemapper.go:60-72 | one turn of the loop creates the missing child with the change's kind or ignores the existing one, and changes no other position |
| DiffTries.TreeGrows | transform/docker/devicemapper.go:61-68 | linking a new leaf keeps one node per position, each reached by its keys only and holding its parent's path joined with its key |
| DiffTries.DiffTrie.Unshared | transform/docker/devicemapper.go:35-43 | no node sits at two positions: the trie has no sharing and no cycle |
| DiffTries.DescendIsInsert | transform/docker/devicemapper.go:59-74 | walking down component by component has the effect of one insertion on all prefixes at once |
| DiffTries.DiffTrie.Filter | transform/docker/devicemapper.go:77-99 | the queue loop ends, visits every node exactly once with depths that never decrease, and emits exactly the kinds that are not ignored with their paths |
| DiffTries.DiffTrie.Enqueue | transform/docker/devicemapper.go:93-95 | whatever the map order, the queue grows by exactly the children of the node, each once |
| DiffTries.WalkOn | transform/docker/devicemapper.go:85-97 | one visit keeps: nothing seen twice, parents visited before, depths layered |
| DiffTries.Reached | transform/docker/devicemapper.go:85-98 | when the queue is empty every node has been visited |
| DiffTries.PathAt | transform/docker/devicemapper.go:63-67 | every node holds the path of the keys that lead to it |
| DiffSpec.BuildExact | transform/docker/devicemapper.go:55-75 | for any list: a position exists iff a change passes through it, and keeps a kind iff exactly one does, namely that one's |
| DiffSpec.EmitExact | transform/docker/devicemapper.go:77-99 | for canonical lists in any order, with duplicates: what is emitted is, once each, the paths with exactly one change at or below them, with that change's kind |
| DiffSpec.SurvivesByMultiset | transform/docker/devicemapper.go:162-172 | what survives depends only on the multiset of changes |
| DiffSpec.LeafRuleIff | transform/docker/devicemapper.go:151-161 | the commented rule, survivors are exactly the leaves, holds iff no leaf is listed twice and no change is alone below an unlisted directory |
| DiffSpec.LeafRuleFails | transform/docker/devicemapper.go:151-161 | a lone change below an unlisted directory makes that directory survive too; a change listed twice does not survive at all |
| DiffSpec.LeafRuleForParentClosed | transform/docker/devicemapper.go:151-161 | for lists without duplicates that are closed under parents the rule holds, and no survivor lies below another |
| DeviceMapper.ChangesFilter | transform/docker/devicemapper.go:162-172 | the returned changes are, each once, exactly the survivors of the changes that are not mount points |
| DeviceMapper.DropCount | transform/docker/devicemapper.go:166-170 | a mount point loses all its occurrences, every other change keeps its multiplicity |
| DeviceMapper.FilterOrderIrrelevant | transform/docker/devicemapper.go:162-172 | two runs on permuted lists, with the same mounts dropped from both, return the same changes with the same multiplicity |
| DeviceMapper.SurvivorsReplayAnyOrder | transform/docker/devicemapper.go:93-95 | with the parents of surviving copies in the base, any two orders of the survivors end alike: both with the same filesystem or both failing, and they go through iff each copy finds its source and no change of type |
| DeviceMapper.UnmountedParentClosed | transform/docker/devicemapper.go:162-171 | dropping the mount points leaves the list closed under parents when nothing is listed below a mount |
| DeviceMapper.FilteredIsSetting | transform/docker/devicemapper.go:114-172 | for a list that describes the difference of two filesystems, what the filter returns is exactly the maximal unmounted differences, once each |
| DeviceMapper.SameConditions | transform/docker/devicemapper.go:130-148 | the conditions a caller checks on the survivors before the call are those of the replay, whatever order the filter returns them in |
| DeviceMapper.UnreachableIsError | transform/docker/devicemapper.go:136-139 | a survivor whose parent and grandparent are missing, with no other survivor to take their place, fails the replay in whatever order the filter returns |
| DeviceMapper.TransformRWLayer | transform/docker/devicemapper.go:114-149 | a failed mount or diff changes nothing; otherwise success and result are those of the replay of what the filter leaves, and the rootfs is unmounted again; for a list that describes the difference: if surviving copies have their parents and no type changed it succeeds with the old contents off the mounts, mounts inside additions or not, and without such mounts only then; a surviving copy that cannot reach its place is an error |
| DeviceMapper.ReplayLoop | transform/docker/devicemapper.go:130-148 | the loop succeeds iff every step of the replay does and leaves its result |
| RootFs.ReplayClosedForm | transform/docker/devicemapper.go:130-147 | independent, well placed changes always go through and leave the source's entries where copied, nothing where deleted, the base elsewhere |
| RootFs.CopyMeaning | transform/docker/devicemapper.go:134-139 | a changed or added path, docker's codes 0 and 1: the copy goes through iff the source is there, the receiving directory exists and no directory meets a file, and then the source wins at and below the target and the rest stays |
| RootFs.DeleteMeaning | transform/docker/devicemapper.go:140-145 | a deleted path, docker's code 2, takes away itself and all below it and nothing else; other codes do nothing |
| ReplayConverse.ReplayOrderIrrelevant | transform/docker/devicemapper.go:93-95 | with present parents every order of the same independent changes ends alike, and goes through iff every copy finds its source and no change of type |
| ReplayConverse.UnreachableFails | transform/docker/devicemapper.go:136-139 | a copy whose parent and grandparent are missing and that no other copy can help fails the replay, in every order |
| ReplayMeaning.ListedAbove | transform/docker/devicemapper.go:151-158 | everything above a listed difference is listed |
| ReplayMeaning.ReplayPreservesMeaning | transform/docker/devicemapper.go:114-172 | with parents present and types kept, any order of the kept changes turns the base into the old filesystem off the mounts, up to attributes of directories above a change |
| ReplayConverse.ReplayFaithfulIff | transform/docker/devicemapper.go:114-172 | the replay succeeds and reproduces the old filesystem iff the base has every kept path's parent as a directory and no type changed, when no mount lies inside a kept addition |
| ReplayConverse.StaysBroken | transform/docker/devicemapper.go:130-147 | with a missing parent, after any number of steps the replay has failed, the parent is still no directory, or a copied entry is gone |
| ReplayExamples.NewDirectoryBecomesFile | transform/docker/devicemapper.go:133-139 | a new directory with one new file is replayed, without an error, to a file in the directory's place |
| ReplayExamples.NestedDirectoriesFail | transform/docker/devicemapper.go:133-139 | a new file two new directories deep makes the replay fail |
| ReplayExamples.ConditionCanHold | transform/docker/devicemapper.go:130-147 | a changed file meets every condition of the main theorem and is replayed to the old filesystem |
| ReplayExamples.OrderMatters | transform/docker/devicemapper.go:93-95 | with a missing parent one map order goes through and the other fails |
| ReplayExamples.MountInsideCanRepair | transform/docker/devicemapper.go:162-172 | why the converse leaves out mounts inside kept additions: such a replay can come out right although a parent is missing |
| Transformer.RollbackObj.Register | transform/docker/rollback.go:70-72 | appends the undo and changes no other field |
| Transformer.RollbackObj.Close | transform/docker/rollback.go:65-68 | needs the slot free, fills it, closes the channel, changes no other field |
| Transformer.Transformation.Call | transform/docker/docker.go:196-290 | a step is good iff its call succeeds, where a pause may also say "already paused" and the bundle directory must not be there |
| Transformer.Transformation.TransformV2Config | transform/docker/docker.go:358-421 | ends at the first of its steps whose call fails, nothing written; else writes the rewritten configuration with the options, image and cgroup parent of docker, and the rootfs generated for the rewritten image |
| Transformer.Transformation.RunRollback | transform/docker/rollback.go:74-82 | runs down the undo list as the machine does, ending before `close`; if the undos succeed none is recorded as failed and everything registered is released |
| Transformer.Transformation.Transform | transform/docker/docker.go:173-291 | without a signal: the error is that of the first step whose call fails, and none if none does, from the answers and the world before alone; a failing run whose undos succeed restores bundle, rootfs and shm iff it did not fail in one of the two windows, a successful one holds all three and has written files that agree; only the pause remains; a foreign bundle directory stays and makes the run fail |
| Transformer.FilesDoAgree | transform/docker/docker.go:216-267 | config.v2.json says what docker's files say, option by option; it and the OCI spec name one rootfs, generated for the image without digest; the cgroup path is that of the docker parent, annotations agree and the user's and the spec's own survive; every mount, namespace and device of the spec is as `SpecMeaning` says |
| Transformer.Transformation.TransformOciConfig | transform/docker/docker.go:423-460 | a spec that is saved is the loaded one rewritten after config.v2.json; one that is not is as loaded |
| Transformer.Transformation.CopyNetworkFiles | transform/docker/docker.go:250-261 | the three files are copied, one by one and in order, from their origins to the paths of the bundle directory, up to the first copy that fails |
| Transformer.CopiesDoAgree | transform/docker/docker.go:250-261 | each network file is copied from where docker's configuration has it to where its mount reads from |
| SagaSafety.ExecInv | transform/docker/docker.go:173-291 | in every interleaving and at both granularities: registrations follow the program position, passes run down the list, held resources are those acquired and not undone |
| SagaTheorems.RollbackTraceSafe | transform/docker/rollback.go:74-82 | in every interleaving the undos called are the first ones of the reverse of what was registered when the rollback began, each once, while the run may keep registering |
| SagaTheorems.AtMostTwice | transform/docker/rollback.go:75-78 | with load and store apart no undo runs more than twice |
| SagaTheorems.ClosedNeverDecides | transform/docker/rollback.go:57-58 | no thread is inside `run` while `closed` is set |
| SagaTheorems.MainPassReleases | transform/docker/docker.go:186-191 | once the main run's pass got through the check, everything registered is released whatever the watcher does, at both granularities |
| SagaTheorems.NoForeignDeletion | pkg/isulad/isulad.go:155-162 | a bundle directory that existed before is never removed, and no undo is called, in any interleaving with any signal |
| SagaTheorems.DirectoryAfterMount | transform/docker/docker.go:209-248 | the main run's pass removes the directory only after the mount in it is gone |
| SagaTheorems.WatcherUnderMount | transform/docker/docker.go:209-248 | the watcher's pass comes to the directory with the mount in it exactly when the shm was mounted and its undo not registered when that pass began (nor called by the other pass) |
| SagaTheorems.LeftBehind | transform/docker/docker.go:209-248 | with signals, at both granularities: a finished run leaves rootfs and mount exactly when it acquired them and no pass covered their undos; the directory stays if no pass covered it, and else iff the watcher alone rolled back and a mount was made in it or a failing mount made it again |
| SagaTheorems.AllOrNothing | transform/docker/docker.go:185-290 | without a signal a failing run leaves everything as before iff it did not fail saving config.v2.json after the rootfs or marshalling the spec, and a successful run keeps everything and calls no undo |
| SagaTheorems.StepOutcome | transform/docker/docker.go:195-290 | a step whose call goes well is followed by the next one, any other ends the run there |
| SagaTheorems.ExecPaused | transform/docker/docker.go:195-200 | in every interleaving: a container is paused iff it was or the run got past the pause; no rollback unpauses it |
| SagaTheorems.UndoFailedIff | transform/docker/rollback.go:79-81 | what the theorems exclude as a failed undo is a call of an undo that the outside answered with an error |
| SagaTheorems.EveryStepCounts | transform/docker/rollback.go:49-68 | every step that changes anything lowers a measure, whatever the outside answers |
| SagaTheorems.NeverStuck | transform/docker/rollback.go:49-68 | the run can always move until it has returned, so `close` never blocks, and then the watcher can leave without a signal |
| SagaTheorems.SignalRollsBack | transform/docker/rollback.go:53-56 | a signal that finds no rollback under way is answered: the watcher alone calls every undo registered by then, from last to first, and leaves |
| SagaExamples.SignalRemovesUnderMount | transform/docker/docker.go:238-248 | a signal between mount and registration: the watcher is about to remove the directory under the mount |
| SagaExamples.UndoCalledTwice | transform/docker/rollback.go:75-78 | the bound of two is reached |
| SagaExamples.SignalLeaksRootfs | transform/docker/docker.go:224-235 | a signal after the first registration: the finished, failed run leaves the rootfs behind |
| SagaExamples.MountMakesDirectoryAgain | transform/docker/docker.go:237-241 | after the watcher's rollback a failing mount makes the directory again, and it stays |
| Claims.ContainerStore.InitContainers | transform/docker/docker.go:475-488 | the store holds exactly the listed directories with a name of 64 characters, all unclaimed; a read error leaves it empty |
| Claims.ContainerStore.MatchID | transform/docker/docker.go:490-508 | for any map order: not found only if no key has the prefix, else a key with the prefix, which is flagged if it was not and is the only change |
| Claims.ClaimsUnique | transform/docker/docker.go:490-508 | over any calls: keys constant, flags never taken back, each container handed out at most once, and exactly the newly flagged ones |
| Claims.ClaimsCounted | transform/docker/docker.go:490-508 | the number of claims is the number of flags set |
| Claims.AnsweredTwice | transform/docker/docker.go:499-501 | "has been transformed" is only said of a container an earlier call claimed |
| FanOutSafety.ExecInv | transform/docker/docker.go:131-171 | in every interleaving: groups, phases, channel, results, claims and every run stay consistent |
| FanOutTheorems.ResultConservation | transform/docker/docker.go:143-170 | nobody sends on the closed channel; at the close each requested position, duplicates included, has sent exactly one result, for its own id, with a true verdict |
| FanOutTheorems.WaitGroupsExact | transform/docker/docker.go:140-170 | the groups count busy workers and live watchers, and nobody is left when `Transform` has returned |
| FanOutTheorems.QueueBounded | transform/docker/docker.go:164 | the channel never holds more than its capacity |
| FanOutTheorems.SignalReaches | transform/docker/rollback.go:53-56 | after the signal every waiting watcher may begin its pass |
| FanOutTheorems.ClaimUniqueness | transform/docker/docker.go:490-508 | no two workers transform the same container, and every new flag belongs to a worker |
| FanOutTheorems.ForeignBundlesSurvive | transform/docker/docker.go:202-214 | with all workers and watchers running, no existing bundle directory is removed |
| FanOutTheorems.AllContainersOnce | transform/docker/docker.go:132-138 | `--all` claims every stored container exactly once, by the worker started for it, in every interleaving |
| FanOutTheorems.EveryStepCounts | transform/docker/docker.go:140-170 | every step of any thread lowers a measure of the whole system |
| FanOutTheorems.NeverStuck | transform/docker/docker.go:140-170 | until `Transform` has returned and its results are taken, some thread can move without a signal |
| FanOutRuns.RunsAreRuns | transform/docker/docker.go:143-167 | in every interleaving of `Transform`, the run of each worker is the one-run machine on the steps of that worker and its watcher, with the signal in it only once it has come |
| FanOutRuns.EveryTraceSafe | transform/docker/rollback.go:74-82 | with all workers, watchers and the signal running, each run calls the undos registered when its rollback began in reverse, each once |
| FanOutRuns.ReportsAreTrue | transform/docker/docker.go:143-165 | all or nothing for `Transform`: until a signal comes, every reported end of a run says what its container holds: everything, or what it held before iff the failure was outside the two windows |
| FanOutRuns.AllContainersSettled | transform/docker/docker.go:131-170 | `--all` without a signal: at the close every stored container has been dealt with by exactly one worker and holds everything or is as before, up to the windows |
| FanOutRuns.TransformLeavesBehind | transform/docker/docker.go:131-170 | with signals: at the close every claimed container holds exactly what its own passes did not cover |
| Races.ClaimsMeanFlags | transform/docker/docker.go:490-508 | with look and store apart: keys and requested ids constant, only unclaimed containers that match the requested id claimed, flags exactly for claims, and "not found" only without a match |
| Races.SharedClaimIff | transform/docker/docker.go:497-501 | two calls have the same container iff at some time both were between look and store |
| Races.CanShareIff | transform/docker/docker.go:490-508 | two calls can end up with the same container, in some interleaving, iff it is stored, unclaimed and matches both ids |
| Races.FullIdsNeverShare | transform/docker/docker.go:132-138 | calls for different full ids, as those of `--all`, never share a container even with look and store apart |
| Races.AnyNumberOfClaims | transform/docker/docker.go:490-508 | any number of matching calls can all claim one container |
| Rivals.RefusedIsHarmless | pkg/isulad/isulad.go:155-162 | a run refused the bundle directory has registered nothing and calls no undo, whatever its rivals and the signal do |
| Rivals.FirstGetsPast | pkg/isulad/isulad.go:155-162 | of runs on one container, the one that comes to the directory while it is not there gets past; it is there only if it was at the start or a rival has got past |
| Rivals.ExecOneHolder | pkg/isulad/isulad.go:155-162 | with look and creation of the directory one step, and check and set of the flag one step or no signal: at most one rival holds the directory, and it is there |
| Rivals.ExecHaveOwn | transform/docker/docker.go:209-248 | the run that holds the directory keeps the rootfs and the mount it acquired until it calls their undos: no rival's rollback takes them |
| Rivals.OneSucceeds | transform/docker/docker.go:202-214 | of any number of runs on one container at most one succeeds without its directory undone, and holds all whose undo it has not called itself; without a signal every success is of that kind and the container has bundle, rootfs and shm |
| RivalsExamples.BothGetPast | pkg/isulad/isulad.go:155-162 | with look and creation apart two runs get past without any signal |
| RivalsExamples.RemovedUnderTheOther | transform/docker/rollback.go:74-82 | with load and store of the flag apart, a second removal takes the directory that a rival has made meanwhile |
| RivalsExamples.OneHolderIff | pkg/isulad/isulad.go:155-162 | at most one holder in every interleaving iff look and creation are one step and, if signals may come, load and store are too |
| Reconcile.V2Config.ApplyOption | transform/docker/reconcile.go:44-126 | an option sets its fields and annotations and nothing else |
| Reconcile.V2Config.Reconcile | transform/docker/reconcile.go:142-168 | options first, then the network files with their origins kept, the shm path, the rootfs annotation, the state and the name |
| Reconcile.OptionsAnyOrder | transform/docker/reconcile.go:142-145 | options of distinct kinds give the same configuration in every order |
| Reconcile.OptionsKeepTheRest | transform/docker/reconcile.go:44-126 | annotations outside the tool's keys, identity, name and network files survive any options |
| Reconcile.OptionReaches | transform/docker/reconcile.go:44-126 | every annotation an option sets is in the result, whatever options of other kinds are applied |
| ConfigMeaning.NumbersWritten | transform/docker/reconcile.go:63-73 | proc.oom_score_adj and files.limit hold the numbers of the host configuration in decimal, and are left alone for 0 |
| ConfigMeaning.LogReaches | transform/docker/reconcile.go:75-126 | driver, path and the six log keys for json-file with its defaults, for syslog and for any other driver |
| ConfigMeaning.RequestWritten | transform/docker/reconcile.go:142-168 | config.v2.json after a transform: numbers, log, image, identity, network files and origins, shm path, rootfs mount, state and name |
| ConfigMeaning.ItoaIs | transform/docker/reconcile.go:63-73 | decimal notation decodes to the number, without leading zeros, with a minus sign for negative ones |
| ConfigMeaning.ImageNameKept | transform/docker/reconcile.go:170-177 | a name of letters, digits, dots, underscores, dashes, slashes and colons is kept whole, and a digest behind it is cut off |
| Reconcile.AnnotationsAgree | transform/docker/reconcile.go:191-203 | the OCI annotations agree with config.v2.json on all its keys and keep their own others; without a cgroup directory it is /isulad |
| Reconcile.AnnotationsFlow | transform/docker/reconcile.go:191-203 | a user's annotation reaches the OCI spec unchanged through any options |
| Reconcile.NetworkFilesAgree | transform/docker/docker.go:250-260 | each network file is copied to the source of its OCI mount, and from the path it had before |
| Reconcile.CgroupEndToEnd | transform/docker/reconcile.go:200-205 | the options a transform passes are of distinct kinds, and the cgroup path written follows from the docker cgroup parent alone |
| Reconcile.CgroupKeptIff | transform/docker/reconcile.go:51-61 | a canonical cgroup parent reappears iff it ends in the id below a directory other than the root and outside docker's own; docker's own and those that do not end in the id become /isulad/ID |
| Reconcile.RootCgroup | transform/docker/reconcile.go:51-61 | a cgroup parent directly below the root becomes a relative path |
| Reconcile.ImageRemoveSuffixDigest | transform/docker/reconcile.go:170-177 | the longest leading run of allowed characters: a prefix, of allowed characters only, that ends at the end or before a character that is not allowed |
| Reconcile.ImageEndToEnd | transform/docker/reconcile.go:44-49 | the image written is that run of the requested one, whatever other options are applied |
| Reconcile.SharedNamespaceIff | transform/docker/reconcile.go:250-275 | an ipc, pid or network namespace points to a container iff the mode of that kind is `container:` and its 64 character id, and to nothing otherwise |
| SpecMeaning.AdaptedIs | transform/docker/reconcile.go:207-211 | kind by kind, the path is what stands behind `container:` if the mode has 74 characters, and empty otherwise |
| Reconcile.Spec.RewriteNamespaces | transform/docker/reconcile.go:207-211 | each namespace is rewritten from its own kind only |
| Reconcile.Spec.CopyAnnotations | transform/docker/reconcile.go:193-195 | whatever the map order, the annotations are overridden by those of config.v2.json |
| Reconcile.Spec.RewriteMounts | transform/docker/reconcile.go:218-237 | each mount is rewritten on its own, the others keep their entries |
| SpecMeaning.RemountedIs | transform/docker/reconcile.go:218-237 | network files and shm read from the container's bundle directory, the shm with its mode and size appended; every other mount is unchanged |
| Reconcile.Spec.CompactDevices | transform/docker/reconcile.go:239-247 | the in-place loop leaves the supported devices of the old list |
| Reconcile.SupportedExactly | transform/docker/reconcile.go:239-247 | a device remains, as often as before, iff its path holds no colon |
| Reconcile.SupportedOne | transform/docker/reconcile.go:239-247 | one device is kept iff its path holds no colon, which with the next row fixes the result |
| Reconcile.SupportedStable | transform/docker/reconcile.go:239-247 | the compaction keeps the order |
| Reconcile.Spec.AddMustDevices | transform/docker/reconcile.go:277-314 | the loop adds the required devices that are missing |
| Reconcile.DevicesAdded | transform/docker/reconcile.go:277-314 | adding only appends, and every required device is present afterwards |
| Reconcile.AddingTwice | transform/docker/reconcile.go:277-314 | adding the required devices again changes nothing |
| Reconcile.MustDevicesExact | transform/docker/reconcile.go:277-314 | exactly the entries (5, 2) and (136, -1) that no entry names yet are appended, as allowed character devices with all access |
| Reconcile.MustDevicesAllowedIff | transform/docker/reconcile.go:277-314 | both are named afterwards; one is allowed iff it was or no entry named it |
| Reconcile.Spec.Reconcile | transform/docker/reconcile.go:191-248 | annotations, root, cgroup path, namespaces, mounts and devices are rewritten, and the arrays stay the same objects |
| SpecMeaning.EntriesAre | transform/docker/reconcile.go:207-314 | the rewritten spec entry by entry: mounts, namespaces, devices without a colon, and the required devices of an unprivileged container |

## Left out

- ReplayConverse.ReplayFaithfulIff: the "only if" half leaves out mounts inside kept additions; ReplayExamples.MountInsideCanRepair shows that it is false there. The "if" half, ReplayMeaning.ReplayPreservesMeaning, has no such condition.
- DeviceMapper.TransformRWLayer: when a mount lies inside a surviving addition, success is promised under the condition but failure without it is not (see the line above). It says nothing of the entries after a failed copy; the rootfs is then removed by the rollback.
- DeviceMapper.TransformRWLayer: for lists with a path that is not canonical, "/" among them, it promises the filter's order but not the replay; docker lists canonical paths only, and never the root.
- Transformer.Transformation.Transform: runs without a signal; the interleavings with signals are those of the machine in Saga.
- FanOut.Exec: goroutines, wait groups and channels are steps of a machine, not methods; `matchID` is one step in it. Calls that overlap are those of Races and the runs they lead to those of Rivals, without the channel and the wait groups.
- Symbolic links, hard links and special files: entries are directories or leaves.
- The attributes of directories above a replayed change, which the source gives up as well.
- JSON reading and writing, file checks, logging, the command line, the docker client and the cgo layer: loaded values are parameters and external calls succeed or fail by parameter.
- Signal delivery and the Go memory model: interleaved atomic steps, at the two granularities named above.
- The overlay2 driver, host configuration fixes, time fields and defaults: each is readable from one branch.
- The general regular expression of the image name: it is its longest leading run of allowed characters.

# Docker live-migration client: worker and iteration controller

This project models, in Dafny, the core of the source side of a live-migration client for
Docker containers.

The first part is the Docker worker (`docker_lm_worker`, module `DockerWorker` in
`worker.dfy`). It resolves a short container id to the full id. It then collects the
container's aufs artifacts:

- the metadata-layer parent chain;
- the mount-layer ancestor list;
- the volumes, from the parsed `config.v2.json`;
- the image id.

From these it derives the directories that are synchronised to the target. It also builds
the `docker checkpoint create` and `docker start` command lines. The host's files, path
existence, directory listings and parsed config documents are one value, `FileSystem`.
The `docker` binary is an exit-status oracle `exec`.

The second part is the iteration controller (`migration_iter_controller`, module `Iters` in
`iters.dfy`). It is a class whose `trace` field records every call into a collaborator: the
filesystem driver, the image manager, the CRIU service, the peer's RPC proxy and the
statistics sink. Whether a call raises is decided by an oracle `Env.raises` that sees the
calls made before it. Whether the image manager and the CRIU connection are truthy, which
`set_options` tests, is given by `Env.imgPresent` and `Env.criuPresent`.

`LiveMigration` is a reference function of `start_live_migration`, built from scripts of
calls. Its parts are:

- the preparation (`img.work_dir()`, `fs.set_work_dir` and the CPU check);
- the dump (statistics object, pre-dump decision, start, pre-dump loop, final-dump bracket);
- the guarded section (final sync and restore), which runs the `migration_fail` hook and
  re-raises on failure;
- the cleanup, which never raises.

The method `Controller.StartLiveMigration` is proved equal to this function. The lemmas
about `LiveMigration` state what the source promises about order, call counts and
exceptions.

`pystr.dfy` (module `PyStr`) states the Python builtins the worker relies on: `str.find`,
slicing, `rsplit("/")[0]`, `strip()`, `readline()`, `os.path.join` and `list.extend` with a
string. `wrappers.dfy` holds `Option`, `Result` and `Outcome`.

Behaviour kept exactly as written:

- Line 54 of `client/iters.py` names `__validate_criu_version` without calling it.
- The pre-dump loop leaves on its sixth pass before `end_iter`.
- The final bracket opens with `start_iter(False)`.
- In auto mode the probe uses the unbound name `criu_req`, so auto-detection always yields
  "disabled".
- The parent walk of `get_diff_id` has no cycle guard. It is modelled with a bound of
  `MaxChainSteps` parent files. `WalkIsDiffChain` shows that the bound changes nothing on a
  store whose chain is no longer than the bound.
- `get_fs` extends the list with the image-metadata directory's string, which adds its
  characters one by one.

## Model

| member | source | states |
|---|---|---|
| DockerWorker.Worker.Create | client/docker_migrate_worker.py:16-20 | construction fails with `IdTooShort` exactly when the id is shorter than 3 characters; length 3 is accepted and the id is kept |
| DockerWorker.Worker.constructor | client/docker_migrate_worker.py:19-20 | a new worker holds the id and an empty root fd |
| DockerWorker.FirstMatch | client/docker_migrate_worker.py:40-44 | the index found names an entry whose first path component starts with the short id, and no earlier entry does; with no index found, no entry does |
| DockerWorker.FirstMatchAt | client/docker_migrate_worker.py:40-44 | the first entry that matches, with none before it, is the one the scan stops at |
| DockerWorker.FullIdResolution | client/docker_migrate_worker.py:37-48 | resolution succeeds iff some entry (before its first '/') starts with the short id; the result has the short id as prefix and is the first such entry; otherwise the error is `FullIdNotFound` |
| DockerWorker.Worker.GetFullCtid | client/docker_migrate_worker.py:37-48 | the `for`/`break` scan returns the same result as the first-match resolution, including the unlistable directory and the no-match error |
| DockerWorker.DigestOfPrefixed | client/docker_migrate_worker.py:146 | dropping 7 characters from `sha256:<hex>` gives back `<hex>` |
| DockerWorker.MountIdOf | client/docker_migrate_worker.py:121-131 | the mount id is the unstripped contents of `layerdb/mounts/<full id>/mount-id`; a missing file is a read error on that path |
| DockerWorker.DiffChainIsWalk | client/docker_migrate_worker.py:135-152 | a completed walk is a layer walk: element i is the i-th parent file minus 7 characters; the first file is the container's own parent file and each later one the previous id's parent file; the file after the last id does not exist |
| DockerWorker.WalkIsDiffChain | client/docker_migrate_worker.py:135-152 | every layer walk no longer than the bound is exactly what `get_diff_id` returns |
| DockerWorker.WalkHead | client/docker_migrate_worker.py:141-150 | a layer walk reads its start file first and continues as a walk from the first id's parent file |
| DockerWorker.WalkCons | client/docker_migrate_worker.py:141-150 | reading one parent file in front of a walk from its id's parent file gives a walk |
| DockerWorker.EmptyChain | client/docker_migrate_worker.py:141 | the chain is empty exactly when the container has no parent file |
| DockerWorker.ChainStep | client/docker_migrate_worker.py:141-150 | one loop iteration: from an existing readable parent file, the chain is that file's id followed by the chain from its parent |
| DockerWorker.Worker.GetDiffId | client/docker_migrate_worker.py:135-152 | the `while` loop over parent files returns exactly the reference chain, errors included |
| DockerWorker.Worker.GetMntDiffIds | client/docker_migrate_worker.py:197-212 | the result is the mount id followed by every line of `aufs/layers/<mount id>`, stripped, in file order; a missing file is a read error |
| PyStr.StripLinesStep | client/docker_migrate_worker.py:203-209 | one `readline()` then `strip()` yields the first stripped line, and the rest of the file yields the rest |
| PyStr.ReadBackWords | client/docker_migrate_worker.py:203-209 | a layers file of one id per line reads back, line by line and stripped, as exactly those ids |
| PyStr.LinesConcat | client/docker_migrate_worker.py:203-206 | the successive `readline()` results concatenate to the whole file |
| PyStr.LinesShape | client/docker_migrate_worker.py:203-206 | every line read is non-empty, contains a newline only as its last character, and every line but the last ends with one |
| PyStr.Strip | client/docker_migrate_worker.py:207 | `strip()` returns the infix left after removing leading and trailing white space, which neither starts nor ends with white space |
| PyStr.Find | client/docker_migrate_worker.py:42 | `find` returns the least index where the substring occurs, or -1 when it occurs nowhere |
| PyStr.FindZeroIsPrefix | client/docker_migrate_worker.py:42 | `find(...) == 0` is exactly the prefix test |
| PyStr.FirstComponent | client/docker_migrate_worker.py:41 | `rsplit("/")[0]` is the prefix before the first '/', or the whole name |
| DockerWorker.FirstNamed | client/docker_migrate_worker.py:164-170 | the index found is the first mount point with a non-empty name; with none found, every name is empty |
| DockerWorker.NonEmptySourcesSpec | client/docker_migrate_worker.py:171-174 | the collected sources are all non-empty, and there are none exactly when every source is empty |
| DockerWorker.ClassifyManagedIff | client/docker_migrate_worker.py:154-182 | the volumes are managed with name `n` exactly when `n` is the first non-empty name |
| DockerWorker.ClassifyExternalIff | client/docker_migrate_worker.py:154-182 | with no name anywhere, any non-empty source makes the volumes external, and then they list the non-empty sources in the order `MountPoints.items()` yields them |
| DockerWorker.ClassifyNoneIff | client/docker_migrate_worker.py:154-182 | there are no volumes exactly when every name and every source is empty |
| DockerWorker.ManagedDiscardsEarlierSources | client/docker_migrate_worker.py:164-180 | bind-mount sources met earlier in the `MountPoints.items()` iteration than a managed name are discarded: the result is that name alone |
| DockerWorker.Worker.ScanMountPoints | client/docker_migrate_worker.py:157-182 | the `for` loop with its two tagged lists returns exactly the classification |
| DockerWorker.Worker.GetVolumesName | client/docker_migrate_worker.py:154-182 | the result is the classification of the config's mount points; an unparsable config or a missing `MountPoints` key raises |
| DockerWorker.ImageIdOf | client/docker_migrate_worker.py:184-194 | the image id is the config's `Image` field with its first 7 characters removed; it exists iff the config parses and has the key; otherwise the error is `MissingKey("Image")` for a parsed config and `CannotParse` of the config path for one that does not parse |
| DockerWorker.UnderEachAt | client/docker_migrate_worker.py:64-75 | the i-th derived directory is the one joined from the root and the i-th id |
| DockerWorker.LayersDirs | client/docker_migrate_worker.py:76-80 | the layers list has 1 + the number of mount-diff ids entries, the first being `aufs/layers/<mnt_id>-init` |
| DockerWorker.LayersDirsAt | client/docker_migrate_worker.py:76-80 | after the `-init` layer, one `aufs/layers/<id>` per mount-diff id, in order |
| DockerWorker.Worker.JoinEach | client/docker_migrate_worker.py:64-75 | the append loops produce one `docker_dir/root/id` per id, in order |
| DockerWorker.Worker.LoadFsDir | client/docker_migrate_worker.py:55-90 | every derived directory field: rootfs, init rootfs, layer db, diff dirs one-to-one with the diff ids, image and image-metadata dirs, mount diffs one-to-one with their ids, layers, and volumes (tag 1 under `volumes/`, tag 2 verbatim, none empty) |
| DockerWorker.Worker.LoadCtConfig | client/docker_migrate_worker.py:97-108 | the config, runc metadata and runc state directories are derived from the full id |
| DockerWorker.Worker.LoadIds | client/docker_migrate_worker.py:25-31 | the lookups run in order and the first failure propagates; on success the fields hold the resolved ids |
| DockerWorker.Worker.InitSrc | client/docker_migrate_worker.py:25-34 | `init_src` succeeds iff every lookup does and reports the first failure; on success every id and directory field is loaded |
| DockerWorker.PathListLayout | client/docker_migrate_worker.py:112-118 | the path list is rootfs, init rootfs, config, layer db and image dir, then the layer files, the layer-metadata dirs, the volumes and the mount diffs, in that order; nothing follows when the metadata dir does not exist |
| DockerWorker.MetaEntries | client/docker_migrate_worker.py:117-118 | when the metadata dir exists, the entries after the mount diffs are its single characters, which concatenate back to its path |
| DockerWorker.Worker.GetFs | client/docker_migrate_worker.py:110-119 | the list handed to the driver is the path list of the stored directories and config dir, with the metadata characters only when that dir exists |
| DockerWorker.Worker.RootTaskPid | client/docker_migrate_worker.py:53-54 | the root task is named by the full id |
| DockerWorker.CheckpointName | client/docker_migrate_worker.py:268-269 | the checkpoint name is the container id followed by `_checkpoint` |
| DockerWorker.FinalDumpParent | client/docker_migrate_worker.py:229-255 | the final dump names a parent image iff `current_iter > 1`, and then names `parent_image_dir`; both dump commands end with the container id and the checkpoint name |
| DockerWorker.Worker.PreDump | client/docker_migrate_worker.py:229-237 | the pre-dump fails iff `docker checkpoint create --pre-dump` exits non-zero, with the pre-checkpoint error |
| DockerWorker.Worker.FinalDump | client/docker_migrate_worker.py:239-255 | the final dump fails iff the checkpoint command for the current iteration exits non-zero, with the checkpoint error |
| DockerWorker.Worker.FinalRestore | client/docker_migrate_worker.py:258-265 | the restore fails iff `docker start --checkpoint=<ct_id>_checkpoint` exits non-zero, with the restore error |
| Iters.IsLiveMode | client/iters.py:16-18 | true exactly for the mode `"live"` |
| Iters.Controller.Setup | client/iters.py:21-35 | a short id or a failed lookup surfaces as a worker error; otherwise the outcome is that of the set-up script over the worker's path list: a raising call or "No fs driver found!" propagates, and on success a fresh controller holds the loaded worker and the script's calls |
| Iters.Controller.Connect | client/iters.py:28-35 | the new calls and the outcome are those of the set-up script: build the filesystem driver, raise "No fs driver found!" if it is falsy, build the image manager, then the peer's `setup` |
| Iters.SetupRuns | client/iters.py:28-35 | the set-up succeeds exactly when the driver constructor returns a truthy driver and neither `lm_docker_img("dump")` nor `setup` raises, and then its calls are those three in order; "No fs driver found!" is raised exactly when the driver is built but falsy |
| Iters.Controller.constructor | client/iters.py:21-23 | a new controller has made no call and holds the mode, worker and environment |
| Iters.Controller.Perform | client/iters.py:51-116 | one collaborator call is appended to the trace and fails exactly when the oracle says it raises, as the next step of the reference script |
| Iters.Controller.SetOptions | client/iters.py:37-49 | the four options and the target host are stored; then `fs.set_options` runs, `img.set_options` only when the image manager is truthy, and the CRIU connection's and the peer's only when the connection is truthy, in that order until the first that raises |
| Iters.Controller.PassOptions | client/iters.py:44-49 | the new calls and the outcome are those of the options script for the collaborators' truthiness, stopping at the first call that raises |
| Iters.OptionGuards | client/iters.py:44-49 | the filesystem driver's `set_options` is always the first call; the image manager's is made iff the manager is truthy; the CRIU connection's and the peer's are made iff the connection is truthy |
| Iters.ForceAfterCpuCheck | client/iters.py:151-162 | after a CPU check that returns normally, `force` is set iff it was set before or the check ran and CRIU answered ENOTSUP |
| Iters.Controller.ValidateCpu | client/iters.py:151-170 | the calls and error are those of the CPU-check script: none under skip or force; the cpuinfo dump; then ENOTSUP sets `force` and returns, an unsuccessful reply raises, otherwise send and check, and a mismatch raises |
| Iters.CpuCheckSkipped | client/iters.py:151-153 | with `skip_cpu_check` or `force` set, no CPU-check call is made in the whole run and `force` is unchanged |
| Iters.PrepAfterWorkDir | client/iters.py:52-53 | the preparation stops at `img.work_dir()` or `fs.set_work_dir` when either raises; otherwise it continues with the CPU check after those two calls |
| Iters.CpuinfoUnsupportedForces | client/iters.py:159-162 | on ENOTSUP, `force` becomes true exactly when the two work-directory calls and the dump request did not raise |
| Iters.CpuinfoUnsupportedNoPeer | client/iters.py:159-167 | on ENOTSUP the CPU info is neither sent nor checked by the peer |
| Iters.CpuinfoDumpRefused | client/iters.py:163-164 | an unsuccessful cpuinfo dump raises "Can't dump cpuinfo" right after the dump request, with nothing else done |
| Iters.CpusDiffer | client/iters.py:166-170 | a peer that rejects the CPU info makes the run raise "CPUs mismatch" right after the work-directory calls and the check's three calls |
| Iters.Controller.ValidateCriuVersion | client/iters.py:172-180 | a no-op under skip or force; otherwise the unbound `criu_api` raises a NameError |
| Iters.MigrationErrors | client/iters.py:51-116 | `start_live_migration` raises only a collaborator's exception, "Can't dump cpuinfo" or "CPUs mismatch", each only under its condition; never the version check's errors, since line 54 does not call it |
| Iters.Controller.CheckSupportMemTrack | client/iters.py:119-121 | the probe always raises the NameError of the unbound `criu_req` |
| Iters.MemTrackAnswer | client/iters.py:122-128 | lines that never run: an unsuccessful reply raises; the answer is true iff `features.mem_track` is present and true; an absent field gives false |
| Iters.AutoOutcome | client/iters.py:133-143 | `probe and can_pre_dump()` with exceptions read as "disabled" is true exactly when both operands return true |
| Iters.AutoDecision | client/iters.py:133-143 | with the unassigned `htype`, whose `can_pre_dump` lookup raises AttributeError, the auto decision is "disabled" whatever the probe does |
| Iters.UsePreDumps | client/iters.py:130-149 | auto mode yields false; an explicit option is used as given |
| Iters.Controller.CheckUsePreDumps | client/iters.py:130-149 | returns the decision and calls `memory_tracking` with it exactly once |
| Iters.MemoryTrackingOnce | client/iters.py:148 | a run tells `memory_tracking` the decision at most once |
| Iters.MemoryTrackingNeverOpposite | client/iters.py:148 | a run never tells `memory_tracking` the opposite of the decision |
| Iters.MemoryTrackingDone | client/iters.py:148 | a successful run tells `memory_tracking` the decision exactly once |
| Iters.Controller.StartMigration | client/iters.py:58-64 | `handle_start`, `fs.start_migration` and `handle_preliminary` run in order until one raises |
| Iters.Controller.PreDumpPass | client/iters.py:69-75 | one pass makes `start_iter(False)`, `new_image_dir`, `pre_dump`, the intermediate sync and the mount-diff sync, in order, until one raises |
| Iters.Controller.PreDumpLoop | client/iters.py:60-79 | the counter loop makes exactly the calls of the reference loop script, with a pass and `end_iter` per iteration and the break before the sixth `end_iter` |
| Iters.LoopUnfold | client/iters.py:67-79 | the loop entered with counter n makes one pass, then stops when n + 1 exceeds 5, or else calls `end_iter` and continues with counter n + 1 |
| Iters.LoopPassCount | client/iters.py:67-79 | the loop entered with counter n makes each pass call 6 - n times |
| Iters.LoopPassStep | client/iters.py:67-79 | one pass of the loop makes each pass call exactly once more than the passes that follow it |
| Iters.LoopEndCount | client/iters.py:77-79 | the loop entered with counter n calls `end_iter` 5 - n times |
| Iters.LoopKinds | client/iters.py:67-79 | the loop makes no call of another kind |
| Iters.LoopTotals | client/iters.py:67-79 | enabled: six `pre_dump`, six intermediate syncs, six `start_iter(False)`, six `new_image_dir` and five `end_iter`; disabled: no call at all |
| Iters.Controller.FinalDump | client/iters.py:81-85 | `start_iter(False)`, `new_image_dir`, `final_dump` and `end_iter` run in order until one raises |
| Iters.Controller.DumpAll | client/iters.py:56-85 | from `live_stats()` to the final dump, the calls and error are those of the dump script |
| Iters.DumpLayout | client/iters.py:56-85 | the calls after the CPU check are `live_stats()`, `memory_tracking`, the start calls, the loop's calls, then the final bracket |
| Iters.Controller.SyncAndRestore | client/iters.py:87-98 | stop migration, the final sync, the mount-diff sync and `restore_from_images(ct_id, ct_id + "_checkpoint")` run in order until one raises |
| Iters.Controller.RestoreOnTarget | client/iters.py:87-102 | a failure in the guarded section appends the `migration_fail` call and re-raises the same error; success appends nothing |
| Iters.Controller.Cleanup | client/iters.py:105-116 | the cleanup calls run in order until one raises, and nothing is raised |
| Iters.Controller.Prepare | client/iters.py:52-53 | the work-directory call, then the CPU check, with `force` as the check leaves it |
| Iters.Controller.StartLiveMigration | client/iters.py:51-116 | the calls made, the outcome and the new `force` are those of the reference run |
| Iters.MigrationRuns | client/iters.py:51-116 | a failure before the guarded section is reported as it is; a failure inside it is reported after the hook; a completed restore is followed by the cleanup and the outcome is success |
| Iters.PassedTrace | client/iters.py:51-116 | a successful run makes every call up to the restore, in order, then a prefix of the cleanup calls |
| Iters.FailedTrace | client/iters.py:51-102 | a failed run stopped within the calls up to the final dump, or after them inside the guarded section, with the hook as its last call |
| Iters.CpuCalls | client/iters.py:151-170 | the CPU check makes only CPU-check calls |
| Iters.PrepCalls | client/iters.py:52-53 | the preparation makes `img.work_dir()` and `fs.set_work_dir` followed by the CPU check's calls |
| Iters.AllCallsShape | client/iters.py:51-116 | after the preparation, the calls up to the final dump are of the dump's kinds, the guarded calls follow them, and the cleanup follows those |
| Iters.NewCalls | client/iters.py:51-116 | a run's new calls begin with the preparation's calls; after them, every call is of a later step's kind or is the hook |
| Iters.PassedCalls | client/iters.py:51-116 | in a successful run, every call after the preparation is a dump, guarded or cleanup call |
| Iters.FailedCalls | client/iters.py:51-102 | in a failed run, every call after the preparation is a dump or guarded call, except a hook call in last position |
| Iters.CleanupIffRestored | client/iters.py:104-116 | the cleanup's statistics request is made iff the run succeeds |
| Iters.HookIffGuardedFailure | client/iters.py:87-102 | the `migration_fail` hook runs iff the run fails after the final dump |
| Iters.NoHook | client/iters.py:87-102 | a run that succeeds, or fails before the guarded section, never runs the hook |
| Iters.EarlyCalls | client/iters.py:51-85 | a run that fails before the guarded section makes only dump calls after the preparation |
| Iters.HookOnceAndLast | client/iters.py:100-102 | when the hook runs it is the last call, and it is made only once |
| Iters.HookReRaises | client/iters.py:100-102 | the error re-raised after the hook is the failure of the guarded call made just before it |
| Iters.GuardedHook | client/iters.py:87-102 | when the guarded block fails, the trace ends with a guarded call followed by the hook, and the error is that call's failure |
| Iters.CallsFailLast | client/iters.py:87-98 | a failing run of plain calls stops right after the call that failed, and reports that call |
| Iters.RunStepsError | client/iters.py:51-116 | a run stops only on a call that raised or on a failing check of its script |
| Iters.DumpAllDo | client/iters.py:57-98 | after the CPU check, only a raising call can stop the run |
| Iters.PassedNewCount | client/iters.py:51-116 | in a successful run, a call that is not a cleanup call occurs as often as the calls up to the restore hold it |
| Iters.NewCountBound | client/iters.py:51-116 | any run makes any call other than the hook at most as often as the calls up to the restore and the cleanup hold it |
| Iters.DumpOnlyCount | client/iters.py:57-85 | a dump-only call occurs up to the restore as often as in the start, the loop and the final bracket together, and never in the cleanup |
| Iters.PreDumpCallCount | client/iters.py:67-79 | up to the restore, `pre_dump` is called six times with pre-dumps enabled and never without |
| Iters.SyncCallCount | client/iters.py:72-73 | up to the restore, intermediate syncs occur six times with pre-dumps enabled and never without |
| Iters.PreDumpBound | client/iters.py:67-79 | any run pre-dumps at most six times when enabled and never when disabled |
| Iters.PreDumpsDone | client/iters.py:67-79 | a successful run pre-dumps exactly six times when enabled and never when disabled |
| Iters.SyncsDone | client/iters.py:72-73 | a successful run makes exactly six intermediate syncs when enabled and none when disabled |
| Iters.MemTrackCallCount | client/iters.py:148 | up to the restore, `memory_tracking` is called once with the decision and never with its opposite |
| Iters.FinalDumpCallCount | client/iters.py:84 | up to the restore, `final_dump` is called exactly once |
| Iters.FinalDumpOnce | client/iters.py:84 | any run calls `final_dump` at most once |
| Iters.FinalDumpDone | client/iters.py:84 | a successful run calls `final_dump` exactly once |
| Iters.StartIterCallCount | client/iters.py:69-82 | up to the restore, `start_iter(False)` is called seven times with pre-dumps and once without |
| Iters.EndIterCallCount | client/iters.py:77-85 | up to the restore, `end_iter` is called six times with pre-dumps and once without |
| Iters.BracketsDone | client/iters.py:67-85 | a successful run opens seven iterations on the peer and closes six with pre-dumps, and opens and closes one each without |

## Left out

- Logging: every `logging` call is informational only and is not modelled.
- Statistics values: the values of `live_stats()`, its `handle_*` results, `criu_get_dstats` and `sync_time` are wall-clock data and are not modelled. The calls that create the statistics object and report to it are events.
- Collaborators: `client.fs_migrator`, `client.img_migrator`, `client.rpc_client`, `tool.criu_api`, `tool.criu_req` and `client.mstats` are not part of this model. Their calls from the controller are events whose raising is an oracle. This includes the constructors `lm_docker_fs(...)`, `lm_docker_img("dump")` and `live_stats()`, and `img.work_dir()`. Two constructors are not events: the RPC proxy `_rpc_client(...)` and the CRIU connection `criu_conn(...)` (see Connections).
- Worker calls from the controller: `pre_dump` and `final_dump` are oracle events `WorkerPreDump` and `WorkerFinalDump`, and whether they raise is left to `Env.raises`. `Worker.PreDump` and `Worker.FinalDump` model their command lines and exit rule separately, because they depend on the image iteration (`current_iter`), which is not modelled. Every lemma about a run holds for every oracle, so it holds for the one these methods induce. `root_task_pid()` and `get_ck_dir()` only read fields and cannot raise, so they are not events.
- Image iteration: how `current_iter` and the image directories are maintained is not modelled. They are inputs (`Image`) to the worker's command lines.
- Connections: the `dst_id` and `connection` arguments of the controller, the RPC, filesystem and memory sockets, and the `criu_conn` object are not modelled.
- Host input: real `open`/`read`, `os.listdir`, `os.path.exists`, `json.loads` and `subprocess.call` are replaced by the `FileSystem` value and the `exec` exit-status oracle. A file that fails to open in `get_volumes_name` or `get_image_id` and one that fails to parse are the same `CannotParse` error.
- `get_mount_id`: the `finally: f.close()` on an unopened file, which turns the `IOError` into an `UnboundLocalError`, is modelled as the read error.
- `get_mnt_diff_ids`: the same `finally` on an unopened file is modelled as the read error.
- Missing option keys: the `KeyError` that `set_options` raises for a missing key is not modelled, because `Options` always carries every key.
- Order of calls: a `start_live_migration` called before `set_options`, which fails with `AttributeError`, is not modelled. The controller's fields start with the defaults instead.
- DockerWorker.DiffChainFrom: reads at most `MaxChainSteps` parent files and reports `CorruptChain` beyond them, where the source loops forever on a cyclic store. `WalkIsDiffChain` shows the results agree on every chain within the bound.
- Unused or empty worker members: `set_options`, `init_dst`, `umount`, `get_meta_images` and `put_meta_images` are not modelled. The first three have empty bodies, so `set_options` (line 42 of `client/iters.py`) cannot raise and is not an event; the last two are not called by the modelled code.
- Worker hooks: `migration_complete` and `migration_fail` are modelled only as the events `WorkerMigrationComplete` and `WorkerMigrationFail`. Their bodies are `pass`, so `CanRaise` rules out that they raise, and they change nothing else.
- Iters.MemTrackAnswer: lines 122-128 of `__check_support_mem_track` never run, because the NameError at line 120 comes first. They are modelled only as this separate function.
- Iters.Controller.ValidateCriuVersion: lines 177-180, the version request and the peer's check, never run, because the NameError at line 176 comes first.
- Iters.AutoDecision: `self.htype` is never assigned, so its `can_pre_dump()` is modelled by the constant `HtypeCanPreDump`, an AttributeError. What `can_pre_dump` would return on a real `htype` is covered only by `AutoOutcome`.
- Worker exceptions not modelled: `value["Name"]` and `value["Source"]` in `get_volumes_name` (lines 166 and 171 of `client/docker_migrate_worker.py`) cannot raise `KeyError`, because every `MountPoint` carries both fields. The `IOError` of the log-file `open(..., "w+")` in `pre_dump` and `final_dump` (lines 232 and 242), which comes before the `docker` command, is not modelled. Nor is an exception from `img.image_dir()` or `img.parent_image_dir()` (lines 233, 243 and 251).

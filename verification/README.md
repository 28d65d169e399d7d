# OBS manager: verification model

The manager runs streamers' OBS containers on a node. While a container runs,
its config and media live in one directory on that node; S3 holds the user's
copy and the plan's template. This project models the parts where losing or
mixing up that data would be easiest, and proves what they keep:

- the sync engine that mirrors a directory to an S3 prefix by a manifest of what
  S3 holds, the final push that removes the only local copy, the pull that layers
  the user's config over the plan's template, and the media routes beside them
  (`Text`, `SyncPolicy`, `ObjectStore`, `DirectoryWalk`, `SyncSection`,
  `SyncEngine`, `SyncProofs`, `SectionRun`, `KeptPaths`, `Push`, `PushHost`,
  `Pull`, `PullHost`, `SyncGuarantees`, `TemplateLayer`, `MediaSync`, `SyncRuns`);
- the bounded worker pool those uploads and downloads run on (`WorkerPool`,
  `UploadPool`, `DownloadPool`);
- the per-instance lock and the start, stop, destroy and die-event protocol on
  top of it (`PromiseChain`, `Lifecycle`, `JobOutcomes`, `Orphans`);
- the caches (`SecretsCache`, `SharedFetch`) and the plugin mirror
  (`PluginMirror`, `PluginPool`);
- core pinning, rate limits, the output-stats recorder and the media upload
  (`Cpuset`, `RateLimit`, `OutputStats`, `MediaTypes`, `MediaUpload`).

The engine's rules each look at one path, so `SyncSection.Sync` specifies a run
path by path; the imperative `SyncEngine.SyncDirectory` is proved equal to it,
every interleaving of the worker pool is proved equal to it, and all theorems
about data are proved about it. Faults (an unreadable file, a rejected upload, a
refused or throwing delete) are free variables of every theorem. What goes wrong in
a run is an input of each method (`Trouble`, `PushTrouble`, `PullTrouble` and the
like), and each method reports exactly the faults it met (`CausedBy`, `PushCaused`,
`RestoreCaused`), so a method cannot excuse itself with one that was not there.

## Assumptions about the environment

They appear as hypotheses or as the shape of the data, never as axioms.

- Equal hashes mean equal contents (`Digest` holds the content), and equal ETags
  likewise for plugins.
- Equal size and mtime mean the file did not change since it was recorded
  (`StampsTell`, `Honest`).
- A request to S3 that throws had no effect, except that a throwing multi-batch
  delete keeps the batches before it. Objects have bodies.
- Removing the instance dir is all or nothing; reading and writing the manifest
  file does not fail; a temp file can be removed.
- Nobody else changes the dir during a push that mirrors deletes: no container is
  live then (`Lifecycle.EveryInterleaving` is the proof, short of the stale destroy
  and the failed clean-up below), and no download of an earlier pull is under way.
  The second half holds exactly as long as no pull has thrown with downloads left
  (`Lifecycle.PullStaysApartExactlyWhen`).
- Directory walks yield canonical paths (`DirectoryWalk.WalkedTree` and
  `SectionRun.WalkedTreeIs` are the proof), and template and overlay keys have that
  shape; in `SyncRuns` this is an invariant for the overlay and the media prefix.
- Docker holds at most one container per name and never reuses an id. A database
  write that throws had no effect; a write to a deleted row throws.
- Clocks do not go back.

## Where the code falls short of the ideal

Each has an if-and-only-if saying exactly when the code does meet the ideal, and
where that condition does not itself spell out an input that fails, a lemma does.

- sync.ts:25-27 says that every read error but a missing dir throws. A file whose
  stat fails for any reason is skipped all the same, so a push with deletes removes
  its object and reports success; and a dir whose stat fails is taken for a missing
  one, so the push succeeds without it and the final push removes it
  (`SectionRun.SuccessMeansSavedExactlyWhen`, `FailedStatDropsObject`,
  `SyncGuarantees.PushSavesAllExactlyWhen`, `UnseenDirIsLost`). A pull that takes a
  leftover dir for a missing one writes over it (`OverlookedLeftover`).
- A download call rejects with its first failure while its other workers go on. The
  start catches that, so the rest of a pull can write beside the running container,
  or into a dir that a later job takes
  (`Lifecycle.PullStaysApartExactlyWhen`, `StragglersMeetExactlyWhen`,
  `StragglerWritesBeside`). A broken plugin sync frees its slot the same way, and its
  late downloads can replace what the next sync has recorded
  (`PluginPool.LeftoversAreHarmlessExactlyWhen`, `LateWriteMisleads`).
- A destroy removes the config dir also when its stop failed, or when a container
  newer than its row's is live (`Lifecycle.DestroyTakesLiveDirExactlyWhen`,
  `StaleDestroyTakesDirExactlyWhen`, `JobOutcomes.FailedDestroyTakesDir`).
- A start whose row write fails removes its container and looks for a survivor. When
  both fail too, the container runs on while the row says error and still names an
  earlier one; the death of that one then sends a final push beside it
  (`Orphans.OrphanMeetsPushExactlyWhen`, `FailedCleanUpClashes`).
- When the wipe of the local profiles throws, a start from a leftover dir goes on with
  the profiles it left (`TemplateLayer.LeftoverProfilesExactlyWhen`).
- `deleteKeys` sends batches of 1000. When a later batch throws, the earlier ones
  are gone from S3 but still tracked; a file recreated with its old content is
  then skipped for good. Sound exactly for at most 1000 gone keys
  (`SyncProofs.SoundWhateverFails`, `LostTrackLosesFile`).
- A pull that throws between the template and the overlay leaves a partial dir
  without a manifest, the start goes on, and the next push overwrites the user's
  objects. Harmless exactly when the overlay overrides no template file
  (`TemplateLayer.ThrownPullKeepsOverlay`, `ThrownPullLosesOverlay`).
- A media rename trusts the server-side copy even when an earlier upload of the
  file failed, and ignores a refused delete. For a kept target, the next push
  repairs it exactly when S3 had the file's own content, or nothing, under the old
  key and does not refuse to delete a kept object there
  (`MediaSync.RenameRepairedWhen`, `RenameRepairedDespiteRefusal`,
  `StaleCopyLosesContent`, `UntrackedCopyStays`).
- A destroy acts on the row its caller read. With a stale one it deletes the row
  of a live container, and a queued die handler then pushes and removes its
  config dir (`Lifecycle.DeleteIsSafeExactlyWhen`, `StaleDestroyClashes`).
- Invalidating the instance list does not disown the fetch in flight, although
  the header of instance-cache.ts calls the cache correct, not approximate
  (`SharedFetch.InvalidateIsExact`, `StaleWriteBack`).
- A plugin sync that breaks off keeps a manifest that can mislead a later one,
  exactly when it replaced a tracked file by another of the same size
  (`PluginMirror.AlwaysExactWhenSound`, `BreakIsHarmlessWhen`,
  `BrokenSyncMisleads`).
- Why an upload is rejected depends on its chunking when two reasons compete;
  whether it is rejected never does (`MediaUpload.OutcomeIgnoresChunkingWhen`,
  `ReasonDependsOnChunking`, `CommitIgnoresChunking`).

## Model

| member | source | states |
|---|---|---|
| SyncPolicy.PlanOwnedNeverSynced | src/services/storage/obs-sync-policy.ts:51-77 | basic/profiles/, plugins/ and plugin_config/obs-websocket/ are never kept, whatever follows |
| SyncPolicy.WebsocketConfigNeverSynced | src/services/storage/obs-sync-policy.ts:63-74 | the password file of obs-websocket is regenerated, never kept |
| SyncPolicy.SyncedStaysInside | src/services/storage/obs-sync-policy.ts:51-77 | every suffix the config policy keeps lands below the config dir, so a pull never refuses a kept key |
| KeptPaths.KeptExactlyWhen | src/services/storage/obs-sync-policy.ts:51-77 | the kept config paths, by their segments: exactly the two root files, what is below plugin_manager/ and basic/scenes/ but backups and temp files, and what is below plugin_config/ but the regenerated plugins, of obs-browser its cookies and storage alone; never one with "..", NUL or an ending of -journal |
| KeptPaths.UserStateIsKept | src/services/storage/obs-sync-policy.ts:59-77 | what a user makes is kept: both root files, every clean path below basic/scenes/ that is no backup, below plugin_manager/, and of every plugin that is not regenerated |
| KeptPaths.MediaKeptExactlyWhen | src/services/storage/obs-sync-policy.ts:82-86 | a media path is kept exactly when it is not empty, has no NUL and no segment starts with a dot |
| KeptPaths.ShortPathsAreWanted | src/services/storage/obs-config/sync.ts:87-96 | a kept path of ASCII text whose key has at most 1024 characters is wanted, and no longer key is |
| SyncPolicy.CanonicalTarget | src/services/storage/obs-config/sync.ts:158-167 | a key that came from a directory walk is written back to exactly the path it came from |
| SyncPolicy.SegmentsResolve | src/services/storage/obs-config/sync.ts:158-167 | what resolving does with each segment, wherever it stands: "" and "." change nothing, ".." undoes the segment before it, and there is nothing above the root |
| SyncPolicy.TargetExactlyWhen | src/services/storage/obs-config/sync.ts:158-167 | a key suffix is written exactly to where it resolves, and only strictly below the base; every other suffix is skipped |
| ObjectStore.Bucket.DeleteKeys | src/services/storage/s3-objects.ts:104-118 | batches of 1000; if the request that is to throw is reached, the call throws after all earlier ones took effect; exactly the refused keys of the answered batches stay and are left out of the result |
| ObjectStore.Bucket.ListObjects | src/services/storage/s3-objects.ts:33-52 | every key under the prefix, each once, unless the request is one that throws |
| ObjectStore.Bucket.Copy | src/services/storage/s3-objects.ts:96-99 | a server-side copy throws exactly when the request does or the source key is missing |
| ObjectStore.AcceptedAre | src/services/storage/s3-objects.ts:115-116 | the keys reported deleted are those of the batch without an error |
| ObjectStore.ViewDelete | src/services/storage/s3-objects.ts:104-118 | deleting keys of one prefix removes exactly those suffixes and touches no other prefix |
| DirectoryWalk.ListedIs | src/services/storage/obs-config/sync.ts:32-55 | the walk lists exactly the paths that open to a real file through real directories, never through a symlink |
| DirectoryWalk.ListedOnce | src/services/storage/obs-config/sync.ts:32-55 | no path is listed twice |
| DirectoryWalk.WalkedTree | src/services/storage/obs-config/sync.ts:28-57 | as relative paths: the walked tree holds only canonical paths, and each canonical path that opens to a real file, with its stamp and content |
| DirectoryWalk.Visit | src/services/storage/obs-config/sync.ts:32-54 | the recursive visit as it runs: succeeds exactly when not blocked, and then returns the listing without the skipped paths |
| DirectoryWalk.WalkFiles | src/services/storage/obs-config/sync.ts:28-57 | a dir that is missing, or whose stat fails, is told apart from an empty one; the walk throws exactly when it meets a dir it cannot read, and otherwise lists the dir minus what it skipped |
| DirectoryWalk.CleanWalkListsAll | src/services/storage/obs-config/sync.ts:28-57 | a walk with nothing wrong lists the whole dir |
| DirectoryWalk.WalkIsExact | src/services/storage/obs-config/sync.ts:28-57 | a walk that does not throw lists exactly the real files of which neither they nor a dir on the way to them was skipped |
| DirectoryWalk.BlockedIs | src/services/storage/obs-config/sync.ts:32-41 | the visit gives up exactly when some directory below, with nothing skipped above it, cannot be read |
| DirectoryWalk.WalkThrowsExactlyWhen | src/services/storage/obs-config/sync.ts:28-57 | a dir whose stat works is given up exactly when it, or a dir the walk reaches below it, cannot be read; one whose stat fails is always taken for a missing one |
| DirectoryWalk.SurvivingTreeCanonical | src/services/storage/obs-config/sync.ts:28-57 | whatever was skipped, the walked tree holds canonical paths of real files only |
| SectionRun.RunSection | src/services/storage/obs-config/sync.ts:81-147 | walk and mirror in one: a walk that throws, or that takes the dir for a missing one, leaves S3 and manifest alone; otherwise the run is the specified one on the tree the walk found, and meets exactly the faults it was given |
| SectionRun.WalkedTreeIs | src/services/storage/obs-config/sync.ts:28-57 | the tree the engine gets: canonical paths of real files with stamp and content, every file that was not skipped among them |
| SectionRun.SavedUnlessLost | src/services/storage/obs-config/sync.ts:48-49 | of a dir that was seen: after a successful run with deletes a kept file is saved if and only if the walk did not skip it; a file whose stat failed is dropped from S3 although it is still there |
| SectionRun.SuccessMeansSavedExactlyWhen | src/services/storage/obs-config/sync.ts:28-57 | whatever S3 and the manifest held, a run without failures has saved a kept file if and only if the stat of the dir did not fail and the walk did not skip the file |
| SectionRun.FailedStatDropsObject | src/services/storage/obs-config/sync.ts:48-49 | the input that shows it: one file, saved and in sync, whose stat fails during one push |
| SyncEngine.SyncFile | src/services/storage/obs-config/sync.ts:98-120 | one file, given which read and which upload fail: skip by stamp, hash, skip by hash with a refreshed stamp, upload, or count a failure, in that order |
| SyncEngine.SyncFiles | src/services/storage/obs-config/sync.ts:98-121 | after the upload pass every wanted file has been handled by its own rule, nothing else moved, and the counters are the numbers of files per verdict |
| SyncEngine.DeleteGone | src/services/storage/obs-config/sync.ts:134-144 | the batched delete: exactly the keys that are not refused go, and only they lose their entries; a call that throws drops no entry and counts all as failed |
| SyncEngine.DropGone | src/services/storage/obs-config/sync.ts:125-144 | gone template entries leave the manifest, gone overlay keys leave S3 and then the manifest |
| SyncEngine.SyncDirectory | src/services/storage/obs-config/sync.ts:81-147 | a whole run, given what goes wrong in it, equals the path-by-path specification in mirror and statistics, and reports exactly those faults; a missing dir changes nothing; other prefixes are untouched |
| SyncProofs.KeptPathStaysSound | src/services/storage/obs-config/sync.ts:98-121 | whatever fails, a path with a kept file keeps a true entry and a true stamp |
| SyncProofs.StampsStayTrue | src/services/storage/obs-config/sync.ts:98-121 | over a run the entries of all wanted files stay true |
| SyncProofs.SoundAfterRun | src/services/storage/obs-config/sync.ts:98-144 | the manifest stays sound exactly when no delete took effect in a call that threw |
| SyncProofs.SoundWhateverFails | src/services/storage/s3-objects.ts:31-118 | a run is sound whatever S3 does if and only if at most 1000 keys are to be deleted |
| SyncProofs.LostTrackLosesFile | src/services/storage/obs-config/sync.ts:134-144 | what an unsound manifest costs: a recreated file is skipped by its old hash, the run reports success and S3 lacks it |
| SyncProofs.ChangedFilesGoOut | src/services/storage/obs-config/sync.ts:98-121 | a kept file whose size and mtime are the recorded ones is left alone; any other that can be read and uploaded has its stamp in the manifest afterwards and its content in S3, or in the template still |
| SyncProofs.NothingFailed | src/services/storage/obs-config/sync.ts:98-144 | no failures counted means no file was unreadable or rejected and every gone key was confirmed |
| SyncProofs.ExactMirror | src/services/storage/obs-config/sync.ts:81-147 | exact mirror: the manifest tracks exactly the wanted files, the kept objects are exactly the non-template ones, with local content |
| SyncProofs.OutOfSyncFalls | src/services/storage/obs-config/sync.ts:98-121 | the files out of sync after a run are those before minus exactly the uploaded ones |
| SyncProofs.GoneFalls | src/services/storage/obs-config/sync.ts:125-144 | the gone keys still tracked are those before minus exactly the confirmed ones |
| SyncProofs.ProgressIsExact | src/services/storage/obs-config/sync.ts:98-144 | convergence: what is left to do falls by exactly the successes of the run |
| SyncProofs.SuccessSettles | src/services/storage/obs-config/sync.ts:98-144 | a run without failures leaves the manifest tracking exactly the wanted files with their stamps |
| SyncProofs.SettledIsIdle | src/services/storage/obs-config/sync.ts:98-144 | a settled mirror is left alone and every file counted as skipped |
| SyncProofs.SecondRunIsIdle | src/services/storage/obs-config/sync.ts:98-144 | after a run without failures an immediate second one uploads, deletes and fails nothing |
| WorkerPool.EverySchedule | src/utils/concurrency.ts:6-24 | under every schedule each index is taken once and in order by as many workers as the limit, at least one, and the items allow; at most that many calls are in flight, and when all workers end every slot holds its own item's result |
| WorkerPool.RunKeepsInv | src/utils/concurrency.ts:14-19 | what every step of the pool keeps: no index held twice, no result lost |
| WorkerPool.AlwaysProgress | src/utils/concurrency.ts:14-23 | no worker waits on another: until all are done some step can run, and every run ends |
| UploadPool.InterleavingsAgree | src/services/storage/obs-config/sync.ts:98-121 | any interleaving of the upload tasks on the pool ends in the bucket, manifest and counters of the sequential loop |
| UploadPool.AllMovesStand | src/services/storage/obs-config/sync.ts:98-121 | at every moment of any interleaving each path stands where its own task has got to |
| Push.PrefixesApart | src/services/storage/obs-config/paths.ts:12-37 | config, media and template keys never share a prefix |
| Push.InstancesApart | src/services/storage/obs-config/paths.ts:12-37 | no key belongs to two instances or to both sections of one, and no local dir does |
| Push.TemplatesApart | src/services/storage/obs-config/paths.ts:12-14 | nor does any to two templates |
| PushHost.Host.PushObsConfig | src/services/storage/obs-config/push.ts:22-61 | one push, given what goes wrong in it: both sections synced in order, the manifest saved even when a walk throws; it may fail only for a fault it meets. With none it returns ok, every kept file of the dir is in S3 or the template's, and no tracked key without a kept file remains. A dir whose stat fails counts as missing |
| PushHost.Host.PersistAndRemoveLocalConfig | src/services/storage/obs-config/push.ts:67-89 | at most three attempts, each meeting its own faults; the first one without any is the last, has saved the dir, and only then the dir goes |
| SyncGuarantees.PushKeepsTruth | src/services/storage/obs-config/push.ts:22-61 | whatever fails, a push leaves the local files alone and the manifest true about them |
| SyncGuarantees.PushSaves | src/services/storage/obs-config/push.ts:22-61 | a push that does not throw has every kept file it saw in S3 or the template as it is on disk |
| SyncGuarantees.PushMeansIt | src/services/storage/obs-config/push.ts:22-61 | path by path, whatever goes wrong: each kept file whose read and upload work is in S3 or the template's, each gone key whose delete works is gone, and the push fails only for a fault it meets |
| SyncGuarantees.CleanPush | src/services/storage/obs-config/push.ts:22-61 | with nothing going wrong the whole dir is saved and no gone key is left |
| SyncGuarantees.PushSavesAllExactlyWhen | src/services/storage/obs-config/paths.ts:39-44 | it has saved the whole dir if and only if the part whose stat failed had been saved before: always, when no stat failed |
| SyncGuarantees.UnseenDirIsLost | src/services/storage/obs-config/push.ts:23-26 | what a failed stat can cost: a dir not yet in S3, one final push that counts as done, the dir removed, and no completed pull has its files again |
| SyncGuarantees.PersistSavesOrKeeps | src/services/storage/obs-config/push.ts:67-89 | the final push keeps every local file or has saved all that its successful attempt saw, which is the whole dir when no stat failed |
| SyncGuarantees.NoLoss | src/services/storage/obs-config/push.ts:67-89 | no loss: for any failures over the attempts, the dir stays as it was or every completed pull with the same template restores every kept file the successful attempt saw, which is the whole dir when no stat failed |
| SyncGuarantees.LeftoverComesBack | src/services/storage/obs-config/pull.ts:37-57 | every kept file that the push of a leftover dir saw comes back from the pull that follows its removal |
| SyncGuarantees.OverlookedLeftover | src/services/storage/obs-config/pull.ts:37-95 | a leftover dir whose stat failed is pulled over: each of its files is still what it was if and only if neither overlay nor template has other content for its path |
| PullHost.DownloadPrefix | src/services/storage/obs-config/sync.ts:158-179 | suffixes that leave the dir are skipped, what the filter keeps is recorded; every object arrives unless a fetch throws, and then all but those that throw or are given up |
| DownloadPool.EveryMoment | src/services/storage/obs-config/sync.ts:158-179 | at every moment of any interleaving of the download tasks, also after one threw, the dir is what a sequential download of the files in place leaves |
| DownloadPool.InterleavingsAgree | src/services/storage/obs-config/sync.ts:158-179 | a download that ends without a throw leaves the files and entries of the sequential one |
| PullHost.SplitByPolicy | src/services/storage/obs-config/sync.ts:195-200 | keep and junk are exactly the keys the filter accepts and refuses |
| PullHost.PullSection | src/services/storage/obs-config/pull.ts:85-96 | given what goes wrong: every kept key of a prefix is downloaded unless its listing or a fetch throws; then exactly the unkept ones are pruned whose delete works, a failed prune being ignored |
| PullHost.PullTemplate | src/services/storage/obs-config/pull.ts:63-76 | the base layer is the whole template but its plugin binaries; it throws exactly when its listing or one of its fetches does |
| PullHost.ApplyTemplateProfile | src/services/storage/obs-config/pull.ts:15-26 | the local profiles are wiped first and then replaced by the template's, all that can be fetched; a wipe that throws leaves some of them and fetches nothing |
| PullHost.ClearLeftover | src/services/storage/obs-config/pull.ts:37-57 | a leftover dir is pushed and removed, which fails only for a fault of that push or of the rm, or else kept with the template's profiles |
| PullHost.Restore | src/services/storage/obs-config/pull.ts:59-105 | past the leftover, or over one that was not seen: template, overlay, media, manifest; it throws exactly when a listing or a fetch of theirs does, leaving what had arrived and no new manifest |
| PullHost.PullObsConfig | src/services/storage/obs-config/pull.ts:33-105 | the three outcomes of a pull, each exactly when what goes wrong calls for it, and the exact world each leaves; a completed one from no dir leaves every path what the layers say, and prunes every unkept key whose delete works |
| PullHost.PulledMeansIt | src/services/storage/obs-config/pull.ts:59-105 | path by path: a pull that no listing and no fetch breaks leaves the overlay over the template and the kept media, keeps every kept key in S3 and, if the prunes work, no other |
| PullHost.PruneKeys | src/services/storage/obs-config/sync.ts:185-193 | exactly the unkept keys whose delete works leave S3 |
| Pull.DownloadedAt | src/services/storage/obs-config/sync.ts:158-179 | where every path stands after a download: the newest object of that suffix, or as before |
| SyncGuarantees.ConfigPathPulled | src/services/storage/obs-config/pull.ts:63-96 | layering: each config path has the overlay's content over the template's, and an entry saying which |
| SyncGuarantees.MediaPathPulled | src/services/storage/obs-config/pull.ts:110-127 | media has no template layer: exactly the kept objects, each with an entry |
| SyncGuarantees.PullRestoresSaved | src/services/storage/obs-config/pull.ts:59-105 | a completed pull brings back whatever was saved |
| SyncGuarantees.PullSeedsConfig | src/services/storage/obs-config/pull.ts:71-95 | the seeded config manifest is sound, complete and true to the stamps on disk |
| SyncGuarantees.PullSeedsMedia | src/services/storage/obs-config/pull.ts:120-125 | the seeded media manifest is sound, complete and true to the stamps on disk |
| SyncGuarantees.PushAfterPullIsIdle | src/services/storage/obs-config/pull.ts:59-105 | a push right after a completed pull uploads, deletes and fails nothing |
| TemplateLayer.EditedGoesToS3 | src/services/storage/obs-config/sync.ts:98-121 | a handled file stays out of S3 exactly when it still is the template's |
| TemplateLayer.OverlayAfterPush | src/services/storage/obs-config/sync.ts:81-147 | after a successful push that saw the config dir the overlay has a kept path exactly when the file left the template |
| TemplateLayer.NextPullFollows | src/services/storage/obs-config/pull.ts:59-105 | on the next start a kept path has the user's content if the user made it their own, and otherwise what the template says by then |
| TemplateLayer.EditedFilesStay | src/services/storage/obs-config/pull.ts:59-105 | from pull to pull: a file is the user's own exactly when the overlay had it or its content is no longer the template's |
| TemplateLayer.PushOnlyShrinksUnkept | src/services/storage/obs-config/sync.ts:87-144 | a push adds or changes no key the policy does not keep |
| TemplateLayer.ProfilesAreTheTemplates | src/services/storage/obs-config/pull.ts:63-95 | after a completed pull basic/profiles is exactly the template's |
| TemplateLayer.LeftoverProfiles | src/services/storage/obs-config/pull.ts:47-54 | on the leftover branch whatever is below basic/profiles came from the template or was left by a wipe that threw, and nothing else changed |
| TemplateLayer.LeftoverProfilesExactlyWhen | src/services/storage/obs-config/pull.ts:15-26 | the instance starts with none but the template's profiles if and only if the wipe left no other |
| TemplateLayer.ThrownProfiles | src/services/storage/obs-config/pull.ts:59-90 | even a pull that throws leaves only the template's below basic/profiles |
| TemplateLayer.PushWithoutManifest | src/services/storage/obs-config/manifest.ts:38-48 | without a manifest every kept file is uploaded as it is and nothing is deleted |
| TemplateLayer.ThrownPullKeepsOverlay | src/services/storage/obs-config/pull.ts:59-104 | wherever a pull may throw, the saved overlay survives every successful push that follows, if and only if the overlay overrides no file of the template |
| TemplateLayer.ArrivedTreeKeepsOverlay | src/services/storage/obs-config/pull.ts:59-104 | for one partial tree: it survives exactly when the push does not see the config dir or no file that arrived differs from the overlay object of its key |
| TemplateLayer.ThrownPullLosesOverlay | src/services/instances/instance-lifecycle.ts:100-106 | the loss: the start goes on, and the next push replaces the user's object by the template's content |
| MediaSync.PushObsMediaFile | src/services/storage/obs-config/media-sync.ts:18-29 | an unkept path is left alone; otherwise upload, then track, failing exactly when the upload does |
| MediaSync.MoveObsMediaFile | src/services/storage/obs-config/media-sync.ts:35-52 | copy or upload, delete the old key ignoring a refusal, then drop the old entry and track the new one; a throw leaves the manifest; it fails only for a request that does |
| MediaSync.DeleteObsMediaFile | src/services/storage/obs-config/media-sync.ts:57-68 | the entry is dropped exactly when S3 confirmed; a refusal or a failing request throws |
| MediaSync.CommitUpload | src/services/storage/media.ts:190-205 | an upload's file is in place whether or not its push worked |
| MediaSync.RenameFile | src/services/storage/media.ts:221-251 | a target that is no media name, a missing source or a taken target refuses, in that order, before anything changes; otherwise file, bucket and manifest follow the rename, whose S3 side is best effort; template, overlay and config stay |
| MediaSync.DeleteFile | src/services/storage/media.ts:254-279 | a missing file refuses; otherwise file, bucket and manifest follow the delete, whose S3 side is best effort; template, overlay and config stay |
| MediaSync.OpKeepsSound | src/services/storage/obs-config/media-sync.ts:18-68 | every media operation, failing anywhere, keeps the media manifest sound |
| MediaSync.OpKeepsStamps | src/services/storage/obs-config/media-sync.ts:35-52 | the recorded stamps stay true exactly when a rename copied the file's own content |
| MediaSync.InSyncIsFaithful | src/services/storage/obs-config/media-sync.ts:39-41 | a rename of a file that was in sync with S3 copies its own content |
| MediaSync.OpKeepsAccounted | src/services/storage/obs-config/media-sync.ts:35-68 | every kept object stays tracked or present exactly when the operation orphaned no key |
| MediaSync.OnlyRefusalsOrphan | src/services/storage/obs-config/media-sync.ts:45-48 | from a fully tracked prefix only a rename whose delete S3 refused leaves an orphan |
| MediaSync.FullPushMirrors | src/services/storage/obs-config/sync.ts:125-144 | a successful full push makes the kept media objects the kept media files, content for content |
| MediaSync.RepairedByNextPush | src/services/storage/obs-config/media-sync.ts:31-34 | media repair: one operation failing at any S3 step, then one successful full push, gives the exact mirror if and only if a trusted copy was the file's own content and no delete of a kept key was refused |
| MediaSync.RenameRepairedWhen | src/services/storage/obs-config/media-sync.ts:31-52 | seen before the call: whatever a rename's requests do short of a refused delete, the next successful push repairs it if and only if S3 lacks the old key, holds the file's own content under it, or need not keep the new one |
| MediaSync.RenameRepairedDespiteRefusal | src/services/storage/obs-config/media-sync.ts:45-48 | with refusals possible too: if and only if, besides, S3 has no kept object under the old key |
| MediaSync.RunRepairedByNextPush | src/services/storage/obs-config/media-sync.ts:18-68 | the same for any number of operations in a row |
| MediaSync.SuccessLeavesNothingPending | src/services/storage/obs-config/media-sync.ts:18-68 | when every request worked the manifest followed and a full push has nothing left to do |
| MediaSync.StaleCopyLosesContent | src/services/storage/obs-config/media-sync.ts:39-49 | the input that fails: an upload missed S3, the rename copies the old object and records the new stamp, and S3 keeps the old content for good |
| MediaSync.UntrackedCopyStays | src/services/storage/obs-config/media-sync.ts:35-68 | two failures in a row leave an object no push removes |
| SyncRuns.StepKeepsTrue | src/services/storage/obs-config/sync.ts:98-144 | every push, final push, pull outcome, edit and media operation keeps the manifest sound, the stamps true and all keys walk-shaped |
| SyncRuns.HistoryKeepsTrue | src/services/storage/obs-config/manifest.ts:15-22 | manifest soundness after any history of any length |
| SyncRuns.HistoryNeverLoses | src/services/storage/obs-config/push.ts:67-89 | no loss at the end of any history: the dir stays or every kept file the final push saw comes back, which is the whole dir when no stat failed |
| SyncRuns.StepKeepsTracked | src/services/storage/obs-config/sync.ts:98-144 | only a pull that throws or a rename whose delete did not go through can leave an untracked key |
| SyncRuns.HistoryKeepsTracked | src/services/storage/obs-config/sync.ts:98-144 | so over all other histories every kept key stays tracked |
| SyncRuns.HistoryEndsInMirror | src/services/storage/obs-config/push.ts:22-61 | wherever such a history leads, a successful push that sees the dirs makes S3 the exact image of them |
| SyncRuns.HistoryLayersBack | src/services/storage/obs-config/pull.ts:59-105 | and the next completed pull layers it back over the template of that moment |
| SyncRuns.FinalPushKeepsShape | src/services/storage/obs-config/push.ts:67-89 | every key the pushes leave under the kept paths has the shape of a walked path |
| SyncRuns.OneHistory | src/services/storage/obs-config/push.ts:22-61 | such histories exist: a first start, an edit and a push, with everything granted and the edited file in S3 |
| SyncRuns.UnkeptOnlyShrinks | src/services/storage/obs-config/pull.ts:81-96 | over any history, with any failures, no unkept key is ever added to or changed in the overlay |
| SyncRuns.PlanOwnedOnlyShrinks | src/services/storage/obs-sync-policy.ts:51-77 | in particular no profile, plugin binary or obs-websocket key |
| PromiseChain.EverySchedule | src/utils/instance-lock.ts:8-32 | mutual exclusion and call order per key under every schedule; the table has a key while any call of it is unsettled |
| PromiseChain.StepKeepsInv | src/utils/instance-lock.ts:8-24 | what each microtask of the chain keeps, for the lock and, read with obs-command.ts:47-59, for the command queue |
| PromiseChain.TableIsExact | src/utils/instance-lock.ts:18-21 | the table holds exactly the keys whose newest tail has not been cleaned up |
| PromiseChain.NobodyIsStuck | src/utils/instance-lock.ts:12-17 | a rejected task blocks nobody: the first unsettled call of a key can always move |
| PromiseChain.ChainIsQueue | src/services/obs/obs-command.ts:47-59 | seen from one key the chain is a first-in first-out queue: join at the end, only the head runs, settling hands over |
| PromiseChain.UnlockedStartsAtOnce | src/utils/instance-lock.ts:30-32 | a call for a key that is not in the table starts at once |
| PromiseChain.LockTable.WithLock | src/utils/instance-lock.ts:9-18 | a call hangs behind the newest tail and becomes it |
| PromiseChain.LockTable.WithLockIfFree | src/services/storage/config-autosave.ts:31-35 | autosave takes the lock only of a key nobody holds, and then starts at once; a locked key is left alone |
| PromiseChain.LockTable.TailCleanup | src/services/obs/obs-command.ts:55-57 | the cleanup drops the key only if its tail is still the newest |
| Lifecycle.StepKeepsInv | src/services/instances/instance-lifecycle.ts:68-162 | every step of start, stop, destroy, die handling and autosave: a live container is the row's, or being brought up, unless the row is gone or a failed start left the container behind; whatever needs quiet has it |
| Lifecycle.RunKeepsInv | src/services/instances/instance-lifecycle.ts:49-162 | the same over every interleaving |
| Lifecycle.EveryInterleaving | src/services/instances/stop-instance.ts:18-43 | a stop's final push, and a start's pull until it settles, never run beside a live container; nor does the die handler's final push unless a row delete abandoned one or a failed start left one behind |
| Lifecycle.PullsStayApart | src/utils/concurrency.ts:14-23 | as long as no pull throws with downloads under way, no download ever writes beside a live container or a job that takes the dir |
| Lifecycle.StragglersMeetExactlyWhen | src/utils/concurrency.ts:14-23 | in some continuation a left-over download meets a live container, and one meets a job that takes the dir, if and only if there is a left-over download now: nothing waits for it |
| Lifecycle.PullStaysApartExactlyWhen | src/services/instances/instance-lifecycle.ts:100-113 | as a pull settles: its downloads stay apart from containers and from later takers in every continuation if and only if it leaves none under way and no earlier pull has |
| Lifecycle.StragglerWritesBeside | src/services/instances/instance-lifecycle.ts:100-126 | a run that gets there: the pull throws, the start goes on, the download writes beside the running container and, after a stop, into the dir its final push has dealt with |
| Lifecycle.LiveDirIsItsOwn | src/services/instances/instance-lifecycle.ts:97-134 | the dir of a live container is the one its own start pulled, unless a destroy removed it since, and always when each destroy has stopped what is live; a stop writes its row only after its final push |
| Lifecycle.DestroyTakesLiveDirExactlyWhen | src/services/instances/destroy-instance.ts:18-29 | at its stop: a destroy removes the dir under a live container in some continuation if and only if a container is live that the stop does not halt |
| Lifecycle.StaleDestroyTakesDirExactlyWhen | src/services/instances/destroy-instance.ts:11-29 | as its turn comes: a destroy whose stop works can do so if and only if a container other than its snapshot's is live |
| Lifecycle.FreshStopsKeepDir | src/services/instances/destroy-instance.ts:11-29 | when each destroy sees the row as it is, its stop works and failed starts clean up, no dir is ever removed under a live container |
| JobOutcomes.FailedDestroyTakesDir | src/services/instances/destroy-instance.ts:18-44 | a run that gets there with row and container untouched: stop, remove and row delete fail, the rm of the dir works |
| Lifecycle.FreshRunsNeverClash | src/services/instances/destroy-instance.ts:11-46 | when each destroy sees the row as it is, its remove works and failed starts clean up, no final push and no pull ever runs beside a live container |
| Lifecycle.DeleteIsSafeExactlyWhen | src/services/instances/destroy-instance.ts:44 | deleting the row lets a final push run beside a live container, though no other is left behind later, exactly when one is live and a die handler is on its way |
| Lifecycle.StaleDestroyClashes | src/services/docker/event-listener.ts:145-152 | a run that gets there: crash, queued start, destroy that read the nulled row, then the die handler |
| Lifecycle.StopIsFinal | src/services/docker/event-listener.ts:106-116 | a completed stop leaves the row stopped without a container, and its container's die event changes nothing at any later time |
| Lifecycle.NoDieWriteDuringStop | src/services/instances/stop-instance.ts:20-41 | between halting its container and writing the row, a stop is invisible to the die handler |
| Lifecycle.SafeForever | src/services/instances/destroy-instance.ts:44 | without a row no new die handler gets to the dir: with none on its way, or none left behind and none to be, no final push meets a live container |
| Lifecycle.MarkedExactlyWhile | src/services/instances/stop-instance.ts:16-42 | over every run a container is marked as stopped by the API exactly while the job at work is a stop or destroy of it between its mark and its clear |
| Lifecycle.DeathIsHandled | src/services/docker/event-listener.ts:106-152 | so the death of a container that no such job holds can always be handled; if it is the row's, that nulls the row and queues the save |
| Lifecycle.CrashIsPushed | src/services/docker/event-listener.ts:106-152 | from every reachable quiet state a crash of the row's container ends with the row saying error and its dir pushed |
| JobOutcomes.StartEnds | src/services/instances/instance-lifecycle.ts:68-162 | how a start with nothing live ends, for every way its calls can turn out: refused with all as it was; over after the pull; a new container live and in the row; or given up, the container removed, adopted if that fails and it is found, or the row saying error |
| JobOutcomes.StartAdopts | src/services/instances/instance-lifecycle.ts:58-74 | a start that finds a live container adopts it: the row names it if the look and the write work, and nothing else changes |
| JobOutcomes.StopEnds | src/services/instances/stop-instance.ts:16-43 | how a stop ends: nothing but the mark, which is gone, if the container cannot be stopped; else the dir taken, the container removed and the row stopped as far as those calls work |
| JobOutcomes.DestroyEnds | src/services/instances/destroy-instance.ts:11-46 | how a destroy ends: each of its parts done if its own call works, whatever the others do |
| JobOutcomes.SaveEnds | src/services/docker/event-listener.ts:145-152 | a die handler's save takes the dir exactly when its look at the row works and the row names no container |
| JobOutcomes.RowTellsTruth | src/services/instances/instance-lifecycle.ts:58-66 | over every interleaving: a row that names a live container says running, one that says stopped names none, and a container a row names is live or its death is there to be handled |
| Orphans.OrphanMeetsPushExactlyWhen | src/services/instances/instance-lifecycle.ts:136-160 | a container that a failed start could not remove, find or enter in the row can meet a final push, though no other is left behind, if and only if a die handler is on its way or the row still names an earlier container |
| Orphans.FailedCleanUpClashes | src/services/instances/instance-lifecycle.ts:136-160 | a run that gets there, with no destroy in it: a crash, a start whose row write, removal and look all fail, and the crash handled only then |
| SecretsCache.StepKeepsInv | src/services/cache/instance-secrets-cache.ts:18-46 | every entry holds the very answer of a request begun since the last forget; every such request is the shared one until it is over |
| SecretsCache.OneSharedRequest | src/services/cache/instance-secrets-cache.ts:23-39 | two live requests of one key mean a forget between them |
| SecretsCache.ForgetIsFinal | src/services/cache/instance-secrets-cache.ts:28-46 | after a forget nothing a request begun earlier returned is ever cached or joined, even with a newer one in flight |
| SecretsCache.HitsAreFresh | src/services/cache/instance-secrets-cache.ts:19-21 | a hit is exactly what a request of that key begun since the last forget returned, stored less than the time to live ago |
| SecretsCache.FailureRetries | src/services/cache/instance-secrets-cache.ts:35-38 | failures are not cached: the next call sends a new request |
| SecretsCache.AnsweredIsServed | src/services/cache/instance-secrets-cache.ts:18-33 | once its shared request is answered, and until a forget of the key or the time to live, the next call for it is served that answer from memory and sends nothing |
| SecretsCache.Cache.GetInstanceSecrets | src/services/cache/instance-secrets-cache.ts:18-40 | a fresh hit, or the one shared request |
| SecretsCache.Cache.Store | src/services/cache/instance-secrets-cache.ts:28-33 | a result is stored, with the time, exactly by the request that still is the shared one |
| SecretsCache.Cache.Release | src/services/cache/instance-secrets-cache.ts:35-37 | the finally frees the slot only if it is its own |
| SecretsCache.Cache.ForgetInstanceSecrets | src/services/cache/instance-secrets-cache.ts:43-46 | forgetting drops the entry and disowns the request in flight |
| SharedFetch.OneLiveFetch | src/services/cache/instance-cache.ts:43-62 | however many callers, at most one fetch is live |
| SharedFetch.RefreshIsLive | src/services/cache/node-cache.ts:116-118 | over any run: memory never answers a refresh, and the fetch it joins is still without its response exactly when the last response's microtasks have all run |
| SharedFetch.RefreshIsAnsweredLater | src/services/cache/node-cache.ts:116-118 | so, called then, a refresh gets an answer that arrived after the call, whatever happens in between |
| SharedFetch.InvalidateIsExact | src/services/cache/instance-cache.ts:115-119 | after an invalidation every later answer comes from a fetch begun after it exactly when no fetch that can still succeed was in flight |
| SharedFetch.StaleWriteBack | src/services/cache/instance-cache.ts:49-61 | the write-back that breaks it, served for a whole time to live |
| SharedFetch.ServedIsRecent | src/services/cache/node-cache.ts:86-90 | over any run: what memory serves is the value returned by the newest fetch that was ever answered, younger than the time to live or covered by the pause after a later failure |
| SharedFetch.FailurePauses | src/services/cache/node-cache.ts:92-101 | after a failed refresh over a warm cache, any run of readers within the pause sends nothing and serves each of them |
| SharedFetch.FailedReaderPauses | src/services/cache/node-cache.ts:92-101 | from the failure on: once a fetch has failed a reader over a warm cache, readers within the pause are served and nothing is sent |
| SharedFetch.StoredIsServed | src/services/cache/node-cache.ts:51-90 | from the answer on: readers within the time to live are served the value stored and nothing is sent |
| SharedFetch.ColdFailureRetries | src/services/cache/node-cache.ts:98-101 | over a cold cache the reader after a failure sends a new fetch at once |
| SharedFetch.Cache.GetCached | src/services/cache/instance-cache.ts:81-97 | serve from memory or wait for the shared fetch |
| SharedFetch.Cache.AfterFailure | src/services/cache/instance-cache.ts:89-96 | a failed reader gets what is cached, or the error |
| SharedFetch.Cache.StoreResult | src/services/cache/node-cache.ts:51-56 | the then of a fetch stores the value and ends the failure pause |
| SharedFetch.Cache.ReleaseSlot | src/services/cache/instance-cache.ts:56-59 | the finally of a fetch frees the slot |
| SharedFetch.Cache.InvalidateList | src/services/cache/instance-cache.ts:115-119 | the list is dropped, the fetch in flight is not |
| Cpuset.ParseCpuset | src/utils/cpuset.ts:10-28 | the loop computes the cores of the list, all of them cores the node has |
| Cpuset.WalkRange | src/utils/cpuset.ts:23-25 | the inner loop pushes exactly the cores of the range that the node has |
| Cpuset.RoundTrip | src/utils/cpuset.ts:10-28 | reading a printed core list gives the list back |
| Cpuset.ListReads | src/utils/cpuset.ts:10-28 | a list of cores and ranges with spaces around them reads as the cores it names below the node's count, each range from its first to its last |
| Cpuset.EmptyBoundIsNothing | src/utils/cpuset.ts:15-19 | a part with an empty bound names no core |
| Cpuset.PickedCores | src/utils/cpuset.ts:34-41 | distinct cores in ascending order, as many as wanted or there are, none used more than a core left out, and of two used alike the lower one |
| Cpuset.MinimalTotal | src/utils/cpuset.ts:30-41 | of all sets of that many cores the chosen one has minimal total usage |
| Cpuset.NextUsage | src/clients/docker.ts:113-121 | one more container changes the usage by exactly the cores it is pinned to, as read back from its printed list |
| Cpuset.AllocationsBalance | src/clients/docker.ts:95-123 | any sequence of allocations from an idle node keeps every two cores within one of each other, and the usages add up to the cores handed out |
| Cpuset.AllocateCpuset | src/clients/docker.ts:95-130 | the allocator as it runs: a container is pinned exactly when the node can be read and its quota, rounded up, is at least one core and less than all |
| Cpuset.CeilIs | src/clients/docker.ts:96 | the wanted number of cores is the least that covers the quota |
| Cpuset.CountCores | src/clients/docker.ts:113-119 | the usage array counts each core once per container pinned to it |
| RateLimit.KeyedRateLimiter.Allow | src/utils/rate-limit.ts:36-48 | admits exactly when fewer than limit calls of the key were admitted in the last window |
| RateLimit.SlidingBound | src/utils/rate-limit.ts:36-48 | so no stretch shorter than the window holds more than limit |
| RateLimit.RefusedOnlyWhenFull | src/utils/rate-limit.ts:36-48 | and a call is refused only when limit calls were admitted less than a window before it |
| RateLimit.MessageRateLimiter.Allow | src/utils/rate-limit.ts:13-21 | the fixed window: a call is counted in the window it falls into |
| RateLimit.FixedBound | src/utils/rate-limit.ts:13-21 | no stretch shorter than the window holds more than 2 * limit - 1 admitted messages |
| RateLimit.FixedBoundIsReached | src/utils/rate-limit.ts:13-21 | for every limit and window the limiter's own behaviour reaches that bound within a millisecond |
| RateLimit.FixedRefusesOnlyWhenFull | src/utils/rate-limit.ts:13-21 | and it, too, refuses only when limit messages were admitted less than a window before |
| OutputStats.OutputStatsRecorder.RecordEvent | src/services/obs/output-stats.ts:154-177 | one event folded into the window, which is closed when the event comes an interval or more after its first one; the points written are exactly those of the closed windows |
| OutputStats.OutputStatsRecorder.FlushWindow | src/services/obs/output-stats.ts:180-185 | exactly the open window's point is appended, if it has one, and the window starts over |
| OutputStats.PointReportsReconnects | src/services/obs/output-stats.ts:119-136 | a discarded point never hides a reconnect |
| OutputStats.ReconnectsConserved | src/services/obs/output-stats.ts:154-185 | the reconnects reported by the written points plus those of the open window equal the false-to-true edges of the whole stream |
| OutputStats.WrittenReport | src/services/obs/output-stats.ts:119-136 | the points written report every reconnect the closed windows counted, although some windows have no point |
| OutputStats.WindowsPartitionEvents | src/services/obs/output-stats.ts:154-185 | every event is in exactly one window, in order, and each window's extremes are those of its active samples |
| OutputStats.PointCarriesExtremes | src/services/obs/output-stats.ts:97-117 | the point of a window that ends active carries its true extremes |
| OutputStats.WindowsCloseOnTime | src/services/obs/output-stats.ts:154-185 | by the times of the events: an open window spans less than the interval, and one closed by an event spans at least that, but less up to the event before |
| OutputStats.PointFieldsAre | src/services/obs/output-stats.ts:70-137 | a point has exactly the fields its window has readings for, each under its own name |
| OutputStats.TruncIs | src/services/obs/output-stats.ts:84-89 | an integer reading loses its fraction, toward zero |
| MediaTypes.ScanText | src/utils/media-types.ts:16-22 | the character scan finds exactly a signature at its place |
| MediaTypes.ScanBytes | src/utils/media-types.ts:24-30 | the byte scan finds exactly a signature at its place |
| MediaTypes.HeadDecides | src/utils/media-types.ts:13-106 | the 16 sniffed bytes decide what the whole file would |
| MediaTypes.AllowedAre | src/utils/media-types.ts:55-96 | the extensions an upload may have, all of them |
| MediaTypes.ExtensionIs | src/utils/media-types.ts:88-92 | the extension is what follows the last dot, lowered, unless the dot comes first or last |
| MediaTypes.CodeIs | src/utils/media-types.ts:16-22 | a signature's characters are its bytes |
| MediaTypes.ImagesAre | src/utils/media-types.ts:56-62 | which format each image extension stands for |
| MediaTypes.VideosAre | src/utils/media-types.ts:63-68 | the same for video |
| MediaTypes.SoundsAre | src/utils/media-types.ts:69-77 | the same for sound |
| MediaTypes.FontsAre | src/utils/media-types.ts:78-82 | the same for fonts |
| MediaTypes.LooksAre | src/utils/media-types.ts:36-51 | the bytes each format has, and where, masks included |
| MediaUpload.CommitIgnoresChunking | src/services/storage/media.ts:168-190 | whether an upload is committed depends on its bytes alone: exactly when they fit cap and quota and look like their extension |
| MediaUpload.OutcomeIgnoresChunkingWhen | src/services/storage/media.ts:168-190 | the whole outcome, reason included, depends on the bytes alone if and only if no two reasons compete, a condition on type, size, cap and quota |
| MediaUpload.ReasonDependsOnChunking | src/services/storage/media.ts:174-184 | an input where they compete: 18 bytes below a 1 MiB quota, the same 20 bytes fail for two reasons |
| MediaUpload.ReadIs | src/services/storage/media.ts:170-186 | where the read loop stands after any chunks |
| MediaUpload.CommitReplacesOnly | src/services/storage/media.ts:119-122 | what a commit leaves: the new file under its path and every other file as it was |
| MediaUpload.MediaDir.GatherHead | src/services/storage/media.ts:152-161 | the head gathered from the kept chunks is the head of the stream |
| MediaUpload.MediaDir.Receive | src/services/storage/media.ts:168-186 | the read loop: until the stream ends, a chunk stops it or the host breaks, whichever comes first, with the temp file holding the body |
| MediaUpload.MediaDir.UploadFile | src/services/storage/media.ts:102-197 | the exact answer of every upload, given where the host breaks: a declared size over 2 GiB or the quota refuses in that order; without a break it commits exactly bodies of at most 2 GiB that fit the quota beside the other files and match their type; a commit stores exactly the body, anything else leaves the dir as it was; no temp file either way |
| PluginMirror.MirrorIsExact | src/services/storage/plugins.ts:68-135 | one listing: the completed sync leaves exactly the bucket's plugins if and only if every file it kept unread was the bucket's |
| PluginMirror.AlwaysExactWhenSound | src/services/storage/plugins.ts:104-128 | with nothing left of an earlier sync, every completed sync, whatever the bucket holds, is exact if and only if each manifest entry whose file has the recorded size has the recorded content |
| PluginMirror.BreakIsHarmlessWhen | src/services/storage/plugins.ts:104-128 | a sync that breaks off keeps that if and only if no object it got to replaced an entry's file by other content of the same size |
| PluginMirror.SoundSyncIsExact | src/services/storage/plugins.ts:104-128 | from a sound manifest, and with nothing left of an earlier sync, every completed sync is exact and leaves a sound one |
| PluginMirror.BrokenSyncMisleads | src/services/storage/plugins.ts:104-128 | a sync that broke off midway can make a later completed one keep the wrong file |
| PluginMirror.PluginDir.ListPlugins | src/services/storage/plugins.ts:71-74 | exactly the keys below plugins/ that do not end in a slash and have no NUL, unless the listing throws |
| PluginMirror.RemotePluginsAre | src/services/storage/plugins.ts:71-74 | the bucket's plugins: every object below plugins/ but folder placeholders |
| PluginMirror.PluginDir.SyncPlugins | src/services/storage/plugins.ts:68-135 | the sync as it runs: it completes unless its listing throws or a download does of a plugin that is not on disk with the recorded ETag and size, so one of an unchanged bucket needs no download; from a sound manifest it then leaves exactly the bucket's plugins; broken off it keeps the old manifest |
| PluginPool.EveryMoment | src/services/storage/plugins.ts:104-126 | at every moment of any interleaving of the calls, also after one threw, the dir is that of a sync broken off after some subset of the objects |
| PluginPool.InterleavingsAgree | src/services/storage/plugins.ts:104-128 | a sync that ends without a throw, undisturbed by an earlier one, leaves the files and manifest of the sequential one |
| PluginPool.LeftoversAreHarmlessExactlyWhen | src/services/storage/plugins.ts:30-38 | beside the calls a broken sync has left, every interleaving of the next sync ends exact if and only if the manifest vouches for no file wrongly, each download under way holds what the bucket holds, and each call to come holds that or will skip |
| PluginPool.AlwaysExactExactlyWhen | src/services/storage/plugins.ts:30-38 | whatever the bucket holds by then: if and only if the manifest is sound and nothing is left of a broken sync |
| PluginPool.LateWriteMisleads | src/services/storage/plugins.ts:30-38 | what such a call can cost: it replaces a recorded file by other content of its size, and the sync after that still keeps the wrong file |
| PluginMirror.PluginDir.RemoveStale | src/services/storage/plugins.ts:92-100 | local files the bucket no longer has are deleted |
| PluginMirror.PluginDir.FetchPlugin | src/services/storage/plugins.ts:104-126 | one object: kept by ETag and size, or downloaded; it fails exactly when a needed download does |

## Left out

- The pool, the lock, the lifecycle and the caches run between awaits, so they are step functions on values driven by arbitrary step sequences; the two cache modules and the lock table also appear as classes whose methods are those steps. Start, stop and destroy have no class of their own.
- Lifecycle.StopIsFinal: does not claim the row keeps the status forever, since a later start or an unrelated operation may rightly change it.
- SharedFetch.RefreshIsLive: the shared promise settles one microtask after the value is stored, so a refresh called in that gap joins a fetch whose response has arrived; that is the exact exception.
- WorkerPool.EverySchedule: does not say what a rejected call leaves running, since uploads catch every rejection; for downloads and plugins DownloadPool.EveryMoment and PluginPool.EveryMoment say what is in place meanwhile.
- PullHost.DownloadPrefix: keys of one listing that resolve to the same path, which no walk produces, are ordered by the listing; DownloadPool excludes them.
- Lifecycle.StragglersMeetExactlyWhen: says when a left-over download meets a container or a push; which contents then reach S3 is not followed, as Push and SyncRuns take the dir as it stands.
- Lifecycle.LiveDirIsItsOwn: a removal of the dir is all or nothing, and a left-over download that creates files in a removed dir is recorded as a write, not as a new dir.
- ObjectStore.Bucket.ListObjects: pages of a listing are one listing; multipart uploads are one put.
- createInstance pulls and starts without the lock, and reconcileContainers writes statuses at boot: neither is an actor of the lifecycle.
- gpu-xserver recovery and plan sweeps only request starts and stops, which the lifecycle allows at any time.
- SectionRun.RunSection: the walks of Push and SyncRuns overlook a whole dir, skip nothing, or throw; SectionRun.SavedUnlessLost says what a skipped file costs.
- MediaSync.RepairedByNextPush: the full push is one that sees the media dir, as in the other theorems of MediaSync.
- MediaSync.RenameFile: a directory at the target, which the route also refuses, is not in the tree.
- A manager crash in the middle of a push and a live OBS changing files between hashing and uploading; autosave is one push with deletes off.
- Files and directories of the same name on disk and in S3, file modes and ownership, and symlinks planted between two checks.
- A manifest file that cannot be parsed is one that is missing; keys such as `__proto__` that a plain object treats specially.
- The stats.bytes counter and all logging and broadcasting.
- PluginPool.LeftoversAreHarmlessExactlyWhen: the next sync begins past its removal of stale files; what a late download writes before that is part of the dir it starts from. That callers join a sync in flight is the slot of SharedFetch. Pruning empty plugin dirs and directory collisions are not modelled.
- Bucket and template prefixes come from fixed names instead of the environment variables.
- Cpuset.ParseCpuset: the host's string-to-number conversion is a parameter that reads plain decimals; only ASCII spaces are trimmed. Concurrent allocations by two instances are not claimed to balance.
- OutputStats.OutputStatsRecorder.RecordEvent: numbers are reals, and a field of the wrong type is a missing one.
- MediaUpload.MediaDir.UploadFile: path resolution and chown are left to the host; only ASCII letters are lowered in an extension.
- The remove-everything part of a destroy in S3, stream-key and password injection, and the obs-websocket traffic itself.
- Tickets (ws-tickets.ts) are random tokens in one map; single use is the delete before the checks, all in the body of consumeTicket. A viewer session lives while a socket is open and some minutes longer, a comparison of two times in isLive.
- The scene listener keeps one reconnecting connection per container and repeats scene changes to the platform; only the recorder it feeds keeps counts, and that is `OutputStats`. The proxies pass messages on after a ticket lookup and `RateLimit`, HTTP routes check their input and call the operations modelled here, and metrics copy counters. None of them changes a config dir, S3 or an instance row other than through those operations.

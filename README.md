# cluster-data-manager, modelled in Dafny

The youwol cluster-data-manager backs up a cluster's data into one archive, restores it, and sets up a fresh cluster from it.
The cluster data is Cassandra keyspaces and tables, MinIO/S3 buckets and a Keycloak export.
A backup works in phases:
- wait for the containers to be ready;
- gather each subtask's metadata;
- prepare the subtasks;
- inside a cluster maintenance window, run the subtasks;
- add the working directories to a `.tgz` archive, finalize it and upload it to Google Drive.

A restore runs the Cassandra restore and then the S3 restore from a working directory.
A setup downloads the latest archive, or a named one, writes the Keycloak status file and extracts the selected items.

The repository holds three generations of the same logic, and this model keeps their differences visible:
- the current package `src/youwol/data_manager/...`: list-driven orchestration, readiness wait, prepare phase;
- the legacy trees `src/services`, `src/tasks`, `src/configuration`: fixed three-subtask orchestration, `metadata.txt`, raw list splitting;
- the oldest files (`src/services/env/env.py`, `task_backup*.py`, `task_restore*.py`, `task_setup.py`): no prepare phase, unstripped parsing, `RuntimeError` everywhere.

One Dafny module per concern:
- `EnvUtils`, `EnvOldest`: the environment parsers of the three generations over a `map<string, string>`.
- `Strings`: Python's `str.strip`, `split`, `join` and `int`/`str` round trips.
- `Wrappers`, `JsonValues`: `Result`/`Option` and the JSON records `mc` prints.
- `McCommands`, `CqlshCommands`: the runners of the `mc` and `cqlsh` tools. Each is a class that keeps the log of its invocations. Tool output is given by an oracle indexed by call number, as already-parsed JSON records or lines with an exit code.
- `Disk`: the working directory, as a set of directories and a map of files.
- `Archiver`: `ArchiveCreator`, `ArchiveExtractor` and the legacy `NewArchive`/`ExistingArchive`. An archive is a sequence of members (path and content).
- `Maintenance`: the maintenance window over two Kubernetes objects held as mutable cells, plus the no-op window.
- `Readiness`: the readiness wait over an integer clock, and the Keycloak and MinIO probes.
- `Tokens`: the current and legacy `TokensManager` state machines over a clock and an identity-provider oracle.
- `Reporting`: report chains, status changes and the log-line format. The log sink is an appended sequence of lines.
- `Layout`: `_path_dir_maybe_exists` with its CREATE/ERROR policies, and every subtask's directory and archive item.
- `Plans`, `Subtasks`: the subtasks' loops over buckets, keyspaces and tables, and the Keycloak status-file poll.
- `BackupTask`, `RestoreTask`, `SetupTask`: the orchestrators.
- `Builders`, `UploadName`: subtask, probe and extract-item selection from `JOB_SUBTASKS`, Python keyword binding of the task constructors, memoisation, and the upload name.

## Model

| member | source | states |
|---|---|---|
| EnvUtils.SpellingsDisjoint | src/youwol/data_manager/configuration/env_utils.py:18-19 | no string is both a true spelling and a false spelling |
| EnvUtils.NotEmptyString | src/youwol/data_manager/configuration/env_utils.py:229-250 | an unset variable raises EnvVarNotSet, a blank one EnvVarEmpty; otherwise the raw, unstripped value is returned |
| EnvUtils.MaybeString | src/youwol/data_manager/configuration/env_utils.py:253-273 | the raw value of a set variable, even an empty one, and the default otherwise |
| EnvUtils.Boolean | src/youwol/data_manager/configuration/env_utils.py:276-309 | unset gives the default or EnvVarNotSet; True exactly when the stripped value is a true spelling, False exactly when it is a false spelling; any other value raises BooleanParsingError with the raw value |
| EnvUtils.Integer | src/youwol/data_manager/configuration/env_utils.py:312-341 | unset gives the default or EnvVarNotSet; a value `int()` refuses raises its ValueError; a parsed value whose canonical form differs from the stripped value raises IntegerParsingError |
| EnvUtils.IntegerAcceptsCanonicalForm | src/youwol/data_manager/configuration/env_utils.py:331-341 | a set variable reads as n exactly when its stripped value is the canonical decimal form of n |
| EnvUtils.IntegerRejectsNonCanonical | src/youwol/data_manager/configuration/env_utils.py:331-341 | "05" and "+5" parse but are refused with IntegerParsingError |
| EnvUtils.CleanItems | src/youwol/data_manager/configuration/env_utils.py:344-361 | cleaning never lengthens the split list |
| EnvUtils.CleanItemsStripped | src/youwol/data_manager/configuration/env_utils.py:344-361 | every cleaned item is non-empty and already stripped |
| EnvUtils.CleanItemsMembers | src/youwol/data_manager/configuration/env_utils.py:344-361 | the cleaned list holds the stripped form of every non-blank item and nothing else |
| EnvUtils.RawStringsList | src/configuration/env_utils.py:279-291 | succeeds exactly when `not_empty_string` does, and joining the items with the separator gives back the value |
| EnvUtils.StringsList | src/youwol/data_manager/configuration/env_utils.py:344-361 | fails exactly as the legacy list parser does; on success the items are the cleaned raw split |
| EnvUtils.SeparatorAlone | src/youwol/data_manager/configuration/env_utils.py:344-361 | a value that is only the separator gives `[]` here and `["", ""]` in the legacy parser |
| EnvUtils.MaybeStringsList | src/youwol/data_manager/configuration/env_utils.py:364-388 | unset gives the default or `[]`; a blank value raises EnvVarEmpty; otherwise every item is non-empty and stripped |
| EnvUtils.ArgTaskName | src/youwol/data_manager/configuration/env_utils.py:391-402 | succeeds exactly when the command line has one argument, and returns it; an empty argv raises IndexError |
| EnvUtils.EmptyDir | src/configuration/env_utils.py:145-162 | succeeds exactly when the path names an existing, empty directory, and returns the path; it never creates one |
| EnvOldest.NotEmptyString | src/services/env/env.py:54-63 | the same three outcomes as the later parser, each failure a RuntimeError with its message |
| EnvOldest.Boolean | src/services/env/env.py:75-92 | True or False exactly when the unstripped value is one of the spellings; every failure is a RuntimeError |
| EnvOldest.BooleanStricterThanLater | src/services/env/env.py:75-92 | whatever this parser accepts, the later parser reads the same way |
| EnvOldest.PaddedBooleanRefused | src/services/env/env.py:86-92 | `" true"` is refused here but read as True by the later parser |
| EnvOldest.Integer | src/services/env/env.py:95-107 | a set variable reads as n exactly when its value, unstripped, is n's canonical form; unparsable values raise ValueError |
| EnvOldest.IntegerStricterThanLater | src/services/env/env.py:95-107 | whatever this parser accepts, the later parser reads as the same number |
| EnvOldest.StringsList | src/services/env/env.py:110-113 | succeeds exactly on a set, non-blank value; the items join back to it and none contains the separator |
| EnvOldest.CreatingFile | src/services/env/env.py:9-19 | succeeds, returning None, exactly when the path is new and the system creates it; the file is then added and on failure nothing changes |
| EnvOldest.EmptyDir | src/services/env/env.py:44-51 | succeeds, returning None, exactly when the path is an existing empty directory |
| EnvOldest.EmptyDirAgreesWithLegacy | src/services/env/env.py:44-51 | accepts the same directories as the legacy `empty_dir` |
| McCommands.S3Instance.HealthLiveUrl | src/youwol/data_manager/services/mc_commands.py:37-47 | the health URL is the base URL followed by `/minio/health/live` |
| McCommands.BaseUrlScheme | src/services/mc_commands.py:59-65 | the URL starts with `https://` exactly when the instance uses TLS, and with `http://` otherwise |
| McCommands.MinioLocalInstance | src/youwol/data_manager/services/mc_commands.py:50-69 | the local instance is `localhost` without TLS on the given port, so its URL is `http://localhost:<port>` |
| McCommands.OnSuccess | src/youwol/data_manager/services/mc_commands.py:222-233 | with no callback nothing changes; the mirror callback logs `totalCount` and moves its timestamp only for a record holding `target` more than 5 s after the last log |
| McCommands.Step | src/youwol/data_manager/services/mc_commands.py:331-346 | an `error` record and a record of any other unknown status both raise; a `success` record runs the callback |
| McCommands.ProcessAppend | src/youwol/data_manager/services/mc_commands.py:331-346 | records are read in order: reading two stretches of output is reading the first and then the second from the state the first left |
| McCommands.ProcessErrorsFromRecords | src/youwol/data_manager/services/mc_commands.py:331-346 | the record loop never raises the mirror-mismatch error |
| McCommands.ErrorRecordStops | src/youwol/data_manager/services/mc_commands.py:334-339 | an error record raises and no later record is read |
| McCommands.NoHandlerSucceedsIffAllSuccess | src/youwol/data_manager/services/mc_commands.py:340-346 | without a callback a run succeeds exactly when every record has status `success`; the exit code plays no part |
| McCommands.DiskUsageKeepsLast | src/youwol/data_manager/services/mc_commands.py:271-283 | `du` succeeds exactly when every record is a success with `objects` and `size`, and yields the last record's pair, or the starting pair when there is none |
| McCommands.ProgressThrottle | src/youwol/data_manager/services/mc_commands.py:222-233 | at most one progress entry is logged per record, the timestamp moves only when something is logged, and each log is more than 5 s after the previous one |
| McCommands.Argv | src/youwol/data_manager/services/mc_commands.py:323-325 | every invocation is the binary, `--json`, `--config-dir`, the config path, then the arguments |
| McCommands.DiskUsageOf | src/youwol/data_manager/services/mc_commands.py:271-283 | `_du_bucket` succeeds exactly when its record loop does |
| McCommands.DiskUsageOfLast | src/youwol/data_manager/services/mc_commands.py:271-283 | no record gives `(0, 0)`; otherwise the pair of the last record |
| McCommands.MirrorOutcome | src/youwol/data_manager/services/mc_commands.py:212-269 | between one and four invocations run, and a success needs at least the source du, the mirror and the target du |
| McCommands.MirrorVerification | src/youwol/data_manager/services/mc_commands.py:250-267 | the target is measured a second time exactly when the first measurement differs from the source; the mirror raises a mismatch exactly when the second still differs, with both pairs in the error |
| McCommands.MirrorStops | src/youwol/data_manager/services/mc_commands.py:212-269 | the mirror stops at the first command whose records raise: every earlier command read its records cleanly, and the result is that command's error unless the last command read cleanly and the target still differs after the retry, which only the fourth command can show |
| McCommands.InfoKeepsLast | src/youwol/data_manager/services/mc_commands.py:133-141 | the `info` callback succeeds exactly when every record is a success with `info`, and then holds the last record's `info`, or its starting value when there is none |
| McCommands.InfoOfLast | src/youwol/data_manager/services/mc_commands.py:133-142 | `cluster_info` yields the last record's `info`, or `{}` when `admin info` prints no record; a record without `info` or not a success raises |
| McCommands.AfterAliases | src/youwol/data_manager/services/mc_commands.py:149-151 | a command behind the alias setup fails exactly when the setup or the command fails, with the setup's error first |
| McCommands.McCommands.constructor | src/youwol/data_manager/services/mc_commands.py:87-112 | a new runner has run nothing and has not set up its aliases |
| McCommands.McCommands.RunCommand | src/youwol/data_manager/services/mc_commands.py:315-346 | logs exactly one invocation and returns the outcome of reading its records in order |
| McCommands.McCommands.NeedAliases | src/youwol/data_manager/services/mc_commands.py:144-151 | when set up already it runs nothing; otherwise it runs the local alias, then the cluster alias unless the first failed, and raises the flag exactly when both succeed |
| McCommands.McCommands.AliasesOutcome | src/youwol/data_manager/services/mc_commands.py:144-151 | runs no alias command when the flag is up; otherwise succeeds exactly when both alias commands ran and the last read cleanly |
| McCommands.McCommands.MakeBucketThenMirrorOutcome | src/youwol/data_manager/services/mc_commands.py:169-176 | between one and five commands run, and a success runs `mb` and at least the source du, the mirror and the target du |
| McCommands.McCommands.MirrorStage | src/youwol/data_manager/services/mc_commands.py:212-269 | the mirror after `mb` runs between one and four commands, at least three on success |
| McCommands.McCommands.MakeBucketThenMirrorStops | src/youwol/data_manager/services/mc_commands.py:169-176 | `mb` then the mirror stop at the first command whose records raise, with that command's error; every earlier command read cleanly; a mismatch needs all five commands; once `mb` succeeds the result is the mirror's |
| McCommands.McCommands.BackupOutcome | src/youwol/data_manager/services/mc_commands.py:159-178 | the commands counted are a prefix of the pending aliases followed by `mb` and the mirror |
| McCommands.McCommands.RemoveThenRecreateOutcome | src/youwol/data_manager/services/mc_commands.py:190-201 | between one command and all of `rb` (when asked), `mb` and the mirror run; a failed `rb` ends the restore with its error |
| McCommands.McCommands.RestoreOutcome | src/youwol/data_manager/services/mc_commands.py:180-203 | the commands counted are a prefix of the pending aliases followed by the restore's own commands |
| McCommands.McCommands.StopLocalOutcome | src/youwol/data_manager/services/mc_commands.py:205-210 | at most the pending aliases and the stop command run |
| McCommands.McCommands.ClusterInfoOutcome | src/youwol/data_manager/services/mc_commands.py:122-142 | at most the pending aliases and `admin info cluster` run |
| McCommands.McCommands.StopLocalSucceedsIff | src/youwol/data_manager/services/mc_commands.py:205-210 | `stop_local` succeeds exactly when the alias setup does and every record of the stop command is a success; otherwise after the aliases its error is that command's |
| McCommands.McCommands.ClusterInfoKeepsLast | src/youwol/data_manager/services/mc_commands.py:122-142 | once the aliases are set up, `cluster_info` succeeds exactly when every record is a success with `info`, and returns the last record's `info`, or `{}` when there is none |
| McCommands.McCommands.DuBucket | src/youwol/data_manager/services/mc_commands.py:271-283 | runs one `du --versions` of the bucket and returns the last success pair |
| McCommands.McCommands.DuClusterBucket | src/youwol/data_manager/services/mc_commands.py:285-298 | measures `cluster/<bucket>` with one `du`, without setting up aliases |
| McCommands.McCommands.MirrorBuckets | src/youwol/data_manager/services/mc_commands.py:212-269 | runs exactly the invocations MirrorOutcome counts, in order, and returns its result |
| McCommands.McCommands.MakeBucketThenMirror | src/youwol/data_manager/services/mc_commands.py:169-176 | runs `mb` and then the mirror, exactly the commands MakeBucketThenMirrorOutcome counts and in that order, and returns its result |
| McCommands.McCommands.BackupBucket | src/youwol/data_manager/services/mc_commands.py:159-178 | runs the pending aliases, `mb --ignore-existing local/<b>` and the mirror from cluster to local, in that order, exactly as many as BackupOutcome counts, and returns its result; the alias flag is up afterwards exactly when the alias setup succeeded |
| McCommands.McCommands.RestoreBucket | src/youwol/data_manager/services/mc_commands.py:180-203 | runs the pending aliases, `rb --force cluster/<b>` only when asked, `mb cluster/<b>` and the mirror from local to cluster, in that order, exactly as many as RestoreOutcome counts, and returns its result |
| McCommands.McCommands.RemoveThenRecreate | src/youwol/data_manager/services/mc_commands.py:190-201 | the part of `restore_bucket` after the alias setup runs the commands RemoveThenRecreateOutcome counts, in order, and returns its result |
| McCommands.McCommands.StopLocal | src/youwol/data_manager/services/mc_commands.py:205-210 | after the pending aliases runs `admin service stop local` once, unless the alias setup failed, and returns StopLocalOutcome |
| McCommands.McCommands.ClusterInfo | src/youwol/data_manager/services/mc_commands.py:122-142 | after the pending aliases runs `admin info cluster` once, unless the alias setup failed, and returns ClusterInfoOutcome |
| McCommands.ReadRecords | src/youwol/data_manager/services/mc_commands.py:327-346 | the loop over the output records returns what reading them in order gives |
| CqlshCommands.CqlInstance.AsArgs | src/services/cqlsh_commands.py:32-38 | the arguments are `[host]` with a host and `[]` without |
| CqlshCommands.RunArgv | src/services/cqlsh_commands.py:257-270 | `-e <cql>` is added to the arguments exactly when an explicit stdin is given |
| CqlshCommands.RunStdin | src/services/cqlsh_commands.py:257-270 | without an explicit stdin the CQL itself is fed on standard input |
| CqlshCommands.ExitChecked | src/services/cqlsh_commands.py:57-85 | stdout is returned exactly when the exit code is 0; otherwise it raises with stderr |
| CqlshCommands.BackupDdlContent | src/services/cqlsh_commands.py:87-106 | a non-zero exit raises with stderr; otherwise the content is produced |
| CqlshCommands.BackupDdlKeepsAllButBanner | src/services/cqlsh_commands.py:102-106 | the first output line followed by the written content is the whole output |
| CqlshCommands.DdlRunAccepted | src/services/cqlsh_commands.py:130-143 | the schema run passes exactly on exit code 0, or on exit code 2 when every stderr line is allow-listed |
| CqlshCommands.EmptyStderrAllowed | src/services/cqlsh_commands.py:135-141 | exit code 2 with an empty stderr passes, since there is no line to refuse |
| CqlshCommands.LeadingMessageRefused | src/services/cqlsh_commands.py:9-10 | a stderr line that starts with the allow-listed message is refused, because the message must occur at an index above 0 |
| CqlshCommands.Diff | src/services/cqlsh_commands.py:149-150 | the diff is never longer than the described paragraphs |
| CqlshCommands.DiffMembers | src/services/cqlsh_commands.py:149-152 | the diff holds exactly the described paragraphs missing from the file, so it is empty exactly when all of them are present |
| CqlshCommands.DdlCheck | src/services/cqlsh_commands.py:145-155 | a failed DESCRIBE raises with its stdout; otherwise the check passes exactly when no paragraph of the new schema, first line removed, is missing from the script |
| CqlshCommands.RestoreDdlOutcome | src/services/cqlsh_commands.py:109-155 | `restore_ddl` succeeds only when the schema run is accepted and the check passes; once the run is accepted, the check decides |
| CqlshCommands.CountFromOutput | src/services/cqlsh_commands.py:252-255 | fewer than five output lines raises IndexError; otherwise it succeeds exactly when the fifth line parses as an integer |
| CqlshCommands.CountFromCanonicalLine | src/services/cqlsh_commands.py:252-255 | a fifth line holding a decimal count, padded or not, reads as that count |
| CqlshCommands.CountOutcome | src/services/cqlsh_commands.py:237-255 | a non-zero exit raises with stderr; otherwise the count comes from the fifth line |
| CqlshCommands.BackupTableContent | src/services/cqlsh_commands.py:176-200 | succeeds exactly when the count succeeds and the streamed lines minus the banner equal it; the file then holds the stream without its first line, and a mismatch reports both numbers |
| CqlshCommands.RestoreTableOutcome | src/services/cqlsh_commands.py:221-235 | succeeds exactly when the copy exits with 0 and the table counts as many rows as the file has lines |
| CqlshCommands.CollectLines | src/services/cqlsh_commands.py:183-194 | the line callback counts the streamed lines and concatenates them in order |
| CqlshCommands.CqlshCommands.constructor | src/services/cqlsh_commands.py:44-55 | the command line is split on single spaces, and joining the parts gives it back |
| CqlshCommands.CqlshCommands.RunCommand | src/services/cqlsh_commands.py:257-270 | logs one run with its arguments and stdin and returns that run's result |
| CqlshCommands.CqlshCommands.StreamCommand | src/services/cqlsh_commands.py:272-285 | logs one streamed run with `-e <cql>` and returns its lines |
| CqlshCommands.CqlshCommands.ShowHost | src/services/cqlsh_commands.py:57-70 | runs `SHOW HOST;` once and returns stdout when the exit code is 0 |
| CqlshCommands.CqlshCommands.ShowVersion | src/services/cqlsh_commands.py:72-85 | runs `SHOW VERSION;` once and returns stdout when the exit code is 0 |
| CqlshCommands.CqlshCommands.BackupDdl | src/services/cqlsh_commands.py:87-106 | runs DESCRIBE once; the file is written with the output minus its banner exactly when the run succeeds |
| CqlshCommands.CqlshCommands.RestoreDdl | src/services/cqlsh_commands.py:109-155 | a missing file raises before any run; otherwise it runs the script, with a DROP exactly when asked, then DESCRIBE only if the first run was accepted |
| CqlshCommands.CqlshCommands.CountTable | src/services/cqlsh_commands.py:237-255 | runs `count(*)` once and parses the fifth line |
| CqlshCommands.CqlshCommands.BackupTable | src/services/cqlsh_commands.py:157-201 | counts, then streams the table; the file is written exactly when the row counts agree and is left untouched otherwise |
| CqlshCommands.CqlshCommands.CopyTableOut | src/services/cqlsh_commands.py:176-200 | the streaming half of `backup_table` compares the streamed lines minus the banner with the count and writes the file only on agreement |
| CqlshCommands.CqlshCommands.RestoreTable | src/services/cqlsh_commands.py:203-235 | a missing file raises before any run; otherwise it copies in, with a TRUNCATE exactly when asked, and counts only if the copy exited with 0 |
| Archiver.ArchiveItem.Value | src/youwol/data_manager/configuration/archive.py:5-9 | every item value is non-empty and holds no `/` |
| Archiver.ArchiveItemValuesDistinct | src/youwol/data_manager/configuration/archive.py:5-9 | two items have the same value exactly when they are the same item |
| Archiver.EntryIsMember | src/youwol/data_manager/services/archiver.py:78-80 | adding a path under an item name stores every entry of the tree under `<item>/<relative path>` |
| Archiver.MemberIsEntry | src/youwol/data_manager/services/archiver.py:78-80 | every member an item contributes comes from an entry of its tree |
| Archiver.PlainNameNotUnder | src/youwol/data_manager/services/archiver.py:160-166 | a name without `/`, such as a bare item or `backup.log`, is never selected for extraction |
| Archiver.MemberUnderItem | src/youwol/data_manager/services/archiver.py:160-166 | a member selected for `x` comes from the item named `x` and lies strictly inside it |
| Archiver.SelectedBlock | src/youwol/data_manager/services/archiver.py:160-166 | an item contributes nothing to the selection of another item, and exactly its inside to its own |
| Archiver.SelectedUnion | src/youwol/data_manager/services/archiver.py:160-166 | selection distributes over a union of members |
| Archiver.NothingSelected | src/youwol/data_manager/services/archiver.py:160-166 | with no item of that name, nothing is extracted |
| Archiver.ExtractRoundTrip | src/youwol/data_manager/services/archiver.py:148-166 | in an archive with one item of a name, extracting that name yields exactly that item's tree, without its root |
| Archiver.SelectedLast | src/youwol/data_manager/services/archiver.py:160-166 | the last item added changes the selection only when it has the selected name |
| Archiver.ItemBlocksComplete | src/youwol/data_manager/services/archiver.py:76-80 | the item loop of `finalize` completes exactly when every item path exists |
| Archiver.ItemBlocksInOrder | src/youwol/data_manager/services/archiver.py:76-80 | when it completes, the archive holds one block per item, in insertion order, each with the tree at the item's path |
| Archiver.ArchiveCreator.constructor | src/youwol/data_manager/services/archiver.py:30-52 | a new archive has no item and the metadata `{version: "v1", job, archive}` |
| Archiver.ArchiveCreator.AddFileItem | src/youwol/data_manager/services/archiver.py:100-127 | binds the name to the path, the last binding winning, and keeps the first insertion position; other bindings are unchanged |
| Archiver.ArchiveCreator.AddDirItem | src/youwol/data_manager/services/archiver.py:88-98 | the same, under the item's value |
| Archiver.ArchiveCreator.AddMetadata | src/youwol/data_manager/services/archiver.py:112-122 | sets the key, replacing any earlier value, `version`, `job` and `archive` included |
| Archiver.ArchiveCreator.Finalize | src/youwol/data_manager/services/archiver.py:67-86 | writes the metadata file, then adds the items in insertion order and the metadata member last, and returns the archive path; a missing item path raises, and the archive file then holds the items added before it, since the archive is created when it is opened |
| Archiver.ItemBlocksStopsAtMissing | src/youwol/data_manager/services/archiver.py:76-80 | once an item path is missing, the items after it change nothing |
| Archiver.FinalizeThenExtract | src/youwol/data_manager/services/archiver.py:67-166 | extracting an item from a finalized archive yields the tree at the path that item was bound to |
| Archiver.ExtractedFilesAt | src/youwol/data_manager/services/archiver.py:160-166 | every extracted file lands at `<work dir>/<member name>` with its text |
| Archiver.ArchiveExtractor.constructor | src/youwol/data_manager/services/archiver.py:136-146 | keeps the archive path and the working directory |
| Archiver.ArchiveExtractor.ExtractDirItem | src/youwol/data_manager/services/archiver.py:148-166 | a missing archive fails and changes nothing; otherwise the members under `<item>/` are written below the working directory and nothing else changes |
| Archiver.ArchiveExtractor.MetadataDocument | src/youwol/data_manager/services/archiver.py:168-176 | the metadata is always the empty document |
| Archiver.CurrentArchiver.constructor | src/youwol/data_manager/services/archiver.py:182-194 | keeps the working directory |
| Archiver.CurrentArchiver.NewArchive | src/youwol/data_manager/services/archiver.py:196-206 | a fresh creator for the given job, with `metadata.json` as its metadata member |
| Archiver.CurrentArchiver.ExistingArchive | src/youwol/data_manager/services/archiver.py:208-222 | a fresh extractor for the path, in the working directory |
| Archiver.LegacyArchiver.constructor | src/services/archiver.py:13-17 | the job UUID is fixed when the archiver is built |
| Archiver.LegacyArchiver.NewArchive | src/services/archiver.py:19-20 | a fresh creator for the archiver's own job, with `metadata.txt` as its metadata member |
| Archiver.LegacyArchiver.ExistingArchive | src/services/archiver.py:22-23 | a fresh extractor for the path, in the working directory |
| Maintenance.Completed | src/youwol/data_manager/services/cluster_maintenance.py:100-132 | the Kubernetes calls of a transition succeed one after another up to the first that raises, and none after it is made |
| Maintenance.WindowRestores | src/youwol/data_manager/services/cluster_maintenance.py:100-132 | inside the window both objects hold the maintenance values, and a window entered and left without failure gives both back exactly, an absent Ingress class included; the ConfigMap entry must exist, since reading an absent one raises |
| Maintenance.FailedEntryNotRolledBack | src/youwol/data_manager/services/cluster_maintenance.py:114-119 | an entry that fails after its first write leaves the maintenance config value in place |
| Maintenance.ReentryRecaptures | src/youwol/data_manager/services/cluster_maintenance.py:108-113 | entering twice captures the maintenance values themselves, so leaving does not restore the original objects |
| Maintenance.KubeCells.constructor | src/youwol/data_manager/services/cluster_maintenance.py:81-98 | the objects start as given and no call has been made |
| Maintenance.KubeCells.GetConfigMapValue | src/youwol/data_manager/services/kubernetes_api.py:163-196 | one call, returning the entry's value; it raises when the API raises or when the ConfigMap has no such entry (a `KeyError` in the legacy tree) |
| Maintenance.KubeCells.GetIngressClassName | src/youwol/data_manager/services/cluster_maintenance.py:111-113 | one call, returning the ingress class unless it raises |
| Maintenance.KubeCells.SetConfigMapValue | src/youwol/data_manager/services/cluster_maintenance.py:114-116 | one call; the config value changes exactly when the call does not raise, and None is written as None |
| Maintenance.KubeCells.SetIngressClassName | src/youwol/data_manager/services/cluster_maintenance.py:117-119 | one call; the ingress class changes exactly when the call does not raise |
| Maintenance.ClusterMaintenance.constructor | src/youwol/data_manager/services/cluster_maintenance.py:81-98 | both captured originals start as None |
| Maintenance.ClusterMaintenance.Enter | src/youwol/data_manager/services/cluster_maintenance.py:52-59 | sets the status, reads the config value then the class, writes the maintenance config value then class, and stops at the first call that raises, keeping what was written before it; an absent ConfigMap entry raises at the first call with nothing written |
| Maintenance.ClusterMaintenance.Exit | src/youwol/data_manager/services/cluster_maintenance.py:61-64 | sets the status to off and writes back the captured config value, then the captured class, stopping at the first call that raises |
| Maintenance.NoopMaintenanceMode.constructor | src/youwol/data_manager/services/cluster_maintenance.py:135-137 | a window with no Kubernetes object and nothing logged yet |
| Maintenance.NoopMaintenanceMode.Enter | src/youwol/data_manager/services/cluster_maintenance.py:139-142 | only sets the status and logs its message |
| Maintenance.NoopMaintenanceMode.Exit | src/youwol/data_manager/services/cluster_maintenance.py:144-147 | only sets the status to off and logs its message |
| Maintenance.WindowOutcome | src/services/cluster_maintenance.py:86-89 | a failed entry skips the body and the exit; otherwise the body's exception propagates after the exit, and the window succeeds exactly when entry, body and exit all do |
| Readiness.ProbeResult | src/youwol/data_manager/services/containers_readiness.py:59-93 | Keycloak is ready exactly when the stripped status file is not `SETUP`, and an unreadable file raises; MinIO is ready exactly when the health URL answers 200, and never raises |
| Readiness.KeycloakErrorIsReady | src/youwol/data_manager/services/containers_readiness.py:59-64 | a status file reading `ERROR` counts as ready |
| Readiness.RoundCalls | src/youwol/data_manager/services/containers_readiness.py:108 | a ready round calls every probe; a round that is not ready calls at least one |
| Readiness.RoundReadyIff | src/youwol/data_manager/services/containers_readiness.py:108 | a round is ready exactly when every probe, in list order, is |
| Readiness.RoundStopsAtFirstFailure | src/youwol/data_manager/services/containers_readiness.py:108 | a round that is not ready stops at the first probe that is not ready or raises, after every earlier probe was ready |
| Readiness.AllReadyCons | src/youwol/data_manager/services/containers_readiness.py:108 | a list is all ready exactly when its head is and its tail is, one call later |
| Readiness.RoundsStep | src/youwol/data_manager/services/containers_readiness.py:108-114 | the wait is one round followed by what that round's result decides |
| Readiness.AfterNotReady | src/youwol/data_manager/services/containers_readiness.py:109-114 | after a round that is not ready, with time left, the wait sleeps one interval and probes again |
| Readiness.ReadyOnlyAfterFullRound | src/youwol/data_manager/services/containers_readiness.py:108-114 | the wait ends well only after a round in which every probe, in order, was ready |
| Readiness.TimeoutPastDeadline | src/youwol/data_manager/services/containers_readiness.py:107-112 | it gives up only once the clock is past the deadline fixed before the first round, at most one interval past it |
| Readiness.FirstRoundReady | src/youwol/data_manager/services/containers_readiness.py:108-109 | a first round that succeeds, and an empty probe list, end the wait at once with no sleep |
| Readiness.World.constructor | src/youwol/data_manager/services/containers_readiness.py:96-103 | the clock starts as given, no probe has been called, and probes judge as the source's probes do |
| Readiness.World.Sleep | src/youwol/data_manager/services/containers_readiness.py:110 | the clock moves forward by the interval; a negative interval raises |
| Readiness.World.CallProbe | src/youwol/data_manager/services/containers_readiness.py:108 | one probe call, judged on what the probe sees at that call |
| Readiness.RunRound | src/youwol/data_manager/services/containers_readiness.py:108 | `all(...)` over the probes makes exactly the calls and gives exactly the result of a round |
| Readiness.ContainersReadiness.constructor | src/youwol/data_manager/services/containers_readiness.py:96-103 | keeps the probes, the timeout and the interval |
| Readiness.ContainersReadiness.Wait | src/youwol/data_manager/services/containers_readiness.py:105-114 | the result, the probe calls made and the final clock are those of the rounds from the start time, with the deadline start plus timeout |
| Tokens.RequestsOf | src/youwol/data_manager/services/keycloak_admin.py:83-92 | a token request sends at most one request to the identity provider, and none when the cache is used |
| Tokens.FreshManagerGrants | src/youwol/data_manager/services/keycloak_admin.py:58-61 | a fresh manager holds no tokens, so its first request grants by password, in both trees |
| Tokens.DecisionCases | src/youwol/data_manager/services/keycloak_admin.py:77-95 | the cached token is used exactly when it is present and unexpired; a refresh with the held token happens exactly when only the refresh token is usable; a password grant otherwise |
| Tokens.StoredCachedUntil | src/youwol/data_manager/services/keycloak_admin.py:123-129 | tokens stored at time t are served from the cache exactly until `t - threshold + expires_in`, and only if an access token came back |
| Tokens.CachedTokenMargin | src/youwol/data_manager/services/keycloak_admin.py:123-129 | a token served from the cache still has at least `threshold` seconds of its lifetime left |
| Tokens.LegacyAgreesWhenPaired | src/services/keycloak_admin.py:76-85 | when every refresh token has its expiry and the clock does not move, the legacy choice is the current one and reads the clock at most twice |
| Tokens.LegacyComparesOnlyUnpaired | src/services/keycloak_admin.py:79-80 | the legacy choice raises on the comparison exactly when the access token is unusable and a refresh token is held without an expiry |
| Tokens.StoringPairs | src/services/keycloak_admin.py:107-112 | storing tokens, in either tree, never leaves a refresh token without its expiry |
| Tokens.StoredAgree | src/services/keycloak_admin.py:107-112 | with one clock reading, both trees store the same expiries |
| Tokens.LegacyStoredGap | src/services/keycloak_admin.py:107-112 | the legacy refresh expiry is computed from a later clock reading than the access expiry |
| Tokens.TokensManager.constructor | src/youwol/data_manager/services/keycloak_admin.py:38-65 | a new manager holds no token and has sent no request |
| Tokens.TokensManager.Send | src/youwol/data_manager/services/keycloak_admin.py:103 | one request to the identity provider, recorded in order |
| Tokens.TokensManager.Now | src/youwol/data_manager/services/keycloak_admin.py:77 | one clock reading |
| Tokens.TokensManager.StoreTokens | src/youwol/data_manager/services/keycloak_admin.py:123-129 | reads the clock once and stores both tokens with expiries `now - threshold + expires_in` and `now - threshold + refresh_expires_in` |
| Tokens.TokensManager.GrantPasswordTokens | src/youwol/data_manager/services/keycloak_admin.py:97-107 | sends one password grant; the cache changes only when the grant succeeds |
| Tokens.TokensManager.RefreshTokens | src/youwol/data_manager/services/keycloak_admin.py:109-121 | with no refresh token it raises before any request; otherwise it sends one refresh and stores what comes back |
| Tokens.TokensManager.GetAccessToken | src/youwol/data_manager/services/keycloak_admin.py:67-95 | reads the clock once; returns the cached token with no request when it is usable; otherwise renews as the choice says and raises when there is still no access token |
| Tokens.LegacyTokensManager.constructor | src/services/keycloak_admin.py:51-67 | a new manager holds no token and has sent no request |
| Tokens.LegacyTokensManager.Now | src/services/keycloak_admin.py:78 | one clock reading |
| Tokens.LegacyTokensManager.StoreTokens | src/services/keycloak_admin.py:107-112 | one clock reading per expiry, each `now + expires_in - threshold` |
| Tokens.LegacyTokensManager.Renew | src/services/keycloak_admin.py:88-105 | sends the request and stores what comes back; an error leaves the cache as it was |
| Tokens.LegacyTokensManager.GetAccessToken | src/services/keycloak_admin.py:69-86 | reads the clock only where the conditions do; renews as the legacy choice says and returns the stored access token with no None check |
| Tokens.AdminClientConfig | src/youwol/data_manager/services/keycloak_admin.py:149-160 | the client is `admin-cli` with no secret and issuer `<base URL>/realms/<realm>` |
| Tokens.IssuerDeterminesRealm | src/youwol/data_manager/services/keycloak_admin.py:158 | under one base URL, distinct realms have distinct issuers |
| Tokens.KeycloakAdmin.constructor | src/youwol/data_manager/services/keycloak_admin.py:135-162 | a fresh token manager for the credentials, with the default threshold 5, behind the admin client |
| Tokens.LegacyKeycloakAdmin.constructor | src/services/keycloak_admin.py:118-136 | the same, with `http://localhost:8080/auth` as the base URL when none is given |
| Reporting.LabelsAligned | src/youwol/data_manager/services/reporting/reporting.py:109-139 | the four labels are seven characters wide and pairwise distinct |
| Reporting.EffectiveLevel | src/youwol/data_manager/services/reporting/reporting.py:55 | a missing level means the report's default level |
| Reporting.StatusLabel | src/youwol/data_manager/services/reporting/reporting.py:53-59 | a status change is logged exactly at NOTIFY or DEBUG, with that level's label |
| Reporting.StatusAtOtherLevelsSilent | src/youwol/data_manager/services/reporting/reporting.py:53-59 | a status change at WARNING or FATAL logs nothing |
| Reporting.LogLineMessage | src/youwol/data_manager/services/reporting/reporting.py:141-147 | a line with a message is the line without one followed by `" : "` and the message; a line without one ends with `]` |
| Reporting.LogLineLabel | src/youwol/data_manager/services/reporting/reporting.py:141-147 | every line starts with the timestamp, a space and the level's label |
| Reporting.TasksFieldRecoverable | src/youwol/data_manager/services/reporting/reporting.py:141-147 | when no task name holds `>`, splitting the tasks field on `>` gives the chain back |
| Reporting.Chain | src/youwol/data_manager/services/reporting/reporting.py:44 | a chain is the parents' chain, or nothing for the root, followed by the task |
| Reporting.SubChainsNest | src/youwol/data_manager/services/reporting/reporting.py:76-88 | sub-reports taken in turn from the root report have the root's task followed by theirs, in order |
| Reporting.Reporting.constructor | src/youwol/data_manager/services/reporting/reporting.py:92-101 | the root report is for the initial task, at status `Starting` and level NOTIFY, and its creation writes one NOTIFY line |
| Reporting.Reporting.SetCurrentReport | src/youwol/data_manager/services/reporting/reporting.py:103-104 | the current report becomes the given one |
| Reporting.Reporting.WriteLog | src/youwol/data_manager/services/reporting/reporting.py:141-147 | appends exactly one formatted line to the log |
| Reporting.Report.constructor | src/youwol/data_manager/services/reporting/reporting.py:36-48 | the chain is the parents' chain plus the task, and the initial status goes through `set_status` at the default level |
| Reporting.Report.SetStatus | src/youwol/data_manager/services/reporting/reporting.py:53-59 | the status always changes; one line is logged at NOTIFY or DEBUG and none at any other level |
| Reporting.Report.Notify | src/youwol/data_manager/services/reporting/reporting.py:64-65 | one NOTIFY line with the message |
| Reporting.Report.Debug | src/youwol/data_manager/services/reporting/reporting.py:67-68 | one DEBUG line with the message |
| Reporting.Report.Warning | src/youwol/data_manager/services/reporting/reporting.py:70-71 | one WARNING line with the message |
| Reporting.Report.Fatal | src/youwol/data_manager/services/reporting/reporting.py:73-74 | one FATAL line with the message |
| Reporting.Report.GetSubReport | src/youwol/data_manager/services/reporting/reporting.py:76-88 | a fresh report on the same log whose chain is this one's plus the task; this report's chain and status are unchanged |
| Layout.MaybeExistsCases | src/tasks/common/task.py:21-33 | the call ends in one of four ways: the path is a directory and is returned with nothing changed; it is missing under ERROR and "missing" is raised with nothing changed; it is missing under CREATE with no file on the way and it and its ancestors become directories; it is missing under CREATE below a file and `mkdir` raises with nothing changed; any other existing path raises "not a directory" |
| Layout.PolicyEffects | src/tasks/common/task.py:24-28 | under ERROR the directories never change; under CREATE "missing" is never raised (a path below a file raises that `mkdir` failed instead) and no directory disappears |
| Layout.MaybeExistsIdempotent | src/tasks/common/task.py:21-33 | once the call succeeded, a second call under either policy succeeds with the same path and changes nothing |
| Layout.PathDirMaybeExists | src/tasks/common/task.py:21-33 | the method on the disk joins the relative path to the working directory and leaves the disk and result exactly as the specification function says |
| Layout.ItemOf | src/youwol/data_manager/tasks/common/s3.py:35-41 | each component's archive item is its own MinIO, Cassandra or Keycloak item and never the metadata item |
| Layout.RelativePathsAgree | src/tasks/common/task_cassandra.py:13-15 | the legacy RELATIVE_PATH constants equal the current archive item values, are distinct per component, hold no slash and never clash with the metadata file names |
| Layout.CqlDirsInsideItem | src/youwol/data_manager/tasks/common/cassandra.py:19-21 | the schema and data directories are "schema" and "data" under the Cassandra item directory, so they land inside that item when the archive is written |
| Layout.PathDirAndArchiveItem | src/youwol/data_manager/tasks/common/cassandra.py:45-51 | the component's directory is checked under the given policy and the component's archive item is returned beside it |
| Layout.LegacyPathDirAndArchiveItem | src/tasks/common/task_cassandra.py:23-25 | the legacy form checks the same directory and returns the item as its name string |
| Plans.RunPlanCalls | src/youwol/data_manager/tasks/backup/cassandra.py:49-77 | a subtask's run makes the first calls of its plan in order; every call made succeeded except possibly the last, which is the one that raised; the run ends without error only when every call of the plan was made |
| Plans.RaisedStays | src/youwol/data_manager/tasks/backup/cassandra.py:54-75 | once a call raised, the steps after it make no call and change no directory |
| Plans.ErrorPolicyKeepsDirs | src/youwol/data_manager/tasks/restore/cassandra.py:59-77 | a run that checks every directory under ERROR creates no directory |
| Plans.StopLocalAfterAllBuckets | src/youwol/data_manager/tasks/backup/s3.py:75-89 | `stop_local` is called if and only if every bucket was handled, one call per bucket in list order, and it is then the last call |
| Plans.KeyspacesBeforeTables | src/youwol/data_manager/tasks/backup/cassandra.py:49-77 | once a table call is made, the calls begin with one DDL call per keyspace in order; every later call is a table call for the tables in order |
| Plans.RestoreFlags | src/youwol/data_manager/tasks/restore/cassandra.py:50-80 | a Cassandra restore creates no directory and every call carries the overwrite flag as its drop-if-exists or truncate flag |
| Subtasks.RunBuckets | src/youwol/data_manager/tasks/backup/s3.py:80-86 | the bucket loop makes one call per bucket in list order and stops at the first that raises, exactly as the plan of one call per bucket runs |
| Subtasks.RunKeyspaces | src/youwol/data_manager/tasks/backup/cassandra.py:54-63 | for each keyspace in order the schema directory is checked under the policy and the DDL call is made; the first directory failure or call failure ends the loop |
| Subtasks.RunTables | src/youwol/data_manager/tasks/backup/cassandra.py:66-75 | for each table in order the data directory is checked and the table call is made; the first failure ends the loop |
| Subtasks.RunBucketsThenStop | src/youwol/data_manager/tasks/backup/s3.py:75-89 | the bucket loop and then `stop_local`, reached only when no bucket raised |
| Subtasks.BackupS3.constructor | src/youwol/data_manager/tasks/backup/s3.py:25-47 | the subtask keeps the working directory, the services and the buckets it was given |
| Subtasks.BackupS3.Metadata | src/youwol/data_manager/tasks/backup/s3.py:49-58 | the pair ("s3", {url, info}) with the cluster URL and what `cluster_info` answered; exactly one call is made, and its failure is the error |
| Subtasks.BackupS3.LegacyMetadata | src/tasks/backup/s3.py:56-65 | the legacy form returns the bare dict {url, info}, with the same single call and error |
| Subtasks.BackupS3.Prepare | src/youwol/data_manager/tasks/backup/s3.py:60-73 | one disk-usage call per cluster bucket, in order, until one raises; nothing is mirrored and no directory is touched |
| Subtasks.BackupS3.Run | src/youwol/data_manager/tasks/backup/s3.py:75-89 | each bucket is backed up in order, then the local MinIO is stopped; the first failure ends the run |
| Subtasks.BackupS3.PathDirAndArchiveItem | src/youwol/data_manager/tasks/backup/s3.py:91-97 | the `minio` directory must already exist (ERROR policy, no directory created); the MinIO item is returned with it |
| Subtasks.RestoreS3.Current | src/youwol/data_manager/tasks/restore/s3.py:21-45 | the current restore subtask always removes the existing bucket before mirroring, whatever overwrite was meant |
| Subtasks.RestoreS3.Legacy | src/tasks/restore/task_restore_s3.py:14-18 | the legacy restore subtask keeps the overwrite flag it was given |
| Subtasks.RestoreS3.Run | src/youwol/data_manager/tasks/restore/s3.py:46-60 | each bucket is restored in order with the subtask's removal flag, then the local MinIO is stopped; the first failure ends the run |
| Subtasks.RestoreS3.PathDirAndArchiveItem | src/youwol/data_manager/tasks/restore/s3.py:62-68 | the `minio` directory must already exist; the MinIO item is returned with it |
| Subtasks.CassandraTask.Backup | src/youwol/data_manager/tasks/backup/cassandra.py:23-47 | a backup subtask with its keyspaces and tables, its report status "ComponentInitialized" |
| Subtasks.CassandraTask.CurrentRestore | src/youwol/data_manager/tasks/restore/cassandra.py:50-80 | the current restore drops keyspaces and truncates tables first, always |
| Subtasks.CassandraTask.LegacyRestore | src/tasks/restore/cassandra.py:37-43 | the legacy restore uses its overwrite flag as both the drop and the truncate flag |
| Subtasks.CassandraTask.Run | src/youwol/data_manager/tasks/backup/cassandra.py:49-77 | every keyspace's schema, then every table's rows, each after its directory check (created for a backup, required for a restore); the status becomes "Done" exactly when all of it succeeded |
| Subtasks.CassandraTask.Metadata | src/youwol/data_manager/tasks/backup/cassandra.py:87-96 | the dict {host, versions} from `show_host` then `show_version`; a failing `show_host` stops before `show_version` |
| Subtasks.CassandraTask.PathDirAndArchiveItem | src/youwol/data_manager/tasks/backup/cassandra.py:79-85 | the `cql` directory, created by a backup and required by a restore, with the Cassandra item |
| Subtasks.EndStatusDone | src/youwol/data_manager/tasks/backup/cassandra.py:77 | a Cassandra subtask reports "Done" if and only if its run succeeded, and never stays at "ComponentInitialized" |
| Subtasks.BackupKeycloak.constructor | src/youwol/data_manager/tasks/backup/keycloak.py:24-46 | the subtask keeps the working directory and the services it was given |
| Subtasks.BackupKeycloak.Metadata | src/youwol/data_manager/tasks/backup/keycloak.py:48-54 | the pair ("kc", {"server_info": ...}) from one `system_info` call, whose failure is the error |
| Subtasks.BackupKeycloak.Prepare | src/youwol/data_manager/tasks/backup/keycloak.py:56-57 | prepare does nothing and always succeeds |
| Subtasks.BackupKeycloak.PathDirAndArchiveItem | src/youwol/data_manager/tasks/backup/keycloak.py:59-65 | the `kc` directory, created when missing, with the Keycloak item |
| Subtasks.PollFromExits | src/tasks/backup/keycloak.py:42-53 | DONE ends the loop with the "Done" note and ERROR raises with the fatal note; any other status is noted, and then a missing status file raises after one sleep, or the bound on sleeps stops the loop |
| Subtasks.PollFromEnds | src/tasks/backup/keycloak.py:42-52 | from any status read, the loop ends on the first DONE (returning) or ERROR (raising) read, or on a missing file; every status in between was neither; one sleep per further read |
| Subtasks.PollRunEnds | src/tasks/backup/keycloak.py:39-53 | the whole loop returns only on a DONE status and raises on ERROR, the first status read that is either; an initial DONE returns without sleeping |
| Subtasks.PollFromNotes | src/tasks/backup/keycloak.py:46-50 | each status is announced as new exactly when it differs from the previous one; only the last note may be the DONE or ERROR note |
| Subtasks.PollRunNotes | src/tasks/backup/keycloak.py:39-53 | over the whole loop the first status is always announced as new and later ones only when they change |
| Subtasks.LegacyBackupKeycloak.constructor | src/tasks/backup/keycloak.py:28-31 | the subtask keeps the working directory, the status file and the services, and strips each status it reads |
| Subtasks.LegacyBackupKeycloak.Run | src/tasks/backup/keycloak.py:33-53 | the imperative loop ends as the poll specification says: same end, reads, sleeps and notes |
| Subtasks.LegacyBackupKeycloak.Rounds | src/tasks/backup/keycloak.py:42-52 | the loop from the first status read equals the poll specification from that status |
| Subtasks.LegacyBackupKeycloak.Round | src/tasks/backup/keycloak.py:43-52 | one round either ends the loop with its final outcome or notes the status, sleeps and reads the next one, leaving the rest of the loop to the specification |
| Subtasks.LegacyBackupKeycloak.Metadata | src/tasks/backup/keycloak.py:63-71 | the bare dict {"server_info": ...} from one `system_info` call |
| Subtasks.LegacyBackupKeycloak.PathDirAndArchiveItem | src/tasks/backup/keycloak.py:55-61 | the `kc` directory, created when missing, with the item named "kc" |
| Subtasks.AbstractS3Run | src/tasks/common/task_S3.py:15-16 | `run` of the abstract legacy S3 subtask always raises NotImplementedError |
| Subtasks.TaskS3Init | src/tasks/common/task_s3.py:15-18 | the three-parameter constructor binds exactly three positional arguments and raises a TypeError on any other count |
| Subtasks.OldestBackupS3NeverBuilt | src/tasks/backup/task_backup_s3.py:11-12 | the oldest S3 backup subtask passes four arguments to its parent's three parameters, so building it always raises |
| Subtasks.CorrectedBackupS3Built | src/tasks/backup/task_backup_s3.py:11-12 | the call as every other S3 subtask makes it stores the working directory and the buckets |
| BackupTask.Unpack | src/youwol/data_manager/tasks/backup/task.py:85 | `add_metadata(*answer)`: a pair gives its key and value; a dict is unpacked into its keys, so only a two-key dict is accepted and it binds its first key to its second key's name; any other size raises |
| BackupTask.SweepShape | src/youwol/data_manager/tasks/backup/task.py:84-103 | a phase makes the first calls of its list in order, stops right after the first that raises, and applies exactly the updates of the calls that succeeded |
| BackupTask.SweepAppend | src/youwol/data_manager/tasks/backup/task.py:84-103 | two phases in a row: the second runs only when the first did not raise |
| BackupTask.BackupFromOpening | src/youwol/data_manager/tasks/backup/task.py:80-103 | a backup is everything up to the end of the maintenance window, then the item phase unless that raised |
| BackupTask.MovesGo | src/youwol/data_manager/tasks/backup/task.py:94-99 | a phase over the subtasks succeeds exactly when each subtask's call does |
| BackupTask.FullInOrder | src/youwol/data_manager/tasks/backup/task.py:80-110 | the calls of a backup that goes through come stage by stage: wait, metadata, the Google Drive entry, prepares, window entry, runs, window exit, directory items, log file |
| BackupTask.BeforeSwept | src/youwol/data_manager/tasks/backup/task.py:82-95 | the calls before the window are in stage order, never past the prepares, and are all of them when none raised |
| BackupTask.RunsSwept | src/youwol/data_manager/tasks/backup/task.py:97-99 | the calls inside the window are runs, and every run is made when none raised |
| BackupTask.AfterSwept | src/youwol/data_manager/tasks/backup/task.py:101-103 | the calls after the window are item calls in stage order, all of them when none raised |
| BackupTask.BackupInOrder | src/youwol/data_manager/tasks/backup/task.py:80-110 | in every backup the calls go stage by stage; the archive is finalized if and only if nothing raised, and then every call was made |
| BackupTask.BackupFinalizesIff | src/youwol/data_manager/tasks/backup/task.py:80-105 | the archive is finalized exactly when the wait, every metadata, prepare and run call, the window entry and exit, and every directory item succeed |
| BackupTask.BeforeGo | src/youwol/data_manager/tasks/backup/task.py:82-95 | the part before the window goes through exactly when the wait, every metadata call and every prepare do |
| BackupTask.RunsGo | src/youwol/data_manager/tasks/backup/task.py:98-99 | the run phase goes through exactly when every run does |
| BackupTask.AfterGo | src/youwol/data_manager/tasks/backup/task.py:101-103 | the item phase goes through exactly when every subtask's directory item does |
| BackupTask.WaitFailureStopsAll | src/youwol/data_manager/tasks/backup/task.py:82 | when the readiness wait raises, nothing else is called and the archive is not touched |
| BackupTask.RunFailureLeavesWindow | src/youwol/data_manager/tasks/backup/task.py:97-103 | when a run raises inside an entered window, the window is still left, the exit is the last call, no item is added and nothing is finalized or uploaded; the run's error stands unless the exit raises |
| BackupTask.LegacyCalls | src/tasks/backup/task.py:52-79 | the legacy task: metadata of Cassandra, S3, Keycloak under fixed keys, the Google Drive entry, the S3 prepare only, the three runs in the window, the three items and the log file |
| BackupTask.OldestCalls | src/tasks/backup/task_backup.py:39-64 | the oldest task: the same as the legacy one without any prepare, and no readiness wait |
| BackupTask.CurrentCalls | src/youwol/data_manager/tasks/backup/task.py:80-103 | the current task waits first and goes over its subtask list, in its order, in every phase |
| BackupTask.ApplyAllAppend | src/youwol/data_manager/services/archiver.py:88-122 | applying two lists of archive updates in turn is applying their concatenation |
| BackupTask.CassandraMetadataMangled | src/youwol/data_manager/tasks/backup/task.py:85 | as written, unpacking the Cassandra dict stores the string "versions" under the key "host" and loses both answers |
| BackupTask.CorrectedCassandraMetadataKept | src/youwol/data_manager/tasks/backup/cassandra.py:87-96 | with the Cassandra metadata as a ("cql", {host, versions}) pair, the archive stores the same entry as the legacy task |
| BackupTask.BackupTask.constructor | src/youwol/data_manager/tasks/backup/task.py:71-78 | the task keeps its plan, services, archive, log file and upload name and folder; no call made yet |
| BackupTask.BackupTask.ApplyUpdate | src/youwol/data_manager/services/archiver.py:88-122 | one metadata or item update applied to the archive creator, keeping it valid |
| BackupTask.BackupTask.Perform | src/youwol/data_manager/tasks/backup/task.py:84-103 | one phase run imperatively: the calls made and the archive updates are exactly those of the phase's specification |
| BackupTask.BackupTask.Finish | src/youwol/data_manager/tasks/backup/task.py:105-110 | the metadata file is written; an item with a missing path raises and nothing is uploaded; otherwise the archive is uploaded under the configured name and folder, and the upload's failure is the error |
| BackupTask.BackupTask.Window | src/youwol/data_manager/tasks/backup/task.py:97-99 | the maintenance window: a failed entry skips the runs; otherwise the runs are made and the window is left even if one raised |
| BackupTask.BackupTask.Open | src/youwol/data_manager/tasks/backup/task.py:82-99 | the phases up to the end of the window follow their specification |
| BackupTask.BackupTask.Phases | src/youwol/data_manager/tasks/backup/task.py:82-103 | the calls made and the archive contents are those of the backup specification; it ends without error exactly when the archive is to be finalized |
| BackupTask.BackupTask.Run | src/youwol/data_manager/tasks/backup/task.py:80-110 | `run` as a whole: a run that stops early leaves the disk untouched; one that gets through finalizes the archive and uploads it |
| RestoreTask.CassandraFailureSkipsS3 | src/youwol/data_manager/tasks/restore/task.py:36-37 | when the Cassandra restore raises, the restore ends as Cassandra did and no S3 call is made |
| RestoreTask.CassandraBeforeS3 | src/youwol/data_manager/tasks/restore/task.py:36-37 | when Cassandra succeeds, the calls are the Cassandra calls and then those of the S3 restore run from where Cassandra stopped |
| RestoreTask.RestoreTask.Current | src/youwol/data_manager/tasks/restore/task.py:16-31 | the current task waits for the containers and holds the two subtasks |
| RestoreTask.RestoreTask.Legacy | src/tasks/restore/task.py:12-20 | the legacy and oldest tasks hold the two subtasks and do not wait |
| RestoreTask.RestoreTask.Run | src/youwol/data_manager/tasks/restore/task.py:33-37 | a failed readiness wait stops the restore before any call or directory change; otherwise the Cassandra restore runs, then the S3 restore unless Cassandra raised, exactly as the combined plan |
| SetupTask.NameLeTotal | src/youwol/data_manager/tasks/setup/task.py:109 | Python's string order on archive names is total, so the sort by name is well defined |
| SetupTask.NameLeTrans | src/youwol/data_manager/tasks/setup/task.py:109 | the string order on archive names is transitive |
| SetupTask.NameLeAntisymmetric | src/youwol/data_manager/tasks/setup/task.py:109 | two names each at most the other are equal |
| SetupTask.Latest | src/youwol/data_manager/tasks/setup/task.py:109 | the last element of the stable sort by name: an archive whose name is maximal, and the last listed among those of that name |
| SetupTask.LatestUnique | src/youwol/data_manager/tasks/setup/task.py:109 | only one archive is of maximal name and listed last among those of its name, so the choice does not depend on how the sort is done |
| SetupTask.ChooseLatest | src/youwol/data_manager/tasks/setup/task.py:102-113 | without an archive name the setup downloads exactly the archive of maximal name, listed last among those of that name |
| SetupTask.Parent | src/youwol/data_manager/tasks/setup/task.py:82-84 | the parent of the status file is "." or "/" or a proper prefix of the path ending just before a slash |
| SetupTask.ExtractAllStep | src/youwol/data_manager/tasks/setup/task.py:128-129 | extracting one more item adds that item's members on top of what the earlier items gave |
| SetupTask.ExtractAllAdds | src/youwol/data_manager/tasks/setup/task.py:128-129 | extraction only adds: every directory and every file path already there stays |
| SetupTask.ExtractAllLastItem | src/youwol/data_manager/tasks/setup/task.py:128-129 | every file member of the last extracted item lands at `<work dir>/<member name>` with its text |
| SetupTask.DownloadRemoved | src/youwol/data_manager/tasks/setup/task.py:124-130 | once the archive setup succeeds, the downloaded `setup_archive.tgz` is gone |
| SetupTask.SetupTask.Current | src/youwol/data_manager/tasks/setup/task.py:40-69 | the current task always prepares Keycloak and extracts its items by their values |
| SetupTask.SetupTask.Legacy | src/tasks/setup/task.py:59-88 | the legacy task prepares Keycloak only when details are given and extracts the item names it was given |
| SetupTask.SetupTask.Oldest | src/tasks/setup/task_setup.py:19-32 | the oldest task never prepares Keycloak |
| SetupTask.SetupTask.PrepareKeycloak | src/youwol/data_manager/tasks/setup/task.py:77-95 | fails, with nothing changed, exactly when there are details and the status file's parent or one of its ancestors is a file; otherwise, with details, the parent and its ancestors become directories, the status file holds "SETUP" and a newline, and the script holds the export script; without details nothing changes |
| SetupTask.SetupTask.ExtractItems | src/youwol/data_manager/tasks/setup/task.py:128-129 | each item in turn is extracted from the download, leaving the disk as the extraction specification says |
| SetupTask.SetupTask.SetupArchive | src/youwol/data_manager/tasks/setup/task.py:124-130 | an unknown id fails the download with nothing changed; otherwise the archive is downloaded, each item extracted in order and the download deleted |
| SetupTask.SetupTask.Run | src/youwol/data_manager/tasks/setup/task.py:71-100 | a Keycloak status directory that cannot be made raises before anything else and changes nothing; after the Keycloak step: an empty listing without a name skips with a warning and no error; an unknown name raises "not found"; otherwise the latest or the named archive is set up |
| Builders.Bind | src/youwol/data_manager/tasks/setup/builder.py:85-96 | Python's keyword binding: a call succeeds exactly when every keyword is a parameter and every parameter gets a keyword; an unexpected keyword is named in the error, and a missing-parameter error comes only when no keyword was unexpected |
| Builders.FirstUnexpected | src/youwol/data_manager/tasks/setup/builder.py:85-96 | the first keyword argument that is not a parameter, or none exactly when all are |
| Builders.Unbound | src/youwol/data_manager/tasks/setup/builder.py:85-96 | the parameters left without an argument are exactly those not given as keywords |
| Builders.SelectionMembers | src/youwol/data_manager/tasks/backup/builder.py:176-188 | a subtask is built if and only if "all" or its own spelling is listed |
| Builders.SelectionSorted | src/youwol/data_manager/tasks/backup/builder.py:176-188 | the subtasks come S3 first, then Cassandra, then Keycloak, each at most once |
| Builders.SelectionIgnoresListingOrder | src/youwol/data_manager/tasks/backup/builder.py:176-188 | only which entries are listed matters, not their order or repetition |
| Builders.AllSelectsEverything | src/youwol/data_manager/tasks/backup/builder.py:176-188 | "all" alone selects the three subtasks |
| Builders.SelectSubtasks | src/youwol/data_manager/tasks/backup/builder.py:176-188 | the three conditional appends build exactly the selection |
| Builders.JobSubtasks | src/youwol/data_manager/tasks/backup/builder.py:167 | with `JOB_SUBTASKS` unset the listing is the default |
| Builders.CheckedSubtasks | src/youwol/data_manager/tasks/backup/builder.py:167-171 | a listing passes the check if and only if it does not hold "all" together with other entries |
| Builders.BackupBuilt | src/youwol/data_manager/tasks/backup/builder.py:159-199 | a built backup uploads `<stamp>_<JOB_UUID>.tgz` into the `TYPE_BACKUP` folder and builds the subtasks the listing selects |
| Builders.BackupDefaultsToAll | src/youwol/data_manager/tasks/backup/builder.py:167 | with `JOB_SUBTASKS` unset a built backup runs all three subtasks |
| Builders.BackupRejectsAllWithOthers | src/youwol/data_manager/tasks/backup/builder.py:167-171 | once the other variables are sound, the backup build fails exactly when "all" comes with other entries, and with that error |
| Builders.RestoreNeverBuilt | src/youwol/data_manager/tasks/restore/builder.py:173-177 | as written the restore build never yields a task: `Task` takes no `subtasks` keyword |
| Builders.RestoreBuilt | src/youwol/data_manager/tasks/restore/builder.py:149-177 | with the constructor the builder expects, the restore builds exactly the selected subtasks, and otherwise fails with the listing's error |
| Builders.ScriptOf | src/youwol/data_manager/tasks/setup/builder.py:59-66 | `KEYCLOAK_SCRIPT` must be set, non-blank and equal to the import or the export value; import is chosen exactly when it equals the import value; any other value raises with that value |
| Builders.ItemsOf | src/youwol/data_manager/tasks/setup/builder.py:68-83 | one archive item per selected component |
| Builders.ItemsSelected | src/youwol/data_manager/tasks/setup/builder.py:68-83 | an item is extracted if and only if its component is selected; the metadata item never is |
| Builders.SelectItems | src/youwol/data_manager/tasks/setup/builder.py:71-83 | the three conditional appends build exactly the item list |
| Builders.SetupNeverBuilt | src/youwol/data_manager/tasks/setup/builder.py:85-96 | as written the setup build never yields a task; once every earlier read succeeds, it raises on the `path_keycloak_common_script` keyword |
| Builders.SetupBuilt | src/youwol/data_manager/tasks/setup/builder.py:52-108 | with the four fields the builder passes, a setup builds whenever its inputs are sound, extracting the selected items with the script `KEYCLOAK_SCRIPT` names |
| Builders.ProbesOf | src/youwol/data_manager/services/builder.py:439-451 | a MinIO probe exactly when S3 is selected and a Keycloak probe exactly when Keycloak is, MinIO first |
| Builders.CassandraOnlyWaitsForNothing | src/youwol/data_manager/services/builder.py:439-451 | a Cassandra-only job passes the check and waits for no container |
| Builders.SelectProbes | src/youwol/data_manager/services/builder.py:445-451 | the conditional appends build exactly the probe list |
| Builders.MaintenanceChoice | src/youwol/data_manager/services/builder.py:261-271 | unset `MAINTENANCE_ENABLE` chooses the cluster's maintenance mode; the no-op mode is chosen exactly when the variable reads as false |
| Builders.MaintenanceOffWhenFalse | src/youwol/data_manager/services/builder.py:261-271 | a set `MAINTENANCE_ENABLE` turns maintenance off exactly when its stripped text is a false spelling |
| Builders.McNetworkOf | src/youwol/data_manager/services/builder.py:131-136 | the two ports default to 9000 and TLS to true; a built network holds exactly what the integer and boolean readers gave |
| Builders.Cached.constructor | src/youwol/data_manager/services/builder.py:74-88 | a getter starts with no cached instance |
| Builders.Cached.Get | src/youwol/data_manager/services/builder.py:74-88 | a cached instance is returned without building again; otherwise the built instance is returned and, when it was built, cached |
| Builders.GetTwice | src/youwol/data_manager/services/builder.py:81-86 | two calls to a getter yield the same instance once the first succeeded, whatever the second would have built |
| Builders.BuildBackup | src/youwol/data_manager/tasks/backup/builder.py:151-199 | the backup task is built once and cached in the context; a cached task is returned unchanged |
| Builders.BuildUncached | src/youwol/data_manager/tasks/backup/builder.py:159-199 | the body of the backup build with its appends equals the build specification |
| UploadName.Digits | src/youwol/data_manager/tasks/backup/builder.py:163 | a zero-padded `strftime` field is exactly as wide as its format says |
| UploadName.DigitsOrder | src/youwol/data_manager/tasks/backup/builder.py:163 | zero-padded numbers of one width sort as text exactly as they sort as numbers |
| UploadName.DigitsInjective | src/youwol/data_manager/tasks/backup/builder.py:163 | two zero-padded numbers of one width are the same text only when they are the same number |
| UploadName.Stamp | src/youwol/data_manager/tasks/backup/builder.py:163 | `%Y%m%d%H%M%S` writes 14 characters |
| UploadName.StampFields | src/youwol/data_manager/tasks/backup/builder.py:163 | a stamp is its year, month, day, hour, minute and second, each zero-padded, in that order |
| UploadName.TimeOfDayOrder | src/youwol/data_manager/tasks/backup/builder.py:163 | times of day sort as text exactly as they sort in time |
| UploadName.StampOrder | src/youwol/data_manager/tasks/backup/builder.py:163 | stamps sort as text exactly as the times they write sort in time |
| UploadName.Name | src/youwol/data_manager/tasks/backup/builder.py:162-164 | the upload name is the 14-character stamp, `_`, the job UUID and `.tgz`, each recoverable from its place |
| UploadName.LaterNameGreater | src/youwol/data_manager/tasks/backup/builder.py:162-164 | a backup started later, whatever the job UUIDs, gets a strictly greater upload name |
| UploadName.SetupTakesLaterBackup | src/youwol/data_manager/tasks/setup/task.py:102-113 | given two uploads only, the setup without an archive name picks the one started later, in either listing order |
| Strings.Strip | src/youwol/data_manager/configuration/env_utils.py:247 | `str.strip()`: no longer than its input, and neither starts nor ends with whitespace |
| Strings.StripIdempotent | src/youwol/data_manager/configuration/env_utils.py:303-306 | stripping twice is stripping once |
| Strings.StripEmptyIffBlank | src/youwol/data_manager/configuration/env_utils.py:247 | a value is empty once stripped exactly when it is all whitespace |
| Strings.JoinSplit | src/youwol/data_manager/configuration/env_utils.py:361 | joining the pieces of `str.split(sep)` with `sep` gives the text back |
| Strings.SplitJoin | src/youwol/data_manager/configuration/env_utils.py:361 | splitting a join of separator-free pieces on that separator gives the pieces back |
| Strings.IntToStringRoundTrip | src/youwol/data_manager/configuration/env_utils.py:338-341 | `int(str(n)) == n` for every integer, and `str(n)` needs no stripping |
| Strings.ParseIntOfStripped | src/youwol/data_manager/configuration/env_utils.py:338 | `int()` ignores surrounding whitespace |
| Disk.Disk.ReadText | src/tasks/backup/keycloak.py:40 | reading a file gives its text, and a missing file is an error naming the path |
| Disk.Disk.WriteText | src/youwol/data_manager/tasks/setup/task.py:85-87 | writing creates or replaces that one file and changes nothing else |
| Disk.Disk.MakeDirs | src/youwol/data_manager/tasks/setup/task.py:82-84 | `mkdir(parents=True, exist_ok=True)` succeeds exactly when neither the path nor any ancestor is a file or an archive, and then adds the directory and all its ancestors; otherwise it raises and changes nothing |
| Disk.Disk.Unlink | src/youwol/data_manager/tasks/setup/task.py:130 | unlinking removes exactly the file or archive at that path |

## Left out

- Process and tool I/O (`subprocess`, `json.loads`, `tarfile`, gzip) is not modelled. The runners take tool output from an oracle. The subtasks see each `mc`, `cqlsh` and Keycloak admin command as one call whose failure an oracle decides. The archive is a sequence of path and content members, not the ustar/gzip byte format.
- Google Drive (`src/services/google_drive.py`) is not modelled as a client. The setup sees a `Drive` value (listing, ids, contents), and the backup sees the upload as one call with an outcome.
- Kubernetes API calls are two mutable cells plus a failure oracle indexed by call number.
- The OIDC and Keycloak clients (token requests, discovery, `system_info`, the MinIO health GET) are oracles or opaque values.
- `time.sleep` and `datetime.now` are replaced by an integer clock. Sleeps inside the maintenance window and the `mc` retry take no modelled time. Probes take no time on the readiness clock.
- Logging goes to an appended sequence of lines. `print` and the log-file append are not modelled beyond that.
- The filesystem helpers `existing_path`, `non_existing_path`, `empty_dir`, `creating_file` and `file` of the current env_utils are not modelled; their outcomes are parameters of the builders. The asset copies (`assets/utils.py`, `services/assets/svc.py`) are not modelled; the setup always writes the `KC_EXPORT_SH` text as given.
- The builders' other environment reads (keys, hosts, credentials, paths) are not modelled. Only subtask selection, probe selection, the maintenance choice, MinIO ports and TLS, memoisation and the upload name are.
- `JobSubtasks`, `KeycloakScript` and the names `JOB_SUBTASKS` and `KEYCLOAK_SCRIPT` are not defined in the configuration files of the repository. Their spellings are parameters, required to be distinct; only `"all"` is a literal.
- The current backup Keycloak subtask's `run` is inherited from a base class (`BackupSubtask`) that is not part of this model. Only its metadata, prepare and layout are modelled, and its run is one oracle call.
- Dependency-injection plumbing (`svc.py`, the legacy `tasks.py` and `builder.py` files, `tasks_context.py`), the `__init__.py` re-exports and the entry points are not modelled.
- The legacy reporting module is the same text as the current one, so one `Reporting` module models both.
- The legacy `McCommands` uses the same protocol as the current one. One class models both, and its rows cite whichever tree states the property.
- The legacy `MaintenanceDetails` getters are the fields of a datatype.
- Subtasks.PollFrom: the legacy Keycloak status-file poll has no timeout in the source. The model bounds it by `fuel` sleeps and reports "still waiting" when the fuel runs out. It does not capture the unbounded loop.
- Readiness.ContainersReadiness.Wait: requires `interval != 0`. The model's clock moves only by the sleeps between rounds, while the source reads the wall clock (src/youwol/data_manager/services/containers_readiness.py:107-112). With interval 0 the source polls without pause and still gives up after `wait_timeout`; the model cannot express that, so it excludes interval 0. The only construction (src/youwol/data_manager/services/builder.py:453-457) uses the default interval of 5.
- UploadName.Stamp: covers years 1000 to 9999 only, where `%Y` writes four digits.
- SetupTask.Parent: takes the text before the last `/`. It does not normalise trailing or repeated slashes as `pathlib` does.
- Archiver.ArchiveExtractor.ExtractDirItem: does not model the errors `extractall` raises when a member's path, or one of its parents, is already a file or a directory of the other kind. Extracted members overlay the disk's directories and files.
- JSON numbers are integers (`JsonValues.JNum` holds an `int`). Floats that `json.loads` reads from tool output, such as those in `mc admin info`, are not represented.
- An `ERROR` Keycloak status counts as ready in the readiness probe: the probe only tests that the stripped status is not `SETUP` (src/youwol/data_manager/services/containers_readiness.py:59-64).

## Findings

| source | as written | input that shows it | evidently intended | confidence | as-written member | corrected member |
|---|---|---|---|---|---|---|
| src/tasks/backup/task_backup_s3.py:11-12 | `TaskBackupS3.__init__` passes four arguments to `TaskS3.__init__`, which takes `(path_work_dir, mc_commands, buckets)`. Also, `tasks.common` does not export `TaskS3`, so the import itself fails | any construction of `TaskBackupS3` | pass the three arguments the parent takes and keep the report in the subclass | not executed | Subtasks.OldestBackupS3NeverBuilt | Subtasks.CorrectedBackupS3Built |
| src/youwol/data_manager/tasks/backup/task.py:85 | `add_metadata(*subtask.metadata())` where the Cassandra subtask returns the dict `{"host": ..., "versions": ...}`: unpacking a dict gives its keys | a Cassandra subtask with any host and versions | store the Cassandra metadata under `cql`, as the S3 and Keycloak subtasks' `(key, value)` pairs do | not executed | BackupTask.CassandraMetadataMangled | BackupTask.CorrectedCassandraMetadataKept |
| src/youwol/data_manager/tasks/restore/builder.py:173-177 | `Task(containers_readiness=..., subtasks=..., context_maintenance=...)`, while the restore `Task` takes `containers_readiness`, `task_restore_cassandra` and `task_restore_s3` | any restore build | the builder selects a list of subtasks from `JOB_SUBTASKS`, as the backup builder does, so the restore `Task` is meant to take `containers_readiness`, `subtasks` and `context_maintenance`, as the backup `Task` does; the shown `Task` predates the list-driven builder | not executed | Builders.RestoreNeverBuilt | Builders.RestoreBuilt |
| src/youwol/data_manager/tasks/setup/builder.py:85-96 | `KeycloakDetails` is built with four keyword arguments, including `path_keycloak_common_script`, but has two fields | a setup with Keycloak selected | build `KeycloakDetails` with the fields it declares | not executed | Builders.SetupNeverBuilt | Builders.SetupBuilt |

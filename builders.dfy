/**
 * The builders of the current tree: how `build()` of the backup, restore
 * and setup tasks reads the job parameters, which subtasks, archive items
 * and readiness probes it selects, the name it gives the upload, and how
 * `services/builder.py` chooses the maintenance mode, the MinIO client's
 * ports and caches what it builds.
 */
module Builders {
  import opened Wrappers
  import opened Strings
  import opened EnvUtils
  import opened Layout
  import Archiver
  import UploadName

  /**
   * The values of `JobSubtasks` other than `ALL` and the names of the
   * `JOB_SUBTASKS` and `KEYCLOAK_SCRIPT` variables, which the
   * configuration package does not define; `ALL` is "all", as the error
   * message and the defaults spell it.
   */
  datatype Spellings = Spellings(subtasksVariable: string, s3: string, cassandra: string, keycloak: string,
                                 scriptVariable: string, importValue: string, exportValue: string)
  {
    function Of(c: Component): string {
      match c
      case S3 => s3
      case Cassandra => cassandra
      case Keycloak => keycloak
    }
  }

  const All: string := "all"

  /** Why a keyword call raised `TypeError`: an argument it does not take, or parameters left without one. */
  datatype KwError = Unexpected(name: string) | Missing(names: seq<string>)

  /** Why a `build()` raised. */
  datatype BuildError =
    | EnvFailed(error: EnvError)
    | AllWithOthers
    | BadScript(value: string)
    | Binding(kwError: KwError)

  /**
   * Python binding the keyword arguments of a call to the parameters of
   * the callee: the first argument it does not take raises, then the
   * parameters still without an argument do.
   */
  function Bind(params: seq<string>, kwargs: seq<string>): (r: Result<(), KwError>)
    ensures r.Ok? <==> (forall k :: k in kwargs ==> k in params) && (forall p :: p in params ==> p in kwargs)
    ensures r.Err? && r.error.Unexpected? ==> r.error.name in kwargs && r.error.name !in params
    ensures r.Err? && r.error.Missing? ==> forall k :: k in kwargs ==> k in params
  {
    var unexpected := FirstUnexpected(params, kwargs);
    if unexpected.Some? then Err(Unexpected(unexpected.value))
    else
      var missing := Unbound(params, kwargs);
      if missing == [] then Ok(())
      else
        assert missing[0] in missing;
        Err(Missing(missing))
  }

  /** The first keyword argument that is not a parameter. */
  function FirstUnexpected(params: seq<string>, kwargs: seq<string>): (r: Option<string>)
    ensures r.None? <==> forall k :: k in kwargs ==> k in params
    ensures r.Some? ==> r.value in kwargs && r.value !in params
  {
    if kwargs == [] then None
    else if kwargs[0] !in params then Some(kwargs[0])
    else FirstUnexpected(params, kwargs[1..])
  }

  /** The parameters given no argument, in declaration order. */
  function Unbound(params: seq<string>, kwargs: seq<string>): (r: seq<string>)
    ensures forall p :: p in r <==> p in params && p !in kwargs
  {
    if params == [] then []
    else (if params[0] in kwargs then [] else [params[0]]) + Unbound(params[1..], kwargs)
  }

  /** `"all"` together with any other entry. */
  predicate MixesAll(listing: seq<string>) {
    All in listing && |listing| != 1
  }

  /** `"all"` selects every component; otherwise a component is selected by its own spelling. */
  predicate Selects(sp: Spellings, listing: seq<string>, c: Component) {
    All in listing || sp.Of(c) in listing
  }

  /** The order subtasks are built in, whatever the order of the listing. */
  const Order: seq<Component> := [S3, Cassandra, Keycloak]

  function Rank(c: Component): nat {
    match c
    case S3 => 0
    case Cassandra => 1
    case Keycloak => 2
  }

  /** The subtasks `build()` appends: each selected component, in `Order`. */
  function Selection(sp: Spellings, listing: seq<string>): seq<Component> {
    (if Selects(sp, listing, S3) then [S3] else [])
    + (if Selects(sp, listing, Cassandra) then [Cassandra] else [])
    + (if Selects(sp, listing, Keycloak) then [Keycloak] else [])
  }

  /** A component is built iff `"all"` or its own spelling is listed. */
  lemma SelectionMembers(sp: Spellings, listing: seq<string>, c: Component)
    ensures c in Selection(sp, listing) <==> Selects(sp, listing, c)
  {
  }

  /** Subtasks come S3 first, then Cassandra, then Keycloak, each at most once. */
  lemma SelectionSorted(sp: Spellings, listing: seq<string>)
    ensures var r := Selection(sp, listing);
      forall i, j :: 0 <= i < j < |r| ==> Rank(r[i]) < Rank(r[j])
  {
  }

  /** Only which entries are listed matters, not their order or repetition. */
  lemma SelectionIgnoresListingOrder(sp: Spellings, l1: seq<string>, l2: seq<string>)
    requires forall e :: e in l1 <==> e in l2
    ensures Selection(sp, l1) == Selection(sp, l2)
  {
  }

  /** `"all"` alone selects the three components. */
  lemma AllSelectsEverything(sp: Spellings)
    ensures Selection(sp, [All]) == Order
  {
  }

  /** The conditional appends of `build()`. */
  method SelectSubtasks(sp: Spellings, listing: seq<string>) returns (r: seq<Component>)
    ensures r == Selection(sp, listing)
  {
    r := [];
    if All in listing || sp.s3 in listing {
      r := r + [S3];
    }
    if All in listing || sp.cassandra in listing {
      r := r + [Cassandra];
    }
    if All in listing || sp.keycloak in listing {
      r := r + [Keycloak];
    }
  }

  /** `maybe_strings_list(JOB_SUBTASKS, default)`, its error raised as the builder's. */
  function JobSubtasks(env: Env, sp: Spellings, default: seq<string>): (r: Result<seq<string>, BuildError>)
    ensures sp.subtasksVariable !in env ==> r == Ok(default)
  {
    match MaybeStringsList(env, sp.subtasksVariable, Some(default), ":")
    case Err(e) => Err(EnvFailed(e))
    case Ok(listing) => Ok(listing)
  }

  /** The listing once the "all with others" check passed. */
  function CheckedSubtasks(env: Env, sp: Spellings, default: seq<string>): (r: Result<seq<string>, BuildError>)
    ensures r.Ok? ==> !MixesAll(r.value)
    ensures JobSubtasks(env, sp, default).Ok? ==>
      (r.Ok? <==> !MixesAll(JobSubtasks(env, sp, default).value))
  {
    match JobSubtasks(env, sp, default)
    case Err(e) => Err(e)
    case Ok(listing) => if MixesAll(listing) then Err(AllWithOthers) else Ok(listing)
  }

  // ---------------------------------------------------------------- backup

  /** What the backup `build()` hands to `Task`. */
  datatype BackupConfig = BackupConfig(subtasks: seq<Component>, uploadName: string, uploadFolder: string,
                                       logPath: string, jobUuid: string)

  /**
   * The backup `build()`: the log file (`existing_path`, given as its
   * outcome), `JOB_UUID`, `TYPE_BACKUP`, the subtask list, the check,
   * then the selection.
   */
  function BackupBuild(env: Env, sp: Spellings, clock: UploadName.Clock, logPath: Result<string, EnvError>): Result<BackupConfig, BuildError>
    requires UploadName.ValidClock(clock)
  {
    if logPath.Err? then Err(EnvFailed(logPath.error))
    else match NotEmptyString(env, "JOB_UUID")
    case Err(e) => Err(EnvFailed(e))
    case Ok(jobUuid) =>
      match NotEmptyString(env, "TYPE_BACKUP")
      case Err(e) => Err(EnvFailed(e))
      case Ok(folder) =>
        match CheckedSubtasks(env, sp, [All])
        case Err(e) => Err(e)
        case Ok(listing) =>
          Ok(BackupConfig(Selection(sp, listing), UploadName.Name(clock, jobUuid), folder, logPath.value, jobUuid))
  }

  /**
   * A built backup uploads `<stamp>_<JOB_UUID>.tgz` into the `TYPE_BACKUP`
   * folder and builds the subtasks the listing selects.
   */
  lemma BackupBuilt(env: Env, sp: Spellings, clock: UploadName.Clock, logPath: Result<string, EnvError>)
    requires UploadName.ValidClock(clock)
    requires BackupBuild(env, sp, clock, logPath).Ok?
    ensures var b := BackupBuild(env, sp, clock, logPath).value;
      && "JOB_UUID" in env && "TYPE_BACKUP" in env && JobSubtasks(env, sp, [All]).Ok?
      && b.jobUuid == env["JOB_UUID"] && b.uploadName == UploadName.Name(clock, b.jobUuid)
      && b.uploadFolder == env["TYPE_BACKUP"]
      && b.subtasks == Selection(sp, JobSubtasks(env, sp, [All]).value)
  {
  }

  /** With `JOB_SUBTASKS` unset, a built backup runs all three subtasks. */
  lemma BackupDefaultsToAll(env: Env, sp: Spellings, clock: UploadName.Clock, logPath: Result<string, EnvError>)
    requires UploadName.ValidClock(clock)
    requires BackupBuild(env, sp, clock, logPath).Ok?
    requires sp.subtasksVariable !in env
    ensures BackupBuild(env, sp, clock, logPath).value.subtasks == Order
  {
    BackupBuilt(env, sp, clock, logPath);
    assert JobSubtasks(env, sp, [All]) == Ok([All]);
    AllSelectsEverything(sp);
  }

  /** With the variables set, the backup build fails exactly when `"all"` comes with other entries. */
  lemma BackupRejectsAllWithOthers(env: Env, sp: Spellings, clock: UploadName.Clock, logPath: string)
    requires UploadName.ValidClock(clock)
    requires NotEmptyString(env, "JOB_UUID").Ok? && NotEmptyString(env, "TYPE_BACKUP").Ok?
    requires JobSubtasks(env, sp, [All]).Ok?
    ensures BackupBuild(env, sp, clock, Ok(logPath)).Err? <==> MixesAll(JobSubtasks(env, sp, [All]).value)
    ensures BackupBuild(env, sp, clock, Ok(logPath)).Err? ==> BackupBuild(env, sp, clock, Ok(logPath)) == Err(AllWithOthers)
  {
  }

  // --------------------------------------------------------------- restore

  /** The parameters of the restore `Task` constructor. */
  const RestoreTaskParams: seq<string> := ["containers_readiness", "task_restore_cassandra", "task_restore_s3"]

  /** The keyword arguments the restore `build()` passes to `Task`. */
  const RestoreBuildKwargs: seq<string> := ["containers_readiness", "subtasks", "context_maintenance"]

  /**
   * The restore `build()` as written: the subtask list and its check,
   * then `Task(...)`, which does not take the arguments it is given.
   */
  function RestoreBuildAsWritten(env: Env, sp: Spellings): Result<seq<Component>, BuildError> {
    match CheckedSubtasks(env, sp, [All])
    case Err(e) => Err(e)
    case Ok(listing) =>
      match Bind(RestoreTaskParams, RestoreBuildKwargs)
      case Err(e) => Err(Binding(e))
      case Ok(_) => Ok(Selection(sp, listing))
  }

  /** Whatever the environment, the restore build as written never yields a task. */
  lemma RestoreNeverBuilt(env: Env, sp: Spellings)
    ensures RestoreBuildAsWritten(env, sp).Err?
    ensures CheckedSubtasks(env, sp, [All]).Ok? ==> RestoreBuildAsWritten(env, sp) == Err(Binding(Unexpected("subtasks")))
  {
    assert RestoreBuildKwargs[1] == "subtasks";
    assert RestoreBuildKwargs[0] in RestoreTaskParams;
  }

  /**
   * The parameters of a restore `Task` that takes the selected subtasks and
   * the maintenance window, as the backup `Task` does and as the builder
   * expects.
   */
  const CorrectedRestoreTaskParams: seq<string> := ["containers_readiness", "subtasks", "context_maintenance"]

  function RestoreBuild(env: Env, sp: Spellings): Result<seq<Component>, BuildError> {
    match CheckedSubtasks(env, sp, [All])
    case Err(e) => Err(e)
    case Ok(listing) =>
      match Bind(CorrectedRestoreTaskParams, RestoreBuildKwargs)
      case Err(e) => Err(Binding(e))
      case Ok(_) => Ok(Selection(sp, listing))
  }

  /** With the constructor the builder expects, the restore builds exactly the selected subtasks. */
  lemma RestoreBuilt(env: Env, sp: Spellings)
    ensures CheckedSubtasks(env, sp, [All]).Ok? ==>
      RestoreBuild(env, sp) == Ok(Selection(sp, CheckedSubtasks(env, sp, [All]).value))
    ensures CheckedSubtasks(env, sp, [All]).Err? ==> RestoreBuild(env, sp) == Err(CheckedSubtasks(env, sp, [All]).error)
  {
    assert Bind(CorrectedRestoreTaskParams, RestoreBuildKwargs) == Ok(());
  }

  // ----------------------------------------------------------------- setup

  /** `KeycloakScript` */
  datatype KeycloakScript = Import | Export

  /**
   * `KEYCLOAK_SCRIPT` must be set and equal (unstripped) to the IMPORT or
   * the EXPORT value; IMPORT is chosen iff it equals the IMPORT value.
   */
  function ScriptOf(env: Env, sp: Spellings): (r: Result<KeycloakScript, BuildError>)
    ensures r.Ok? <==> sp.scriptVariable in env && HasText(env[sp.scriptVariable])
                       && (env[sp.scriptVariable] == sp.importValue || env[sp.scriptVariable] == sp.exportValue)
    ensures r == Ok(Import) <==> sp.scriptVariable in env && HasText(env[sp.scriptVariable]) && env[sp.scriptVariable] == sp.importValue
    ensures sp.scriptVariable in env && HasText(env[sp.scriptVariable]) && r.Err? ==> r == Err(BadScript(env[sp.scriptVariable]))
  {
    match NotEmptyString(env, sp.scriptVariable)
    case Err(e) => Err(EnvFailed(e))
    case Ok(v) =>
      if v != sp.exportValue && v != sp.importValue then Err(BadScript(v))
      else Ok(if v == sp.importValue then Import else Export)
  }

  /** The archive items `build()` appends: the selected components' items, MINIO, CQL, KEYCLOAK. */
  function ItemsOf(sp: Spellings, listing: seq<string>): (r: seq<Archiver.ArchiveItem>)
    ensures |r| == |Selection(sp, listing)|
  {
    var s := Selection(sp, listing);
    seq(|s|, i requires 0 <= i < |s| => ItemOf(s[i]))
  }

  /** An item is extracted iff its component is selected; the metadata never is. */
  lemma ItemsSelected(sp: Spellings, listing: seq<string>, c: Component)
    ensures ItemOf(c) in ItemsOf(sp, listing) <==> Selects(sp, listing, c)
    ensures Archiver.Metadata !in ItemsOf(sp, listing)
  {
    SelectionMembers(sp, listing, c);
    var s := Selection(sp, listing);
    var items := ItemsOf(sp, listing);
    if ItemOf(c) in items {
      var i :| 0 <= i < |s| && items[i] == ItemOf(c);
      assert s[i] == c;
    }
    if c in s {
      var i :| 0 <= i < |s| && s[i] == c;
      assert items[i] == ItemOf(c);
    }
  }

  /** The conditional appends of the setup `build()`. */
  method SelectItems(sp: Spellings, listing: seq<string>) returns (r: seq<Archiver.ArchiveItem>)
    ensures r == ItemsOf(sp, listing)
  {
    var s := SelectSubtasks(sp, listing);
    r := [];
    var i := 0;
    while i < |s|
      invariant 0 <= i <= |s|
      invariant r == ItemsOf(sp, listing)[..i]
    {
      r := r + [ItemOf(s[i])];
      i := i + 1;
    }
  }

  /** What the setup `build()` hands to `Task`. */
  datatype SetupConfig = SetupConfig(workDir: string, archiveName: Option<string>, script: KeycloakScript,
                                     items: seq<Archiver.ArchiveItem>, statusFile: string, scriptFile: string)

  /** The fields of `KeycloakDetails` in the setup task. */
  const KeycloakDetailsFields: seq<string> := ["path_keycloak_status_file", "path_keycloak_script"]

  /** The keyword arguments the setup `build()` passes to `KeycloakDetails`. */
  const KeycloakDetailsKwargs: seq<string> :=
    ["path_keycloak_status_file", "path_keycloak_common_script", "path_keycloak_script", "keycloak_script"]

  /**
   * The setup `build()` against the `KeycloakDetails` fields `fields`:
   * the working directory (`existing_path`), the archive name, the
   * script, the subtask list (no "all with others" check), the three
   * files (`creating_file`, given as their outcomes), then the details.
   */
  function SetupBuildWith(fields: seq<string>, env: Env, sp: Spellings, workDir: Result<string, EnvError>,
                          statusFile: Result<string, EnvError>, commonScript: Result<string, EnvError>,
                          scriptFile: Result<string, EnvError>): Result<SetupConfig, BuildError>
  {
    if workDir.Err? then Err(EnvFailed(workDir.error))
    else
      var archiveName := MaybeString(env, "RESTORE_ARCHIVE_NAME", None);
      match ScriptOf(env, sp)
      case Err(e) => Err(e)
      case Ok(script) =>
        match JobSubtasks(env, sp, [All])
        case Err(e) => Err(e)
        case Ok(listing) =>
          if statusFile.Err? then Err(EnvFailed(statusFile.error))
          else if commonScript.Err? then Err(EnvFailed(commonScript.error))
          else if scriptFile.Err? then Err(EnvFailed(scriptFile.error))
          else match Bind(fields, KeycloakDetailsKwargs)
          case Err(e) => Err(Binding(e))
          case Ok(_) =>
            Ok(SetupConfig(workDir.value, archiveName, script, ItemsOf(sp, listing), statusFile.value, scriptFile.value))
  }

  /** The setup build as written: against the two fields of `KeycloakDetails`. */
  function SetupBuildAsWritten(env: Env, sp: Spellings, workDir: Result<string, EnvError>,
                               statusFile: Result<string, EnvError>, commonScript: Result<string, EnvError>,
                               scriptFile: Result<string, EnvError>): Result<SetupConfig, BuildError> {
    SetupBuildWith(KeycloakDetailsFields, env, sp, workDir, statusFile, commonScript, scriptFile)
  }

  /** Once every file is created, the setup build as written raises on `path_keycloak_common_script`. */
  lemma SetupNeverBuilt(env: Env, sp: Spellings, workDir: Result<string, EnvError>,
                        statusFile: Result<string, EnvError>, commonScript: Result<string, EnvError>,
                        scriptFile: Result<string, EnvError>)
    ensures SetupBuildAsWritten(env, sp, workDir, statusFile, commonScript, scriptFile).Err?
    ensures workDir.Ok? && ScriptOf(env, sp).Ok? && JobSubtasks(env, sp, [All]).Ok?
            && statusFile.Ok? && commonScript.Ok? && scriptFile.Ok? ==>
      SetupBuildAsWritten(env, sp, workDir, statusFile, commonScript, scriptFile) == Err(Binding(Unexpected("path_keycloak_common_script")))
  {
    assert KeycloakDetailsKwargs[0] in KeycloakDetailsFields;
    assert KeycloakDetailsKwargs[1] !in KeycloakDetailsFields;
  }

  /** The setup build with `KeycloakDetails` holding the four fields the builder passes. */
  function SetupBuild(env: Env, sp: Spellings, workDir: Result<string, EnvError>,
                      statusFile: Result<string, EnvError>, commonScript: Result<string, EnvError>,
                      scriptFile: Result<string, EnvError>): Result<SetupConfig, BuildError> {
    SetupBuildWith(KeycloakDetailsKwargs, env, sp, workDir, statusFile, commonScript, scriptFile)
  }

  /**
   * With the four fields, a setup builds whenever its inputs are sound:
   * it extracts the selected items, "all" with others included, and uses
   * the script `KEYCLOAK_SCRIPT` names.
   */
  lemma SetupBuilt(env: Env, sp: Spellings, workDir: string, statusFile: string, commonScript: string, scriptFile: string)
    requires ScriptOf(env, sp).Ok? && JobSubtasks(env, sp, [All]).Ok?
    ensures var r := SetupBuild(env, sp, Ok(workDir), Ok(statusFile), Ok(commonScript), Ok(scriptFile));
      && r.Ok?
      && r.value.items == ItemsOf(sp, JobSubtasks(env, sp, [All]).value)
      && r.value.script == ScriptOf(env, sp).value
      && r.value.archiveName == MaybeString(env, "RESTORE_ARCHIVE_NAME", None)
  {
    assert Bind(KeycloakDetailsKwargs, KeycloakDetailsKwargs) == Ok(());
  }

  // -------------------------------------------------------------- services

  /** The readiness probes. */
  datatype Probe = MinioProbe | KeycloakProbe

  /** The probes `get_containers_readiness_builder` appends: MinIO for S3, then Keycloak. */
  function ProbesOf(sp: Spellings, listing: seq<string>): (r: seq<Probe>)
    ensures MinioProbe in r <==> Selects(sp, listing, S3)
    ensures KeycloakProbe in r <==> Selects(sp, listing, Keycloak)
    ensures |r| == 2 ==> r == [MinioProbe, KeycloakProbe]
  {
    (if Selects(sp, listing, S3) then [MinioProbe] else []) + (if Selects(sp, listing, Keycloak) then [KeycloakProbe] else [])
  }

  /** The probe list of the readiness service, or the error its builder raises. */
  function Readiness(env: Env, sp: Spellings): Result<seq<Probe>, BuildError> {
    match CheckedSubtasks(env, sp, [All])
    case Err(e) => Err(e)
    case Ok(listing) => Ok(ProbesOf(sp, listing))
  }

  /** Cassandra alone has no container to wait for: the probe list is empty. */
  lemma CassandraOnlyWaitsForNothing(sp: Spellings)
    requires sp.cassandra != All && sp.cassandra != sp.s3 && sp.cassandra != sp.keycloak
    ensures !MixesAll([sp.cassandra]) && ProbesOf(sp, [sp.cassandra]) == []
  {
  }

  /** The conditional appends of `get_containers_readiness_builder`. */
  method SelectProbes(sp: Spellings, listing: seq<string>) returns (r: seq<Probe>)
    ensures r == ProbesOf(sp, listing)
  {
    r := [];
    if All in listing || sp.s3 in listing {
      r := r + [MinioProbe];
    }
    if All in listing || sp.keycloak in listing {
      r := r + [KeycloakProbe];
    }
  }

  /** The context maintenance service: the cluster's maintenance mode, or the no-op one. */
  datatype MaintenanceKind = ClusterMode | NoopMode

  /** `MAINTENANCE_ENABLE`, true by default, chooses the cluster's maintenance mode. */
  function MaintenanceChoice(env: Env): (r: Result<MaintenanceKind, BuildError>)
    ensures "MAINTENANCE_ENABLE" !in env ==> r == Ok(ClusterMode)
    ensures r == Ok(NoopMode) <==> Boolean(env, "MAINTENANCE_ENABLE", Some(true)) == Ok(false)
  {
    match Boolean(env, "MAINTENANCE_ENABLE", Some(true))
    case Err(e) => Err(EnvFailed(e))
    case Ok(enabled) => Ok(if enabled then ClusterMode else NoopMode)
  }

  /** A set `MAINTENANCE_ENABLE` turns the maintenance mode off exactly when it spells false. */
  lemma MaintenanceOffWhenFalse(env: Env)
    requires "MAINTENANCE_ENABLE" in env
    ensures MaintenanceChoice(env) == Ok(NoopMode) <==> Strip(env["MAINTENANCE_ENABLE"]) in FalseStrings
  {
  }

  /** How the MinIO client reaches the local instance and S3. */
  datatype McNetwork = McNetwork(localPort: int, s3Port: int, s3Tls: bool)

  /** `MINIO_LOCAL_PORT`, `S3_PORT` (both 9000 by default) and `S3_TLS` (true by default), in that order. */
  function McNetworkOf(env: Env): (r: Result<McNetwork, BuildError>)
    ensures "MINIO_LOCAL_PORT" !in env && "S3_PORT" !in env && "S3_TLS" !in env ==> r == Ok(McNetwork(9000, 9000, true))
    ensures r.Ok? ==>
      && Integer(env, "MINIO_LOCAL_PORT", Some(9000)) == Ok(r.value.localPort)
      && Integer(env, "S3_PORT", Some(9000)) == Ok(r.value.s3Port)
      && Boolean(env, "S3_TLS", Some(true)) == Ok(r.value.s3Tls)
  {
    match Integer(env, "MINIO_LOCAL_PORT", Some(9000))
    case Err(e) => Err(EnvFailed(e))
    case Ok(localPort) =>
      match Integer(env, "S3_PORT", Some(9000))
      case Err(e) => Err(EnvFailed(e))
      case Ok(s3Port) =>
        match Boolean(env, "S3_TLS", Some(true))
        case Err(e) => Err(EnvFailed(e))
        case Ok(tls) => Ok(McNetwork(localPort, s3Port, tls))
  }

  /**
   * A field of the builders' `context`: once it holds an instance, its
   * getter returns that instance without reading the environment again.
   */
  class Cached<T> {
    var held: Option<T>

    constructor ()
      ensures held == None
    {
      held := None;
    }

    /**
     * `get_<service>_builder()()`: the cached instance, or the instance
     * built from `made` (the outcome of reading the environment and
     * constructing), which is then cached.
     */
    method Get(made: Result<T, BuildError>) returns (r: Result<T, BuildError>)
      modifies this
      ensures old(held).Some? ==> r == Ok(old(held).value) && held == old(held)
      ensures old(held).None? ==> r == made && held == (if made.Ok? then Some(made.value) else None)
    {
      if held.Some? {
        return Ok(held.value);
      }
      r := made;
      if made.Ok? {
        held := Some(made.value);
      }
    }
  }

  /** Two calls to a getter yield the same instance, whatever the second call would have built. */
  method GetTwice<T>(cache: Cached<T>, first: Result<T, BuildError>, second: Result<T, BuildError>)
    returns (a: Result<T, BuildError>, b: Result<T, BuildError>)
    modifies cache
    ensures a.Ok? ==> b == a
  {
    a := cache.Get(first);
    b := cache.Get(second);
  }

  /** The backup `build()`, cached in `context.task`. */
  method BuildBackup(task: Cached<BackupConfig>, env: Env, sp: Spellings, clock: UploadName.Clock,
                     logPath: Result<string, EnvError>) returns (r: Result<BackupConfig, BuildError>)
    requires UploadName.ValidClock(clock)
    modifies task
    ensures old(task.held).Some? ==> r == Ok(old(task.held).value) && task.held == old(task.held)
    ensures old(task.held).None? ==> r == BackupBuild(env, sp, clock, logPath)
    ensures r.Ok? ==> task.held == Some(r.value)
  {
    if task.held.Some? {
      return Ok(task.held.value);
    }
    r := BuildUncached(env, sp, clock, logPath);
    r := task.Get(r);
  }

  /** The body of the backup `build()` past the cache check, with its appends. */
  method BuildUncached(env: Env, sp: Spellings, clock: UploadName.Clock, logPath: Result<string, EnvError>)
    returns (r: Result<BackupConfig, BuildError>)
    requires UploadName.ValidClock(clock)
    ensures r == BackupBuild(env, sp, clock, logPath)
  {
    if logPath.Err? {
      return Err(EnvFailed(logPath.error));
    }
    var jobUuid := NotEmptyString(env, "JOB_UUID");
    if jobUuid.Err? {
      return Err(EnvFailed(jobUuid.error));
    }
    var folder := NotEmptyString(env, "TYPE_BACKUP");
    if folder.Err? {
      return Err(EnvFailed(folder.error));
    }
    var name := UploadName.Name(clock, jobUuid.value);
    var listing := CheckedSubtasks(env, sp, [All]);
    if listing.Err? {
      return Err(listing.error);
    }
    var subtasks := SelectSubtasks(sp, listing.value);
    r := Ok(BackupConfig(subtasks, name, folder.value, logPath.value, jobUuid.value));
  }
}

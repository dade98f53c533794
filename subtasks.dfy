/**
 * The subtasks of backup and restore: S3, Cassandra and Keycloak. Each one
 * holds the working directory and the lists it was built with, and works
 * through `Services`, which keeps the log of the commands invoked, and
 * through the disk. The current tree and the two legacy trees share most
 * of this code; where they differ (flags fixed or passed in, metadata as a
 * pair or as a bare dict, the Keycloak poll loop) the classes say which.
 */
module Subtasks {
  import opened Wrappers
  import opened JsonValues
  import opened Disk
  import opened Layout
  import opened Plans
  import Archiver
  import Strings

  /** The tool runners as the subtasks see them: each call succeeds or raises, and may answer a JSON value. */
  class Services {
    const fails: (nat, Call) -> bool
    const answer: (nat, Call) -> Json
    /** The calls made so far, oldest first. */
    var calls: seq<Call>

    constructor (fails: (nat, Call) -> bool, answer: (nat, Call) -> Json)
      ensures this.fails == fails && this.answer == answer && calls == []
    {
      this.fails := fails;
      this.answer := answer;
      calls := [];
    }

    /** One call, told by the oracles from the number of calls made before it. */
    method Invoke(c: Call) returns (r: Result<Json, SubtaskError>)
      modifies this`calls
      ensures calls == old(calls) + [c]
      ensures r == if fails(|old(calls)|, c) then Err(CommandFailed(c)) else Ok(answer(|old(calls)|, c))
    {
      r := if fails(|calls|, c) then Err(CommandFailed(c)) else Ok(answer(|calls|, c));
      calls := calls + [c];
    }
  }

  /**
   * Since `calls0` and `dirs0`, exactly `plan` was run: the calls made and
   * the directories are those of the plan, and `r` is how it ended.
   */
  ghost predicate Performed(services: Services, disk: Disk, calls0: seq<Call>, dirs0: set<string>, plan: seq<Step>, r: Result<(), SubtaskError>)
    reads services, disk
  {
    && |calls0| <= |services.calls| && services.calls[..|calls0|] == calls0
    && RunPlan(Env(disk.files, disk.archives, services.fails, |calls0|), dirs0, plan) == Effect(disk.dirs, services.calls[|calls0|..], r)
  }

  /** The plan up to step `i + 1` is the plan up to step `i` and then step `i`. */
  lemma Advance(env: Env, dirs: set<string>, plan: seq<Step>, i: nat)
    requires i < |plan|
    ensures RunPlan(env, dirs, plan[..i + 1]) == Next(env, RunPlan(env, dirs, plan[..i]), plan[i])
  {
    assert plan[..i + 1][..i] == plan[..i];
  }

  /** A plan whose first `k` steps raised ends as they did. */
  lemma RaisedPrefix(env: Env, dirs: set<string>, plan: seq<Step>, k: nat)
    requires k <= |plan| && RunPlan(env, dirs, plan[..k]).result.Err?
    ensures RunPlan(env, dirs, plan) == RunPlan(env, dirs, plan[..k])
  {
    RaisedStays(env, dirs, plan[..k], plan[k..]);
    assert plan[..k] + plan[k..] == plan;
  }

  /** The steps of the bucket loop, one per bucket. */
  lemma {:induction false} BucketStepsAt(op: BucketOp, buckets: seq<string>)
    ensures |BucketSteps(op, buckets)| == |buckets|
    ensures forall i :: 0 <= i < |buckets| ==> BucketSteps(op, buckets)[i] == Invoke(BucketCall(op, buckets[i]))
    decreases |buckets|
  {
    if buckets != [] {
      BucketStepsAt(op, buckets[..|buckets| - 1]);
    }
  }

  /** The steps of the keyspace loop: a directory check, then the call, for each keyspace. */
  lemma {:induction false} KeyspaceStepsAt(workDir: string, op: CqlOp, keyspaces: seq<string>)
    ensures |KeyspaceSteps(workDir, op, keyspaces)| == 2 * |keyspaces|
    ensures forall i :: 0 <= i < |keyspaces| ==>
      && KeyspaceSteps(workDir, op, keyspaces)[2 * i] == CheckDir(PathJoin(workDir, SchemaPath), CqlPolicy(op))
      && KeyspaceSteps(workDir, op, keyspaces)[2 * i + 1] == Invoke(KeyspaceCall(workDir, op, keyspaces[i]))
    decreases |keyspaces|
  {
    if keyspaces != [] {
      KeyspaceStepsAt(workDir, op, keyspaces[..|keyspaces| - 1]);
    }
  }

  lemma {:induction false} TableStepsAt(workDir: string, op: CqlOp, tables: seq<string>)
    ensures |TableSteps(workDir, op, tables)| == 2 * |tables|
    ensures forall i :: 0 <= i < |tables| ==>
      && TableSteps(workDir, op, tables)[2 * i] == CheckDir(PathJoin(workDir, DataPath), CqlPolicy(op))
      && TableSteps(workDir, op, tables)[2 * i + 1] == Invoke(TableCall(workDir, op, tables[i]))
    decreases |tables|
  {
    if tables != [] {
      TableStepsAt(workDir, op, tables[..|tables| - 1]);
    }
  }

  lemma {:induction false} KeyspaceStepsLength(workDir: string, op: CqlOp, keyspaces: seq<string>)
    ensures |KeyspaceSteps(workDir, op, keyspaces)| == 2 * |keyspaces|
    decreases |keyspaces|
  {
    if keyspaces != [] {
      KeyspaceStepsLength(workDir, op, keyspaces[..|keyspaces| - 1]);
    }
  }

  lemma {:induction false} TableStepsLength(workDir: string, op: CqlOp, tables: seq<string>)
    ensures |TableSteps(workDir, op, tables)| == 2 * |tables|
    decreases |tables|
  {
    if tables != [] {
      TableStepsLength(workDir, op, tables[..|tables| - 1]);
    }
  }

  /** The two steps of the keyspace `keyspaces[i]`. */
  lemma KeyspacePair(workDir: string, op: CqlOp, keyspaces: seq<string>, i: nat)
    requires i < |keyspaces|
    ensures |KeyspaceSteps(workDir, op, keyspaces)| == 2 * |keyspaces|
    ensures KeyspaceSteps(workDir, op, keyspaces)[2 * i] == CheckDir(PathJoin(workDir, SchemaPath), CqlPolicy(op))
    ensures KeyspaceSteps(workDir, op, keyspaces)[2 * i + 1] == Invoke(KeyspaceCall(workDir, op, keyspaces[i]))
  {
    KeyspaceStepsAt(workDir, op, keyspaces);
  }

  /** The two steps of the table `tables[j]`. */
  lemma TablePair(workDir: string, op: CqlOp, tables: seq<string>, j: nat)
    requires j < |tables|
    ensures |TableSteps(workDir, op, tables)| == 2 * |tables|
    ensures TableSteps(workDir, op, tables)[2 * j] == CheckDir(PathJoin(workDir, DataPath), CqlPolicy(op))
    ensures TableSteps(workDir, op, tables)[2 * j + 1] == Invoke(TableCall(workDir, op, tables[j]))
  {
    TableStepsAt(workDir, op, tables);
  }

  /** The loop over the buckets: one call per bucket, in order, until one raises. */
  method RunBuckets(services: Services, disk: Disk, op: BucketOp, buckets: seq<string>) returns (r: Result<(), SubtaskError>)
    modifies services`calls
    ensures Performed(services, disk, old(services.calls), disk.dirs, BucketSteps(op, buckets), r)
  {
    ghost var c0, dirs0 := services.calls, disk.dirs;
    ghost var env := Env(disk.files, disk.archives, services.fails, |c0|);
    ghost var plan := BucketSteps(op, buckets);
    ghost var e := Effect(dirs0, [], Ok(()));
    BucketStepsAt(op, buckets);
    var i := 0;
    while i < |buckets|
      invariant 0 <= i <= |buckets|
      invariant e == RunPlan(env, dirs0, plan[..i]) && e.result == Ok(()) && e.dirs == dirs0
      invariant services.calls == c0 + e.calls
    {
      Advance(env, dirs0, plan, i);
      var done := services.Invoke(BucketCall(op, buckets[i]));
      e := Next(env, e, plan[i]);
      if done.Err? {
        RaisedPrefix(env, dirs0, plan, i + 1);
        assert services.calls[|c0|..] == e.calls;
        return Err(done.error);
      }
      i := i + 1;
    }
    assert plan[..i] == plan;
    assert services.calls[|c0|..] == e.calls;
    r := Ok(());
  }

  /**
   * One keyspace: check the schema directory, then dump or restore
   * `<keyspace>.cql` in the directory it returned.
   */
  method OneKeyspace(services: Services, disk: Disk, workDir: string, op: CqlOp, keyspace: string)
    returns (r: Result<(), SubtaskError>)
    modifies services`calls, disk`dirs
    ensures Performed(services, disk, old(services.calls), old(disk.dirs),
                      [CheckDir(PathJoin(workDir, SchemaPath), CqlPolicy(op)), Invoke(KeyspaceCall(workDir, op, keyspace))], r)
  {
    ghost var c0, dirs0 := services.calls, disk.dirs;
    ghost var env := Env(disk.files, disk.archives, services.fails, |c0|);
    ghost var pair := [CheckDir(PathJoin(workDir, SchemaPath), CqlPolicy(op)), Invoke(KeyspaceCall(workDir, op, keyspace))];
    Advance(env, dirs0, pair, 0);
    Advance(env, dirs0, pair, 1);
    assert pair[..2] == pair;
    var dir := PathDirMaybeExists(disk, workDir, SchemaPath, CqlPolicy(op));
    if dir.Err? {
      return Err(LayoutFailed(dir.error));
    }
    var file := PathJoin(dir.value, keyspace + ".cql");
    var call := if op.CqlBackup? then BackupDdl(keyspace, file) else RestoreDdl(keyspace, file, op.overwrite);
    var done := services.Invoke(call);
    r := if done.Err? then Err(done.error) else Ok(());
  }

  /**
   * One table: check the data directory, then dump or restore
   * `<table>.csv` in the directory it returned.
   */
  method OneTable(services: Services, disk: Disk, workDir: string, op: CqlOp, table: string)
    returns (r: Result<(), SubtaskError>)
    modifies services`calls, disk`dirs
    ensures Performed(services, disk, old(services.calls), old(disk.dirs),
                      [CheckDir(PathJoin(workDir, DataPath), CqlPolicy(op)), Invoke(TableCall(workDir, op, table))], r)
  {
    ghost var c0, dirs0 := services.calls, disk.dirs;
    ghost var env := Env(disk.files, disk.archives, services.fails, |c0|);
    ghost var pair := [CheckDir(PathJoin(workDir, DataPath), CqlPolicy(op)), Invoke(TableCall(workDir, op, table))];
    Advance(env, dirs0, pair, 0);
    Advance(env, dirs0, pair, 1);
    assert pair[..2] == pair;
    var dir := PathDirMaybeExists(disk, workDir, DataPath, CqlPolicy(op));
    if dir.Err? {
      return Err(LayoutFailed(dir.error));
    }
    var file := PathJoin(dir.value, table + ".csv");
    var call := if op.CqlBackup? then BackupTable(table, file) else RestoreTable(table, file, op.overwrite);
    var done := services.Invoke(call);
    r := if done.Err? then Err(done.error) else Ok(());
  }

  /** The loop over the keyspaces, in order, until one raises. */
  method RunKeyspaces(services: Services, disk: Disk, workDir: string, op: CqlOp, keyspaces: seq<string>)
    returns (r: Result<(), SubtaskError>)
    modifies services`calls, disk`dirs
    ensures Performed(services, disk, old(services.calls), old(disk.dirs), KeyspaceSteps(workDir, op, keyspaces), r)
  {
    ghost var c0, dirs0 := services.calls, disk.dirs;
    ghost var env := Env(disk.files, disk.archives, services.fails, |c0|);
    ghost var plan := KeyspaceSteps(workDir, op, keyspaces);
    KeyspaceStepsLength(workDir, op, keyspaces);
    var i := 0;
    while i < |keyspaces|
      invariant 0 <= i <= |keyspaces|
      invariant Performed(services, disk, c0, dirs0, plan[..2 * i], Ok(()))
    {
      KeyspacePair(workDir, op, keyspaces, i);
      ghost var c1, d1 := services.calls, disk.dirs;
      var done := OneKeyspace(services, disk, workDir, op, keyspaces[i]);
      assert plan[..2 * i + 2] == plan[..2 * i] + [plan[2 * i], plan[2 * i + 1]];
      Sequence(env, c0, c1, services.calls, dirs0, d1, disk.dirs, plan[..2 * i], [plan[2 * i], plan[2 * i + 1]], done);
      if done.Err? {
        RaisedPrefix(env, dirs0, plan, 2 * i + 2);
        return done;
      }
      i := i + 1;
    }
    assert plan[..2 * i] == plan;
    r := Ok(());
  }

  /** The loop over the tables, in order, until one raises. */
  method RunTables(services: Services, disk: Disk, workDir: string, op: CqlOp, tables: seq<string>)
    returns (r: Result<(), SubtaskError>)
    modifies services`calls, disk`dirs
    ensures Performed(services, disk, old(services.calls), old(disk.dirs), TableSteps(workDir, op, tables), r)
  {
    ghost var c0, dirs0 := services.calls, disk.dirs;
    ghost var env := Env(disk.files, disk.archives, services.fails, |c0|);
    ghost var plan := TableSteps(workDir, op, tables);
    TableStepsLength(workDir, op, tables);
    var j := 0;
    while j < |tables|
      invariant 0 <= j <= |tables|
      invariant Performed(services, disk, c0, dirs0, plan[..2 * j], Ok(()))
    {
      TablePair(workDir, op, tables, j);
      ghost var c1, d1 := services.calls, disk.dirs;
      var done := OneTable(services, disk, workDir, op, tables[j]);
      assert plan[..2 * j + 2] == plan[..2 * j] + [plan[2 * j], plan[2 * j + 1]];
      Sequence(env, c0, c1, services.calls, dirs0, d1, disk.dirs, plan[..2 * j], [plan[2 * j], plan[2 * j + 1]], done);
      if done.Err? {
        RaisedPrefix(env, dirs0, plan, 2 * j + 2);
        return done;
      }
      j := j + 1;
    }
    assert plan[..2 * j] == plan;
    r := Ok(());
  }

  /** The bucket loop, then `stop_local` when no bucket raised. */
  method RunBucketsThenStop(services: Services, disk: Disk, op: BucketOp, buckets: seq<string>) returns (r: Result<(), SubtaskError>)
    modifies services`calls
    ensures Performed(services, disk, old(services.calls), disk.dirs, BucketsThenStop(op, buckets), r)
  {
    ghost var env := Env(disk.files, disk.archives, services.fails, |services.calls|);
    var each := RunBuckets(services, disk, op, buckets);
    if each.Err? {
      RaisedStays(env, disk.dirs, BucketSteps(op, buckets), [Invoke(StopLocal)]);
      return each;
    }
    ghost var c1 := services.calls;
    Snoc(env, disk.dirs, BucketSteps(op, buckets), Invoke(StopLocal));
    var stop := services.Invoke(StopLocal);
    r := if stop.Err? then Err(stop.error) else Ok(());
    assert services.calls[env.start..] == c1[env.start..] + [StopLocal];
    assert services.calls[..env.start] == c1[..env.start];
  }

  /**
   * A plan run without error from `c0` to `c1`, then a second plan from
   * `c1` on: together, the two plans run from `c0`.
   */
  lemma Sequence(env: Env, c0: seq<Call>, c1: seq<Call>, c2: seq<Call>, d0: set<string>, d1: set<string>, d2: set<string>,
                 p: seq<Step>, q: seq<Step>, r: Result<(), SubtaskError>)
    requires env.start == |c0|
    requires |c0| <= |c1| && c1[..|c0|] == c0 && |c1| <= |c2| && c2[..|c1|] == c1
    requires RunPlan(env, d0, p) == Effect(d1, c1[|c0|..], Ok(()))
    requires RunPlan(env.(start := |c1|), d1, q) == Effect(d2, c2[|c1|..], r)
    ensures c2[..|c0|] == c0
    ensures RunPlan(env, d0, p + q) == Effect(d2, c2[|c0|..], r)
  {
    RunPlanAppend(env, d0, p, q);
    assert c2[|c0|..] == c1[|c0|..] + c2[|c1|..];
    assert c2[..|c0|] == c1[..|c0|];
  }

  /** The S3 metadata: the cluster URL and what `cluster_info` answered. */
  function S3Metadata(url: string, info: Json): Json {
    JObject(map["url" := JStr(url), "info" := info])
  }

  /** The Cassandra metadata: what `show_host` and `show_version` answered. */
  function CassandraMetadata(host: Json, versions: Json): Json {
    JObject(map["host" := host, "versions" := versions])
  }

  /** The Keycloak metadata: what `/admin/serverinfo` answered. */
  function KeycloakMetadata(info: Json): Json {
    JObject(map["server_info" := info])
  }

  /**
   * The backup subtask for S3 (`S3` of the current and legacy backup
   * packages, and the oldest `TaskBackupS3`): mirrors the cluster buckets
   * into the local MinIO.
   */
  class BackupS3 {
    const workDir: string
    const buckets: seq<string>
    /** `cluster_url()`, the base URL of the cluster instance. */
    const clusterUrl: string
    const services: Services
    const disk: Disk

    constructor (workDir: string, services: Services, disk: Disk, buckets: seq<string>, clusterUrl: string)
      ensures this.workDir == workDir && this.services == services && this.disk == disk
      ensures this.buckets == buckets && this.clusterUrl == clusterUrl
    {
      this.workDir := workDir;
      this.services := services;
      this.disk := disk;
      this.buckets := buckets;
      this.clusterUrl := clusterUrl;
    }

    /** `metadata` of the current tree: the pair `("s3", {url, info})`; raises when `cluster_info` does. */
    method Metadata() returns (r: Result<(string, Json), SubtaskError>)
      modifies services`calls
      ensures services.calls == old(services.calls) + [ClusterInfo]
      ensures var n := |old(services.calls)|;
        r == if services.fails(n, ClusterInfo) then Err(CommandFailed(ClusterInfo))
             else Ok(("s3", S3Metadata(clusterUrl, services.answer(n, ClusterInfo))))
    {
      var info := services.Invoke(ClusterInfo);
      if info.Err? {
        return Err(info.error);
      }
      r := Ok(("s3", S3Metadata(clusterUrl, info.value)));
    }

    /** `metadata` of the legacy tree: the dict alone. */
    method LegacyMetadata() returns (r: Result<Json, SubtaskError>)
      modifies services`calls
      ensures services.calls == old(services.calls) + [ClusterInfo]
      ensures var n := |old(services.calls)|;
        r == if services.fails(n, ClusterInfo) then Err(CommandFailed(ClusterInfo))
             else Ok(S3Metadata(clusterUrl, services.answer(n, ClusterInfo)))
    {
      var info := services.Invoke(ClusterInfo);
      if info.Err? {
        return Err(info.error);
      }
      r := Ok(S3Metadata(clusterUrl, info.value));
    }

    /** `prepare`: disk usage of each cluster bucket, in order; nothing is mirrored. */
    method Prepare() returns (r: Result<(), SubtaskError>)
      modifies services`calls
      ensures Performed(services, disk, old(services.calls), disk.dirs, BucketSteps(Du, buckets), r)
    {
      r := RunBuckets(services, disk, Du, buckets);
    }

    /** `run`: backs up each bucket, in order, then stops the local MinIO; the first failure ends it. */
    method Run() returns (r: Result<(), SubtaskError>)
      modifies services`calls
      ensures Performed(services, disk, old(services.calls), disk.dirs, BucketsThenStop(Backup, buckets), r)
    {
      r := RunBucketsThenStop(services, disk, Backup, buckets);
    }

    /** `task_path_dir_and_archive_item`: the `minio` directory must already exist (ERROR). */
    method PathDirAndArchiveItem() returns (r: Result<(string, Archiver.ArchiveItem), LayoutError>)
      modifies disk`dirs
      ensures disk.dirs == old(disk.dirs)
      ensures var o := MaybeExists(old(disk.dirs), disk.files, disk.archives, PathJoin(workDir, "minio"), Error);
        && (r.Ok? <==> o.result.Ok?)
        && (r.Ok? ==> r.value == (PathJoin(workDir, "minio"), Archiver.Minio))
        && (r.Err? ==> r.error == o.result.error)
    {
      r := Layout.PathDirAndArchiveItem(disk, workDir, S3, Error);
    }
  }

  /**
   * The restore subtask for S3 (`S3` of the current restore package and
   * the legacy `TaskRestoreS3`): mirrors the local buckets back to the
   * cluster.
   */
  class RestoreS3 {
    const workDir: string
    const buckets: seq<string>
    /** Whether each cluster bucket is removed before it is recreated. */
    const removeExistingBucket: bool
    const services: Services
    const disk: Disk

    /** The current tree always removes the existing bucket. */
    constructor Current(workDir: string, services: Services, disk: Disk, buckets: seq<string>)
      ensures this.workDir == workDir && this.services == services && this.disk == disk
      ensures this.buckets == buckets && removeExistingBucket
    {
      this.workDir := workDir;
      this.services := services;
      this.disk := disk;
      this.buckets := buckets;
      removeExistingBucket := true;
    }

    /** The legacy tree keeps the `overwrite` it is given. */
    constructor Legacy(workDir: string, services: Services, disk: Disk, buckets: seq<string>, overwrite: bool)
      ensures this.workDir == workDir && this.services == services && this.disk == disk
      ensures this.buckets == buckets && removeExistingBucket == overwrite
    {
      this.workDir := workDir;
      this.services := services;
      this.disk := disk;
      this.buckets := buckets;
      removeExistingBucket := overwrite;
    }

    /** `run`: restores each bucket, in order, then stops the local MinIO; the first failure ends it. */
    method Run() returns (r: Result<(), SubtaskError>)
      modifies services`calls
      ensures Performed(services, disk, old(services.calls), disk.dirs, BucketsThenStop(Restore(removeExistingBucket), buckets), r)
    {
      r := RunBucketsThenStop(services, disk, Restore(removeExistingBucket), buckets);
    }

    /** `task_path_dir_and_archive_item`: the `minio` directory must already exist (ERROR). */
    method PathDirAndArchiveItem() returns (r: Result<(string, Archiver.ArchiveItem), LayoutError>)
      modifies disk`dirs
      ensures disk.dirs == old(disk.dirs)
      ensures var o := MaybeExists(old(disk.dirs), disk.files, disk.archives, PathJoin(workDir, "minio"), Error);
        && (r.Ok? <==> o.result.Ok?)
        && (r.Ok? ==> r.value == (PathJoin(workDir, "minio"), Archiver.Minio))
    {
      r := Layout.PathDirAndArchiveItem(disk, workDir, S3, Error);
    }
  }

  /** The status of a Cassandra subtask once `run` ended. */
  function EndStatus(r: Result<(), SubtaskError>): string {
    if r.Ok? then "Done" else "Running"
  }

  /**
   * The Cassandra subtasks (`Cassandra` of the current backup and restore
   * packages, the legacy restore `Cassandra`, the oldest
   * `TaskBackupCassandra` and `TaskRestoreCassandra`): every keyspace's
   * schema, then every table's rows, each through the file
   * `cql/schema/<keyspace>.cql` or `cql/data/<table>.csv`.
   */
  class CassandraTask {
    const workDir: string
    const keyspaces: seq<string>
    const tables: seq<string>
    /** A backup, or a restore with its drop and truncate flag. */
    const op: CqlOp
    const services: Services
    const disk: Disk
    /** The status of the subtask's report. */
    var status: string

    /** A backup subtask. */
    constructor Backup(workDir: string, services: Services, disk: Disk, keyspaces: seq<string>, tables: seq<string>)
      ensures this.workDir == workDir && this.services == services && this.disk == disk
      ensures this.keyspaces == keyspaces && this.tables == tables && op == CqlBackup
      ensures status == "ComponentInitialized"
    {
      this.workDir := workDir;
      this.services := services;
      this.disk := disk;
      this.keyspaces := keyspaces;
      this.tables := tables;
      op := CqlBackup;
      status := "ComponentInitialized";
    }

    /** The current restore subtask: keyspaces are dropped and tables truncated first. */
    constructor CurrentRestore(workDir: string, services: Services, disk: Disk, keyspaces: seq<string>, tables: seq<string>)
      ensures this.workDir == workDir && this.services == services && this.disk == disk
      ensures this.keyspaces == keyspaces && this.tables == tables && op == CqlRestore(true)
      ensures status == "ComponentInitialized"
    {
      this.workDir := workDir;
      this.services := services;
      this.disk := disk;
      this.keyspaces := keyspaces;
      this.tables := tables;
      op := CqlRestore(true);
      status := "ComponentInitialized";
    }

    /** The legacy restore subtasks: `overwrite` is both the drop and the truncate flag. */
    constructor LegacyRestore(workDir: string, services: Services, disk: Disk, keyspaces: seq<string>, tables: seq<string>, overwrite: bool)
      ensures this.workDir == workDir && this.services == services && this.disk == disk
      ensures this.keyspaces == keyspaces && this.tables == tables && op == CqlRestore(overwrite)
      ensures status == "ComponentInitialized"
    {
      this.workDir := workDir;
      this.services := services;
      this.disk := disk;
      this.keyspaces := keyspaces;
      this.tables := tables;
      op := CqlRestore(overwrite);
      status := "ComponentInitialized";
    }

    /**
     * `run`: status "Running"; for each keyspace, check the schema
     * directory (created for a backup, required for a restore) and handle
     * `<keyspace>.cql`; then the same for each table in the data directory;
     * status "Done" only when all of it succeeded.
     */
    method Run() returns (r: Result<(), SubtaskError>)
      modifies services`calls, disk`dirs, this`status
      ensures Performed(services, disk, old(services.calls), old(disk.dirs), CassandraSteps(workDir, op, keyspaces, tables), r)
      ensures status == EndStatus(r)
    {
      status := "Running";
      ghost var env := Env(disk.files, disk.archives, services.fails, |services.calls|);
      ghost var c0, d0 := services.calls, disk.dirs;
      r := RunKeyspaces(services, disk, workDir, op, keyspaces);
      if r.Err? {
        RaisedStays(env, d0, KeyspaceSteps(workDir, op, keyspaces), TableSteps(workDir, op, tables));
        return;
      }
      ghost var c1, d1 := services.calls, disk.dirs;
      r := RunTables(services, disk, workDir, op, tables);
      Sequence(env, c0, c1, services.calls, d0, d1, disk.dirs, KeyspaceSteps(workDir, op, keyspaces), TableSteps(workDir, op, tables), r);
      if r.Err? {
        return;
      }
      status := "Done";
      r := Ok(());
    }

    /**
     * `metadata`: the dict `{host, versions}` (a dict in every tree, also
     * where the current orchestrator expects a pair).
     */
    method Metadata() returns (r: Result<Json, SubtaskError>)
      modifies services`calls
      ensures var n := |old(services.calls)|;
        && services.calls == old(services.calls) + (if services.fails(n, ShowHost) then [ShowHost] else [ShowHost, ShowVersion])
        && r == if services.fails(n, ShowHost) then Err(CommandFailed(ShowHost))
                else if services.fails(n + 1, ShowVersion) then Err(CommandFailed(ShowVersion))
                else Ok(CassandraMetadata(services.answer(n, ShowHost), services.answer(n + 1, ShowVersion)))
    {
      var host := services.Invoke(ShowHost);
      if host.Err? {
        return Err(host.error);
      }
      var versions := services.Invoke(ShowVersion);
      if versions.Err? {
        return Err(versions.error);
      }
      r := Ok(CassandraMetadata(host.value, versions.value));
    }

    /** `task_path_dir_and_archive_item`: `cql`, created by a backup (CREATE), required by a restore (ERROR). */
    method PathDirAndArchiveItem() returns (r: Result<(string, Archiver.ArchiveItem), LayoutError>)
      modifies disk`dirs
      ensures var o := MaybeExists(old(disk.dirs), disk.files, disk.archives, PathJoin(workDir, "cql"), CqlPolicy(op));
        && disk.dirs == o.dirs
        && (r.Ok? <==> o.result.Ok?)
        && (r.Ok? ==> r.value == (PathJoin(workDir, "cql"), Archiver.Cql))
    {
      var policy := if op.CqlBackup? then Create else Error;
      r := Layout.PathDirAndArchiveItem(disk, workDir, Cassandra, policy);
    }
  }

  /** The run ended without error exactly when its status is "Done". */
  lemma EndStatusDone(r: Result<(), SubtaskError>)
    ensures EndStatus(r) == "Done" <==> r.Ok?
    ensures EndStatus(r) != "ComponentInitialized"
  {
  }

  /**
   * The Keycloak backup subtask of the current tree: the export itself is
   * run by a script in the Keycloak container; the subtask gives the
   * metadata and the `kc` directory.
   */
  class BackupKeycloak {
    const workDir: string
    const services: Services
    const disk: Disk

    constructor (workDir: string, services: Services, disk: Disk)
      ensures this.workDir == workDir && this.services == services && this.disk == disk
    {
      this.workDir := workDir;
      this.services := services;
      this.disk := disk;
    }

    /** `metadata`: the pair `("kc", {"server_info": ...})`. */
    method Metadata() returns (r: Result<(string, Json), SubtaskError>)
      modifies services`calls
      ensures services.calls == old(services.calls) + [SystemInfo]
      ensures var n := |old(services.calls)|;
        r == if services.fails(n, SystemInfo) then Err(CommandFailed(SystemInfo))
             else Ok(("kc", KeycloakMetadata(services.answer(n, SystemInfo))))
    {
      var info := services.Invoke(SystemInfo);
      if info.Err? {
        return Err(info.error);
      }
      r := Ok(("kc", KeycloakMetadata(info.value)));
    }

    /** `prepare`: nothing to do; it always succeeds and changes nothing. */
    method Prepare() returns (r: Result<(), SubtaskError>)
      ensures r == Ok(())
    {
      r := Ok(());
    }

    /** `task_path_dir_and_archive_item`: `kc`, created when missing (CREATE). */
    method PathDirAndArchiveItem() returns (r: Result<(string, Archiver.ArchiveItem), LayoutError>)
      modifies disk`dirs
      ensures var o := MaybeExists(old(disk.dirs), disk.files, disk.archives, PathJoin(workDir, "kc"), Create);
        && disk.dirs == o.dirs
        && (r.Ok? <==> o.result.Ok?)
        && (r.Ok? ==> r.value == (PathJoin(workDir, "kc"), Archiver.Keycloak))
    {
      r := Layout.PathDirAndArchiveItem(disk, workDir, Keycloak, Create);
    }
  }

  /** What the poll loop writes to its report. */
  datatype Note =
    | Observed(status: string, changed: bool)  // notify "New status" when changed, debug "Status is still" otherwise
    | ErrorNote                                // fatal "Status file is ERROR"
    | DoneNote                                 // notify "Done"

  /** How the poll loop ended; `StillWaiting` when the bound on sleeps was reached. */
  datatype PollEnd = Finished | Raised(error: SubtaskError) | StillWaiting

  /** The loop's end, the number of the next read, the sleeps, and the notes. */
  datatype Poll = Poll(end: PollEnd, readCount: nat, sleeps: nat, notes: seq<Note>)

  /**
   * The poll loop from a status just read (the read numbered `n - 1`):
   * DONE ends it, ERROR raises, any other status is noted (as new when it
   * differs from the previous one), followed by a sleep and a new read.
   * A missing status file raises. At most `fuel` sleeps are taken.
   */
  function PollFrom(read: nat -> Option<string>, strip: string -> string, path: string,
                    status: string, previous: Option<string>, n: nat, fuel: nat): Poll
    decreases fuel
  {
    if status == "DONE" then Poll(Finished, n, 0, [DoneNote])
    else if status == "ERROR" then Poll(Raised(StatusIsError), n, 0, [ErrorNote])
    else
      var note := Observed(status, Some(status) != previous);
      if fuel == 0 then Poll(StillWaiting, n, 0, [note])
      else match read(n)
        case None => Poll(Raised(StatusFileMissing(path)), n + 1, 1, [note])
        case Some(text) =>
          var rest := PollFrom(read, strip, path, strip(text), Some(status), n + 1, fuel - 1);
          Poll(rest.end, rest.readCount, rest.sleeps + 1, [note] + rest.notes)
  }

  /** One round of the loop on a status that neither ends nor raises, with a status file still there. */
  lemma PollFromUnfold(read: nat -> Option<string>, strip: string -> string, path: string,
                       status: string, previous: Option<string>, n: nat, fuel: nat)
    requires status != "DONE" && status != "ERROR" && fuel > 0 && read(n).Some?
    ensures var rest := PollFrom(read, strip, path, strip(read(n).value), Some(status), n + 1, fuel - 1);
      PollFrom(read, strip, path, status, previous, n, fuel)
        == Poll(rest.end, rest.readCount, rest.sleeps + 1, [Observed(status, Some(status) != previous)] + rest.notes)
  {
  }

  /** The rounds of the loop that end it. */
  lemma PollFromExits(read: nat -> Option<string>, strip: string -> string, path: string,
                      status: string, previous: Option<string>, n: nat, fuel: nat)
    ensures status == "DONE" ==> PollFrom(read, strip, path, status, previous, n, fuel) == Poll(Finished, n, 0, [DoneNote])
    ensures status == "ERROR" ==> PollFrom(read, strip, path, status, previous, n, fuel) == Poll(Raised(StatusIsError), n, 0, [ErrorNote])
    ensures status != "DONE" && status != "ERROR" && fuel == 0 ==>
      PollFrom(read, strip, path, status, previous, n, fuel) == Poll(StillWaiting, n, 0, [Observed(status, Some(status) != previous)])
    ensures status != "DONE" && status != "ERROR" && fuel > 0 && read(n).None? ==>
      PollFrom(read, strip, path, status, previous, n, fuel) == Poll(Raised(StatusFileMissing(path)), n + 1, 1, [Observed(status, Some(status) != previous)])
  {
  }

  /** A loop resumed after `k` sleeps and the notes `notes`. */
  function Resume(k: nat, notes: seq<Note>, rest: Poll): Poll {
    Poll(rest.end, rest.readCount, k + rest.sleeps, notes + rest.notes)
  }

  /** One more round of the loop moves a note and a sleep out of the rest. */
  lemma ResumeStep(read: nat -> Option<string>, strip: string -> string, path: string,
                   status: string, previous: Option<string>, n: nat, fuel: nat, k: nat, notes: seq<Note>)
    requires status != "DONE" && status != "ERROR" && fuel > 0 && read(n).Some?
    ensures Resume(k, notes, PollFrom(read, strip, path, status, previous, n, fuel))
         == Resume(k + 1, notes + [Observed(status, Some(status) != previous)],
                   PollFrom(read, strip, path, strip(read(n).value), Some(status), n + 1, fuel - 1))
  {
    var rest := PollFrom(read, strip, path, strip(read(n).value), Some(status), n + 1, fuel - 1);
    PollFromUnfold(read, strip, path, status, previous, n, fuel);
    assert notes + ([Observed(status, Some(status) != previous)] + rest.notes)
        == notes + [Observed(status, Some(status) != previous)] + rest.notes;
  }

  /** The whole loop: the first read, then `PollFrom`. */
  function PollRun(read: nat -> Option<string>, strip: string -> string, path: string, n: nat, fuel: nat): Poll {
    match read(n)
    case None => Poll(Raised(StatusFileMissing(path)), n + 1, 0, [])
    case Some(text) => PollFrom(read, strip, path, strip(text), None, n + 1, fuel)
  }

  /** The status of the read numbered `k`, or None when the file was missing. */
  function StatusRead(read: nat -> Option<string>, strip: string -> string, k: nat): Option<string> {
    if read(k).Some? then Some(strip(read(k).value)) else None
  }

  /** Neither of the two statuses that end the loop. */
  predicate Waiting(s: Option<string>) {
    s.Some? && s.value != "DONE" && s.value != "ERROR"
  }

  lemma {:induction false} PollFromEnds(read: nat -> Option<string>, strip: string -> string, path: string,
                                        status: string, previous: Option<string>, n: nat, fuel: nat)
    requires n >= 1 && StatusRead(read, strip, n - 1) == Some(status)
    ensures var p := PollFrom(read, strip, path, status, previous, n, fuel);
      && p.readCount >= n && p.sleeps == p.readCount - n
      && (forall k :: n - 1 <= k < p.readCount - 1 ==> Waiting(StatusRead(read, strip, k)))
      && (p.end == Finished <==> StatusRead(read, strip, p.readCount - 1) == Some("DONE"))
      && (p.end == Raised(StatusIsError) <==> StatusRead(read, strip, p.readCount - 1) == Some("ERROR"))
      && (p.end.Raised? && p.end.error.StatusFileMissing? <==> StatusRead(read, strip, p.readCount - 1) == None)
      && (p.end == StillWaiting ==> p.sleeps == fuel && Waiting(StatusRead(read, strip, p.readCount - 1)))
    decreases fuel
  {
    if status != "DONE" && status != "ERROR" && fuel > 0 && read(n).Some? {
      PollFromEnds(read, strip, path, strip(read(n).value), Some(status), n + 1, fuel - 1);
    }
  }

  /**
   * The loop returns only on a DONE status and raises on an ERROR one,
   * the first status read that is either; every status before it was
   * read from an existing file; there is one sleep between two reads, so
   * an initial DONE returns without sleeping.
   */
  lemma PollRunEnds(read: nat -> Option<string>, strip: string -> string, path: string, n: nat, fuel: nat)
    ensures var p := PollRun(read, strip, path, n, fuel);
      && p.readCount > n && p.sleeps == p.readCount - n - 1
      && (forall k :: n <= k < p.readCount - 1 ==> Waiting(StatusRead(read, strip, k)))
      && (p.end == Finished <==> StatusRead(read, strip, p.readCount - 1) == Some("DONE"))
      && (p.end == Raised(StatusIsError) <==> StatusRead(read, strip, p.readCount - 1) == Some("ERROR"))
      && (p.end.Raised? && p.end.error.StatusFileMissing? <==> StatusRead(read, strip, p.readCount - 1) == None)
      && (StatusRead(read, strip, n) == Some("DONE") ==> p.end == Finished && p.sleeps == 0)
  {
    if read(n).Some? {
      PollFromEnds(read, strip, path, strip(read(n).value), None, n + 1, fuel);
    }
  }

  /** The statuses noted by the loop, in order. */
  predicate NotesChange(notes: seq<Note>, previous: Option<string>) {
    && (|notes| > 0 && notes[0].Observed? ==> (notes[0].changed <==> Some(notes[0].status) != previous))
    && (forall i :: 0 < i < |notes| && notes[i].Observed? ==>
          notes[i - 1].Observed? && (notes[i].changed <==> notes[i].status != notes[i - 1].status))
    && (forall i :: 0 <= i < |notes| - 1 ==> notes[i].Observed?)
  }

  lemma {:induction false} PollFromNotes(read: nat -> Option<string>, strip: string -> string, path: string,
                                         status: string, previous: Option<string>, n: nat, fuel: nat)
    ensures var p := PollFrom(read, strip, path, status, previous, n, fuel);
      NotesChange(p.notes, previous) && |p.notes| > 0
    decreases fuel
  {
    if status != "DONE" && status != "ERROR" && fuel > 0 && read(n).Some? {
      PollFromNotes(read, strip, path, strip(read(n).value), Some(status), n + 1, fuel - 1);
    }
  }

  /**
   * A status is announced as new exactly when it differs from the one
   * read before it (the first one always is); only the last note may be
   * the DONE or ERROR note.
   */
  lemma PollRunNotes(read: nat -> Option<string>, strip: string -> string, path: string, n: nat, fuel: nat)
    ensures NotesChange(PollRun(read, strip, path, n, fuel).notes, None)
  {
    if read(n).Some? {
      PollFromNotes(read, strip, path, strip(read(n).value), None, n + 1, fuel);
    }
  }

  /**
   * The Keycloak backup subtask of the legacy trees (`Keycloak` of the
   * legacy backup package and the oldest `TaskBackupKeycloak`): `run`
   * waits for the export script in the Keycloak container to write DONE
   * to the status file. `read(k)` is the text of the status file at the
   * k-th read, None when it is missing.
   */
  class LegacyBackupKeycloak {
    const workDir: string
    const statusFile: string
    const read: nat -> Option<string>
    const strip: string -> string
    const services: Services
    const disk: Disk
    constructor (workDir: string, statusFile: string, read: nat -> Option<string>, services: Services, disk: Disk)
      ensures this.workDir == workDir && this.statusFile == statusFile && this.read == read
      ensures this.services == services && this.disk == disk && strip == Strings.Strip
    {
      this.workDir := workDir;
      this.statusFile := statusFile;
      this.read := read;
      strip := Strings.Strip;
      this.services := services;
      this.disk := disk;
    }

    /**
     * `run`: the poll loop of `PollRun`, from the read numbered `start`.
     * The source has no bound on the number of rounds; here `fuel` bounds
     * the sleeps.
     */
    method Run(start: nat, fuel: nat) returns (p: Poll)
      ensures p == PollRun(read, strip, statusFile, start, fuel)
    {
      var first := read(start);
      if first.None? {
        return Poll(Raised(StatusFileMissing(statusFile)), start + 1, 0, []);
      }
      p := Rounds(strip(first.value), start + 1, fuel);
    }

    /** The loop of `run`, from the first status read. */
    method Rounds(first: string, next: nat, fuel: nat) returns (p: Poll)
      ensures p == PollFrom(read, strip, statusFile, first, None, next, fuel)
    {
      var status, n, f := first, next, fuel;
      var previous: Option<string> := None;
      var k := 0;
      var notes: seq<Note> := [];
      ghost var whole := PollFrom(read, strip, statusFile, first, None, next, fuel);
      while true
        invariant whole == Resume(k, notes, PollFrom(read, strip, statusFile, status, previous, n, f))
        decreases f
      {
        var stop, note, text := Round(status, previous, n, f, k, notes, whole);
        if stop.Some? {
          return stop.value;
        }
        notes := notes + [note];
        previous := Some(status);
        status := text;
        n := n + 1;
        k := k + 1;
        f := f - 1;
      }
    }

    /**
     * One round of the loop: DONE ends it, ERROR raises, any other status
     * is noted, the bound on sleeps stops it, then it sleeps and reads the
     * status file, raising when it is missing; `k` and `notes` are the
     * sleeps and notes of the rounds before, `whole` the outcome of the
     * loop as a whole.
     */
    method Round(status: string, previous: Option<string>, n: nat, fuel: nat, k: nat, notes: seq<Note>, ghost whole: Poll)
      returns (stop: Option<Poll>, note: Note, next: string)
      requires whole == Resume(k, notes, PollFrom(read, strip, statusFile, status, previous, n, fuel))
      ensures stop.Some? ==> stop.value == whole
      ensures stop.None? ==> fuel > 0 && note == Observed(status, Some(status) != previous)
      ensures stop.None? ==>
        whole == Resume(k + 1, notes + [note], PollFrom(read, strip, statusFile, next, Some(status), n + 1, fuel - 1))
    {
      PollFromExits(read, strip, statusFile, status, previous, n, fuel);
      note := Observed(status, Some(status) != previous);
      next := "";
      if status == "DONE" {
        return Some(Resume(k, notes, Poll(Finished, n, 0, [DoneNote]))), note, next;
      }
      if status == "ERROR" {
        return Some(Resume(k, notes, Poll(Raised(StatusIsError), n, 0, [ErrorNote]))), note, next;
      }
      if fuel == 0 {
        return Some(Resume(k, notes, Poll(StillWaiting, n, 0, [note]))), note, next;
      }
      var text := read(n);
      if text.None? {
        return Some(Resume(k, notes, Poll(Raised(StatusFileMissing(statusFile)), n + 1, 1, [note]))), note, next;
      }
      ResumeStep(read, strip, statusFile, status, previous, n, fuel, k, notes);
      stop, next := None, strip(text.value);
    }

    /** `metadata`: the dict `{"server_info": ...}`. */
    method Metadata() returns (r: Result<Json, SubtaskError>)
      modifies services`calls
      ensures services.calls == old(services.calls) + [SystemInfo]
      ensures var n := |old(services.calls)|;
        r == if services.fails(n, SystemInfo) then Err(CommandFailed(SystemInfo))
             else Ok(KeycloakMetadata(services.answer(n, SystemInfo)))
    {
      var info := services.Invoke(SystemInfo);
      if info.Err? {
        return Err(info.error);
      }
      r := Ok(KeycloakMetadata(info.value));
    }

    /** `task_path_dir_and_archive_item`: `kc`, created when missing (CREATE), with the item named "kc". */
    method PathDirAndArchiveItem() returns (r: Result<(string, string), LayoutError>)
      modifies disk`dirs
      ensures var o := MaybeExists(old(disk.dirs), disk.files, disk.archives, PathJoin(workDir, "kc"), Create);
        && disk.dirs == o.dirs
        && (r.Ok? <==> o.result.Ok?)
        && (r.Ok? ==> r.value == (PathJoin(workDir, "kc"), "kc"))
    {
      r := LegacyPathDirAndArchiveItem(disk, workDir, Keycloak, Create);
    }
  }

  /** `run` of the legacy abstract `TaskS3`: always raises `NotImplementedError`. */
  function AbstractS3Run(buckets: seq<string>): (r: Result<(), SubtaskError>)
    ensures r.Err? && r.error.NotImplemented?
  {
    Err(NotImplemented)
  }

  /** A positional argument of a constructor call. */
  datatype Arg = ReportArg | PathArg(path: string) | McArg | BucketsArg(buckets: seq<string>)

  /** What `TaskS3.__init__(self, path_work_dir, mc_commands, buckets)` stores. */
  datatype S3Fields = S3Fields(workDir: Arg, mc: Arg, buckets: Arg)

  /** Why a Python call raised `TypeError`: the parameters it takes and the arguments it got. */
  datatype TypeError = Arity(expected: nat, given: nat)

  /** Binding positional arguments to the three parameters of `TaskS3.__init__`. */
  function TaskS3Init(args: seq<Arg>): (r: Result<S3Fields, TypeError>)
    ensures r.Ok? <==> |args| == 3
    ensures r.Ok? ==> r.value == S3Fields(args[0], args[1], args[2])
    ensures r.Err? ==> r.error == Arity(3, |args|)
  {
    if |args| != 3 then Err(Arity(3, |args|)) else Ok(S3Fields(args[0], args[1], args[2]))
  }

  /** The oldest `TaskBackupS3.__init__` as written: it passes the report too. */
  function OldestBackupS3Init(workDir: string, buckets: seq<string>): Result<S3Fields, TypeError> {
    TaskS3Init([ReportArg, PathArg(workDir), McArg, BucketsArg(buckets)])
  }

  /** The oldest `TaskBackupS3` can never be built: its parent's constructor gets four arguments for three parameters. */
  lemma OldestBackupS3NeverBuilt(workDir: string, buckets: seq<string>)
    ensures OldestBackupS3Init(workDir, buckets) == Err(Arity(3, 4))
  {
  }

  /** The call as intended, as every other S3 subtask makes it. */
  function CorrectedBackupS3Init(workDir: string, buckets: seq<string>): Result<S3Fields, TypeError> {
    TaskS3Init([PathArg(workDir), McArg, BucketsArg(buckets)])
  }

  /** The intended call stores the working directory and the buckets it was given. */
  lemma CorrectedBackupS3Built(workDir: string, buckets: seq<string>)
    ensures CorrectedBackupS3Init(workDir, buckets) == Ok(S3Fields(PathArg(workDir), McArg, BucketsArg(buckets)))
  {
  }
}

/**
 * What a subtask does, as a plan of steps run in order: check (or create) a
 * directory of the working directory, or invoke one command of the tool
 * runners. The subtasks see each command as one call whose success is told
 * by an oracle indexed by the number of calls made before it; what the
 * command itself runs is modelled with the runners. The first step that
 * raises ends the plan.
 */
module Plans {
  import opened Wrappers
  import opened Disk
  import opened Layout

  /** The commands the subtasks invoke on `McCommands`, `CqlshCommands` and `KeycloakAdmin`. */
  datatype Call =
    | DuClusterBucket(bucket: string)
    | BackupBucket(bucket: string)
    | RestoreBucket(bucket: string, removeExistingBucket: bool)
    | StopLocal
    | ClusterInfo
    | BackupDdl(keyspace: string, pathFile: string)
    | RestoreDdl(keyspace: string, pathFile: string, dropIfExists: bool)
    | BackupTable(table: string, pathFile: string)
    | RestoreTable(table: string, pathFile: string, truncate: bool)
    | ShowHost
    | ShowVersion
    | SystemInfo

  /** Why a subtask raised. */
  datatype SubtaskError =
    | CommandFailed(call: Call)
    | LayoutFailed(error: LayoutError)
    | StatusFileMissing(path: string)
    | StatusIsError
    | NotImplemented

  datatype Step = CheckDir(path: string, policy: OnPathDirMissing) | Invoke(call: Call)

  /** What stays fixed while a plan runs: the files, the archives, the oracle, and the number of calls made before. */
  datatype Env = Env(files: map<string, string>, archives: map<string, Archive>, fails: (nat, Call) -> bool, start: nat)

  /** The directories, the calls made, and how the plan ended. */
  datatype Effect = Effect(dirs: set<string>, calls: seq<Call>, result: Result<(), SubtaskError>)

  /** One more step, unless an earlier one raised. */
  function Next(env: Env, e: Effect, s: Step): Effect {
    if e.result.Err? then e
    else match s
      case CheckDir(path, policy) =>
        var o := MaybeExists(e.dirs, env.files, env.archives, path, policy);
        Effect(o.dirs, e.calls, if o.result.Err? then Err(LayoutFailed(o.result.error)) else Ok(()))
      case Invoke(c) =>
        Effect(e.dirs, e.calls + [c], if env.fails(env.start + |e.calls|, c) then Err(CommandFailed(c)) else Ok(()))
  }

  /** The plan run from `dirs`, step by step. */
  function RunPlan(env: Env, dirs: set<string>, plan: seq<Step>): Effect
    decreases |plan|
  {
    if plan == [] then Effect(dirs, [], Ok(()))
    else Next(env, RunPlan(env, dirs, plan[..|plan| - 1]), plan[|plan| - 1])
  }

  /** The calls of a plan, in order. */
  function CallsOf(plan: seq<Step>): seq<Call>
    decreases |plan|
  {
    if plan == [] then []
    else CallsOf(plan[..|plan| - 1]) + (if plan[|plan| - 1].Invoke? then [plan[|plan| - 1].call] else [])
  }

  predicate IsPrefix<T(==)>(a: seq<T>, b: seq<T>) {
    |a| <= |b| && a == b[..|a|]
  }

  /** A running plan has made some first calls of the plan, each of which succeeded but perhaps the last. */
  predicate Consistent(env: Env, plan: seq<Step>, e: Effect) {
    && IsPrefix(e.calls, CallsOf(plan))
    && (e.result.Ok? ==> e.calls == CallsOf(plan))
    && (forall i :: 0 <= i < |e.calls| ==>
          (env.fails(env.start + i, e.calls[i]) <==> i == |e.calls| - 1 && e.result == Err(CommandFailed(e.calls[i]))))
    && (e.result.Err? && e.result.error.CommandFailed? ==> |e.calls| > 0 && e.calls[|e.calls| - 1] == e.result.error.call)
  }

  /**
   * The calls made are the first calls of the plan, in order; they all
   * succeed except the one that raised, which is the last; the plan ends
   * without error only when every call was made.
   */
  lemma {:induction false} RunPlanCalls(env: Env, dirs: set<string>, plan: seq<Step>)
    ensures Consistent(env, plan, RunPlan(env, dirs, plan))
    decreases |plan|
  {
    if plan != [] {
      var init := plan[..|plan| - 1];
      RunPlanCalls(env, dirs, init);
      var e := RunPlan(env, dirs, init);
      var whole := CallsOf(plan);
      assert CallsOf(init) == whole[..|CallsOf(init)|];
    }
  }

  /** Once a step raised, the steps after it do nothing. */
  lemma {:induction false} RaisedStays(env: Env, dirs: set<string>, plan: seq<Step>, rest: seq<Step>)
    requires RunPlan(env, dirs, plan).result.Err?
    ensures RunPlan(env, dirs, plan + rest) == RunPlan(env, dirs, plan)
    decreases |rest|
  {
    if rest == [] {
      assert plan + rest == plan;
    } else {
      var init := rest[..|rest| - 1];
      assert (plan + rest)[..|plan + rest| - 1] == plan + init;
      RaisedStays(env, dirs, plan, init);
    }
  }

  /** A step appended to a plan that did not raise is run on the plan's effect. */
  lemma Snoc(env: Env, dirs: set<string>, plan: seq<Step>, s: Step)
    ensures RunPlan(env, dirs, plan + [s]) == Next(env, RunPlan(env, dirs, plan), s)
  {
    assert (plan + [s])[..|plan|] == plan;
  }

  /** The calls of two plans run one after the other. */
  lemma {:induction false} CallsOfAppend(p: seq<Step>, q: seq<Step>)
    ensures CallsOf(p + q) == CallsOf(p) + CallsOf(q)
    decreases |q|
  {
    if q == [] {
      assert p + q == p;
    } else {
      var init := q[..|q| - 1];
      assert (p + q)[..|p + q| - 1] == p + init;
      CallsOfAppend(p, init);
    }
  }

  /**
   * Two plans run one after the other, the first without error: the second
   * starts from the directories the first left, after the calls it made.
   */
  lemma {:induction false} RunPlanAppend(env: Env, dirs: set<string>, p: seq<Step>, q: seq<Step>)
    requires RunPlan(env, dirs, p).result.Ok?
    ensures var e := RunPlan(env, dirs, p);
      var e2 := RunPlan(env.(start := env.start + |e.calls|), e.dirs, q);
      RunPlan(env, dirs, p + q) == Effect(e2.dirs, e.calls + e2.calls, e2.result)
    decreases |q|
  {
    if q == [] {
      assert p + q == p;
    } else {
      var init, s := q[..|q| - 1], q[|q| - 1];
      SnocAppend(env, dirs, p, q);
      RunPlanAppend(env, dirs, p, init);
      var e := RunPlan(env, dirs, p);
      var shifted := env.(start := env.start + |e.calls|);
      NextShifted(env, e.calls, RunPlan(shifted, e.dirs, init), s);
    }
  }

  /** The last step of a non-empty second plan is run on the effect of all the steps before it. */
  lemma SnocAppend(env: Env, dirs: set<string>, p: seq<Step>, q: seq<Step>)
    requires q != []
    ensures RunPlan(env, dirs, p + q) == Next(env, RunPlan(env, dirs, p + q[..|q| - 1]), q[|q| - 1])
  {
    assert (p + q)[..|p + q| - 1] == p + q[..|q| - 1];
  }

  /** A step run after earlier calls sees the oracle shifted by their number. */
  lemma NextShifted(env: Env, calls: seq<Call>, e: Effect, s: Step)
    ensures var n := Next(env.(start := env.start + |calls|), e, s);
      Next(env, Effect(e.dirs, calls + e.calls, e.result), s) == Effect(n.dirs, calls + n.calls, n.result)
  {
    if e.result.Ok? && s.Invoke? {
      assert calls + e.calls + [s.call] == calls + (e.calls + [s.call]);
    }
  }

  /** A plan whose directories are all checked under ERROR leaves the directories as they were. */
  lemma {:induction false} ErrorPolicyKeepsDirs(env: Env, dirs: set<string>, plan: seq<Step>)
    requires forall i :: 0 <= i < |plan| && plan[i].CheckDir? ==> plan[i].policy == Error
    ensures RunPlan(env, dirs, plan).dirs == dirs
    decreases |plan|
  {
    if plan != [] {
      ErrorPolicyKeepsDirs(env, dirs, plan[..|plan| - 1]);
      var s := plan[|plan| - 1];
      if s.CheckDir? {
        PolicyEffects(RunPlan(env, dirs, plan[..|plan| - 1]).dirs, env.files, env.archives, s.path);
      }
    }
  }

  /** What is done with each bucket. */
  datatype BucketOp = Du | Backup | Restore(removeExistingBucket: bool)

  function BucketCall(op: BucketOp, bucket: string): Call {
    match op
    case Du => DuClusterBucket(bucket)
    case Backup => BackupBucket(bucket)
    case Restore(remove) => RestoreBucket(bucket, remove)
  }

  /** One call per bucket, in the order of the list. */
  function BucketSteps(op: BucketOp, buckets: seq<string>): seq<Step>
    decreases |buckets|
  {
    if buckets == [] then []
    else BucketSteps(op, buckets[..|buckets| - 1]) + [Invoke(BucketCall(op, buckets[|buckets| - 1]))]
  }

  lemma {:induction false} BucketStepsCalls(op: BucketOp, buckets: seq<string>)
    ensures |BucketSteps(op, buckets)| == |buckets|
    ensures CallsOf(BucketSteps(op, buckets)) == seq(|buckets|, i requires 0 <= i < |buckets| => BucketCall(op, buckets[i]))
    decreases |buckets|
  {
    if buckets != [] {
      var init := buckets[..|buckets| - 1];
      BucketStepsCalls(op, init);
      var last := [Invoke(BucketCall(op, buckets[|buckets| - 1]))];
      CallsOfAppend(BucketSteps(op, init), last);
      assert CallsOf(last) == [BucketCall(op, buckets[|buckets| - 1])] by {
        assert last[..0] == [];
      }
    }
  }

  /** The S3 backup and restore: every bucket, then `stop_local`. */
  function BucketsThenStop(op: BucketOp, buckets: seq<string>): seq<Step> {
    BucketSteps(op, buckets) + [Invoke(StopLocal)]
  }

  /**
   * `stop_local` is reached only when every bucket was handled without
   * error, and then it is the last call.
   */
  lemma StopLocalAfterAllBuckets(env: Env, dirs: set<string>, op: BucketOp, buckets: seq<string>)
    ensures var e := RunPlan(env, dirs, BucketsThenStop(op, buckets));
      StopLocal in e.calls <==>
        e.calls == seq(|buckets|, i requires 0 <= i < |buckets| => BucketCall(op, buckets[i])) + [StopLocal]
  {
    var plan := BucketsThenStop(op, buckets);
    var e := RunPlan(env, dirs, plan);
    RunPlanCalls(env, dirs, plan);
    BucketStepsCalls(op, buckets);
    var stop := [Invoke(StopLocal)];
    CallsOfAppend(BucketSteps(op, buckets), stop);
    assert CallsOf(stop) == [StopLocal] by {
      assert stop[..0] == [];
    }
    var all := CallsOf(plan);
    assert |all| == |buckets| + 1;
    if StopLocal in e.calls {
      var k :| 0 <= k < |e.calls| && e.calls[k] == StopLocal;
      assert all[k] == StopLocal;
      assert k == |buckets|;
    }
  }

  /** Keyspaces or tables of Cassandra: backed up, or restored with the given flag. */
  datatype CqlOp = CqlBackup | CqlRestore(overwrite: bool)

  /** Backups create missing directories; restores need them. */
  function CqlPolicy(op: CqlOp): OnPathDirMissing {
    if op.CqlBackup? then Create else Error
  }

  /** `<dir>/<name><ext>` */
  function FileIn(workDir: string, relativeDir: string, name: string, ext: string): string {
    PathJoin(PathJoin(workDir, relativeDir), name + ext)
  }

  function KeyspaceCall(workDir: string, op: CqlOp, keyspace: string): Call {
    var path := FileIn(workDir, SchemaPath, keyspace, ".cql");
    if op.CqlBackup? then BackupDdl(keyspace, path) else RestoreDdl(keyspace, path, op.overwrite)
  }

  function TableCall(workDir: string, op: CqlOp, table: string): Call {
    var path := FileIn(workDir, DataPath, table, ".csv");
    if op.CqlBackup? then BackupTable(table, path) else RestoreTable(table, path, op.overwrite)
  }

  /** For each keyspace: check the schema directory, then dump or restore `<keyspace>.cql`. */
  function KeyspaceSteps(workDir: string, op: CqlOp, keyspaces: seq<string>): seq<Step>
    decreases |keyspaces|
  {
    if keyspaces == [] then []
    else
      KeyspaceSteps(workDir, op, keyspaces[..|keyspaces| - 1])
        + [CheckDir(PathJoin(workDir, SchemaPath), CqlPolicy(op)), Invoke(KeyspaceCall(workDir, op, keyspaces[|keyspaces| - 1]))]
  }

  /** For each table: check the data directory, then dump or restore `<table>.csv`. */
  function TableSteps(workDir: string, op: CqlOp, tables: seq<string>): seq<Step>
    decreases |tables|
  {
    if tables == [] then []
    else
      TableSteps(workDir, op, tables[..|tables| - 1])
        + [CheckDir(PathJoin(workDir, DataPath), CqlPolicy(op)), Invoke(TableCall(workDir, op, tables[|tables| - 1]))]
  }

  /** The Cassandra backup and restore: every keyspace, then every table. */
  function CassandraSteps(workDir: string, op: CqlOp, keyspaces: seq<string>, tables: seq<string>): seq<Step> {
    KeyspaceSteps(workDir, op, keyspaces) + TableSteps(workDir, op, tables)
  }

  lemma {:induction false} KeyspaceStepsShape(workDir: string, op: CqlOp, keyspaces: seq<string>)
    ensures CallsOf(KeyspaceSteps(workDir, op, keyspaces)) == seq(|keyspaces|, i requires 0 <= i < |keyspaces| => KeyspaceCall(workDir, op, keyspaces[i]))
    ensures forall i :: 0 <= i < |KeyspaceSteps(workDir, op, keyspaces)| && KeyspaceSteps(workDir, op, keyspaces)[i].CheckDir? ==>
      KeyspaceSteps(workDir, op, keyspaces)[i] == CheckDir(PathJoin(workDir, SchemaPath), CqlPolicy(op))
    decreases |keyspaces|
  {
    if keyspaces != [] {
      var init := keyspaces[..|keyspaces| - 1];
      KeyspaceStepsShape(workDir, op, init);
      var pair := [CheckDir(PathJoin(workDir, SchemaPath), CqlPolicy(op)), Invoke(KeyspaceCall(workDir, op, keyspaces[|keyspaces| - 1]))];
      CallsOfAppend(KeyspaceSteps(workDir, op, init), pair);
      assert CallsOf(pair) == [KeyspaceCall(workDir, op, keyspaces[|keyspaces| - 1])] by {
        assert pair[..1][..0] == [];
        assert CallsOf(pair[..1]) == [];
      }
    }
  }

  lemma {:induction false} TableStepsShape(workDir: string, op: CqlOp, tables: seq<string>)
    ensures CallsOf(TableSteps(workDir, op, tables)) == seq(|tables|, i requires 0 <= i < |tables| => TableCall(workDir, op, tables[i]))
    ensures forall i :: 0 <= i < |TableSteps(workDir, op, tables)| && TableSteps(workDir, op, tables)[i].CheckDir? ==>
      TableSteps(workDir, op, tables)[i] == CheckDir(PathJoin(workDir, DataPath), CqlPolicy(op))
    decreases |tables|
  {
    if tables != [] {
      var init := tables[..|tables| - 1];
      TableStepsShape(workDir, op, init);
      var pair := [CheckDir(PathJoin(workDir, DataPath), CqlPolicy(op)), Invoke(TableCall(workDir, op, tables[|tables| - 1]))];
      CallsOfAppend(TableSteps(workDir, op, init), pair);
      assert CallsOf(pair) == [TableCall(workDir, op, tables[|tables| - 1])] by {
        assert pair[..1][..0] == [];
        assert CallsOf(pair[..1]) == [];
      }
    }
  }

  /**
   * Every keyspace is handled, in order, before any table: once a table
   * call is made, the calls begin with one call per keyspace.
   */
  lemma KeyspacesBeforeTables(env: Env, dirs: set<string>, workDir: string, op: CqlOp, keyspaces: seq<string>, tables: seq<string>)
    ensures var e := RunPlan(env, dirs, CassandraSteps(workDir, op, keyspaces, tables));
      |e.calls| > |keyspaces| ==>
        e.calls[..|keyspaces|] == seq(|keyspaces|, i requires 0 <= i < |keyspaces| => KeyspaceCall(workDir, op, keyspaces[i]))
    ensures var e := RunPlan(env, dirs, CassandraSteps(workDir, op, keyspaces, tables));
      && |e.calls| <= |keyspaces| + |tables|
      && forall i :: |keyspaces| <= i < |e.calls| ==> e.calls[i] == TableCall(workDir, op, tables[i - |keyspaces|])
  {
    var plan := CassandraSteps(workDir, op, keyspaces, tables);
    RunPlanCalls(env, dirs, plan);
    KeyspaceStepsShape(workDir, op, keyspaces);
    TableStepsShape(workDir, op, tables);
    CallsOfAppend(KeyspaceSteps(workDir, op, keyspaces), TableSteps(workDir, op, tables));
  }

  /**
   * A restore creates no directory, and every call it makes carries the
   * overwrite flag as its drop or truncate flag.
   */
  lemma RestoreFlags(env: Env, dirs: set<string>, workDir: string, overwrite: bool, keyspaces: seq<string>, tables: seq<string>)
    ensures var e := RunPlan(env, dirs, CassandraSteps(workDir, CqlRestore(overwrite), keyspaces, tables));
      && e.dirs == dirs
      && (forall i :: 0 <= i < |e.calls| ==>
            (e.calls[i].RestoreDdl? && e.calls[i].dropIfExists == overwrite)
            || (e.calls[i].RestoreTable? && e.calls[i].truncate == overwrite))
  {
    var op := CqlRestore(overwrite);
    var ks := KeyspaceSteps(workDir, op, keyspaces);
    var ts := TableSteps(workDir, op, tables);
    var plan := ks + ts;
    KeyspaceStepsShape(workDir, op, keyspaces);
    TableStepsShape(workDir, op, tables);
    forall i | 0 <= i < |plan| && plan[i].CheckDir?
      ensures plan[i].policy == Error
    {
      if i < |ks| {
        assert plan[i] == ks[i];
      } else {
        assert plan[i] == ts[i - |ks|];
      }
    }
    ErrorPolicyKeepsDirs(env, dirs, plan);
    KeyspacesBeforeTables(env, dirs, workDir, op, keyspaces, tables);
    RunPlanCalls(env, dirs, plan);
    CallsOfAppend(ks, ts);
  }
}

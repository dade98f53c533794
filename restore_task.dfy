/**
 * The restore orchestrators of the three generations: the current `Task`
 * (readiness wait, then Cassandra, then S3), the legacy `Task` and the
 * oldest `TaskRestore` (Cassandra, then S3, with no wait). None of them
 * enters a maintenance window. Both subtasks share one set of tool
 * runners and one disk, so the whole restore is one plan.
 */
module RestoreTask {
  import opened Wrappers
  import opened Plans
  import opened Subtasks
  import opened Readiness

  /** Why a restore stopped: the containers never became ready, or a subtask raised. */
  datatype RestoreError = NotReady(cause: ReadinessError) | Failed(error: SubtaskError)

  /** The plan of a restore: every Cassandra step, then every S3 step. */
  function RestorePlan(workDir: string, op: CqlOp, keyspaces: seq<string>, tables: seq<string>,
                       removeExistingBucket: bool, buckets: seq<string>): seq<Step> {
    CassandraSteps(workDir, op, keyspaces, tables) + BucketsThenStop(Restore(removeExistingBucket), buckets)
  }

  /** A Cassandra restore that raises ends the restore: no S3 call is made. */
  lemma CassandraFailureSkipsS3(env: Env, dirs: set<string>, workDir: string, op: CqlOp, keyspaces: seq<string>, tables: seq<string>,
                                removeExistingBucket: bool, buckets: seq<string>)
    requires RunPlan(env, dirs, CassandraSteps(workDir, op, keyspaces, tables)).result.Err?
    ensures RunPlan(env, dirs, RestorePlan(workDir, op, keyspaces, tables, removeExistingBucket, buckets))
         == RunPlan(env, dirs, CassandraSteps(workDir, op, keyspaces, tables))
  {
    RaisedStays(env, dirs, CassandraSteps(workDir, op, keyspaces, tables), BucketsThenStop(Restore(removeExistingBucket), buckets));
  }

  /**
   * A Cassandra restore that succeeds is followed by the S3 restore: the
   * calls are the Cassandra calls, then those of the S3 plan run from
   * where Cassandra stopped.
   */
  lemma CassandraBeforeS3(env: Env, dirs: set<string>, workDir: string, op: CqlOp, keyspaces: seq<string>, tables: seq<string>,
                          removeExistingBucket: bool, buckets: seq<string>)
    requires RunPlan(env, dirs, CassandraSteps(workDir, op, keyspaces, tables)).result.Ok?
    ensures var c := RunPlan(env, dirs, CassandraSteps(workDir, op, keyspaces, tables));
      var s := RunPlan(env.(start := env.start + |c.calls|), c.dirs, BucketsThenStop(Restore(removeExistingBucket), buckets));
      RunPlan(env, dirs, RestorePlan(workDir, op, keyspaces, tables, removeExistingBucket, buckets))
        == Effect(s.dirs, c.calls + s.calls, s.result)
  {
    RunPlanAppend(env, dirs, CassandraSteps(workDir, op, keyspaces, tables), BucketsThenStop(Restore(removeExistingBucket), buckets));
  }

  /** How the restore's outcome reads as a subtask outcome, once the wait passed. */
  function AsSubtaskResult(r: Result<(), RestoreError>): Result<(), SubtaskError>
    requires r.Ok? || r.error.Failed?
  {
    if r.Ok? then Ok(()) else Err(r.error.error)
  }

  class RestoreTask {
    /** Whether `containers_readiness.wait()` is called first (the current tree only). */
    const waits: bool
    /** What the readiness wait ends with. */
    const wait: Result<(), ReadinessError>
    const cassandra: CassandraTask
    const s3: RestoreS3
    /** Whether the readiness wait was called. */
    var waited: bool

    /** The current `Task`: it waits for the containers. */
    constructor Current(wait: Result<(), ReadinessError>, cassandra: CassandraTask, s3: RestoreS3)
      ensures waits && this.wait == wait && this.cassandra == cassandra && this.s3 == s3 && !waited
    {
      waits := true;
      this.wait := wait;
      this.cassandra := cassandra;
      this.s3 := s3;
      waited := false;
    }

    /** The legacy `Task` and the oldest `TaskRestore`: no wait. */
    constructor Legacy(cassandra: CassandraTask, s3: RestoreS3)
      ensures !waits && this.cassandra == cassandra && this.s3 == s3 && !waited
    {
      waits := false;
      wait := Ok(());
      this.cassandra := cassandra;
      this.s3 := s3;
      waited := false;
    }

    /** The restore plan of the two subtasks. */
    function Plan(): seq<Step> {
      RestorePlan(cassandra.workDir, cassandra.op, cassandra.keyspaces, cassandra.tables, s3.removeExistingBucket, s3.buckets)
    }

    /**
     * `run`: a failed wait stops everything before any call; otherwise
     * Cassandra is restored, then S3 unless Cassandra raised.
     */
    method Run() returns (r: Result<(), RestoreError>)
      requires cassandra.services == s3.services && cassandra.disk == s3.disk
      modifies cassandra.services`calls, cassandra.disk`dirs, cassandra`status, this`waited
      ensures waited == waits
      ensures waits && wait.Err? ==>
        && r == Err(NotReady(wait.error))
        && cassandra.services.calls == old(cassandra.services.calls)
        && cassandra.disk.dirs == old(cassandra.disk.dirs)
      ensures !(waits && wait.Err?) ==>
        && (r.Ok? || r.error.Failed?)
        && Performed(cassandra.services, cassandra.disk, old(cassandra.services.calls), old(cassandra.disk.dirs), Plan(), AsSubtaskResult(r))
    {
      waited := waits;
      if waits && wait.Err? {
        return Err(NotReady(wait.error));
      }
      var services, disk := cassandra.services, cassandra.disk;
      ghost var env := Env(disk.files, disk.archives, services.fails, |services.calls|);
      ghost var c0, d0 := services.calls, disk.dirs;
      ghost var p := CassandraSteps(cassandra.workDir, cassandra.op, cassandra.keyspaces, cassandra.tables);
      ghost var q := BucketsThenStop(Restore(s3.removeExistingBucket), s3.buckets);
      var a := cassandra.Run();
      if a.Err? {
        RaisedStays(env, d0, p, q);
        return Err(Failed(a.error));
      }
      ghost var c1, d1 := services.calls, disk.dirs;
      var b := s3.Run();
      Sequence(env, c0, c1, services.calls, d0, d1, disk.dirs, p, q, b);
      r := if b.Err? then Err(Failed(b.error)) else Ok(());
    }
  }
}

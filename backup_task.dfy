/**
 * The backup orchestrators of the three generations: the current list-driven
 * `Task`, the legacy `Task` (fixed Cassandra, S3 and Keycloak subtasks,
 * with an S3 prepare) and the oldest `TaskBackup` (no prepare). Each one
 * adds the metadata, prepares, runs the subtasks inside one maintenance
 * window, adds the archive items, finalizes the archive and uploads it.
 *
 * The subtasks, the readiness wait, the window and Google Drive are seen
 * here through what each of their calls ends with; the archive is the
 * real `ArchiveCreator` over the disk.
 */
module BackupTask {
  import opened Wrappers
  import opened JsonValues
  import opened Disk
  import opened Layout
  import Plans
  import Maintenance
  import Readiness
  import Archiver

  /**
   * What a subtask's `metadata()` returns: a `(key, value)` pair, or a
   * dict, given by its keys in insertion order and its JSON value.
   */
  datatype MetaAnswer = Pair(key: string, value: Json) | Dict(keys: seq<string>, dict: Json)

  /** One backup subtask, through what each of its four calls ends with. */
  datatype Sub = Sub(
    component: Component,
    metadata: Result<MetaAnswer, Plans.SubtaskError>,
    prepare: Result<(), Plans.SubtaskError>,
    run: Result<(), Plans.SubtaskError>,
    dirItem: Result<(string, string), LayoutError>)

  /** The calls an orchestrator makes, in the order it makes them. */
  datatype Event =
    | Waited
    | MetadataOf(c: Component)
    | DriveMetadata
    | PrepareOf(c: Component)
    | EnterWindow
    | RunOf(c: Component)
    | ExitWindow
    | DirItemOf(c: Component)
    | LogItem
    | Finalized
    | Uploaded(path: string, name: string, folder: string)

  /** Why a backup stopped. */
  datatype TaskError =
    | NotReady(cause: Readiness.ReadinessError)
    | SubtaskFailed(subtaskError: Plans.SubtaskError)
    | DirFailed(layoutError: LayoutError)
    | NotAPair(size: nat)
    | WindowFailed(kubeError: Maintenance.KubeError)
    | ItemMissing(path: string)
    | UploadFailed(reason: string)

  /** What a call changes in the archive: nothing, a metadata key, or an item binding. */
  datatype Update = Keep | SetMeta(key: string, value: Json) | AddItem(path: string, name: string)

  /** One call of a phase: the event it is, and its update or the error it raises. */
  datatype Move = Move(event: Event, outcome: Result<Update, TaskError>)

  /** A phase run until its first error. */
  datatype Swept = Swept(events: seq<Event>, updates: seq<Update>, result: Result<(), TaskError>)

  /** The moves of a phase, one after the other; the first that raises ends the phase. */
  function Sweep(moves: seq<Move>): Swept
    decreases |moves|
  {
    if moves == [] then Swept([], [], Ok(()))
    else
      var s := Sweep(moves[..|moves| - 1]);
      var m := moves[|moves| - 1];
      if s.result.Err? then s
      else if m.outcome.Err? then Swept(s.events + [m.event], s.updates, Err(m.outcome.error))
      else Swept(s.events + [m.event], s.updates + [m.outcome.value], Ok(()))
  }

  /** Every move of the phase succeeds. */
  predicate Go(moves: seq<Move>) {
    forall i :: 0 <= i < |moves| ==> moves[i].outcome.Ok?
  }

  function EventsOf(moves: seq<Move>): seq<Event> {
    seq(|moves|, i requires 0 <= i < |moves| => moves[i].event)
  }

  /**
   * A phase succeeds exactly when each of its moves does, and then it
   * made every call; otherwise it made the calls up to and including the
   * first that raised.
   */
  lemma {:induction false} SweepShape(moves: seq<Move>)
    ensures var s := Sweep(moves);
      && (s.result.Ok? <==> Go(moves))
      && |s.events| <= |moves| && s.events == EventsOf(moves)[..|s.events|]
      && (s.result.Ok? ==> |s.events| == |moves|)
      && (s.result.Err? ==> 0 < |s.events| && moves[|s.events| - 1].outcome == Err(s.result.error)
                            && Go(moves[..|s.events| - 1]))
    decreases |moves|
  {
    if moves != [] {
      var init := moves[..|moves| - 1];
      SweepShape(init);
      var s := Sweep(init);
      assert EventsOf(moves)[..|init|] == EventsOf(init);
      if s.result.Err? {
        assert moves[..|s.events| - 1] == init[..|s.events| - 1];
        assert !Go(moves) by {
          assert !moves[|s.events| - 1].outcome.Ok?;
        }
      } else {
        assert EventsOf(moves) == EventsOf(init) + [moves[|moves| - 1].event];
        assert moves[..|moves| - 1] == init;
      }
    }
  }

  /** Two phases in a row: the second runs only when the first did not raise. */
  lemma {:induction false} SweepAppend(p: seq<Move>, q: seq<Move>)
    ensures var a := Sweep(p);
      Sweep(p + q) == if a.result.Err? then a
                      else var b := Sweep(q); Swept(a.events + b.events, a.updates + b.updates, b.result)
    decreases |q|
  {
    if q == [] {
      assert p + q == p;
    } else {
      var init := q[..|q| - 1];
      assert (p + q)[..|p + q| - 1] == p + init;
      SweepAppend(p, init);
    }
  }

  /** The steps of a phase that goes over subtasks. */
  datatype Phase = MetaPhase | PreparePhase | RunPhase | ItemPhase

  function Tag(ph: Phase, c: Component): Event {
    match ph
    case MetaPhase => MetadataOf(c)
    case PreparePhase => PrepareOf(c)
    case RunPhase => RunOf(c)
    case ItemPhase => DirItemOf(c)
  }

  /** The legacy metadata key of each subtask. */
  function LegacyKey(c: Component): string {
    match c
    case Cassandra => "cql"
    case S3 => "s3"
    case Keycloak => "kc"
  }

  /**
   * `add_metadata(*answer)`: a pair gives its key and value; a dict is
   * unpacked into its keys, so a two-key dict gives its first key bound
   * to its second key, and any other size raises `TypeError`.
   */
  function Unpack(a: MetaAnswer): (r: Result<(string, Json), TaskError>)
    ensures a.Pair? ==> r == Ok((a.key, a.value))
    ensures a.Dict? ==> (r.Ok? <==> |a.keys| == 2)
    ensures a.Dict? && r.Ok? ==> r.value == (a.keys[0], JStr(a.keys[1]))
  {
    match a
    case Pair(k, v) => Ok((k, v))
    case Dict(keys, _) => if |keys| == 2 then Ok((keys[0], JStr(keys[1]))) else Err(NotAPair(|keys|))
  }

  /** The value of an answer stored whole under a fixed key: a dict as itself, a pair as a two-element list. */
  function Whole(a: MetaAnswer): Json {
    match a
    case Pair(k, v) => JArray([JStr(k), v])
    case Dict(_, d) => d
  }

  /** What one subtask's call in a phase ends with. */
  function Outcome(ph: Phase, keyed: bool, s: Sub): Result<Update, TaskError> {
    match ph
    case MetaPhase =>
      if s.metadata.Err? then Err(SubtaskFailed(s.metadata.error))
      else if keyed then Ok(SetMeta(LegacyKey(s.component), Whole(s.metadata.value)))
      else (match Unpack(s.metadata.value)
            case Ok((k, v)) => Ok(SetMeta(k, v))
            case Err(e) => Err(e))
    case PreparePhase => if s.prepare.Err? then Err(SubtaskFailed(s.prepare.error)) else Ok(Keep)
    case RunPhase => if s.run.Err? then Err(SubtaskFailed(s.run.error)) else Ok(Keep)
    case ItemPhase => if s.dirItem.Err? then Err(DirFailed(s.dirItem.error)) else Ok(AddItem(s.dirItem.value.0, s.dirItem.value.1))
  }

  function Moves(ph: Phase, keyed: bool, subs: seq<Sub>): seq<Move> {
    seq(|subs|, i requires 0 <= i < |subs| => Move(Tag(ph, subs[i].component), Outcome(ph, keyed, subs[i])))
  }

  /** The events of a phase over subtasks, one per subtask in order. */
  function Tagged(ph: Phase, subs: seq<Sub>): seq<Event> {
    seq(|subs|, i requires 0 <= i < |subs| => Tag(ph, subs[i].component))
  }

  /**
   * Which subtasks each phase goes over, whether the readiness wait comes
   * first, and whether metadata is stored under fixed keys.
   */
  datatype Plan = Plan(waits: bool, keyed: bool, meta: seq<Sub>, prepare: seq<Sub>, run: seq<Sub>, items: seq<Sub>)

  /** The current `Task`: every phase goes over the subtask list, in its order. */
  function CurrentPlan(subs: seq<Sub>): Plan {
    Plan(true, false, subs, subs, subs, subs)
  }

  /** The legacy `Task`: Cassandra, S3 and Keycloak, with only S3 prepared. */
  function LegacyPlan(cql: Sub, s3: Sub, kc: Sub): Plan
    requires cql.component == Cassandra && s3.component == S3 && kc.component == Keycloak
  {
    Plan(false, true, [cql, s3, kc], [s3], [cql, s3, kc], [cql, s3, kc])
  }

  /** The oldest `TaskBackup`: the legacy order without a prepare phase. */
  function OldestPlan(cql: Sub, s3: Sub, kc: Sub): Plan
    requires cql.component == Cassandra && s3.component == S3 && kc.component == Keycloak
  {
    Plan(false, true, [cql, s3, kc], [], [cql, s3, kc], [cql, s3, kc])
  }

  /** What the calls outside the subtasks end with. */
  datatype Outside = Outside(
    wait: Result<(), Readiness.ReadinessError>,
    account: Json,
    driveId: Json,
    enter: Result<(), Maintenance.KubeError>,
    exit: Result<(), Maintenance.KubeError>,
    upload: Result<(), string>)

  function WaitMoves(p: Plan, o: Outside): seq<Move> {
    if p.waits then [Move(Waited, if o.wait.Err? then Err(NotReady(o.wait.error)) else Ok(Keep))] else []
  }

  /** The `"GoogleDrive"` metadata entry. */
  function DriveMove(o: Outside): Move {
    Move(DriveMetadata, Ok(SetMeta("GoogleDrive", JObject(map["account" := o.account, "driveID" := o.driveId]))))
  }

  /** Everything before the window: wait, metadata, the Google Drive entry, prepares. */
  function Before(p: Plan, o: Outside): seq<Move> {
    WaitMoves(p, o) + Moves(MetaPhase, p.keyed, p.meta) + [DriveMove(o)] + Moves(PreparePhase, p.keyed, p.prepare)
  }

  /** Everything after the window: the directory items, then the log file as `"backup.log"`. */
  function After(p: Plan, logPath: string): seq<Move> {
    Moves(ItemPhase, p.keyed, p.items) + [Move(LogItem, Ok(AddItem(logPath, "backup.log")))]
  }

  function KubeResult(r: Result<(), Maintenance.KubeError>): Result<(), TaskError> {
    if r.Err? then Err(WindowFailed(r.error)) else Ok(())
  }

  /** A backup up to the point where the archive is finalized (`finalizes`) or it stopped. */
  datatype Trace = Trace(events: seq<Event>, updates: seq<Update>, finalizes: bool, result: Result<(), TaskError>)

  /**
   * `with context_maintenance:` around the runs: skipped with the runs
   * when entering raises; otherwise the exit runs whether or not a run
   * raised.
   */
  function Windowed(p: Plan, o: Outside): Swept {
    if o.enter.Err? then Swept([EnterWindow], [], Err(WindowFailed(o.enter.error)))
    else
      var b := Sweep(Moves(RunPhase, p.keyed, p.run));
      Swept([EnterWindow] + b.events + [ExitWindow], b.updates, Maintenance.WindowOutcome(Ok(()), b.result, KubeResult(o.exit)))
  }

  /** The phases of `run`: the moves before the window, the window, then the items only when the window was left normally. */
  function Backup(p: Plan, o: Outside, logPath: string): Trace {
    var a := Sweep(Before(p, o));
    if a.result.Err? then Trace(a.events, a.updates, false, a.result)
    else
      var w := Windowed(p, o);
      if w.result.Err? then Trace(a.events + w.events, a.updates + w.updates, false, w.result)
      else
        var c := Sweep(After(p, logPath));
        Trace(a.events + w.events + c.events, a.updates + w.updates + c.updates, c.result.Ok?, c.result)
  }

  /** The phases up to the end of the maintenance window. */
  function Opening(p: Plan, o: Outside): Swept {
    var a := Sweep(Before(p, o));
    if a.result.Err? then a
    else
      var w := Windowed(p, o);
      Swept(a.events + w.events, a.updates + w.updates, w.result)
  }

  /** A backup is its opening, then the item phase unless the opening raised. */
  lemma BackupFromOpening(p: Plan, o: Outside, logPath: string)
    ensures var op, c := Opening(p, o), Sweep(After(p, logPath));
      Backup(p, o, logPath) ==
        if op.result.Err? then Trace(op.events, op.updates, false, op.result)
        else Trace(op.events + c.events, op.updates + c.updates, c.result.Ok?, c.result)
  {
  }

  /** The calls before the window of a backup that goes through: the wait, the metadata, the Google Drive entry, the prepares. */
  function PreEvents(p: Plan): seq<Event> {
    (if p.waits then [Waited] else []) + Tagged(MetaPhase, p.meta) + [DriveMetadata] + Tagged(PreparePhase, p.prepare)
  }

  /** Every call of a backup that goes through, in order. */
  function FullEvents(p: Plan): seq<Event> {
    PreEvents(p) + [EnterWindow] + Tagged(RunPhase, p.run) + [ExitWindow] + Tagged(ItemPhase, p.items) + [LogItem]
  }

  /** The stage of the backup each call belongs to. */
  function Rank(e: Event): nat {
    match e
    case Waited => 0
    case MetadataOf(_) => 1
    case DriveMetadata => 2
    case PrepareOf(_) => 3
    case EnterWindow => 4
    case RunOf(_) => 5
    case ExitWindow => 6
    case DirItemOf(_) => 7
    case LogItem => 8
    case Finalized => 9
    case Uploaded(_, _, _) => 10
  }

  /** The calls go stage by stage: wait, metadata, prepare, window and runs, items, finalize, upload. */
  predicate InOrder(es: seq<Event>) {
    forall i, j :: 0 <= i < j < |es| ==> Rank(es[i]) <= Rank(es[j])
  }

  predicate AllRank(es: seq<Event>, k: nat) {
    forall i :: 0 <= i < |es| ==> Rank(es[i]) == k
  }

  predicate UpTo(es: seq<Event>, k: nat) {
    forall i :: 0 <= i < |es| ==> Rank(es[i]) <= k
  }

  lemma Extend(a: seq<Event>, b: seq<Event>, k: nat)
    requires InOrder(a) && UpTo(a, k) && AllRank(b, k)
    ensures InOrder(a + b) && UpTo(a + b, k)
  {
    forall i, j | 0 <= i < j < |a + b| ensures Rank((a + b)[i]) <= Rank((a + b)[j]) {
      if j < |a| {
        assert (a + b)[i] == a[i] && (a + b)[j] == a[j];
      } else if i < |a| {
        assert (a + b)[i] == a[i] && (a + b)[j] == b[j - |a|];
      } else {
        assert (a + b)[i] == b[i - |a|] && (a + b)[j] == b[j - |a|];
      }
    }
  }

  lemma TaggedRank(ph: Phase, subs: seq<Sub>)
    ensures AllRank(Tagged(ph, subs), Rank(Tag(ph, S3)))
  {
  }

  /** The phase events are those of the phase's moves. */
  lemma MovesEvents(ph: Phase, keyed: bool, subs: seq<Sub>)
    ensures EventsOf(Moves(ph, keyed, subs)) == Tagged(ph, subs)
  {
  }

  /** A phase over subtasks succeeds exactly when each subtask's call does. */
  lemma MovesGo(ph: Phase, keyed: bool, subs: seq<Sub>)
    ensures Go(Moves(ph, keyed, subs)) <==> forall i :: 0 <= i < |subs| ==> Outcome(ph, keyed, subs[i]).Ok?
  {
    var m := Moves(ph, keyed, subs);
    assert forall i :: 0 <= i < |subs| ==> m[i].outcome == Outcome(ph, keyed, subs[i]);
  }

  /** The full list of calls goes stage by stage. */
  lemma FullInOrder(p: Plan)
    ensures InOrder(FullEvents(p))
  {
    PreInOrder(p);
    var win := [EnterWindow] + Tagged(RunPhase, p.run) + [ExitWindow];
    WindowEventsInOrder(PreEvents(p), win, p);
    var items := Tagged(ItemPhase, p.items);
    TaggedRank(ItemPhase, p.items);
    Extend(items, [LogItem], 8);
    assert forall i :: 0 <= i < |items + [LogItem]| ==> 7 <= Rank((items + [LogItem])[i]);
    Join(PreEvents(p) + win, items + [LogItem], 6);
    FullEventsSplit(p);
  }

  /** The calls before the window go stage by stage, up to the prepares. */
  lemma PreInOrder(p: Plan)
    ensures InOrder(PreEvents(p)) && UpTo(PreEvents(p), 3)
  {
    var w: seq<Event> := if p.waits then [Waited] else [];
    assert InOrder(w) && UpTo(w, 1);
    TaggedRank(MetaPhase, p.meta);
    Extend(w, Tagged(MetaPhase, p.meta), 1);
    Extend(w + Tagged(MetaPhase, p.meta), [DriveMetadata], 2);
    TaggedRank(PreparePhase, p.prepare);
    Extend(w + Tagged(MetaPhase, p.meta) + [DriveMetadata], Tagged(PreparePhase, p.prepare), 3);
  }

  /** Calls up to the prepares, then a window that went through: still in stage order. */
  lemma WindowEventsInOrder(ev: seq<Event>, win: seq<Event>, p: Plan)
    requires InOrder(ev) && UpTo(ev, 3)
    requires win == [EnterWindow] + Tagged(RunPhase, p.run) + [ExitWindow]
    ensures InOrder(ev + win) && UpTo(ev + win, 6)
  {
    Extend(ev, [EnterWindow], 4);
    TaggedRank(RunPhase, p.run);
    Extend(ev + [EnterWindow], Tagged(RunPhase, p.run), 5);
    Extend(ev + [EnterWindow] + Tagged(RunPhase, p.run), [ExitWindow], 6);
    assert ev + win == ev + [EnterWindow] + Tagged(RunPhase, p.run) + [ExitWindow];
  }

  /** A prefix of calls in stage order is in stage order. */
  lemma PrefixInOrder(es: seq<Event>, n: nat, k: nat)
    requires n <= |es| && InOrder(es) && UpTo(es, k)
    ensures InOrder(es[..n]) && UpTo(es[..n], k)
  {
  }

  /** The events of the moves before the window: the wait, the metadata, the Google Drive entry, the prepares. */
  lemma BeforeEvents(p: Plan, o: Outside)
    ensures EventsOf(Before(p, o)) == PreEvents(p)
    ensures InOrder(EventsOf(Before(p, o))) && UpTo(EventsOf(Before(p, o)), 3)
  {
    var e := PreEvents(p);
    var m := Before(p, o);
    assert |EventsOf(m)| == |e|;
    forall i | 0 <= i < |e| ensures EventsOf(m)[i] == e[i] {
    }
    PreInOrder(p);
  }


  lemma AfterEvents(p: Plan, logPath: string)
    ensures EventsOf(After(p, logPath)) == Tagged(ItemPhase, p.items) + [LogItem]
  {
    var e := Tagged(ItemPhase, p.items) + [LogItem];
    assert |EventsOf(After(p, logPath))| == |e|;
    forall i | 0 <= i < |e| ensures EventsOf(After(p, logPath))[i] == e[i] {
    }
  }

  /** Calls in stage order up to stage `k`, then calls in stage order from stage `k` on, are in stage order. */
  lemma Join(a: seq<Event>, b: seq<Event>, k: nat)
    requires InOrder(a) && UpTo(a, k) && InOrder(b)
    requires forall i :: 0 <= i < |b| ==> k <= Rank(b[i])
    ensures InOrder(a + b)
  {
    forall i, j | 0 <= i < j < |a + b| ensures Rank((a + b)[i]) <= Rank((a + b)[j]) {
      if j < |a| {
        assert (a + b)[i] == a[i] && (a + b)[j] == a[j];
      } else if i < |a| {
        assert (a + b)[i] == a[i] && (a + b)[j] == b[j - |a|];
      } else {
        assert (a + b)[i] == b[i - |a|] && (a + b)[j] == b[j - |a|];
      }
    }
  }

  /** The calls before the window are in stage order, at most the prepare stage, and all of them when none raised. */
  lemma BeforeSwept(p: Plan, o: Outside)
    ensures var a := Sweep(Before(p, o));
      && InOrder(a.events) && UpTo(a.events, 3)
      && (a.result.Ok? ==> a.events == PreEvents(p))
  {
    var before := Before(p, o);
    SweepShape(before);
    BeforeEvents(p, o);
    PrefixInOrder(EventsOf(before), |Sweep(before).events|, 3);
  }

  /** The calls of the run phase are runs, and all of them when none raised. */
  lemma RunsSwept(p: Plan)
    ensures var b := Sweep(Moves(RunPhase, p.keyed, p.run));
      && AllRank(b.events, 5)
      && (b.result.Ok? ==> b.events == Tagged(RunPhase, p.run))
  {
    var runs := Moves(RunPhase, p.keyed, p.run);
    SweepShape(runs);
    MovesEvents(RunPhase, p.keyed, p.run);
    TaggedRank(RunPhase, p.run);
  }

  /** The calls after the window are item calls in stage order, and all of them when none raised. */
  lemma AfterSwept(p: Plan, logPath: string)
    ensures var c := Sweep(After(p, logPath));
      && InOrder(c.events)
      && (forall i :: 0 <= i < |c.events| ==> 7 <= Rank(c.events[i]))
      && (c.result.Ok? ==> c.events == Tagged(ItemPhase, p.items) + [LogItem])
  {
    var after := After(p, logPath);
    SweepShape(after);
    AfterEvents(p, logPath);
    TaggedRank(ItemPhase, p.items);
    var all := Tagged(ItemPhase, p.items) + [LogItem];
    Extend(Tagged(ItemPhase, p.items), [LogItem], 8);
    PrefixInOrder(all, |Sweep(after).events|, 8);
    assert forall i :: 0 <= i < |all| ==> 7 <= Rank(all[i]);
  }

  /**
   * The calls of a backup always go stage by stage; a backup reaches
   * `finalize` exactly when nothing raised, and then it made every call.
   */
  lemma BackupInOrder(p: Plan, o: Outside, logPath: string)
    ensures var t := Backup(p, o, logPath);
      && InOrder(t.events)
      && (t.finalizes <==> t.result.Ok?)
      && (t.finalizes ==> t.events == FullEvents(p))
  {
    var a := Sweep(Before(p, o));
    BeforeSwept(p, o);
    if a.result.Ok? {
      var w := Windowed(p, o);
      WindowedInOrder(p, o, a.events);
      if w.result.Ok? {
        var c := Sweep(After(p, logPath));
        AfterSwept(p, logPath);
        Join(a.events + w.events, c.events, 6);
        if c.result.Ok? {
          FullEventsSplit(p);
        }
      }
    }
  }

  /** Calls in stage order up to the prepares, then the window: still in stage order, and all the runs when the window went through. */
  lemma WindowedInOrder(p: Plan, o: Outside, ev: seq<Event>)
    requires InOrder(ev) && UpTo(ev, 3)
    ensures var w := Windowed(p, o);
      && InOrder(ev + w.events) && UpTo(ev + w.events, 6)
      && (w.result.Ok? ==> w.events == [EnterWindow] + Tagged(RunPhase, p.run) + [ExitWindow])
  {
    Extend(ev, [EnterWindow], 4);
    if o.enter.Ok? {
      var b := Sweep(Moves(RunPhase, p.keyed, p.run));
      RunsSwept(p);
      Extend(ev + [EnterWindow], b.events, 5);
      Extend(ev + [EnterWindow] + b.events, [ExitWindow], 6);
      assert ev + Windowed(p, o).events == ev + [EnterWindow] + b.events + [ExitWindow];
    }
  }

  /** The full list of calls as the part before the window, the window, and the items. */
  lemma FullEventsSplit(p: Plan)
    ensures FullEvents(p)
      == ((if p.waits then [Waited] else []) + Tagged(MetaPhase, p.meta) + [DriveMetadata] + Tagged(PreparePhase, p.prepare))
       + ([EnterWindow] + Tagged(RunPhase, p.run) + [ExitWindow])
       + (Tagged(ItemPhase, p.items) + [LogItem])
  {
  }

  /** All the conditions under which a backup reaches `finalize`. */
  predicate NothingRaises(p: Plan, o: Outside) {
    && (p.waits ==> o.wait.Ok?)
    && (forall i :: 0 <= i < |p.meta| ==> Outcome(MetaPhase, p.keyed, p.meta[i]).Ok?)
    && (forall i :: 0 <= i < |p.prepare| ==> p.prepare[i].prepare.Ok?)
    && o.enter.Ok?
    && (forall i :: 0 <= i < |p.run| ==> p.run[i].run.Ok?)
    && o.exit.Ok?
    && (forall i :: 0 <= i < |p.items| ==> p.items[i].dirItem.Ok?)
  }

  /** A backup reaches `finalize` exactly when the wait, every metadata, prepare and run call, the window and every item succeed. */
  lemma BackupFinalizesIff(p: Plan, o: Outside, logPath: string)
    ensures Backup(p, o, logPath).finalizes <==> NothingRaises(p, o)
  {
    BeforeGo(p, o);
    RunsGo(p);
    AfterGo(p, logPath);
  }

  /** The moves before the window go through exactly when the wait, every metadata call and every prepare do. */
  lemma BeforeGo(p: Plan, o: Outside)
    ensures Sweep(Before(p, o)).result.Ok? <==>
      && (p.waits ==> o.wait.Ok?)
      && (forall i :: 0 <= i < |p.meta| ==> Outcome(MetaPhase, p.keyed, p.meta[i]).Ok?)
      && (forall i :: 0 <= i < |p.prepare| ==> p.prepare[i].prepare.Ok?)
  {
    var wm, mm, pm := WaitMoves(p, o), Moves(MetaPhase, p.keyed, p.meta), Moves(PreparePhase, p.keyed, p.prepare);
    SweepAppend(wm, mm);
    SweepAppend(wm + mm, [DriveMove(o)]);
    SweepAppend(wm + mm + [DriveMove(o)], pm);
    SweepShape(wm);
    SweepShape(mm);
    SweepShape(pm);
    SweepShape([DriveMove(o)]);
    MovesGo(MetaPhase, p.keyed, p.meta);
    MovesGo(PreparePhase, p.keyed, p.prepare);
  }

  /** The run phase goes through exactly when every run does. */
  lemma RunsGo(p: Plan)
    ensures Sweep(Moves(RunPhase, p.keyed, p.run)).result.Ok? <==> forall i :: 0 <= i < |p.run| ==> p.run[i].run.Ok?
  {
    SweepShape(Moves(RunPhase, p.keyed, p.run));
    MovesGo(RunPhase, p.keyed, p.run);
  }

  /** The moves after the window go through exactly when every item does. */
  lemma AfterGo(p: Plan, logPath: string)
    ensures Sweep(After(p, logPath)).result.Ok? <==> forall i :: 0 <= i < |p.items| ==> p.items[i].dirItem.Ok?
  {
    var im := Moves(ItemPhase, p.keyed, p.items);
    var log := [Move(LogItem, Ok(AddItem(logPath, "backup.log")))];
    SweepAppend(im, log);
    SweepShape(im);
    SweepShape(log);
    MovesGo(ItemPhase, p.keyed, p.items);
  }

  /**
   * When the wait raises, nothing else is called and the archive is not
   * touched.
   */
  lemma WaitFailureStopsAll(p: Plan, o: Outside, logPath: string)
    requires p.waits && o.wait.Err?
    ensures Backup(p, o, logPath) == Trace([Waited], [], false, Err(NotReady(o.wait.error)))
  {
    var wm := WaitMoves(p, o);
    var rest := Moves(MetaPhase, p.keyed, p.meta) + [DriveMove(o)] + Moves(PreparePhase, p.keyed, p.prepare);
    assert Before(p, o) == wm + rest;
    SweepAppend(wm, rest);
    assert wm[..0] == [];
  }

  /**
   * When a run raises inside a window that was entered, the window is
   * left, the last call is the exit, and no item is added and nothing is
   * finalized or uploaded; the run's error stands unless the exit raises.
   */
  lemma RunFailureLeavesWindow(p: Plan, o: Outside, logPath: string, k: nat)
    requires Sweep(Before(p, o)).result.Ok? && o.enter.Ok?
    requires k < |p.run| && p.run[k].run.Err?
    ensures var t := Backup(p, o, logPath);
      && !t.finalizes
      && |t.events| > 0 && t.events[|t.events| - 1] == ExitWindow
      && (forall i :: 0 <= i < |t.events| ==> Rank(t.events[i]) <= Rank(ExitWindow))
      && t.result.Err?
      && (o.exit.Ok? ==> t.result.error.SubtaskFailed?)
  {
    var runs := Moves(RunPhase, p.keyed, p.run);
    SweepShape(runs);
    MovesGo(RunPhase, p.keyed, p.run);
    BackupInOrder(p, o, logPath);
    var t := Backup(p, o, logPath);
    var a := Sweep(Before(p, o));
    var b := Sweep(runs);
    assert !Go(runs) by {
      assert !Outcome(RunPhase, p.keyed, p.run[k]).Ok?;
    }
    assert b.result.Err?;
    assert b.result.error.SubtaskFailed? by {
      assert runs[|b.events| - 1].outcome == Err(b.result.error);
    }
    assert t.events == a.events + [EnterWindow] + b.events + [ExitWindow];
    var last := |t.events| - 1;
    forall i | 0 <= i < |t.events| ensures Rank(t.events[i]) <= Rank(ExitWindow) {
      if i < last {
        assert Rank(t.events[i]) <= Rank(t.events[last]);
      }
    }
  }

  /** The calls of the legacy `Task`, in order. */
  lemma LegacyCalls(cql: Sub, s3: Sub, kc: Sub)
    requires cql.component == Cassandra && s3.component == S3 && kc.component == Keycloak
    ensures FullEvents(LegacyPlan(cql, s3, kc)) ==
      [MetadataOf(Cassandra), MetadataOf(S3), MetadataOf(Keycloak), DriveMetadata, PrepareOf(S3),
       EnterWindow, RunOf(Cassandra), RunOf(S3), RunOf(Keycloak), ExitWindow,
       DirItemOf(Cassandra), DirItemOf(S3), DirItemOf(Keycloak), LogItem]
  {
  }

  /** The calls of the oldest `TaskBackup`, in order: no wait and no prepare. */
  lemma OldestCalls(cql: Sub, s3: Sub, kc: Sub)
    requires cql.component == Cassandra && s3.component == S3 && kc.component == Keycloak
    ensures FullEvents(OldestPlan(cql, s3, kc)) ==
      [MetadataOf(Cassandra), MetadataOf(S3), MetadataOf(Keycloak), DriveMetadata,
       EnterWindow, RunOf(Cassandra), RunOf(S3), RunOf(Keycloak), ExitWindow,
       DirItemOf(Cassandra), DirItemOf(S3), DirItemOf(Keycloak), LogItem]
  {
  }

  /** The current `Task` waits first, and goes over its list in each phase. */
  lemma CurrentCalls(subs: seq<Sub>)
    ensures var f := FullEvents(CurrentPlan(subs));
      && f[0] == Waited
      && f == [Waited] + Tagged(MetaPhase, subs) + [DriveMetadata] + Tagged(PreparePhase, subs)
              + [EnterWindow] + Tagged(RunPhase, subs) + [ExitWindow] + Tagged(ItemPhase, subs) + [LogItem]
  {
  }

  /** The archive's items and metadata, as `ArchiveCreator` holds them. */
  datatype Contents = Contents(metadata: map<string, Json>, names: seq<string>, paths: map<string, string>)

  /** `add_metadata` and `add_dir_item`/`add_file_item`: the later binding wins, a new name goes last. */
  function ApplyOne(c: Contents, u: Update): Contents {
    match u
    case Keep => c
    case SetMeta(k, v) => c.(metadata := c.metadata[k := v])
    case AddItem(path, name) =>
      c.(names := if name in c.paths then c.names else c.names + [name], paths := c.paths[name := path])
  }

  function ApplyAll(c: Contents, us: seq<Update>): Contents
    decreases |us|
  {
    if us == [] then c else ApplyOne(ApplyAll(c, us[..|us| - 1]), us[|us| - 1])
  }

  /** Applying two lists of updates in turn is applying their concatenation. */
  lemma {:induction false} ApplyAllAppend(c: Contents, u: seq<Update>, v: seq<Update>)
    ensures ApplyAll(c, u + v) == ApplyAll(ApplyAll(c, u), v)
    decreases |v|
  {
    if v == [] {
      assert u + v == u;
    } else {
      assert (u + v)[..|u + v| - 1] == u + v[..|v| - 1];
      ApplyAllAppend(c, u, v[..|v| - 1]);
    }
  }

  /**
   * The current Cassandra subtask's `metadata()` as written: the dict
   * `{host, versions}`, keys in that order.
   */
  function CurrentCassandraAnswer(host: Json, versions: Json): MetaAnswer {
    Dict(["host", "versions"], JObject(map["host" := host, "versions" := versions]))
  }

  /**
   * As written, the current `Task` stores the string "versions" under the
   * key "host": neither answer reaches the archive metadata, and there is
   * no "cql" key.
   */
  lemma CassandraMetadataMangled(host: Json, versions: Json, s: Sub)
    requires s.metadata == Ok(CurrentCassandraAnswer(host, versions))
    ensures Outcome(MetaPhase, false, s) == Ok(SetMeta("host", JStr("versions")))
  {
  }

  /** The evidently intended answer: the pair `("cql", {host, versions})`. */
  function CorrectedCassandraAnswer(host: Json, versions: Json): MetaAnswer {
    Pair("cql", JObject(map["host" := host, "versions" := versions]))
  }

  /**
   * With the corrected answer the current `Task` stores the whole dict
   * under "cql", the key the legacy `Task` uses for the same dict.
   */
  lemma CorrectedCassandraMetadataKept(host: Json, versions: Json, s: Sub, legacy: Sub)
    requires s.component == Cassandra && legacy.component == Cassandra
    requires s.metadata == Ok(CorrectedCassandraAnswer(host, versions))
    requires legacy.metadata == Ok(CurrentCassandraAnswer(host, versions))
    ensures Outcome(MetaPhase, false, s) == Ok(SetMeta("cql", JObject(map["host" := host, "versions" := versions])))
    ensures Outcome(MetaPhase, false, s) == Outcome(MetaPhase, true, legacy)
  {
  }

  /** The phase up to move `i + 1` is the phase up to move `i`, then move `i`. */
  lemma SweepStep(moves: seq<Move>, i: nat)
    requires i < |moves|
    ensures var s := Sweep(moves[..i]);
      Sweep(moves[..i + 1]) ==
        if s.result.Err? then s
        else if moves[i].outcome.Err? then Swept(s.events + [moves[i].event], s.updates, Err(moves[i].outcome.error))
        else Swept(s.events + [moves[i].event], s.updates + [moves[i].outcome.value], Ok(()))
  {
    assert moves[..i + 1][..i] == moves[..i];
  }

  /** A phase whose first `k` moves raised ends as they did. */
  lemma SweepStays(moves: seq<Move>, k: nat)
    requires k <= |moves| && Sweep(moves[..k]).result.Err?
    ensures Sweep(moves) == Sweep(moves[..k])
  {
    SweepAppend(moves[..k], moves[k..]);
    assert moves[..k] + moves[k..] == moves;
  }

  lemma ApplySnoc(c: Contents, us: seq<Update>, u: Update)
    ensures ApplyAll(c, us + [u]) == ApplyOne(ApplyAll(c, us), u)
  {
    assert (us + [u])[..|us|] == us;
  }

  class BackupTask {
    const plan: Plan
    const outside: Outside
    const archive: Archiver.ArchiveCreator
    const disk: Disk
    const logPath: string
    const uploadName: string
    const uploadFolder: string
    /** The calls made so far. */
    var events: seq<Event>

    constructor (plan: Plan, outside: Outside, archive: Archiver.ArchiveCreator, disk: Disk,
                 logPath: string, uploadName: string, uploadFolder: string)
      ensures this.plan == plan && this.outside == outside && this.archive == archive && this.disk == disk
      ensures this.logPath == logPath && this.uploadName == uploadName && this.uploadFolder == uploadFolder
      ensures events == []
    {
      this.plan := plan;
      this.outside := outside;
      this.archive := archive;
      this.disk := disk;
      this.logPath := logPath;
      this.uploadName := uploadName;
      this.uploadFolder := uploadFolder;
      events := [];
    }

    function Held(): Contents
      reads archive
    {
      Contents(archive.metadata, archive.itemNames, archive.itemPaths)
    }

    /** The calls of a phase were made and its updates applied to the archive, and the phase's result returned. */
    ghost predicate Followed(held0: Contents, events0: seq<Event>, s: Swept, r: Result<(), TaskError>)
      reads this, archive
    {
      && events == events0 + s.events
      && r == s.result
      && Held() == ApplyAll(held0, s.updates)
    }

    /** One update of the archive. */
    method ApplyUpdate(u: Update)
      requires archive.Valid()
      modifies archive`metadata, archive`itemNames, archive`itemPaths
      ensures archive.Valid()
      ensures Held() == ApplyOne(old(Held()), u)
    {
      match u
      case Keep =>
      case SetMeta(k, v) =>
        archive.AddMetadata(k, v);
      case AddItem(path, name) =>
        archive.AddFileItem(path, name);
    }

    /** One phase: each call in turn, until the first that raises. */
    method Perform(moves: seq<Move>) returns (r: Result<(), TaskError>)
      requires archive.Valid()
      modifies this`events, archive`metadata, archive`itemNames, archive`itemPaths
      ensures archive.Valid()
      ensures Followed(old(Held()), old(events), Sweep(moves), r)
    {
      ghost var events0, held0 := events, Held();
      ghost var s := Sweep([]);
      var i := 0;
      while i < |moves|
        invariant 0 <= i <= |moves|
        invariant archive.Valid()
        invariant s == Sweep(moves[..i]) && s.result.Ok?
        invariant events == events0 + s.events
        invariant Held() == ApplyAll(held0, s.updates)
      {
        var m := moves[i];
        SweepStep(moves, i);
        events := events + [m.event];
        if m.outcome.Err? {
          SweepStays(moves, i + 1);
          return Err(m.outcome.error);
        }
        ApplyUpdate(m.outcome.value);
        ApplySnoc(held0, s.updates, m.outcome.value);
        s := Swept(s.events + [m.event], s.updates + [m.outcome.value], Ok(()));
        i := i + 1;
      }
      assert moves[..i] == moves;
      r := Ok(());
    }

    /**
     * What `finalize` and `upload` leave: the metadata file written; an
     * item whose path is missing raises before the metadata is added and
     * nothing is uploaded; otherwise the archive is uploaded under the
     * configured name and folder.
     */
    ghost predicate Finished(events0: seq<Event>, files0: map<string, string>, archives0: map<string, Archive>, r: Result<(), TaskError>)
      reads this, archive, disk
      requires archive.Valid()
    {
      var built := archive.FinalBlocks(disk.dirs, disk.files);
      && disk.files == files0[archive.PathMetadataFile() := archive.dump(archive.metadata)]
      && (built.missing.Some? ==>
            && events == events0 + [Finalized]
            && r == Err(ItemMissing(built.missing.value))
            && disk.archives == archives0[archive.PathArchive() := built.blocks])
      && (built.missing.None? ==>
            && events == events0 + [Finalized, Uploaded(archive.PathArchive(), uploadName, uploadFolder)]
            && r == (if outside.upload.Err? then Err(UploadFailed(outside.upload.error)) else Ok(()))
            && disk.archives == archives0[archive.PathArchive() := built.blocks + [Block(archive.metadataName, map["" := FileEntry(archive.dump(archive.metadata))])]])
    }

    /** `finalize`, then `upload` of the archive it returns. */
    method Finish() returns (r: Result<(), TaskError>)
      requires archive.Valid()
      modifies this`events, disk`files, disk`archives
      ensures Finished(old(events), old(disk.files), old(disk.archives), r)
    {
      events := events + [Finalized];
      var path := archive.Finalize(disk);
      if path.Err? {
        return Err(ItemMissing(path.error));
      }
      events := events + [Uploaded(path.value, uploadName, uploadFolder)];
      r := if outside.upload.Err? then Err(UploadFailed(outside.upload.error)) else Ok(());
    }

    /** The maintenance window around the runs. */
    method Window() returns (r: Result<(), TaskError>)
      requires archive.Valid()
      modifies this`events, archive`metadata, archive`itemNames, archive`itemPaths
      ensures archive.Valid()
      ensures Followed(old(Held()), old(events), Windowed(plan, outside), r)
    {
      events := events + [EnterWindow];
      if outside.enter.Err? {
        return Err(WindowFailed(outside.enter.error));
      }
      var b := Perform(Moves(RunPhase, plan.keyed, plan.run));
      events := events + [ExitWindow];
      r := Maintenance.WindowOutcome(Ok(()), b, KubeResult(outside.exit));
    }

    /** The phases of `run` up to the end of the maintenance window. */
    method Open() returns (r: Result<(), TaskError>)
      requires archive.Valid()
      modifies this`events, archive`metadata, archive`itemNames, archive`itemPaths
      ensures archive.Valid()
      ensures Followed(old(Held()), old(events), Opening(plan, outside), r)
    {
      ghost var held0, events0 := Held(), events;
      ghost var a := Sweep(Before(plan, outside));
      r := Perform(Before(plan, outside));
      if r.Err? {
        return;
      }
      ghost var w := Windowed(plan, outside);
      r := Window();
      ApplyAllAppend(held0, a.updates, w.updates);
      assert events == events0 + (a.events + w.events);
    }

    /** The phases of `run` before `finalize`: each ends the run when it raises. */
    method Phases() returns (r: Result<(), TaskError>)
      requires archive.Valid()
      modifies this`events, archive`metadata, archive`itemNames, archive`itemPaths
      ensures archive.Valid()
      ensures var t := Backup(plan, outside, logPath);
        && Held() == ApplyAll(old(Held()), t.updates)
        && events == old(events) + t.events
        && r == t.result
        && (r.Ok? <==> t.finalizes)
    {
      ghost var held0, events0 := Held(), events;
      BackupFromOpening(plan, outside, logPath);
      ghost var op := Opening(plan, outside);
      r := Open();
      assert events == events0 + op.events && r == op.result;
      if r.Err? {
        return;
      }
      ghost var c := Sweep(After(plan, logPath));
      ghost var events1 := events;
      r := Perform(After(plan, logPath));
      assert events == events1 + c.events;
      ApplyAllAppend(held0, op.updates, c.updates);
    }

    /** `run` */
    method Run() returns (r: Result<(), TaskError>)
      requires archive.Valid()
      modifies this`events, archive`metadata, archive`itemNames, archive`itemPaths, disk`files, disk`archives
      ensures archive.Valid()
      ensures var t := Backup(plan, outside, logPath);
        && Held() == ApplyAll(old(Held()), t.updates)
        && (!t.finalizes ==>
              && events == old(events) + t.events && r == t.result
              && disk.files == old(disk.files) && disk.archives == old(disk.archives))
        && (t.finalizes ==> Finished(old(events) + t.events, old(disk.files), old(disk.archives), r))
    {
      r := Phases();
      if r.Err? {
        return;
      }
      r := Finish();
    }
  }
}

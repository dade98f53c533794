/**
 * The MinIO client runner (`mc_commands.py`, identical in protocol in the
 * current and the legacy tree). Every `mc` invocation prints one JSON record
 * per line; the runner reads them in order, raises on the first `"error"`
 * record, hands every `"success"` record to the caller's callback and raises
 * on any other status. The exit code of `mc` is never looked at, so it does
 * not appear in the model.
 *
 * What `mc` prints is a parameter: `tool(n, argv)` gives the parsed records
 * of the `n`-th invocation (counting from 0) of the command line `argv`.
 */
module McCommands {
  import opened Wrappers
  import opened Strings
  import opened JsonValues

  datatype S3Credentials = S3Credentials(accessKey: string, secretKey: string)

  /** An S3 service. `port` defaults to 9000 and `tls` to true in the source. */
  datatype S3Instance = S3Instance(credentials: S3Credentials, host: string, tls: bool, port: int)
  {
    /** `base_url` in the current tree, `url()` in the legacy tree. */
    function BaseUrl(): string {
      "http" + (if tls then "s" else "") + "://" + host + ":" + IntToString(port)
    }

    /** `health_live_url` (current tree only). */
    function HealthLiveUrl(): (r: string)
      ensures r == BaseUrl() + "/minio/health/live"
    {
      BaseUrl() + "/minio/health/live"
    }
  }

  /** The scheme of the URL is `https` exactly when the instance uses TLS. */
  lemma BaseUrlScheme(inst: S3Instance)
    ensures inst.BaseUrl()[..8] == "https://" <==> inst.tls
    ensures !inst.tls ==> inst.BaseUrl()[..7] == "http://"
  {
    var u := inst.BaseUrl();
    if inst.tls {
      assert u == "https://" + inst.host + ":" + IntToString(inst.port);
    } else {
      assert u == "http://" + inst.host + ":" + IntToString(inst.port);
      assert u[4] == ':';
    }
  }

  /** `MinioLocalInstance`: the local MinIO, on `localhost` without TLS. */
  function MinioLocalInstance(accessKey: string, secretKey: string, port: int): (r: S3Instance)
    ensures r.host == "localhost" && !r.tls && r.port == port
    ensures r.credentials == S3Credentials(accessKey, secretKey)
    ensures r.BaseUrl() == "http://localhost:" + IntToString(port)
  {
    S3Instance(S3Credentials(accessKey, secretKey), "localhost", false, port)
  }

  datatype MinioClientPaths = MinioClientPaths(pathBin: string, pathConfig: string)

  /**
   * One line of `mc --json` output, already parsed, with the clock reading
   * taken when the line is handled.
   */
  datatype OutputLine = OutputLine(doc: map<string, Json>, at: int)

  /** `(objects, size)` as reported by `mc du`. */
  datatype DiskUsage = DiskUsage(objects: Json, size: Json)

  datatype McError =
    /** A record with status "error"; carries its `error` field. */
    | CommandFailed(error: Json)
    /** A record whose status is neither "success" nor "error". */
    | UnknownStatus(doc: map<string, Json>)
    /** A record lacking a key the runner or the callback reads. */
    | KeyError(key: string)
    /** The target bucket still differs from the source after the retry. */
    | MirrorMismatch(source: string, target: string, expected: DiskUsage, actual: DiskUsage)

  /** The `on_success` callback and the `nonlocal` state it updates. */
  datatype Handler =
    | NoHandler
    /** `_du_bucket`: keeps the last record's `objects` and `size`. */
    | DiskUsageHandler(usage: DiskUsage)
    /** `_mirror_buckets`: when progress was last logged, and the `totalCount` values logged. */
    | MirrorProgress(lastLog: int, logged: seq<Json>)
    /** `cluster_info`: keeps the last record's `info`. */
    | AdminInfo(info: Json)

  /** The callback run on one success record. */
  function OnSuccess(h: Handler, line: OutputLine): (r: Result<Handler, McError>)
    ensures h.NoHandler? ==> r == Ok(h)
    ensures h.MirrorProgress? && r.Ok? ==> r.value.MirrorProgress?
    ensures h.MirrorProgress? && r.Ok? ==>
      if "target" in line.doc && line.at - h.lastLog > 5
      then "totalCount" in line.doc && r.value == MirrorProgress(line.at, h.logged + [line.doc["totalCount"]])
      else r.value == h
  {
    match h
    case NoHandler => Ok(h)
    case DiskUsageHandler(_) =>
      if "size" !in line.doc then Err(KeyError("size"))
      else if "objects" !in line.doc then Err(KeyError("objects"))
      else Ok(DiskUsageHandler(DiskUsage(line.doc["objects"], line.doc["size"])))
    case MirrorProgress(last, logged) =>
      if "target" in line.doc && line.at - last > 5 then
        if "totalCount" !in line.doc then Err(KeyError("totalCount"))
        else Ok(MirrorProgress(line.at, logged + [line.doc["totalCount"]]))
      else Ok(h)
    case AdminInfo(_) =>
      if "info" !in line.doc then Err(KeyError("info")) else Ok(AdminInfo(line.doc["info"]))
  }

  predicate IsStatus(line: OutputLine, status: string) {
    "status" in line.doc && line.doc["status"] == JStr(status)
  }

  /** One iteration of the loop over the output lines. */
  function Step(h: Handler, line: OutputLine): (r: Result<Handler, McError>)
    ensures IsStatus(line, "error") ==> r.Err?
    ensures !IsStatus(line, "error") && !IsStatus(line, "success") ==> r.Err?
    ensures IsStatus(line, "success") ==> r == OnSuccess(h, line)
  {
    if "status" !in line.doc then Err(KeyError("status"))
    else if line.doc["status"] == JStr("error") then
      if "error" in line.doc then Err(CommandFailed(line.doc["error"])) else Err(KeyError("error"))
    else if line.doc["status"] == JStr("success") then OnSuccess(h, line)
    else Err(UnknownStatus(line.doc))
  }

  /** The outcome of reading `lines` in order, starting from the callback state `h`. */
  function Process(lines: seq<OutputLine>, h: Handler): Result<Handler, McError>
    decreases |lines|
  {
    if lines == [] then Ok(h)
    else
      match Step(h, lines[0])
      case Err(e) => Err(e)
      case Ok(h') => Process(lines[1..], h')
  }

  /** Reading two stretches of output is reading the first, then the second from where the first left off. */
  lemma {:induction false} ProcessAppend(a: seq<OutputLine>, b: seq<OutputLine>, h: Handler)
    ensures Process(a + b, h) == match Process(a, h) case Err(e) => Err(e) case Ok(h') => Process(b, h')
    decreases |a|
  {
    if a == [] {
      assert a + b == b;
    } else {
      assert (a + b)[0] == a[0];
      assert (a + b)[1..] == a[1..] + b;
      match Step(h, a[0])
      case Err(_) =>
      case Ok(h') => ProcessAppend(a[1..], b, h');
    }
  }

  /** The errors of a run come from its records, never from the mirror check. */
  lemma {:induction false} ProcessErrorsFromRecords(lines: seq<OutputLine>, h: Handler)
    ensures Process(lines, h).Err? ==> !Process(lines, h).error.MirrorMismatch?
    decreases |lines|
  {
    if lines != [] {
      match Step(h, lines[0])
      case Err(_) =>
      case Ok(h') => ProcessErrorsFromRecords(lines[1..], h');
    }
  }

  /** An error record ends the run with an error: nothing after it is read. */
  lemma ErrorRecordStops(before: seq<OutputLine>, line: OutputLine, after: seq<OutputLine>, h: Handler)
    requires IsStatus(line, "error")
    ensures Process(before + [line] + after, h).Err?
    ensures Process(before + [line] + after, h) == Process(before + [line], h)
  {
    ProcessAppend(before + [line], after, h);
    ProcessAppend(before, [line], h);
    match Process(before, h)
    case Err(_) =>
    case Ok(h') =>
      assert Process([line], h') == Step(h', line);
  }

  /** Without a callback, a run succeeds exactly when every record has status "success". */
  lemma {:induction false} NoHandlerSucceedsIffAllSuccess(lines: seq<OutputLine>)
    ensures Process(lines, NoHandler) == Ok(NoHandler) <==> forall i :: 0 <= i < |lines| ==> IsStatus(lines[i], "success")
    ensures Process(lines, NoHandler).Ok? ==> Process(lines, NoHandler) == Ok(NoHandler)
    decreases |lines|
  {
    if lines != [] {
      NoHandlerSucceedsIffAllSuccess(lines[1..]);
      if IsStatus(lines[0], "success") {
        assert forall i :: 1 <= i < |lines| ==> lines[i] == lines[1..][i - 1];
      }
    }
  }

  /** A success record carrying both `objects` and `size`. */
  predicate IsUsageRecord(line: OutputLine) {
    IsStatus(line, "success") && "objects" in line.doc && "size" in line.doc
  }

  /**
   * `_du_bucket` succeeds exactly when every record is a success record with
   * `objects` and `size`, and then yields the last record's pair, or the
   * starting pair when there is no record.
   */
  lemma {:induction false} DiskUsageKeepsLast(lines: seq<OutputLine>, start: DiskUsage)
    ensures Process(lines, DiskUsageHandler(start)).Ok? <==> forall i :: 0 <= i < |lines| ==> IsUsageRecord(lines[i])
    ensures Process(lines, DiskUsageHandler(start)).Ok? ==>
      Process(lines, DiskUsageHandler(start)) == Ok(DiskUsageHandler(
        if lines == [] then start
        else DiskUsage(lines[|lines| - 1].doc["objects"], lines[|lines| - 1].doc["size"])))
    decreases |lines|
  {
    if lines != [] {
      var rest := lines[1..];
      if IsUsageRecord(lines[0]) {
        var next := DiskUsage(lines[0].doc["objects"], lines[0].doc["size"]);
        DiskUsageKeepsLast(rest, next);
        assert forall i :: 1 <= i < |lines| ==> lines[i] == rest[i - 1];
        if rest != [] {
          assert lines[|lines| - 1] == rest[|rest| - 1];
        }
      }
    }
  }

  /**
   * Progress throttling: the log timestamp only moves when something is
   * logged, each log moves it forward by more than 5, and at most one entry
   * is logged per record.
   */
  lemma {:induction false} ProgressThrottle(lines: seq<OutputLine>, last: int, logged: seq<Json>)
    ensures Process(lines, MirrorProgress(last, logged)).Ok? ==>
      var h := Process(lines, MirrorProgress(last, logged)).value;
      && h.MirrorProgress?
      && |logged| <= |h.logged| <= |logged| + |lines|
      && h.logged[..|logged|] == logged
      && (|h.logged| == |logged| ==> h.lastLog == last)
      && (|h.logged| > |logged| ==> h.lastLog > last + 5 * (|h.logged| - |logged|))
    decreases |lines|
  {
    if lines != [] {
      match Step(MirrorProgress(last, logged), lines[0])
      case Err(_) =>
      case Ok(h1) =>
        ProgressThrottle(lines[1..], h1.lastLog, h1.logged);
    }
  }

  /** The command line of one invocation. */
  function Argv(paths: MinioClientPaths, args: seq<string>): (r: seq<string>)
    ensures |r| == 4 + |args| && r[..4] == [paths.pathBin, "--json", "--config-dir", paths.pathConfig] && r[4..] == args
  {
    [paths.pathBin, "--json", "--config-dir", paths.pathConfig] + args
  }

  /** The `mc alias set` arguments for an instance. */
  function AliasArgs(alias: string, inst: S3Instance): seq<string> {
    ["alias", "set", alias, inst.BaseUrl(), inst.credentials.accessKey, inst.credentials.secretKey]
  }

  function DuArgs(bucketPath: string): seq<string> {
    ["du", "--versions", bucketPath]
  }

  function RbArgs(bucket: string): seq<string> {
    ["rb", "--force", "cluster/" + bucket]
  }

  function MirrorArgs(source: string, target: string): seq<string> {
    ["mirror", "--overwrite", "--preserve", "--remove", source, target]
  }

  const DuStart := DiskUsage(JNum(0), JNum(0))

  /** `_du_bucket`'s result for the records of one `du` run. */
  function DiskUsageOf(lines: seq<OutputLine>): (r: Result<DiskUsage, McError>)
    ensures r.Ok? <==> Process(lines, DiskUsageHandler(DuStart)).Ok?
  {
    match Process(lines, DiskUsageHandler(DuStart))
    case Err(e) => Err(e)
    case Ok(h) => if h.DiskUsageHandler? then Ok(h.usage) else (DiskUsageKeepsLast(lines, DuStart); assert false; Err(KeyError("")))
  }

  /** `_du_bucket` returns `(0, 0)` when `du` prints nothing and the last record's pair otherwise. */
  lemma DiskUsageOfLast(lines: seq<OutputLine>)
    requires forall i :: 0 <= i < |lines| ==> IsUsageRecord(lines[i])
    ensures lines == [] ==> DiskUsageOf(lines) == Ok(DiskUsage(JNum(0), JNum(0)))
    ensures lines != [] ==> IsUsageRecord(lines[|lines| - 1]) && DiskUsageOf(lines) == Ok(DiskUsage(lines[|lines| - 1].doc["objects"], lines[|lines| - 1].doc["size"]))
  {
    DiskUsageKeepsLast(lines, DuStart);
  }

  /**
   * The outcome of `_mirror_buckets` from the outputs of its (at most four)
   * invocations: du of the source, the mirror, du of the target and, only if
   * that differs from the source, a second du of the target after 5 s.
   * The second component is how many invocations ran.
   */
  function MirrorOutcome(
    source: string, target: string, clock0: int,
    duSource: seq<OutputLine>, mirror: seq<OutputLine>, duTarget: seq<OutputLine>, duRetry: seq<OutputLine>)
    : (out: (Result<seq<Json>, McError>, nat))
    ensures 1 <= out.1 <= 4
    ensures out.0.Ok? ==> out.1 >= 3
  {
    match DiskUsageOf(duSource)
    case Err(e) => (Err(e), 1)
    case Ok(src) =>
      match Process(mirror, MirrorProgress(clock0, []))
      case Err(e) => (Err(e), 2)
      case Ok(p) =>
        var logged := if p.MirrorProgress? then p.logged else [];
        match DiskUsageOf(duTarget)
        case Err(e) => (Err(e), 3)
        case Ok(first) =>
          if first == src then (Ok(logged), 3)
          else
            match DiskUsageOf(duRetry)
            case Err(e) => (Err(e), 4)
            case Ok(second) =>
              if second == src then (Ok(logged), 4)
              else (Err(MirrorMismatch(source, target, src, second)), 4)
  }

  /**
   * The target is measured once, and a second time only when the first
   * measurement differs from the source; the mirror fails on a mismatch
   * exactly when the second measurement still differs, and the error carries
   * both pairs.
   */
  lemma MirrorVerification(
    source: string, target: string, clock0: int,
    duSource: seq<OutputLine>, mirror: seq<OutputLine>, duTarget: seq<OutputLine>, duRetry: seq<OutputLine>)
    requires DiskUsageOf(duSource).Ok? && Process(mirror, MirrorProgress(clock0, [])).Ok? && DiskUsageOf(duTarget).Ok?
    ensures var out := MirrorOutcome(source, target, clock0, duSource, mirror, duTarget, duRetry);
      && (out.1 == 4 <==> DiskUsageOf(duTarget).value != DiskUsageOf(duSource).value)
      && (out.0.Err? && out.0.error.MirrorMismatch? <==>
            out.1 == 4 && DiskUsageOf(duRetry).Ok? && DiskUsageOf(duRetry).value != DiskUsageOf(duSource).value)
      && (out.0.Err? && out.0.error.MirrorMismatch? ==>
            out.0.error == MirrorMismatch(source, target, DiskUsageOf(duSource).value, DiskUsageOf(duRetry).value))
  {
    var src := DiskUsageOf(duSource).value;
    var first := DiskUsageOf(duTarget).value;
    var p := Process(mirror, MirrorProgress(clock0, [])).value;
    var logged := if p.MirrorProgress? then p.logged else [];
    var out := MirrorOutcome(source, target, clock0, duSource, mirror, duTarget, duRetry);
    if first == src {
      assert out == (Ok(logged), 3);
    } else {
      match DiskUsageOf(duRetry)
      case Err(e) =>
        ProcessErrorsFromRecords(duRetry, DiskUsageHandler(DuStart));
        assert out == (Err(e), 4);
      case Ok(second) =>
        if second == src {
          assert out == (Ok(logged), 4);
        } else {
          assert out == (Err(MirrorMismatch(source, target, src, second)), 4);
        }
    }
  }

  /** `cluster_info`'s result for the records of `admin info cluster`; the callback state starts as `{}`. */
  function InfoOf(lines: seq<OutputLine>): Result<Json, McError> {
    match Process(lines, AdminInfo(JObject(map[])))
    case Err(e) => Err(e)
    case Ok(h) => Ok(if h.AdminInfo? then h.info else JObject(map[]))
  }

  /** A success record carrying `info`. */
  predicate IsInfoRecord(line: OutputLine) {
    IsStatus(line, "success") && "info" in line.doc
  }

  /** The `info` callback keeps the last record's `info`; any record without it, or not a success, raises. */
  lemma {:induction false} InfoKeepsLast(lines: seq<OutputLine>, start: Json)
    ensures Process(lines, AdminInfo(start)).Ok? <==> forall i :: 0 <= i < |lines| ==> IsInfoRecord(lines[i])
    ensures Process(lines, AdminInfo(start)).Ok? ==>
      Process(lines, AdminInfo(start)) == Ok(AdminInfo(if lines == [] then start else lines[|lines| - 1].doc["info"]))
    decreases |lines|
  {
    if lines != [] {
      var rest := lines[1..];
      if IsInfoRecord(lines[0]) {
        InfoKeepsLast(rest, lines[0].doc["info"]);
        assert forall i :: 1 <= i < |lines| ==> lines[i] == rest[i - 1];
        if rest != [] {
          assert lines[|lines| - 1] == rest[|rest| - 1];
        }
      }
    }
  }

  /**
   * `cluster_info` succeeds exactly when every record is a success record
   * with `info`, and then yields the last record's `info`, or `{}` when
   * there is no record.
   */
  lemma InfoOfLast(lines: seq<OutputLine>)
    ensures InfoOf(lines).Ok? <==> forall i :: 0 <= i < |lines| ==> IsInfoRecord(lines[i])
    ensures InfoOf(lines).Ok? ==> InfoOf(lines).value == if lines == [] then JObject(map[]) else lines[|lines| - 1].doc["info"]
  {
    InfoKeepsLast(lines, JObject(map[]));
  }

  /**
   * A command behind `_need_aliases`: a failed alias setup ends it with that
   * error; otherwise the rest runs after the alias invocations. Each part
   * is its result and how many invocations it ran.
   */
  function AfterAliases<T>(a: (Result<(), McError>, nat), rest: (Result<T, McError>, nat)): (out: (Result<T, McError>, nat))
    ensures out.0.Ok? <==> a.0.Ok? && rest.0.Ok?
    ensures out.0.Err? ==> out.0.error == if a.0.Err? then a.0.error else rest.0.error
  {
    if a.0.Err? then (Err(a.0.error), a.1) else (rest.0, a.1 + rest.1)
  }

  /** The first `|p| + k` elements of `p + q` are `p` and the first `k` of `q`. */
  lemma PrefixOfAppend<T>(p: seq<T>, q: seq<T>, k: nat)
    requires k <= |q|
    ensures (p + q)[..|p| + k] == p + q[..k]
    ensures (p + q)[..|p|] == p
  {
  }

  /** A log grown by all of `p` and then `k` commands of `q` is grown by a prefix of `p + q`. */
  lemma LogAfterAliases<T>(before: seq<T>, p: seq<T>, q: seq<T>, k: nat, after: seq<T>)
    requires k <= |q| && after == before + p + q[..k]
    ensures after == before + (p + q)[..|p| + k]
  {
    PrefixOfAppend(p, q, k);
  }

  /** A prefix of `p` of length `k` is a prefix of `p + q`. */
  lemma PrefixWithin<T>(p: seq<T>, q: seq<T>, k: nat)
    requires k <= |p|
    ensures (p + q)[..k] == p[..k]
  {
  }

  /** The callback each command of `_mirror_buckets` reads its records with. */
  function MirrorHandlers(clock0: int): seq<Handler> {
    [DiskUsageHandler(DuStart), MirrorProgress(clock0, []), DiskUsageHandler(DuStart), DiskUsageHandler(DuStart)]
  }

  /** What reading each output of `ls` with the callback at the same place in `hs` gives. */
  function Outcomes(ls: seq<seq<OutputLine>>, hs: seq<Handler>): (rs: seq<Result<Handler, McError>>)
    requires |ls| == |hs|
    ensures |rs| == |ls|
  {
    seq(|ls|, j requires 0 <= j < |ls| => Process(ls[j], hs[j]))
  }

  /**
   * A run of commands whose record loops give `rs`, stopped at the first
   * one that raises: `out.1` commands ran, every one before the last read
   * its records without error, and the result is an error other than a
   * mirror mismatch exactly when the last one's records raise, and then it
   * is that error.
   */
  predicate StopsAt<T>(out: (Result<T, McError>, nat), rs: seq<Result<Handler, McError>>) {
    && 1 <= out.1 <= |rs|
    && (forall j :: 0 <= j < out.1 - 1 ==> rs[j].Ok?)
    && (out.0.Err? && !out.0.error.MirrorMismatch? <==> rs[out.1 - 1].Err?)
    && (out.0.Err? && !out.0.error.MirrorMismatch? ==> out.0.error == rs[out.1 - 1].error)
  }

  /** A command whose records raise, run first, stops the run with its error. */
  lemma StopsAtFirst<T>(r0: Result<Handler, McError>, rs: seq<Result<Handler, McError>>)
    requires r0.Err? && !r0.error.MirrorMismatch?
    ensures StopsAt<T>((Err(r0.error), 1), [r0] + rs)
  {
  }

  /** A command whose records read cleanly, run first, shifts the rest of the run by one. */
  lemma StopsAfterFirst<T>(r0: Result<Handler, McError>, rs: seq<Result<Handler, McError>>, rest: (Result<T, McError>, nat))
    requires r0.Ok? && StopsAt(rest, rs)
    ensures StopsAt((rest.0, 1 + rest.1), [r0] + rs)
  {
    var all := [r0] + rs;
    assert forall j :: 1 <= j < |all| ==> all[j] == rs[j - 1];
  }

  /**
   * `_mirror_buckets` stops at the first command whose records raise, and
   * only a run of all four commands can end in a mismatch.
   */
  lemma MirrorStops(
    source: string, target: string, clock0: int,
    duSource: seq<OutputLine>, mirror: seq<OutputLine>, duTarget: seq<OutputLine>, duRetry: seq<OutputLine>)
    ensures var out := MirrorOutcome(source, target, clock0, duSource, mirror, duTarget, duRetry);
      && StopsAt(out, Outcomes([duSource, mirror, duTarget, duRetry], MirrorHandlers(clock0)))
      && (out.0.Err? && out.0.error.MirrorMismatch? ==> out.1 == 4)
  {
    var du := DiskUsageHandler(DuStart);
    var out := MirrorOutcome(source, target, clock0, duSource, mirror, duTarget, duRetry);
    if Process(duSource, du).Err? {
      ProcessErrorsFromRecords(duSource, du);
      assert out.1 == 1;
    } else if Process(mirror, MirrorProgress(clock0, [])).Err? {
      ProcessErrorsFromRecords(mirror, MirrorProgress(clock0, []));
      assert out.1 == 2;
    } else if Process(duTarget, du).Err? {
      ProcessErrorsFromRecords(duTarget, du);
      assert out.1 == 3;
    } else if DiskUsageOf(duTarget) == DiskUsageOf(duSource) {
      assert out.1 == 3 && out.0.Ok?;
    } else {
      ProcessErrorsFromRecords(duRetry, du);
      assert out.1 == 4;
    }
  }

  /**
   * The runner. `aliasesSetupDone` is the instance flag of the source;
   * `invocations` records every command line run, oldest first.
   */
  class McCommands {
    const paths: MinioClientPaths
    const local: S3Instance
    const cluster: S3Instance
    const tool: (nat, seq<string>) -> seq<OutputLine>
    var aliasesSetupDone: bool
    var invocations: seq<seq<string>>

    constructor (paths: MinioClientPaths, local: S3Instance, cluster: S3Instance, tool: (nat, seq<string>) -> seq<OutputLine>)
      ensures this.paths == paths && this.local == local && this.cluster == cluster && this.tool == tool
      ensures !aliasesSetupDone && invocations == []
    {
      this.paths := paths;
      this.local := local;
      this.cluster := cluster;
      this.tool := tool;
      aliasesSetupDone := false;
      invocations := [];
    }

    /** The output of the next invocation of `args`. */
    function NextOutput(args: seq<string>): seq<OutputLine>
      reads this
    {
      tool(|invocations|, Argv(paths, args))
    }

    /** The two alias commands, local first. */
    function AliasArgvs(): seq<seq<string>> {
      [Argv(paths, AliasArgs("local", local)), Argv(paths, AliasArgs("cluster", cluster))]
    }

    /** The alias commands still to run before a command that needs them. */
    function PendingAliases(done: bool): seq<seq<string>> {
      if done then [] else AliasArgvs()
    }

    /** `_run_command`: one invocation, its records read in order. */
    method RunCommand(args: seq<string>, h: Handler) returns (r: Result<Handler, McError>)
      modifies this`invocations
      ensures invocations == old(invocations) + [Argv(paths, args)]
      ensures r == Process(old(NextOutput(args)), h)
    {
      var lines := NextOutput(args);
      invocations := invocations + [Argv(paths, args)];
      r := ReadRecords(lines, h);
    }

    /**
     * `_need_aliases`: sets the local alias, then the cluster alias, and
     * only then raises the flag; a failure leaves the flag down, so the
     * setup is tried again on the next call.
     */
    method NeedAliases() returns (r: Result<(), McError>)
      modifies this`invocations, this`aliasesSetupDone
      ensures aliasesSetupDone <==> old(aliasesSetupDone) || r.Ok?
      ensures old(aliasesSetupDone) ==> r.Ok? && invocations == old(invocations)
      ensures !old(aliasesSetupDone) ==>
        var n0 := |old(invocations)|;
        var first := Process(tool(n0, AliasArgvs()[0]), NoHandler);
        var second := Process(tool(n0 + 1, AliasArgvs()[1]), NoHandler);
        && invocations == old(invocations) + (if first.Err? then AliasArgvs()[..1] else AliasArgvs())
        && (r.Ok? <==> first.Ok? && second.Ok?)
      ensures var a := AliasesOutcome(old(aliasesSetupDone), |old(invocations)|);
        && r == a.0
        && invocations == old(invocations) + PendingAliases(old(aliasesSetupDone))[..a.1]
    {
      if aliasesSetupDone {
        return Ok(());
      }
      var first := RunCommand(AliasArgs("local", local), NoHandler);
      if first.Err? {
        return Err(first.error);
      }
      var second := RunCommand(AliasArgs("cluster", cluster), NoHandler);
      if second.Err? {
        return Err(second.error);
      }
      aliasesSetupDone := true;
      r := Ok(());
    }

    /** `_du_bucket` */
    method DuBucket(bucketPath: string) returns (r: Result<DiskUsage, McError>)
      modifies this`invocations
      ensures invocations == old(invocations) + [Argv(paths, DuArgs(bucketPath))]
      ensures r == DiskUsageOf(old(NextOutput(DuArgs(bucketPath))))
    {
      var h := RunCommand(DuArgs(bucketPath), DiskUsageHandler(DuStart));
      match h
      case Err(e) => r := Err(e);
      case Ok(u) =>
        if u.DiskUsageHandler? {
          r := Ok(u.usage);
        } else {
          DiskUsageKeepsLast(old(NextOutput(DuArgs(bucketPath))), DuStart);
          assert false;
        }
    }

    /** `du_cluster_bucket`: disk usage of a cluster bucket (no alias setup). */
    method DuClusterBucket(bucket: string) returns (r: Result<DiskUsage, McError>)
      modifies this`invocations
      ensures invocations == old(invocations) + [Argv(paths, DuArgs("cluster/" + bucket))]
      ensures r == DiskUsageOf(old(NextOutput(DuArgs("cluster/" + bucket))))
    {
      r := DuBucket("cluster/" + bucket);
    }

    /** The command lines `_mirror_buckets` may run, in order. */
    function MirrorArgvs(source: string, target: string): seq<seq<string>> {
      [Argv(paths, DuArgs(source)), Argv(paths, MirrorArgs(source, target)),
       Argv(paths, DuArgs(target)), Argv(paths, DuArgs(target))]
    }

    /**
     * `_mirror_buckets`, called once the aliases are set up (its callers
     * set them up first); `clock0` is the clock when the mirror starts.
     * Returns the `totalCount` values of the progress lines logged.
     */
    method MirrorBuckets(source: string, target: string, clock0: int) returns (r: Result<seq<Json>, McError>)
      modifies this`invocations
      ensures
        var n0 := |old(invocations)|;
        var argvs := MirrorArgvs(source, target);
        var out := MirrorOutcome(source, target, clock0,
          tool(n0, argvs[0]), tool(n0 + 1, argvs[1]), tool(n0 + 2, argvs[2]), tool(n0 + 3, argvs[3]));
        && r == out.0
        && invocations == old(invocations) + argvs[..out.1]
    {
      ghost var inv0, argvs := invocations, MirrorArgvs(source, target);
      var src := DuBucket(source);
      assert invocations == inv0 + argvs[..1];
      if src.Err? {
        return Err(src.error);
      }
      var p := RunCommand(MirrorArgs(source, target), MirrorProgress(clock0, []));
      assert invocations == inv0 + argvs[..2];
      if p.Err? {
        return Err(p.error);
      }
      var logged := if p.value.MirrorProgress? then p.value.logged else [];
      var first := DuBucket(target);
      assert invocations == inv0 + argvs[..3];
      if first.Err? {
        return Err(first.error);
      }
      if first.value == src.value {
        return Ok(logged);
      }
      var second := DuBucket(target);
      assert invocations == inv0 + argvs[..4];
      if second.Err? {
        return Err(second.error);
      }
      if second.value == src.value {
        return Ok(logged);
      }
      r := Err(MirrorMismatch(source, target, src.value, second.value));
    }

    /** What `backup_bucket` runs once the aliases are set up. */
    function BackupArgvs(bucket: string): seq<seq<string>> {
      MbMirrorArgvs(["mb", "--ignore-existing", "local/" + bucket], "cluster/" + bucket, "local/" + bucket)
    }

    /** What `restore_bucket` runs once the aliases are set up. */
    function RestoreArgvs(bucket: string, removeExistingBucket: bool): seq<seq<string>> {
      (if removeExistingBucket then [Argv(paths, RbArgs(bucket))] else [])
      + MbMirrorArgvs(["mb", "cluster/" + bucket], "local/" + bucket, "cluster/" + bucket)
    }

    /** `mb` with `mbArgs`, then the command lines of the mirror, in order. */
    function MbMirrorArgvs(mbArgs: seq<string>, source: string, target: string): seq<seq<string>> {
      [Argv(paths, mbArgs)] + MirrorArgvs(source, target)
    }

    /**
     * The outcome of `_need_aliases` when the flag is `done` and `n`
     * commands ran before: the result and how many alias commands ran.
     */
    function AliasesOutcome(done: bool, n: nat): (out: (Result<(), McError>, nat))
      ensures out.1 <= |PendingAliases(done)|
      ensures out.0.Ok? <==> out.1 == |PendingAliases(done)| && (out.1 == 0 || Process(tool(n + out.1 - 1, AliasArgvs()[out.1 - 1]), NoHandler).Ok?)
    {
      if done then (Ok(()), 0)
      else
        match Process(tool(n, AliasArgvs()[0]), NoHandler)
        case Err(e) => (Err(e), 1)
        case Ok(_) =>
          match Process(tool(n + 1, AliasArgvs()[1]), NoHandler)
          case Err(e) => (Err(e), 2)
          case Ok(_) => (Ok(()), 2)
    }

    /**
     * The outcome of `mb` with `mbArgs` followed by the mirror, when `n`
     * commands ran before: `mb`'s error, or what the mirror gives.
     */
    function MakeBucketThenMirrorOutcome(n: nat, mbArgs: seq<string>, source: string, target: string, clock0: int)
      : (out: (Result<seq<Json>, McError>, nat))
      ensures 1 <= out.1 <= 5
      ensures out.0.Ok? ==> out.1 >= 4
    {
      match Process(tool(n, Argv(paths, mbArgs)), NoHandler)
      case Err(e) => (Err(e), 1)
      case Ok(_) =>
        var m := MirrorStage(n + 1, source, target, clock0);
        (m.0, 1 + m.1)
    }

    /** The mirror from `source` to `target` when `n` commands ran before. */
    function MirrorStage(n: nat, source: string, target: string, clock0: int): (out: (Result<seq<Json>, McError>, nat))
      ensures 1 <= out.1 <= 4
      ensures out.0.Ok? ==> out.1 >= 3
    {
      var a := MirrorArgvs(source, target);
      MirrorOutcome(source, target, clock0, tool(n, a[0]), tool(n + 1, a[1]), tool(n + 2, a[2]), tool(n + 3, a[3]))
    }

    /** The callback each command of `MbMirrorArgvs` reads its records with. */
    function MbMirrorHandlers(clock0: int): seq<Handler> {
      [NoHandler, DiskUsageHandler(DuStart), MirrorProgress(clock0, []), DiskUsageHandler(DuStart), DiskUsageHandler(DuStart)]
    }

    /** The outputs of running `argvs` in order when `n` commands ran before. */
    function Outputs(n: nat, argvs: seq<seq<string>>): (r: seq<seq<OutputLine>>)
      ensures |r| == |argvs|
    {
      seq(|argvs|, j requires 0 <= j < |argvs| => tool(n + j, argvs[j]))
    }

    /**
     * `mb` then the mirror stop at the first command whose records raise,
     * with that command's error; only a run of all five commands can end
     * in a mismatch; once `mb` succeeds, the result is the mirror's.
     */
    lemma MakeBucketThenMirrorStops(n: nat, mbArgs: seq<string>, source: string, target: string, clock0: int)
      ensures var out := MakeBucketThenMirrorOutcome(n, mbArgs, source, target, clock0);
        var argvs := MbMirrorArgvs(mbArgs, source, target);
        && StopsAt(out, Outcomes(Outputs(n, argvs), MbMirrorHandlers(clock0)))
        && (out.0.Err? && out.0.error.MirrorMismatch? ==> out.1 == 5)
        && (Process(tool(n, argvs[0]), NoHandler).Ok? ==> out.0 == MirrorStage(n + 1, source, target, clock0).0)
    {
      var argvs := MbMirrorArgvs(mbArgs, source, target);
      var m := MirrorArgvs(source, target);
      var first := tool(n, Argv(paths, mbArgs));
      var ls := Outputs(n + 1, m);
      var rs := Outcomes(ls, MirrorHandlers(clock0));
      assert Outputs(n, argvs) == [first] + ls;
      assert Outcomes(Outputs(n, argvs), MbMirrorHandlers(clock0)) == [Process(first, NoHandler)] + rs;
      if Process(first, NoHandler).Ok? {
        MirrorStops(source, target, clock0, ls[0], ls[1], ls[2], ls[3]);
        assert ls == [ls[0], ls[1], ls[2], ls[3]];
        StopsAfterFirst(Process(first, NoHandler), rs, MirrorStage(n + 1, source, target, clock0));
      } else {
        ProcessErrorsFromRecords(first, NoHandler);
        StopsAtFirst<seq<Json>>(Process(first, NoHandler), rs);
      }
    }

    /** The outcome of `backup_bucket`, alias setup included. */
    function BackupOutcome(done: bool, n: nat, bucket: string, clock0: int): (out: (Result<seq<Json>, McError>, nat))
      ensures out.1 <= |PendingAliases(done) + BackupArgvs(bucket)|
    {
      var a := AliasesOutcome(done, n);
      AfterAliases(a, MakeBucketThenMirrorOutcome(n + a.1, ["mb", "--ignore-existing", "local/" + bucket], "cluster/" + bucket, "local/" + bucket, clock0))
    }

    /** The outcome of `restore_bucket` after the alias setup. */
    function RemoveThenRecreateOutcome(n: nat, bucket: string, removeExistingBucket: bool, clock0: int): (out: (Result<seq<Json>, McError>, nat))
      ensures 1 <= out.1 <= |RestoreArgvs(bucket, removeExistingBucket)|
      ensures removeExistingBucket && Process(tool(n, Argv(paths, RbArgs(bucket))), NoHandler).Err? ==>
        out == (Err(Process(tool(n, Argv(paths, RbArgs(bucket))), NoHandler).error), 1)
    {
      var k := if removeExistingBucket then 1 else 0;
      if removeExistingBucket && Process(tool(n, Argv(paths, RbArgs(bucket))), NoHandler).Err? then
        (Err(Process(tool(n, Argv(paths, RbArgs(bucket))), NoHandler).error), 1)
      else
        var m := MakeBucketThenMirrorOutcome(n + k, ["mb", "cluster/" + bucket], "local/" + bucket, "cluster/" + bucket, clock0);
        (m.0, k + m.1)
    }

    /** The outcome of `restore_bucket`, alias setup included. */
    function RestoreOutcome(done: bool, n: nat, bucket: string, removeExistingBucket: bool, clock0: int): (out: (Result<seq<Json>, McError>, nat))
      ensures out.1 <= |PendingAliases(done) + RestoreArgvs(bucket, removeExistingBucket)|
    {
      var a := AliasesOutcome(done, n);
      AfterAliases(a, RemoveThenRecreateOutcome(n + a.1, bucket, removeExistingBucket, clock0))
    }

    /** The command line of `stop_local`. */
    function StopArgv(): seq<string> {
      Argv(paths, ["admin", "service", "stop", "local"])
    }

    /** The command line of `cluster_info`. */
    function InfoArgv(): seq<string> {
      Argv(paths, ["admin", "info", "cluster"])
    }

    /** The outcome of `stop_local`, alias setup included. */
    function StopLocalOutcome(done: bool, n: nat): (out: (Result<(), McError>, nat))
      ensures out.1 <= |PendingAliases(done)| + 1
    {
      var a := AliasesOutcome(done, n);
      var s := Process(tool(n + a.1, StopArgv()), NoHandler);
      AfterAliases(a, (if s.Err? then Err(s.error) else Ok(()), 1))
    }

    /** The outcome of `cluster_info`, alias setup included. */
    function ClusterInfoOutcome(done: bool, n: nat): (out: (Result<Json, McError>, nat))
      ensures out.1 <= |PendingAliases(done)| + 1
    {
      var a := AliasesOutcome(done, n);
      AfterAliases(a, (InfoOf(tool(n + a.1, InfoArgv())), 1))
    }

    /**
     * `stop_local` succeeds exactly when the alias setup does and every
     * record of `admin service stop local` is a success record; its error is
     * otherwise the alias setup's or that command's.
     */
    lemma StopLocalSucceedsIff(done: bool, n: nat)
      ensures var lines := tool(n + |PendingAliases(done)|, StopArgv());
        && (StopLocalOutcome(done, n).0.Ok? <==>
              AliasesOutcome(done, n).0.Ok? && forall i :: 0 <= i < |lines| ==> IsStatus(lines[i], "success"))
        && (AliasesOutcome(done, n).0.Ok? && StopLocalOutcome(done, n).0.Err? ==>
              StopLocalOutcome(done, n).0.error == Process(lines, NoHandler).error)
    {
      NoHandlerSucceedsIffAllSuccess(tool(n + |PendingAliases(done)|, StopArgv()));
    }

    /**
     * Once the aliases are set up, `cluster_info` succeeds exactly when every
     * record of `admin info cluster` is a success with `info`, and returns the
     * last one's `info`, or `{}` when there is no record.
     */
    lemma ClusterInfoKeepsLast(done: bool, n: nat)
      requires AliasesOutcome(done, n).0.Ok?
      ensures var lines := tool(n + |PendingAliases(done)|, InfoArgv());
        var out := ClusterInfoOutcome(done, n);
        && (out.0.Ok? <==> forall i :: 0 <= i < |lines| ==> IsInfoRecord(lines[i]))
        && (out.0.Ok? ==> out.0.value == if lines == [] then JObject(map[]) else lines[|lines| - 1].doc["info"])
    {
      InfoOfLast(tool(n + |PendingAliases(done)|, InfoArgv()));
    }

    /** `mb` with the given arguments, then the mirror from `source` to `target`. */
    method MakeBucketThenMirror(mbArgs: seq<string>, source: string, target: string, clock0: int) returns (r: Result<seq<Json>, McError>)
      modifies this`invocations
      ensures var out := MakeBucketThenMirrorOutcome(|old(invocations)|, mbArgs, source, target, clock0);
        && r == out.0
        && invocations == old(invocations) + MbMirrorArgvs(mbArgs, source, target)[..out.1]
    {
      ghost var before := invocations;
      var mb := RunCommand(mbArgs, NoHandler);
      if mb.Err? {
        assert MbMirrorArgvs(mbArgs, source, target)[..1] == [Argv(paths, mbArgs)];
        return Err(mb.error);
      }
      r := MirrorBuckets(source, target, clock0);
      PrefixOfAppend([Argv(paths, mbArgs)], MirrorArgvs(source, target), MirrorStage(|before| + 1, source, target, clock0).1);
    }

    /**
     * `backup_bucket`: `mb --ignore-existing local/<b>`, then mirror
     * `cluster/<b>` to `local/<b>`, after the alias setup on first use.
     */
    method BackupBucket(bucket: string, clock0: int) returns (r: Result<seq<Json>, McError>)
      modifies this`invocations, this`aliasesSetupDone
      ensures aliasesSetupDone <==> AliasesOutcome(old(aliasesSetupDone), |old(invocations)|).0.Ok?
      ensures var out := BackupOutcome(old(aliasesSetupDone), |old(invocations)|, bucket, clock0);
        && r == out.0
        && invocations == old(invocations) + (PendingAliases(old(aliasesSetupDone)) + BackupArgvs(bucket))[..out.1]
    {
      ghost var before, pending := invocations, PendingAliases(aliasesSetupDone);
      ghost var steps := BackupArgvs(bucket);
      ghost var a0 := AliasesOutcome(aliasesSetupDone, |invocations|);
      var a := NeedAliases();
      PrefixWithin(pending, steps, a0.1);
      if a.Err? {
        return Err(a.error);
      }
      ghost var mid := invocations;
      r := MakeBucketThenMirror(["mb", "--ignore-existing", "local/" + bucket], "cluster/" + bucket, "local/" + bucket, clock0);
      LogAfterAliases(before, pending, steps,
        MakeBucketThenMirrorOutcome(|mid|, ["mb", "--ignore-existing", "local/" + bucket], "cluster/" + bucket, "local/" + bucket, clock0).1, invocations);
    }

    /**
     * `restore_bucket`: optionally `rb --force cluster/<b>`, then
     * `mb cluster/<b>`, then mirror `local/<b>` to `cluster/<b>`, after the
     * alias setup on first use.
     */
    method RestoreBucket(bucket: string, removeExistingBucket: bool, clock0: int) returns (r: Result<seq<Json>, McError>)
      modifies this`invocations, this`aliasesSetupDone
      ensures aliasesSetupDone <==> AliasesOutcome(old(aliasesSetupDone), |old(invocations)|).0.Ok?
      ensures var out := RestoreOutcome(old(aliasesSetupDone), |old(invocations)|, bucket, removeExistingBucket, clock0);
        && r == out.0
        && invocations == old(invocations) + (PendingAliases(old(aliasesSetupDone)) + RestoreArgvs(bucket, removeExistingBucket))[..out.1]
    {
      ghost var before, pending := invocations, PendingAliases(aliasesSetupDone);
      ghost var steps := RestoreArgvs(bucket, removeExistingBucket);
      ghost var a0 := AliasesOutcome(aliasesSetupDone, |invocations|);
      var a := NeedAliases();
      PrefixWithin(pending, steps, a0.1);
      if a.Err? {
        return Err(a.error);
      }
      ghost var mid := invocations;
      r := RemoveThenRecreate(bucket, removeExistingBucket, clock0);
      LogAfterAliases(before, pending, steps, RemoveThenRecreateOutcome(|mid|, bucket, removeExistingBucket, clock0).1, invocations);
    }

    /** The body of `restore_bucket` after `_need_aliases`. */
    method RemoveThenRecreate(bucket: string, removeExistingBucket: bool, clock0: int) returns (r: Result<seq<Json>, McError>)
      modifies this`invocations
      ensures var out := RemoveThenRecreateOutcome(|old(invocations)|, bucket, removeExistingBucket, clock0);
        && r == out.0
        && invocations == old(invocations) + RestoreArgvs(bucket, removeExistingBucket)[..out.1]
    {
      ghost var start := invocations;
      ghost var steps := RestoreArgvs(bucket, removeExistingBucket);
      ghost var rest := MbMirrorArgvs(["mb", "cluster/" + bucket], "local/" + bucket, "cluster/" + bucket);
      ghost var removed: seq<seq<string>> := if removeExistingBucket then [Argv(paths, RbArgs(bucket))] else [];
      assert steps == removed + rest;
      if removeExistingBucket {
        var rb := RunCommand(RbArgs(bucket), NoHandler);
        if rb.Err? {
          assert steps[..1] == removed;
          return Err(rb.error);
        }
      }
      r := MakeBucketThenMirror(["mb", "cluster/" + bucket], "local/" + bucket, "cluster/" + bucket, clock0);
      PrefixOfAppend(removed, rest,
        MakeBucketThenMirrorOutcome(|start| + |removed|, ["mb", "cluster/" + bucket], "local/" + bucket, "cluster/" + bucket, clock0).1);
    }

    /** `stop_local`: `admin service stop local`, after the alias setup. */
    method StopLocal() returns (r: Result<(), McError>)
      modifies this`invocations, this`aliasesSetupDone
      ensures aliasesSetupDone <==> AliasesOutcome(old(aliasesSetupDone), |old(invocations)|).0.Ok?
      ensures var out := StopLocalOutcome(old(aliasesSetupDone), |old(invocations)|);
        && r == out.0
        && invocations == old(invocations) + (PendingAliases(old(aliasesSetupDone)) + [StopArgv()])[..out.1]
    {
      ghost var pending := PendingAliases(aliasesSetupDone);
      ghost var a0 := AliasesOutcome(aliasesSetupDone, |invocations|);
      var a := NeedAliases();
      PrefixWithin(pending, [StopArgv()], a0.1);
      if a.Err? {
        return Err(a.error);
      }
      var s := RunCommand(["admin", "service", "stop", "local"], NoHandler);
      LogAfterAliases(old(invocations), pending, [StopArgv()], 1, invocations);
      r := if s.Err? then Err(s.error) else Ok(());
    }

    /** `cluster_info`: the `info` of the last record of `admin info cluster`, `{}` when there is none. */
    method ClusterInfo() returns (r: Result<Json, McError>)
      modifies this`invocations, this`aliasesSetupDone
      ensures aliasesSetupDone <==> AliasesOutcome(old(aliasesSetupDone), |old(invocations)|).0.Ok?
      ensures var out := ClusterInfoOutcome(old(aliasesSetupDone), |old(invocations)|);
        && r == out.0
        && invocations == old(invocations) + (PendingAliases(old(aliasesSetupDone)) + [InfoArgv()])[..out.1]
    {
      ghost var pending := PendingAliases(aliasesSetupDone);
      ghost var a0 := AliasesOutcome(aliasesSetupDone, |invocations|);
      var a := NeedAliases();
      PrefixWithin(pending, [InfoArgv()], a0.1);
      if a.Err? {
        return Err(a.error);
      }
      var h := RunCommand(["admin", "info", "cluster"], AdminInfo(JObject(map[])));
      LogAfterAliases(old(invocations), pending, [InfoArgv()], 1, invocations);
      r := if h.Err? then Err(h.error) else if h.value.AdminInfo? then Ok(h.value.info) else Ok(JObject(map[]));
    }
  }

  /** The loop of `_run_command` over the records of one invocation. */
  method ReadRecords(lines: seq<OutputLine>, h: Handler) returns (r: Result<Handler, McError>)
    ensures r == Process(lines, h)
  {
    var state := h;
    var i := 0;
    while i < |lines|
      invariant 0 <= i <= |lines|
      invariant Process(lines, h) == Process(lines[i..], state)
    {
      assert lines[i..][1..] == lines[i + 1..];
      var step := Step(state, lines[i]);
      if step.Err? {
        return Err(step.error);
      }
      state := step.value;
      i := i + 1;
    }
    r := Ok(state);
  }
}

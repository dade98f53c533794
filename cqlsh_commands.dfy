/**
 * The Cassandra runner of the legacy tree (`services/cqlsh_commands.py`):
 * CQL statements run through `cqlsh`, with the exit code, stdout and stderr
 * of each run as plain values.
 *
 * What `cqlsh` does is a parameter: `run(n, argv, stdin)` is the result of
 * the `n`-th invocation (counting from 0) of `argv` with `stdin` on its
 * standard input, and `stream(n, argv)` the lines a streamed invocation
 * prints.
 */
module CqlshCommands {
  import opened Wrappers
  import opened Strings
  import Disk

  /** The message that exit code 2 may carry without failing a schema restore. */
  const MsgInvalidRequestColIdxToken: string :=
    "InvalidRequest: Error from server: code=2200 [Invalid query] message=\"Unknown "
    + "column name detected in CREATE MATERIALIZED VIEW statement: idx_token\""

  /** `CqlInstance`: the host to connect to, if any. */
  datatype CqlInstance = CqlInstance(host: Option<string>)
  {
    /** `as_args_array` */
    function AsArgs(): (r: seq<string>)
      ensures host.None? ==> r == []
      ensures host.Some? ==> r == [host.value]
    {
      if host.Some? then [host.value] else []
    }
  }

  datatype ToolResult = ToolResult(code: int, out: string, err: string)

  /** One call of the tool: a run with its standard input, or a streamed run. */
  datatype Invocation = Run(argv: seq<string>, stdin: string) | Stream(argv: seq<string>)

  datatype CqlError =
    /** A non-zero exit; carries stderr. */
    | CommandFailed(err: string)
    /** The DESCRIBE after a schema restore failed; carries its stdout. */
    | DescribeFailed(out: string)
    /** The paragraphs of the restored schema missing from the file. */
    | KeyspaceNotRestored(keyspace: string, diff: seq<string>)
    /** `backup_table`: the streamed line count, minus the banner, is not the row count. */
    | WrongRowCount(expected: int, got: int)
    /** `restore_table`: the file's line count is not the row count after the copy. */
    | RowTotalMismatch(expected: int, actual: int)
    /** The count output has fewer than five lines. */
    | IndexError
    /** `int()` refused the count line. */
    | ValueError(text: string)
    /** The file to read does not exist. */
    | FileNotFound(path: string)

  /** The arguments of `_run_command`: `-e <cql>` only when an explicit stdin is given. */
  function RunArgv(cqlsh: seq<string>, inst: CqlInstance, cql: string, stdin: Option<string>): (r: seq<string>)
    ensures stdin.None? ==> r == cqlsh + inst.AsArgs()
    ensures stdin.Some? ==> r == cqlsh + inst.AsArgs() + ["-e", cql]
  {
    cqlsh + inst.AsArgs() + (if stdin.None? then [] else ["-e", cql])
  }

  /** What `_run_command` feeds on standard input: the CQL itself unless a stdin is given. */
  function RunStdin(cql: string, stdin: Option<string>): (r: string)
    ensures stdin.None? ==> r == cql
    ensures stdin.Some? ==> r == stdin.value
  {
    if stdin.None? then cql else stdin.value
  }

  /** Stdout of a run that must exit with 0. */
  function ExitChecked(res: ToolResult): (r: Result<string, CqlError>)
    ensures r.Ok? <==> res.code == 0
    ensures r.Ok? ==> r.value == res.out
    ensures r.Err? ==> r.error == CommandFailed(res.err)
  {
    if res.code != 0 then Err(CommandFailed(res.err)) else Ok(res.out)
  }

  /** What `backup_ddl` writes: the DESCRIBE output without its first line (the CONSISTENCY banner). */
  function BackupDdlContent(res: ToolResult): (r: Result<string, CqlError>)
    ensures r.Ok? <==> res.code == 0
    ensures r.Err? ==> r.error == CommandFailed(res.err)
  {
    match ExitChecked(res)
    case Err(e) => Err(e)
    case Ok(out) => Ok(DropFirstLine(out))
  }

  /** The banner line and the written content make up the whole output. */
  lemma BackupDdlKeepsAllButBanner(res: ToolResult)
    requires res.code == 0 && res.out != []
    ensures res.out == res.out[..LineEnd(res.out)] + BackupDdlContent(res).value
  {
  }

  /** An allow-listed stderr line: the message occurs in it, but not at its very start. */
  predicate Allowed(line: string) {
    Find(line, MsgInvalidRequestColIdxToken) > 0
  }

  predicate AllAllowed(err: string) {
    forall l | l in SplitLines(err) :: Allowed(l)
  }

  /** The first run of `restore_ddl`: 0 passes, 2 passes when every stderr line is allow-listed, anything else fails. */
  function DdlRunAccepted(res: ToolResult): (r: Result<(), CqlError>)
    ensures r.Ok? <==> res.code == 0 || (res.code == 2 && AllAllowed(res.err))
    ensures r.Err? ==> r.error == CommandFailed(res.err)
  {
    if res.code == 0 then Ok(())
    else if res.code == 2 && AllAllowed(res.err) then Ok(())
    else Err(CommandFailed(res.err))
  }

  /** An empty stderr passes the allow-list: there is no line to refuse. */
  lemma EmptyStderrAllowed(res: ToolResult)
    requires res.code == 2 && res.err == []
    ensures DdlRunAccepted(res) == Ok(())
  {
  }

  /** A stderr whose first line begins with the message itself is refused. */
  lemma LeadingMessageRefused(res: ToolResult)
    requires res.code == 2
    requires SplitLines(res.err) != [] && OccursAt(SplitLines(res.err)[0], MsgInvalidRequestColIdxToken, 0)
    ensures DdlRunAccepted(res).Err?
  {
    assert SplitLines(res.err)[0] in SplitLines(res.err);
    assert Find(SplitLines(res.err)[0], MsgInvalidRequestColIdxToken) == 0;
  }

  /** The `"\n\n"`-separated paragraphs of a schema script. */
  function Paragraphs(s: string): seq<string> {
    Split(s, "\n\n")
  }

  /** `[p for p in described if p not in file]` */
  function Diff(described: seq<string>, file: seq<string>): (r: seq<string>)
    ensures |r| <= |described|
  {
    if described == [] then []
    else (if described[0] in file then [] else [described[0]]) + Diff(described[1..], file)
  }

  /** The diff holds exactly the described paragraphs absent from the file, so it is empty iff all are present. */
  lemma {:induction false} DiffMembers(described: seq<string>, file: seq<string>)
    ensures forall p :: p in Diff(described, file) <==> p in described && p !in file
    ensures Diff(described, file) == [] <==> forall p :: p in described ==> p in file
  {
    if described != [] {
      DiffMembers(described[1..], file);
      assert described == [described[0]] + described[1..];
      if described[0] !in file {
        assert described[0] in Diff(described, file);
      }
    }
  }

  /** The check after a schema restore: DESCRIBE again and compare paragraphs with the script. */
  function DdlCheck(keyspace: string, describe: ToolResult, script: string): (r: Result<(), CqlError>)
    ensures describe.code != 0 ==> r == Err(DescribeFailed(describe.out))
    ensures describe.code == 0 ==>
      (r.Ok? <==> forall p :: p in Paragraphs(DropFirstLine(describe.out)) ==> p in Paragraphs(script))
  {
    if describe.code == 0 then
      var diff := Diff(Paragraphs(DropFirstLine(describe.out)), Paragraphs(script));
      DiffMembers(Paragraphs(DropFirstLine(describe.out)), Paragraphs(script));
      if |diff| > 0 then Err(KeyspaceNotRestored(keyspace, diff)) else Ok(())
    else Err(DescribeFailed(describe.out))
  }

  /** The CQL `restore_ddl` runs: the preamble (with the drop iff asked), a newline, then the script. */
  function RestoreDdlCql(keyspace: string, dropIfExists: bool, script: string): string {
    (if dropIfExists then "CONSISTENCY ALL;DROP KEYSPACE IF EXISTS " + keyspace + ";" else "CONSISTENCY ALL;")
    + "\n" + script
  }

  /** The outcome of `restore_ddl` from the script read and the results of its two runs. */
  function RestoreDdlOutcome(keyspace: string, script: string, restore: ToolResult, describe: ToolResult): (r: Result<(), CqlError>)
    ensures r.Ok? ==> DdlRunAccepted(restore).Ok? && DdlCheck(keyspace, describe, script).Ok?
    ensures DdlRunAccepted(restore).Ok? ==> r == DdlCheck(keyspace, describe, script)
  {
    match DdlRunAccepted(restore)
    case Err(e) => Err(e)
    case Ok(_) => DdlCheck(keyspace, describe, script)
  }

  /** `_count_table` on the output of a successful run: the fifth line, stripped, as an integer. */
  function CountFromOutput(out: string): (r: Result<int, CqlError>)
    ensures |SplitLines(out)| < 5 ==> r == Err(IndexError)
    ensures |SplitLines(out)| >= 5 ==> (r.Ok? <==> ParseInt(SplitLines(out)[4]).Some?)
  {
    var lines := SplitLines(out);
    if |lines| < 5 then Err(IndexError)
    else
      ParseIntOfStripped(lines[4]);
      match ParseInt(Strip(lines[4]))
      case None => Err(ValueError(Strip(lines[4])))
      case Some(n) => Ok(n)
  }

  /** A fifth line holding a decimal count, padded with spaces, reads as that count. */
  lemma CountFromCanonicalLine(out: string, n: int)
    requires |SplitLines(out)| >= 5 && Strip(SplitLines(out)[4]) == IntToString(n)
    ensures CountFromOutput(out) == Ok(n)
  {
    IntToStringRoundTrip(n);
  }

  function CountOutcome(res: ToolResult): (r: Result<int, CqlError>)
    ensures res.code != 0 ==> r == Err(CommandFailed(res.err))
    ensures res.code == 0 ==> r == CountFromOutput(res.out)
  {
    match ExitChecked(res)
    case Err(e) => Err(e)
    case Ok(out) => CountFromOutput(out)
  }

  function CountCql(table: string): string {
    "CONSISTENCY ALL;SELECT count(*) FROM " + table + ";"
  }

  function BackupTableCql(table: string): string {
    "CONSISTENCY ALL; COPY " + table + " TO STDOUT;"
  }

  /**
   * What `backup_table` writes, from the count run and the streamed lines:
   * the lines minus the banner must number exactly the counted rows.
   */
  function BackupTableContent(count: ToolResult, streamed: seq<string>): (r: Result<string, CqlError>)
    ensures r.Ok? <==> CountOutcome(count).Ok? && |streamed| - 1 == CountOutcome(count).value
    ensures r.Ok? ==> r.value == DropFirstLine(Concat(streamed))
    ensures CountOutcome(count).Err? ==> r == Err(CountOutcome(count).error)
    ensures CountOutcome(count).Ok? && r.Err? ==> r.error == WrongRowCount(CountOutcome(count).value, |streamed|)
  {
    match CountOutcome(count)
    case Err(e) => Err(e)
    case Ok(total) =>
      if |streamed| - 1 != total then Err(WrongRowCount(total, |streamed|))
      else Ok(DropFirstLine(Concat(streamed)))
  }

  function RestoreTableCql(table: string, truncate: bool): string {
    (if truncate then "CONSISTENCY ALL; TRUNCATE " + table + ";" else "CONSISTENCY ALL;")
    + " COPY " + table + " FROM STDIN;"
  }

  /** The outcome of `restore_table` from the data read, the copy run and the count run. */
  function RestoreTableOutcome(data: string, copy: ToolResult, count: ToolResult): (r: Result<(), CqlError>)
    ensures r.Ok? <==> copy.code == 0 && CountOutcome(count) == Ok(|SplitLines(data)|)
    ensures copy.code != 0 ==> r == Err(CommandFailed(copy.err))
  {
    if copy.code != 0 then Err(CommandFailed(copy.err))
    else
      match CountOutcome(count)
      case Err(e) => Err(e)
      case Ok(actual) =>
        if |SplitLines(data)| != actual then Err(RowTotalMismatch(|SplitLines(data)|, actual)) else Ok(())
  }

  /** The `on_line` loop of `backup_table`: counts the streamed lines and concatenates them. */
  method CollectLines(lines: seq<string>) returns (count: int, out: string)
    ensures count == |lines| && out == Concat(lines)
  {
    count, out := 0, "";
    var i := 0;
    while i < |lines|
      invariant 0 <= i <= |lines|
      invariant count == i && out == Concat(lines[..i])
    {
      ConcatAppend(lines[..i], lines[i]);
      assert lines[..i + 1] == lines[..i] + [lines[i]];
      count := count + 1;
      out := out + lines[i];
      i := i + 1;
    }
    assert lines[..i] == lines;
  }

  /** `CqlshCommands`; `invocations` records every call of the tool, oldest first. */
  class CqlshCommands {
    const cqlsh: seq<string>
    const instance: CqlInstance
    const run: (nat, seq<string>, string) -> ToolResult
    const stream: (nat, seq<string>) -> seq<string>
    var invocations: seq<Invocation>

    /** The command line is split on single spaces. */
    constructor (cqlshLine: string, instance: CqlInstance, run: (nat, seq<string>, string) -> ToolResult, stream: (nat, seq<string>) -> seq<string>)
      ensures cqlsh == Split(cqlshLine, " ") && Join(cqlsh, " ") == cqlshLine
      ensures this.instance == instance && this.run == run && this.stream == stream
      ensures invocations == []
    {
      JoinSplit(cqlshLine, " ");
      cqlsh := Split(cqlshLine, " ");
      this.instance := instance;
      this.run := run;
      this.stream := stream;
      invocations := [];
    }

    /** The result the next run of `cql` will give. */
    function NextRun(cql: string, stdin: Option<string>): ToolResult
      reads this
    {
      run(|invocations|, RunArgv(cqlsh, instance, cql, stdin), RunStdin(cql, stdin))
    }

    /** `_run_command` */
    method RunCommand(cql: string, stdin: Option<string>) returns (res: ToolResult)
      modifies this`invocations
      ensures invocations == old(invocations) + [Run(RunArgv(cqlsh, instance, cql, stdin), RunStdin(cql, stdin))]
      ensures res == old(NextRun(cql, stdin))
    {
      res := NextRun(cql, stdin);
      invocations := invocations + [Run(RunArgv(cqlsh, instance, cql, stdin), RunStdin(cql, stdin))];
    }

    /** `_run_command_with_handler` with the lines it hands to the callback. */
    method StreamCommand(cql: string) returns (lines: seq<string>)
      modifies this`invocations
      ensures invocations == old(invocations) + [Stream(cqlsh + instance.AsArgs() + ["-e", cql])]
      ensures lines == stream(|old(invocations)|, cqlsh + instance.AsArgs() + ["-e", cql])
    {
      lines := stream(|invocations|, cqlsh + instance.AsArgs() + ["-e", cql]);
      invocations := invocations + [Stream(cqlsh + instance.AsArgs() + ["-e", cql])];
    }

    /** `show_host` */
    method ShowHost() returns (r: Result<string, CqlError>)
      modifies this`invocations
      ensures invocations == old(invocations) + [Run(cqlsh + instance.AsArgs(), "SHOW HOST;")]
      ensures r == ExitChecked(old(NextRun("SHOW HOST;", None)))
    {
      var res := RunCommand("SHOW HOST;", None);
      r := ExitChecked(res);
    }

    /** `show_version` */
    method ShowVersion() returns (r: Result<string, CqlError>)
      modifies this`invocations
      ensures invocations == old(invocations) + [Run(cqlsh + instance.AsArgs(), "SHOW VERSION;")]
      ensures r == ExitChecked(old(NextRun("SHOW VERSION;", None)))
    {
      var res := RunCommand("SHOW VERSION;", None);
      r := ExitChecked(res);
    }

    function DescribeCql(keyspace: string): string {
      "CONSISTENCY ALL; DESCRIBE " + keyspace + ";"
    }

    /** `backup_ddl`: writes the DESCRIBE output, banner removed, to `pathFile`. */
    method BackupDdl(keyspace: string, pathFile: string, disk: Disk.Disk) returns (r: Result<(), CqlError>)
      modifies this`invocations, disk`files
      ensures invocations == old(invocations) + [Run(cqlsh + instance.AsArgs(), DescribeCql(keyspace))]
      ensures var content := BackupDdlContent(old(NextRun(DescribeCql(keyspace), None)));
        && (r.Ok? <==> content.Ok?)
        && (r.Err? ==> r.error == content.error && disk.files == old(disk.files))
        && (r.Ok? ==> disk.files == old(disk.files)[pathFile := content.value])
    {
      var res := RunCommand(DescribeCql(keyspace), None);
      var content := BackupDdlContent(res);
      if content.Err? {
        return Err(content.error);
      }
      disk.WriteText(pathFile, content.value);
      r := Ok(());
    }

    /**
     * `restore_ddl`: runs the script from `pathFile` (after dropping the
     * keyspace iff asked), then checks the keyspace against the script.
     * A missing file fails before any run.
     */
    method RestoreDdl(keyspace: string, pathFile: string, dropIfExists: bool, disk: Disk.Disk) returns (r: Result<(), CqlError>)
      modifies this`invocations
      ensures pathFile !in disk.files ==> r == Err(FileNotFound(pathFile)) && invocations == old(invocations)
      ensures pathFile in disk.files ==>
        var script := disk.files[pathFile];
        var n0 := |old(invocations)|;
        var cql := RestoreDdlCql(keyspace, dropIfExists, script);
        var restore := run(n0, cqlsh + instance.AsArgs(), cql);
        var describe := run(n0 + 1, cqlsh + instance.AsArgs(), DescribeCql(keyspace));
        && r == RestoreDdlOutcome(keyspace, script, restore, describe)
        && invocations == old(invocations) + [Run(cqlsh + instance.AsArgs(), cql)]
             + (if DdlRunAccepted(restore).Ok? then [Run(cqlsh + instance.AsArgs(), DescribeCql(keyspace))] else [])
    {
      var read := disk.ReadText(pathFile);
      if read.Err? {
        return Err(FileNotFound(pathFile));
      }
      var script := read.value;
      var restore := RunCommand(RestoreDdlCql(keyspace, dropIfExists, script), None);
      var accepted := DdlRunAccepted(restore);
      if accepted.Err? {
        return Err(accepted.error);
      }
      var describe := RunCommand(DescribeCql(keyspace), None);
      r := DdlCheck(keyspace, describe, script);
    }

    /** The count run of `table` as the `n`-th invocation. */
    function CountRunAt(n: nat, table: string): ToolResult {
      run(n, cqlsh + instance.AsArgs(), CountCql(table))
    }

    function StreamArgv(table: string): seq<string> {
      cqlsh + instance.AsArgs() + ["-e", BackupTableCql(table)]
    }

    /** What `backup_table` writes when its count run is the `n`-th invocation and the stream the next. */
    function BackupTableAt(n: nat, table: string): Result<string, CqlError> {
      BackupTableContent(CountRunAt(n, table), stream(n + 1, StreamArgv(table)))
    }

    /** `_count_table` */
    method CountTable(table: string) returns (r: Result<int, CqlError>)
      modifies this`invocations
      ensures invocations == old(invocations) + [Run(cqlsh + instance.AsArgs(), CountCql(table))]
      ensures r == CountOutcome(old(NextRun(CountCql(table), None)))
    {
      var res := RunCommand(CountCql(table), None);
      r := CountOutcome(res);
    }

    /**
     * `backup_table`: counts the rows, streams the table, checks the line
     * count and writes the output minus the banner. The streaming run's
     * exit status is not looked at.
     */
    method BackupTable(table: string, pathFile: string, disk: Disk.Disk) returns (r: Result<(), CqlError>)
      modifies this`invocations, disk`files
      ensures invocations == old(invocations) + [Run(cqlsh + instance.AsArgs(), CountCql(table))]
        + (if CountOutcome(CountRunAt(|old(invocations)|, table)).Ok? then [Stream(StreamArgv(table))] else [])
      ensures r.Ok? <==> BackupTableAt(|old(invocations)|, table).Ok?
      ensures r.Err? ==> r.error == BackupTableAt(|old(invocations)|, table).error && disk.files == old(disk.files)
      ensures r.Ok? ==> disk.files == old(disk.files)[pathFile := BackupTableAt(|old(invocations)|, table).value]
    {
      var total := CountTable(table);
      if total.Err? {
        return Err(total.error);
      }
      r := CopyTableOut(table, total.value, pathFile, disk);
    }

    /** The streaming half of `backup_table`, once `total` rows were counted. */
    method CopyTableOut(table: string, total: int, pathFile: string, disk: Disk.Disk) returns (r: Result<(), CqlError>)
      modifies this`invocations, disk`files
      ensures
        var streamArgv := cqlsh + instance.AsArgs() + ["-e", BackupTableCql(table)];
        var lines := stream(|old(invocations)|, streamArgv);
        && invocations == old(invocations) + [Stream(streamArgv)]
        && (r.Ok? <==> |lines| - 1 == total)
        && (r.Err? ==> r.error == WrongRowCount(total, |lines|) && disk.files == old(disk.files))
        && (r.Ok? ==> disk.files == old(disk.files)[pathFile := DropFirstLine(Concat(lines))])
    {
      var lines := StreamCommand(BackupTableCql(table));
      var count, out := CollectLines(lines);
      if count - 1 != total {
        return Err(WrongRowCount(total, count));
      }
      disk.WriteText(pathFile, DropFirstLine(out));
      r := Ok(());
    }

    /**
     * `restore_table`: copies the file's rows in (after truncating iff
     * asked) and checks that the table holds as many rows as the file has
     * lines.
     */
    method RestoreTable(table: string, pathFile: string, truncate: bool, disk: Disk.Disk) returns (r: Result<(), CqlError>)
      modifies this`invocations
      ensures pathFile !in disk.files ==> r == Err(FileNotFound(pathFile)) && invocations == old(invocations)
      ensures pathFile in disk.files ==>
        var data := disk.files[pathFile];
        var n0 := |old(invocations)|;
        var cql := RestoreTableCql(table, truncate);
        var copy := run(n0, cqlsh + instance.AsArgs() + ["-e", cql], data);
        var count := run(n0 + 1, cqlsh + instance.AsArgs(), CountCql(table));
        && r == RestoreTableOutcome(data, copy, count)
        && invocations == old(invocations) + [Run(cqlsh + instance.AsArgs() + ["-e", cql], data)]
             + (if copy.code == 0 then [Run(cqlsh + instance.AsArgs(), CountCql(table))] else [])
    {
      var read := disk.ReadText(pathFile);
      if read.Err? {
        return Err(FileNotFound(pathFile));
      }
      var data := read.value;
      var copy := RunCommand(RestoreTableCql(table, truncate), Some(data));
      if copy.code != 0 {
        return Err(CommandFailed(copy.err));
      }
      var actual := CountTable(table);
      if actual.Err? {
        return Err(actual.error);
      }
      if |SplitLines(data)| != actual.value {
        return Err(RowTotalMismatch(|SplitLines(data)|, actual.value));
      }
      r := Ok(());
    }
  }
}

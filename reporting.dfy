/**
 * Reports: each report names a chain of tasks, from the root task down to
 * its own, and holds a status. Every report writes its log lines through
 * the one `Reporting` of the run, which appends them to the log file. The
 * timestamp of each line is an oracle indexed by the number of lines
 * written so far. The current tree and the legacy tree hold the same code.
 */
module Reporting {
  import opened Wrappers
  import Strings

  /** The label written for each level; all four are seven characters wide. */
  const NotifyLabel: string := " NOTIFY"
  const DebugLabel: string := "  DEBUG"
  const WarningLabel: string := "WARNING"
  const FatalLabel: string := "  FATAL"

  /** The default status levels of a sub-report and of the root report. */
  const DebugLevel: string := "DEBUG"
  const NotifyLevel: string := "NOTIFY"

  /** The labels line up in the log and tell the four levels apart. */
  lemma LabelsAligned()
    ensures |NotifyLabel| == |DebugLabel| == |WarningLabel| == |FatalLabel| == 7
    ensures NotifyLabel[1..] == NotifyLevel && DebugLabel[2..] == DebugLevel
    ensures NotifyLabel != DebugLabel && NotifyLabel != WarningLabel && NotifyLabel != FatalLabel
    ensures DebugLabel != WarningLabel && DebugLabel != FatalLabel && WarningLabel != FatalLabel
  {
  }

  /** The level a status change is logged at: the report's default when none is given. */
  function EffectiveLevel(level: Option<string>, defaultLevel: string): (l: string)
    ensures level.Some? ==> l == level.value
    ensures level.None? ==> l == defaultLevel
  {
    if level.None? then defaultLevel else level.value
  }

  /** The label a status change is logged with; a level other than NOTIFY and DEBUG logs nothing. */
  function StatusLabel(level: string): (r: Option<string>)
    ensures r.Some? <==> level == NotifyLevel || level == DebugLevel
    ensures r == Some(NotifyLabel) <==> level == NotifyLevel
    ensures r == Some(DebugLabel) <==> level == DebugLevel
  {
    if level == NotifyLevel then Some(NotifyLabel)
    else if level == DebugLevel then Some(DebugLabel)
    else None
  }

  /** A status change at WARNING or FATAL is silent, although those levels have labels of their own. */
  lemma StatusAtOtherLevelsSilent()
    ensures StatusLabel("WARNING") == None && StatusLabel("FATAL") == None
  {
  }

  /** The tasks of a chain as they appear in a log line. */
  function TasksField(tasks: seq<string>): string {
    Strings.Join(tasks, ">")
  }

  /**
   * One log line: `"{timestamp} {label} ({tasks})[{status}]"`, followed by
   * `" : {msg}"` only when the message is not empty.
   */
  function LogLine(stamp: string, tag: string, tasks: seq<string>, status: string, msg: string): (line: string)
  {
    stamp + " " + tag + " (" + TasksField(tasks) + ")[" + status + "]" + (if msg != "" then " : " + msg else "")
  }

  /** A line with a message is the line without one, followed by `" : "` and the message. */
  lemma LogLineMessage(stamp: string, tag: string, tasks: seq<string>, status: string, msg: string)
    ensures msg != "" ==> LogLine(stamp, tag, tasks, status, msg) == LogLine(stamp, tag, tasks, status, "") + " : " + msg
    ensures LogLine(stamp, tag, tasks, status, "")[|LogLine(stamp, tag, tasks, status, "")| - 1] == ']'
  {
  }

  /** The level's label sits right after the timestamp and a space, so a line tells its level. */
  lemma LogLineLabel(stamp: string, tag: string, tasks: seq<string>, status: string, msg: string)
    ensures var line := LogLine(stamp, tag, tasks, status, msg);
      |line| > |stamp| + 1 + |tag| && line[..|stamp| + 1 + |tag|] == stamp + " " + tag
  {
    var line := LogLine(stamp, tag, tasks, status, msg);
    var head := stamp + " " + tag;
    assert line == head + (" (" + TasksField(tasks) + ")[" + status + "]" + (if msg != "" then " : " + msg else ""));
  }

  /** When no task name contains `>`, the chain can be read back from its field. */
  lemma TasksFieldRecoverable(tasks: seq<string>)
    requires |tasks| >= 1
    requires forall k :: 0 <= k < |tasks| ==> '>' !in tasks[k]
    ensures Strings.Split(TasksField(tasks), ">") == tasks
  {
    Strings.SplitJoin(tasks, '>');
  }

  /** The chain of a report: its parents' chain, or nothing for the root, then its own task. */
  function Chain(parents: Option<seq<string>>, task: string): (c: seq<string>)
    ensures |c| >= 1 && c[|c| - 1] == task
    ensures parents.Some? ==> c[..|c| - 1] == parents.value
    ensures parents.None? ==> c == [task]
  {
    (if parents.Some? then parents.value else []) + [task]
  }

  /** The chain of the report reached from a root report for `root` by taking sub-reports for `tasks` in turn. */
  function NestedChain(root: string, tasks: seq<string>): seq<string>
    decreases |tasks|
  {
    if tasks == [] then Chain(None, root)
    else Chain(Some(NestedChain(root, tasks[..|tasks| - 1])), tasks[|tasks| - 1])
  }

  /** Sub-reports nest: each level adds its task at the end and keeps the ancestors' chain in front. */
  lemma {:induction false} SubChainsNest(root: string, tasks: seq<string>)
    ensures NestedChain(root, tasks) == [root] + tasks
    decreases |tasks|
  {
    if tasks != [] {
      SubChainsNest(root, tasks[..|tasks| - 1]);
      assert tasks == tasks[..|tasks| - 1] + [tasks[|tasks| - 1]];
    }
  }

  /** `Reporting`: the log of the run and its root report. */
  class Reporting {
    /** `stamp(n)`: the timestamp of the n-th line. */
    const stamp: nat -> string
    /** The lines of the log file, in the order written. */
    var lines: seq<string>
    var rootReport: Report?
    var currentReport: Report?

    /** Starts the log with the root report for `initialTask`, at status "Starting" and level NOTIFY. */
    constructor (initialTask: string, stamp: nat -> string)
      ensures this.stamp == stamp
      ensures rootReport != null && fresh(rootReport) && currentReport == rootReport
      ensures rootReport.reporting == this && rootReport.tasks == [initialTask]
      ensures rootReport.status == "Starting" && rootReport.defaultLevel == NotifyLevel
      ensures lines == [LogLine(stamp(0), NotifyLabel, [initialTask], "Starting", "")]
    {
      this.stamp := stamp;
      lines := [];
      rootReport := null;
      currentReport := null;
      new;
      var root := new Report("Starting", this, initialTask, NotifyLevel, None);
      rootReport := root;
      currentReport := root;
    }

    /** `set_current_report` */
    method SetCurrentReport(report: Report)
      modifies this`currentReport
      ensures currentReport == report
    {
      currentReport := report;
    }

    /** `_write_log`: appends one line to the log file. */
    method WriteLog(tag: string, tasks: seq<string>, status: string, msg: string)
      modifies this`lines
      ensures lines == old(lines) + [LogLine(stamp(|old(lines)|), tag, tasks, status, msg)]
    {
      var tasksStr := Strings.Join(tasks, ">");
      var msgStr := if msg != "" then " : " + msg else "";
      var line := stamp(|lines|) + " " + tag + " (" + tasksStr + ")[" + status + "]" + msgStr;
      lines := lines + [line];
    }
  }

  /** `Report` */
  class Report {
    const tasks: seq<string>
    const reporting: Reporting
    const defaultLevel: string
    var status: string

    /** The chain is the parents' chain and the task; the initial status goes through `SetStatus`. */
    constructor (initStatus: string, reporting: Reporting, task: string, defaultLevel: string, parents: Option<seq<string>>)
      modifies reporting`lines
      ensures this.reporting == reporting && this.defaultLevel == defaultLevel
      ensures tasks == Chain(parents, task) && status == initStatus
      ensures var tag := StatusLabel(defaultLevel);
        reporting.lines == old(reporting.lines)
          + (if tag.Some? then [LogLine(reporting.stamp(|old(reporting.lines)|), tag.value, tasks, initStatus, "")] else [])
    {
      this.tasks := (if parents.Some? then parents.value else []) + [task];
      this.reporting := reporting;
      this.defaultLevel := defaultLevel;
      status := "";
      new;
      SetStatus(initStatus, None);
    }

    /** `set_status`: the status always changes; a line is logged only at NOTIFY or DEBUG. */
    method SetStatus(newStatus: string, level: Option<string>)
      modifies this`status, reporting`lines
      ensures status == newStatus
      ensures var tag := StatusLabel(EffectiveLevel(level, defaultLevel));
        reporting.lines == old(reporting.lines)
          + (if tag.Some? then [LogLine(reporting.stamp(|old(reporting.lines)|), tag.value, tasks, newStatus, "")] else [])
    {
      status := newStatus;
      var effective := if level.None? then defaultLevel else level.value;
      if effective == NotifyLevel {
        reporting.WriteLog(NotifyLabel, tasks, status, "");
      }
      if effective == DebugLevel {
        reporting.WriteLog(DebugLabel, tasks, status, "");
      }
    }

    /** `notify`, `debug`, `warning` and `fatal`: one line at that level, with the message. */
    method Notify(msg: string)
      modifies reporting`lines
      ensures reporting.lines == old(reporting.lines) + [LogLine(reporting.stamp(|old(reporting.lines)|), NotifyLabel, tasks, status, msg)]
    {
      reporting.WriteLog(NotifyLabel, tasks, status, msg);
    }

    method Debug(msg: string)
      modifies reporting`lines
      ensures reporting.lines == old(reporting.lines) + [LogLine(reporting.stamp(|old(reporting.lines)|), DebugLabel, tasks, status, msg)]
    {
      reporting.WriteLog(DebugLabel, tasks, status, msg);
    }

    method Warning(msg: string)
      modifies reporting`lines
      ensures reporting.lines == old(reporting.lines) + [LogLine(reporting.stamp(|old(reporting.lines)|), WarningLabel, tasks, status, msg)]
    {
      reporting.WriteLog(WarningLabel, tasks, status, msg);
    }

    method Fatal(msg: string)
      modifies reporting`lines
      ensures reporting.lines == old(reporting.lines) + [LogLine(reporting.stamp(|old(reporting.lines)|), FatalLabel, tasks, status, msg)]
    {
      reporting.WriteLog(FatalLabel, tasks, status, msg);
    }

    /**
     * `get_sub_report`: a new report on the same log whose chain is this
     * one's followed by `task`; this report is left as it was.
     */
    method GetSubReport(task: string, initStatus: string, defaultLevel: string) returns (sub: Report)
      modifies reporting`lines
      ensures fresh(sub) && sub.reporting == reporting && sub.defaultLevel == defaultLevel
      ensures sub.tasks == tasks + [task] && sub.status == initStatus
      ensures status == old(status)
      ensures var tag := StatusLabel(defaultLevel);
        reporting.lines == old(reporting.lines)
          + (if tag.Some? then [LogLine(reporting.stamp(|old(reporting.lines)|), tag.value, sub.tasks, initStatus, "")] else [])
    {
      sub := new Report(initStatus, reporting, task, defaultLevel, Some(tasks));
    }
  }
}

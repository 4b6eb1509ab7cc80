// The pull-segmentation state machine as a pure fold over log lines: the
// state the loop carries, one step per line, the run over files, and what
// these promise.

module Segmentation {
  import opened LogLines

  datatype Option<T> = None | Some(value: T)

  /** The five parallel result columns: number, length, phase, log number, file name. */
  datatype Columns = Columns(
    numbers: seq<int>,
    lengths: seq<int>,
    phases: seq<int>,
    logs: seq<int>,
    files: seq<string>)

  /** Everything the loop carries from one line to the next. */
  datatype State = State(
    started: bool,
    count: int,
    phase: int,
    logNumber: int,
    startTime: int,
    cols: Columns)

  const NoPulls := Columns([], [], [], [], [])

  /** The state before the first file is read. */
  const Initial := State(false, 0, 1, 0, 0, NoPulls)

  /** The columns have `count` rows each and the numbers are 1..count in order. */
  ghost predicate Aligned(c: Columns, count: int)
  {
    && |c.numbers| == count
    && |c.lengths| == count
    && |c.phases| == count
    && |c.logs| == count
    && |c.files| == count
    && forall i :: 0 <= i < count ==> c.numbers[i] == i + 1
  }

  /** What holds of every reachable state. */
  ghost predicate Inv(s: State)
  {
    && s.count >= 0
    && 1 <= s.phase <= LastPhase
    && s.logNumber >= 0
    && Aligned(s.cols, s.count)
    && (forall i :: 0 <= i < s.count ==> 1 <= s.cols.phases[i] <= LastPhase)
    && (forall i :: 0 <= i < s.count ==> s.cols.lengths[i] > MinPullLength)
    && (forall i :: 0 <= i < s.count ==> s.cols.logs[i] <= s.logNumber)
  }

  /**
   * The loop reads a field the line does not have (and so stops with an
   * index error): an ability line short of field 7 while idle (the start
   * check) or while a phase gate is armed, or a zone-change or
   * actor-control line short of field 3 while a pull is running.
   */
  predicate Faults(s: State, l: Line)
  {
    || (Code(l) == AbilityCode && |l.fields| <= 7 && (!s.started || 1 <= s.phase < LastPhase))
    || (Code(l) in {ZoneChangeCode, ActorControlCode} && |l.fields| <= 3 && s.started)
  }

  /** While a pull runs, the line arms and fires the gate of the current phase. */
  predicate Advances(s: State, l: Line)
  {
    1 <= s.phase < LastPhase && TargetIs(l, GateTarget(s.phase))
  }

  /** The row a qualifying wipe at time `t` in file `file` appends. */
  function Append(c: Columns, number: int, length: int, phase: int, log: int, file: string): Columns
  {
    Columns(c.numbers + [number], c.lengths + [length], c.phases + [phase], c.logs + [log], c.files + [file])
  }

  /** The wipe at time `t` ends the pull; it is recorded only if it lasted over 30 seconds. */
  function Close(s: State, t: int, file: string): State
  {
    var length := t - s.startTime;
    if length > MinPullLength then
      s.(started := false, count := s.count + 1,
         cols := Append(s.cols, s.count + 1, length, s.phase, s.logNumber, file))
    else
      s.(started := false)
  }

  /**
   * One line of file `file`. None when the line makes the loop read a
   * missing field. Otherwise: while idle only the start trigger matters;
   * while a pull runs, a re-instance drops it, the armed gate advances the
   * phase, and a wipe closes it.
   */
  function Step(s: State, l: Line, file: string): Option<State>
  {
    if Faults(s, l) then None
    else if !s.started then
      Some(if IsStart(l) then s.(started := true, startTime := l.time, phase := 1) else s)
    else if IsReinstance(l) then Some(s.(started := false))
    else if Advances(s, l) then Some(s.(phase := s.phase + 1))
    else if IsWipe(l) then Some(Close(s, l.time, file))
    else Some(s)
  }

  /** The lines of one file, in order, from state `s`. */
  function RunLines(s: State, lines: seq<Line>, file: string): Option<State>
  {
    if lines == [] then Some(s)
    else match RunLines(s, lines[..|lines| - 1], file)
      case None => None
      case Some(u) => Step(u, lines[|lines| - 1], file)
  }

  /** Entering the next file only bumps the log number. */
  function EnterFile(s: State): State
  {
    s.(logNumber := s.logNumber + 1)
  }

  /** The files, in order, from state `s`; nothing but the log number changes between files. */
  function RunFiles(s: State, files: seq<LogFile>): Option<State>
  {
    if files == [] then Some(s)
    else match RunFiles(s, files[..|files| - 1])
      case None => None
      case Some(u) => RunLines(EnterFile(u), files[|files| - 1].lines, files[|files| - 1].name)
  }

  /** The whole segmentation loop over the files, from the initial state. */
  function Segment(files: seq<LogFile>): Option<State>
  {
    RunFiles(Initial, files)
  }

  /** Reading one more line is one more step. */
  lemma RunLinesSnoc(s: State, lines: seq<Line>, l: Line, file: string)
    ensures RunLines(s, lines + [l], file) ==
      match RunLines(s, lines, file)
      case None => None
      case Some(u) => Step(u, l, file)
  {
    assert (lines + [l])[..|lines|] == lines;
  }

  /** Reading one more file is entering it and reading its lines. */
  lemma RunFilesSnoc(s: State, files: seq<LogFile>, f: LogFile)
    ensures RunFiles(s, files + [f]) ==
      match RunFiles(s, files)
      case None => None
      case Some(u) => RunLines(EnterFile(u), f.lines, f.name)
  {
    assert (files + [f])[..|files|] == files;
  }

  // ---------------------------------------------------------------------
  // One step

  /** The invariant survives every step that does not fault. */
  lemma StepKeepsInv(s: State, l: Line, file: string)
    requires Inv(s) && Step(s, l, file).Some?
    ensures Inv(Step(s, l, file).value)
  {
  }

  /** While idle, a line opens a pull exactly when it is the start trigger, at its time, in phase 1. */
  lemma IdleStep(s: State, l: Line, file: string)
    requires !s.started && Step(s, l, file).Some?
    ensures Step(s, l, file).value.started <==> IsStart(l)
    ensures IsStart(l) ==> Step(s, l, file).value == s.(started := true, startTime := l.time, phase := 1)
    ensures !IsStart(l) ==> Step(s, l, file).value == s
  {
  }

  /**
   * While a pull runs, no line moves its start time, and a start-trigger
   * line does not restart it: the phase is kept, except that the trigger's
   * target is also the gate out of phase 4.
   */
  lemma RunningStepKeepsStart(s: State, l: Line, file: string)
    requires s.started && Step(s, l, file).Some?
    ensures Step(s, l, file).value.startTime == s.startTime
    ensures IsStart(l) ==> Step(s, l, file).value.started
    ensures IsStart(l) ==> Step(s, l, file).value.phase == if s.phase == 4 then 5 else s.phase
  {
  }

  /**
   * While a pull runs the phase never falls and rises by at most one per
   * line, exactly when the line fires the gate of the current phase.
   */
  lemma RunningStepPhase(s: State, l: Line, file: string)
    requires s.started && Step(s, l, file).Some?
    ensures s.phase <= Step(s, l, file).value.phase <= s.phase + 1
    ensures Step(s, l, file).value.phase == s.phase + 1 <==> Advances(s, l)
  {
  }

  /** A re-instance during a pull drops it without a row. */
  lemma ReinstanceDropsPull(s: State, l: Line, file: string)
    requires s.started && IsReinstance(l)
    ensures Step(s, l, file) == Some(s.(started := false))
  {
  }

  /** A wipe during a pull ends it; a wipe while idle changes nothing. */
  lemma WipeEndsPull(s: State, l: Line, file: string)
    requires IsWipe(l)
    ensures Step(s, l, file).Some?
    ensures s.started ==> !Step(s, l, file).value.started
    ensures !s.started ==> Step(s, l, file).value == s
  {
  }

  /**
   * A row is appended exactly on a wipe during a pull that lasted more than
   * 30 seconds, and it holds the next number, the length, the phase
   * reached, the log number and the file name; any other line leaves the
   * count and the columns alone.
   */
  lemma StepRecordsRow(s: State, l: Line, file: string)
    requires Step(s, l, file).Some?
    ensures var t := Step(s, l, file).value;
      t.count == s.count + 1 <==> s.started && IsWipe(l) && l.time - s.startTime > MinPullLength
    ensures var t := Step(s, l, file).value;
      t.count == s.count + 1 ==>
        t.cols == Append(s.cols, s.count + 1, l.time - s.startTime, s.phase, s.logNumber, file)
    ensures var t := Step(s, l, file).value;
      t.count != s.count + 1 ==> t.count == s.count && t.cols == s.cols
  {
  }

  // ---------------------------------------------------------------------
  // Runs over many lines and files

  /** The invariant holds after any run of lines from a state that has it. */
  lemma {:induction false} RunLinesKeepsInv(s: State, lines: seq<Line>, file: string)
    requires Inv(s) && RunLines(s, lines, file).Some?
    ensures Inv(RunLines(s, lines, file).value)
    ensures RunLines(s, lines, file).value.logNumber == s.logNumber
  {
    if lines != [] {
      var init := lines[..|lines| - 1];
      RunLinesKeepsInv(s, init, file);
      StepKeepsInv(RunLines(s, init, file).value, lines[|lines| - 1], file);
    }
  }

  /** The invariant holds after any run of files; every file bumps the log number once. */
  lemma {:induction false} RunFilesKeepsInv(s: State, files: seq<LogFile>)
    requires Inv(s) && RunFiles(s, files).Some?
    ensures Inv(RunFiles(s, files).value)
    ensures RunFiles(s, files).value.logNumber == s.logNumber + |files|
  {
    if files != [] {
      var init := files[..|files| - 1];
      var last := files[|files| - 1];
      RunFilesKeepsInv(s, init);
      var u := RunFiles(s, init).value;
      RunLinesKeepsInv(EnterFile(u), last.lines, last.name);
    }
  }

  /** Rows once written are never changed or removed: the old columns are a prefix of the new. */
  ghost predicate Extends(c: Columns, d: Columns)
  {
    && c.numbers <= d.numbers
    && c.lengths <= d.lengths
    && c.phases <= d.phases
    && c.logs <= d.logs
    && c.files <= d.files
  }

  lemma {:induction false} RunLinesOnlyAppends(s: State, lines: seq<Line>, file: string)
    requires RunLines(s, lines, file).Some?
    ensures Extends(s.cols, RunLines(s, lines, file).value.cols)
  {
    if lines != [] {
      var init := lines[..|lines| - 1];
      RunLinesOnlyAppends(s, init, file);
      StepRecordsRow(RunLines(s, init, file).value, lines[|lines| - 1], file);
    }
  }

  /**
   * A pull that is not closed by a wipe leaves no row: a run of lines with
   * no wipe among them leaves the count and the columns as they were.
   */
  lemma {:induction false} NoWipeNoRow(s: State, lines: seq<Line>, file: string)
    requires forall i :: 0 <= i < |lines| ==> !IsWipe(lines[i])
    requires RunLines(s, lines, file).Some?
    ensures RunLines(s, lines, file).value.count == s.count
    ensures RunLines(s, lines, file).value.cols == s.cols
  {
    if lines != [] {
      var init := lines[..|lines| - 1];
      NoWipeNoRow(s, init, file);
      StepRecordsRow(RunLines(s, init, file).value, lines[|lines| - 1], file);
    }
  }

  /**
   * Within one pull, as long as no re-instance or wipe ends it, the pull
   * stays open with the same start time and no new rows, and its phase
   * only climbs, by at most one per line, and stays within 1..7.
   */
  lemma {:induction false} OpenPullPhaseClimbs(s: State, lines: seq<Line>, file: string)
    requires Inv(s) && s.started
    requires forall i :: 0 <= i < |lines| ==> !IsReinstance(lines[i]) && !IsWipe(lines[i])
    requires RunLines(s, lines, file).Some?
    ensures var t := RunLines(s, lines, file).value;
      t.started && t.startTime == s.startTime && t.cols == s.cols
    ensures var t := RunLines(s, lines, file).value;
      s.phase <= t.phase <= LastPhase && t.phase <= s.phase + |lines|
  {
    if lines != [] {
      var init := lines[..|lines| - 1];
      OpenPullPhaseClimbs(s, init, file);
      RunLinesKeepsInv(s, init, file);
      var u := RunLines(s, init, file).value;
      RunningStepPhase(u, lines[|lines| - 1], file);
      StepKeepsInv(u, lines[|lines| - 1], file);
    }
  }

  /**
   * The rows a run of lines appends carry the log number current while the
   * lines were read and the name of the file they came from.
   */
  lemma {:induction false} RunLinesStampsNewRows(s: State, lines: seq<Line>, file: string)
    requires |s.cols.logs| == |s.cols.files| && RunLines(s, lines, file).Some?
    ensures var t := RunLines(s, lines, file).value;
      t.logNumber == s.logNumber && |s.cols.logs| <= |t.cols.logs| == |t.cols.files|
    ensures var t := RunLines(s, lines, file).value;
      forall i :: |s.cols.logs| <= i < |t.cols.logs| ==>
        t.cols.logs[i] == s.logNumber && t.cols.files[i] == file
  {
    if lines != [] {
      var init := lines[..|lines| - 1];
      RunLinesStampsNewRows(s, init, file);
      var u := RunLines(s, init, file).value;
      StepRecordsRow(u, lines[|lines| - 1], file);
    }
  }

  /** Every row's log number names a file of the folder, and its file name is that file's. */
  ghost predicate Stamped(c: Columns, files: seq<LogFile>)
  {
    && |c.logs| == |c.files|
    && forall i :: 0 <= i < |c.logs| ==>
         1 <= c.logs[i] <= |files| && c.files[i] == files[c.logs[i] - 1].name
  }

  lemma {:induction false} RunLinesStamps(s: State, lines: seq<Line>, files: seq<LogFile>)
    requires 1 <= s.logNumber <= |files| && Stamped(s.cols, files)
    requires RunLines(s, lines, files[s.logNumber - 1].name).Some?
    ensures Stamped(RunLines(s, lines, files[s.logNumber - 1].name).value.cols, files)
    ensures RunLines(s, lines, files[s.logNumber - 1].name).value.logNumber == s.logNumber
  {
    var file := files[s.logNumber - 1].name;
    if lines != [] {
      var init := lines[..|lines| - 1];
      RunLinesStamps(s, init, files);
      var u := RunLines(s, init, file).value;
      StepRecordsRow(u, lines[|lines| - 1], file);
    }
  }

  /**
   * State is carried across files; after the whole folder the log number
   * is the number of files, and every row's log number and name agree
   * with a file of the folder.
   */
  lemma {:induction false} SegmentStampsFiles(files: seq<LogFile>)
    requires Segment(files).Some?
    ensures Stamped(Segment(files).value.cols, files)
    ensures Segment(files).value.logNumber == |files|
  {
    if files != [] {
      var init := files[..|files| - 1];
      var last := files[|files| - 1];
      SegmentStampsFiles(init);
      var u := Segment(init).value;
      forall i | 0 <= i < |u.cols.logs|
        ensures 1 <= u.cols.logs[i] <= |files| && u.cols.files[i] == files[u.cols.logs[i] - 1].name
      {
        assert files[u.cols.logs[i] - 1] == init[u.cols.logs[i] - 1];
      }
      RunLinesStamps(EnterFile(u), last.lines, files);
    }
  }

  /** A run of files that succeeds succeeded on every prefix, and only appended rows after it. */
  lemma {:induction false} RunFilesPrefix(s: State, files: seq<LogFile>, n: nat)
    requires n <= |files| && RunFiles(s, files).Some?
    ensures RunFiles(s, files[..n]).Some?
    ensures Extends(RunFiles(s, files[..n]).value.cols, RunFiles(s, files).value.cols)
  {
    if n == |files| {
      assert files[..n] == files;
    } else {
      var init := files[..|files| - 1];
      var last := files[|files| - 1];
      assert init[..n] == files[..n];
      RunFilesPrefix(s, init, n);
      RunLinesOnlyAppends(EnterFile(RunFiles(s, init).value), last.lines, last.name);
    }
  }

  /**
   * The rows written while file k (0-based) of the folder is read: those
   * past the columns reached after files 0..k-1 and up to the columns
   * reached after file k. In the final columns `c` they carry log number
   * k + 1 and file k's name.
   */
  ghost predicate WrittenWhileReading(files: seq<LogFile>, k: nat, c: Columns)
  {
    && k < |files|
    && Segment(files[..k]).Some?
    && Segment(files[..k + 1]).Some?
    && var before := Segment(files[..k]).value.cols;
       var after := Segment(files[..k + 1]).value.cols;
       && Extends(before, after)
       && Extends(after, c)
       && |after.logs| == |after.files|
       && forall i :: |before.logs| <= i < |after.logs| ==>
            c.logs[i] == k + 1 && c.files[i] == files[k].name
  }

  /**
   * Each row records the 1-based index of the file holding its wipe line,
   * with that file's name: the rows appended while file k is read are
   * stamped k + 1 and its name, and stay so in the final columns.
   */
  lemma SegmentRowsByFile(files: seq<LogFile>, k: nat)
    requires Segment(files).Some? && k < |files|
    ensures WrittenWhileReading(files, k, Segment(files).value.cols)
  {
    RunFilesPrefix(Initial, files, k);
    RunFilesPrefix(Initial, files, k + 1);
    assert files[..k + 1][..k] == files[..k];
    assert files[..k + 1][k] == files[k];
    var u := Segment(files[..k]).value;
    RunFilesKeepsInv(Initial, files[..k]);
    assert Segment(files[..k + 1]) == RunLines(EnterFile(u), files[k].lines, files[k].name);
    RunLinesStampsNewRows(EnterFile(u), files[k].lines, files[k].name);
    RunLinesOnlyAppends(EnterFile(u), files[k].lines, files[k].name);
  }

  /** A run that stops at a faulting line stops for good, however many lines follow. */
  lemma {:induction false} RunLinesStaysFaulted(s: State, lines: seq<Line>, n: nat, file: string)
    requires n <= |lines| && RunLines(s, lines[..n], file).None?
    ensures RunLines(s, lines, file).None?
  {
    if n < |lines| {
      assert lines[..|lines| - 1][..n] == lines[..n];
      RunLinesStaysFaulted(s, lines[..|lines| - 1], n, file);
    } else {
      assert lines[..n] == lines;
    }
  }

  lemma {:induction false} RunFilesStaysFaulted(s: State, files: seq<LogFile>, n: nat)
    requires n <= |files| && RunFiles(s, files[..n]).None?
    ensures RunFiles(s, files).None?
  {
    if n < |files| {
      assert files[..|files| - 1][..n] == files[..n];
      RunFilesStaysFaulted(s, files[..|files| - 1], n);
    } else {
      assert files[..n] == files;
    }
  }
}

// The segmentation loop in the form the script runs it: mutable counters
// and five result columns grown in place, one pass of ordered checks per
// line, files read one after another without resetting anything.

module Engine {
  import opened LogLines
  import opened Segmentation

  class Segmenter {
    var pullStarted: bool
    var pullCount: int
    var currentPhase: int
    var logNumber: int
    var pullStartTime: int

    // The pull-set columns: number, length, phase, log number, file name.
    var pullNumbers: seq<int>
    var pullLengths: seq<int>
    var pullPhases: seq<int>
    var pullLogs: seq<int>
    var pullFiles: seq<string>

    function Columns(): Segmentation.Columns
      reads this
    {
      Segmentation.Columns(pullNumbers, pullLengths, pullPhases, pullLogs, pullFiles)
    }

    /** The fields read as one state of the fold. */
    function Current(): State
      reads this
    {
      State(pullStarted, pullCount, currentPhase, logNumber, pullStartTime, Columns())
    }

    ghost predicate Valid()
      reads this
    {
      Inv(Current())
    }

    /** No pull running, no pulls counted, phase 1, no file read yet. */
    constructor ()
      ensures Valid() && Current() == Initial
    {
      pullStarted := false;
      pullCount := 0;
      currentPhase := 1;
      logNumber := 0;
      pullStartTime := 0;
      pullNumbers, pullLengths, pullPhases, pullLogs, pullFiles := [], [], [], [], [];
    }

    /**
     * Applies the script's checks to one line of file `fileName`, in their
     * order: start, re-instance, the six phase gates, wipe. Requires that
     * none of those checks reads a field the line lacks.
     */
    method Step(line: Line, fileName: string)
      requires Valid() && !Faults(Current(), line)
      modifies this
      ensures Valid()
      ensures Segmentation.Step(old(Current()), line, fileName) == Some(Current())
    {
      ghost var s := Current();
      var row := line.fields;

      if !pullStarted && row[0] == AbilityCode && row[7] == Boss && row[3] != Boss {
        pullStarted := true;
        pullStartTime := line.time;
        currentPhase := 1;
      }
      assert pullStarted == (s.started || IsStart(line));

      if pullStarted && row[0] == ZoneChangeCode && row[3] == EncounterZone {
        pullStarted := false;
      }
      assert pullStarted == (if s.started then !IsReinstance(line) else IsStart(line));

      CheckPhaseGates(line);
      CheckWipe(line, fileName);

      StepKeepsInv(s, line, fileName);
    }

    /**
     * The six phase gates in source order: each one checks the current
     * phase and the target of an ability line. Together they raise the
     * phase by one exactly when the line hits the gate of the current phase.
     */
    method CheckPhaseGates(line: Line)
      requires 1 <= currentPhase <= LastPhase
      requires pullStarted && Code(line) == AbilityCode && currentPhase < LastPhase ==> |line.fields| > 7
      modifies this`currentPhase
      ensures currentPhase ==
        if pullStarted && Advances(old(Current()), line) then old(currentPhase) + 1 else old(currentPhase)
    {
      var row := line.fields;
      if pullStarted && currentPhase == 1 && row[0] == AbilityCode && row[7] == "Nidhogg" {
        currentPhase := 2;
      }
      if pullStarted && currentPhase == 2 && row[0] == AbilityCode && row[7] == "Right Eye" {
        currentPhase := 3;
      }
      if pullStarted && currentPhase == 3 && row[0] == AbilityCode && row[7] == "Ser Charibert" {
        currentPhase := 4;
      }
      if pullStarted && currentPhase == 4 && row[0] == AbilityCode && row[7] == "King Thordan" {
        currentPhase := 5;
      }
      if pullStarted && currentPhase == 5 && row[0] == AbilityCode && row[7] == "Nidhogg" {
        currentPhase := 6;
      }
      if pullStarted && currentPhase == 6 && row[0] == AbilityCode && row[7] == "Dragon-king Thordan" {
        currentPhase := 7;
      }
    }

    /**
     * The wipe check: a wipe line during a pull ends it and, when the pull
     * lasted more than 30 seconds, counts it and appends its row to the
     * five columns.
     */
    method CheckWipe(line: Line, fileName: string)
      requires pullStarted && Code(line) == ActorControlCode ==> |line.fields| > 3
      modifies this
      ensures Current() ==
        if old(pullStarted) && IsWipe(line) then Close(old(Current()), line.time, fileName) else old(Current())
    {
      ghost var s := Current();
      var row := line.fields;
      if pullStarted && row[0] == ActorControlCode && row[3] == WipeCommand {
        pullStarted := false;
        var pullLength := line.time - pullStartTime;
        if pullLength > MinPullLength {
          pullCount := pullCount + 1;
          pullNumbers := pullNumbers + [pullCount];
          pullLengths := pullLengths + [pullLength];
          pullPhases := pullPhases + [currentPhase];
          pullLogs := pullLogs + [logNumber];
          pullFiles := pullFiles + [fileName];
          assert Columns() == Append(s.cols, s.count + 1, pullLength, s.phase, s.logNumber, fileName);
        }
      }
    }

    /** Opening the next file bumps the log number and nothing else. */
    method EnterFile()
      requires Valid()
      modifies this
      ensures Valid()
      ensures Current() == Segmentation.EnterFile(old(Current()))
    {
      logNumber := logNumber + 1;
    }

    /**
     * Reads the lines of one file in order. Stops with `ok` false at the
     * first line that would read a missing field; otherwise the state is
     * the fold of the lines over the old state.
     */
    method ReadLines(lines: seq<Line>, fileName: string) returns (ok: bool)
      requires Valid()
      modifies this
      ensures ok <==> RunLines(old(Current()), lines, fileName).Some?
      ensures ok ==> Valid() && RunLines(old(Current()), lines, fileName) == Some(Current())
    {
      ghost var s := Current();
      var i := 0;
      while i < |lines|
        invariant 0 <= i <= |lines|
        invariant Valid()
        invariant RunLines(s, lines[..i], fileName) == Some(Current())
      {
        assert lines[..i + 1][..i] == lines[..i];
        if Faults(Current(), lines[i]) {
          RunLinesStaysFaulted(s, lines, i + 1, fileName);
          return false;
        }
        Step(lines[i], fileName);
        i := i + 1;
      }
      assert lines[..i] == lines;
      return true;
    }

    /**
     * The script's outer loop: each file in turn bumps the log number and
     * has its lines read, with no other state reset between files.
     */
    method Run(files: seq<LogFile>) returns (ok: bool)
      requires Valid()
      modifies this
      ensures ok <==> RunFiles(old(Current()), files).Some?
      ensures ok ==> Valid() && RunFiles(old(Current()), files) == Some(Current())
    {
      ghost var s := Current();
      var k := 0;
      while k < |files|
        invariant 0 <= k <= |files|
        invariant Valid()
        invariant RunFiles(s, files[..k]) == Some(Current())
      {
        assert files[..k + 1][..k] == files[..k];
        EnterFile();
        ok := ReadLines(files[k].lines, files[k].name);
        if !ok {
          RunFilesStaysFaulted(s, files, k + 1);
          return;
        }
        k := k + 1;
      }
      assert files[..k] == files;
      ok := true;
    }
  }

  /**
   * The segmentation of a whole log folder from a fresh start. When no
   * line makes the script read a missing field, the result is the pull
   * set: five columns of equal length, numbered 1..n, each row a pull of
   * more than 30 seconds with a phase in 1..7; the rows written while file
   * k is read, which are those whose wipe lies in that file, carry k + 1
   * and that file's name.
   */
  method SegmentFolder(files: seq<LogFile>) returns (ok: bool, pullSet: Segmentation.Columns)
    ensures ok <==> Segment(files).Some?
    ensures ok ==> pullSet == Segment(files).value.cols
    ensures ok ==> Aligned(pullSet, |pullSet.numbers|)
    ensures ok ==> forall i :: 0 <= i < |pullSet.numbers| ==>
      && pullSet.lengths[i] > MinPullLength
      && 1 <= pullSet.phases[i] <= LastPhase
      && 1 <= pullSet.logs[i] <= |files|
      && pullSet.files[i] == files[pullSet.logs[i] - 1].name
    ensures ok ==> forall k :: 0 <= k < |files| ==> WrittenWhileReading(files, k, pullSet)
  {
    var engine := new Segmenter();
    ok := engine.Run(files);
    pullSet := engine.Columns();
    if ok {
      SegmentStampsFiles(files);
      forall k | 0 <= k < |files|
        ensures WrittenWhileReading(files, k, pullSet)
      {
        SegmentRowsByFile(files, k);
      }
    }
  }
}

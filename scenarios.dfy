// Concrete logs run through the fold: one pull reaching phase 2, wipes
// below, at and just over the 30-second threshold, a re-instanced attempt, two pulls in
// one file, a pull that spans two files, and the short lines that stop the
// script or are passed over.
//
// Each line ends in a hash field, as ACT lines do, so the line's newline
// stays in that last field and never in a field the loop compares.

module Scenarios {
  import opened LogLines
  import opened Segmentation

  /** An ability line from `source` on `target` at time `t`. */
  function Ability(t: int, source: string, target: string): Line
  {
    Line(["21", "", "40001", source, "63C8", "Attack", "4000A", target, "9f3c1a2b\n"], t)
  }

  function ZoneChange(t: int, zone: string): Line
  {
    Line(["01", "", "3C8", zone, "5d7e0c41\n"], t)
  }

  function Wipe(t: int): Line
  {
    Line(["33", "", "8000", WipeCommand, "00", "00", "00", "00", "2b6a9e17\n"], t)
  }

  const Player := "Warrior of Light"

  /** Extends a known run of lines by one known step. */
  lemma Then(s: State, lines: seq<Line>, l: Line, file: string, u: State, v: State)
    requires RunLines(s, lines, file) == Some(u) && Step(u, l, file) == Some(v)
    ensures RunLines(s, lines + [l], file) == Some(v)
  {
    RunLinesSnoc(s, lines, l, file);
  }

  /** A folder of one file is that file's lines read after entering it. */
  lemma OneFile(f: LogFile)
    ensures Segment([f]) == RunLines(EnterFile(Initial), f.lines, f.name)
  {
    RunFilesSnoc(Initial, [], f);
    assert [] + [f] == [f];
  }

  /** Start at 100, Nidhogg acted on at 160, wipe at 190: one pull of 90 seconds in phase 2. */
  lemma OnePullReachingPhaseTwo()
    ensures Segment([LogFile("a.log", [Ability(100, Player, Boss), Ability(160, Player, "Nidhogg"), Wipe(190)])])
      == Some(State(false, 1, 2, 1, 100, Columns([1], [90], [2], [1], ["a.log"])))
  {
    var a, b, c := Ability(100, Player, Boss), Ability(160, Player, "Nidhogg"), Wipe(190);
    var s0 := EnterFile(Initial);
    var s1 := s0.(started := true, startTime := 100, phase := 1);
    var s2 := s1.(phase := 2);
    var s3 := Close(s2, 190, "a.log");
    assert s3 == State(false, 1, 2, 1, 100, Columns([1], [90], [2], [1], ["a.log"]));
    assert [] + [a] == [a] && [a] + [b] == [a, b] && [a, b] + [c] == [a, b, c];
    Then(s0, [], a, "a.log", s0, s1);
    Then(s0, [a], b, "a.log", s1, s2);
    Then(s0, [a, b], c, "a.log", s2, s3);
    OneFile(LogFile("a.log", [a, b, c]));
  }

  /** A wipe in the same second as the start ends the pull and leaves no row. */
  lemma InstantWipeLeavesNoRow()
    ensures Segment([LogFile("a.log", [Ability(100, Player, Boss), Wipe(100)])])
      == Some(State(false, 0, 1, 1, 100, NoPulls))
  {
    var a, b := Ability(100, Player, Boss), Wipe(100);
    var s0 := EnterFile(Initial);
    var s1 := s0.(started := true, startTime := 100, phase := 1);
    assert [] + [a] == [a] && [a] + [b] == [a, b];
    Then(s0, [], a, "a.log", s0, s1);
    Then(s0, [a], b, "a.log", s1, s1.(started := false));
    OneFile(LogFile("a.log", [a, b]));
  }

  /** A pull of exactly 30 seconds is not recorded; one of 31 seconds is. */
  lemma ThresholdIsStrict()
    ensures Segment([LogFile("a.log", [Ability(0, Player, Boss), Wipe(30)])]).Some?
    ensures Segment([LogFile("a.log", [Ability(0, Player, Boss), Wipe(30)])]).value.count == 0
    ensures Segment([LogFile("a.log", [Ability(0, Player, Boss), Wipe(31)])]).Some?
    ensures Segment([LogFile("a.log", [Ability(0, Player, Boss), Wipe(31)])]).value.count == 1
  {
    var a, b, c := Ability(0, Player, Boss), Wipe(30), Wipe(31);
    var s0 := EnterFile(Initial);
    var s1 := s0.(started := true, startTime := 0, phase := 1);
    assert [] + [a] == [a] && [a] + [b] == [a, b] && [a] + [c] == [a, c];
    Then(s0, [], a, "a.log", s0, s1);
    Then(s0, [a], b, "a.log", s1, Close(s1, 30, "a.log"));
    Then(s0, [a], c, "a.log", s1, Close(s1, 31, "a.log"));
    OneFile(LogFile("a.log", [a, b]));
    OneFile(LogFile("a.log", [a, c]));
  }

  /** Start, re-instance, start again, wipe 40 seconds later: only the second attempt is recorded. */
  lemma ReinstancedAttemptIsDropped()
    ensures Segment([LogFile("a.log", [
        Ability(0, Player, Boss), ZoneChange(10, EncounterZone),
        Ability(20, Player, Boss), Wipe(60)])])
      == Some(State(false, 1, 1, 1, 20, Columns([1], [40], [1], [1], ["a.log"])))
  {
    var a, b, c, d := Ability(0, Player, Boss), ZoneChange(10, EncounterZone), Ability(20, Player, Boss), Wipe(60);
    var s0 := EnterFile(Initial);
    var s1 := s0.(started := true, startTime := 0, phase := 1);
    var s2 := s1.(started := false);
    var s3 := s2.(started := true, startTime := 20, phase := 1);
    var s4 := Close(s3, 60, "a.log");
    assert s4 == State(false, 1, 1, 1, 20, Columns([1], [40], [1], [1], ["a.log"]));
    assert [] + [a] == [a] && [a] + [b] == [a, b] && [a, b] + [c] == [a, b, c] && [a, b, c] + [d] == [a, b, c, d];
    Then(s0, [], a, "a.log", s0, s1);
    Then(s0, [a], b, "a.log", s1, s2);
    Then(s0, [a, b], c, "a.log", s2, s3);
    Then(s0, [a, b, c], d, "a.log", s3, s4);
    OneFile(LogFile("a.log", [a, b, c, d]));
  }

  /** Two qualifying pulls in one file are numbered 1 and 2, each timed from its own start. */
  lemma TwoPullsNumberedInOrder()
    ensures Segment([LogFile("a.log", [
        Ability(0, Player, Boss), Wipe(50),
        Ability(100, Player, Boss), Wipe(200)])])
      == Some(State(false, 2, 1, 1, 100, Columns([1, 2], [50, 100], [1, 1], [1, 1], ["a.log", "a.log"])))
  {
    var a, b, c, d := Ability(0, Player, Boss), Wipe(50), Ability(100, Player, Boss), Wipe(200);
    var s0 := EnterFile(Initial);
    var s1 := s0.(started := true, startTime := 0, phase := 1);
    var s2 := Close(s1, 50, "a.log");
    var s3 := s2.(started := true, startTime := 100, phase := 1);
    var s4 := Close(s3, 200, "a.log");
    assert s2 == State(false, 1, 1, 1, 0, Columns([1], [50], [1], [1], ["a.log"]));
    assert s4 == State(false, 2, 1, 1, 100, Columns([1, 2], [50, 100], [1, 1], [1, 1], ["a.log", "a.log"]));
    assert [] + [a] == [a] && [a] + [b] == [a, b] && [a, b] + [c] == [a, b, c] && [a, b, c] + [d] == [a, b, c, d];
    Then(s0, [], a, "a.log", s0, s1);
    Then(s0, [a], b, "a.log", s1, s2);
    Then(s0, [a, b], c, "a.log", s2, s3);
    Then(s0, [a, b, c], d, "a.log", s3, s4);
    OneFile(LogFile("a.log", [a, b, c, d]));
  }

  /** The boss acting on itself does not start a pull, so the wipe after it records nothing. */
  lemma BossOnItselfDoesNotStart()
    ensures Segment([LogFile("a.log", [Ability(0, Boss, Boss), Wipe(100)])])
      == Some(EnterFile(Initial))
  {
    var a, b := Ability(0, Boss, Boss), Wipe(100);
    var s0 := EnterFile(Initial);
    assert [] + [a] == [a] && [a] + [b] == [a, b];
    Then(s0, [], a, "a.log", s0, s0);
    Then(s0, [a], b, "a.log", s0, s0);
    OneFile(LogFile("a.log", [a, b]));
  }

  /** A pull opened in the first file and wiped in the second is stamped with the second file. */
  lemma PullSpanningFiles()
    ensures Segment([LogFile("a.log", [Ability(0, Player, Boss)]), LogFile("b.log", [Wipe(45)])])
      == Some(State(false, 1, 1, 2, 0, Columns([1], [45], [1], [2], ["b.log"])))
  {
    var a, b := Ability(0, Player, Boss), Wipe(45);
    var f, g := LogFile("a.log", [a]), LogFile("b.log", [b]);
    var s0 := EnterFile(Initial);
    var s1 := s0.(started := true, startTime := 0, phase := 1);
    var s2 := EnterFile(s1);
    var s3 := Close(s2, 45, "b.log");
    assert s3 == State(false, 1, 1, 2, 0, Columns([1], [45], [1], [2], ["b.log"]));
    assert [] + [a] == [a] && [] + [b] == [b];
    Then(s0, [], a, "a.log", s0, s1);
    Then(s2, [], b, "b.log", s2, s3);
    OneFile(f);
    RunFilesSnoc(Initial, [f], g);
    assert [f] + [g] == [f, g];
  }

  /** A short ability line while idle makes the loop read a missing field. */
  lemma ShortAbilityLineStops()
    ensures Segment([LogFile("a.log", [Line(["21", "\n"], 0)])]) == None
  {
    var a := Line(["21", "\n"], 0);
    RunLinesSnoc(EnterFile(Initial), [], a, "a.log");
    assert [] + [a] == [a];
    OneFile(LogFile("a.log", [a]));
  }

  /** A short zone-change line while idle is never looked at past its code. */
  lemma ShortZoneLineWhileIdleIsHarmless()
    ensures Segment([LogFile("a.log", [Line(["01", "\n"], 0)])]) == Some(EnterFile(Initial))
  {
    var a := Line(["01", "\n"], 0);
    var s0 := EnterFile(Initial);
    assert [] + [a] == [a];
    Then(s0, [], a, "a.log", s0, s0);
    OneFile(LogFile("a.log", [a]));
  }
}

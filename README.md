# DSR_grapher pull segmentation, in Dafny

DSR_grapher reads ACT/cactbot network-log files of the Dragonsong's Reprise
(Ultimate) encounter. It cuts the stream of lines into pulls and charts each
pull's length and the highest phase it reached. This project models the part
that cuts the stream: the loop over files and lines in `DSR_grapher.py`. That
loop keeps module-level counters (`pullStarted`, `pullCount`, `currentPhase`,
`logNumber`, `pullStartTime`) and grows five parallel result lists
(`pullSet`: pull number, length, phase, log number, file name).

Layout:

- `log_lines.dfy`, module `LogLines`: a line is its pipe-split fields plus a
  timestamp in whole seconds. The module also holds the fixed codes and names
  the loop matches, and the predicates for the start trigger, a re-instance,
  a wipe and the phase-gate targets.
- `segmentation.dfy`, module `Segmentation`: the loop as a pure fold, with
  its lemmas.
  - `State` holds the counters and the five columns.
  - `Step` handles one line and returns `None` when the script would read a
    field the line does not have.
  - `RunLines` and `RunFiles` fold `Step` over the lines and files.
  - `Segment` starts from the initial state.
  - `Step` is written as a case split that consults a gate table. It is not
    written as the script's six sequential `if`s.
- `engine.dfy`, module `Engine`: the loop in the script's own form.
  - Class `Segmenter` has one mutable field per global and per column.
  - `Step` runs the checks in source order, and its postcondition ties it to
    `Segmentation.Step`.
  - `ReadLines` and `Run` are the two nested loops, and their invariants tie
    them to the fold.
  - `SegmentFolder` runs a fresh `Segmenter` over a whole folder and states
    what the resulting pull set satisfies.
- `scenarios.dfy`, module `Scenarios`: concrete logs run through the fold.

Behaviour of the code that the model keeps, even where a reader might expect otherwise:

- A line with too few fields is not skipped. Under some conditions the script
  reads `row[7]` or `row[3]` without a guard, and the `IndexError` ends the
  script. These conditions are: an ability line while idle or while a phase
  gate is armed, and a zone-change or actor-control (type 33) line while a
  pull runs.
  `Segmentation.Faults` gives the exact condition. The fold then yields
  `None`, and `Segmenter.Run` returns `false`. A short ability line in
  phase 7 and a short zone-change line while idle are harmless.
- Closing a pull does not reset the phase or the start time. Only `pullStarted`
  changes, and the next start sets both again.
- A start-trigger line during a running pull does not restart it or reset its
  phase. Its target, King Thordan, is also the gate out of phase 4, so in
  phase 4 it advances the pull to phase 5.
- The gate targets are not all distinct: Nidhogg guards both 1→2 and 5→6.
  Only consecutive gates differ, and that is why at most one gate fires per
  line.

## Model

| member | source | states |
|---|---|---|
| Segmentation.RunLinesSnoc | DSR_grapher.py:32-33 | lines are read in order: reading one more line applies one more step to the state reached so far |
| Segmentation.RunFilesSnoc | DSR_grapher.py:27-32 | files are read in order: one more file means bumping the log number, then reading that file's lines from the state reached so far |
| Segmentation.StepKeepsInv | DSR_grapher.py:17-78 | every step keeps the invariant: the phase is in 1..7; all five columns have `pullCount` rows; the numbers are 1..`pullCount` in order; each recorded phase is in 1..7; each recorded length is over 30; each log number is at most the current one |
| Segmentation.IdleStep | DSR_grapher.py:36-41 | while idle, a line opens a pull exactly when it is an ability whose target is King Thordan and whose source is not; the pull starts at that line's time in phase 1, and nothing else changes; any other line changes nothing |
| Segmentation.RunningStepKeepsStart | DSR_grapher.py:36-55 | while a pull runs, no line changes its start time; a start-trigger line leaves the pull running and keeps its phase, except that in phase 4 it fires the King Thordan gate to phase 5 |
| Segmentation.RunningStepPhase | DSR_grapher.py:47-59 | while a pull runs, one line never lowers the phase; it raises the phase by one exactly when the line is an ability on the gate target of the current phase (Nidhogg, Right Eye, Ser Charibert, King Thordan, Nidhogg, Dragon-king Thordan) |
| Segmentation.ReinstanceDropsPull | DSR_grapher.py:43-45 | a zone change into Dragonsong's Reprise (Ultimate) during a pull ends it with no row and no change to the count |
| Segmentation.WipeEndsPull | DSR_grapher.py:61-63 | a wipe line (type 33, command 40000005) never faults; during a pull it ends the pull, and while idle it changes nothing |
| Segmentation.StepRecordsRow | DSR_grapher.py:62-78 | the count rises by one exactly on a wipe during a pull that lasted strictly more than 30 seconds; the row then appended holds the next number, end minus start, the phase reached, the current log number and the file name; every other line leaves the count and the columns unchanged |
| Segmentation.RunLinesKeepsInv | DSR_grapher.py:32-78 | reading any run of lines from a state that satisfies the invariant keeps the invariant and leaves the log number unchanged |
| Segmentation.RunFilesKeepsInv | DSR_grapher.py:27-78 | reading any run of files keeps the invariant, and the log number rises by exactly one per file |
| Segmentation.RunLinesOnlyAppends | DSR_grapher.py:71-78 | rows, once written, are never changed or removed: each old column is a prefix of the new one |
| Segmentation.NoWipeNoRow | DSR_grapher.py:62-78 | a run of lines with no wipe among them leaves the count and the columns as they were, so a pull still open at the end of input leaves no row |
| Segmentation.OpenPullPhaseClimbs | DSR_grapher.py:47-59 | during a pull that no re-instance or wipe ends: the pull stays open with the same start time and no new rows; its phase never falls, stays at most 7, and rises by at most the number of lines read |
| Segmentation.RunLinesStampsNewRows | DSR_grapher.py:74-78 | every row appended while a run of lines is read carries the log number current during that run and the name of the file being read; the log number itself does not change |
| Segmentation.RunLinesStamps | DSR_grapher.py:74-78 | if every existing row's log number is the index of a file in the folder and its name is that file's name, reading lines of the current file keeps that true |
| Segmentation.SegmentStampsFiles | DSR_grapher.py:27-30 | state is carried across files without reset; after a whole folder, the log number equals the number of files; each row's log number is in 1..number of files, and its file name is the name of the file at that 1-based index |
| Segmentation.RunFilesPrefix | DSR_grapher.py:27-32 | a run over a folder that succeeds also succeeds on every leading part of the folder, and the columns after that part are a prefix of the final columns |
| Segmentation.SegmentRowsByFile | DSR_grapher.py:27-30 | for each file k (0-based), the rows appended while file k is read are exactly those between the columns reached after files 0..k-1 and after file k; in the final columns they carry log number k + 1 and file k's name, so each row records the file that holds its wipe |
| Segmentation.RunLinesStaysFaulted | DSR_grapher.py:32-36 | once a line makes the script read a missing field, the rest of that file is never read |
| Segmentation.RunFilesStaysFaulted | DSR_grapher.py:27-32 | once a file stops with a missing field, no later file is read |
| Engine.Segmenter.constructor | DSR_grapher.py:17-24 | starts with no pull running, count 0, phase 1, log number 0 and five empty columns |
| Engine.Segmenter.Step | DSR_grapher.py:32-78 | applies the start, re-instance, six gate and wipe checks in source order to the fields in place; it demands exactly that no check reads a missing field; the new fields are the fold's step from the old ones, and the invariant is kept |
| Engine.Segmenter.CheckPhaseGates | DSR_grapher.py:47-59 | the six gate checks, applied in source order to the phase in place, raise it by one exactly when a pull is running and the line is an ability on the current phase's gate target; otherwise the phase is unchanged |
| Engine.Segmenter.CheckWipe | DSR_grapher.py:61-78 | a wipe line during a pull ends the pull in place; if the pull lasted more than 30 seconds, the count rises and one row is appended to each of the five columns; any other line changes nothing |
| Engine.Segmenter.EnterFile | DSR_grapher.py:29-30 | opening a file bumps the log number and changes nothing else |
| Engine.Segmenter.ReadLines | DSR_grapher.py:32-78 | reads one file's lines in order; it returns false exactly when some line would read a missing field; otherwise the fields are the fold of the lines over the old fields |
| Engine.Segmenter.Run | DSR_grapher.py:27-78 | reads the files in order without resetting state between them; it succeeds exactly when the fold over the files does, and the fields are then the fold's result |
| Engine.SegmentFolder | DSR_grapher.py:17-80 | from a fresh start it succeeds exactly when no line reads a missing field; it then returns the fold's pull set, whose five columns have one length, are numbered 1..n, and record lengths over 30 and phases in 1..7; for every file k, the rows written while file k is read carry log number k + 1 and file k's name |
| Scenarios.OnePullReachingPhaseTwo | DSR_grapher.py:36-78 | start at 100, Nidhogg targeted at 160, wipe at 190: exactly one row, (1, 90, 2, 1, file) |
| Scenarios.InstantWipeLeavesNoRow | DSR_grapher.py:62-70 | a wipe in the same second as the start ends the pull and leaves no row |
| Scenarios.ThresholdIsStrict | DSR_grapher.py:69-71 | a 30-second pull is not counted and a 31-second pull is |
| Scenarios.ReinstancedAttemptIsDropped | DSR_grapher.py:36-78 | start, re-instance, start 20 s later, wipe 40 s after that: one row, timed from the second start only |
| Scenarios.TwoPullsNumberedInOrder | DSR_grapher.py:36-78 | two qualifying pulls in one file are numbered 1 and 2, and each is timed from its own start |
| Scenarios.BossOnItselfDoesNotStart | DSR_grapher.py:36 | King Thordan acting on himself opens no pull, so the wipe after it records nothing |
| Scenarios.PullSpanningFiles | DSR_grapher.py:27-30 | a pull opened in the first file and wiped in the second is recorded with log number 2 and the second file's name |
| Scenarios.ShortAbilityLineStops | DSR_grapher.py:36 | an ability line without field 7 read while idle stops the run |
| Scenarios.ShortZoneLineWhileIdleIsHarmless | DSR_grapher.py:44 | a zone-change line without field 3 read while idle is skipped harmlessly |

## Left out

- Listing the log folder, opening files and UTF-8 decoding (DSR_grapher.py:11-13, 27-28): file I/O. The input is an already-split sequence of files, each a name and its lines; the folder order is whatever the caller supplies.
- Splitting a line on '|' (DSR_grapher.py:33): a `Line` carries its fields already split. The script keeps the line's newline in the last field; the model compares fields exactly as given, so a line whose last field is a compared one (a bare `33|…|40000005` line) would not match in the script, and the example lines in `scenarios.dfy` end in a hash field, as ACT lines do.
- Timestamp parsing, `datetime.strptime(row[1][:-14], ...)` (DSR_grapher.py:39, 66): a library call. Each line carries its time as whole seconds; cutting the last 14 characters drops the fractional seconds and the zone offset, so lengths are whole seconds. A malformed timestamp, which would raise in the script, is not modelled.
- `pullStartTime` is unbound in the script until the first start; the model sets it to 0. It is never read before a start, so no result depends on that.
- Segmenter.Run and Segmenter.ReadLines: when a line faults, the script dies mid-line. These methods then say only that they failed, not what the fields hold.
- Converting lengths to float seconds, the plot, axis ticks, the colour, name and band tables, the legend and saving the image (DSR_grapher.py:82-131): presentation only.
- Console progress output (DSR_grapher.py:14-15, 80, 133-134): presentation only.
- Running the segmentation twice gives the same result: this holds because `Segment` is a function. No separate lemma states it.

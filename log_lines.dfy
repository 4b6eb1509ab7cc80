// The shape of one network-log line as the segmentation loop sees it, and
// the fixed names and codes it matches against.

module LogLines {

  /** The pipe-split fields of one line; splitting never yields an empty list. */
  type Fields = s: seq<string> | |s| >= 1 witness [""]

  /**
   * One log line: `fields` is the line split on '|', so `fields[0]` is the
   * event code, `fields[3]` the source name (ability) or zone name (zone
   * change) or command (actor control), and `fields[7]` the target name of
   * an ability. `time` is the line's timestamp in whole seconds.
   */
  datatype Line = Line(fields: Fields, time: int)

  /** A log file: its name and its lines in file order. */
  datatype LogFile = LogFile(name: string, lines: seq<Line>)

  const AbilityCode := "21"
  const ZoneChangeCode := "01"
  const ActorControlCode := "33"
  const WipeCommand := "40000005"
  const EncounterZone := "Dragonsong's Reprise (Ultimate)"
  const Boss := "King Thordan"

  /** Pulls that last this many seconds or fewer are not recorded. */
  const MinPullLength := 30

  /** The highest phase number. */
  const LastPhase := 7

  function Code(l: Line): string
  {
    l.fields[0]
  }

  /** An ability line whose target (field 7) is `name`. */
  predicate TargetIs(l: Line, name: string)
  {
    Code(l) == AbilityCode && |l.fields| > 7 && l.fields[7] == name
  }

  /** The start trigger: an ability on the boss cast by someone else. */
  predicate IsStart(l: Line)
  {
    TargetIs(l, Boss) && l.fields[3] != Boss
  }

  /** A zone change into the encounter: the attempt was re-instanced. */
  predicate IsReinstance(l: Line)
  {
    Code(l) == ZoneChangeCode && |l.fields| > 3 && l.fields[3] == EncounterZone
  }

  /** The actor-control line announcing a wipe. */
  predicate IsWipe(l: Line)
  {
    Code(l) == ActorControlCode && |l.fields| > 3 && l.fields[3] == WipeCommand
  }

  /** The target whose ability moves the encounter from `phase` to `phase + 1`. */
  function GateTarget(phase: int): string
    requires 1 <= phase < LastPhase
  {
    match phase
    case 1 => "Nidhogg"
    case 2 => "Right Eye"
    case 3 => "Ser Charibert"
    case 4 => Boss
    case 5 => "Nidhogg"
    case 6 => "Dragon-king Thordan"
  }
}

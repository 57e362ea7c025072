/**
 * The six processing modes a query can be routed through, as the mode bar
 * lists them: the id sent to the answering service and the button label.
 */
module Modes {

  datatype Mode = Exam | Research | Programming | ShortNotes | ConceptBreakdown | Auto

  /** One entry of the mode bar. */
  datatype ModeInfo = ModeInfo(mode: Mode, id: string, name: string)

  function Info(m: Mode): ModeInfo {
    match m
    case Exam => ModeInfo(Exam, "exam", "Exam")
    case Research => ModeInfo(Research, "research", "Research")
    case Programming => ModeInfo(Programming, "programming", "Coding")
    case ShortNotes => ModeInfo(ShortNotes, "short_notes", "Notes")
    case ConceptBreakdown => ModeInfo(ConceptBreakdown, "concept_breakdown", "Concepts")
    case Auto => ModeInfo(Auto, "auto", "Auto")
  }

  /** The mode bar, in display order. */
  const MODES: seq<ModeInfo> :=
    [Info(Exam), Info(Research), Info(Programming), Info(ShortNotes), Info(ConceptBreakdown), Info(Auto)]

  /** The mode selected before the user picks one. */
  const DefaultMode: Mode := Exam

  /** The wire name of a mode. */
  function Id(m: Mode): string {
    Info(m).id
  }

  /** The bar lists every mode exactly once, each under its own id, and the
      default mode is the first one, `exam`. */
  lemma ModesTable()
    ensures |MODES| == 6
    ensures forall i :: 0 <= i < |MODES| ==> MODES[i] == Info(MODES[i].mode)
    ensures forall m: Mode :: Info(m) in MODES
    ensures forall i, j :: 0 <= i < j < |MODES| ==> MODES[i].mode != MODES[j].mode
    ensures Id(DefaultMode) == "exam" && MODES[0].mode == DefaultMode
  {
  }

  /** Distinct modes go out under distinct ids, so the id sent names the
      selected mode. */
  lemma IdInjective(m1: Mode, m2: Mode)
    ensures Id(m1) == Id(m2) ==> m1 == m2
  {
  }
}

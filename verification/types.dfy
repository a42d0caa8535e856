/** The records the grade calculator works on: a unit's grade, a unit,
    a qualification with its credit thresholds, and the result of one
    grade calculation. */
module Types {

  /** An optional value; `None` stands for the source's `null`. */
  datatype Option<+T> = None | Some(value: T)

  /** The four grades a unit or a qualification can be awarded:
      Distinction, Merit, Pass and Ungraded. */
  datatype Grade = D | M | P | U

  /** The position of a grade in the order U < P < M < D. */
  function Rank(g: Grade): (r: nat)
    ensures r <= 3
    ensures r == 0 <==> g == U
  {
    match g
    case U => 0
    case P => 1
    case M => 2
    case D => 3
  }

  /** One assessable unit. `grade == None` means "not yet graded", which is
      a different state from the awarded grade `Some(U)`. `size` is the
      unit's guided learning hours; only `credits`, `isMandatory`,
      `isExternal` and `grade` take part in the calculation. */
  datatype Unit = Unit(
    id: string,
    number: int,
    title: string,
    size: int,
    isMandatory: bool,
    isExternal: bool,
    grade: Option<Grade>,
    credits: nat)

  /** A qualification: its credit thresholds and its ordered list of units. */
  datatype Qualification = Qualification(
    name: string,
    totalCredits: int,
    requiredPassCredits: int,
    requiredMeritCredits: int,
    requiredDistinctionCredits: int,
    units: seq<Unit>)

  /** The outcome of one grade calculation: the overall grade, the four
      credit tallies and the two completeness flags. */
  datatype GradeResult = GradeResult(
    overallGrade: Grade,
    totalCredits: nat,
    passCredits: nat,
    meritCredits: nat,
    distinctionCredits: nat,
    mandatoryUnitsComplete: bool,
    externalUnitsComplete: bool)

  /** Every unit id occurs at most once in the list. */
  predicate UniqueIds(units: seq<Unit>) {
    forall i, j :: 0 <= i < j < |units| ==> units[i].id != units[j].id
  }
}

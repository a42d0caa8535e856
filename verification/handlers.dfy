/** The two state updates of the calculator form, as pure functions from
    the previous qualification to the next: entering a unit's grade, and
    switching to another qualification level. */
module Handlers {
  import opened Types
  import opened Presets
  import opened GradeCalculation

  /** The two units agree on every field except possibly the grade. */
  predicate SameExceptGrade(a: Unit, b: Unit) {
    a.(grade := b.grade) == b
  }

  /*** Entering a grade ***/

  /** Maps over the units, giving every unit whose id is `id` the grade `g`
      and leaving every other unit as it is. */
  function SetGrade(units: seq<Unit>, id: string, g: Grade): (r: seq<Unit>)
    ensures |r| == |units|
    ensures forall i :: 0 <= i < |units| ==> SameExceptGrade(units[i], r[i])
    ensures forall i :: 0 <= i < |units| && units[i].id == id ==> r[i].grade == Some(g)
    ensures forall i :: 0 <= i < |units| && units[i].id != id ==> r[i] == units[i]
    decreases |units|
  {
    if |units| == 0 then []
    else
      var head := if units[0].id == id then units[0].(grade := Some(g)) else units[0];
      [head] + SetGrade(units[1..], id, g)
  }

  /** The grade-change handler: the qualification's name and thresholds are
      kept, each unit with the given id gets the new grade, and every other
      unit is kept, position by position. */
  function HandleGradeChange(q: Qualification, id: string, g: Grade): (r: Qualification)
    ensures r.(units := q.units) == q
    ensures |r.units| == |q.units|
    ensures forall i :: 0 <= i < |q.units| ==>
              r.units[i] == if q.units[i].id == id then q.units[i].(grade := Some(g)) else q.units[i]
  {
    q.(units := SetGrade(q.units, id, g))
  }

  /** When ids are unique, entering a grade for the id of unit `i` is the
      point update of that one unit's grade. */
  lemma GradeChangeIsPointUpdate(q: Qualification, i: int, g: Grade)
    requires UniqueIds(q.units)
    requires 0 <= i < |q.units|
    ensures HandleGradeChange(q, q.units[i].id, g).units == q.units[i := q.units[i].(grade := Some(g))]
  {
  }

  /** Entering a grade for an id no unit carries changes nothing. */
  lemma GradeChangeUnknownId(q: Qualification, id: string, g: Grade)
    requires forall i :: 0 <= i < |q.units| ==> q.units[i].id != id
    ensures HandleGradeChange(q, id, g) == q
  {
  }

  /** The last grade entered for an id is the one that stays. */
  lemma GradeChangeLastWins(q: Qualification, id: string, g1: Grade, g2: Grade)
    ensures HandleGradeChange(HandleGradeChange(q, id, g1), id, g2) == HandleGradeChange(q, id, g2)
  {
  }

  /** Grades entered for two different ids do not interfere. */
  lemma GradeChangesCommute(q: Qualification, id1: string, g1: Grade, id2: string, g2: Grade)
    requires id1 != id2
    ensures HandleGradeChange(HandleGradeChange(q, id1, g1), id2, g2)
         == HandleGradeChange(HandleGradeChange(q, id2, g2), id1, g1)
  {
  }

  /*** Switching level ***/

  /** The level-change handler: the preset's name and four credit fields
      overwrite the qualification's, and the unit list is kept. */
  function HandleLevelChange(q: Qualification, level: Level): (r: Qualification)
    ensures r.units == q.units
    ensures r.requiredPassCredits <= r.requiredMeritCredits <= r.requiredDistinctionCredits == r.totalCredits
    ensures r.name == PresetFor(level).name
    ensures r.totalCredits == PresetFor(level).totalCredits
    ensures r.requiredPassCredits == PresetFor(level).requiredPassCredits
    ensures r.requiredMeritCredits == PresetFor(level).requiredMeritCredits
  {
    var p := PresetFor(level);
    q.(name := p.name,
       totalCredits := p.totalCredits,
       requiredPassCredits := p.requiredPassCredits,
       requiredMeritCredits := p.requiredMeritCredits,
       requiredDistinctionCredits := p.requiredDistinctionCredits)
  }

  /** Switching level twice is switching to the second level. */
  lemma LevelChangeLastWins(q: Qualification, a: Level, b: Level)
    ensures HandleLevelChange(HandleLevelChange(q, a), b) == HandleLevelChange(q, b)
  {
  }

  /** Switching level and entering a grade can be done in either order. */
  lemma LevelAndGradeChangesCommute(q: Qualification, level: Level, id: string, g: Grade)
    ensures HandleGradeChange(HandleLevelChange(q, level), id, g)
         == HandleLevelChange(HandleGradeChange(q, id, g), level)
  {
  }

  /** Switching level keeps the tallies and flags of the calculation; only
      the thresholds, and so the overall grade, can change. */
  lemma LevelChangeKeepsTallies(q: Qualification, level: Level)
    ensures CalculateGrade(HandleLevelChange(q, level)).(overallGrade := U)
         == CalculateGrade(q).(overallGrade := U)
  {
  }

  /** The initial qualification carries the Extended Diploma thresholds:
      selecting that level only renames it. */
  lemma InitialIsExtendedDiploma()
    ensures HandleLevelChange(InitialQualification, ExtendedDiploma)
         == InitialQualification.(name := "Extended Diploma")
  {
  }
}

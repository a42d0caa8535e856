/** The grade aggregator: one pass over the units that sums credits into
    four cascading tallies and clears two completeness flags, followed by
    a comparison of the tallies with the qualification's thresholds. */
module GradeCalculation {
  import opened Types

  /*** Reference definitions ***/

  /** Whether the unit's credits count toward the tally of tier `t`: the unit
      carries an awarded grade ranked at least `t`. The tally of tier `U` is
      the total of every graded unit, including units awarded `U`. */
  predicate CountsToward(u: Unit, t: Grade) {
    u.grade.Some? && Rank(u.grade.value) >= Rank(t)
  }

  /** The credits of the units that count toward tier `t`, summed from the front. */
  function TierCredits(units: seq<Unit>, t: Grade): nat {
    if |units| == 0 then 0
    else (if CountsToward(units[0], t) then units[0].credits else 0) + TierCredits(units[1..], t)
  }

  /** No mandatory unit is left without a grade. */
  predicate MandatoryGraded(units: seq<Unit>) {
    forall i :: 0 <= i < |units| && units[i].isMandatory ==> units[i].grade.Some?
  }

  /** No external unit that is not also mandatory is left without a grade. */
  predicate ExternalGraded(units: seq<Unit>) {
    forall i :: 0 <= i < |units| && units[i].isExternal && !units[i].isMandatory ==> units[i].grade.Some?
  }

  /** The grade a set of tallies earns at tier `g`: `U` is always earned,
      every other tier needs both flags set and its tally at or above the
      qualification's threshold for that tier. */
  predicate Meets(complete: bool, pass: int, merit: int, distinction: int, q: Qualification, g: Grade) {
    match g
    case U => true
    case P => complete && pass >= q.requiredPassCredits
    case M => complete && merit >= q.requiredMeritCredits
    case D => complete && distinction >= q.requiredDistinctionCredits
  }

  /** The result's overall grade is earned by its own tallies and flags. */
  predicate Earned(r: GradeResult, q: Qualification, g: Grade) {
    Meets(r.mandatoryUnitsComplete && r.externalUnitsComplete,
          r.passCredits, r.meritCredits, r.distinctionCredits, q, g)
  }

  /*** The single pass over the units ***/

  /** The running state of the pass: four credit tallies and two flags. */
  datatype Tally = Tally(
    total: nat,
    pass: nat,
    merit: nat,
    distinction: nat,
    mandatoryComplete: bool,
    externalComplete: bool)

  /** Zero tallies, both flags set. */
  const Start := Tally(0, 0, 0, 0, true, true)

  /** One iteration of the pass. A unit with any awarded grade, `U`
      included, adds its credits to the total and to each tier its grade
      reaches; a unit with no grade clears the mandatory flag if it is
      mandatory, and otherwise the external flag if it is external. */
  function Step(t: Tally, u: Unit): (r: Tally)
    ensures r.total == t.total + (if CountsToward(u, U) then u.credits else 0)
    ensures r.pass == t.pass + (if CountsToward(u, P) then u.credits else 0)
    ensures r.merit == t.merit + (if CountsToward(u, M) then u.credits else 0)
    ensures r.distinction == t.distinction + (if CountsToward(u, D) then u.credits else 0)
    ensures r.mandatoryComplete <==> t.mandatoryComplete && !(u.grade.None? && u.isMandatory)
    ensures r.externalComplete <==> t.externalComplete && !(u.grade.None? && u.isExternal && !u.isMandatory)
  {
    match u.grade
    case Some(g) =>
      var t' := t.(total := t.total + u.credits);
      (match g
       case D => t'.(distinction := t'.distinction + u.credits,
                     merit := t'.merit + u.credits,
                     pass := t'.pass + u.credits)
       case M => t'.(merit := t'.merit + u.credits, pass := t'.pass + u.credits)
       case P => t'.(pass := t'.pass + u.credits)
       case U => t')
    case None =>
      if u.isMandatory then t.(mandatoryComplete := false)
      else if u.isExternal then t.(externalComplete := false)
      else t
  }

  /** The pass over `units` from first to last. The tallies cascade, and
      each flag stays set exactly when no unit of its kind is ungraded. */
  function Accumulate(units: seq<Unit>): (t: Tally)
    ensures t.distinction <= t.merit <= t.pass <= t.total
    ensures t.mandatoryComplete <==> MandatoryGraded(units)
    ensures t.externalComplete <==> ExternalGraded(units)
    decreases |units|
  {
    if |units| == 0 then Start
    else
      var prefix := units[..|units| - 1];
      var last := units[|units| - 1];
      var t := Accumulate(prefix);
      assert forall i :: 0 <= i < |prefix| ==> prefix[i] == units[i];
      Step(t, last)
  }

  /** Splitting the unit list splits every tier's credits. */
  lemma {:induction false} TierCreditsAppend(a: seq<Unit>, b: seq<Unit>, t: Grade)
    ensures TierCredits(a + b, t) == TierCredits(a, t) + TierCredits(b, t)
    decreases |a|
  {
    if |a| == 0 {
      assert a + b == b;
    } else {
      assert (a + b)[1..] == a[1..] + b;
      TierCreditsAppend(a[1..], b, t);
    }
  }

  /** The four tallies of the pass are the tier sums of the reference definition. */
  lemma {:induction false} AccumulateSumsTiers(units: seq<Unit>)
    ensures Accumulate(units).total == TierCredits(units, U)
    ensures Accumulate(units).pass == TierCredits(units, P)
    ensures Accumulate(units).merit == TierCredits(units, M)
    ensures Accumulate(units).distinction == TierCredits(units, D)
    decreases |units|
  {
    if |units| > 0 {
      var prefix := units[..|units| - 1];
      var last := units[|units| - 1];
      assert units == prefix + [last];
      AccumulateSumsTiers(prefix);
      forall t: Grade
        ensures TierCredits(units, t) == TierCredits(prefix, t) + (if CountsToward(last, t) then last.credits else 0)
      {
        TierCreditsAppend(prefix, [last], t);
        assert [last][1..] == [];
      }
    }
  }

  /** Inserting a graded unit into the list changes neither flag. */
  lemma InsertGradedKeepsFlags(a: seq<Unit>, u: Unit, b: seq<Unit>)
    requires u.grade.Some?
    ensures MandatoryGraded(a + [u] + b) <==> MandatoryGraded(a + b)
    ensures ExternalGraded(a + [u] + b) <==> ExternalGraded(a + b)
  {
    var s, s' := a + [u] + b, a + b;
    assert forall i :: 0 <= i < |a| ==> s[i] == s'[i];
    assert forall i :: |a| < i < |s| ==> s[i] == s'[i - 1];
    assert forall i :: |a| <= i < |s'| ==> s'[i] == s[i + 1];
  }

  /** Inserting a unit adds its credits to exactly the tiers it counts toward. */
  lemma InsertAddsToTiers(a: seq<Unit>, u: Unit, b: seq<Unit>, t: Grade)
    ensures TierCredits(a + [u] + b, t) == TierCredits(a + b, t) + (if CountsToward(u, t) then u.credits else 0)
  {
    TierCreditsAppend(a + [u], b, t);
    TierCreditsAppend(a, [u], t);
    TierCreditsAppend(a, b, t);
    assert [u][1..] == [];
  }

  /** A unit awarded `U` counts as graded: it adds its credits to the total,
      to no tier tally, and leaves both flags as they would be without it. */
  lemma AwardedUOnlyAddsToTotal(a: seq<Unit>, u: Unit, b: seq<Unit>)
    requires u.grade == Some(U)
    ensures Accumulate(a + [u] + b) == Accumulate(a + b).(total := Accumulate(a + b).total + u.credits)
  {
    AccumulateSumsTiers(a + [u] + b);
    AccumulateSumsTiers(a + b);
    InsertAddsToTiers(a, u, b, U);
    InsertAddsToTiers(a, u, b, P);
    InsertAddsToTiers(a, u, b, M);
    InsertAddsToTiers(a, u, b, D);
    InsertGradedKeepsFlags(a, u, b);
  }

  /*** Threshold comparison ***/

  /** Picks the first of D, M and P whose tally reaches its threshold, and
      `U` when none does or when a completeness flag is cleared; that is,
      the highest-ranked grade the tallies earn. */
  function OverallGrade(complete: bool, pass: nat, merit: nat, distinction: nat, q: Qualification): (g: Grade)
    ensures Meets(complete, pass, merit, distinction, q, g)
    ensures forall h :: Rank(h) > Rank(g) ==> !Meets(complete, pass, merit, distinction, q, h)
    ensures !complete ==> g == U
  {
    if !complete then U
    else if distinction >= q.requiredDistinctionCredits then D
    else if merit >= q.requiredMeritCredits then M
    else if pass >= q.requiredPassCredits then P
    else U
  }

  /** The grade calculation of a qualification. */
  function CalculateGrade(q: Qualification): (r: GradeResult)
    ensures r.totalCredits == TierCredits(q.units, U)
    ensures r.passCredits == TierCredits(q.units, P)
    ensures r.meritCredits == TierCredits(q.units, M)
    ensures r.distinctionCredits == TierCredits(q.units, D)
    ensures r.distinctionCredits <= r.meritCredits <= r.passCredits <= r.totalCredits
    ensures r.mandatoryUnitsComplete <==> MandatoryGraded(q.units)
    ensures r.externalUnitsComplete <==> ExternalGraded(q.units)
    ensures !MandatoryGraded(q.units) || !ExternalGraded(q.units) ==> r.overallGrade == U
    ensures Earned(r, q, r.overallGrade)
    ensures forall h :: Rank(h) > Rank(r.overallGrade) ==> !Earned(r, q, h)
  {
    var t := Accumulate(q.units);
    AccumulateSumsTiers(q.units);
    GradeResult(
      OverallGrade(t.mandatoryComplete && t.externalComplete, t.pass, t.merit, t.distinction, q),
      t.total, t.pass, t.merit, t.distinction,
      t.mandatoryComplete, t.externalComplete)
  }

  /** The calculation as the source writes it: six local variables updated
      by a loop over the units, then the threshold comparison. */
  method CalculateGradeLoop(q: Qualification) returns (r: GradeResult)
    ensures r == CalculateGrade(q)
  {
    var totalCredits: nat, passCredits: nat, meritCredits: nat, distinctionCredits: nat := 0, 0, 0, 0;
    var mandatoryUnitsComplete, externalUnitsComplete := true, true;
    for i := 0 to |q.units|
      invariant Tally(totalCredits, passCredits, meritCredits, distinctionCredits,
                      mandatoryUnitsComplete, externalUnitsComplete) == Accumulate(q.units[..i])
    {
      var unit := q.units[i];
      assert q.units[..i + 1][..i] == q.units[..i];
      if unit.grade.Some? {
        totalCredits := totalCredits + unit.credits;
        match unit.grade.value {
          case D =>
            distinctionCredits := distinctionCredits + unit.credits;
            meritCredits := meritCredits + unit.credits;
            passCredits := passCredits + unit.credits;
          case M =>
            meritCredits := meritCredits + unit.credits;
            passCredits := passCredits + unit.credits;
          case P =>
            passCredits := passCredits + unit.credits;
          case U =>
        }
      } else if unit.isMandatory {
        mandatoryUnitsComplete := false;
      } else if unit.isExternal {
        externalUnitsComplete := false;
      }
    }
    assert q.units[..|q.units|] == q.units;

    var overallGrade := U;
    if mandatoryUnitsComplete && externalUnitsComplete {
      if distinctionCredits >= q.requiredDistinctionCredits {
        overallGrade := D;
      } else if meritCredits >= q.requiredMeritCredits {
        overallGrade := M;
      } else if passCredits >= q.requiredPassCredits {
        overallGrade := P;
      }
    }
    r := GradeResult(overallGrade, totalCredits, passCredits, meritCredits, distinctionCredits,
                     mandatoryUnitsComplete, externalUnitsComplete);
  }
}

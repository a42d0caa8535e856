/** Entering or raising grades never lowers the overall grade: the tier
    tallies only grow, the completeness flags only go from cleared to set,
    and the overall grade is the highest grade the tallies earn. */
module Monotonicity {
  import opened Types
  import opened GradeCalculation
  import opened Handlers

  /** A grade entry that is no worse than the one it replaces: any grade
      replaces "not yet graded", and an awarded grade is replaced only by
      one ranked at least as high. */
  predicate Improves(before: Option<Grade>, after: Option<Grade>) {
    before.None? || (after.Some? && Rank(before.value) <= Rank(after.value))
  }

  /** `b` is `a` with some grades improved and nothing else changed. */
  predicate UnitsImprove(a: seq<Unit>, b: seq<Unit>) {
    && |a| == |b|
    && forall i :: 0 <= i < |a| ==> SameExceptGrade(a[i], b[i]) && Improves(a[i].grade, b[i].grade)
  }

  /** Improving grades never lowers any tier's credits. */
  lemma {:induction false} TierCreditsGrow(a: seq<Unit>, b: seq<Unit>, t: Grade)
    requires UnitsImprove(a, b)
    ensures TierCredits(a, t) <= TierCredits(b, t)
    decreases |a|
  {
    if |a| > 0 {
      assert UnitsImprove(a[1..], b[1..]) by {
        forall i | 0 <= i < |a[1..]|
          ensures SameExceptGrade(a[1..][i], b[1..][i]) && Improves(a[1..][i].grade, b[1..][i].grade)
        {
          assert a[1..][i] == a[i + 1] && b[1..][i] == b[i + 1];
        }
      }
      TierCreditsGrow(a[1..], b[1..], t);
    }
  }

  /** The overall grade never drops when the tallies grow and the
      completeness can only go from false to true. */
  lemma OverallGradeGrows(c1: bool, p1: nat, m1: nat, d1: nat,
                          c2: bool, p2: nat, m2: nat, d2: nat, q: Qualification)
    requires c1 ==> c2
    requires p1 <= p2 && m1 <= m2 && d1 <= d2
    ensures Rank(OverallGrade(c1, p1, m1, d1, q)) <= Rank(OverallGrade(c2, p2, m2, d2, q))
  {
  }

  /** Improving any set of units' grades never lowers the overall grade. */
  lemma ImprovementNeverLowersGrade(q: Qualification, units: seq<Unit>)
    requires UnitsImprove(q.units, units)
    ensures Rank(CalculateGrade(q).overallGrade) <= Rank(CalculateGrade(q.(units := units)).overallGrade)
    ensures CalculateGrade(q).mandatoryUnitsComplete ==> CalculateGrade(q.(units := units)).mandatoryUnitsComplete
    ensures CalculateGrade(q).externalUnitsComplete ==> CalculateGrade(q.(units := units)).externalUnitsComplete
    ensures CalculateGrade(q).totalCredits <= CalculateGrade(q.(units := units)).totalCredits
    ensures CalculateGrade(q).passCredits <= CalculateGrade(q.(units := units)).passCredits
    ensures CalculateGrade(q).meritCredits <= CalculateGrade(q.(units := units)).meritCredits
    ensures CalculateGrade(q).distinctionCredits <= CalculateGrade(q.(units := units)).distinctionCredits
  {
    var r1, r2 := CalculateGrade(q), CalculateGrade(q.(units := units));
    TierCreditsGrow(q.units, units, U);
    TierCreditsGrow(q.units, units, P);
    TierCreditsGrow(q.units, units, M);
    TierCreditsGrow(q.units, units, D);
    assert r1.overallGrade == OverallGrade(r1.mandatoryUnitsComplete && r1.externalUnitsComplete,
                                           r1.passCredits, r1.meritCredits, r1.distinctionCredits, q);
    assert r2.overallGrade == OverallGrade(r2.mandatoryUnitsComplete && r2.externalUnitsComplete,
                                           r2.passCredits, r2.meritCredits, r2.distinctionCredits, q);
    OverallGradeGrows(r1.mandatoryUnitsComplete && r1.externalUnitsComplete,
                      r1.passCredits, r1.meritCredits, r1.distinctionCredits,
                      r2.mandatoryUnitsComplete && r2.externalUnitsComplete,
                      r2.passCredits, r2.meritCredits, r2.distinctionCredits, q);
  }

  /** Raising one awarded grade (P to M to D) never lowers the overall grade. */
  lemma RaisingGradeNeverLowers(q: Qualification, i: int, g: Grade)
    requires 0 <= i < |q.units|
    requires q.units[i].grade.Some? && Rank(q.units[i].grade.value) <= Rank(g)
    ensures Rank(CalculateGrade(q).overallGrade)
         <= Rank(CalculateGrade(q.(units := q.units[i := q.units[i].(grade := Some(g))])).overallGrade)
  {
    ImprovementNeverLowersGrade(q, q.units[i := q.units[i].(grade := Some(g))]);
  }

  /** Giving a not-yet-graded unit any grade never lowers the overall grade. */
  lemma GradingUngradedNeverLowers(q: Qualification, i: int, g: Grade)
    requires 0 <= i < |q.units|
    requires q.units[i].grade.None?
    ensures Rank(CalculateGrade(q).overallGrade)
         <= Rank(CalculateGrade(q.(units := q.units[i := q.units[i].(grade := Some(g))])).overallGrade)
  {
    ImprovementNeverLowersGrade(q, q.units[i := q.units[i].(grade := Some(g))]);
  }

  /** Through the grade-change handler: entering a grade that improves on
      what every unit with that id carries never lowers the overall grade. */
  lemma GradeChangeNeverLowers(q: Qualification, id: string, g: Grade)
    requires forall i :: 0 <= i < |q.units| && q.units[i].id == id ==> Improves(q.units[i].grade, Some(g))
    ensures Rank(CalculateGrade(q).overallGrade) <= Rank(CalculateGrade(HandleGradeChange(q, id, g)).overallGrade)
  {
    ImprovementNeverLowersGrade(q, HandleGradeChange(q, id, g).units);
  }
}

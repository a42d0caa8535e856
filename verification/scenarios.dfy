/** Concrete calculations: the initial all-ungraded catalogue, a two-unit
    Certificate graded in several ways, and one-unit Certificates whose
    Merit or Pass tally sits exactly on, or one credit below, its threshold. */
module Scenarios {
  import opened Types
  import opened GradeCalculation
  import opened Presets
  import opened Handlers

  /** Units without a grade contribute to no tier. */
  lemma {:induction false} UngradedCountNothing(units: seq<Unit>, t: Grade)
    requires forall i :: 0 <= i < |units| ==> units[i].grade.None?
    ensures TierCredits(units, t) == 0
    decreases |units|
  {
    if |units| > 0 {
      assert forall i :: 0 <= i < |units[1..]| ==> units[1..][i] == units[i + 1];
      UngradedCountNothing(units[1..], t);
    }
  }

  /** The catalogue starts with every unit ungraded. */
  lemma CatalogueUngraded()
    ensures forall i :: 0 <= i < |InitialUnits| ==> InitialUnits[i].grade.None?
  {
  }

  /** Every external unit of the catalogue is also mandatory. */
  lemma CatalogueExternalAreMandatory()
    ensures forall i :: 0 <= i < |InitialUnits| && InitialUnits[i].isExternal ==> InitialUnits[i].isMandatory
  {
  }

  /** The catalogue's first unit is mandatory. */
  lemma CatalogueStartsMandatory()
    ensures |InitialUnits| > 0 && InitialUnits[0].isMandatory
  {
  }

  /** Calculating on the initial qualification: all tallies zero, the
      mandatory flag cleared and overall grade U. The external flag stays
      set, because every external unit of the catalogue is mandatory and an
      ungraded unit that is both clears only the mandatory flag. */
  lemma InitialQualificationResult()
    ensures CalculateGrade(InitialQualification) == GradeResult(U, 0, 0, 0, 0, false, true)
  {
    CatalogueUngraded();
    CatalogueExternalAreMandatory();
    CatalogueStartsMandatory();
    var units := InitialQualification.units;
    assert units == InitialUnits;
    UngradedCountNothing(units, U);
    UngradedCountNothing(units, P);
    UngradedCountNothing(units, M);
    UngradedCountNothing(units, D);
    assert !MandatoryGraded(units);
  }

  /** Two mandatory 90-credit units, the second of them external, switched
      to the Certificate level (thresholds 135, 158 and 180). */
  function TwoUnitCertificate(first: Option<Grade>, second: Option<Grade>): Qualification {
    var units := [
      Unit("1", 1, "Exploring Business", 90, true, false, first, 90),
      Unit("2", 2, "Developing a Marketing Campaign", 90, true, true, second, 90)];
    HandleLevelChange(InitialQualification.(units := units), Certificate)
  }

  /** Distinction credits exactly equal to the threshold earn D. */
  lemma TwoDistinctionsEarnD()
    ensures CalculateGrade(TwoUnitCertificate(Some(D), Some(D))) == GradeResult(D, 180, 180, 180, 180, true, true)
  {
  }

  /** A Distinction counts toward the Merit tally: D and M earn M. */
  lemma DistinctionAndMeritEarnM()
    ensures CalculateGrade(TwoUnitCertificate(Some(D), Some(M))) == GradeResult(M, 180, 180, 180, 90, true, true)
  {
  }

  /** M and P reach only the Pass threshold. */
  lemma MeritAndPassEarnP()
    ensures CalculateGrade(TwoUnitCertificate(Some(M), Some(P))) == GradeResult(P, 180, 180, 90, 0, true, true)
  {
  }

  /** An awarded U adds to the total and completes both flags, but reaches
      no tier, so the qualification falls short of Pass. */
  lemma AwardedUFallsShort()
    ensures CalculateGrade(TwoUnitCertificate(Some(D), Some(U))) == GradeResult(U, 180, 90, 90, 90, true, true)
  {
  }

  /** An ungraded unit that is mandatory and external clears only the
      mandatory flag, and the overall grade is U. */
  lemma UngradedMandatoryExternalClearsMandatoryOnly()
    ensures CalculateGrade(TwoUnitCertificate(Some(D), None)) == GradeResult(U, 90, 90, 90, 90, false, true)
  {
  }

  /** One mandatory, external unit of the given grade and credits, switched
      to the Certificate level (thresholds 135, 158 and 180). */
  function OneUnitCertificate(grade: Grade, credits: nat): Qualification {
    var units := [Unit("1", 1, "Exploring Business", credits, true, true, Some(grade), credits)];
    HandleLevelChange(InitialQualification.(units := units), Certificate)
  }

  /** A Merit tally exactly equal to the Merit threshold earns M. */
  lemma MeritOnThresholdEarnsM()
    ensures CalculateGrade(OneUnitCertificate(M, 158)) == GradeResult(M, 158, 158, 158, 0, true, true)
  {
  }

  /** One credit short of the Merit threshold falls through to P. */
  lemma MeritBelowThresholdEarnsP()
    ensures CalculateGrade(OneUnitCertificate(M, 157)) == GradeResult(P, 157, 157, 157, 0, true, true)
  {
  }

  /** A Pass tally exactly equal to the Pass threshold earns P. */
  lemma PassOnThresholdEarnsP()
    ensures CalculateGrade(OneUnitCertificate(P, 135)) == GradeResult(P, 135, 135, 0, 0, true, true)
  {
  }

  /** One credit short of the Pass threshold leaves the grade at U. */
  lemma PassBelowThresholdEarnsU()
    ensures CalculateGrade(OneUnitCertificate(P, 134)) == GradeResult(U, 134, 134, 0, 0, true, true)
  {
  }
}

# BTEC grade calculator — Dafny model

This project models the core of a BTEC Level 3 National grade calculator.
A qualification is a list of units. Each unit carries a credit weight, a
mandatory flag, an external flag, and either no grade yet or one of the
awarded grades D (Distinction), M (Merit), P (Pass) or U (Ungraded). The
calculator makes one pass over the units and sums their credits into four
tallies. The tallies cascade: a D counts toward the Distinction, Merit and
Pass tallies, and an M toward Merit and Pass. Every awarded grade, U
included, counts toward the total. During the same pass, an ungraded
mandatory unit clears the "mandatory units complete" flag. An ungraded
unit that is external but not mandatory clears the "external units
complete" flag. The overall grade is U unless both flags are set.
Otherwise it is the first of D, M and P whose tally reaches the
qualification's threshold, and U if none does. Around this calculation
sit two form updates, entering one unit's grade and switching the
qualification level, and two constant tables: the five level presets and
the initial 35-unit Extended Diploma in Business catalogue.

Modules, one file each:

- `Types` (`types.dfy`) holds the records of `src/types.ts`. `Grade` is the
  closed four-value enumeration of line 1. `Unit` (lines 3-12) has its
  grade as `Option<Grade>`, so "not yet graded" (`None`) is a different
  state from the awarded grade `Some(U)`. `Qualification` covers lines
  14-21 and `GradeResult` lines 23-31. `Rank` orders the grades U < P < M < D.
- `GradeCalculation` (`grade_calculation.dfy`) models `calculateGrade`. It
  has a recursive fold (`Accumulate` over `Step`), the threshold comparison
  (`OverallGrade`) and the whole function (`CalculateGrade`). It also has
  `CalculateGradeLoop`, a loop that mirrors the source's `forEach` and is
  proved equal to the fold. The fold is checked against an independent
  reference: `TierCredits` sums the credits of the units whose awarded
  grade ranks at least a tier, with the total being the tier-U sum. The
  flags are checked against two quantified predicates, `MandatoryGraded`
  and `ExternalGraded`. The overall grade is specified as the
  highest-ranked grade the tallies earn (`Meets`).
- `Presets` (`presets.dfy`) holds the `qualificationLevels` table and
  `initialQualification`.
- `Handlers` (`handlers.dfy`) holds `handleGradeChange` and
  `handleLevelChange`, written as pure functions from the previous
  qualification to the next.
- `Monotonicity` (`monotonicity.dfy`) proves that entering or raising
  grades never lowers the overall grade.
- `Scenarios` (`scenarios.dfy`) holds concrete calculations: the initial
  catalogue; a two-unit Certificate graded in several ways, whose
  Distinction tally lands exactly on its threshold when both units are D;
  and one-unit Certificates whose Merit or Pass tally sits exactly on, or
  one credit below, its threshold.

Behaviours of the code that the model keeps as written (line numbers are
in `src/components/BTECCalculator.tsx`):

- An awarded U counts as graded (`if (unit.grade)`, line 322). It adds its
  credits to `totalCredits`, adds nothing to the tier tallies, and skips
  the completeness checks (`AwardedUOnlyAddsToTotal`).
- The external check is an `else if` after the mandatory one (lines
  338-342). An ungraded unit that is both mandatory and external
  therefore clears only the mandatory flag.
- Every external unit in the initial catalogue is also mandatory. On the
  all-ungraded catalogue `externalUnitsComplete` therefore stays true
  (`InitialQualificationResult`).
- Switching level keeps the units and overwrites only the preset's fields
  (lines 376-379).
- The catalogue's seven mandatory units carry 720 credits, below the
  Extended Diploma's 1080-credit Distinction threshold. The
  threshold-boundary scenarios therefore use small Certificate
  qualifications.

## Model

| member | source | states |
|---|---|---|
| GradeCalculation.Step | src/components/BTECCalculator.tsx:321-342 | One iteration: any awarded grade, U included, adds the unit's credits to the total. The credits also go to each tier the grade ranks at or above (D to D, M and P; M to M and P; P to P). An ungraded unit clears the mandatory flag if it is mandatory, and otherwise the external flag if it is external and not mandatory. |
| GradeCalculation.Accumulate | src/components/BTECCalculator.tsx:314-343 | The pass from the first unit to the last keeps distinction ≤ merit ≤ pass ≤ total. The mandatory flag stays set exactly when no mandatory unit is ungraded. The external flag stays set exactly when no ungraded unit is external and not mandatory. |
| GradeCalculation.AccumulateSumsTiers | src/components/BTECCalculator.tsx:322-337 | The four tallies of the pass equal the reference sums: the total is the credit sum over every unit with a non-null grade (U included), and each tier tally is the sum over the units graded at or above that tier. |
| GradeCalculation.InsertAddsToTiers | src/components/BTECCalculator.tsx:322-337 | Adding a unit anywhere in the list adds its credits to exactly the tiers it counts toward; the order of units does not matter. |
| GradeCalculation.InsertGradedKeepsFlags | src/components/BTECCalculator.tsx:338-342 | A unit with any awarded grade, U included, never touches either completeness flag. |
| GradeCalculation.AwardedUOnlyAddsToTotal | src/components/BTECCalculator.tsx:322-342 | A unit awarded U adds its credits to totalCredits only. The pass, merit and distinction tallies and both flags are what they would be without that unit. |
| GradeCalculation.OverallGrade | src/components/BTECCalculator.tsx:345-354 | The chosen grade is earned, and no higher-ranked grade is. With a cleared flag the grade is U. Otherwise it is the highest of D, M, P whose tally is at or above its threshold, where a tally exactly equal to its threshold qualifies, and U when none is. |
| GradeCalculation.CalculateGrade | src/components/BTECCalculator.tsx:313-365 | The result's tallies are the reference tier sums and cascade (distinction ≤ merit ≤ pass ≤ total). Each flag is true exactly when no unit of its kind is ungraded. An ungraded mandatory unit, or an ungraded external non-mandatory unit, forces U whatever the credits. The overall grade is the highest grade earned. |
| GradeCalculation.CalculateGradeLoop | src/components/BTECCalculator.tsx:313-365 | The loop with six local variables, followed by the if-chain, returns exactly the result of the recursive fold. |
| Presets.PresetFor | src/components/BTECCalculator.tsx:180-266 | In each of the five presets requiredPass ≤ requiredMerit ≤ requiredDistinction = totalCredits. Pass and Merit are 75% and 87.5% of the total, rounded half up. |
| Handlers.SetGrade | src/components/BTECCalculator.tsx:386-388 | The map keeps the list's length and order. Every unit whose id equals the target gets the new grade. Every other unit is unchanged. No field other than `grade` changes. |
| Handlers.HandleGradeChange | src/components/BTECCalculator.tsx:383-390 | The qualification's name and thresholds are kept. Each unit whose id matches gets the new grade, and every other unit is unchanged, position by position. |
| Handlers.GradeChangeIsPointUpdate | src/components/BTECCalculator.tsx:383-390 | When ids are unique, entering a grade for unit i's id changes that one unit's grade and nothing else. |
| Handlers.GradeChangeUnknownId | src/components/BTECCalculator.tsx:386-388 | Entering a grade for an id that no unit has leaves the qualification unchanged. |
| Handlers.GradeChangeLastWins | src/components/BTECCalculator.tsx:383-390 | Entering two grades for the same id keeps the second. |
| Handlers.GradeChangesCommute | src/components/BTECCalculator.tsx:383-390 | Grades entered for two different ids can be entered in either order. |
| Handlers.HandleLevelChange | src/components/BTECCalculator.tsx:373-379 | The unit list is kept. The name and the four credit fields become the preset's, so the result's thresholds are ordered with Distinction equal to the total. |
| Handlers.LevelChangeLastWins | src/components/BTECCalculator.tsx:373-379 | Switching level twice is the same as switching to the second level. |
| Handlers.LevelAndGradeChangesCommute | src/components/BTECCalculator.tsx:373-390 | Switching level and entering a grade can be done in either order. |
| Handlers.LevelChangeKeepsTallies | src/components/BTECCalculator.tsx:376-379 | Switching level changes none of the four tallies or two flags of the calculation; only the overall grade can change. |
| Handlers.InitialIsExtendedDiploma | src/components/BTECCalculator.tsx:249-273 | The initial qualification's thresholds are the Extended Diploma preset's (1080, 810, 945, 1080). Selecting that level changes only the name. |
| Monotonicity.TierCreditsGrow | src/components/BTECCalculator.tsx:322-337 | Giving ungraded units a grade, or raising awarded grades, never lowers any tier's credits. |
| Monotonicity.OverallGradeGrows | src/components/BTECCalculator.tsx:345-354 | With larger tallies, and completeness that can only go from false to true, the overall grade never ranks lower. |
| Monotonicity.ImprovementNeverLowersGrade | src/components/BTECCalculator.tsx:321-354 | Improving any units' grades, with nothing else changed, never lowers the overall grade, any tally, or either flag. |
| Monotonicity.RaisingGradeNeverLowers | src/components/BTECCalculator.tsx:321-354 | Raising one unit's awarded grade (P to M to D) never lowers the overall grade. |
| Monotonicity.GradingUngradedNeverLowers | src/components/BTECCalculator.tsx:321-354 | Giving a null-graded unit any grade never lowers the overall grade. |
| Monotonicity.GradeChangeNeverLowers | src/components/BTECCalculator.tsx:383-390 | A grade entered through the handler that improves on every unit with that id never lowers the overall grade. |
| Scenarios.UngradedCountNothing | src/components/BTECCalculator.tsx:321-343 | Units without a grade contribute nothing to any tally. |
| Scenarios.InitialQualificationResult | src/components/BTECCalculator.tsx:268-311 | On the all-ungraded catalogue the result is U with all tallies 0. The mandatory flag is false. The external flag is true, because every external unit in the catalogue is mandatory. |
| Scenarios.TwoDistinctionsEarnD | src/components/BTECCalculator.tsx:345-348 | Distinction credits exactly equal to the Certificate's 180 threshold earn D. |
| Scenarios.DistinctionAndMeritEarnM | src/components/BTECCalculator.tsx:324-350 | A D counts toward Merit: a D and an M give 180 merit credits and earn M. |
| Scenarios.MeritAndPassEarnP | src/components/BTECCalculator.tsx:345-352 | An M and a P reach only the Pass threshold. |
| Scenarios.AwardedUFallsShort | src/components/BTECCalculator.tsx:322-354 | An awarded U adds to the total and leaves both flags set, but reaches no tier, so the result is U. |
| Scenarios.UngradedMandatoryExternalClearsMandatoryOnly | src/components/BTECCalculator.tsx:338-342 | An ungraded unit that is both mandatory and external clears only the mandatory flag, and the grade is U. |
| Scenarios.MeritOnThresholdEarnsM | src/components/BTECCalculator.tsx:345-350 | A Merit tally of 158 against the Certificate's 158 threshold earns M. |
| Scenarios.MeritBelowThresholdEarnsP | src/components/BTECCalculator.tsx:345-352 | A Merit tally one credit below the threshold (157) falls through to P. |
| Scenarios.PassOnThresholdEarnsP | src/components/BTECCalculator.tsx:345-352 | A Pass tally of 135 against the Certificate's 135 threshold earns P. |
| Scenarios.PassBelowThresholdEarnsU | src/components/BTECCalculator.tsx:345-354 | A Pass tally one credit below the threshold (134) leaves the grade at U. |

## Left out

- The styling theme, the application shell, the React state hooks, the rendered form, tabs, accordions and alerts, and the mandatory/optional unit filters. None of these affects the calculation.
- The progress-bar percentages. They are floating-point display arithmetic.
- The display-only preset fields: `glh`, `tqt`, `structure` and `description`. The level merge also copies them into the qualification object, but nothing in the calculation reads them. The model's `Preset` carries only the name and the four credit fields.
- The UI state that the level handler also resets (the selected level and the cleared result).
- Numbers: JavaScript numbers are modelled as unbounded integers, and `Unit.credits` as a `nat`. The model therefore has no negative or fractional credits and no floating-point rounding. The cascade ordering of the tallies depends on credits not being negative.
- Unit id uniqueness: the source does not enforce it. It is a precondition of `Handlers.GradeChangeIsPointUpdate` only. Uniqueness of the 35 catalogue ids is not proved.
- The truthiness test `if (unit.grade)`: every grade string is non-empty, so the test is true exactly for a non-null grade. It is modelled as `grade.Some?`.
- Determinism of the calculation is not stated as a lemma. Every Dafny function is deterministic.

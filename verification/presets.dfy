/** The constant configuration of the calculator: the five qualification
    levels with their credit thresholds, and the initial Extended Diploma
    unit catalogue with every unit ungraded. */
module Presets {
  import opened Types

  /** The five qualification levels a user can select. */
  datatype Level = Certificate | ExtendedCertificate | Foundation | Diploma | ExtendedDiploma

  /** The fields of a level preset that the level merge copies into the
      qualification and that the calculation reads. */
  datatype Preset = Preset(
    name: string,
    totalCredits: int,
    requiredPassCredits: int,
    requiredMeritCredits: int,
    requiredDistinctionCredits: int)

  /** The preset table. Every level's thresholds are ordered, the
      Distinction threshold is the level's full credit total, and the Pass
      and Merit thresholds are 75% and 87.5% of it, rounded half up. */
  function PresetFor(level: Level): (p: Preset)
    ensures p.requiredPassCredits <= p.requiredMeritCredits <= p.requiredDistinctionCredits
    ensures p.requiredDistinctionCredits == p.totalCredits
    ensures p.requiredPassCredits == (3 * p.totalCredits + 2) / 4
    ensures p.requiredMeritCredits == (7 * p.totalCredits + 4) / 8
  {
    match level
    case Certificate => Preset("Certificate", 180, 135, 158, 180)
    case ExtendedCertificate => Preset("Extended Certificate", 360, 270, 315, 360)
    case Foundation => Preset("Foundation Diploma", 510, 383, 446, 510)
    case Diploma => Preset("Diploma", 720, 540, 630, 720)
    case ExtendedDiploma => Preset("Extended Diploma", 1080, 810, 945, 1080)
  }

  /** A catalogue unit before any grade is entered. */
  function Ungraded(id: string, number: int, title: string, size: int,
                    isMandatory: bool, isExternal: bool, credits: nat): Unit
  {
    Unit(id, number, title, size, isMandatory, isExternal, None, credits)
  }

  /** The Extended Diploma in Business catalogue: seven mandatory units
      (three of them external) and twenty-eight optional units. */
  const InitialUnits: seq<Unit> := [
    Ungraded("1", 1, "Exploring Business", 90, true, false, 90),
    Ungraded("2", 2, "Developing a Marketing Campaign", 90, true, true, 90),
    Ungraded("3", 3, "Personal and Business Finance", 120, true, true, 120),
    Ungraded("4", 4, "Managing an Event", 90, true, false, 90),
    Ungraded("5", 5, "International Business", 90, true, false, 90),
    Ungraded("6", 6, "Principles of Management", 120, true, false, 120),
    Ungraded("7", 7, "Business Decision Making", 120, true, true, 120),
    Ungraded("8", 8, "Recruitment and Selection Process", 60, false, false, 60),
    Ungraded("9", 9, "Team Building in Business", 60, false, false, 60),
    Ungraded("10", 10, "Recording Financial Transactions", 60, false, false, 60),
    Ungraded("11", 11, "Final Accounts for Public Limited Companies", 60, false, false, 60),
    Ungraded("12", 12, "Financial Statements for Specific Businesses", 60, false, false, 60),
    Ungraded("13", 13, "Cost and Management Accounting", 60, false, false, 60),
    Ungraded("14", 14, "Investigating Customer Service", 60, false, false, 60),
    Ungraded("15", 15, "Investigating Retail Business", 60, false, false, 60),
    Ungraded("16", 16, "Visual Merchandising", 60, false, false, 60),
    Ungraded("17", 17, "Digital Marketing", 60, false, false, 60),
    Ungraded("18", 18, "Creative Promotion", 60, false, false, 60),
    Ungraded("19", 19, "Pitching for a New Business", 60, false, false, 60),
    Ungraded("20", 20, "Investigating Corporate Social Responsibility", 60, false, false, 60),
    Ungraded("21", 21, "Training and Development", 60, false, false, 60),
    Ungraded("22", 22, "Market Research", 60, false, false, 60),
    Ungraded("23", 23, "The English Legal System", 60, false, false, 60),
    Ungraded("24", 24, "Employment Law", 60, false, false, 60),
    Ungraded("25", 25, "Aspects of Civil Liability Affecting Business", 60, false, false, 60),
    Ungraded("26", 26, "Aspects of Criminal Law Impacting on Business and Individuals", 60, false, false, 60),
    Ungraded("27", 27, "Work Experience in Business", 60, false, false, 60),
    Ungraded("28", 28, "Branding", 60, false, false, 60),
    Ungraded("29", 29, "Relationship Marketing", 60, false, false, 60),
    Ungraded("30", 30, "Legal Principles and Professional Ethics in Financial Services", 60, false, false, 60),
    Ungraded("31", 31, "Effective Management of Personal Debt", 60, false, false, 60),
    Ungraded("32", 32, "Buying for Business", 60, false, false, 60),
    Ungraded("33", 33, "Supply Chain Operations", 60, false, false, 60),
    Ungraded("34", 34, "Investment Opportunities and Financial Planning", 60, false, false, 60),
    Ungraded("35", 35, "Insurance Principles and Policies", 60, false, false, 60)
  ]

  /** The qualification the calculator starts with. */
  const InitialQualification: Qualification :=
    Qualification("BTEC Level 3 National Extended Diploma in Business", 1080, 810, 945, 1080, InitialUnits)
}

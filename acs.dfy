/** The integral values of the category enumerations the model refers to (src/ACS.h).
    MaritalAgeCat, Marital and the collapsed household-type codes are not among
    them; where they are needed they appear as parameters or datatype variants. */
module Acs {
  // ACS::Sex
  const Male: int := 1
  const Female: int := 2
  const SexSize: nat := 2

  // ACS::Race
  const White: int := 1
  const Black: int := 2
  const AmericanIndianAlaskaNative: int := 3
  const Asian: int := 4
  const HawaiianPacific: int := 5
  const SomeOther: int := 6
  const TwoOrMore: int := 7

  // ACS::Ethnicity
  const NotHispanic: int := 1
  const Hispanic: int := 2

  // ACS::Origin
  const Hisp: int := 1
  const WhiteNH: int := 2
  const BlackNH: int := 3
  const AmericanAlaskanNH: int := 4
  const AsianNH: int := 5
  const HawaiianNH: int := 6
  const SomeOtherNH: int := 7
  const TwoNH: int := 8
  const OriginSize: nat := 8

  // ACS::Education
  const Less9thGrade: int := 1
  const Grade9To12: int := 2
  const HighSchool: int := 3
  const SomeCollege: int := 4
  const AssociateDegree: int := 5
  const BachelorsDegree: int := 6
  const GraduateDegree: int := 7
  const EducationSize: nat := 7

  // ACS::EduAgeCat
  const Age18To24: int := 1
  const Age25To34: int := 2
  const Age35To44: int := 3
  const Age45To64: int := 4
  const Age65Over: int := 5
  const EduAgeCatSize: nat := 5

  // ACS::AgeCat runs from Age_0_4 = 1 to Age_85_100 = 23
  const AgeCatSize: nat := 23

  // ACS::HHType, ACS::HHSize, ACS::HHIncome
  const HHTypeSize: nat := 4
  const HHSizeSize: nat := 7
  const HHSize7: int := 7
  const HHIncomeSize: nat := 10

  // ACS::RaceMarginalVar: ORG followed by 23 male and 23 female age columns
  const RaceMarginalVarSize: nat := 47

  // NHANES
  const NhanesAge35To44: int := 1
  const NhanesAge45To54: int := 2
  const NhanesAge55To64: int := 3
  const NhanesAge65To74: int := 4
  const NhanesAge75Over: int := 5
  const NhanesWhiteNH: int := 1
  const NhanesBlackNH: int := 2
  const NhanesHsOrLess: int := 1
  const NhanesSomeCollege: int := 2

  // Violence
  const ViolenceAge14To34: int := 1
  const ViolenceAge35To64: int := 2
  const ViolenceAge65Over: int := 3
  const ViolenceHisp: int := 1
  const ViolenceWhiteNH: int := 2
  const ViolenceBlackNH: int := 3
  const ViolenceOtherNH: int := 4

  /** ACS::Estimates, together with the marital and gender estimate types the
      other code generation refers to. */
  datatype Estimates = EstRace | EstEducation | EstHHType | EstHHSize | EstHHIncome | EstGQ | EstMarital | EstGender
}

/** The value types shared by the whole application: the user profile, a
    scenario with its optional decision, and the three steps of a session. */
module Types {

  datatype Option<+T> = None | Some(value: T)

  datatype UserRole = Student | Teacher | Parent | Administrator

  datatype ExperienceLevel = Beginner | Intermediate | Advanced

  datatype EducationalSetting = K12 | HigherEducation | ProfessionalDevelopment

  /** The classification a user gives a scenario. */
  datatype Decision = Hopeful | Fearful

  /** The three screens of a session, in their usual order. */
  datatype Step = QuestionnaireStep | ScenariosStep | ResultsStep

  datatype UserProfile = UserProfile(
    role: UserRole,
    experienceLevel: ExperienceLevel,
    educationalSetting: EducationalSetting,
    challenges: string)

  /** A scenario; `decision` is `None` until the user swipes it. */
  datatype Scenario = Scenario(id: string, text: string, decision: Option<Decision>)

  /** The string values the application uses for each enumeration. */
  function RoleName(r: UserRole): (s: string)
    ensures |s| > 0
  {
    match r
    case Student => "student"
    case Teacher => "teacher"
    case Parent => "parent"
    case Administrator => "administrator"
  }

  function SettingName(e: EducationalSetting): (s: string)
    ensures |s| > 0
  {
    match e
    case K12 => "k-12"
    case HigherEducation => "higher-education"
    case ProfessionalDevelopment => "professional-development"
  }

  /** Different roles have different names, and so do different settings. */
  lemma NamesInjective(a: UserRole, b: UserRole, e: EducationalSetting, f: EducationalSetting)
    ensures RoleName(a) == RoleName(b) ==> a == b
    ensures SettingName(e) == SettingName(f) ==> e == f
  {
  }

  /** The ids of a scenario list, in order. */
  function Ids(xs: seq<Scenario>): (r: seq<string>)
    ensures |r| == |xs|
    ensures forall k :: 0 <= k < |xs| ==> r[k] == xs[k].id
  {
    seq(|xs|, k requires 0 <= k < |xs| => xs[k].id)
  }

  /** The texts of a scenario list, in order. */
  function Texts(xs: seq<Scenario>): (r: seq<string>)
    ensures |r| == |xs|
    ensures forall k :: 0 <= k < |xs| ==> r[k] == xs[k].text
  {
    seq(|xs|, k requires 0 <= k < |xs| => xs[k].text)
  }

  /** No id occurs twice in the list. */
  predicate DistinctIds(xs: seq<Scenario>)
  {
    forall i, j :: 0 <= i < j < |xs| ==> xs[i].id != xs[j].id
  }
}

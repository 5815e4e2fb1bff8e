/** The questionnaire form: four fields with their defaults, and a submit
    handler that rejects blank challenges and otherwise records the profile
    in the store, which moves the session on to the scenarios. */
module Questionnaire {
  import opened Types
  import opened Text
  import opened Store

  const BlankChallengesAlert: string := "Please describe your challenges with digital education."

  /** The profile a submission with these field values produces, or `None`
      when `challenges.trim()` is empty. The challenges are kept as typed,
      not trimmed. */
  function ProfileFor(role: UserRole, level: ExperienceLevel, setting: EducationalSetting, challenges: string)
    : (r: Option<UserProfile>)
    ensures r.None? <==> Blank(challenges)
    ensures r.Some? ==> r.value == UserProfile(role, level, setting, challenges)
  {
    if Trim(challenges) == [] then None else Some(UserProfile(role, level, setting, challenges))
  }

  class QuestionnaireForm {
    const store: SessionStore
    var role: UserRole
    var experienceLevel: ExperienceLevel
    var educationalSetting: EducationalSetting
    var challenges: string
    var isSubmitting: bool
    /** The browser alerts shown so far. */
    var alerts: seq<string>

    /** The form as first shown: student, beginner, K-12, no challenges. */
    constructor (s: SessionStore)
      ensures store == s
      ensures role == Student && experienceLevel == Beginner && educationalSetting == K12
      ensures challenges == "" && !isSubmitting && alerts == []
    {
      store := s;
      role, experienceLevel, educationalSetting := Student, Beginner, K12;
      challenges := "";
      isSubmitting := false;
      alerts := [];
    }

    /** The `onChange` handlers of the four fields. */
    method ChooseRole(r: UserRole)
      modifies this`role
      ensures role == r
    {
      role := r;
    }

    method ChooseExperienceLevel(e: ExperienceLevel)
      modifies this`experienceLevel
      ensures experienceLevel == e
    {
      experienceLevel := e;
    }

    method ChooseEducationalSetting(e: EducationalSetting)
      modifies this`educationalSetting
      ensures educationalSetting == e
    {
      educationalSetting := e;
    }

    method TypeChallenges(text: string)
      modifies this`challenges
      ensures challenges == text
    {
      challenges := text;
    }

    /** `handleSubmit`. Blank challenges raise an alert and change nothing
        else. Otherwise the store receives exactly the four field values,
        once, which moves it to the scenarios step, and `isSubmitting` is
        false on return. Returns whether the profile was accepted. */
    method HandleSubmit() returns (accepted: bool)
      modifies this`isSubmitting, this`alerts, store`userProfile, store`step
      ensures accepted <==> !Blank(challenges)
      ensures !accepted ==>
        alerts == old(alerts) + [BlankChallengesAlert] && isSubmitting == old(isSubmitting) &&
        store.userProfile == old(store.userProfile) && store.step == old(store.step)
      ensures accepted ==>
        alerts == old(alerts) && !isSubmitting &&
        store.userProfile == Some(UserProfile(role, experienceLevel, educationalSetting, challenges)) &&
        store.step == ScenariosStep
      ensures store.userProfile == old(store.userProfile) ||
              store.userProfile == ProfileFor(role, experienceLevel, educationalSetting, challenges)
      ensures store.scenarios == old(store.scenarios)
    {
      if Trim(challenges) == [] {
        alerts := alerts + [BlankChallengesAlert];
        return false;
      }
      isSubmitting := true;
      var profile := UserProfile(role, experienceLevel, educationalSetting, challenges);
      store.SetUserProfile(profile);
      isSubmitting := false;
      accepted := true;
    }
  }
}

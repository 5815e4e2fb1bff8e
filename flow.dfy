/** A whole session put together: questionnaire, scenarios from the endpoint
    without an API key, five swipes, and the results. */
module Flow {
  import opened Types
  import opened Text
  import opened Store
  import opened Results
  import opened ScenariosEndpoint
  import Questionnaire

  /** The scenarios the screen stores from a successful response, undecided. */
  function Received(gs: seq<Generated>): (xs: seq<Scenario>)
    requires forall i :: 0 <= i < |gs| ==> gs[i].text.Some?
    ensures |xs| == |gs|
    ensures forall i :: 0 <= i < |gs| ==>
              xs[i].id == gs[i].id && xs[i].text == gs[i].text.value && xs[i].decision == None
  {
    seq(|gs|, i requires 0 <= i < |gs| => Scenario(gs[i].id, gs[i].text.value, None))
  }

  /** The questionnaire accepts the teacher's answers as they are. */
  lemma TeacherAccepted()
    ensures Questionnaire.ProfileFor(Teacher, Beginner, K12, "limited devices")
            == Some(UserProfile(Teacher, Beginner, K12, "limited devices"))
  {
    assert !IsWhitespace("limited devices"[0]);
  }

  /** A teacher in K-12 with no API key configured gets five placeholders,
      with distinct ids, each naming "teacher" and "k-12". */
  lemma TeacherPlaceholders(challenges: string, completion: Completion, parse: string -> Parsed)
    ensures var p := UserProfile(Teacher, Beginner, K12, challenges);
      var r := Post(None, Request(Some(p)), completion, parse);
      && r.status == 200 && |r.body.scenarios| == 5
      && DistinctIds(Received(r.body.scenarios))
      && forall i :: 0 <= i < 5 ==>
           Contains(r.body.scenarios[i].text.value, "teacher") &&
           Contains(r.body.scenarios[i].text.value, "k-12")
  {
    var p := UserProfile(Teacher, Beginner, K12, challenges);
    NoKeyGivesPlaceholders(None, p, completion, parse);
    assert RoleName(p.role) == "teacher" && SettingName(p.educationalSetting) == "k-12";
    PositionalIdsDistinct(Placeholders(p));
  }

  /** Marking the five scenarios of a list with distinct ids three hopeful
      and two fearful, one swipe each, reports 60 percent hopeful and 40
      percent fearful, with no undecided warning. */
  lemma ThreeHopefulTwoFearful(xs: seq<Scenario>)
    requires |xs| == 5 && DistinctIds(xs)
    ensures var ys := Swiped(xs);
      HopefulPercentage(ys) == 60 && FearfulPercentage(ys) == 40 && !UndecidedWarning(ys)
  {
    var ys := Swiped(xs);
    SwipedDecisions(xs);
    MarkedCounts(ys);
    FiltersPartition(ys);
    assert TotalDecided(ys) == 5;
    assert Percentage(3, 5) == 60 && Percentage(2, 5) == 40;
  }

  /** The list after swiping right on the first three scenarios and left on
      the last two. */
  function Swiped(xs: seq<Scenario>): (ys: seq<Scenario>)
    requires |xs| == 5
    ensures |ys| == 5
  {
    WithDecision(WithDecision(WithDecision(WithDecision(WithDecision(xs,
      xs[0].id, Hopeful), xs[1].id, Hopeful), xs[2].id, Hopeful), xs[3].id, Fearful), xs[4].id, Fearful)
  }

  /** With distinct ids, each swipe reaches its own scenario only. */
  lemma SwipedDecisions(xs: seq<Scenario>)
    requires |xs| == 5 && DistinctIds(xs)
    ensures var ys := Swiped(xs);
      ys[0].decision == ys[1].decision == ys[2].decision == Some(Hopeful) &&
      ys[3].decision == ys[4].decision == Some(Fearful)
  {
    var x1 := WithDecision(xs, xs[0].id, Hopeful);
    WithDecisionUnique(xs, 0, Hopeful);
    var x2 := WithDecision(x1, x1[1].id, Hopeful);
    WithDecisionUnique(x1, 1, Hopeful);
    var x3 := WithDecision(x2, x2[2].id, Hopeful);
    WithDecisionUnique(x2, 2, Hopeful);
    var x4 := WithDecision(x3, x3[3].id, Fearful);
    WithDecisionUnique(x3, 3, Fearful);
    WithDecisionUnique(x4, 4, Fearful);
  }

  /** The filters on a list of five marked hopeful, hopeful, hopeful,
      fearful, fearful. */
  lemma MarkedCounts(ys: seq<Scenario>)
    requires |ys| == 5
    requires ys[0].decision == ys[1].decision == ys[2].decision == Some(Hopeful)
    requires ys[3].decision == ys[4].decision == Some(Fearful)
    ensures |HopefulScenarios(ys)| == 3 && |FearfulScenarios(ys)| == 2 && UndecidedScenarios(ys) == []
  {
    var h, f := ys[..3], ys[3..];
    assert ys == h + f;
    TwoBlocks(h, f, Some(Hopeful), Some(Fearful), Some(Hopeful));
    TwoBlocks(h, f, Some(Hopeful), Some(Fearful), Some(Fearful));
    TwoBlocks(h, f, Some(Hopeful), Some(Fearful), None);
  }

  /** A block of scenarios all marked `e1` followed by a block all marked
      `e2`, filtered for `d`. */
  lemma TwoBlocks(a: seq<Scenario>, b: seq<Scenario>, e1: Option<Decision>, e2: Option<Decision>,
                  d: Option<Decision>)
    requires forall k :: 0 <= k < |a| ==> a[k].decision == e1
    requires forall k :: 0 <= k < |b| ==> b[k].decision == e2
    ensures WithStatus(a + b, d) == (if d == e1 then a else []) + (if d == e2 then b else [])
  {
    WithStatusAppend(a, b, d);
    WithStatusUniform(a, e1, d);
    WithStatusUniform(b, e2, d);
  }

  /** Rounding each share half up on its own can overshoot: one hopeful and
      seven fearful scenarios show 13 and 88 percent. */
  lemma SharesCanSumTo101()
    ensures Percentage(1, 8) + Percentage(7, 8) == 101
  {
    assert Percentage(1, 8) == 13 && Percentage(7, 8) == 88;
  }

  /** Four of the store's operations, driven the way the screens drive them:
      a profile, a list, a decision; the list keeps its ids and the profile. */
  method SessionWalkthrough(p: UserProfile, xs: seq<Scenario>, d: Decision) returns (s: SessionStore)
    requires |xs| > 0
    ensures fresh(s)
    ensures s.step == ScenariosStep && s.userProfile == Some(p)
    ensures Ids(s.scenarios) == Ids(xs) && s.scenarios[0].decision == Some(d)
  {
    s := new SessionStore();
    s.SetUserProfile(p);
    s.SetScenarios(xs);
    s.UpdateScenarioDecision(xs[0].id, d);
  }
}

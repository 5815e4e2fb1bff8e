/** The session store: one shared state object holding the current step, the
    user profile and the ordered scenario list, changed only through its four
    operations. */
module Store {
  import opened Types

  /** The list after `updateScenarioDecision(id, d)`: the list mapped so that
      every scenario whose id is `id` carries decision `d`. */
  function WithDecision(xs: seq<Scenario>, id: string, d: Decision): (r: seq<Scenario>)
    ensures |r| == |xs|
  {
    if xs == [] then []
    else [if xs[0].id == id then xs[0].(decision := Some(d)) else xs[0]] + WithDecision(xs[1..], id, d)
  }

  /** Position by position: the id and the text stay, a matching scenario gets
      decision `d`, every other scenario is left exactly as it was. */
  lemma {:induction false} WithDecisionAt(xs: seq<Scenario>, id: string, d: Decision, k: nat)
    requires k < |xs|
    ensures WithDecision(xs, id, d)[k].id == xs[k].id
    ensures WithDecision(xs, id, d)[k].text == xs[k].text
    ensures xs[k].id == id ==> WithDecision(xs, id, d)[k].decision == Some(d)
    ensures xs[k].id != id ==> WithDecision(xs, id, d)[k] == xs[k]
  {
    if k > 0 {
      WithDecisionAt(xs[1..], id, d, k - 1);
      assert WithDecision(xs, id, d)[k] == WithDecision(xs[1..], id, d)[k - 1];
    }
  }

  /** The whole-list frame of the update: length, order, ids and texts are
      preserved, and only the decisions of matching scenarios change. */
  lemma WithDecisionFrame(xs: seq<Scenario>, id: string, d: Decision)
    ensures |WithDecision(xs, id, d)| == |xs|
    ensures Ids(WithDecision(xs, id, d)) == Ids(xs)
    ensures Texts(WithDecision(xs, id, d)) == Texts(xs)
    ensures forall k :: 0 <= k < |xs| && xs[k].id == id ==>
              WithDecision(xs, id, d)[k] == xs[k].(decision := Some(d))
    ensures forall k :: 0 <= k < |xs| && xs[k].id != id ==> WithDecision(xs, id, d)[k] == xs[k]
  {
    forall k | 0 <= k < |xs| {
      WithDecisionAt(xs, id, d, k);
    }
  }

  /** With distinct ids, the update by the id at position `k` changes that
      one scenario's decision and nothing else. */
  lemma WithDecisionUnique(xs: seq<Scenario>, k: nat, d: Decision)
    requires DistinctIds(xs) && k < |xs|
    ensures WithDecision(xs, xs[k].id, d) == xs[k := xs[k].(decision := Some(d))]
    ensures DistinctIds(WithDecision(xs, xs[k].id, d))
  {
    WithDecisionFrame(xs, xs[k].id, d);
  }

  /** An id that names no scenario leaves the list identical. */
  lemma {:induction false} WithDecisionAbsent(xs: seq<Scenario>, id: string, d: Decision)
    requires id !in Ids(xs)
    ensures WithDecision(xs, id, d) == xs
  {
    if xs != [] {
      assert xs[0].id == Ids(xs)[0];
      assert Ids(xs[1..]) == Ids(xs)[1..];
      WithDecisionAbsent(xs[1..], id, d);
    }
  }

  /** A later decision for the same id replaces an earlier one: the last
      writer wins, and repeating an update changes nothing. */
  lemma {:induction false} WithDecisionLastWins(xs: seq<Scenario>, id: string, d1: Decision, d2: Decision)
    ensures WithDecision(WithDecision(xs, id, d1), id, d2) == WithDecision(xs, id, d2)
  {
    if xs != [] {
      var ys := WithDecision(xs, id, d1);
      assert ys[1..] == WithDecision(xs[1..], id, d1);
      WithDecisionLastWins(xs[1..], id, d1, d2);
    }
  }

  lemma WithDecisionIdempotent(xs: seq<Scenario>, id: string, d: Decision)
    ensures WithDecision(WithDecision(xs, id, d), id, d) == WithDecision(xs, id, d)
  {
    WithDecisionLastWins(xs, id, d, d);
  }

  /** Updates of two different ids do not interfere. */
  lemma {:induction false} WithDecisionCommute(xs: seq<Scenario>, a: string, da: Decision, b: string, db: Decision)
    requires a != b
    ensures WithDecision(WithDecision(xs, a, da), b, db) == WithDecision(WithDecision(xs, b, db), a, da)
  {
    if xs != [] {
      assert WithDecision(xs, a, da)[1..] == WithDecision(xs[1..], a, da);
      assert WithDecision(xs, b, db)[1..] == WithDecision(xs[1..], b, db);
      WithDecisionCommute(xs[1..], a, da, b, db);
    }
  }

  /** The session state, created with the store's initial values. */
  class SessionStore {
    var step: Step
    var userProfile: Option<UserProfile>
    var scenarios: seq<Scenario>

    /** The initial state: the questionnaire, no profile, no scenarios. */
    constructor ()
      ensures step == QuestionnaireStep && userProfile == None && scenarios == []
    {
      step := QuestionnaireStep;
      userProfile := None;
      scenarios := [];
    }

    method SetStep(s: Step)
      modifies this`step
      ensures step == s
      ensures userProfile == old(userProfile) && scenarios == old(scenarios)
    {
      step := s;
    }

    /** Records the profile and moves on to the scenarios step. */
    method SetUserProfile(p: UserProfile)
      modifies this`userProfile, this`step
      ensures userProfile == Some(p) && step == ScenariosStep
      ensures scenarios == old(scenarios)
    {
      userProfile := Some(p);
      step := ScenariosStep;
    }

    /** Replaces the scenario list wholesale. */
    method SetScenarios(xs: seq<Scenario>)
      modifies this`scenarios
      ensures scenarios == xs
      ensures step == old(step) && userProfile == old(userProfile)
    {
      scenarios := xs;
    }

    /** Assigns decision `d` to the scenario(s) with id `id`; an unknown id
        changes nothing. */
    method UpdateScenarioDecision(id: string, d: Decision)
      modifies this`scenarios
      ensures scenarios == WithDecision(old(scenarios), id, d)
      ensures step == old(step) && userProfile == old(userProfile)
      ensures |scenarios| == |old(scenarios)|
      ensures Ids(scenarios) == Ids(old(scenarios)) && Texts(scenarios) == Texts(old(scenarios))
      ensures forall k :: 0 <= k < |scenarios| ==>
                scenarios[k] == if old(scenarios)[k].id == id
                                then old(scenarios)[k].(decision := Some(d))
                                else old(scenarios)[k]
      ensures id !in Ids(old(scenarios)) ==> scenarios == old(scenarios)
    {
      WithDecisionFrame(scenarios, id, d);
      if id !in Ids(scenarios) {
        WithDecisionAbsent(scenarios, id, d);
      }
      scenarios := WithDecision(scenarios, id, d);
    }
  }
}

/** The earlier scenario screen kept under `eduswipe/`: the same fetch guard,
    a sample list of ten, and a completion handler that advances at once,
    with no guard against being called again. */
module LegacyScenarioScreen {
  import opened Types
  import opened Store
  import opened Progression
  import opened Text

  /** The size of this screen's sample list. */
  const SampleCount: nat := 10

  /** The sample list is `sample-1` … `sample-10`. */
  lemma SampleIds()
    ensures Ids(SampleScenarios(SampleCount)) ==
      ["sample-1", "sample-2", "sample-3", "sample-4", "sample-5",
       "sample-6", "sample-7", "sample-8", "sample-9", "sample-10"]
  {
    var xs := SampleScenarios(SampleCount);
    assert xs[0].id == "sample-1" && xs[1].id == "sample-2" && xs[2].id == "sample-3";
    assert xs[3].id == "sample-4" && xs[4].id == "sample-5" && xs[5].id == "sample-6";
    assert xs[6].id == "sample-7" && xs[7].id == "sample-8" && xs[8].id == "sample-9";
    assert Decimal(10) == "10";
    assert xs[9].id == "sample-10";
  }

  class LegacyScreen {
    const store: SessionStore
    var loading: bool
    var error: Option<string>
    var currentIndex: nat

    /** The index stays on the list (or at 0 for an empty list). */
    ghost predicate Valid()
      reads this, store
    {
      currentIndex == 0 || currentIndex < |store.scenarios|
    }

    constructor (s: SessionStore)
      ensures Valid()
      ensures store == s
      ensures !loading && error == None && currentIndex == 0
    {
      store := s;
      loading, error := false, None;
      currentIndex := 0;
    }

    /** The mount effect. When there is a profile and no scenario, it runs
        `fetchScenarios`: a response that is not ok throws before its body is
        read; a body with no scenario installs the samples; `loading` ends
        false. Otherwise nothing happens. */
    method LoadScenarios(reply: Reply) returns (started: bool)
      requires Valid()
      modifies this, store
      ensures Valid()
      ensures started == ShouldFetch(old(store.userProfile), old(store.scenarios))
      ensures store.step == old(store.step) && store.userProfile == old(store.userProfile)
      ensures currentIndex == old(currentIndex)
      ensures !started ==> store.scenarios == old(store.scenarios) &&
                           loading == old(loading) && error == old(error)
      ensures started ==> store.scenarios == Outcome(reply, SampleCount).scenarios &&
                          error == Outcome(reply, SampleCount).error && !loading
      ensures started && Throws(reply) ==> ShownCard().None?
    {
      started := store.userProfile.Some? && |store.scenarios| == 0;
      if !started {
        return;
      }
      loading := true;
      error := None;
      if reply.NetworkError? || !reply.ok {
        // the request rejected, or `!response.ok` threw before the body was read
        error := Some(FetchErrorMessage);
        store.SetScenarios(SampleScenarios(SampleCount));
      } else if reply.body.Unparsable? {
        // `response.json()` rejected
        error := Some(FetchErrorMessage);
        store.SetScenarios(SampleScenarios(SampleCount));
      } else if reply.body.scenarios.Some? && |reply.body.scenarios.value| > 0 {
        store.SetScenarios(reply.body.scenarios.value);
      } else {
        store.SetScenarios(SampleScenarios(SampleCount));
      }
      loading := false;
    }

    /** `handleSwipe`: the decision goes to the store unchanged. */
    method HandleSwipe(id: string, d: Decision)
      requires Valid()
      modifies store`scenarios
      ensures Valid()
      ensures store.scenarios == WithDecision(old(store.scenarios), id, d)
    {
      store.UpdateScenarioDecision(id, d);
    }

    /** `handleComplete`: the next card at once, or the results after the
        last one. Each call advances again. */
    method HandleComplete()
      requires Valid()
      modifies this`currentIndex, store`step
      ensures Valid()
      ensures match NextIndex(old(currentIndex), |store.scenarios|)
        case Some(j) => currentIndex == j && store.step == old(store.step)
        case None => currentIndex == old(currentIndex) && store.step == ResultsStep
    {
      if currentIndex < |store.scenarios| - 1 {
        currentIndex := currentIndex + 1;
      } else {
        store.SetStep(ResultsStep);
      }
    }

    /** The card on screen, if any: the spinner while loading, the error
        view whenever an error is set, and otherwise the current scenario
        whenever the list is non-empty. */
    function ShownCard(): (r: Option<Scenario>)
      reads this, store
      requires Valid()
      ensures r.Some? <==> !loading && error.None? && |store.scenarios| > 0
      ensures r.Some? ==> r.value in store.scenarios
    {
      if !loading && error.None? && |store.scenarios| > 0 && currentIndex < |store.scenarios|
      then Some(store.scenarios[currentIndex])
      else None
    }
  }
}

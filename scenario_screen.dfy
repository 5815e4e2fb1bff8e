/** The scenario screen of the current application: it fetches the scenarios
    once, forwards each swipe to the store, and advances to the next card
    after a delay, ignoring further completions while that delay runs. */
module ScenarioScreen {
  import opened Types
  import opened Store
  import opened Progression

  /** The size of this screen's sample list. */
  const SampleCount: nat := 5

  /** The sample list is `sample-1` … `sample-5`. */
  lemma SampleIds()
    ensures Ids(SampleScenarios(SampleCount)) == ["sample-1", "sample-2", "sample-3", "sample-4", "sample-5"]
  {
    var xs := SampleScenarios(SampleCount);
    assert xs[0].id == "sample-1" && xs[1].id == "sample-2" && xs[2].id == "sample-3";
    assert xs[3].id == "sample-4" && xs[4].id == "sample-5";
  }

  class ScenarioScreen {
    const store: SessionStore
    var loading: bool
    var error: Option<string>
    var currentIndex: nat
    var transitioning: bool
    /** The 800 ms timers scheduled and not yet fired. */
    ghost var pendingTimers: nat

    /** The index stays on the list (or at 0 for an empty list), and a timer
        is pending exactly while the screen is transitioning. */
    ghost predicate Valid()
      reads this, store
    {
      && (currentIndex == 0 || currentIndex < |store.scenarios|)
      && pendingTimers == (if transitioning then 1 else 0)
    }

    constructor (s: SessionStore)
      ensures Valid()
      ensures store == s
      ensures !loading && error == None && currentIndex == 0 && !transitioning
    {
      store := s;
      loading, error := false, None;
      currentIndex, transitioning := 0, false;
      pendingTimers := 0;
    }

    /** The mount effect. When there is a profile and no scenario, it runs
        `fetchScenarios`, whose response is `reply`: the scenarios are
        installed, or the samples, with the error shown on a thrown reply;
        `loading` ends false. Otherwise nothing happens. */
    method LoadScenarios(reply: Reply) returns (started: bool)
      requires Valid()
      modifies this, store
      ensures Valid()
      ensures started == ShouldFetch(old(store.userProfile), old(store.scenarios))
      ensures store.step == old(store.step) && store.userProfile == old(store.userProfile)
      ensures currentIndex == old(currentIndex) && transitioning == old(transitioning)
      ensures !started ==> store.scenarios == old(store.scenarios) &&
                           loading == old(loading) && error == old(error)
      ensures started ==> store.scenarios == Outcome(reply, SampleCount).scenarios &&
                          error == Outcome(reply, SampleCount).error && !loading
      ensures started && Throws(reply) ==> ShownCard().None?
    {
      started := store.userProfile.Some? && |store.scenarios| == 0;
      if !started {
        return;
      }
      loading := true;
      error := None;
      if reply.NetworkError? || reply.body.Unparsable? || !reply.ok {
        // `fetch` or `response.json()` rejected, or the response was not ok
        error := Some(FetchErrorMessage);
        store.SetScenarios(SampleScenarios(SampleCount));
      } else if reply.body.scenarios.Some? && |reply.body.scenarios.value| > 0 {
        store.SetScenarios(reply.body.scenarios.value);
      } else {
        store.SetScenarios(SampleScenarios(SampleCount));
      }
      loading := false;
    }

    /** `handleSwipe`: the decision goes to the store unchanged. */
    method HandleSwipe(id: string, d: Decision)
      requires Valid()
      modifies store`scenarios
      ensures Valid()
      ensures store.scenarios == WithDecision(old(store.scenarios), id, d)
    {
      store.UpdateScenarioDecision(id, d);
    }

    /** `handleComplete`: a no-op while transitioning; otherwise it starts
        transitioning and schedules the timer. */
    method HandleComplete()
      requires Valid()
      modifies this`transitioning, this`pendingTimers
      ensures Valid()
      ensures old(transitioning) ==> transitioning && pendingTimers == old(pendingTimers)
      ensures !old(transitioning) ==> transitioning && pendingTimers == 1
      ensures pendingTimers <= 1
    {
      if transitioning {
        return;
      }
      transitioning := true;
      pendingTimers := pendingTimers + 1;
    }

    /** The scheduled timer fires: the next card, or the results after the
        last one; in both cases the transition ends. */
    method TimerFires()
      requires Valid() && pendingTimers > 0
      modifies this`currentIndex, this`transitioning, this`pendingTimers, store`step
      ensures Valid()
      ensures !transitioning && pendingTimers == 0
      ensures match NextIndex(old(currentIndex), |store.scenarios|)
        case Some(j) => currentIndex == j && store.step == old(store.step)
        case None => currentIndex == old(currentIndex) && store.step == ResultsStep
    {
      if currentIndex < |store.scenarios| - 1 {
        currentIndex := currentIndex + 1;
      } else {
        store.SetStep(ResultsStep);
      }
      transitioning := false;
      pendingTimers := pendingTimers - 1;
    }

    /** The card on screen, if any. The screen renders the spinner while
        loading and the error view whenever an error is set; otherwise no
        card while transitioning, and the current scenario whenever the list
        is non-empty. */
    function ShownCard(): (r: Option<Scenario>)
      reads this, store
      requires Valid()
      ensures r.Some? ==> r.value in store.scenarios
      ensures r.Some? <==> !loading && error.None? && !transitioning && |store.scenarios| > 0
    {
      if !loading && error.None? && |store.scenarios| > 0 && currentIndex < |store.scenarios| && !transitioning
      then Some(store.scenarios[currentIndex])
      else None
    }
  }
}

/** What the two scenario screens share: the guard that starts a fetch, the
    sample list installed when the fetch fails or brings nothing, and the
    advance from one card to the next. */
module Progression {
  import opened Types
  import opened Text

  /** The effect fetches only when there is a profile and no scenario yet. */
  predicate ShouldFetch(profile: Option<UserProfile>, xs: seq<Scenario>)
  {
    profile.Some? && |xs| == 0
  }

  /** Every fetch installs a non-empty list, so once a fetch has completed
      the guard is closed. */
  lemma FetchRunsOnce(profile: Option<UserProfile>, reply: Reply, n: nat)
    requires n > 0
    ensures !ShouldFetch(profile, Outcome(reply, n).scenarios)
  {
  }

  /** `sample-${i + 1}`: the prefix followed by the decimal digits of i + 1. */
  function SampleId(i: nat): (r: string)
    ensures |r| > 7 && r[..7] == "sample-" && r[7..] == Decimal(i + 1)
    ensures forall k :: 7 <= k < |r| ==> '0' <= r[k] <= '9'
  {
    "sample-" + Decimal(i + 1)
  }

  const SampleTextHead: string := "This is a sample scenario "
  const SampleTextTail: string :=
    " about digital education future. In this hypothetical situation, imagine how technology might evolve to address the challenges you mentioned."

  /** `This is a sample scenario ${i + 1} about ...`: never empty, since the
      number is never empty. */
  function SampleText(i: nat): (t: string)
    ensures |t| > 0
    ensures Contains(t, Decimal(i + 1))
  {
    ContainsPart(SampleTextHead, Decimal(i + 1), SampleTextTail);
    SampleTextHead + Decimal(i + 1) + SampleTextTail
  }

  /** `Array.from({ length: n }, (_, i) => ({ id, text }))`: the sample list
      of `n` undecided scenarios. */
  function SampleScenarios(n: nat): (r: seq<Scenario>)
    ensures |r| == n
    ensures forall i :: 0 <= i < n ==> r[i].id == SampleId(i) && r[i].decision == None
  {
    seq(n, i requires 0 <= i < n => Scenario(SampleId(i), SampleText(i), None))
  }

  /** The sample list has distinct ids, non-empty texts and no decisions. */
  lemma SamplesWellFormed(n: nat)
    ensures DistinctIds(SampleScenarios(n))
    ensures forall k :: 0 <= k < n ==> |SampleScenarios(n)[k].text| > 0
    ensures forall k :: 0 <= k < n ==> SampleScenarios(n)[k].decision == None
  {
    var xs := SampleScenarios(n);
    forall i, j | 0 <= i < j < n
      ensures xs[i].id != xs[j].id
    {
      if xs[i].id == xs[j].id {
        PrefixedDecimalInjective("sample-", i + 1, j + 1);
      }
    }
  }

  /** What a fetch of the scenarios endpoint produced, as the screen sees
      it: the request failed outright, or a response arrived with its `ok`
      flag and a body that is either not JSON or JSON whose `scenarios`
      field is missing or a list. */
  datatype Reply = NetworkError | Reply(ok: bool, body: Body)
  datatype Body = Unparsable | Json(scenarios: Option<seq<Scenario>>)

  const FetchErrorMessage: string := "Failed to generate scenarios. Please try again."

  /** The list a fetch installs and the error it shows. */
  datatype FetchOutcome = FetchOutcome(scenarios: seq<Scenario>, error: Option<string>)

  /** True when the reply throws inside the `try`: a failed request, a
      response that is not ok, or a body that is not JSON. */
  predicate Throws(reply: Reply): (b: bool)
    ensures reply.NetworkError? ==> b
    ensures reply.Reply? && !reply.ok ==> b
    ensures reply.Reply? && reply.ok ==> (b <==> reply.body.Unparsable?)
  {
    reply.NetworkError? || !reply.ok || reply.body.Unparsable?
  }

  /** The outcome of `fetchScenarios` with a sample list of `n` entries.
      Every path installs a list; the received scenarios are installed as
      they come only from a good reply with at least one scenario; a thrown
      reply shows the error and installs the samples; a good reply without
      scenarios installs the samples silently. */
  function Outcome(reply: Reply, n: nat): (o: FetchOutcome)
    ensures o.error.Some? <==> Throws(reply)
    ensures o.error.Some? ==> o.error.value == FetchErrorMessage
    ensures n > 0 ==> |o.scenarios| > 0
    ensures o.scenarios == SampleScenarios(n) ||
            (!Throws(reply) && reply.body.scenarios == Some(o.scenarios) && |o.scenarios| > 0)
    ensures Throws(reply) ==> o.scenarios == SampleScenarios(n)
    ensures !Throws(reply) && reply.body.scenarios.Some? && |reply.body.scenarios.value| > 0 ==>
              o == FetchOutcome(reply.body.scenarios.value, None)
    ensures !Throws(reply) && (reply.body.scenarios.None? || |reply.body.scenarios.value| == 0) ==>
              o == FetchOutcome(SampleScenarios(n), None)
  {
    if Throws(reply) then FetchOutcome(SampleScenarios(n), Some(FetchErrorMessage))
    else match reply.body.scenarios
      case Some(xs) =>
        if |xs| > 0 then FetchOutcome(xs, None) else FetchOutcome(SampleScenarios(n), None)
      case None => FetchOutcome(SampleScenarios(n), None)
  }

  /** The index after a completed card: the next one, or `None` when the
      last card is done and the results follow. */
  function NextIndex(i: nat, n: nat): (r: Option<nat>)
    ensures r.Some? ==> r.value == i + 1 && r.value < n
    ensures r.None? <==> i + 1 >= n
  {
    if i < n - 1 then Some(i + 1) else None
  }

  /** Where a screen is after a number of completed cards: at a card index,
      or done (showing the results). */
  datatype Position = At(index: nat) | Done

  function AfterCompletions(i: nat, n: nat, k: nat): Position
    decreases k
  {
    if k == 0 then At(i)
    else match NextIndex(i, n)
      case Some(j) => AfterCompletions(j, n, k - 1)
      case None => Done
  }

  /** Starting at card `i` of `n`, each completion moves one card on: after
      `k` completions the screen is at card `i + k` while that card exists,
      and shows the results once the last card is completed. The index never
      leaves the list. */
  lemma {:induction false} Completions(i: nat, n: nat, k: nat)
    requires i < n
    ensures i + k < n ==> AfterCompletions(i, n, k) == At(i + k)
    ensures i + k >= n ==> AfterCompletions(i, n, k) == Done
    ensures AfterCompletions(i, n, k).At? ==> AfterCompletions(i, n, k).index < n
    decreases k
  {
    if k > 0 && i + 1 < n {
      Completions(i + 1, n, k - 1);
    }
  }
}

/** The results screen: the scenarios split by decision, the share of each
    decision among the decided ones, and the submission of the responses. */
module Results {
  import opened Types
  import opened Store

  /** The scenarios whose decision is `d`, in order: `decision === d` for a
      decision, `!decision` for `None`. */
  function WithStatus(xs: seq<Scenario>, d: Option<Decision>): (r: seq<Scenario>)
    ensures |r| <= |xs|
    ensures forall s :: s in r ==> s in xs && s.decision == d
    ensures forall k :: 0 <= k < |xs| && xs[k].decision == d ==> xs[k] in r
  {
    if xs == [] then []
    else (if xs[0].decision == d then [xs[0]] else []) + WithStatus(xs[1..], d)
  }

  function HopefulScenarios(xs: seq<Scenario>): (r: seq<Scenario>)
    ensures forall s :: s in r ==> s in xs && s.decision == Some(Hopeful)
    ensures forall k :: 0 <= k < |xs| && xs[k].decision == Some(Hopeful) ==> xs[k] in r
  {
    WithStatus(xs, Some(Hopeful))
  }

  function FearfulScenarios(xs: seq<Scenario>): (r: seq<Scenario>)
    ensures forall s :: s in r ==> s in xs && s.decision == Some(Fearful)
    ensures forall k :: 0 <= k < |xs| && xs[k].decision == Some(Fearful) ==> xs[k] in r
  {
    WithStatus(xs, Some(Fearful))
  }

  function UndecidedScenarios(xs: seq<Scenario>): (r: seq<Scenario>)
    ensures forall s :: s in r ==> s in xs && s.decision == None
    ensures forall k :: 0 <= k < |xs| && xs[k].decision == None ==> xs[k] in r
  {
    WithStatus(xs, None)
  }

  /** The three filters split the list: every scenario lands in exactly one
      of them (their decisions differ, by the contract of WithStatus), and
      together they hold the list's scenarios with their multiplicities. */
  lemma {:induction false} FiltersPartition(xs: seq<Scenario>)
    ensures |HopefulScenarios(xs)| + |FearfulScenarios(xs)| + |UndecidedScenarios(xs)| == |xs|
    ensures multiset(HopefulScenarios(xs)) + multiset(FearfulScenarios(xs)) + multiset(UndecidedScenarios(xs))
            == multiset(xs)
  {
    if xs != [] {
      var x, rest := xs[0], xs[1..];
      FiltersPartition(rest);
      assert xs == [x] + rest;
      assert multiset(xs) == multiset{x} + multiset(rest);
      var h, f, u := HopefulScenarios(rest), FearfulScenarios(rest), UndecidedScenarios(rest);
      match x.decision
      case None =>
        assert HopefulScenarios(xs) == h && FearfulScenarios(xs) == f;
        assert UndecidedScenarios(xs) == [x] + u;
      case Some(Hopeful) =>
        assert FearfulScenarios(xs) == f && UndecidedScenarios(xs) == u;
        assert HopefulScenarios(xs) == [x] + h;
      case Some(Fearful) =>
        assert HopefulScenarios(xs) == h && UndecidedScenarios(xs) == u;
        assert FearfulScenarios(xs) == [x] + f;
    }
  }

  /** Filtering distributes over concatenation. */
  lemma {:induction false} WithStatusAppend(a: seq<Scenario>, b: seq<Scenario>, d: Option<Decision>)
    ensures WithStatus(a + b, d) == WithStatus(a, d) + WithStatus(b, d)
  {
    if a != [] {
      assert (a + b)[1..] == a[1..] + b;
      WithStatusAppend(a[1..], b, d);
    } else {
      assert a + b == b;
    }
  }

  /** A list whose scenarios all carry decision `e` is kept whole by the
      filter for `e` and emptied by any other filter. */
  lemma {:induction false} WithStatusUniform(xs: seq<Scenario>, e: Option<Decision>, d: Option<Decision>)
    requires forall k :: 0 <= k < |xs| ==> xs[k].decision == e
    ensures WithStatus(xs, d) == if d == e then xs else []
  {
    if xs != [] {
      WithStatusUniform(xs[1..], e, d);
    }
  }

  function TotalDecided(xs: seq<Scenario>): (n: nat)
    ensures n <= |xs|
    ensures n == |xs| - |UndecidedScenarios(xs)|
  {
    FiltersPartition(xs);
    |HopefulScenarios(xs)| + |FearfulScenarios(xs)|
  }

  /** `Math.round(count / total * 100)` in exact arithmetic, and 0 when
      `total` is 0: the integer nearest to 100·count/total, halves rounded
      up. */
  function Percentage(count: nat, total: nat): (r: nat)
    ensures total == 0 ==> r == 0
    ensures total > 0 ==> 2 * total * r <= 200 * count + total < 2 * total * r + 2 * total
    ensures count <= total ==> r <= 100
  {
    if total == 0 then 0
    else
      RoundHalfUpBounds(count, total);
      (200 * count + total) / (2 * total)
  }

  lemma RoundHalfUpBounds(count: nat, total: nat)
    requires total > 0
    ensures var r := (200 * count + total) / (2 * total);
      2 * total * r <= 200 * count + total < 2 * total * r + 2 * total &&
      (count <= total ==> r <= 100)
  {
    var r := (200 * count + total) / (2 * total);
    assert 2 * total * r <= 200 * count + total < 2 * total * r + 2 * total;
    if count <= total {
      ScaleBelow(r, 100, 2 * total);
    }
  }

  /** Dividing an inequality by a positive factor. */
  lemma ScaleBelow(x: int, y: int, m: int)
    requires m > 0 && m * x < m * y + m
    ensures x <= y
  {
    if x > y {
      assert m * (x - y) >= m by { MulAtLeast(m, x - y); }
    }
  }

  lemma MulAtLeast(m: int, k: int)
    requires m > 0 && k >= 1
    ensures m * k >= m
  {
    assert m * k == m * (k - 1) + m;
  }

  function HopefulPercentage(xs: seq<Scenario>): (p: nat)
    ensures p <= 100
  {
    Percentage(|HopefulScenarios(xs)|, TotalDecided(xs))
  }

  function FearfulPercentage(xs: seq<Scenario>): (p: nat)
    ensures p <= 100
  {
    Percentage(|FearfulScenarios(xs)|, TotalDecided(xs))
  }

  /** With no decided scenario both percentages are 0; otherwise, because
      each is rounded half up on its own, they add up to 100, or to 101
      exactly when both shares end in exactly one half (100·count/total +
      1/2 is a whole number, for either share). */
  lemma PercentagesSum(xs: seq<Scenario>)
    ensures TotalDecided(xs) == 0 ==> HopefulPercentage(xs) == 0 && FearfulPercentage(xs) == 0
    ensures TotalDecided(xs) > 0 ==> 100 <= HopefulPercentage(xs) + FearfulPercentage(xs) <= 101
    ensures TotalDecided(xs) > 0 ==>
      (HopefulPercentage(xs) + FearfulPercentage(xs) == 101 <==>
       200 * |HopefulScenarios(xs)| + TotalDecided(xs) == 2 * TotalDecided(xs) * HopefulPercentage(xs))
    ensures TotalDecided(xs) > 0 ==>
      (HopefulPercentage(xs) + FearfulPercentage(xs) == 101 <==>
       200 * |FearfulScenarios(xs)| + TotalDecided(xs) == 2 * TotalDecided(xs) * FearfulPercentage(xs))
  {
    var t := TotalDecided(xs);
    if t > 0 {
      RoundedSharesSum(|HopefulScenarios(xs)|, |FearfulScenarios(xs)|,
                       HopefulPercentage(xs), FearfulPercentage(xs), t);
      RoundedSharesSum(|FearfulScenarios(xs)|, |HopefulScenarios(xs)|,
                       FearfulPercentage(xs), HopefulPercentage(xs), t);
    }
  }

  /** Two parts of a whole, each rounded half up to a percentage of it: the
      sum overshoots 100 by one exactly when the first part's rounding added
      exactly one half. */
  lemma RoundedSharesSum(ch: nat, cf: nat, h: nat, f: nat, t: nat)
    requires t > 0 && ch + cf == t
    requires 2 * t * h <= 200 * ch + t < 2 * t * h + 2 * t
    requires 2 * t * f <= 200 * cf + t < 2 * t * f + 2 * t
    ensures 100 <= h + f <= 101
    ensures h + f == 101 <==> 200 * ch + t == 2 * t * h
  {
    assert 2 * t * (h + f) == 2 * t * h + 2 * t * f;
    assert 2 * t * 101 == 202 * t;
    assert 2 * t * 100 == 200 * t;
    ScaleBelow(h + f, 101, 2 * t);
    ScaleBelow(100, h + f, 2 * t);
    if h + f == 100 {
      assert 2 * t * (h + f) == 200 * t;
    } else {
      assert 2 * t * (h + f) == 202 * t;
    }
  }

  /** A whole is 100 percent of itself. */
  lemma PercentageOfWhole(n: nat)
    requires n > 0
    ensures Percentage(n, n) == 100
  {
    var r := Percentage(n, n);
    assert 2 * n * 101 == 202 * n;
    assert 2 * n * 100 == 200 * n;
    ScaleBelow(r, 100, 2 * n);
    ScaleBelow(100, r, 2 * n);
  }

  /** The "rated" figure `Math.round(totalDecided / scenarios.length * 100)`:
      `None` stands for the NaN it shows for an empty list. */
  function RatedPercentage(xs: seq<Scenario>): (r: Option<nat>)
    ensures r.None? <==> |xs| == 0
    ensures r.Some? ==> r.value <= 100
    ensures UndecidedScenarios(xs) == [] && |xs| > 0 ==> r == Some(100)
  {
    if |xs| == 0 then None
    else
      PercentageOfWhole(|xs|);
      Some(Percentage(TotalDecided(xs), |xs|))
  }

  /** The warning about undecided scenarios is shown exactly when some
      scenario has no decision. */
  function UndecidedWarning(xs: seq<Scenario>): (shown: bool)
    ensures shown <==> exists k :: 0 <= k < |xs| && xs[k].decision == None
  {
    var u := UndecidedScenarios(xs);
    if |u| > 0 then assert u[0] in u; true else false
  }

  const SubmitFailedAlert: string := "Failed to submit data. Please try again."

  /** What the storage call is handed: the profile and the scenarios. */
  datatype Submission = Submission(profile: UserProfile, scenarios: seq<Scenario>)

  /** The results screen reads the store and keeps two flags of its own. */
  class ResultsPanel {
    const store: SessionStore
    var isSubmitting: bool
    var submitted: bool
    var alerts: seq<string>
    var submissions: seq<Submission>

    constructor (s: SessionStore)
      ensures store == s
      ensures !isSubmitting && !submitted && alerts == [] && submissions == []
    {
      store := s;
      isSubmitting, submitted := false, false;
      alerts, submissions := [], [];
    }

    /** `handleSubmit`: without a profile nothing happens; otherwise the data
        is handed to storage, `submitted` becomes true only if that call
        succeeds (`ok`), a failure raises an alert, and `isSubmitting` is
        false afterwards. */
    method HandleSubmit(ok: bool)
      modifies this`isSubmitting, this`submitted, this`alerts, this`submissions
      ensures store.userProfile.None? ==>
        isSubmitting == old(isSubmitting) && submitted == old(submitted) &&
        alerts == old(alerts) && submissions == old(submissions)
      ensures store.userProfile.Some? ==>
        !isSubmitting && submitted == (old(submitted) || ok) &&
        submissions == old(submissions) + [Submission(store.userProfile.value, store.scenarios)] &&
        alerts == old(alerts) + (if ok then [] else [SubmitFailedAlert])
    {
      if store.userProfile.None? {
        return;
      }
      isSubmitting := true;
      submissions := submissions + [Submission(store.userProfile.value, store.scenarios)];
      if ok {
        submitted := true;
      } else {
        alerts := alerts + [SubmitFailedAlert];
      }
      isSubmitting := false;
    }
  }
}

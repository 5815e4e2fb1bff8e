/** The swipe gesture interpreter of one scenario card: a press arms it, moves
    update the horizontal offset while it is armed, and a release decides the
    scenario when the offset is past the threshold, then always resets. */
module Card {
  import opened Types

  /** How far (in pixels) a drag must go before release decides. */
  const DecideThreshold: real := 100.0

  /** How far a drag must go before the indicator leans to one side. */
  const LeanThreshold: real := 50.0

  function Abs(x: real): (r: real)
    ensures r >= 0.0 && (r == x || r == -x)
  {
    if x < 0.0 then -x else x
  }

  /** The green "HOPEFUL" badge and the bold "Hopeful →" caption. */
  predicate HopefulBadgeShown(offset: real): (b: bool)
    ensures offset > DecideThreshold ==> b
    ensures b ==> offset > 0.0
  {
    offset > LeanThreshold
  }

  /** The red "FEARFUL" badge and the bold "← Fearful" caption. */
  predicate FearfulBadgeShown(offset: real): (b: bool)
    ensures offset < -DecideThreshold ==> b
    ensures b ==> offset < 0.0 && !HopefulBadgeShown(offset)
  {
    offset < -LeanThreshold
  }

  /** The centre label; it names a side exactly when that side's badge is
      shown, so the two badges are never shown together. */
  function IndicatorLabel(offset: real): (caption: string)
    ensures caption == "Hopeful" <==> HopefulBadgeShown(offset)
    ensures caption == "Fearful" <==> FearfulBadgeShown(offset)
    ensures caption == "Swipe to decide" <==> !HopefulBadgeShown(offset) && !FearfulBadgeShown(offset)
    ensures !(HopefulBadgeShown(offset) && FearfulBadgeShown(offset))
  {
    if offset > LeanThreshold then "Hopeful"
    else if offset < -LeanThreshold then "Fearful"
    else "Swipe to decide"
  }

  /** The colour class of the centre label, leaning the same way as it. */
  function IndicatorColor(offset: real): (color: string)
    ensures color == "text-green-500" <==> IndicatorLabel(offset) == "Hopeful"
    ensures color == "text-red-500" <==> IndicatorLabel(offset) == "Fearful"
    ensures color == "text-gray-400" <==> IndicatorLabel(offset) == "Swipe to decide"
  {
    if offset > LeanThreshold then "text-green-500"
    else if offset < -LeanThreshold then "text-red-500"
    else "text-gray-400"
  }

  /** The decision a release fixes at this offset, if any. A decided drag
      has also gone past the indicator threshold on the same side. */
  function ReleaseDecision(offset: real): (r: Option<Decision>)
    ensures r == Some(Hopeful) <==> offset > DecideThreshold
    ensures r == Some(Fearful) <==> offset < -DecideThreshold
    ensures r == None <==> -DecideThreshold <= offset <= DecideThreshold
    ensures r == Some(Hopeful) ==> IndicatorLabel(offset) == "Hopeful"
    ensures r == Some(Fearful) ==> IndicatorLabel(offset) == "Fearful"
  {
    if Abs(offset) > DecideThreshold then Some(if offset > 0.0 then Hopeful else Fearful) else None
  }

  /** A call the card makes into its host: `onSwipe(id, decision)` or
      `onComplete()`. */
  datatype Callback = Swiped(id: string, decision: Decision) | Completed

  /** The card's gesture state. Coordinates are JavaScript numbers, which
      may be fractional (touch positions), so they are reals here. */
  datatype Gesture = Gesture(startX: real, currentX: real, swiping: bool)

  /** The initial state, and the state after every release. */
  const Idle: Gesture := Gesture(0.0, 0.0, false)

  /** The invariant of the card: an unarmed card has no offset. */
  predicate Consistent(g: Gesture)
  {
    !g.swiping ==> g.currentX == 0.0
  }

  /** A pointer event: touch start or mouse down; touch move or mouse move;
      touch end, mouse up or mouse leave. */
  datatype Input = Down(clientX: real) | MoveTo(clientX: real) | Up

  /** The gesture state after one event. */
  function Next(g: Gesture, i: Input): (g': Gesture)
    ensures Consistent(g) ==> Consistent(g')
    ensures i.MoveTo? && !g.swiping ==> g' == g
    ensures i.Up? ==> g' == Idle
  {
    match i
    case Down(x) => g.(startX := x, swiping := true)
    case MoveTo(x) => if g.swiping then g.(currentX := x - g.startX) else g
    case Up => Idle
  }

  /** The callbacks come in pairs: `onSwipe` for the card's id, then
      `onComplete`. */
  predicate Paired(cs: seq<Callback>, id: string)
  {
    cs == [] ||
    (|cs| >= 2 && cs[0].Swiped? && cs[0].id == id && cs[1] == Completed && Paired(cs[2..], id))
  }

  /** The callbacks one event fires on the card showing scenario `id`. */
  function Fired(g: Gesture, i: Input, id: string): (cs: seq<Callback>)
    ensures Paired(cs, id)
    ensures Consistent(g) && !g.swiping ==> cs == []
  {
    if i.Up? && ReleaseDecision(g.currentX).Some? then
      [Swiped(id, ReleaseDecision(g.currentX).value), Completed]
    else []
  }

  /** The gesture state after a sequence of events, and the callbacks they
      fire, in order. */
  function Run(g: Gesture, inputs: seq<Input>, id: string): (Gesture, seq<Callback>)
    decreases inputs
  {
    if inputs == [] then (g, [])
    else
      var rest := Run(Next(g, inputs[0]), inputs[1..], id);
      (rest.0, Fired(g, inputs[0], id) + rest.1)
  }

  /** The number of release events in a sequence. */
  function Releases(inputs: seq<Input>): nat
  {
    if inputs == [] then 0 else (if inputs[0].Up? then 1 else 0) + Releases(inputs[1..])
  }

  lemma {:induction false} PairedAppend(a: seq<Callback>, b: seq<Callback>, id: string)
    requires Paired(a, id) && Paired(b, id)
    ensures Paired(a + b, id)
  {
    if a != [] {
      PairedAppend(a[2..], b, id);
      assert (a + b)[0] == a[0] && (a + b)[1] == a[1];
      assert (a + b)[2..] == a[2..] + b;
    } else {
      assert a + b == b;
    }
  }

  /** No event sequence breaks the invariant. */
  lemma {:induction false} RunConsistent(g: Gesture, inputs: seq<Input>, id: string)
    requires Consistent(g)
    ensures Consistent(Run(g, inputs, id).0)
    decreases inputs
  {
    if inputs != [] {
      RunConsistent(Next(g, inputs[0]), inputs[1..], id);
    }
  }

  /** Over any event sequence, every `onSwipe` is followed by exactly one
      `onComplete`, and no `onComplete` fires without an `onSwipe` before it;
      each release fires at most one such pair. */
  lemma {:induction false} RunPaired(g: Gesture, inputs: seq<Input>, id: string)
    ensures Paired(Run(g, inputs, id).1, id)
    ensures |Run(g, inputs, id).1| <= 2 * Releases(inputs)
    decreases inputs
  {
    if inputs != [] {
      RunPaired(Next(g, inputs[0]), inputs[1..], id);
      PairedAppend(Fired(g, inputs[0], id), Run(Next(g, inputs[0]), inputs[1..], id).1, id);
    }
  }

  /** Without a press, no sequence of moves and releases fires anything, and
      the card stays unarmed. */
  lemma {:induction false} NoPressNoCallbacks(g: Gesture, inputs: seq<Input>, id: string)
    requires Consistent(g) && !g.swiping
    requires forall k :: 0 <= k < |inputs| ==> !inputs[k].Down?
    ensures Run(g, inputs, id).1 == []
    ensures !Run(g, inputs, id).0.swiping
    decreases inputs
  {
    if inputs != [] {
      NoPressNoCallbacks(Next(g, inputs[0]), inputs[1..], id);
    }
  }

  /** One rendered card: its gesture state and the callbacks it has made into
      its host so far. */
  class SwipeCard {
    const scenario: Scenario
    var startX: real
    var currentX: real
    var swiping: bool
    var callbacks: seq<Callback>

    function State(): Gesture
      reads this
    {
      Gesture(startX, currentX, swiping)
    }

    ghost predicate Valid()
      reads this
    {
      Consistent(State())
    }

    constructor (s: Scenario)
      ensures Valid()
      ensures scenario == s && State() == Idle && callbacks == []
    {
      scenario := s;
      startX, currentX, swiping := 0.0, 0.0, false;
      callbacks := [];
    }

    /** `handleTouchStart` and `handleMouseDown`: record where the drag
        starts and arm the card. */
    method Press(clientX: real)
      requires Valid()
      modifies this
      ensures Valid()
      ensures startX == clientX && swiping && currentX == old(currentX)
      ensures callbacks == old(callbacks)
      ensures State() == Next(old(State()), Down(clientX))
    {
      startX := clientX;
      swiping := true;
    }

    /** `handleTouchMove` and `handleMouseMove`: track the offset, only while
        armed. */
    method Move(clientX: real)
      requires Valid()
      modifies this
      ensures Valid()
      ensures startX == old(startX) && swiping == old(swiping)
      ensures currentX == if old(swiping) then clientX - old(startX) else old(currentX)
      ensures callbacks == old(callbacks)
      ensures State() == Next(old(State()), MoveTo(clientX))
    {
      if !swiping {
        return;
      }
      currentX := clientX - startX;
    }

    /** `handleSwipeEnd` (touch end, mouse up, mouse leave): past the
        threshold, call `onSwipe` with the direction and then `onComplete`;
        in every case reset the gesture. */
    method Release()
      requires Valid()
      modifies this
      ensures Valid()
      ensures State() == Idle
      ensures callbacks == old(callbacks) +
        match ReleaseDecision(old(currentX))
        case None => []
        case Some(d) => [Swiped(scenario.id, d), Completed]
      ensures !old(swiping) ==> callbacks == old(callbacks)
      ensures callbacks == old(callbacks) + Fired(old(State()), Up, scenario.id)
    {
      if Abs(currentX) > DecideThreshold {
        var direction := if currentX > 0.0 then Hopeful else Fearful;
        callbacks := callbacks + [Swiped(scenario.id, direction)];
        callbacks := callbacks + [Completed];
      }
      startX := 0.0;
      currentX := 0.0;
      swiping := false;
    }
  }
}

/**
 * The step navigator every topic component carries: the active step, the
 * lap counter `iterations`, the redraw counter `animationKey` that the
 * `useEffect` hook bumps when its dependencies change, and the two UI flags
 * (math details, tooltip) that must leave navigation alone.
 *
 * The transitions are first stated as functions on a `Position` value, and
 * the `Panel` class then performs them on its fields the way the click
 * handlers do.
 */
module Navigation {

  /** What differs between topics: the step count, whether a lap counter exists, whether math details can be toggled. */
  datatype Config = Config(steps: nat, iterating: bool, mathToggle: bool)

  /** Every topic has a non-empty, fixed step list. */
  predicate ValidConfig(c: Config) {
    c.steps > 0
  }

  /** The navigation state the redraw effect depends on. */
  datatype Position = Position(step: nat, iterations: nat)

  /** `useState(0)` for the step and `useState(1)` for `iterations`. */
  const Initial := Position(0, 1)

  /**
   * The reachable positions: a step of the list, a lap counter of at least
   * one, and no lap counter at all (constantly 1) in a topic without one.
   */
  predicate InRange(c: Config, p: Position) {
    p.step < c.steps && p.iterations >= 1 && (!c.iterating ==> p.iterations == 1)
  }

  function Max(a: int, b: int): int {
    if a >= b then a else b
  }

  /** `handleNextStep`: one step on, or back to step 0 and one more lap. */
  function Advance(c: Config, p: Position): Position {
    if p.step < c.steps - 1 then Position(p.step + 1, p.iterations)
    else Position(0, if c.iterating then p.iterations + 1 else p.iterations)
  }

  /** `handlePrevStep`: one step back, or to the last step and one lap fewer, never below 1. */
  function Retreat(c: Config, p: Position): Position
    requires ValidConfig(c)
  {
    if p.step > 0 then Position(p.step - 1, p.iterations)
    else Position(c.steps - 1, if c.iterating then Max(1, p.iterations - 1) as nat else p.iterations)
  }

  /** A click on tile `index` of the step picker. */
  function Jump(p: Position, index: nat): Position {
    Position(index, p.iterations)
  }

  /** Whether the effect's dependency list differs between two renders. */
  predicate DepsChanged(c: Config, before: Position, after: Position) {
    before.step != after.step || (c.iterating && before.iterations != after.iterations)
  }

  /** `k` clicks on "Next Step". */
  function AdvanceTimes(c: Config, p: Position, k: nat): Position
    decreases k
  {
    if k == 0 then p else Advance(c, AdvanceTimes(c, p, k - 1))
  }

  /** `k` clicks on "Previous Step". */
  function RetreatTimes(c: Config, p: Position, k: nat): Position
    requires ValidConfig(c)
    decreases k
  {
    if k == 0 then p else Retreat(c, RetreatTimes(c, p, k - 1))
  }

  // ---------------------------------------------------------------------
  // Lemmas about the transitions

  /** Next, Prev and picker clicks keep the step in [0, N) and the lap counter at 1 or more. */
  lemma TransitionsStayInRange(c: Config, p: Position, index: nat)
    requires ValidConfig(c) && InRange(c, p)
    ensures InRange(c, Advance(c, p))
    ensures InRange(c, Retreat(c, p))
    ensures index < c.steps ==> InRange(c, Jump(p, index))
  {
  }

  /** Prev right after Next restores the previous position, also across the wrap at the last step. */
  lemma RetreatUndoesAdvance(c: Config, p: Position)
    requires ValidConfig(c) && InRange(c, p)
    ensures Retreat(c, Advance(c, p)) == p
  {
  }

  /**
   * Next right after Prev restores the position everywhere except at the
   * floor of the lap counter: from step 0 of lap 1 of a counting topic, Prev
   * stays in lap 1 and Next then starts lap 2.
   */
  lemma AdvanceUndoesRetreatExceptAtFloor(c: Config, p: Position)
    requires ValidConfig(c) && InRange(c, p)
    ensures Advance(c, Retreat(c, p)) == p <==> !(c.iterating && p.step == 0 && p.iterations == 1)
  {
  }

  /** Without a lap counter, Next and Prev are mutual inverses. */
  lemma NonIteratingInverses(c: Config, p: Position)
    requires ValidConfig(c) && InRange(c, p) && !c.iterating
    ensures Advance(c, Retreat(c, p)) == p && Retreat(c, Advance(c, p)) == p
  {
  }

  /**
   * After `k` clicks on Next from position (s, i), the step is (s + k) mod N
   * and, in a counting topic, the lap counter has grown by the number of
   * times the step list was passed: (s + k) div N.
   */
  lemma {:induction false} AdvanceTimesClosedForm(c: Config, p: Position, k: nat)
    requires ValidConfig(c) && InRange(c, p)
    ensures AdvanceTimes(c, p, k) ==
      Position((p.step + k) % c.steps,
               if c.iterating then p.iterations + (p.step + k) / c.steps else p.iterations)
    decreases k
  {
    if k > 0 {
      var m := p.step + k - 1;
      AdvanceTimesClosedForm(c, p, k - 1);
      DivModSuccessor(m, c.steps);
      var before := AdvanceTimes(c, p, k - 1);
      assert before.step == m % c.steps;
      assert p.step + k == m + 1;
      if m % c.steps < c.steps - 1 {
        assert AdvanceTimes(c, p, k) == Position(m % c.steps + 1, before.iterations);
      } else {
        assert AdvanceTimes(c, p, k) ==
          Position(0, if c.iterating then before.iterations + 1 else before.iterations);
      }
    }
  }

  /** How quotient and remainder change from m to m + 1. */
  lemma DivModSuccessor(m: nat, n: nat)
    requires n > 0
    ensures m % n < n - 1 ==> (m + 1) % n == m % n + 1 && (m + 1) / n == m / n
    ensures m % n == n - 1 ==> (m + 1) % n == 0 && (m + 1) / n == m / n + 1
  {
    var q, r := m / n, m % n;
    assert m == q * n + r;
    if r < n - 1 {
      assert m + 1 == q * n + (r + 1);
      DivModUnique(m + 1, n, q, r + 1);
    } else {
      assert m + 1 == (q + 1) * n + 0;
      DivModUnique(m + 1, n, q + 1, 0);
    }
  }

  /** Quotient and remainder are the only such pair. */
  lemma DivModUnique(m: nat, n: nat, q: int, r: int)
    requires n > 0 && 0 <= r < n && m == q * n + r
    ensures m / n == q && m % n == r
  {
    var q', r' := m / n, m % n;
    assert m == q' * n + r';
    assert (q - q') * n == r' - r;
    if q > q' {
      MulAtLeast(q - q', n);
    } else if q < q' {
      assert (q' - q) * n == r - r';
      MulAtLeast(q' - q, n);
    }
  }

  lemma {:induction false} MulAtLeast(d: nat, n: nat)
    requires d >= 1
    ensures d * n >= n
    decreases d
  {
    if d > 1 {
      MulAtLeast(d - 1, n);
      assert d * n == (d - 1) * n + n;
    }
  }

  /** One full lap (N clicks on Next) returns to the same step, one lap further on. */
  lemma FullLap(c: Config, p: Position)
    requires ValidConfig(c) && InRange(c, p)
    ensures AdvanceTimes(c, p, c.steps) ==
      Position(p.step, if c.iterating then p.iterations + 1 else p.iterations)
  {
    AdvanceTimesClosedForm(c, p, c.steps);
    DivModUnique(p.step + c.steps, c.steps, 1, p.step);
  }

  /** Clicks on Prev that do not pass step 0 only move the step back. */
  lemma {:induction false} RetreatTimesWithinLap(c: Config, p: Position, k: nat)
    requires ValidConfig(c) && k <= p.step
    ensures RetreatTimes(c, p, k) == Position(p.step - k, p.iterations)
    decreases k
  {
    if k > 0 {
      RetreatTimesWithinLap(c, p, k - 1);
    }
  }

  /** `a` clicks on Prev and then `b` more are `a + b` clicks on Prev. */
  lemma {:induction false} RetreatTimesAdd(c: Config, p: Position, a: nat, b: nat)
    requires ValidConfig(c)
    ensures RetreatTimes(c, p, a + b) == RetreatTimes(c, RetreatTimes(c, p, a), b)
    decreases b
  {
    if b > 0 {
      RetreatTimesAdd(c, p, a, b - 1);
    }
  }

  /**
   * One full lap backwards (N clicks on Prev) returns to the same step with
   * one lap fewer, but never fewer than one.
   */
  lemma FullLapBack(c: Config, p: Position)
    requires ValidConfig(c) && InRange(c, p)
    ensures RetreatTimes(c, p, c.steps) ==
      Position(p.step, if c.iterating then Max(1, p.iterations - 1) as nat else p.iterations)
  {
    var down := p.step;
    var up := c.steps - 1 - p.step;
    RetreatTimesWithinLap(c, p, down);
    var atZero := Position(0, p.iterations);
    var wrapped := Retreat(c, atZero);
    assert RetreatTimes(c, p, down + 1) == wrapped by {
      RetreatTimesAdd(c, p, down, 1);
      assert RetreatTimes(c, atZero, 1) == wrapped;
    }
    assert wrapped.step == c.steps - 1;
    RetreatTimesWithinLap(c, wrapped, up);
    assert RetreatTimes(c, wrapped, up) == Position(p.step, wrapped.iterations);
    RetreatTimesAdd(c, p, down + 1, up);
    assert down + 1 + up == c.steps;
  }

  /** With more than one step, every click on Next or Prev triggers a redraw. */
  lemma NextAndPrevAlwaysRedraw(c: Config, p: Position)
    requires ValidConfig(c) && InRange(c, p) && c.steps > 1
    ensures DepsChanged(c, p, Advance(c, p))
    ensures DepsChanged(c, p, Retreat(c, p))
  {
  }

  /** A picker click redraws exactly when it selects a different tile. */
  lemma JumpRedrawsIffMoved(c: Config, p: Position, index: nat)
    ensures DepsChanged(c, p, Jump(p, index)) <==> index != p.step
  {
  }

  // ---------------------------------------------------------------------
  // Sequences of clicks

  /** What the user can do on a panel: the two buttons, a picker tile, the math toggle, the help icon. */
  datatype Click = Next | Prev | Pick(index: nat) | ToggleMath | Hover(shown: bool)

  /** Picker tiles exist only for the steps; the math toggle only where the topic has one. */
  predicate Available(c: Config, k: Click) {
    match k
    case Pick(index) => index < c.steps
    case ToggleMath => c.mathToggle
    case _ => true
  }

  predicate AllAvailable(c: Config, clicks: seq<Click>) {
    forall i :: 0 <= i < |clicks| ==> Available(c, clicks[i])
  }

  /** The position after one click. */
  function Apply(c: Config, p: Position, k: Click): Position
    requires ValidConfig(c)
  {
    match k
    case Next => Advance(c, p)
    case Prev => Retreat(c, p)
    case Pick(index) => Jump(p, index)
    case _ => p
  }

  /** The position after a sequence of clicks, the first click first. */
  function Replay(c: Config, p: Position, clicks: seq<Click>): Position
    requires ValidConfig(c)
    decreases |clicks|
  {
    if clicks == [] then p else Replay(c, Apply(c, p, clicks[0]), clicks[1..])
  }

  /** How many of those clicks change the effect's dependencies, and so redraw. */
  function Redraws(c: Config, p: Position, clicks: seq<Click>): nat
    requires ValidConfig(c)
    decreases |clicks|
  {
    if clicks == [] then 0
    else
      var q := Apply(c, p, clicks[0]);
      (if DepsChanged(c, p, q) then 1 else 0) + Redraws(c, q, clicks[1..])
  }

  /** The clicks that move the navigator: toggles and hovers dropped. */
  function Navigational(clicks: seq<Click>): (r: seq<Click>)
    ensures |r| <= |clicks|
    ensures forall i :: 0 <= i < |r| ==> !r[i].ToggleMath? && !r[i].Hover?
  {
    if clicks == [] then []
    else if clicks[0].ToggleMath? || clicks[0].Hover? then Navigational(clicks[1..])
    else [clicks[0]] + Navigational(clicks[1..])
  }

  /** `k` clicks on Next. */
  function Nexts(k: nat): (r: seq<Click>)
    ensures |r| == k && forall i :: 0 <= i < k ==> r[i] == Next
  {
    seq(k, _ => Next)
  }

  /** Any sequence of available clicks keeps the position in range. */
  lemma {:induction false} ReplayStaysInRange(c: Config, p: Position, clicks: seq<Click>)
    requires ValidConfig(c) && InRange(c, p) && AllAvailable(c, clicks)
    ensures InRange(c, Replay(c, p, clicks))
    decreases |clicks|
  {
    if clicks != [] {
      var index := if clicks[0].Pick? then clicks[0].index else 0;
      TransitionsStayInRange(c, p, index);
      assert AllAvailable(c, clicks[1..]) by {
        forall i | 0 <= i < |clicks| - 1 ensures Available(c, clicks[1..][i]) {
          assert clicks[1..][i] == clicks[i + 1];
        }
      }
      ReplayStaysInRange(c, Apply(c, p, clicks[0]), clicks[1..]);
    }
  }

  /** Toggling the math details and hovering over the help icon neither move the navigator nor redraw. */
  lemma {:induction false} TogglesAndHoversAreInert(c: Config, p: Position, clicks: seq<Click>)
    requires ValidConfig(c)
    ensures Replay(c, p, Navigational(clicks)) == Replay(c, p, clicks)
    ensures Redraws(c, p, Navigational(clicks)) == Redraws(c, p, clicks)
    decreases |clicks|
  {
    if clicks != [] {
      TogglesAndHoversAreInert(c, Apply(c, p, clicks[0]), clicks[1..]);
      if clicks[0].ToggleMath? || clicks[0].Hover? {
        TogglesAndHoversAreInert(c, p, clicks[1..]);
      } else {
        var r := [clicks[0]] + Navigational(clicks[1..]);
        assert r[0] == clicks[0] && r[1..] == Navigational(clicks[1..]);
      }
    }
  }

  /** Clicking `a` and then `b` is clicking `a + b`. */
  lemma {:induction false} ReplayAppend(c: Config, p: Position, a: seq<Click>, b: seq<Click>)
    requires ValidConfig(c)
    ensures Replay(c, p, a + b) == Replay(c, Replay(c, p, a), b)
    ensures Redraws(c, p, a + b) == Redraws(c, p, a) + Redraws(c, Replay(c, p, a), b)
    decreases |a|
  {
    if a == [] {
      assert a + b == b;
    } else {
      assert (a + b)[0] == a[0] && (a + b)[1..] == a[1..] + b;
      ReplayAppend(c, Apply(c, p, a[0]), a[1..], b);
    }
  }

  /** `k` clicks on Next are `k` applications of `handleNextStep`. */
  lemma {:induction false} ReplayNexts(c: Config, p: Position, k: nat)
    requires ValidConfig(c)
    ensures Replay(c, p, Nexts(k)) == AdvanceTimes(c, p, k)
    decreases k
  {
    if k > 0 {
      ReplayNexts(c, p, k - 1);
      assert Nexts(k) == Nexts(k - 1) + [Next];
      ReplayAppend(c, p, Nexts(k - 1), [Next]);
    }
  }

  /** With more than one step, each of `k` clicks on Next redraws. */
  lemma {:induction false} EveryNextRedraws(c: Config, p: Position, k: nat)
    requires ValidConfig(c) && InRange(c, p) && c.steps > 1
    ensures Redraws(c, p, Nexts(k)) == k
    decreases k
  {
    if k > 0 {
      assert Nexts(k)[0] == Next && Nexts(k)[1..] == Nexts(k - 1);
      NextAndPrevAlwaysRedraw(c, p);
      TransitionsStayInRange(c, p, 0);
      EveryNextRedraws(c, Advance(c, p), k - 1);
    }
  }

  /**
   * Mounts a panel and performs `clicks` on it, the way a user session does;
   * returns the final position and the redraw counter.
   */
  method RunSession(c: Config, clicks: seq<Click>) returns (final: Position, key: nat)
    requires ValidConfig(c) && AllAvailable(c, clicks)
    ensures final == Replay(c, Initial, clicks)
    ensures key == 1 + Redraws(c, Initial, clicks)
  {
    var panel := new Panel(c);
    var i := 0;
    while i < |clicks|
      invariant 0 <= i <= |clicks|
      invariant panel.Valid() && panel.config == c
      invariant Replay(c, panel.Current(), clicks[i..]) == Replay(c, Initial, clicks)
      invariant panel.animationKey + Redraws(c, panel.Current(), clicks[i..]) == 1 + Redraws(c, Initial, clicks)
    {
      assert clicks[i..][0] == clicks[i] && clicks[i..][1..] == clicks[i + 1..];
      match clicks[i] {
        case Next => panel.HandleNextStep();
        case Prev => panel.HandlePrevStep();
        case Pick(index) => panel.SelectStep(index);
        case ToggleMath => panel.ToggleMathDetails();
        case Hover(shown) => panel.SetTooltip(shown);
      }
      i := i + 1;
    }
    final, key := panel.Current(), panel.animationKey;
  }

  // ---------------------------------------------------------------------
  // The component's state, updated in place by its event handlers

  class Panel {
    const config: Config
    var activeStep: nat
    var iterations: nat
    var animationKey: nat
    var showMathDetails: bool
    var showTooltip: bool

    function Current(): Position
      reads this
    {
      Position(activeStep, iterations)
    }

    ghost predicate Valid()
      reads this
    {
      ValidConfig(config) && InRange(config, Current()) &&
      (!config.mathToggle ==> !showMathDetails)
    }

    /** Whether the math concept and the terms key are on screen. */
    function MathVisible(): (shown: bool)
      reads this
      ensures !config.mathToggle ==> shown
      ensures config.mathToggle ==> shown == showMathDetails
    {
      !config.mathToggle || showMathDetails
    }

    /**
     * Mounting: the `useState` initial values, then the effect's run after
     * the first render, which takes `animationKey` from 0 to 1.
     */
    constructor (c: Config)
      requires ValidConfig(c)
      ensures Valid() && config == c
      ensures Current() == Initial && animationKey == 1
      ensures !showMathDetails && !showTooltip
    {
      config := c;
      activeStep, iterations := 0, 1;
      animationKey := 0;
      showMathDetails, showTooltip := false, false;
      new;
      animationKey := animationKey + 1;
    }

    /** The `useEffect` hook: bump the counter when the dependencies changed since `before`. */
    method RunEffect(before: Position)
      modifies this`animationKey
      ensures animationKey == old(animationKey) + (if DepsChanged(config, before, Current()) then 1 else 0)
    {
      if DepsChanged(config, before, Current()) {
        animationKey := animationKey + 1;
      }
    }

    method HandleNextStep()
      requires Valid()
      modifies this
      ensures Valid()
      ensures Current() == Advance(config, old(Current()))
      ensures animationKey == old(animationKey) + (if DepsChanged(config, old(Current()), Current()) then 1 else 0)
      ensures showMathDetails == old(showMathDetails) && showTooltip == old(showTooltip)
    {
      var before := Current();
      if activeStep < config.steps - 1 {
        activeStep := activeStep + 1;
      } else {
        activeStep := 0;
        if config.iterating {
          iterations := iterations + 1;
        }
      }
      RunEffect(before);
    }

    method HandlePrevStep()
      requires Valid()
      modifies this
      ensures Valid()
      ensures Current() == Retreat(config, old(Current()))
      ensures animationKey == old(animationKey) + (if DepsChanged(config, old(Current()), Current()) then 1 else 0)
      ensures showMathDetails == old(showMathDetails) && showTooltip == old(showTooltip)
    {
      var before := Current();
      if activeStep > 0 {
        activeStep := activeStep - 1;
      } else {
        activeStep := config.steps - 1;
        if config.iterating {
          iterations := Max(1, iterations - 1) as nat;
        }
      }
      RunEffect(before);
    }

    /** The picker tile's `onClick={() => setActiveStep(index)}`; tiles exist only for the steps. */
    method SelectStep(index: nat)
      requires Valid() && index < config.steps
      modifies this
      ensures Valid()
      ensures Current() == Jump(old(Current()), index)
      ensures animationKey == old(animationKey) + (if index != old(activeStep) then 1 else 0)
      ensures showMathDetails == old(showMathDetails) && showTooltip == old(showTooltip)
    {
      var before := Current();
      activeStep := index;
      RunEffect(before);
    }

    /** The "Show/Hide Mathematical Details" button, in topics that have one. */
    method ToggleMathDetails()
      requires Valid() && config.mathToggle
      modifies this
      ensures Valid()
      ensures showMathDetails == !old(showMathDetails)
      ensures Current() == old(Current()) && animationKey == old(animationKey)
      ensures showTooltip == old(showTooltip)
    {
      showMathDetails := !showMathDetails;
    }

    /** `onMouseEnter` (`shown`) and `onMouseLeave` (`!shown`) of the help icon. */
    method SetTooltip(shown: bool)
      requires Valid()
      modifies this
      ensures Valid()
      ensures showTooltip == shown
      ensures Current() == old(Current()) && animationKey == old(animationKey)
      ensures showMathDetails == old(showMathDetails)
    {
      showTooltip := shown;
    }
  }
}

/** The integral view (js/integral-vis.js): a curve over [0, 1] with the rectangles of
    a left Riemann sum under it. A slider or an animation chooses how many rectangles;
    `calculateIntegral` computes the same kind of sum numerically. */
module IntegralVis {
  import opened Js

  /** The first k terms fn(a + i*dx) * dx of a left Riemann sum, added up in the order
      `calculateIntegral`'s loop adds them. */
  function LeftSum(fn: real -> real, a: real, dx: real, k: nat): real
  {
    if k == 0 then 0.0 else LeftSum(fn, a, dx, k - 1) + fn(Sample(a, dx, k - 1)) * dx
  }

  /** The i-th sample point, a + i*dx. */
  function Sample(a: real, dx: real, i: int): real
  {
    a + i as real * dx
  }

  /** `calculateIntegral(fn, a, b, n)`: the left Riemann sum of fn over [a, b] with n
      equal sub-intervals. When n is not positive the loop never runs and the result is
      0 (JavaScript's width (b - a) / 0 is then never used). */
  method CalculateIntegral(fn: real -> real, a: real, b: real, n: int) returns (sum: real)
    ensures n <= 0 ==> sum == 0.0
    ensures n >= 1 ==> sum == LeftSum(fn, a, (b - a) / n as real, n)
  {
    var dx := if n == 0 then 0.0 else (b - a) / n as real;
    sum := 0.0;
    var i := 0;
    while i < n
      invariant 0 <= i && (i <= n || i == 0)
      invariant sum == LeftSum(fn, a, dx, i)
    {
      var x := a + i as real * dx;
      sum := sum + fn(x) * dx;
      assert x == Sample(a, dx, i);
      i := i + 1;
    }
  }

  /** Only the sample points a, a + dx, ..., a + (n-1)dx matter to the sum: two
      functions that agree there give the same sum. */
  lemma {:induction false} LeftSumDependsOnlyOnSamples(f: real -> real, g: real -> real, a: real, dx: real, n: nat)
    requires forall i :: 0 <= i < n ==> f(Sample(a, dx, i)) == g(Sample(a, dx, i))
    ensures LeftSum(f, a, dx, n) == LeftSum(g, a, dx, n)
  {
    if n > 0 {
      LeftSumDependsOnlyOnSamples(f, g, a, dx, n - 1);
    }
  }

  /** The samples are left endpoints: the first is a, each of them lies in [a, b) when
      a < b, and b itself is never among them when a != b. */
  lemma LeftEndpoints(a: real, b: real, n: nat, i: nat)
    requires n >= 1 && i < n
    ensures var x := Sample(a, (b - a) / n as real, i);
            (i == 0 ==> x == a) && (a < b ==> a <= x < b) && (a != b ==> x != b)
  {
    var dx := (b - a) / n as real;
    assert n as real * dx == b - a;
    SampleBeforeEnd(a, b, dx, n, i);
  }

  lemma SampleBeforeEnd(a: real, b: real, dx: real, n: nat, i: nat)
    requires i < n && n as real * dx == b - a
    ensures var x := Sample(a, dx, i);
            (i == 0 ==> x == a) && (a < b ==> a <= x < b) && (a != b ==> x != b)
  {
    var id, nd := i as real * dx, n as real * dx;
    if dx > 0.0 {
      if i > 0 {
        MulLess(0.0, i as real, dx);
      }
      MulLess(i as real, n as real, dx);
      assert id < nd;
    } else if dx < 0.0 {
      MulLess(i as real, n as real, -dx);
      assert (i as real) * (-dx) == -id;
      assert (n as real) * (-dx) == -nd;
      assert id > nd;
    } else {
      assert nd == 0.0;
    }
  }

  /** Changing the function at b does not change the sum: b is never sampled. */
  lemma RightEndpointIgnored(f: real -> real, g: real -> real, a: real, b: real, n: nat)
    requires n >= 1 && a != b
    requires forall x :: x != b ==> f(x) == g(x)
    ensures LeftSum(f, a, (b - a) / n as real, n) == LeftSum(g, a, (b - a) / n as real, n)
  {
    var dx := (b - a) / n as real;
    forall i | 0 <= i < n
      ensures f(Sample(a, dx, i)) == g(Sample(a, dx, i))
    {
      LeftEndpoints(a, b, n, i);
    }
    LeftSumDependsOnlyOnSamples(f, g, a, dx, n);
  }

  lemma {:induction false} LeftSumOfConstant(fn: real -> real, c: real, a: real, dx: real, k: nat)
    requires forall x :: fn(x) == c
    ensures LeftSum(fn, a, dx, k) == c * (k as real * dx)
  {
    if k > 0 {
      LeftSumOfConstant(fn, c, a, dx, k - 1);
      assert fn(Sample(a, dx, k - 1)) == c;
      assert k as real * dx == (k - 1) as real * dx + dx;
    }
  }

  /** A constant function c gives exactly c * (b - a), whatever n is. */
  lemma LeftSumConstantIsExact(fn: real -> real, c: real, a: real, b: real, n: nat)
    requires n >= 1 && forall x :: fn(x) == c
    ensures LeftSum(fn, a, (b - a) / n as real, n) == c * (b - a)
  {
    var dx := (b - a) / n as real;
    LeftSumOfConstant(fn, c, a, dx, n);
    assert n as real * dx == b - a;
  }

  /** The identity on [0, 1] with four rectangles: 0 + 0.25 + 0.5 + 0.75, times 0.25. */
  lemma LeftSumIdentityInQuarters()
    ensures LeftSum(x => x, 0.0, (1.0 - 0.0) / 4 as real, 4) == 0.375
  {
    var id := (x: real) => x;
    assert LeftSum(id, 0.0, 0.25, 1) == 0.0;
    assert LeftSum(id, 0.0, 0.25, 2) == 0.0625;
    assert LeftSum(id, 0.0, 0.25, 3) == 0.1875;
  }

  /** The heights of the rectangles a frame draws: rectangle i of n stands on
      [i/n, (i+1)/n] and is as tall as the function at its left end. */
  function RectangleHeights(fn: real -> real, n: int): (hs: seq<real>)
    ensures |hs| == if n > 0 then n else 0
    ensures forall i :: 0 <= i < |hs| ==> hs[i] == fn(i as real / n as real)
  {
    if n <= 0 then [] else seq(n, i requires 0 <= i < n => fn(i as real / n as real))
  }

  /** Each rectangle's sample point lies in [0, 1). */
  lemma RectangleSamplesInUnitInterval(n: int, i: int)
    requires 0 <= i < n
    ensures 0.0 <= i as real / n as real < 1.0
  {
    var t := i as real / n as real;
    assert t * n as real == i as real;
    if t < 0.0 {
      MulLess(t, 0.0, n as real);
    }
    if t >= 1.0 {
      MulLe(1.0, t, n as real);
    }
  }

  function Sum(xs: seq<real>): real
  {
    if xs == [] then 0.0 else Sum(xs[..|xs| - 1]) + xs[|xs| - 1]
  }

  lemma {:induction false} RectanglePrefixArea(fn: real -> real, n: int, k: nat)
    requires 1 <= n && k <= n
    ensures Sum(RectangleHeights(fn, n)[..k]) * (1.0 / n as real) == LeftSum(fn, 0.0, 1.0 / n as real, k)
  {
    var hs, w := RectangleHeights(fn, n), 1.0 / n as real;
    if k > 0 {
      RectanglePrefixArea(fn, n, k - 1);
      assert hs[..k][..k - 1] == hs[..k - 1];
      var h := hs[k - 1];
      DivideAsSample(k - 1, n);
      Distribute(Sum(hs[..k - 1]), h, w);
    }
  }

  lemma DivideAsSample(i: int, n: int)
    requires n >= 1
    ensures i as real / n as real == Sample(0.0, 1.0 / n as real, i)
  {
  }

  /** The rectangles a frame draws cover exactly the area `calculateIntegral(fn, 0, 1, n)`
      computes. */
  lemma RectangleAreaIsLeftSum(fn: real -> real, n: int)
    requires n >= 1
    ensures Sum(RectangleHeights(fn, n)) * (1.0 / n as real) == LeftSum(fn, 0.0, (1.0 - 0.0) / n as real, n)
  {
    RectanglePrefixArea(fn, n, n);
    assert RectangleHeights(fn, n)[..n] == RectangleHeights(fn, n);
  }

  /** The initial curve, sin(πx) * 0.5 + 0.5, which stays within [0, 1]. */
  function DefaultFunction(sin: real -> real): (fn: real -> real)
    ensures forall x :: fn(x) == sin(x * PI) * 0.5 + 0.5
    ensures Bounded(sin) ==> forall x :: 0.0 <= fn(x) <= 1.0
  {
    x => sin(x * PI) * 0.5 + 0.5
  }

  /** The view's `state`, plus the slider (absent, or present with its value). */
  datatype IntegralState = IntegralState(numRectangles: int, showArea: bool, fn: real -> real,
                                         lowerBound: real, upperBound: real, time: real,
                                         animating: bool, slider: Option<int>)

  function Init(sin: real -> real, slider: Option<int>): IntegralState
  {
    IntegralState(10, false, DefaultFunction(sin), 0.0, 1.0, 0.0, false, slider)
  }

  /** The slider, when there is one, shows the number of rectangles. */
  predicate Synced(s: IntegralState)
  {
    s.slider.Some? ==> s.slider.value == s.numRectangles
  }

  ghost predicate Inv(s: IntegralState)
  {
    && s.time >= 0.0
    && (s.animating ==> s.showArea)
    && Synced(s)
  }

  /** `addRectangles()`: show the rectangles and stop the animation. */
  function OnAddRectangles(s: IntegralState): (r: IntegralState)
    ensures r.showArea && !r.animating
    ensures r.(showArea := s.showArea, animating := s.animating) == s
  {
    s.(showArea := true, animating := false)
  }

  /** `showArea()`: toggles the animation; only turning it on restarts the clock and
      shows the rectangles. */
  function OnShowArea(s: IntegralState): (r: IntegralState)
    ensures r.animating == !s.animating
    ensures !s.animating ==> r.time == 0.0 && r.showArea
    ensures s.animating ==> r.time == s.time && r.showArea == s.showArea
    ensures r.(animating := s.animating, time := s.time, showArea := s.showArea) == s
  {
    if !s.animating then s.(animating := true, time := 0.0, showArea := true)
    else s.(animating := false)
  }

  function OnSetFunction(s: IntegralState, fn: real -> real): (r: IntegralState)
    ensures r.fn == fn && r.(fn := s.fn) == s
  {
    s.(fn := fn)
  }

  function OnSetBounds(s: IntegralState, lower: real, upper: real): (r: IntegralState)
    ensures r.lowerBound == lower && r.upperBound == upper
    ensures r.(lowerBound := s.lowerBound, upperBound := s.upperBound) == s
  {
    s.(lowerBound := lower, upperBound := upper)
  }

  /** The slider's `input` listener (registered only when the slider exists), given the
      integer `parseInt` reads. Its `if (showArea) showArea = true` changes nothing. */
  function OnSliderInput(s: IntegralState, value: int): (r: IntegralState)
    ensures s.slider.None? ==> r == s
    ensures s.slider.Some? ==> r.numRectangles == value && r.slider == Some(value)
    ensures r.showArea == s.showArea
    ensures r.(numRectangles := s.numRectangles, slider := s.slider) == s
  {
    if s.slider.None? then s else s.(numRectangles := value, slider := Some(value))
  }

  /** The animation's part of a frame: the clock moves on by 0.016 and the number of
      rectangles follows floor(4 + 46 |sin(time)|), echoed into the slider. */
  function Advanced(s: IntegralState, sin: real -> real): (r: IntegralState)
    ensures r.time == s.time + 0.016
    ensures Bounded(sin) ==> 4 <= r.numRectangles <= 50
    ensures r.numRectangles as real <= 4.0 + 46.0 * Abs(sin(r.time)) < r.numRectangles as real + 1.0
    ensures Synced(r) || r.slider.None?
    ensures r.slider.Some? <==> s.slider.Some?
    ensures r.(time := s.time, numRectangles := s.numRectangles, slider := s.slider) == s
  {
    var t := s.time + 0.016;
    var n := (4.0 + 46.0 * Abs(sin(t))).Floor;
    s.(time := t, numRectangles := n, slider := if s.slider.Some? then Some(n) else None)
  }

  /** One call of the frame callback: the new state, and the heights of the rectangles
      drawn (`None` when the idle check returns early, no rectangles unless `showArea`).
      The rectangles use the number from before this frame's animation step. */
  function OnFrame(s: IntegralState, sin: real -> real): (r: (IntegralState, Option<seq<real>>))
    ensures !s.showArea && !s.animating ==> r == (s, None)
    ensures !s.animating ==> r.0 == s
    ensures s.animating ==> r.0 == Advanced(s, sin)
    ensures (s.showArea || s.animating) ==> r.1.Some?
    ensures s.showArea ==> r.1 == Some(RectangleHeights(s.fn, s.numRectangles))
    ensures !s.showArea && s.animating ==> r.1 == Some([])
  {
    if !s.showArea && !s.animating then (s, None)
    else
      var heights := if s.showArea then RectangleHeights(s.fn, s.numRectangles) else [];
      (if s.animating then Advanced(s, sin) else s, Some(heights))
  }

  /** `setBounds` stores bounds that no frame reads: they change nothing on screen. */
  lemma FrameIgnoresBounds(s: IntegralState, sin: real -> real, lower: real, upper: real)
    ensures OnFrame(OnSetBounds(s, lower, upper), sin).1 == OnFrame(s, sin).1
    ensures OnFrame(OnSetBounds(s, lower, upper), sin).0 == OnSetBounds(OnFrame(s, sin).0, lower, upper)
  {
  }

  datatype Event =
    | AddRectangles | ShowArea | SetFunction(fn: real -> real) | SetBounds(lower: real, upper: real)
    | SliderInput(value: int) | Frame

  function Step(s: IntegralState, e: Event, sin: real -> real): IntegralState
  {
    match e
    case AddRectangles => OnAddRectangles(s)
    case ShowArea => OnShowArea(s)
    case SetFunction(fn) => OnSetFunction(s, fn)
    case SetBounds(lower, upper) => OnSetBounds(s, lower, upper)
    case SliderInput(v) => OnSliderInput(s, v)
    case Frame => OnFrame(s, sin).0
  }

  function Run(s: IntegralState, es: seq<Event>, sin: real -> real): IntegralState
    decreases |es|
  {
    if es == [] then s else Run(Step(s, es[0], sin), es[1..], sin)
  }

  /** Whatever value the page gives the slider at load, the first slider input or
      animating frame brings it in step with the number of rectangles. */
  lemma FirstWriteSyncsSlider(s: IntegralState, e: Event, sin: real -> real)
    requires e.SliderInput? || (e.Frame? && s.animating)
    ensures Synced(Step(s, e, sin))
  {
  }

  lemma InitInv(sin: real -> real, slider: Option<int>)
    requires slider.None? || slider.value == 10
    ensures Inv(Init(sin, slider))
  {
  }

  lemma StepKeepsInv(s: IntegralState, e: Event, sin: real -> real)
    requires Inv(s)
    ensures Inv(Step(s, e, sin))
  {
  }

  /** However API calls, slider inputs and frames interleave, the slider and the
      number of rectangles agree, the clock never runs backwards, and the animation
      only runs while the rectangles are shown (so the idle check reduces to
      `!showArea`). */
  lemma {:induction false} RunKeepsInv(s: IntegralState, es: seq<Event>, sin: real -> real)
    requires Inv(s)
    ensures Inv(Run(s, es, sin))
    decreases |es|
  {
    if es != [] {
      StepKeepsInv(s, es[0], sin);
      RunKeepsInv(Step(s, es[0], sin), es[1..], sin);
    }
  }

  /** The view as an object: the fields of `state` and the slider, with one method per
      API call, the slider listener and the frame. */
  class IntegralView {
    var numRectangles: int
    var showArea: bool
    var fn: real -> real
    var lowerBound: real
    var upperBound: real
    var time: real
    var animating: bool
    var slider: Option<int>

    function Snapshot(): IntegralState
      reads this
    {
      IntegralState(numRectangles, showArea, fn, lowerBound, upperBound, time, animating, slider)
    }

    constructor (sin: real -> real, slider: Option<int>)
      ensures Snapshot() == Init(sin, slider)
    {
      numRectangles, showArea, fn := 10, false, DefaultFunction(sin);
      lowerBound, upperBound, time, animating := 0.0, 1.0, 0.0, false;
      this.slider := slider;
    }

    method AddRectangles()
      modifies this
      ensures Snapshot() == OnAddRectangles(old(Snapshot()))
    {
      showArea := true;
      animating := false;
    }

    method ShowArea()
      modifies this
      ensures Snapshot() == OnShowArea(old(Snapshot()))
    {
      animating := !animating;
      if animating {
        time := 0.0;
        showArea := true;
      }
    }

    method SetFunction(f: real -> real)
      modifies this
      ensures Snapshot() == OnSetFunction(old(Snapshot()), f)
    {
      fn := f;
    }

    method SetBounds(lower: real, upper: real)
      modifies this
      ensures Snapshot() == OnSetBounds(old(Snapshot()), lower, upper)
    {
      lowerBound := lower;
      upperBound := upper;
    }

    method SliderInput(value: int)
      modifies this
      ensures Snapshot() == OnSliderInput(old(Snapshot()), value)
    {
      if slider.Some? {
        slider := Some(value);
        numRectangles := value;
        if showArea {
          showArea := true;
        }
      }
    }

    method Frame(sin: real -> real) returns (drawn: Option<seq<real>>)
      modifies this
      ensures (Snapshot(), drawn) == OnFrame(old(Snapshot()), sin)
    {
      if !showArea && !animating {
        return None;
      }
      var heights: seq<real> := [];
      if showArea {
        var i := 0;
        while i < numRectangles
          invariant 0 <= i && (i <= numRectangles || i == 0)
          invariant |heights| == i
          invariant forall j :: 0 <= j < i ==> heights[j] == fn(j as real / numRectangles as real)
        {
          var x := i as real / numRectangles as real;
          heights := heights + [fn(x)];
          i := i + 1;
        }
        assert heights == RectangleHeights(fn, numRectangles);
      }
      if animating {
        time := time + 0.016;
        numRectangles := (4.0 + 46.0 * Abs(sin(time))).Floor;
        if slider.Some? {
          slider := Some(numRectangles);
        }
        assert Snapshot() == Advanced(old(Snapshot()), sin);
      }
      drawn := Some(heights);
    }
  }
}

/** The derivative view (js/derivative-vis.js): a point moving along the curve
    sin(2πt)/2 for t in [0, 1], with an optional tangent line drawn at it. */
module DerivativeVis {
  import opened Js

  /** The script's `state`. */
  datatype DerivativeState = DerivativeState(point: real, showingTangent: bool, animating: bool)

  /** The point at the middle, no tangent, not animating. */
  function Init(): DerivativeState
  {
    DerivativeState(0.5, false, false)
  }

  /** The tangent handed to the tangent shader: the point in clip coordinates and the
      slope cos(2πt)·π. */
  datatype Tangent = Tangent(x: real, slope: real)

  /** What a non-idle frame draws: the curve, and the tangent when it is shown. */
  datatype Picture = Picture(tangent: Option<Tangent>)

  function TangentAt(cos: real -> real, point: real): (t: Tangent)
    ensures t.x == point * 2.0 - 1.0 && t.slope == cos(point * PI * 2.0) * PI
    ensures 0.0 <= point <= 1.0 ==> -1.0 <= t.x <= 1.0
    ensures point == 0.5 ==> t.x == 0.0
    ensures Bounded(cos) ==> -PI <= t.slope <= PI
  {
    Tangent(point * 2.0 - 1.0, cos(point * PI * 2.0) * PI)
  }

  /** The clock step of an animating frame: + 0.005, wrapped with `% 1`. */
  function Advanced(s: DerivativeState): (r: DerivativeState)
    ensures !s.animating ==> r == s
    ensures s.animating ==> r.point == Rem(s.point + 0.005, 1.0)
    ensures r.(point := s.point) == s
  {
    if s.animating then s.(point := Rem(s.point + 0.005, 1.0)) else s
  }

  /** From a point in [0, 1] the step moves forward by 0.005, or wraps round past 1. */
  lemma AdvanceWraps(s: DerivativeState)
    requires s.animating && 0.0 <= s.point <= 1.0
    ensures 0.0 <= Advanced(s).point < 1.0
    ensures s.point < 0.995 ==> Advanced(s).point == s.point + 0.005
    ensures s.point >= 0.995 ==> Advanced(s).point == s.point + 0.005 - 1.0
  {
    var x := s.point + 0.005;
    if x >= 1.0 {
      assert x / 1.0 == x;
      assert Trunc(x / 1.0) == 1;
    }
  }

  /** One call of the frame callback: nothing when neither animating nor showing the
      tangent; otherwise the picture (with the tangent at the current point when it is
      shown), then the point advances. */
  function OnFrame(s: DerivativeState, cos: real -> real): (r: (DerivativeState, Option<Picture>))
    ensures !s.animating && !s.showingTangent ==> r == (s, None)
    ensures s.animating || s.showingTangent ==> r.0 == Advanced(s) && r.1.Some?
    ensures r.1.Some? && r.1.value.tangent.Some? <==> s.showingTangent
    ensures s.showingTangent ==> r.1.value.tangent.value == TangentAt(cos, s.point)
  {
    if !s.animating && !s.showingTangent then (s, None)
    else
      var tangent := if s.showingTangent then Some(TangentAt(cos, s.point)) else None;
      (Advanced(s), Some(Picture(tangent)))
  }

  /** The slider listener: the point at value / 100, and the tangent shown. */
  function OnSliderInput(s: DerivativeState, value: real): (r: DerivativeState)
    ensures r.point * 100.0 == value && r.showingTangent && r.animating == s.animating
    ensures 0.0 <= value <= 100.0 ==> 0.0 <= r.point <= 1.0
  {
    s.(point := value / 100.0, showingTangent := true)
  }

  /** `showTangent()`: only `showingTangent` changes, to true. */
  function OnShowTangent(s: DerivativeState): (r: DerivativeState)
    ensures r.showingTangent && r.(showingTangent := s.showingTangent) == s
  {
    s.(showingTangent := true)
  }

  lemma ShowTangentIdempotent(s: DerivativeState)
    ensures OnShowTangent(OnShowTangent(s)) == OnShowTangent(s)
  {
  }

  /** `animate()`: only `animating` changes, to its negation. */
  function OnAnimate(s: DerivativeState): (r: DerivativeState)
    ensures r.animating != s.animating && r.(animating := s.animating) == s
  {
    s.(animating := !s.animating)
  }

  lemma AnimateTwice(s: DerivativeState)
    ensures OnAnimate(OnAnimate(s)) == s
  {
  }

  datatype Event = SliderInput(value: real) | ShowTangent | Animate | Frame

  function Step(s: DerivativeState, e: Event, cos: real -> real): DerivativeState
  {
    match e
    case SliderInput(v) => OnSliderInput(s, v)
    case ShowTangent => OnShowTangent(s)
    case Animate => OnAnimate(s)
    case Frame => OnFrame(s, cos).0
  }

  function Run(s: DerivativeState, es: seq<Event>, cos: real -> real): DerivativeState
    decreases |es|
  {
    if es == [] then s else Run(Step(s, es[0], cos), es[1..], cos)
  }

  /** Slider values stay on the slider's percentage scale. */
  predicate PercentSlider(es: seq<Event>)
  {
    forall i :: 0 <= i < |es| && es[i].SliderInput? ==> 0.0 <= es[i].value <= 100.0
  }

  ghost predicate Inv(s: DerivativeState)
  {
    0.0 <= s.point <= 1.0
  }

  lemma InitInv()
    ensures Inv(Init())
  {
  }

  lemma StepKeepsInv(s: DerivativeState, e: Event, cos: real -> real)
    requires Inv(s)
    requires e.SliderInput? ==> 0.0 <= e.value <= 100.0
    ensures Inv(Step(s, e, cos))
  {
    if e.Frame? && s.animating {
      AdvanceWraps(s);
    }
  }

  /** With slider values in [0, 100], the point never leaves [0, 1]. */
  lemma {:induction false} RunKeepsInv(s: DerivativeState, es: seq<Event>, cos: real -> real)
    requires Inv(s) && PercentSlider(es)
    ensures Inv(Run(s, es, cos))
    decreases |es|
  {
    if es != [] {
      StepKeepsInv(s, es[0], cos);
      assert PercentSlider(es[1..]) by {
        forall i | 0 <= i < |es[1..]| && es[1..][i].SliderInput?
          ensures 0.0 <= es[1..][i].value <= 100.0
        {
          assert es[1..][i] == es[i + 1];
        }
      }
      RunKeepsInv(Step(s, es[0], cos), es[1..], cos);
    }
  }

  /** Frames alone never change an idle view. */
  lemma {:induction false} IdleFramesChangeNothing(s: DerivativeState, n: nat, cos: real -> real)
    requires !s.animating && !s.showingTangent
    ensures Run(s, seq(n, _ => Frame), cos) == s
    decreases n
  {
    if n > 0 {
      assert seq(n, _ => Frame)[1..] == seq(n - 1, _ => Frame);
      IdleFramesChangeNothing(s, n - 1, cos);
    }
  }

  /** The script's state as an object, with the API, the slider listener and the
      frame callback as methods. */
  class DerivativeView {
    var point: real
    var showingTangent: bool
    var animating: bool

    function Snapshot(): DerivativeState
      reads this
    {
      DerivativeState(point, showingTangent, animating)
    }

    constructor ()
      ensures Snapshot() == Init()
    {
      point, showingTangent, animating := 0.5, false, false;
    }

    method SliderInput(value: real)
      modifies this
      ensures Snapshot() == OnSliderInput(old(Snapshot()), value)
    {
      point := value / 100.0;
      showingTangent := true;
    }

    method ShowTangent()
      modifies this
      ensures Snapshot() == OnShowTangent(old(Snapshot()))
    {
      showingTangent := true;
    }

    method Animate()
      modifies this
      ensures Snapshot() == OnAnimate(old(Snapshot()))
    {
      animating := !animating;
    }

    method Frame(cos: real -> real) returns (drawn: Option<Picture>)
      modifies this
      ensures (Snapshot(), drawn) == OnFrame(old(Snapshot()), cos)
    {
      if !animating && !showingTangent {
        return None;
      }
      var tangent := None;
      if showingTangent {
        tangent := Some(TangentAt(cos, point));
      }
      drawn := Some(Picture(tangent));
      if animating {
        point := Rem(point + 0.005, 1.0);
      }
    }
  }
}

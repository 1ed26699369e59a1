/** The limit view (js/limit-vis.js): the curve sin(2πx), mirrored below the axis left
    of x = 0.5 and undefined within 0.001 of it, with two markers that close in on a
    chosen x (`approaching`) from either side at distance `epsilon`. The pointer and a
    slider choose `approaching`; an animation makes `epsilon` pulse. */
module LimitVis {
  import opened Js

  datatype Point = Point(x: real, y: real)

  /** `f`: sin(2πx) times the sign of x - 0.5, with a hole (`null`) around 0.5. */
  function F(sin: real -> real, x: real): (r: Option<real>)
    ensures r.None? <==> Abs(x - 0.5) < 0.001
    ensures r.Some? && x > 0.5 ==> r.value == sin(x * PI * 2.0)
    ensures r.Some? && x < 0.5 ==> r.value == -sin(x * PI * 2.0)
    ensures r.Some? && Bounded(sin) ==> -1.0 <= r.value <= 1.0
  {
    if Abs(x - 0.5) < 0.001 then None
    else
      var sign := (x - 0.5) / Abs(x - 0.5);
      SignIsUnit(x - 0.5);
      Some(sin(x * PI * 2.0) * sign)
  }

  /** d / |d| is 1 for positive d and -1 for negative d. */
  lemma SignIsUnit(d: real)
    requires d != 0.0
    ensures d > 0.0 ==> d / Abs(d) == 1.0
    ensures d < 0.0 ==> d / Abs(d) == -1.0
  {
  }

  /** `f(x) * 0.5` as JavaScript evaluates it: `null * 0.5` is 0, so a marker that
      falls into the hole is drawn on the axis. */
  function MarkerY(sin: real -> real, x: real): (y: real)
    ensures Abs(x - 0.5) < 0.001 ==> y == 0.0
    ensures Abs(x - 0.5) >= 0.001 ==> y * 2.0 == F(sin, x).value
    ensures Bounded(sin) ==> -0.5 <= y <= 0.5
  {
    match F(sin, x)
    case None => 0.0
    case Some(v) => v * 0.5
  }

  /** `generateArrowPoints`: three line segments (pairs of points): the shaft from the
      tail to the tip, then two barbs out of the tip. The barbs always go back towards
      smaller x, whichever way the shaft points. */
  function GenerateArrowPoints(fromX: real, toX: real, y: real): (r: seq<Point>)
    ensures |r| == 6
    ensures r[0] == Point(fromX, y) && r[1] == Point(toX, y)
    ensures r[2] == r[1] && r[4] == r[1]
    ensures r[3].x == r[5].x == toX - 0.1
    ensures r[3].y - y == y - r[5].y == 0.05
  {
    [Point(fromX, y), Point(toX, y),
     Point(toX, y), Point(toX - 0.1, y + 0.05),
     Point(toX, y), Point(toX - 0.1, y - 0.05)]
  }

  /** As written, an arrow drawn right-to-left (the right-hand one in the frame) gets
      its barbs beyond the tip, on the side away from its tail: its head points the
      wrong way. */
  lemma ArrowHeadReversedWhenPointingLeft(fromX: real, toX: real, y: real)
    requires toX < fromX
    ensures var r := GenerateArrowPoints(fromX, toX, y);
            r[3].x < r[1].x < r[0].x && r[5].x < r[1].x
  {
  }

  /** The arrow with its barbs on the tail's side of the tip, whichever way it points. */
  function DirectedArrowPoints(fromX: real, toX: real, y: real): (r: seq<Point>)
    ensures |r| == 6
    ensures r[0] == Point(fromX, y) && r[1] == Point(toX, y)
    ensures r[2] == r[1] && r[4] == r[1]
    ensures r[3].x == r[5].x && r[3].y - y == y - r[5].y == 0.05
    ensures fromX < toX ==> fromX <= r[3].x + 0.1 && r[3].x < toX
    ensures toX < fromX ==> toX < r[3].x && r[3].x - 0.1 <= fromX
    ensures fromX <= toX ==> r == GenerateArrowPoints(fromX, toX, y)
  {
    var back := if fromX <= toX then 0.1 else -0.1;
    [Point(fromX, y), Point(toX, y),
     Point(toX, y), Point(toX - back, y + 0.05),
     Point(toX, y), Point(toX - back, y - 0.05)]
  }

  /** What one drawn frame shows besides the curve: the two sample points either side
      of `approaching`, their markers in clip space, and an arrow into each marker. */
  datatype Approach = Approach(leftSample: real, rightSample: real, left: Point, right: Point,
                               leftArrow: seq<Point>, rightArrow: seq<Point>)

  function ApproachGeometry(sin: real -> real, approaching: real, epsilon: real): (g: Approach)
    ensures (g.leftSample + g.rightSample) / 2.0 == approaching
    ensures g.rightSample - g.leftSample == 2.0 * epsilon
    ensures g.left == Point(g.leftSample * 2.0 - 1.0, MarkerY(sin, g.leftSample))
    ensures g.right == Point(g.rightSample * 2.0 - 1.0, MarkerY(sin, g.rightSample))
    ensures |g.leftArrow| == 6 && g.leftArrow[1] == g.left && g.leftArrow[0] == Point(g.left.x - 0.2, g.left.y)
    ensures |g.rightArrow| == 6 && g.rightArrow[1] == g.right && g.rightArrow[0] == Point(g.right.x + 0.2, g.right.y)
    ensures g.leftArrow == GenerateArrowPoints(g.left.x - 0.2, g.left.x, g.left.y)
    ensures g.rightArrow == GenerateArrowPoints(g.right.x + 0.2, g.right.x, g.right.y)
  {
    var leftPoint := approaching - epsilon;
    var rightPoint := approaching + epsilon;
    var left := Point(leftPoint * 2.0 - 1.0, MarkerY(sin, leftPoint));
    var right := Point(rightPoint * 2.0 - 1.0, MarkerY(sin, rightPoint));
    Approach(leftPoint, rightPoint, left, right,
             GenerateArrowPoints(leftPoint * 2.0 - 1.2, leftPoint * 2.0 - 1.0, left.y),
             GenerateArrowPoints(rightPoint * 2.0 - 0.8, rightPoint * 2.0 - 1.0, right.y))
  }

  /** The right-hand arrow of every drawn frame runs leftwards into its marker, so
      its barbs end beyond the tip, on the side away from the tail. */
  lemma FrameRightArrowReversed(sin: real -> real, approaching: real, epsilon: real)
    ensures var g := ApproachGeometry(sin, approaching, epsilon);
            g.rightArrow[3].x < g.rightArrow[1].x < g.rightArrow[0].x &&
            g.rightArrow[5].x < g.rightArrow[1].x
  {
    var g := ApproachGeometry(sin, approaching, epsilon);
    ArrowHeadReversedWhenPointingLeft(g.right.x + 0.2, g.right.x, g.right.y);
  }

  /** The view's `state`, plus the handlers' `isDragging` and the slider (absent, or
      present with its value). `dragging` is the field the idle check reads; nothing
      in the source assigns it, so it stays `undefined`, i.e. false. */
  datatype LimitState = LimitState(time: real, animating: bool, approaching: real, epsilon: real,
                                   dragging: bool, isDragging: bool, slider: Option<real>)

  function Init(slider: Option<real>): LimitState
  {
    LimitState(0.0, false, 0.5, 0.1, false, false, slider)
  }

  /** The slider, when there is one, shows `approaching` as a percentage. */
  predicate Synced(s: LimitState)
  {
    s.slider.Some? ==> s.slider.value == s.approaching * 100.0
  }

  /** What every reachable state satisfies. */
  ghost predicate Inv(s: LimitState)
  {
    && 0.0 <= s.epsilon <= 0.2
    && s.time >= 0.0
    && !s.dragging
    && Synced(s)
  }

  /** `updateFromMouse`, given the pointer's position as a fraction of the width. */
  function UpdatedFromMouse(s: LimitState, x: real): (r: LimitState)
    ensures 0.1 <= r.approaching <= 0.9
    ensures 0.1 <= x <= 0.9 ==> r.approaching == x
    ensures r.approaching == Clamp(0.1, 0.9, x)
    ensures r.slider.Some? <==> s.slider.Some?
    ensures Synced(r)
    ensures r == s.(approaching := r.approaching, slider := r.slider)
  {
    var a := Clamp(0.1, 0.9, x);
    s.(approaching := a, slider := if s.slider.Some? then Some(a * 100.0) else None)
  }

  function OnMouseDown(s: LimitState, x: real): (r: LimitState)
    ensures r.isDragging && 0.1 <= r.approaching <= 0.9 && Synced(r)
    ensures r == UpdatedFromMouse(s, x).(isDragging := true)
  {
    UpdatedFromMouse(s.(isDragging := true), x)
  }

  /** A move only counts while a drag is in progress. */
  function OnMouseMove(s: LimitState, x: real): (r: LimitState)
    ensures !s.isDragging ==> r == s
    ensures s.isDragging ==> 0.1 <= r.approaching <= 0.9 && Synced(r)
    ensures s.isDragging ==> r == UpdatedFromMouse(s, x)
    ensures r.isDragging == s.isDragging
  {
    if s.isDragging then UpdatedFromMouse(s, x) else s
  }

  function OnMouseUp(s: LimitState): (r: LimitState)
    ensures !r.isDragging && r.(isDragging := s.isDragging) == s
  {
    s.(isDragging := false)
  }

  /** The slider's `input` listener: only registered when the slider exists, and it
      does not clamp. */
  function OnSliderInput(s: LimitState, value: real): (r: LimitState)
    ensures s.slider.None? ==> r == s
    ensures s.slider.Some? ==> r.approaching * 100.0 == value && r.slider == Some(value)
    ensures Synced(r) || r == s
    ensures r.(approaching := s.approaching, slider := s.slider) == s
  {
    if s.slider.None? then s else s.(approaching := value / 100.0, slider := Some(value))
  }

  /** The slider listener lets the approach point leave [0.1, 0.9]. */
  lemma SliderDoesNotClamp(s: LimitState)
    requires s.slider.Some?
    ensures OnSliderInput(s, 100.0).approaching == 1.0
    ensures OnSliderInput(s, 0.0).approaching == 0.0
  {
  }

  /** `animate()`: toggles the animation and restarts its clock either way. */
  function OnAnimate(s: LimitState): (r: LimitState)
    ensures r.animating == !s.animating && r.time == 0.0
    ensures r.(animating := s.animating, time := s.time) == s
  {
    s.(animating := !s.animating, time := 0.0)
  }

  lemma AnimateTwice(s: LimitState)
    ensures OnAnimate(OnAnimate(s)) == s.(time := 0.0)
  {
  }

  /** `reset()`: the initial values, and the slider back to 50 when there is one. */
  function OnReset(s: LimitState): (r: LimitState)
    ensures !r.animating && r.approaching == 0.5 && r.epsilon == 0.1 && r.time == 0.0
    ensures r.slider == (if s.slider.Some? then Some(50.0) else None)
    ensures r.dragging == s.dragging && r.isDragging == s.isDragging
    ensures Synced(r)
  {
    s.(animating := false, approaching := 0.5, epsilon := 0.1, time := 0.0,
       slider := if s.slider.Some? then Some(50.0) else None)
  }

  /** `setEpsilon(value)`: clamps into [0.01, 0.2]. */
  function OnSetEpsilon(s: LimitState, value: real): (r: LimitState)
    ensures 0.01 <= r.epsilon <= 0.2
    ensures 0.01 <= value <= 0.2 ==> r.epsilon == value
    ensures value < 0.01 ==> r.epsilon == 0.01
    ensures value > 0.2 ==> r.epsilon == 0.2
    ensures r.(epsilon := s.epsilon) == s
  {
    s.(epsilon := Clamp(0.01, 0.2, value))
  }

  lemma SetEpsilonIdempotent(s: LimitState, value: real)
    ensures OnSetEpsilon(OnSetEpsilon(s, value), OnSetEpsilon(s, value).epsilon) == OnSetEpsilon(s, value)
  {
  }

  /** The animation's part of a frame: the clock moves on by 0.016 and `epsilon`
      follows |sin(time)| * 0.2. */
  function Advanced(s: LimitState, sin: real -> real): (r: LimitState)
    ensures r.time == s.time + 0.016
    ensures r.epsilon == Abs(sin(r.time)) * 0.2
    ensures Bounded(sin) ==> 0.0 <= r.epsilon <= 0.2
    ensures r.(time := s.time, epsilon := s.epsilon) == s
  {
    var t := s.time + 0.016;
    s.(time := t, epsilon := Abs(sin(t)) * 0.2)
  }

  /** One call of the frame callback: the new state, and what is drawn (`None` when
      the idle check returns early). */
  function OnFrame(s: LimitState, sin: real -> real): (r: (LimitState, Option<Approach>))
    ensures !s.animating && !s.dragging ==> r == (s, None)
    ensures !s.animating ==> r.0 == s
    ensures s.animating ==> r.0 == Advanced(s, sin)
    ensures r.1.Some? <==> s.animating || s.dragging
    ensures r.1.Some? ==> r.1.value == ApproachGeometry(sin, r.0.approaching, r.0.epsilon)
  {
    if !s.animating && !s.dragging then (s, None)
    else
      var n := if s.animating then Advanced(s, sin) else s;
      (n, Some(ApproachGeometry(sin, n.approaching, n.epsilon)))
  }

  /** As written, with the animation off, a frame draws nothing even while the pointer
      is dragging: the idle check reads `dragging`, which no handler sets, instead of
      `isDragging`. So a drag never moves the markers on screen. */
  lemma DragWithoutAnimationIsNeverDrawn(s: LimitState, sin: real -> real, x: real)
    requires Inv(s) && !s.animating
    ensures OnMouseDown(s, x).isDragging
    ensures OnFrame(OnMouseDown(s, x), sin).1 == None
  {
  }

  /** The frame with the idle check on the drag flag the handlers maintain. */
  function IntendedOnFrame(s: LimitState, sin: real -> real): (r: (LimitState, Option<Approach>))
    ensures r.0 == OnFrame(s, sin).0
    ensures r.1.Some? <==> s.animating || s.isDragging
    ensures r.1.Some? ==> r.1.value == ApproachGeometry(sin, r.0.approaching, r.0.epsilon)
    ensures s.animating ==> r == OnFrame(s, sin)
    ensures s.isDragging && !s.animating ==>
              r.1 == Some(ApproachGeometry(sin, s.approaching, s.epsilon))
  {
    if !s.animating && !s.isDragging then (s, None)
    else
      var n := if s.animating then Advanced(s, sin) else s;
      (n, Some(ApproachGeometry(sin, n.approaching, n.epsilon)))
  }

  /** With the intended check, the frame after a mouse-down shows the markers at the
      clamped pointer position. */
  lemma IntendedFrameFollowsDrag(s: LimitState, sin: real -> real, x: real)
    requires !s.animating
    ensures var d := OnMouseDown(s, x);
            IntendedOnFrame(d, sin).1.Some? &&
            (IntendedOnFrame(d, sin).1.value.leftSample + IntendedOnFrame(d, sin).1.value.rightSample) / 2.0
              == Clamp(0.1, 0.9, x)
  {
  }

  /** Everything that can happen to the view: pointer, slider, API calls and frames. */
  datatype Event =
    | MouseDown(x: real) | MouseMove(x: real) | MouseUp | SliderInput(value: real)
    | Animate | Reset | SetEpsilon(value: real) | Frame

  function Step(s: LimitState, e: Event, sin: real -> real): LimitState
  {
    match e
    case MouseDown(x) => OnMouseDown(s, x)
    case MouseMove(x) => OnMouseMove(s, x)
    case MouseUp => OnMouseUp(s)
    case SliderInput(v) => OnSliderInput(s, v)
    case Animate => OnAnimate(s)
    case Reset => OnReset(s)
    case SetEpsilon(v) => OnSetEpsilon(s, v)
    case Frame => OnFrame(s, sin).0
  }

  function Run(s: LimitState, es: seq<Event>, sin: real -> real): LimitState
    decreases |es|
  {
    if es == [] then s else Run(Step(s, es[0], sin), es[1..], sin)
  }

  /** Whatever value the page gives the slider at load, the first mouse-down, slider
      input or reset brings it in step with `approaching`. */
  lemma FirstWriteSyncsSlider(s: LimitState, e: Event, sin: real -> real)
    requires e.MouseDown? || e.SliderInput? || e.Reset?
    ensures Synced(Step(s, e, sin))
  {
  }

  lemma InitInv(slider: Option<real>)
    requires slider.None? || slider.value == 50.0
    ensures Inv(Init(slider))
  {
  }

  lemma StepKeepsInv(s: LimitState, e: Event, sin: real -> real)
    requires Bounded(sin) && Inv(s)
    ensures Inv(Step(s, e, sin))
  {
  }

  /** However pointer moves, slider inputs, API calls and frames interleave, the
      slider and `approaching` never disagree, `epsilon` stays in [0, 0.2], the clock
      never runs backwards and `dragging` is never set. */
  lemma {:induction false} RunKeepsInv(s: LimitState, es: seq<Event>, sin: real -> real)
    requires Bounded(sin) && Inv(s)
    ensures Inv(Run(s, es, sin))
    decreases |es|
  {
    if es != [] {
      StepKeepsInv(s, es[0], sin);
      RunKeepsInv(Step(s, es[0], sin), es[1..], sin);
    }
  }

  /** The view as an object: the fields of `state`, the handlers' drag flag and the
      slider, with one method per handler, API call and frame. */
  class LimitView {
    var time: real
    var animating: bool
    var approaching: real
    var epsilon: real
    const dragging: bool
    var isDragging: bool
    var slider: Option<real>

    function Snapshot(): LimitState
      reads this
    {
      LimitState(time, animating, approaching, epsilon, dragging, isDragging, slider)
    }

    constructor (slider: Option<real>)
      ensures Snapshot() == Init(slider)
    {
      time, animating, approaching, epsilon := 0.0, false, 0.5, 0.1;
      dragging, isDragging := false, false;
      this.slider := slider;
    }

    method UpdateFromMouse(x: real)
      modifies this
      ensures Snapshot() == UpdatedFromMouse(old(Snapshot()), x)
    {
      approaching := Max(0.1, Min(0.9, x));
      if slider.Some? {
        slider := Some(approaching * 100.0);
      }
    }

    method MouseDown(x: real)
      modifies this
      ensures Snapshot() == OnMouseDown(old(Snapshot()), x)
    {
      isDragging := true;
      UpdateFromMouse(x);
    }

    method MouseMove(x: real)
      modifies this
      ensures Snapshot() == OnMouseMove(old(Snapshot()), x)
    {
      if isDragging {
        UpdateFromMouse(x);
      }
    }

    method MouseUp()
      modifies this
      ensures Snapshot() == OnMouseUp(old(Snapshot()))
    {
      isDragging := false;
    }

    method SliderInput(value: real)
      modifies this
      ensures Snapshot() == OnSliderInput(old(Snapshot()), value)
    {
      if slider.Some? {
        slider := Some(value);
        approaching := value / 100.0;
      }
    }

    method Animate()
      modifies this
      ensures Snapshot() == OnAnimate(old(Snapshot()))
    {
      animating := !animating;
      time := 0.0;
    }

    method Reset()
      modifies this
      ensures Snapshot() == OnReset(old(Snapshot()))
    {
      animating := false;
      approaching := 0.5;
      epsilon := 0.1;
      time := 0.0;
      if slider.Some? {
        slider := Some(50.0);
      }
    }

    method SetEpsilon(value: real)
      modifies this
      ensures Snapshot() == OnSetEpsilon(old(Snapshot()), value)
    {
      epsilon := Max(0.01, Min(0.2, value));
    }

    method Frame(sin: real -> real) returns (drawn: Option<Approach>)
      modifies this
      ensures (Snapshot(), drawn) == OnFrame(old(Snapshot()), sin)
    {
      if !animating && !dragging {
        return None;
      }
      if animating {
        time := time + 0.016;
        epsilon := Abs(sin(time)) * 0.2;
        assert Snapshot() == Advanced(old(Snapshot()), sin);
      }
      assert Snapshot() == OnFrame(old(Snapshot()), sin).0;
      drawn := Some(ApproachGeometry(sin, approaching, epsilon));
    }
  }
}

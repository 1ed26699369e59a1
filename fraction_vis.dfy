/** The fraction view (js/fraction-vis.js): two fractions drawn as rows of tiles, one
    tile per unit of the denominator with the first `num` of them coloured, and an
    animation clock that runs from 0 up to 1 and stops there. */
module FractionVis {
  import opened Js

  datatype Fraction = Fraction(num: int, den: int)

  /** One drawn tile: its centre (x, y), the width of its slot, whether it is one of
      the coloured ones, its rotation and the animation progress it is drawn with. */
  datatype Tile = Tile(x: real, y: real, width: real, active: bool, rotation: real, progress: real)

  /** Tile i of the row drawn for f at height y. */
  function TileAt(f: Fraction, i: int, y: real, rotation: real, progress: real): (t: Tile)
    requires f.den > 0
    ensures t.width * f.den as real == 1.4
    ensures t.active <==> i < f.num
    ensures t.progress == if t.active then progress else 0.0
    ensures t.y == y && t.rotation == rotation
  {
    var width := 1.4 / f.den as real;
    var isActive := i < f.num;
    Tile(-0.7 + width * (i as real + 0.5), y, width, isActive, rotation, if isActive then progress else 0.0)
  }

  /** The row the frame's loop draws for one fraction: one tile per unit of the
      denominator, none when the denominator is not positive. */
  function Tiles(f: Fraction, y: real, rotation: real, progress: real): (ts: seq<Tile>)
    ensures |ts| == if f.den > 0 then f.den else 0
    ensures forall i :: 0 <= i < |ts| ==> ts[i] == TileAt(f, i, y, rotation, progress)
  {
    if f.den <= 0 then [] else seq(f.den, i requires 0 <= i < f.den => TileAt(f, i, y, rotation, progress))
  }

  /** The loop of the frame callback that draws one fraction's row. */
  method LayoutTiles(f: Fraction, y: real, rotation: real, progress: real) returns (tiles: seq<Tile>)
    ensures tiles == Tiles(f, y, rotation, progress)
  {
    tiles := [];
    var i := 0;
    while i < f.den
      invariant 0 <= i && (i <= f.den || i == 0)
      invariant tiles == Tiles(f, y, rotation, progress)[..i]
    {
      var width := 1.4 / f.den as real;
      var x := -0.7 + width * (i as real + 0.5);
      var isActive := i < f.num;
      tiles := tiles + [Tile(x, y, width, isActive, rotation, if isActive then progress else 0.0)];
      i := i + 1;
    }
  }

  function CountActive(ts: seq<Tile>): nat
  {
    if ts == [] then 0 else CountActive(ts[..|ts| - 1]) + (if ts[|ts| - 1].active then 1 else 0)
  }

  lemma {:induction false} ActivePrefix(f: Fraction, y: real, rotation: real, progress: real, k: nat)
    requires f.den > 0 && k <= f.den
    ensures CountActive(Tiles(f, y, rotation, progress)[..k]) ==
              if f.num <= 0 then 0 else if f.num >= k then k else f.num
  {
    var ts := Tiles(f, y, rotation, progress);
    if k > 0 {
      ActivePrefix(f, y, rotation, progress, k - 1);
      assert ts[..k][..k - 1] == ts[..k - 1];
    }
  }

  /** A row shows min(num, den) coloured tiles (none when num is not positive). */
  lemma ActiveTiles(f: Fraction, y: real, rotation: real, progress: real)
    requires f.den > 0
    ensures CountActive(Tiles(f, y, rotation, progress)) ==
              if f.num <= 0 then 0 else if f.num >= f.den then f.den else f.num
  {
    var ts := Tiles(f, y, rotation, progress);
    ActivePrefix(f, y, rotation, progress, f.den);
    assert ts[..f.den] == ts;
  }

  /** The slots of a row sit side by side and together span exactly [-0.7, 0.7]. */
  lemma SlotsSpanTheRow(f: Fraction, y: real, rotation: real, progress: real)
    requires f.den > 0
    ensures var ts := Tiles(f, y, rotation, progress);
            && ts[0].x - ts[0].width / 2.0 == -0.7
            && ts[f.den - 1].x + ts[f.den - 1].width / 2.0 == 0.7
            && forall i :: 0 <= i < f.den - 1 ==> ts[i].x + ts[i].width / 2.0 == ts[i + 1].x - ts[i + 1].width / 2.0
  {
    var ts := Tiles(f, y, rotation, progress);
    var w := 1.4 / f.den as real;
    forall i | 0 <= i < f.den
      ensures ts[i].x - w / 2.0 == -0.7 + w * i as real
      ensures ts[i].x + w / 2.0 == -0.7 + w * (i + 1) as real
    {
      SlotEdges(w, i);
    }
    assert w * f.den as real == 1.4;
  }

  lemma SlotEdges(w: real, i: int)
    ensures -0.7 + w * (i as real + 0.5) - w / 2.0 == -0.7 + w * i as real
    ensures -0.7 + w * (i as real + 0.5) + w / 2.0 == -0.7 + w * (i + 1) as real
  {
    Distribute(i as real, 0.5, w);
    Distribute(i as real, 1.0, w);
  }

  /** What a frame draws: the dividend's row above the line, the divisor's below. */
  datatype FrameTiles = FrameTiles(top: seq<Tile>, bottom: seq<Tile>)

  /** The script's `state`. */
  datatype FractionState = FractionState(fraction1: Fraction, fraction2: Fraction,
                                         animationTime: real, isAnimating: bool)

  /** 2/3 over 1/2, the clock at 0 and not running. */
  function Init(): FractionState
  {
    FractionState(Fraction(2, 3), Fraction(1, 2), 0.0, false)
  }

  ghost predicate Inv(s: FractionState)
  {
    && s.fraction1 == Fraction(2, 3)
    && s.fraction2 == Fraction(1, 2)
    && 0.0 <= s.animationTime <= 1.0
  }

  /** `resetAnimation()`: the clock back to 0, running. */
  function OnResetAnimation(s: FractionState): (r: FractionState)
    ensures r.animationTime == 0.0 && r.isAnimating
    ensures r.(animationTime := s.animationTime, isAnimating := s.isAnimating) == s
  {
    s.(animationTime := 0.0, isAnimating := true)
  }

  /** The one-second timer set at start-up: it starts the clock without resetting it. */
  function OnAutoStart(s: FractionState): (r: FractionState)
    ensures r.isAnimating && r.(isAnimating := s.isAnimating) == s
  {
    s.(isAnimating := true)
  }

  /** The clock step of a frame: + 0.016, saturating at 1. */
  function Advanced(s: FractionState): (r: FractionState)
    ensures s.isAnimating ==> r.animationTime == Min(s.animationTime + 0.016, 1.0)
    ensures !s.isAnimating ==> r == s
    ensures s.animationTime <= 1.0 ==> s.animationTime <= r.animationTime <= 1.0
    ensures r.(animationTime := s.animationTime) == s
  {
    if s.isAnimating then s.(animationTime := Min(s.animationTime + 0.016, 1.0)) else s
  }

  /** One call of the frame callback (it never skips): the clock step, then both rows
      drawn with the new clock value as their progress; the divisor's tiles turn by
      progress * π. */
  function OnFrame(s: FractionState): (r: (FractionState, FrameTiles))
    ensures r.0 == Advanced(s)
    ensures r.1.top == Tiles(s.fraction1, 0.3, 0.0, r.0.animationTime)
    ensures r.1.bottom == Tiles(s.fraction2, -0.3, r.0.animationTime * PI, r.0.animationTime)
  {
    var n := Advanced(s);
    var p := n.animationTime;
    (n, FrameTiles(Tiles(s.fraction1, 0.3, 0.0, p), Tiles(s.fraction2, -0.3, p * PI, p)))
  }

  /** In the initial fractions' rows, 2 of 3 and 1 of 2 tiles are coloured. */
  lemma InitialRows(s: FractionState)
    requires Inv(s)
    ensures CountActive(OnFrame(s).1.top) == 2 && |OnFrame(s).1.top| == 3
    ensures CountActive(OnFrame(s).1.bottom) == 1 && |OnFrame(s).1.bottom| == 2
  {
    var p := OnFrame(s).0.animationTime;
    ActiveTiles(s.fraction1, 0.3, 0.0, p);
    ActiveTiles(s.fraction2, -0.3, p * PI, p);
  }

  datatype Event = ResetAnimation | AutoStart | Frame

  function Step(s: FractionState, e: Event): FractionState
  {
    match e
    case ResetAnimation => OnResetAnimation(s)
    case AutoStart => OnAutoStart(s)
    case Frame => OnFrame(s).0
  }

  function Run(s: FractionState, es: seq<Event>): FractionState
    decreases |es|
  {
    if es == [] then s else Run(Step(s, es[0]), es[1..])
  }

  lemma InitInv()
    ensures Inv(Init())
  {
  }

  /** Whatever happens, the fractions stay 2/3 and 1/2 and the clock stays in [0, 1]. */
  lemma {:induction false} RunKeepsInv(s: FractionState, es: seq<Event>)
    requires Inv(s)
    ensures Inv(Run(s, es))
    decreases |es|
  {
    if es != [] {
      RunKeepsInv(Step(s, es[0]), es[1..]);
    }
  }

  /** Until the next `resetAnimation()`, the clock never goes back. */
  lemma {:induction false} ClockNeverRewinds(s: FractionState, es: seq<Event>)
    requires s.animationTime <= 1.0
    requires forall i :: 0 <= i < |es| ==> es[i] != ResetAnimation
    ensures s.animationTime <= Run(s, es).animationTime <= 1.0
    decreases |es|
  {
    if es != [] {
      ClockNeverRewinds(Step(s, es[0]), es[1..]);
    }
  }

  /** The script's state as an object, with the reset hook, the timer callback and
      the frame callback as methods. */
  class FractionView {
    var fraction1: Fraction
    var fraction2: Fraction
    var animationTime: real
    var isAnimating: bool

    function Snapshot(): FractionState
      reads this
    {
      FractionState(fraction1, fraction2, animationTime, isAnimating)
    }

    constructor ()
      ensures Snapshot() == Init()
    {
      fraction1, fraction2 := Fraction(2, 3), Fraction(1, 2);
      animationTime, isAnimating := 0.0, false;
    }

    method ResetAnimation()
      modifies this
      ensures Snapshot() == OnResetAnimation(old(Snapshot()))
    {
      animationTime := 0.0;
      isAnimating := true;
    }

    method AutoStart()
      modifies this
      ensures Snapshot() == OnAutoStart(old(Snapshot()))
    {
      isAnimating := true;
    }

    method Frame() returns (drawn: FrameTiles)
      modifies this
      ensures (Snapshot(), drawn) == OnFrame(old(Snapshot()))
    {
      if isAnimating {
        animationTime := Min(animationTime + 0.016, 1.0);
      }
      var animationProgress := animationTime;
      var top := LayoutTiles(fraction1, 0.3, 0.0, animationProgress);
      var bottom := LayoutTiles(fraction2, -0.3, animationProgress * PI, animationProgress);
      drawn := FrameTiles(top, bottom);
    }
  }
}

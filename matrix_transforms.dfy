/** The matrix-transformations view (js/matrix-transforms.js): a grid and two basis
    vectors drawn through a 3×3 matrix built from a rotation, a scale and a shear, one of
    which is animated at a time. Matrices are row-major arrays of nine numbers. */
module MatrixTransforms {
  import opened Js

  type Mat3 = m: seq<real> | |m| == 9 witness [0.0, 0.0, 0.0, 0.0, 0.0, 0.0, 0.0, 0.0, 0.0]

  /** A two-element array `[x, y]`. */
  datatype Vec2 = Vec2(x: real, y: real)

  function Identity(): Mat3
  {
    [1.0, 0.0, 0.0,
     0.0, 1.0, 0.0,
     0.0, 0.0, 1.0]
  }

  /** An affine matrix: last row [0, 0, 1]. */
  predicate Affine(m: Mat3)
  {
    m[6] == 0.0 && m[7] == 0.0 && m[8] == 1.0
  }

  /** `multiplyMatrices(a, b)` as written: each entry sums only two products, so the
      third column of `a` and the third row of `b` never contribute. Nothing in the
      view calls it. */
  function MultiplyMatrices(a: Mat3, b: Mat3): (r: Mat3)
    ensures r == Multiply3(a[2 := 0.0][5 := 0.0][8 := 0.0], b)
  {
    var r: Mat3 :=
      [a[0] * b[0] + a[1] * b[3], a[0] * b[1] + a[1] * b[4], a[0] * b[2] + a[1] * b[5],
       a[3] * b[0] + a[4] * b[3], a[3] * b[1] + a[4] * b[4], a[3] * b[2] + a[4] * b[5],
       a[6] * b[0] + a[7] * b[3], a[6] * b[1] + a[7] * b[4], a[6] * b[2] + a[7] * b[5]];
    var za := a[2 := 0.0][5 := 0.0][8 := 0.0];
    assert za[0] == a[0] && za[1] == a[1] && za[3] == a[3] && za[4] == a[4] && za[6] == a[6] && za[7] == a[7];
    assert za[2] == 0.0 && za[5] == 0.0 && za[8] == 0.0;
    assert forall k :: 0 <= k < 9 ==> r[k] == Multiply3(za, b)[k];
    r
  }

  /** The as-written product is the full product with the third column of `a`, or
      equally the third row of `b`, replaced by zeros. */
  lemma MultiplyMatricesDropsThirdTerms(a: Mat3, b: Mat3)
    ensures MultiplyMatrices(a, b) == Multiply3(a[2 := 0.0][5 := 0.0][8 := 0.0], b)
    ensures MultiplyMatrices(a, b) == Multiply3(a, b[6 := 0.0][7 := 0.0][8 := 0.0])
  {
    var p := MultiplyMatrices(a, b);
    var za := a[2 := 0.0][5 := 0.0][8 := 0.0];
    var zb := b[6 := 0.0][7 := 0.0][8 := 0.0];
    assert za[0] == a[0] && za[1] == a[1] && za[3] == a[3] && za[4] == a[4] && za[6] == a[6] && za[7] == a[7];
    assert za[2] == 0.0 && za[5] == 0.0 && za[8] == 0.0;
    assert zb[..6] == b[..6] && zb[6] == 0.0 && zb[7] == 0.0 && zb[8] == 0.0;
    var q, r := Multiply3(za, b), Multiply3(a, zb);
    assert forall k :: 0 <= k < 9 ==> p[k] == q[k];
    assert forall k :: 0 <= k < 9 ==> p[k] == r[k];
  }

  /** Entries a[2], a[5], a[8] and b[6..9] have no influence on the product. */
  lemma ProductIgnoresThirdColumnAndRow(a: Mat3, a': Mat3, b: Mat3, b': Mat3)
    requires forall k :: 0 <= k < 9 && k != 2 && k != 5 && k != 8 ==> a[k] == a'[k]
    requires b[..6] == b'[..6]
    ensures MultiplyMatrices(a, b) == MultiplyMatrices(a', b')
  {
    assert b[0] == b[..6][0] == b'[0] && b[1] == b[..6][1] == b'[1] && b[2] == b[..6][2] == b'[2];
    assert b[3] == b[..6][3] == b'[3] && b[4] == b[..6][4] == b'[4] && b[5] == b[..6][5] == b'[5];
    assert a[0] == a'[0] && a[1] == a'[1] && a[3] == a'[3] && a[4] == a'[4] && a[6] == a'[6] && a[7] == a'[7];
    var p, q := MultiplyMatrices(a, b), MultiplyMatrices(a', b');
    assert forall k :: 0 <= k < 9 ==> p[k] == q[k];
  }

  /** Multiplying by the identity on the right zeroes the third column of `a`... */
  lemma TimesIdentity(a: Mat3)
    ensures MultiplyMatrices(a, Identity()) == a[2 := 0.0][5 := 0.0][8 := 0.0]
  {
  }

  /** ...so it gives `a` back exactly when that column is already zero. */
  lemma TimesIdentityIsIdentityIff(a: Mat3)
    ensures MultiplyMatrices(a, Identity()) == a <==> a[2] == 0.0 && a[5] == 0.0 && a[8] == 0.0
  {
    TimesIdentity(a);
    if MultiplyMatrices(a, Identity()) == a {
      assert a[2] == MultiplyMatrices(a, Identity())[2];
      assert a[5] == MultiplyMatrices(a, Identity())[5];
      assert a[8] == MultiplyMatrices(a, Identity())[8];
    }
  }

  /** The homogeneous entry is lost: the identity squared is not the identity. */
  lemma IdentitySquaredLosesCorner()
    ensures MultiplyMatrices(Identity(), Identity())[8] == 0.0
    ensures MultiplyMatrices(Identity(), Identity()) != Identity()
  {
    assert MultiplyMatrices(Identity(), Identity())[8] != Identity()[8];
  }

  /** The full 3×3 product. */
  function Multiply3(a: Mat3, b: Mat3): Mat3
  {
    [a[0] * b[0] + a[1] * b[3] + a[2] * b[6], a[0] * b[1] + a[1] * b[4] + a[2] * b[7], a[0] * b[2] + a[1] * b[5] + a[2] * b[8],
     a[3] * b[0] + a[4] * b[3] + a[5] * b[6], a[3] * b[1] + a[4] * b[4] + a[5] * b[7], a[3] * b[2] + a[4] * b[5] + a[5] * b[8],
     a[6] * b[0] + a[7] * b[3] + a[8] * b[6], a[6] * b[1] + a[7] * b[4] + a[8] * b[7], a[6] * b[2] + a[7] * b[5] + a[8] * b[8]]
  }

  /** The identity is a unit of the full product on both sides. */
  lemma Multiply3Identity(a: Mat3)
    ensures Multiply3(Identity(), a) == a
    ensures Multiply3(a, Identity()) == a
  {
  }

  /** Affine matrices are closed under the full product. */
  lemma Multiply3KeepsAffine(a: Mat3, b: Mat3)
    requires Affine(a) && Affine(b)
    ensures Affine(Multiply3(a, b))
  {
    var r := Multiply3(a, b);
    assert r[3 * 2 + 0] == r[6] && r[3 * 2 + 1] == r[7] && r[3 * 2 + 2] == r[8];
  }

  /** Where the third column of `a` is zero above the last row (as it is in every
      matrix `CreateTransform` builds), the as-written product agrees with the full
      one on the first two rows, and on affine inputs it differs only in the last
      row, which it zeroes. */
  lemma MultiplyAgreesAboveLastRow(a: Mat3, b: Mat3)
    requires a[2] == 0.0 && a[5] == 0.0
    ensures MultiplyMatrices(a, b)[..6] == Multiply3(a, b)[..6]
    ensures Affine(a) && Affine(b) ==>
              Affine(Multiply3(a, b)) && MultiplyMatrices(a, b)[6..] == [0.0, 0.0, 0.0]
  {
    if Affine(a) && Affine(b) {
      Multiply3KeepsAffine(a, b);
    }
  }

  /** `createTransform(rotation, scale, shear)`, with `Math.sin`/`Math.cos` as
      parameters: whatever its inputs, a matrix with a zero third column above a last
      row [0, 0, 1]. */
  function CreateTransform(rotation: real, scale: Vec2, shear: Vec2,
                           sin: real -> real, cos: real -> real): (m: Mat3)
    ensures m[2] == 0.0 && m[5] == 0.0 && Affine(m)
  {
    var c := cos(rotation);
    var s := sin(rotation);
    [scale.x * c + shear.x * s, -scale.x * s + shear.x * c, 0.0,
     scale.y * s + shear.y * c, scale.y * c + shear.y * s, 0.0,
     0.0, 0.0, 1.0]
  }

  /** No rotation, unit scale and no shear give the identity. */
  lemma CreateTransformIdentity(rotation: real, sin: real -> real, cos: real -> real)
    requires sin(rotation) == 0.0 && cos(rotation) == 1.0
    ensures CreateTransform(rotation, Vec2(1.0, 1.0), Vec2(0.0, 0.0), sin, cos) == Identity()
  {
  }

  /** If two transforms were composed with the as-written product (the view never
      composes them), their shared last row [0, 0, 1] would be lost. */
  lemma ComposedTransformsLoseLastRow(m1: Mat3, m2: Mat3)
    requires m1[2] == 0.0 && m1[5] == 0.0 && Affine(m1) && Affine(m2)
    ensures Multiply3(m1, m2)[8] == 1.0 && MultiplyMatrices(m1, m2)[8] == 0.0
  {
    MultiplyAgreesAboveLastRow(m1, m2);
    assert MultiplyMatrices(m1, m2)[8] == MultiplyMatrices(m1, m2)[6..][2];
  }

  /** Grid point i: column i % 10 and row ⌊i / 10⌋, spaced 1/4.5 apart from -1. */
  function GridPoint(i: nat): Vec2
  {
    Vec2((i % 10) as real / 4.5 - 1.0, (i / 10) as real / 4.5 - 1.0)
  }

  /** The grid's position attribute: 100 points, ten rows of ten. */
  function GridPositions(): (ps: seq<Vec2>)
    ensures |ps| == 100
    ensures forall i :: 0 <= i < 100 ==> ps[i] == GridPoint(i)
  {
    seq(100, i requires 0 <= i < 100 => GridPoint(i))
  }

  /** All points lie in [-1, 1]², with the four corners of that square among them. */
  lemma GridFillsClipSquare()
    ensures forall p :: p in GridPositions() ==> -1.0 <= p.x <= 1.0 && -1.0 <= p.y <= 1.0
    ensures GridPositions()[0] == Vec2(-1.0, -1.0) && GridPositions()[9] == Vec2(1.0, -1.0)
    ensures GridPositions()[90] == Vec2(-1.0, 1.0) && GridPositions()[99] == Vec2(1.0, 1.0)
  {
    var ps := GridPositions();
    forall p | p in ps
      ensures -1.0 <= p.x <= 1.0 && -1.0 <= p.y <= 1.0
    {
      var i :| 0 <= i < 100 && ps[i] == p;
      GridCoordinate(i % 10);
      GridCoordinate(i / 10);
    }
  }

  lemma GridCoordinate(k: int)
    requires 0 <= k <= 9
    ensures -1.0 <= k as real / 4.5 - 1.0 <= 1.0
  {
  }

  /** No grid point is repeated. */
  lemma GridPointsDistinct(i: nat, j: nat)
    requires i < 100 && j < 100 && i != j
    ensures GridPositions()[i] != GridPositions()[j]
  {
    var qi, ri, qj, rj := i / 10, i % 10, j / 10, j % 10;
    assert i == 10 * qi + ri && j == 10 * qj + rj;
    if ri != rj {
      assert GridPoint(i).x != GridPoint(j).x;
    } else {
      assert GridPoint(i).y != GridPoint(j).y;
    }
  }

  /** The animation named by `currentAnimation`. */
  datatype Mode = Rotating | Scaling | Shearing

  /** The script's `state`. */
  datatype MatrixState = MatrixState(rotation: real, scale: Vec2, shear: Vec2,
                                     animating: bool, currentAnimation: Option<Mode>)

  /** No rotation, unit scale, no shear, not animating, no animation chosen. */
  function Init(): MatrixState
  {
    MatrixState(0.0, Vec2(1.0, 1.0), Vec2(0.0, 0.0), false, None)
  }

  /** `rotate()`: animate the rotation, with scale and shear back to neutral. */
  function OnRotate(s: MatrixState): (r: MatrixState)
    ensures r.animating && r.currentAnimation == Some(Rotating)
    ensures r.scale == Vec2(1.0, 1.0) && r.shear == Vec2(0.0, 0.0) && r.rotation == s.rotation
  {
    s.(animating := true, currentAnimation := Some(Rotating), scale := Vec2(1.0, 1.0), shear := Vec2(0.0, 0.0))
  }

  /** `scale()`: animate the scale, with rotation and shear back to neutral. */
  function OnScale(s: MatrixState): (r: MatrixState)
    ensures r.animating && r.currentAnimation == Some(Scaling)
    ensures r.rotation == 0.0 && r.shear == Vec2(0.0, 0.0) && r.scale == s.scale
  {
    s.(animating := true, currentAnimation := Some(Scaling), rotation := 0.0, shear := Vec2(0.0, 0.0))
  }

  /** `shear()`: animate the shear, with rotation and scale back to neutral. */
  function OnShear(s: MatrixState): (r: MatrixState)
    ensures r.animating && r.currentAnimation == Some(Shearing)
    ensures r.rotation == 0.0 && r.scale == Vec2(1.0, 1.0) && r.shear == s.shear
  {
    s.(animating := true, currentAnimation := Some(Shearing), rotation := 0.0, scale := Vec2(1.0, 1.0))
  }

  lemma ModeSwitchesIdempotent(s: MatrixState)
    ensures OnRotate(OnRotate(s)) == OnRotate(s)
    ensures OnScale(OnScale(s)) == OnScale(s)
    ensures OnShear(OnShear(s)) == OnShear(s)
  {
  }

  /** The per-mode update of an animating frame at host time `time` (seconds). */
  function Advanced(s: MatrixState, time: real, sin: real -> real, cos: real -> real): (r: MatrixState)
    ensures s.currentAnimation == Some(Rotating) ==> r == s.(rotation := Rem(time, PI * 2.0))
    ensures s.currentAnimation == Some(Scaling) ==>
              r == s.(scale := Vec2(0.5 + sin(time * 2.0) * 0.5, 0.5 + sin(time * 2.0) * 0.5))
    ensures s.currentAnimation == Some(Shearing) ==> r == s.(shear := Vec2(sin(time) * 0.5, cos(time) * 0.5))
    ensures s.currentAnimation == None ==> r == s
  {
    match s.currentAnimation
    case Some(Rotating) => s.(rotation := Rem(time, PI * 2.0))
    case Some(Scaling) =>
      var k := 0.5 + sin(time * 2.0) * 0.5;
      s.(scale := Vec2(k, k))
    case Some(Shearing) => s.(shear := Vec2(sin(time) * 0.5, cos(time) * 0.5))
    case None => s
  }

  /** One call of the frame callback: nothing unless animating; otherwise the mode's
      update, then the grid and vectors drawn through the transform of the new state. */
  function OnFrame(s: MatrixState, time: real, sin: real -> real, cos: real -> real): (r: (MatrixState, Option<Mat3>))
    ensures !s.animating ==> r == (s, None)
    ensures s.animating ==> r.0 == Advanced(s, time, sin, cos)
    ensures s.animating ==> r.1 == Some(CreateTransform(r.0.rotation, r.0.scale, r.0.shear, sin, cos))
  {
    if !s.animating then (s, None)
    else
      var n := Advanced(s, time, sin, cos);
      (n, Some(CreateTransform(n.rotation, n.scale, n.shear, sin, cos)))
  }

  /** Every parameter stays in the range its animation sweeps: rotation in [0, 2π),
      a uniform scale in [0, 1] (or the initial 1), shear components in [-1/2, 1/2]. */
  ghost predicate Inv(s: MatrixState)
  {
    && 0.0 <= s.rotation < PI * 2.0
    && s.scale.x == s.scale.y && 0.0 <= s.scale.x <= 1.0
    && -0.5 <= s.shear.x <= 0.5 && -0.5 <= s.shear.y <= 0.5
  }

  datatype Event = Rotate | Scale | Shear | Frame(time: real)

  function Step(s: MatrixState, e: Event, sin: real -> real, cos: real -> real): MatrixState
  {
    match e
    case Rotate => OnRotate(s)
    case Scale => OnScale(s)
    case Shear => OnShear(s)
    case Frame(t) => OnFrame(s, t, sin, cos).0
  }

  function Run(s: MatrixState, es: seq<Event>, sin: real -> real, cos: real -> real): MatrixState
    decreases |es|
  {
    if es == [] then s else Run(Step(s, es[0], sin, cos), es[1..], sin, cos)
  }

  /** Host frame times are never negative. */
  predicate NonNegativeTimes(es: seq<Event>)
  {
    forall i :: 0 <= i < |es| && es[i].Frame? ==> es[i].time >= 0.0
  }

  lemma InitInv()
    ensures Inv(Init())
  {
  }

  lemma StepKeepsInv(s: MatrixState, e: Event, sin: real -> real, cos: real -> real)
    requires Inv(s) && Bounded(sin) && Bounded(cos)
    requires e.Frame? ==> e.time >= 0.0
    ensures Inv(Step(s, e, sin, cos))
  {
    if e.Frame? && s.animating && s.currentAnimation.Some? {
      match s.currentAnimation.value
      case Rotating =>
      case Scaling =>
        assert -1.0 <= sin(e.time * 2.0) <= 1.0;
      case Shearing =>
        assert -1.0 <= sin(e.time) <= 1.0 && -1.0 <= cos(e.time) <= 1.0;
    }
  }

  lemma {:induction false} RunKeepsInv(s: MatrixState, es: seq<Event>, sin: real -> real, cos: real -> real)
    requires Inv(s) && Bounded(sin) && Bounded(cos) && NonNegativeTimes(es)
    ensures Inv(Run(s, es, sin, cos))
    decreases |es|
  {
    if es != [] {
      StepKeepsInv(s, es[0], sin, cos);
      assert NonNegativeTimes(es[1..]) by {
        forall i | 0 <= i < |es[1..]| && es[1..][i].Frame?
          ensures es[1..][i].time >= 0.0
        {
          assert es[1..][i] == es[i + 1];
        }
      }
      RunKeepsInv(Step(s, es[0], sin, cos), es[1..], sin, cos);
    }
  }

  /** Nothing ever stops the animation once it has started, and a chosen animation is
      never unset. */
  lemma {:induction false} AnimationNeverStops(s: MatrixState, es: seq<Event>, sin: real -> real, cos: real -> real)
    requires s.animating
    ensures Run(s, es, sin, cos).animating
    ensures s.currentAnimation.Some? ==> Run(s, es, sin, cos).currentAnimation.Some?
    decreases |es|
  {
    if es != [] {
      AnimationNeverStops(Step(s, es[0], sin, cos), es[1..], sin, cos);
    }
  }

  /** The script's state as an object, with the API and the frame callback as methods. */
  class MatrixView {
    var rotation: real
    var scale: Vec2
    var shear: Vec2
    var animating: bool
    var currentAnimation: Option<Mode>

    function Snapshot(): MatrixState
      reads this
    {
      MatrixState(rotation, scale, shear, animating, currentAnimation)
    }

    constructor ()
      ensures Snapshot() == Init()
    {
      rotation, scale, shear := 0.0, Vec2(1.0, 1.0), Vec2(0.0, 0.0);
      animating, currentAnimation := false, None;
    }

    method Rotate()
      modifies this
      ensures Snapshot() == OnRotate(old(Snapshot()))
    {
      animating := true;
      currentAnimation := Some(Rotating);
      scale := Vec2(1.0, 1.0);
      shear := Vec2(0.0, 0.0);
    }

    method Scale()
      modifies this
      ensures Snapshot() == OnScale(old(Snapshot()))
    {
      animating := true;
      currentAnimation := Some(Scaling);
      rotation := 0.0;
      shear := Vec2(0.0, 0.0);
    }

    method Shear()
      modifies this
      ensures Snapshot() == OnShear(old(Snapshot()))
    {
      animating := true;
      currentAnimation := Some(Shearing);
      rotation := 0.0;
      scale := Vec2(1.0, 1.0);
    }

    method Frame(time: real, sin: real -> real, cos: real -> real) returns (transform: Option<Mat3>)
      modifies this
      ensures (Snapshot(), transform) == OnFrame(old(Snapshot()), time, sin, cos)
    {
      if !animating {
        return None;
      }
      if currentAnimation == Some(Rotating) {
        rotation := Rem(time, PI * 2.0);
      } else if currentAnimation == Some(Scaling) {
        var k := 0.5 + sin(time * 2.0) * 0.5;
        scale := Vec2(k, k);
      } else if currentAnimation == Some(Shearing) {
        shear := Vec2(sin(time) * 0.5, cos(time) * 0.5);
      }
      transform := Some(CreateTransform(rotation, scale, shear, sin, cos));
    }
  }
}

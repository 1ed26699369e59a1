# livemath visualisations in Dafny

This project models the logic under the WebGL visualisations of livemath: the limit
view, the integral (Riemann sum) view, the fraction view, the derivative view and
the matrix-transformations view. Each view keeps a small mutable `state` record.
Its public API, its mouse and slider handlers and its per-frame callback move that
record through a small state machine. The project also models the pure helpers
beside that state machine:

- the limit view's function with a hole and its arrow builder;
- the left Riemann sum `calculateIntegral`;
- the fraction view's tile layout;
- the 3×3 matrix product, `createTransform` and the grid positions.

The project has one module per view, plus `Js`. `Js` holds the JavaScript host
semantics the views rely on:

- `null` as `Option`;
- `Math.abs`, `Math.min` and `Math.max`, and the clamping idiom built from them;
- the `%` operator with truncation toward zero;
- the literal value of `Math.PI`;
- the range of `Math.sin` and `Math.cos`.

Numbers are exact reals. `Math.sin` and `Math.cos` are parameters of type
`real -> real`. The only fact assumed about them is `Bounded`: every value lies in
[-1, 1].

Each view module has the same parts:

- a value datatype mirroring `state`, plus the handler-local flags and the optional
  slider element;
- one pure transition function per handler, API call and frame (`OnX`). Their
  contracts state what each step does;
- an `Event` datatype with `Step` and `Run`, and lemmas showing that every event
  sequence preserves the view's invariant;
- a class whose fields are the fields of `state`. Each method updates those fields
  in place and is proved equal to its transition function. Loops stay loops:
  `calculateIntegral`, the rectangle heights and the fraction tile rows.

The view modules model the code as written. Where the code disagrees with its
evident intent, the corrected behaviour is a separate member, proved next to the
as-written one (see "## Findings").

Three behaviours of the code are modelled as written. The derivative view's
animation moves the point by 0.005 and wraps it with `% 1`. The limit slider does
not clamp its value. `calculateIntegral` samples left endpoints only.

## Model

| member | source | states |
|---|---|---|
| Js.Clamp | js/limit-vis.js:189 | `Math.max(lo, Math.min(hi, x))` lies in [lo, hi]. It is the identity inside that range and gives the nearer bound outside it. |
| Js.ClampIdempotent | js/limit-vis.js:241-243 | Clamping twice is the same as clamping once. |
| Js.Trunc | js/derivative-vis.js:89 | Truncation toward zero is within 1 of its argument, on the side of zero. |
| Js.Rem | js/derivative-vis.js:89 | JavaScript's `x % m` for m > 0 takes the sign of x. Its magnitude is below m. It is x itself when 0 <= x < m. x minus it is a whole multiple of m. |
| LimitVis.F | js/limit-vis.js:19-22 | `f(x)` is `null` exactly when \|x − 0.5\| < 0.001. Otherwise it is sin(2πx) right of 0.5 and −sin(2πx) left of 0.5, so it lies in [-1, 1]. |
| LimitVis.MarkerY | js/limit-vis.js:149-150 | `f(x) * 0.5` is 0 in the hole, because `null * 0.5` is 0. Otherwise it is half of f(x), and it always lies in [-0.5, 0.5]. |
| LimitVis.GenerateArrowPoints | js/limit-vis.js:116-127 | Exactly 6 points: the shaft from (fromX, y) to (toX, y), then two barbs from (toX, y) to (toX − 0.1, y ± 0.05). |
| LimitVis.ArrowHeadReversedWhenPointingLeft | js/limit-vis.js:166-170 | For an arrow pointing left, both barbs end beyond the tip, away from the tail. |
| LimitVis.DirectedArrowPoints | js/limit-vis.js:116-127 | Corrected arrow: the barbs lie on the tail's side of the tip in both directions. For a rightward arrow it equals the as-written one. |
| LimitVis.ApproachGeometry | js/limit-vis.js:145-170 | The two samples are approaching ∓ epsilon, symmetric about `approaching`. Each marker is at (2x − 1, f(x)/2). Each arrow is `generateArrowPoints` ending at its marker, with its tail 0.2 further out: to the left for the left arrow, to the right for the right one. |
| LimitVis.FrameRightArrowReversed | js/limit-vis.js:166-170 | In every drawn frame, the right arrow runs leftwards and both its barbs end beyond the tip, away from the tail. |
| LimitVis.UpdatedFromMouse | js/limit-vis.js:186-196 | `approaching` becomes `Clamp(0.1, 0.9, x)`: the pointer fraction when it is in [0.1, 0.9], the nearer bound otherwise. An existing slider then shows `approaching * 100`. Nothing else changes. |
| LimitVis.OnMouseDown | js/limit-vis.js:199-202 | Sets the drag flag, then runs the mouse update. |
| LimitVis.OnMouseMove | js/limit-vis.js:204-208 | While dragging, the result is exactly the mouse update. Otherwise it changes nothing. The drag flag is kept either way. |
| LimitVis.OnMouseUp | js/limit-vis.js:210-212 | Clears only the drag flag. |
| LimitVis.OnSliderInput | js/limit-vis.js:215-220 | With a slider, `approaching = value / 100` with no clamping. Without a slider it changes nothing. |
| LimitVis.SliderDoesNotClamp | js/limit-vis.js:217-219 | Slider values 100 and 0 put `approaching` at 1 and 0, outside [0.1, 0.9]. |
| LimitVis.OnAnimate | js/limit-vis.js:224-227 | Flips `animating` and always sets `time` to 0. Nothing else changes. |
| LimitVis.AnimateTwice | js/limit-vis.js:224-227 | Two toggles restore the state, except that the clock is at 0. |
| LimitVis.OnReset | js/limit-vis.js:229-239 | Sets animating=false, approaching=0.5, epsilon=0.1 and time=0. An existing slider shows 50, which keeps it in sync. |
| LimitVis.OnSetEpsilon | js/limit-vis.js:241-243 | `epsilon` lands in [0.01, 0.2]. It is the identity on that range and gives the nearer bound outside it. Nothing else changes. |
| LimitVis.SetEpsilonIdempotent | js/limit-vis.js:241-243 | Setting the resulting epsilon again changes nothing. |
| LimitVis.Advanced | js/limit-vis.js:140-143 | The animation step adds 0.016 to `time` and sets epsilon to \|sin(time)\| · 0.2, which lies in [0, 0.2]. |
| LimitVis.OnFrame | js/limit-vis.js:130-183 | The frame is idle (no change, nothing drawn) unless `animating` or `dragging` is set. An animating frame takes the animation step. A drawn frame shows the approach geometry of the new state. |
| LimitVis.DragWithoutAnimationIsNeverDrawn | js/limit-vis.js:131 | With the animation off, the frame after a mouse-down draws nothing. |
| LimitVis.IntendedOnFrame | js/limit-vis.js:130-183 | Corrected frame: the idle check reads the handlers' drag flag. A drag then draws the current geometry. The state update is the same as the as-written frame. Whatever is drawn is the geometry of the new state. While animating, the whole result equals the as-written frame. |
| LimitVis.IntendedFrameFollowsDrag | js/limit-vis.js:131 | With the corrected check, the frame after a mouse-down is drawn, centred on the clamped pointer position. |
| LimitVis.InitInv | js/limit-vis.js:11-16 | The initial state satisfies the invariant (epsilon in [0, 0.2], clock not negative, `dragging` unset, slider in sync), provided any slider starts at 50. |
| LimitVis.FirstWriteSyncsSlider | js/limit-vis.js:186-239 | From any state, whatever the slider shows, a mouse-down, a slider input or a reset leaves the slider in sync with `approaching`. |
| LimitVis.StepKeepsInv | js/limit-vis.js:130-243 | Every handler, API call and frame preserves the invariant. |
| LimitVis.RunKeepsInv | js/limit-vis.js:130-243 | Every sequence of events preserves the invariant. |
| LimitVis.LimitView.constructor | js/limit-vis.js:11-16 | The fields start at the initial `state`. |
| LimitVis.LimitView.UpdateFromMouse | js/limit-vis.js:186-196 | Updates the fields in place as `UpdatedFromMouse` says. |
| LimitVis.LimitView.MouseDown | js/limit-vis.js:199-202 | Updates the fields in place as `OnMouseDown` says. |
| LimitVis.LimitView.MouseMove | js/limit-vis.js:204-208 | Updates the fields in place as `OnMouseMove` says. |
| LimitVis.LimitView.MouseUp | js/limit-vis.js:210-212 | Updates the fields in place as `OnMouseUp` says. |
| LimitVis.LimitView.SliderInput | js/limit-vis.js:215-220 | Updates the fields in place as `OnSliderInput` says. |
| LimitVis.LimitView.Animate | js/limit-vis.js:224-227 | Updates the fields in place as `OnAnimate` says. |
| LimitVis.LimitView.Reset | js/limit-vis.js:229-239 | Updates the fields in place as `OnReset` says. |
| LimitVis.LimitView.SetEpsilon | js/limit-vis.js:241-243 | Updates the fields in place as `OnSetEpsilon` says. |
| LimitVis.LimitView.Frame | js/limit-vis.js:130-183 | Updates the fields in place and returns what is drawn, as `OnFrame` says. |
| IntegralVis.CalculateIntegral | js/integral-vis.js:173-181 | For n >= 1 the loop returns the sum over i in [0, n) of fn(a + i·dx)·dx, with dx = (b − a)/n, added in loop order. For n <= 0 it returns 0. |
| IntegralVis.LeftSumDependsOnlyOnSamples | js/integral-vis.js:176-178 | Only the sample points a + i·dx for i < n affect the sum. |
| IntegralVis.LeftEndpoints | js/integral-vis.js:174-177 | The first sample is a. Every sample lies in [a, b) when a < b. b is never sampled when a ≠ b. |
| IntegralVis.RightEndpointIgnored | js/integral-vis.js:176-178 | Changing fn only at b leaves the sum unchanged. |
| IntegralVis.LeftSumOfConstant | js/integral-vis.js:176-179 | For a constant c, k terms add up to c · k · dx. |
| IntegralVis.LeftSumConstantIsExact | js/integral-vis.js:173-181 | For a constant function c, the sum is exactly c·(b − a) for every n >= 1. |
| IntegralVis.LeftSumIdentityInQuarters | js/integral-vis.js:173-181 | The identity on [0, 1] with n = 4 gives 0.375. |
| IntegralVis.RectangleHeights | js/integral-vis.js:137-145 | One height per rectangle, none for a non-positive count. Rectangle i of n is fn(i/n) tall. |
| IntegralVis.RectangleSamplesInUnitInterval | js/integral-vis.js:138 | Each rectangle's sample i/n lies in [0, 1). |
| IntegralVis.RectangleAreaIsLeftSum | js/integral-vis.js:137-145 | The drawn rectangles have total area equal to the left sum of fn over [0, 1] with n rectangles. |
| IntegralVis.DefaultFunction | js/integral-vis.js:14 | The initial curve is exactly x ↦ sin(πx)·0.5 + 0.5, and it stays within [0, 1]. |
| IntegralVis.OnAddRectangles | js/integral-vis.js:185-188 | Sets showArea=true and animating=false. Nothing else changes. |
| IntegralVis.OnShowArea | js/integral-vis.js:190-196 | Flips `animating`. Only when turning it on does it set time=0 and showArea=true. |
| IntegralVis.OnSetFunction | js/integral-vis.js:198-200 | Stores the function verbatim. Nothing else changes. |
| IntegralVis.OnSetBounds | js/integral-vis.js:202-205 | Stores both bounds verbatim. Nothing else changes. |
| IntegralVis.OnSliderInput | js/integral-vis.js:162-170 | With a slider, `numRectangles` becomes the value read and `showArea` keeps its value. Without a slider it changes nothing. |
| IntegralVis.Advanced | js/integral-vis.js:149-158 | The animation step adds 0.016 to `time` and sets numRectangles = floor(4 + 46·\|sin(time)\|), which lies in [4, 50]. An existing slider shows the new count. |
| IntegralVis.OnFrame | js/integral-vis.js:122-159 | The frame is idle unless `showArea` or `animating` is set. It draws the rectangles for the count before this frame's step, and none unless `showArea`. Then it takes the animation step when animating. |
| IntegralVis.FrameIgnoresBounds | js/integral-vis.js:202-205 | Setting bounds changes nothing any frame draws. It commutes with the frame. |
| IntegralVis.InitInv | js/integral-vis.js:11-19 | The initial state satisfies the invariant (clock not negative, animating implies showArea, slider in sync), provided any slider starts at 10. |
| IntegralVis.FirstWriteSyncsSlider | js/integral-vis.js:149-170 | From any state, whatever the slider shows, a slider input or an animating frame leaves the slider in sync with the number of rectangles. |
| IntegralVis.StepKeepsInv | js/integral-vis.js:122-205 | Every handler, API call and frame preserves the invariant. |
| IntegralVis.RunKeepsInv | js/integral-vis.js:122-205 | Every sequence of events preserves the invariant. |
| IntegralVis.IntegralView.constructor | js/integral-vis.js:11-19 | The fields start at the initial `state`. |
| IntegralVis.IntegralView.AddRectangles | js/integral-vis.js:185-188 | Updates the fields in place as `OnAddRectangles` says. |
| IntegralVis.IntegralView.ShowArea | js/integral-vis.js:190-196 | Updates the fields in place as `OnShowArea` says. |
| IntegralVis.IntegralView.SetFunction | js/integral-vis.js:198-200 | Updates the fields in place as `OnSetFunction` says. |
| IntegralVis.IntegralView.SetBounds | js/integral-vis.js:202-205 | Updates the fields in place as `OnSetBounds` says. |
| IntegralVis.IntegralView.SliderInput | js/integral-vis.js:162-170 | Updates the fields in place as `OnSliderInput` says. |
| IntegralVis.IntegralView.Frame | js/integral-vis.js:122-159 | The rectangle loop and the field updates, as `OnFrame` says. |
| FractionVis.TileAt | js/fraction-vis.js:119-131 | A slot is 1.4/den wide. A tile is active iff i < num. Active tiles carry the current progress, inactive ones 0. |
| FractionVis.Tiles | js/fraction-vis.js:119-131 | One tile per unit of the denominator, none when the denominator is not positive. Tile i is slot i. |
| FractionVis.LayoutTiles | js/fraction-vis.js:119-131 | The per-fraction loop builds exactly that row. |
| FractionVis.ActiveTiles | js/fraction-vis.js:119-122 | A row has min(num, den) active tiles, or none when num <= 0. |
| FractionVis.SlotsSpanTheRow | js/fraction-vis.js:120-121 | Consecutive slots touch. The first starts at −0.7 and the last ends at 0.7. |
| FractionVis.OnResetAnimation | js/fraction-vis.js:153-156 | Sets animationTime=0 and isAnimating=true. Nothing else changes. |
| FractionVis.OnAutoStart | js/fraction-vis.js:159-161 | The start-up timer sets only isAnimating=true. |
| FractionVis.Advanced | js/fraction-vis.js:112-114 | When animating, animationTime becomes min(animationTime + 0.016, 1). From a value <= 1 it never decreases and never passes 1. When not animating, nothing changes. |
| FractionVis.OnFrame | js/fraction-vis.js:104-150 | Takes the clock step. Then draws the dividend's row at y = 0.3, unrotated, and the divisor's row at y = −0.3, rotated by progress·π. Both rows use the new clock as their progress. |
| FractionVis.InitialRows | js/fraction-vis.js:7-12 | In the fractions 2/3 over 1/2, 2 of 3 and 1 of 2 tiles are active. |
| FractionVis.InitInv | js/fraction-vis.js:7-12 | The initial state is 2/3 over 1/2 with the clock at 0, which is in [0, 1]. |
| FractionVis.RunKeepsInv | js/fraction-vis.js:104-161 | Every event sequence keeps the fractions at 2/3 and 1/2 and the clock in [0, 1]. |
| FractionVis.ClockNeverRewinds | js/fraction-vis.js:112-114 | Between resets, the clock never goes back. |
| FractionVis.FractionView.constructor | js/fraction-vis.js:7-12 | The fields start at the initial `state`. |
| FractionVis.FractionView.ResetAnimation | js/fraction-vis.js:153-156 | Updates the fields in place as `OnResetAnimation` says. |
| FractionVis.FractionView.AutoStart | js/fraction-vis.js:159-161 | Updates the fields in place as `OnAutoStart` says. |
| FractionVis.FractionView.Frame | js/fraction-vis.js:104-150 | The clock update and both tile loops, as `OnFrame` says. |
| DerivativeVis.TangentAt | js/derivative-vis.js:82-86 | The tangent's clip x is 2·point − 1, which lies in [-1, 1] for a point in [0, 1]. Its slope is exactly cos(2πt)·π, which lies in [−π, π]. |
| DerivativeVis.Advanced | js/derivative-vis.js:88-90 | When animating, point becomes (point + 0.005) % 1. When not animating, nothing changes. |
| DerivativeVis.AdvanceWraps | js/derivative-vis.js:89 | From [0, 1] the point lands in [0, 1). It moves on by 0.005, or wraps to point − 0.995 from 0.995 upwards. |
| DerivativeVis.OnFrame | js/derivative-vis.js:73-91 | The frame is idle (no change, nothing drawn) unless animating or showing the tangent. The tangent is drawn iff shown, at the point before it advances. |
| DerivativeVis.OnSliderInput | js/derivative-vis.js:95-98 | Sets point = value/100, in [0, 1] for values in [0, 100], and showingTangent=true. `animating` is untouched. |
| DerivativeVis.OnShowTangent | js/derivative-vis.js:102-104 | Sets only showingTangent=true. |
| DerivativeVis.ShowTangentIdempotent | js/derivative-vis.js:102-104 | `showTangent()` twice is the same as once. |
| DerivativeVis.OnAnimate | js/derivative-vis.js:105-107 | Flips only `animating`. |
| DerivativeVis.AnimateTwice | js/derivative-vis.js:105-107 | `animate()` twice restores the state. |
| DerivativeVis.InitInv | js/derivative-vis.js:3-7 | The initial point 0.5 lies in [0, 1]. |
| DerivativeVis.StepKeepsInv | js/derivative-vis.js:73-107 | Every event keeps the point in [0, 1], given slider values in [0, 100]. |
| DerivativeVis.RunKeepsInv | js/derivative-vis.js:73-107 | Every event sequence does too, given slider values in [0, 100]. |
| DerivativeVis.IdleFramesChangeNothing | js/derivative-vis.js:74 | Any number of frames leave an idle view unchanged. |
| DerivativeVis.DerivativeView.constructor | js/derivative-vis.js:3-7 | The fields start at the initial `state`. |
| DerivativeVis.DerivativeView.SliderInput | js/derivative-vis.js:95-98 | Updates the fields in place as `OnSliderInput` says. |
| DerivativeVis.DerivativeView.ShowTangent | js/derivative-vis.js:102-104 | Updates the fields in place as `OnShowTangent` says. |
| DerivativeVis.DerivativeView.Animate | js/derivative-vis.js:105-107 | Updates the fields in place as `OnAnimate` says. |
| DerivativeVis.DerivativeView.Frame | js/derivative-vis.js:73-91 | Updates the fields in place and returns what is drawn, as `OnFrame` says. |
| MatrixTransforms.MultiplyMatrices | js/matrix-transforms.js:87-93 | `multiplyMatrices` term for term. It equals the full 3×3 product of `a` with its third column zeroed and `b`. |
| MatrixTransforms.MultiplyMatricesDropsThirdTerms | js/matrix-transforms.js:87-93 | `multiplyMatrices(a, b)` is the full product with a's third column zeroed. Equally, it is the full product with b's third row zeroed. |
| MatrixTransforms.ProductIgnoresThirdColumnAndRow | js/matrix-transforms.js:87-93 | a[2], a[5], a[8] and b[6..8] never affect the product. |
| MatrixTransforms.TimesIdentity | js/matrix-transforms.js:87-93 | Multiplying by the identity on the right zeroes a's third column. |
| MatrixTransforms.TimesIdentityIsIdentityIff | js/matrix-transforms.js:87-93 | a · I = a exactly when a[2] = a[5] = a[8] = 0. |
| MatrixTransforms.IdentitySquaredLosesCorner | js/matrix-transforms.js:87-93 | I · I has 0 in entry 8, so it is not I. |
| MatrixTransforms.Multiply3Identity | js/matrix-transforms.js:87-93 | Corrected product: I is a unit on both sides. |
| MatrixTransforms.Multiply3KeepsAffine | js/matrix-transforms.js:87-93 | Corrected product: two matrices with last row [0, 0, 1] multiply to one. |
| MatrixTransforms.MultiplyAgreesAboveLastRow | js/matrix-transforms.js:87-93 | When a's third column is zero above the last row, the as-written and full products agree on the first two rows. For affine inputs, the as-written last row is [0, 0, 0] where the full product's is [0, 0, 1]. |
| MatrixTransforms.CreateTransform | js/matrix-transforms.js:96-104 | Whatever the rotation, scale and shear, entries 2 and 5 are 0 and the last row is [0, 0, 1]. |
| MatrixTransforms.CreateTransformIdentity | js/matrix-transforms.js:96-104 | No rotation, scale [1, 1] and shear [0, 0] give the identity. |
| MatrixTransforms.ComposedTransformsLoseLastRow | js/matrix-transforms.js:87-104 | If two built transforms were composed with `multiplyMatrices`, which the view never does, the homogeneous 1 that the full product keeps would be lost. |
| MatrixTransforms.GridPositions | js/matrix-transforms.js:30-34 | 100 points. Point i is ((i % 10)/4.5 − 1, floor(i/10)/4.5 − 1). |
| MatrixTransforms.GridCoordinate | js/matrix-transforms.js:31-32 | Each grid coordinate lies in [-1, 1]. |
| MatrixTransforms.GridFillsClipSquare | js/matrix-transforms.js:30-34 | Every point lies in [-1, 1]², and the four corners (±1, ±1) are among them. |
| MatrixTransforms.GridPointsDistinct | js/matrix-transforms.js:30-34 | No two grid points coincide. |
| MatrixTransforms.OnRotate | js/matrix-transforms.js:145-150 | Sets animating and mode 'rotate', scale [1, 1] and shear [0, 0]. The rotation is untouched. |
| MatrixTransforms.OnScale | js/matrix-transforms.js:151-156 | Sets animating and mode 'scale', rotation 0 and shear [0, 0]. The scale is untouched. |
| MatrixTransforms.OnShear | js/matrix-transforms.js:157-162 | Sets animating and mode 'shear', rotation 0 and scale [1, 1]. The shear is untouched. |
| MatrixTransforms.ModeSwitchesIdempotent | js/matrix-transforms.js:144-163 | Each of `rotate`, `scale` and `shear` is idempotent. |
| MatrixTransforms.Advanced | js/matrix-transforms.js:116-124 | Changes only the field the current mode names. Rotation becomes time % 2π. Scale becomes [k, k] with k = 0.5 + sin(2·time)·0.5. Shear becomes [sin(time)/2, cos(time)/2]. With no mode, nothing changes. |
| MatrixTransforms.OnFrame | js/matrix-transforms.js:107-141 | The frame is idle unless animating. Otherwise it takes the mode's update and draws through the transform built from the new state. |
| MatrixTransforms.InitInv | js/matrix-transforms.js:78-84 | The initial state satisfies the invariant: rotation in [0, 2π), uniform scale in [0, 1], shear in [−½, ½]². |
| MatrixTransforms.StepKeepsInv | js/matrix-transforms.js:107-163 | Every API call and frame preserves that invariant, given frame times >= 0. |
| MatrixTransforms.RunKeepsInv | js/matrix-transforms.js:107-163 | Every event sequence does too, given frame times >= 0. |
| MatrixTransforms.AnimationNeverStops | js/matrix-transforms.js:144-163 | Once animating, no event ever clears `animating`, and a chosen mode is never unset. |
| MatrixTransforms.MatrixView.constructor | js/matrix-transforms.js:78-84 | The fields start at the initial `state`. |
| MatrixTransforms.MatrixView.Rotate | js/matrix-transforms.js:145-150 | Updates the fields in place as `OnRotate` says. |
| MatrixTransforms.MatrixView.Scale | js/matrix-transforms.js:151-156 | Updates the fields in place as `OnScale` says. |
| MatrixTransforms.MatrixView.Shear | js/matrix-transforms.js:157-162 | Updates the fields in place as `OnShear` says. |
| MatrixTransforms.MatrixView.Frame | js/matrix-transforms.js:107-141 | Updates the fields in place and returns the transform drawn, as `OnFrame` says. |

## Left out

- GLSL shader bodies, regl draw commands, `regl.clear`, colours, point sizes, the
  drawn tile size `width * 0.9`, and the per-rectangle `index`/`total` uniforms are
  GPU rendering, not logic. A frame returns the geometry it hands to them.
- `regl.frame` scheduling is the host's refresh loop. One frame is one method call.
  The matrix view's frame `time` is a parameter. The other views ignore theirs.
- DOM access is outside the model. The early `return {}` when a container is missing
  (js/limit-vis.js:4, js/integral-vis.js:4) is not modelled: each view is assumed
  to exist.
- `getBoundingClientRect` is not modelled: the mouse handlers receive the pointer
  position as a fraction of the width.
- Slider elements are looked up once, as `Option` fields fixed at construction. The
  model does not let an element appear or disappear between lookups.
- The derivative slider listener is registered on `load`. Events before then, and the
  exception thrown when that slider is missing, are not modelled.
- Slider values are numbers: reals for the limit and derivative views, the integer
  `parseInt` returns for the integral view. String conversion, `NaN`, and the
  browser's stepping of a range input's value are not modelled.
- The exact values of `Math.sin` and `Math.cos` are floating-point trigonometry. The
  model only assumes their range.
- IEEE rounding is not modelled: numbers are exact reals.
- The fraction view's start-up `setTimeout` is modelled as the `AutoStart` event.
  Its one-second delay is not.
- js/advanced-derivative-vis.js is not part of this model. It holds only a state
  literal and no behaviour.
- The grid's position attribute is a flat array of 200 numbers. Here it is a
  sequence of 100 points.
- IntegralVis.CalculateIntegral: for n = 0 the source computes `(b − a) / 0` but
  never uses it, and the model uses a width of 0 instead. For n < 0 both compute
  (b − a)/n and run no iterations.
- IntegralVis.CalculateIntegral: takes an integer n. In JavaScript a fractional n
  runs ⌈n⌉ iterations with width (b − a)/n. The model does not cover that case.
- `calculateIntegral` and `multiplyMatrices` are never called in their own files.
  Their properties are about the helpers alone, not about anything drawn.
- LimitVis.InitInv: assumes any slider starts at 50. The script never writes the
  slider at start-up: the page's markup sets its value. `FirstWriteSyncsSlider`
  proves the slider is in sync after the first mouse-down, slider input or reset,
  whatever it started at.
- IntegralVis.InitInv: assumes any slider starts at 10, for the same reason.
  `FirstWriteSyncsSlider` proves the slider is in sync after the first slider
  input or animating frame.
- DerivativeVis.RunKeepsInv: assumes slider values in [0, 100]. The slider element's
  range is not part of this model.
- DerivativeVis.StepKeepsInv: makes the same assumption for a single event.
- MatrixTransforms.RunKeepsInv: assumes frame times are not negative. This is true
  of regl's clock but not checked here.
- MatrixTransforms.StepKeepsInv: makes the same assumption for a single event.

## Findings

| source | as written | input that shows it | evidently intended | confidence | as-written member | corrected member |
|---|---|---|---|---|---|---|
| js/matrix-transforms.js:87-93 | Each entry sums two products, so a's third column and b's third row are dropped. Nothing in the view calls the function, so nothing on screen is affected. | `multiplyMatrices(I, I)`: entry 8 is 0, not 1. | The full 3×3 product, with I as a unit. | medium, not executed | MatrixTransforms.IdentitySquaredLosesCorner | MatrixTransforms.Multiply3Identity |
| js/limit-vis.js:116-127 | The barbs always end at toX − 0.1. The right-hand arrow runs from rightPoint·2 − 0.8 to rightPoint·2 − 1, pointing left. | approaching 0.5, epsilon 0.1: the right arrow runs from 0.4 to 0.2, and its barbs end at 0.1, beyond the tip. | Barbs on the tail's side of the tip. | medium, not executed | LimitVis.FrameRightArrowReversed | LimitVis.DirectedArrowPoints |
| js/limit-vis.js:131 | The idle check reads `state.dragging`. No handler assigns it; the handlers set the local `isDragging`. | animation off, then mouse-down at any x: the next frame draws nothing. | Idle only when neither animating nor dragging (`isDragging`). | high, not executed | LimitVis.DragWithoutAnimationIsNeverDrawn | LimitVis.IntendedFrameFollowsDrag |

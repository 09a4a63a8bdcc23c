# Gesture-driven particle cloud, modelled in Dafny

The application shows a cloud of a few thousand particles that morphs between
procedurally generated shapes (heart, sphere, Saturn, flower, Buddha,
fireworks) or an AI-generated list of points. A webcam hand tracker drives the
cloud. Pinching condenses and shakes it. Spreading two hands scales it up.

This project models the computational core of the application:

- `hand_tracker.dfy` (module `HandTracker`) models the gesture interpreter
  inside `predictWebcam`. It takes one frame of hand landmarks and produces a
  `HandGestureState`. `PredictGesture` is the imperative loop that sums the
  per-hand tensions. It is proved equal to the pure `Interpret`.
- `constants.dfy` (module `Constants`) models the six point-cloud generators.
  Each generator allocates a zero-filled `array<real>` of 3·count slots and
  fills it in a loop (`FillParticles`; Saturn runs its planet loop in
  `FillSaturnPlanet` and its ring loop in `FillSaturnRings`, over `FillRings`). Each one
  is proved to produce `Flatten` of a cloud function. Lemmas then prove the
  geometry of each cloud.
- `scene.dfy` (module `Scene`) models the particle component. It covers the
  shape switch (`SelectTarget`, `TargetPositions`), the class `Particles`
  with its live `positions` array and the memo of the target
  (`Particles.Render`), and the per-frame morph
  (`Particles.Tick`, specified by `MorphStep`).
- `app.dfy` (module `App`) models the application's state holders. These are
  the initial settings and the handlers as functional updates. It also models
  sessions driven by traces of events.
- `maths.dfy` (module `Maths`) holds exact-real stand-ins for the parts of
  JavaScript's `Math` that the code uses. `types.dfy` (module `Types`) holds
  the shared records of `types.ts`.

Calls the model cannot see become parameters:

- `Math.sin`, `Math.cos` and `Math.acos` become a `Trig` record of function
  values. The only assumption about them is `Pythagorean` (sin² + cos² = 1),
  stated as a precondition wherever a property needs it.
- `Math.hypot` becomes a `Hypot` function value. The only assumption about it
  is `IsHypot`: it is non-negative and its square is a² + b².
- `Math.random()` becomes a sequence `rand` of draws, consumed in the order
  the code calls it. Heart uses four draws per particle; the first two give
  `phi` and `theta`, which the code never uses. Sphere and flower use two
  draws per particle. Buddha and fireworks use three. Saturn uses two per
  planet iteration, then three per ring iteration. A tense frame uses three
  jitter draws per particle. Every generator requires as many draws as its
  loops call for. The helper `Draw` reads a draw, with 0 past the end only so
  that the per-particle functions are total. Lemmas that need draws in [0, 1)
  require `UnitDraw`/`AllUnit`.
- The elapsed time, the frame's `delta`, the detector's result and the shape
  service's outcome are parameters too.

Behaviour worth knowing, modelled as the code has it:

- The comments at components/HandTracker.tsx:102 ("1 is tension/closed, 0 is
  open") and types.ts:20 (pinch strength from 0 for an open palm to 1 for a
  fist) describe a per-hand value in [0, 1]. The code computes
  `1 − openFactor` with `openFactor` in [0, 2], so a single hand's tension
  lies in [−1, 1]. Only the mean over the hands is clamped to [0, 1]
  (`TensionOfRatio`, `Interpret`).
- The code divides by the palm size without checking it. The model requires
  a positive palm size (`Measurable`) for every hand it reads.
- The morph step is `p + (t − p)·4δ` and nothing bounds `4δ` by 1.
  `LerpOvershoots` proves that a frame longer than 0.25 s overshoots the goal.
- Custom points are copied verbatim into the target buffer, whatever their
  length (`CustomCopiedVerbatim`). During the morph, a slot past the end of
  the target reads as 0 (`TargetAt`, `UntargetedSlotsSink`), and extra
  slots are never read.

## Model

| member | source | states |
|---|---|---|
| Maths.Clamp | components/HandTracker.tsx:101 | `Math.min(Math.max(v, lo), hi)` lies in [lo, hi] and returns v unchanged when v is already in range |
| Maths.ClampMonotone | components/HandTracker.tsx:107 | clamping preserves the order of two values |
| HandTracker.OpenFactor | components/HandTracker.tsx:101 | the open factor lies in [0, 2]; it is 0 for a pinch-to-palm ratio ≤ 0.1 and 2 for a ratio ≥ 1.1 |
| HandTracker.TensionOfRatio | components/HandTracker.tsx:101-103 | a hand's tension lies in [−1, 1]; it is 1 for a ratio ≤ 0.1 and ≤ 0 for a ratio ≥ 0.6 |
| HandTracker.Interpret | components/HandTracker.tsx:77-123 | handsDetected is the unclamped number of hands; pinch lies in [0, 1]; no hands (missing or empty list) gives exactly (0, 0.5, 0); handDistance is the wrist span iff there are exactly two hands, else 0.5 |
| HandTracker.PredictGesture | components/HandTracker.tsx:77-123 | the imperative block (mutable locals, loop summing tensions, clamp, two-hand branch) computes exactly `Interpret` |
| HandTracker.TensionAntitone | components/HandTracker.tsx:96-103 | tension never increases as the pinch-to-palm ratio grows |
| HandTracker.TotalIsSum | components/HandTracker.tsx:85-104 | the loop's running total equals the sum of the per-hand tensions, computed by an independent front-first sum |
| HandTracker.PinchIsClampedMean | components/HandTracker.tsx:105-107 | the pinch strength is the mean of the per-hand tensions, clamped to [0, 1] |
| HandTracker.TotalTensionBounds | components/HandTracker.tsx:85-104 | with n hands, the total lies in [−n, n] |
| HandTracker.AllClosedGivesFullPinch | components/HandTracker.tsx:99-107 | if every hand pinches within a tenth of its palm size, the pinch strength is exactly 1 |
| HandTracker.AllOpenGivesZeroPinch | components/HandTracker.tsx:99-107 | if every hand's pinch reaches 0.6 of its palm size, the pinch strength is exactly 0 |
| HandTracker.SpanIsPlanarDistance | components/HandTracker.tsx:110-116 | with two hands, handDistance is non-negative and its square is dx² + dy² of the two wrists |
| HandTracker.HandTensionIgnoresDepth | components/HandTracker.tsx:96-103 | a hand's tension depends only on the landmarks' x and y |
| HandTracker.TotalTensionIgnoresDepth | components/HandTracker.tsx:85-104 | the running total depends only on x and y |
| HandTracker.DepthIndependent | components/HandTracker.tsx:96-97 | two frames that agree on every x and y give the same gesture state, whatever the depths (z) |
| HandTracker.ClosedFistScenario | components/HandTracker.tsx:91-107 | wrist (0,0), thumb tip (0.05,0), index tip (0.06,0), middle knuckle (0,0.2): palm 0.2, pinch 0.01, open factor 0; one hand gives (1, 0.5, 1) |
| Constants.Flatten | constants.ts:3 | the flat buffer has exactly three slots per particle |
| Constants.FlattenAt | constants.ts:20-22 | particle i occupies slots 3i, 3i+1 and 3i+2 as x, y, z |
| Constants.FillParticles | constants.ts:4-23 | iteration i writes particle i to slots 3i..3i+2; no slot outside [3·from, 3·to) changes |
| Constants.SphericalOnSphere | constants.ts:31-36 | `r·sinφ·cosθ, r·sinφ·sinθ, r·cosφ` lies on the sphere of radius r |
| Constants.GenerateHeartPoints | constants.ts:2-25 | returns 3·count slots (empty for count 0) holding the heart cloud, drawing four values per particle and using the last two |
| Constants.HeartDepthBounded | constants.ts:17-22 | heart depth (r − 0.5)·5·0.5 lies in [−1.25, 1.25) |
| Constants.HeartCloudDepthBounded | constants.ts:4-23 | every heart particle's depth lies in [−1.25, 1.25) |
| Constants.HeartOutlineBounded | constants.ts:14-21 | the scaled heart curve lies in [−1.6, 1.6] × [−2.1, 2.1] |
| Constants.GenerateSpherePoints | constants.ts:27-39 | returns 3·count slots holding the sphere cloud, with two draws per particle |
| Constants.SphereRadiusFixed | constants.ts:30-36 | every sphere particle is at distance exactly 2 from the origin |
| Constants.PlanetSlotsExact | constants.ts:43-47 | the planet loop `i < count·0.4` visits exactly the integers below (2·count + 4)/5 |
| Constants.RingIterationsExact | constants.ts:57 | the ring loop, which starts at count·0.4, runs exactly (3·count + 4)/5 times |
| Constants.RingStartIntegral | constants.ts:44-57 | the ring index is an integer iff count is a multiple of 5, and it then starts at the first slot after the planet |
| Constants.RingDrawsFit | constants.ts:57-62 | each ring iteration finds its three draws after those of the planet |
| Constants.FillRings | constants.ts:57-64 | the ring loop writes ring iteration n to particle ringStart + n when ringStart is an integer; otherwise it writes nothing, since a typed array ignores fractional keys |
| Constants.GenerateSaturnPoints | constants.ts:41-66 | returns 3·count slots holding the planet below PlanetSlots(count), and rings above it only when count·0.4 is an integer |
| Constants.FillSaturnPlanet | constants.ts:46-54 | from a zero buffer, the planet loop leaves the planet points in the first PlanetSlots(count) particles and 0 elsewhere |
| Constants.FillSaturnRings | constants.ts:56-64 | after the planet loop, the ring loop leaves exactly `Flatten(SaturnCloud)`: ring points from count·0.4 on when that is an integer, otherwise nothing changes |
| Constants.SaturnSlot | constants.ts:47-64 | each slot of the Saturn buffer is the planet point, the ring point or 0, as `SaturnCloud` says |
| Constants.SaturnFractionalRingStaysZero | constants.ts:57-64 | when count is not a multiple of 5, every slot from 3·PlanetSlots(count) on stays 0 |
| Constants.SaturnThreeParticlesLoseRing | constants.ts:41-66 | with three particles the planet takes two and the third, a ring particle by the ring loop's comment, stays at the origin |
| Constants.IntendedRingsPresent | constants.ts:56-64 | in the intended cloud every particle from PlanetSlots(count) on lies on the ring, between 2.2 and 4.7 from the vertical axis |
| Constants.SaturnAsIntendedIffMultipleOfFive | constants.ts:41-66 | the code's Saturn cloud equals the intended one iff count is a multiple of 5 or count is 1 |
| Constants.SaturnPlanetRadius | constants.ts:48-53 | planet particles lie on the sphere of radius 1.5 |
| Constants.RingPointBounds | constants.ts:58-63 | a ring point's height lies in [−0.05, 0.05); its planar radius 2.2 + 2.5·r lies in [2.2, 4.7) and equals √(x² + z²) |
| Constants.GenerateFlowerPoints | constants.ts:68-82 | returns 3·count slots holding the flower cloud, with two draws per particle |
| Constants.FlowerRadius | constants.ts:71-79 | a flower point lies at distance \|2·cos(4u) + 1\| ≤ 3 from the origin |
| Constants.GenerateBuddhaPoints | constants.ts:85-123 | returns 3·count slots holding the Buddha cloud, with three draws per particle |
| Constants.BuddhaRegions | constants.ts:89-120 | the first draw picks the region: below 0.4 the base ellipsoid (x/1.2)² + ((y+1.5)/0.6)² + z² = 1.5²; below 0.8 the torso x² + y² + (z/0.8)² = 1; else the head x² + (y−1.4)² + z² = 0.6² |
| Constants.GenerateFireworksPoints | constants.ts:125-137 | returns 3·count slots holding the fireworks cloud, with three draws per particle |
| Constants.FireworksInBall | constants.ts:129-134 | a fireworks point lies at distance 4·r ∈ [0, 4) from the origin |
| Constants.FireworksCloudInBall | constants.ts:127-135 | every fireworks particle lies strictly inside the ball of radius 4 |
| Scene.SelectTarget | components/Scene.tsx:39-52 | the shape switch returns the selected generator's buffer, or the custom points when present |
| Scene.CustomCopiedVerbatim | components/Scene.tsx:47-48 | non-null custom points are copied exactly: no padding and no truncation, whatever the particle count |
| Scene.CustomWithoutPointsIsSphere | components/Scene.tsx:47-50 | the custom shape without points falls back to the sphere, with 3·count slots |
| Scene.GeneratedTargetLength | components/Scene.tsx:41-51 | every generated target has exactly 3·count slots |
| Scene.CustomIgnoresDraws | components/Scene.tsx:47-48 | a custom target does not depend on the random draws |
| Scene.MorphStep | components/Scene.tsx:83-120 | one frame maps every slot of the live buffer and keeps its length |
| Scene.IdleBreathes | components/Scene.tsx:73-78 | with no hands the tension is 0 and the expansion `sin(time)·0.1 + 1` lies in [0.9, 1.1] |
| Scene.HandsDrive | components/Scene.tsx:77-78 | with hands, the expansion is 0.5 + 2·handDistance and the tension is the pinch strength |
| Scene.RelaxedGoalExact | components/Scene.tsx:88-99 | at tension ≤ 0.1 the goal is exactly target·expansion, and no draw matters |
| Scene.TenseGoalBounded | components/Scene.tsx:99-109 | at tension > 0.1 the goal is target·expansion·(1 − 0.8·tension) plus a jitter in [−0.25·tension, 0.25·tension) |
| Scene.JitterBounded | components/Scene.tsx:105-108 | one jitter term `(r − 0.5)·tension·0.5` lies in [−0.25·tension, 0.25·tension) |
| Scene.FullPinchCondenses | components/Scene.tsx:99-108 | a full pinch pulls the scaled target to a fifth of its size, plus jitter |
| Scene.LerpBetween | components/Scene.tsx:116-119 | with 0 ≤ 4δ ≤ 1 the new position lies between the old one and the goal, and the gap shrinks by the factor 1 − 4δ |
| Scene.LerpOvershoots | components/Scene.tsx:81-119 | with 4δ > 1 (no clamp) the new position lands past the goal |
| Scene.ApproachGap | components/Scene.tsx:116-119 | after n frames towards a fixed goal the gap is (1 − 4δ)ⁿ times the initial gap |
| Scene.PowerInUnit | components/Scene.tsx:116-119 | for 0 ≤ 4δ ≤ 1 the factor (1 − 4δ)ⁿ stays in [0, 1], so the gap never grows |
| Scene.RelaxedStepTowardsTarget | components/Scene.tsx:88-119 | at rest, every slot's gap to target·expansion shrinks by the factor 1 − 4δ in one frame |
| Scene.UntargetedSlotsSink | components/Scene.tsx:88-90 | at rest, a slot past the end of the target (read as 0) decays towards the origin by the factor 1 − 4δ |
| Scene.Particles.constructor | components/Scene.tsx:39-55 | the first render builds the target for the selection and a zero-filled live buffer of 3·count slots |
| Scene.Particles.Render | components/Scene.tsx:39-55 | the target is regenerated iff shape, count or custom points changed; the live buffer is replaced by a zero-filled one iff the count changed, and is otherwise kept with its contents |
| Scene.Particles.Tick | components/Scene.tsx:62-127 | the frame loop updates the whole live buffer to `MorphStep` of its old contents, touches nothing else, and turns the cloud by 0.001 + 0.05·tension |
| Scene.RotationStepBounded | components/Scene.tsx:124-127 | the turn per frame lies in [0.001, 0.051] |
| App.InitialAppState | App.tsx:10-16 | the initial settings are a Heart, colour `#00ffff`, 3000 particles, not generating, no custom points |
| App.InitialGesture | App.tsx:19-23 | the initial gesture is (0, 0.5, 0) |
| App.InitialSession | App.tsx:10-23 | a session starts from the initial settings and the initial gesture |
| App.ShapeChange | App.tsx:30-32 | sets the shape and clears the custom points; the colour, count and busy flag are kept |
| App.ColorChange | App.tsx:34-36 | sets only the colour |
| App.GenerationStart | App.tsx:40 | raises only the busy flag |
| App.GenerationSuccess | App.tsx:42-47 | selects the custom shape with exactly the returned points and lowers the busy flag; colour and count are kept |
| App.GenerationFailure | App.tsx:48-50 | lowers only the busy flag |
| App.HandleGenerationOutcome | App.tsx:38-53 | a finished request leaves the flag down and the count unchanged; a success shows exactly the returned points; a failure from an idle state restores the settings exactly |
| App.ShapeChangeIdempotent | App.tsx:30-32 | picking the same shape twice equals picking it once |
| App.ShapeAndColorCommute | App.tsx:30-36 | shape and colour picks commute |
| App.GestureSeparateFromSettings | App.tsx:26-28 | a tracker report replaces the gesture wholesale and leaves the settings alone; no other event changes the gesture |
| App.StepKeepsSettingsInvariant | App.tsx:26-53 | no handler changes the particle count, and custom points are held only while the custom shape is selected |
| App.RunKeepsSettingsInvariant | App.tsx:26-53 | the same holds along any trace of events |
| App.ReachableSessions | App.tsx:10-53 | every session reachable from launch has 3000 particles and consistent custom points |
| App.ColorOnlyFromColorPicks | App.tsx:34-36 | along a trace without colour picks the colour never changes |
| App.OverlappingRequestsLowerFlagEarly | App.tsx:38-47 | App.tsx's handlers alone (the UI disables its Create button while a request is pending, so it does not issue this trace): the busy flag is one boolean, so with two overlapping requests the first answer lowers it while the second is still pending |

## Left out

- Floating point: the model uses exact reals. It does not model `Float32Array` rounding of targets and positions, the double rounding of `Math.PI` products, NaN or infinities. One consequence is that `|| 0` is modelled only for missing slots, not for NaN.
- `Math.sin`, `Math.cos`, `Math.acos` and `Math.hypot` are parameters. Only the Pythagorean identity and the definition of hypot are assumed, so the range of `acos` and the uniformity of the sampling are not modelled.
- `Math.random()` is a sequence of draws passed in. Randomness and the distribution of the draws are not modelled; where a bound needs it, the draws are required to lie in [0, 1).
- HandTracker.Interpret: requires a positive palm size for every hand (`Measurable`). The code divides by it without a guard, and a zero palm yields a JavaScript Infinity or NaN, which exact reals cannot express.
- The MediaPipe hand landmarker, the camera stream, `requestAnimationFrame` scheduling, the `videoRef.current.currentTime > 0` gate and the `onGestureUpdate` callback are left out. The detector's result is a parameter and the emitted state is the return value.
- Scene.Particles.Tick: assumes the geometry and points refs are mounted. The early return when `geometryRef.current` is null and the `pointsRef.current` guard on the rotation are not modelled.
- Scene.Particles.Render: compares the memo dependencies by value. React compares `customPoints` by reference, so a new array with the same contents regenerates the target in the code but not in the model.
- The empty `useEffect` on the target (components/Scene.tsx:57-60) does nothing and is not modelled. The Fireworks branch in the frame loop is empty too.
- Rendering is left out: JSX, the canvas and camera, the points material and its colour, additive blending and the orbit controls. `components/UI.tsx` is not part of this model.
- The shape service (`services/geminiService.ts`) is not part of this model. Its answer is an `Outcome` parameter, and the prompt, the network call, `console.error` and `alert` are left out.
- Asynchrony is modelled only as traces of handler events applied to the latest state. The timing of the `await` is not modelled, and the code has no cancellation of stale requests.

## Findings

| source | as written | input that shows it | evidently intended | confidence | as-written member | corrected member |
|---|---|---|---|---|---|---|
| constants.ts:57-64 | the ring loop starts its index at `count * 0.4` and writes `points[i * 3]`; for a count that is not a multiple of 5 every index is fractional, a typed array ignores those writes, and the rings stay at the origin | `generateSaturnPoints(3)`: particles 0 and 1 form the planet, particle 2 stays at (0, 0, 0) | every particle from the end of the planet on is a ring point, whatever the count | high, by reading; not executed | Constants.SaturnThreeParticlesLoseRing | Constants.IntendedRingsPresent |

The generator and the particle component model the code as written, so they
keep `SaturnCloud`. `SaturnAsIntendedIffMultipleOfFive` shows that the
intended cloud (`IntendedSaturnCloud`) agrees with it for every multiple of 5,
including the app's fixed count of 3000 (`App.ReachableSessions`).

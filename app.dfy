/**
 * The application's state holders (App.tsx): the initial settings, the
 * gesture signal replaced wholesale by the tracker, and the handlers that
 * update the settings as functional updates of the previous state.
 */
module App {
  import opened Types

  /** The settings on first render: a cyan heart of 3000 particles, no generation running. */
  function InitialAppState(): (s: AppState)
    ensures s.currentShape == Heart && s.particleColor == "#00ffff" && s.particleCount == 3000
    ensures !s.isGenerating && s.customPoints == None
  {
    AppState(Heart, "#00ffff", 3000, false, None)
  }

  /** The gesture before any camera frame: no pinch, neutral spread, no hands. */
  function InitialGesture(): (g: HandGestureState)
    ensures g.pinchStrength == 0.0 && g.handDistance == 0.5 && g.handsDetected == 0
  {
    HandGestureState(0.0, 0.5, 0)
  }

  /** Picking a shape sets it and discards any custom points; nothing else changes. */
  function ShapeChange(prev: AppState, shape: ShapeType): (next: AppState)
    ensures next.currentShape == shape && next.customPoints == None
    ensures next.particleColor == prev.particleColor && next.particleCount == prev.particleCount
    ensures next.isGenerating == prev.isGenerating
  {
    prev.(currentShape := shape, customPoints := None)
  }

  /** Picking a colour sets only the colour. */
  function ColorChange(prev: AppState, color: string): (next: AppState)
    ensures next.particleColor == color
    ensures next.currentShape == prev.currentShape && next.customPoints == prev.customPoints
    ensures next.particleCount == prev.particleCount && next.isGenerating == prev.isGenerating
  {
    prev.(particleColor := color)
  }

  /** A generation request raises only the busy flag. */
  function GenerationStart(prev: AppState): (next: AppState)
    ensures next.isGenerating
    ensures next.currentShape == prev.currentShape && next.customPoints == prev.customPoints
    ensures next.particleColor == prev.particleColor && next.particleCount == prev.particleCount
  {
    prev.(isGenerating := true)
  }

  /** A successful generation shows its points as the custom shape and lowers the busy flag. */
  function GenerationSuccess(prev: AppState, points: seq<real>): (next: AppState)
    ensures next.currentShape == Custom && next.customPoints == Some(points) && !next.isGenerating
    ensures next.particleColor == prev.particleColor && next.particleCount == prev.particleCount
  {
    prev.(currentShape := Custom, customPoints := Some(points), isGenerating := false)
  }

  /** A failed generation lowers only the busy flag. */
  function GenerationFailure(prev: AppState): (next: AppState)
    ensures !next.isGenerating
    ensures next.currentShape == prev.currentShape && next.customPoints == prev.customPoints
    ensures next.particleColor == prev.particleColor && next.particleCount == prev.particleCount
  {
    prev.(isGenerating := false)
  }

  /** What the shape service reports: a flat point list, or an error. */
  datatype Outcome = Succeeded(points: seq<real>) | Failed

  /** A whole request with nothing interleaved: raise the flag, then apply the outcome. */
  function HandleGeneration(prev: AppState, outcome: Outcome): (next: AppState)
  {
    var busy := GenerationStart(prev);
    match outcome
    case Succeeded(points) => GenerationSuccess(busy, points)
    case Failed => GenerationFailure(busy)
  }

  /**
   * A finished request leaves the flag down; a success shows exactly the
   * returned points, and a failure from an idle state changes nothing at all.
   */
  lemma HandleGenerationOutcome(prev: AppState, outcome: Outcome)
    ensures !HandleGeneration(prev, outcome).isGenerating
    ensures HandleGeneration(prev, outcome).particleCount == prev.particleCount
    ensures outcome.Succeeded? ==>
      HandleGeneration(prev, outcome).customPoints == Some(outcome.points)
      && HandleGeneration(prev, outcome).currentShape == Custom
    ensures outcome.Failed? && !prev.isGenerating ==> HandleGeneration(prev, outcome) == prev
  {
  }

  /** Picking the same shape twice is the same as picking it once. */
  lemma ShapeChangeIdempotent(s: AppState, shape: ShapeType)
    ensures ShapeChange(ShapeChange(s, shape), shape) == ShapeChange(s, shape)
  {
  }

  /** Shape and colour choices do not interfere: either order gives the same settings. */
  lemma ShapeAndColorCommute(s: AppState, shape: ShapeType, color: string)
    ensures ShapeChange(ColorChange(s, color), shape) == ColorChange(ShapeChange(s, shape), color)
  {
  }

  // ---------------------------------------------------------------------
  // Sessions: everything the application holds, driven by a trace of events

  datatype Session = Session(app: AppState, gesture: HandGestureState)

  datatype Event =
    | ShapePicked(shape: ShapeType)
    | ColorPicked(color: string)
    | GenerationRequested
    | GenerationReturned(points: seq<real>)
    | GenerationFailed
    | GestureReported(gesture: HandGestureState)

  function InitialSession(): (s: Session)
    ensures s.app == InitialAppState() && s.gesture == InitialGesture()
  {
    Session(InitialAppState(), InitialGesture())
  }

  /** One handler call; each setter is a functional update of the latest state. */
  function Step(s: Session, e: Event): Session
  {
    match e
    case ShapePicked(shape) => s.(app := ShapeChange(s.app, shape))
    case ColorPicked(color) => s.(app := ColorChange(s.app, color))
    case GenerationRequested => s.(app := GenerationStart(s.app))
    case GenerationReturned(points) => s.(app := GenerationSuccess(s.app, points))
    case GenerationFailed => s.(app := GenerationFailure(s.app))
    case GestureReported(g) => s.(gesture := g)
  }

  function Run(s: Session, events: seq<Event>): Session
    decreases |events|
  {
    if events == [] then s else Run(Step(s, events[0]), events[1..])
  }

  /** The tracker's report replaces the whole gesture and touches no setting; no other event touches the gesture. */
  lemma GestureSeparateFromSettings(s: Session, e: Event)
    ensures e.GestureReported? ==> Step(s, e) == Session(s.app, e.gesture)
    ensures !e.GestureReported? ==> Step(s, e).gesture == s.gesture
  {
  }

  /** Custom points are only ever held while the custom shape is selected. */
  predicate Consistent(app: AppState)
  {
    app.customPoints.Some? ==> app.currentShape == Custom
  }

  lemma StepKeepsSettingsInvariant(s: Session, e: Event)
    requires Consistent(s.app)
    ensures Consistent(Step(s, e).app)
    ensures Step(s, e).app.particleCount == s.app.particleCount
  {
  }

  /** Along any trace the particle count never changes and custom points imply the custom shape. */
  lemma {:induction false} RunKeepsSettingsInvariant(s: Session, events: seq<Event>)
    requires Consistent(s.app)
    ensures Consistent(Run(s, events).app)
    ensures Run(s, events).app.particleCount == s.app.particleCount
    decreases |events|
  {
    if events != [] {
      StepKeepsSettingsInvariant(s, events[0]);
      RunKeepsSettingsInvariant(Step(s, events[0]), events[1..]);
    }
  }

  /** From launch, every reachable session keeps 3000 particles and a consistent custom shape. */
  lemma ReachableSessions(events: seq<Event>)
    ensures Run(InitialSession(), events).app.particleCount == 3000
    ensures Consistent(Run(InitialSession(), events).app)
  {
    RunKeepsSettingsInvariant(InitialSession(), events);
  }

  predicate NoColorPicked(events: seq<Event>)
  {
    forall i :: 0 <= i < |events| ==> !events[i].ColorPicked?
  }

  /** Only a colour pick changes the colour. */
  lemma {:induction false} ColorOnlyFromColorPicks(s: Session, events: seq<Event>)
    requires NoColorPicked(events)
    ensures Run(s, events).app.particleColor == s.app.particleColor
    decreases |events|
  {
    if events != [] {
      assert !events[0].ColorPicked?;
      assert NoColorPicked(events[1..]) by {
        forall i | 0 <= i < |events| - 1 ensures !events[1..][i].ColorPicked? {
          assert events[1..][i] == events[i + 1];
        }
      }
      ColorOnlyFromColorPicks(Step(s, events[0]), events[1..]);
    }
  }

  /**
   * The busy flag is a single boolean, not a count of requests: when two
   * requests overlap, the first answer lowers it while the second is pending.
   */
  lemma OverlappingRequestsLowerFlagEarly(s: Session, points: seq<real>)
    ensures !Run(s, [GenerationRequested, GenerationRequested, GenerationReturned(points)]).app.isGenerating
  {
    var s1 := Step(s, GenerationRequested);
    var s2 := Step(s1, GenerationRequested);
    var s3 := Step(s2, GenerationReturned(points));
    var events := [GenerationRequested, GenerationRequested, GenerationReturned(points)];
    assert events[1..] == [GenerationRequested, GenerationReturned(points)];
    assert events[1..][1..] == [GenerationReturned(points)];
    assert events[1..][1..][1..] == [];
    assert Run(s2, events[1..][1..]) == Run(s3, []) == s3;
    assert Run(s, events) == Run(s1, events[1..]) == Run(s2, events[1..][1..]);
  }
}

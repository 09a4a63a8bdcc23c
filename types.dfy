/** The records shared by the tracker, the scene and the application (types.ts). */
module Types {

  datatype Option<+T> = None | Some(value: T)

  /** The selectable shapes; `Custom` is the AI-generated one. */
  datatype ShapeType = Heart | Sphere | Saturn | Flower | Buddha | Fireworks | Custom

  /** What the application holds; `customPoints` is a flat [x, y, z, x, y, z, ...] list. */
  datatype AppState = AppState(
    currentShape: ShapeType,
    particleColor: string,
    particleCount: nat,
    isGenerating: bool,
    customPoints: Option<seq<real>>)

  /** The signal the tracker emits once per processed camera frame. */
  datatype HandGestureState = HandGestureState(
    pinchStrength: real,
    handDistance: real,
    handsDetected: nat)
}

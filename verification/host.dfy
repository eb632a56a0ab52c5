/**
 * The parts of the host scene the director reads and writes: the navigation rig,
 * the player height trim, the animation steps and the possessor (the tracked head).
 */
module Host {
  import opened Wrappers
  import opened Geometry

  /**
   * An orientation (a UnityEngine.Quaternion). Rotations are carried, never computed:
   * `YawCorrected(b, rig, yaw)` stands for `b * Quaternion.Euler(0, rig.eulerAngles.y - yaw, 0)`
   * left unevaluated, so that no trigonometry enters the model.
   */
  datatype Rotation =
    | Quaternion(x: real, y: real, z: real, w: real)
    | YawCorrected(base: Rotation, rigRotation: Rotation, headYaw: real)

  /** The navigation rig's world transform. */
  datatype Rig = Rig(rotation: Rotation, position: Vec3)

  /** Everything the director writes: the rig and `playerHeightAdjust`. */
  datatype World = World(rig: Rig, playerHeightAdjust: real)

  /**
   * A step's identity. The host compares steps with UnityEngine.Object's `!=`, which for
   * live objects is reference identity; `id` stands for it. Destroyed steps are not modelled.
   */
  type StepId = nat

  /** An animation step: its identity, the timeline's `active` flag and its pose. */
  datatype Step = Step(id: StepId, active: bool, rotation: Rotation, position: Vec3)

  /**
   * The possessor: the yaw of its transform, and where its auto-snap point lies once the
   * rig carries a given rotation (the head is a child of the rig, so writing the rig's
   * rotation moves it).
   */
  datatype Possessor = Possessor(yaw: real, snapPointOf: Rotation -> Vec3)

  /**
   * What one call of `Update` reads from the host. `None` marks a null reference:
   * the "Active" control was never registered, no animation pattern was found, or no
   * possessor was found. `monitorView` is whether the monitor rig is the active view, and
   * `upOf` gives the rig's `up` axis for the rotation it carries.
   */
  datatype Frame = Frame(
    toggle: Option<bool>,
    steps: Option<seq<Step>>,
    possessor: Option<Possessor>,
    monitorView: bool,
    upOf: Rotation -> Vec3)
}

/**
 * The Director plugin: while its "Active" toggle is on it moves the navigation rig to the
 * first active animation step each time that step changes, and when the toggle goes off,
 * an update fails or the plugin is disabled it puts the rig and the player height back as
 * they were at activation.
 */
module Director {
  import opened Wrappers
  import opened Geometry
  import opened Host

  /**
   * The plugin's own fields: the `_active` latch, the values captured at activation
   * (`_previousRotation`, `_previousPosition`, `_previousPlayerHeight`) and `_currentStep`.
   */
  datatype State = State(active: bool, backup: World, currentStep: Option<StepId>)

  /** The director together with the part of the scene it writes. */
  datatype Config = Config(director: State, world: World)

  /** The null dereference that ends an update in the catch block. */
  datatype Fault =
    | MissingToggle      // `_activeJSON` is null
    | MissingPattern     // `_pattern` is null
    | NoActiveStep       // `target` is null while a step is remembered
    | MissingPossessor   // `_possessor` is null

  /** How the body of the try block ended: normally, or by throwing from a partial state. */
  datatype Outcome = Completed(config: Config) | Threw(config: Config, fault: Fault)

  /** The result of one `Update`: the new configuration and the error logged, if any. */
  datatype Tick = Tick(config: Config, fault: Option<Fault>)

  /** The fields' default values when the plugin is created. */
  const Initial: State :=
    State(false, World(Rig(Quaternion(0.0, 0.0, 0.0, 0.0), Vec3(0.0, 0.0, 0.0)), 0.0), None)

  /** A step is only ever remembered while the director is active. */
  predicate Valid(d: State)
  {
    !d.active ==> d.currentStep.None?
  }

  /** The plugin starts inactive, remembering no step. */
  lemma InitialValid()
    ensures Valid(Initial) && !Initial.active
  {
  }

  /** What a restore would write back now: the backup while active, else the world as it is. */
  function RestorePoint(c: Config): World
  {
    if c.director.active then c.director.backup else c.world
  }

  /** Takes the snapshot and sets the latch. */
  function Capture(c: Config): (r: Config)
    ensures r.director.active && r.director.backup == c.world
    ensures r.world == c.world && r.director.currentStep == c.director.currentStep
  {
    Config(State(true, c.world, c.director.currentStep), c.world)
  }

  /**
   * Writes back exactly what was captured at activation, forgets the current step and
   * clears the latch; does nothing at all when the director is not active.
   */
  function Restore(c: Config): (r: Config)
    ensures !c.director.active ==> r == c
    ensures c.director.active ==> r.world == c.director.backup
    ensures c.director.active ==> r.director == State(false, c.director.backup, None)
  {
    if !c.director.active then c
    else Config(State(false, c.director.backup, None), c.director.backup)
  }

  /** The plugin is disabled: the same restore as every other path. */
  function OnDisable(c: Config): (r: Config)
    ensures !r.director.active && r.world == RestorePoint(c)
    ensures Valid(c.director) ==> r.director.currentStep.None?
    ensures r.director.backup == c.director.backup
  {
    Restore(c)
  }

  /** The index of the first step, in list order, whose `active` flag is set. */
  function FirstActive(steps: seq<Step>): (r: Option<nat>)
    ensures r.Some? ==> r.value < |steps| && steps[r.value].active
    ensures r.Some? ==> forall j :: 0 <= j < r.value ==> !steps[j].active
    ensures r.None? <==> forall j :: 0 <= j < |steps| ==> !steps[j].active
  {
    if |steps| == 0 then None
    else if steps[0].active then Some(0)
    else
      match FirstActive(steps[1..])
      case None => None
      case Some(i) => Some(i + 1)
  }

  /** The identity of `FirstOrDefault(step => step.active)`; `None` is the null default. */
  function TargetId(steps: seq<Step>): Option<StepId>
  {
    match FirstActive(steps)
    case None => None
    case Some(i) => Some(steps[i].id)
  }

  /** Where the rig goes and how much is moved into the height trim. */
  datatype Placement = Placement(position: Vec3, lift: real)

  /**
   * The position arithmetic of a placement: the rig is shifted by the offset from the head's
   * snap point to the step, less that offset's component along `up`, which goes into the
   * player height trim instead. With a unit `up`, the rig keeps its height along `up`.
   */
  function Reposition(rigPosition: Vec3, stepPosition: Vec3, snapPoint: Vec3, up: Vec3): (p: Placement)
    ensures p.lift == Dot(Sub(stepPosition, snapPoint), up)
    ensures Add(p.position, Scale(up, p.lift)) == Sub(Add(rigPosition, stepPosition), snapPoint)
    ensures IsUnit(up) ==> Dot(p.position, up) == Dot(rigPosition, up)
  {
    var positionOffset := Sub(Add(rigPosition, stepPosition), snapPoint);
    var lift := Dot(Sub(positionOffset, rigPosition), up);
    var position := Add(positionOffset, Scale(up, -lift));
    assert Sub(positionOffset, rigPosition) == Sub(stepPosition, snapPoint);
    DotAdd(positionOffset, Scale(up, -lift), up);
    DotScale(up, -lift, up);
    DotAdd(rigPosition, Sub(stepPosition, snapPoint), up);
    assert positionOffset == Add(rigPosition, Sub(stepPosition, snapPoint));
    Placement(position, lift)
  }

  /** The rotation written to the rig: the step's, yaw-corrected unless the monitor is the view. */
  function AimedRotation(step: Step, rig: Rig, p: Option<Possessor>, monitorView: bool): Rotation
    requires monitorView || p.Some?
  {
    if monitorView then step.rotation else YawCorrected(step.rotation, rig.rotation, p.value.yaw)
  }

  /** Moves the rig to `step`: rotation first, then position and height trim. */
  function Place(c: Config, step: Step, f: Frame): Outcome
  {
    if !f.monitorView && f.possessor.None? then Threw(c, MissingPossessor)
    else
      var rotation := AimedRotation(step, c.world.rig, f.possessor, f.monitorView);
      var turned := c.(world := c.world.(rig := c.world.rig.(rotation := rotation)));
      match f.possessor
      case None => Threw(turned, MissingPossessor)
      case Some(p) =>
        var placed := Reposition(c.world.rig.position, step.position, p.snapPointOf(rotation), f.upOf(rotation));
        Completed(c.(world := World(Rig(rotation, placed.position), c.world.playerHeightAdjust + placed.lift)))
  }

  /** The work done while active: edge-triggered placement on the first active step. */
  function Follow(c: Config, f: Frame): Outcome
  {
    match f.steps
    case None => Threw(c, MissingPattern)
    case Some(steps) =>
      var target := FirstActive(steps);
      var targetId := TargetId(steps);
      if c.director.currentStep == targetId then Completed(c)
      else
        var remembered := c.(director := c.director.(currentStep := targetId));
        match target
        case None => Threw(remembered, NoActiveStep)
        case Some(i) => Place(remembered, steps[i], f)
  }

  /** The body of the try block. */
  function Body(c: Config, f: Frame): Outcome
  {
    match f.toggle
    case None => Threw(c, MissingToggle)
    case Some(on) =>
      if c.director.active && !on then Completed(Restore(c))
      else if !c.director.active && on then Follow(Capture(c), f)
      else if c.director.active then Follow(c, f)
      else Completed(c)
  }

  /**
   * One frame. A failure anywhere in the body is logged and ends in `Restore`, so the
   * director is never left active after an error, and a frame never changes what a
   * restore would hand back.
   */
  function Update(c: Config, f: Frame): (t: Tick)
    ensures t.config.director.active ==> t.fault.None? && f.toggle == Some(true)
    ensures t.fault.Some? && Valid(c.director) ==> t.config.director.currentStep.None?
    ensures c.director.active ==> t.config.director.backup == c.director.backup
    ensures Valid(c.director) ==> Valid(t.config.director)
  {
    match Body(c, f)
    case Completed(c') => Tick(c', None)
    case Threw(c', e) => Tick(Restore(c'), Some(e))
  }
}

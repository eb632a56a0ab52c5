/** Properties of the Director state machine that relate several calls or cases. */
module DirectorFacts {
  import opened Wrappers
  import opened Geometry
  import opened Host
  import opened Director

  /** Runs `Update` once per frame, in order. */
  function Run(c: Config, frames: seq<Frame>): Config
    decreases |frames|
  {
    if |frames| == 0 then c else Run(Update(c, frames[0]).config, frames[1..])
  }

  /**
   * No frame moves the restore point: while active the backup is never overwritten,
   * a rising edge captures exactly the world a restore would have left, and every
   * restoring path writes back that same backup.
   */
  lemma UpdateKeepsRestorePoint(c: Config, f: Frame)
    ensures RestorePoint(Update(c, f).config) == RestorePoint(c)
  {
  }

  /**
   * However many frames run, with whatever step changes, toggles and failures, disabling
   * the plugin afterwards leaves it inactive and the rig and height exactly as they were
   * when the director was first found (or, if it was active, as captured at activation).
   */
  lemma {:induction false} RestoreAfterAnyRun(c: Config, frames: seq<Frame>)
    ensures !OnDisable(Run(c, frames)).director.active
    ensures OnDisable(Run(c, frames)).world == RestorePoint(c)
    decreases |frames|
  {
    if |frames| > 0 {
      UpdateKeepsRestorePoint(c, frames[0]);
      RestoreAfterAnyRun(Update(c, frames[0]).config, frames[1..]);
    }
  }

  /**
   * Capture and restore are inverse: after activation, whatever was written to the rig, the
   * height trim or the remembered step, a restore hands back the world as it was captured.
   */
  lemma RestoreUndoesCapture(c: Config, written: World, step: Option<StepId>)
    requires !c.director.active
    ensures Restore(Config(Capture(c).director.(currentStep := step), written))
         == Config(State(false, c.world, None), c.world)
  {
  }

  /**
   * A write by the host or the user (locomotion, a manual height trim) that lands while the
   * director is active; while it is inactive the director owns nothing and its restore
   * point is the world itself, so such writes are not part of a session.
   */
  function HostWrite(c: Config, written: World): (r: Config)
    ensures r.director == c.director
    ensures RestorePoint(r) == RestorePoint(c)
  {
    if c.director.active then c.(world := written) else c
  }

  /** Runs `Update` once per frame, the host writing `writes[k]` just before frame `k`. */
  function RunWithWrites(c: Config, frames: seq<Frame>, writes: seq<World>): Config
    requires |writes| == |frames|
    decreases |frames|
  {
    if |frames| == 0 then c
    else RunWithWrites(Update(HostWrite(c, writes[0]), frames[0]).config, frames[1..], writes[1..])
  }

  /**
   * The same as `RestoreAfterAnyRun` when the rig and height are also moved by others while
   * the director is active: disabling still hands back exactly the restore point found
   * before the first frame.
   */
  lemma {:induction false} RestoreAfterAnyRunWithWrites(c: Config, frames: seq<Frame>, writes: seq<World>)
    requires |writes| == |frames|
    ensures !OnDisable(RunWithWrites(c, frames, writes)).director.active
    ensures OnDisable(RunWithWrites(c, frames, writes)).world == RestorePoint(c)
    decreases |frames|
  {
    if |frames| > 0 {
      var written := HostWrite(c, writes[0]);
      UpdateKeepsRestorePoint(written, frames[0]);
      RestoreAfterAnyRunWithWrites(Update(written, frames[0]).config, frames[1..], writes[1..]);
    }
  }

  /** The snapshot is taken on the inactive-to-active edge and at no other time. */
  lemma SnapshotOnlyOnRisingEdge(c: Config, f: Frame)
    ensures Update(c, f).config.director.backup
         == (if !c.director.active && f.toggle == Some(true) then c.world else c.director.backup)
  {
  }

  /**
   * Switching the toggle off while active restores in that same frame, without an error,
   * and without looking at the steps or the possessor at all.
   */
  lemma ToggleOffRestoresAtOnce(c: Config, f: Frame, steps: Option<seq<Step>>, possessor: Option<Possessor>)
    requires c.director.active && f.toggle == Some(false)
    ensures Update(c, f) == Tick(Restore(c), None)
    ensures Update(c, f.(steps := steps, possessor := possessor)) == Update(c, f)
    ensures Update(c, f).config.world == c.director.backup
  {
  }

  /**
   * Edge-triggered placement: while active with the toggle on, a frame changes nothing at
   * all exactly when the first active step is the one already remembered.
   */
  lemma QuietIffSameTarget(c: Config, f: Frame)
    requires c.director.active && f.toggle == Some(true) && f.steps.Some?
    ensures Update(c, f) == Tick(c, None) <==> TargetId(f.steps.value) == c.director.currentStep
    ensures Update(c, f).config == c <==> TargetId(f.steps.value) == c.director.currentStep
  {
  }

  /** A frame that completed without error, repeated unchanged, writes nothing more. */
  lemma RepeatedFrameIsQuiet(c: Config, f: Frame)
    requires Update(c, f).fault.None?
    ensures Update(Update(c, f).config, f) == Tick(Update(c, f).config, None)
  {
  }

  /**
   * When a new step becomes current, including on the activation frame, the rig takes the rotation of the first active step in
   * list order (yaw-corrected unless the monitor is the view) and remembers that step.
   */
  lemma PlacementTargetsFirstActive(c: Config, f: Frame, i: nat)
    requires f.toggle == Some(true) && f.possessor.Some?
    requires f.steps.Some? && FirstActive(f.steps.value) == Some(i)
    requires c.director.currentStep != Some(f.steps.value[i].id)
    ensures i < |f.steps.value| && f.steps.value[i].active
    ensures forall j :: 0 <= j < i ==> !f.steps.value[j].active
    ensures Update(c, f).fault.None?
    ensures Update(c, f).config.director == State(true, RestorePoint(c), Some(f.steps.value[i].id))
    ensures f.monitorView ==> Update(c, f).config.world.rig.rotation == f.steps.value[i].rotation
    ensures !f.monitorView ==>
              Update(c, f).config.world.rig.rotation
              == YawCorrected(f.steps.value[i].rotation, c.world.rig.rotation, f.possessor.value.yaw)
  {
  }

  /**
   * Height decoupling, on the activation frame as on any later step change: a placement moves the rig by the snap-point-to-step offset minus its
   * vertical part, and adds exactly that vertical part to the player height trim; with a
   * unit `up` the rig's height along `up` is unchanged.
   */
  lemma PlacementMovesVerticalIntoHeight(c: Config, f: Frame, i: nat)
    requires f.toggle == Some(true) && f.possessor.Some?
    requires f.steps.Some? && FirstActive(f.steps.value) == Some(i)
    requires c.director.currentStep != Some(f.steps.value[i].id)
    ensures
      var w := Update(c, f).config.world;
      var up := f.upOf(w.rig.rotation);
      var offset := Sub(f.steps.value[i].position, f.possessor.value.snapPointOf(w.rig.rotation));
      && w.playerHeightAdjust == c.world.playerHeightAdjust + Dot(offset, up)
      && Add(w.rig.position, Scale(up, Dot(offset, up))) == Add(c.world.rig.position, offset)
      && (IsUnit(up) ==> Dot(w.rig.position, up) == Dot(c.world.rig.position, up))
  {
  }

  /** Every failure ends in a restore: the director is inactive and the world is the restore point. */
  lemma FaultEndsRestored(c: Config, f: Frame)
    ensures Update(c, f).fault.Some? ==> !Update(c, f).config.director.active
    ensures Update(c, f).fault.Some? ==> Update(c, f).config.world == RestorePoint(c)
  {
  }

  /**
   * The null-target failure happens exactly when the toggle is on, the pattern is there, no
   * step is active and a step is still remembered.
   */
  lemma NoActiveStepIff(c: Config, f: Frame)
    ensures Update(c, f).fault == Some(NoActiveStep)
        <==> f.toggle == Some(true) && f.steps.Some? && FirstActive(f.steps.value).None?
             && c.director.currentStep.Some?
  {
  }
}

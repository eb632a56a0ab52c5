# Director: camera-rig activation and restore, modelled in Dafny

Director is a Virt-A-Mate plugin that moves the VR navigation rig to the poses of an
animation pattern's steps. While its "Active" toggle is on, every frame it looks for the
first step whose `active` flag the timeline has set. When that step differs from the one it
placed last, it turns the rig to the step's rotation. It then shifts the rig by the offset
from the possessor's snap point (the tracked head) to the step, so the head, not the rig,
lands on the step. The part of that shift along the rig's `up` axis goes into the player
height trim instead of the rig position. When the toggle goes off,
an update throws, or the plugin is disabled, one `Restore` puts back the rig rotation,
position and player height captured at activation.

The model is a pure state machine. `Director.Update(config, frame)` takes the plugin's fields
and the part of the scene it writes (`Config`) and the host readouts of one frame (`Frame`).
It returns the new configuration and the error logged, if any (`Tick`). The try block is
`Director.Body`, which either completes or throws from a partial state (`Outcome`). `Update`
then runs `Restore` on the partial state, as the catch block does. The null dereferences that
reach that catch are explicit. The "Active" control, the animation pattern and the possessor
are `Option`s in the frame. A null target while a step is remembered is the `NoActiveStep` fault.

Files:
- `wrappers.dfy`: `Option`.
- `geometry.dfy`: `Vec3` over the reals, dot product.
- `host.dfy`: rig, world, steps, possessor, frame readouts; rotations are symbolic.
- `director.dfy`: the plugin's state, `Capture`, `Restore`, `OnDisable`, `FirstActive`,
  `Reposition`, and the per-frame `Update`.
- `director_facts.dfy`: properties across calls and frames, including `Run` over a frame sequence.

The central invariant is `RestorePoint`, the world a restore would write back right now. No
frame changes it (`DirectorFacts.UpdateKeepsRestorePoint`). Neither does a write to the rig
or the height by the host or the user while the director is active
(`DirectorFacts.HostWrite`), such as locomotion or the manual height trim. So after any run
of frames with such writes in between, disabling the plugin restores exactly the world found
at activation (`DirectorFacts.RestoreAfterAnyRunWithWrites`). `DirectorFacts.RestoreAfterAnyRun`
is the special case in which nobody else writes.

`Director.Body`, `Director.Follow`, `Director.Place`, `Director.AimedRotation` and
`Director.TargetId` are parts of `Director.Update`, and its row covers them. `Body` is the try block (src/Director.cs:47-92), `Follow` is the active
branch (src/Director.cs:66-91) `Place` is the placement (src/Director.cs:75-89), `AimedRotation` is the rotation written at
src/Director.cs:76-79, and `TargetId` is the identity that `FirstOrDefault` returns at
src/Director.cs:69 and that src/Director.cs:71 compares.

## Model

| member | source | states |
|---|---|---|
| `Director.InitialValid` | src/Director.cs:18-21 | the fields' defaults at creation describe an inactive director that remembers no step |
| `Director.Capture` | src/Director.cs:58-64 | taking the snapshot sets the latch and makes the backup the current world, without writing the world or touching the remembered step |
| `Director.Restore` | src/Director.cs:105-115 | inactive: nothing changes at all; active: rig rotation, position and player height become exactly the captured values, the latch clears and the remembered step is forgotten, the backup itself is kept |
| `Director.OnDisable` | src/Director.cs:100-103 | disabling always leaves the director inactive with the world at its restore point; from a valid state no step stays remembered |
| `Director.FirstActive` | src/Director.cs:69 | the target is the first step in list order with `active` set: every earlier step is inactive; no target exactly when no step is active |
| `Director.Reposition` | src/Director.cs:82-89 | the height trim grows by the component along `up` of the snap-point-to-step offset; rig position plus `up` times that lift is the position offset; with a unit `up` the rig's component along `up` is unchanged |
| `Director.Update` | src/Director.cs:45-98 | after any frame the director is active only if the toggle read on and no error was logged; a fault from a valid state leaves no step remembered; the backup is never overwritten while active; validity (no remembered step while inactive) is preserved |
| `DirectorFacts.UpdateKeepsRestorePoint` | src/Director.cs:45-115 | no frame, whatever its readouts or failures, changes the world a restore would write back |
| `DirectorFacts.RestoreAfterAnyRun` | src/Director.cs:100-115 | after any sequence of frames, disabling leaves the director inactive and the world equal to the restore point before the first frame |
| `DirectorFacts.HostWrite` | src/Director.cs:85 | a write by others to the rig or height while active leaves the director's state and its restore point unchanged |
| `DirectorFacts.RestoreAfterAnyRunWithWrites` | src/Director.cs:45-115 | after any sequence of frames, with any host writes to the rig and height while active, disabling leaves the director inactive and the world equal to the restore point before the first frame |
| `DirectorFacts.RestoreUndoesCapture` | src/Director.cs:58-64 | after activation, whatever rig, height or step writes happened, restore hands back exactly the captured world and an inactive director with no step |
| `DirectorFacts.SnapshotOnlyOnRisingEdge` | src/Director.cs:58-64 | the backup after a frame is the current world when the director was inactive and the toggle read on, and the old backup in every other case |
| `DirectorFacts.ToggleOffRestoresAtOnce` | src/Director.cs:49-53 | active with the toggle off: the frame is exactly a restore with no error, and its result does not depend on the steps or the possessor |
| `DirectorFacts.QuietIffSameTarget` | src/Director.cs:69-73 | active with the toggle on and a pattern present: the frame changes nothing, and logs nothing, if and only if the first active step is the remembered one |
| `DirectorFacts.RepeatedFrameIsQuiet` | src/Director.cs:45-98 | repeating a frame that logged no error changes nothing and logs nothing |
| `DirectorFacts.PlacementTargetsFirstActive` | src/Director.cs:58-79 | on a step change, the activation frame included, the director ends active with the backup at the prior restore point, the remembered step becomes the first active one, and the rig takes that step's rotation, yaw-corrected against the possessor unless the monitor is the view |
| `DirectorFacts.PlacementMovesVerticalIntoHeight` | src/Director.cs:58-89 | on a step change, the activation frame included, the height trim grows by the offset's component along the new `up`; the rig moves by the offset less that component; with a unit `up` its height along `up` is unchanged |
| `DirectorFacts.FaultEndsRestored` | src/Director.cs:93-97 | every logged failure leaves the director inactive and the world at the restore point it had before the frame |
| `DirectorFacts.NoActiveStepIff` | src/Director.cs:71-76 | the null-target failure happens exactly when the toggle is on, the pattern exists, no step is active and a step is still remembered |

## Left out

- `Init` and `InitControls`: component lookups, control registration and log text are host plumbing. Their results appear only as the `Option` readouts in `Frame`.
- `DirectorStep.cs`: a chooser of atom ids with "None" prepended, which the director never reads.
- The yaw correction is not computed. The rotation `target.rotation * Quaternion.Euler(0, rig yaw - possessor yaw, 0)` is the unevaluated value `YawCorrected(base, rigRotation, headYaw)`.
- `navigationRig.up` and the possessor's auto-snap point are host functions of the rotation just written. Unity's transform hierarchy that determines them is not modelled.
- Vector arithmetic is exact over `real`. Single-precision rounding is not modelled, so the `up`-component identity is a statement about the reals.
- Director.Reposition: the unchanged height along `up` is stated only for a unit `up`. The host's `up` is unit only up to float rounding.
- Step destruction is not modelled. Steps are compared with UnityEngine.Object's `!=`, which treats a destroyed object as equal to null. If the remembered step is destroyed and no step is active, src/Director.cs:71 sees no change and the source stays quiet with the rig placed. In that case the model raises the `NoActiveStep` fault and restores instead.
- DirectorFacts.NoActiveStepIff: holds only while the remembered step is alive. With a destroyed remembered step, the source raises no fault.
- Null entries inside the steps array and a null `MonitorRig` are not modelled. Their dereferences would reach the same catch.
- A null `SuperController.singleton` is not modelled. In the source, when the director is active, the catch's `Restore` would throw again at src/Director.cs:111, after src/Director.cs:110 had already cleared `_currentStep`. `_active` would stay true, the rig would not be restored, and the exception would escape `Update`.
- When the director is inactive and `SuperController.singleton` is null, the catch's `Restore` returns at src/Director.cs:107-108. Nothing escapes and only the log entry remains.
- Host writes while the director is inactive are not part of `RunWithWrites`. While inactive, the restore point is the world itself, so such a write simply becomes the new starting world.
- The message text of `SuperController.LogError` is not modelled. The log is the `fault` of a `Tick`.
- Secondary-camera mode, passenger delegation, transitions and timeline transport are not modelled. `Director.cs` has none of them.
- A missing entity is not reported once per episode, because `Director.cs` has no such latch. A persistent null reference logs an error on every frame that reaches the dereference. With the toggle off, or with the first active step unchanged, it logs nothing.
- The toggle's value changes whenever the user flips it, and a frame reads it afresh. In the plugin, `Init` fixes only whether the toggle, the pattern and the possessor exist (src/Director.cs:27-28 and :40). The model lets their presence vary between frames too, and the properties hold either way.

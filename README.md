# FRC 2881 (2023) robot: arm interlock, arm motions, autonomous routines and operator wiring

This project models the decision logic and the fixed command compositions of
team 2881's 2023 competition robot, and proves properties of them. The model
covers:

- **The arm interlock** of the single-class `Arm` subsystem. Extending is
  allowed unless the arm is tilted below the minimum safe tilt. Tilting is
  allowed above that tilt, or at any tilt while the arm is retracted to zero or
  less. `ArmInterlock` holds the two conditions as pure functions.
  `ArmSubsystem.Arm` holds the arm's motor commands, encoder readings and
  soft-limit state. Each of its two safety queries caches its answer in a field.
- **The tilt joint** of the two-joint arm (`ArmTiltSubsystem.ArmTilt`). Its
  state is the command in effect on the motor (an open-loop output or a
  closed-loop target, `Types.MotorCommand`), the output range scaled by the
  requested speed, the soft-limit flags and the encoder reading. An open-loop
  call replaces a closed-loop target and the other way round, as one motor
  controller does.
- **The composed arm motions** (`MoveToMedium`, `MoveToPickup`, `MoveToHigh`,
  `ScoreMedium`, `ScoreHigh`), **the autonomous routines** (`AutoScoreHigh`,
  `SimpleAuto`, `AutoSequenceA`, `AutoMove`) and **`RumbleControllers`**. Each
  is a tree of `Steps.Step` values that records every leaf command with its
  literal speed, target and timeout.
  - `Steps.Flatten` gives the order in which a sequential group activates its
    leaves.
  - `Steps.TimeoutBound` gives the time bound that its timeouts and waits
    guarantee.
  - `Steps.Uses` gives the subsystems its leaves receive.
  - `Timing` runs the leaves one at a time in continuous time. The next leaf
    starts when the active one finishes by itself or its timeout fires.
- **Two command lifecycles**: `ZeroHeading`, which zeroes the heading once and
  is finished at once, and `RunRollersInward`, which runs the rollers inward
  until it is ended and then stops them.
- **The operator wiring** of `RobotContainer`:
  - every trigger binding, with its condition over the controller readings,
    its activation kind and its command;
  - the rumble started on each edge of "teleop and minimum vacuum";
  - the autonomous chooser, built by successive inserts, and the lookup of
    the selected routine.

The configuration constants are not part of this model, so they are
parameters: the minimum safe tilt, the tilt timeout, the tilt output range and
the soft-limit bounds. Positions, speeds and controller readings are `real`.

## Model

| member | source | states |
|---|---|---|
| ArmInterlock.ExtendSafe | src/main/java/frc/robot/subsystems/Arm.java:146-156 | extending is safe exactly when the tilt is at or above the minimum safe tilt, so it is unsafe exactly when the tilt is below it |
| ArmInterlock.TiltSafe | src/main/java/frc/robot/subsystems/Arm.java:158-172 | tilting is safe whenever the tilt is above the minimum, whatever the extension; it is unsafe exactly when the tilt is at or below the minimum and the extension is positive, so an extension of exactly 0 is safe |
| ArmInterlock.BoundaryAsymmetry | src/main/java/frc/robot/subsystems/Arm.java:149-162 | at exactly the minimum safe tilt with the arm out, extending is safe and tilting is not |
| ArmInterlock.BothBlocked | src/main/java/frc/robot/subsystems/Arm.java:146-172 | both checks refuse exactly when the tilt is below the minimum and the extension is positive |
| ArmInterlock.RetractedTiltsFreely | src/main/java/frc/robot/subsystems/Arm.java:165-168 | with the extension at or below 0, tilting is safe at every tilt |
| ArmSubsystem.Arm.constructor | src/main/java/frc/robot/subsystems/Arm.java:30-68 | all four soft limits are enabled at their configured bounds; both motors start at output 0 open loop; the cached interlock answers start false |
| ArmSubsystem.Arm.RunExtension | src/main/java/frc/robot/subsystems/Arm.java:81-83 | the extension motor runs open loop at the speed, replacing any position target; nothing else changes |
| ArmSubsystem.Arm.RunTilt | src/main/java/frc/robot/subsystems/Arm.java:89-91 | the tilt motor runs open loop at the speed, replacing any position target; nothing else changes |
| ArmSubsystem.Arm.SetDesiredExtensionPosition | src/main/java/frc/robot/subsystems/Arm.java:97-99 | the extension motor holds the position closed loop, replacing any open-loop output; nothing else changes |
| ArmSubsystem.Arm.SetDesiredTiltPosition | src/main/java/frc/robot/subsystems/Arm.java:104-106 | the tilt motor holds the position closed loop, replacing any open-loop output; nothing else changes |
| ArmSubsystem.Arm.GetExtensionEncoderPosition | src/main/java/frc/robot/subsystems/Arm.java:109-111 | returns the extension reading and changes nothing |
| ArmSubsystem.Arm.GetTiltEncoderPosition | src/main/java/frc/robot/subsystems/Arm.java:114-116 | returns the tilt reading and changes nothing |
| ArmSubsystem.Arm.ResetTiltEncoder | src/main/java/frc/robot/subsystems/Arm.java:118-120 | the tilt reading becomes -0.1 and nothing else changes |
| ArmSubsystem.Arm.ResetExtensionEncoder | src/main/java/frc/robot/subsystems/Arm.java:122-124 | the extension reading becomes -0.1, after which tilting is safe at every tilt; nothing else changes |
| ArmSubsystem.Arm.EnableTiltSoftLimits | src/main/java/frc/robot/subsystems/Arm.java:126-134 | both tilt soft limits take the given value; the extension limits and everything else are untouched |
| ArmSubsystem.Arm.EnableExtendSoftLimits | src/main/java/frc/robot/subsystems/Arm.java:136-144 | both extension soft limits take the given value; the tilt limits and everything else are untouched |
| ArmSubsystem.Arm.IsSafeToExtend | src/main/java/frc/robot/subsystems/Arm.java:146-156 | the answer is stored in the extend cache and returned from it; it is true exactly when the tilt is at or above the minimum; nothing else changes |
| ArmSubsystem.Arm.IsSafeToTilt | src/main/java/frc/robot/subsystems/Arm.java:158-172 | the answer is stored in the tilt cache and returned from it; it is false exactly when the tilt is at or below the minimum and the extension is positive; nothing else changes |
| ArmTiltSubsystem.ScaledRange | src/main/java/frc/robot/subsystems/ArmTilt.java:65-71 | at speed 1.0 the range is the configured range; at speed 0 it is empty at zero; a non-negative speed keeps the bounds in order |
| ArmTiltSubsystem.ScaledRangeWithin | src/main/java/frc/robot/subsystems/ArmTilt.java:66-69 | for a speed between 0 and 1, the scaled range of a range around zero stays around zero and inside the configured range |
| ArmTiltSubsystem.ArmTilt.constructor | src/main/java/frc/robot/subsystems/ArmTilt.java:25-47 | both soft limits are enabled at the configured bounds, the output range is the configured one, and the motor starts at output 0 open loop |
| ArmTiltSubsystem.ArmTilt.Run | src/main/java/frc/robot/subsystems/ArmTilt.java:58-60 | the motor runs open loop at the speed, replacing any position target; nothing else changes |
| ArmTiltSubsystem.ArmTilt.SetDesiredPosition | src/main/java/frc/robot/subsystems/ArmTilt.java:65-71 | the output range becomes the configured range times the speed, which is the configured range itself at speed 1.0, and the motor holds the position closed loop, replacing any open-loop output; the encoder reading and the soft limits are untouched |
| ArmTiltSubsystem.ArmTilt.GetEncoderPosition | src/main/java/frc/robot/subsystems/ArmTilt.java:75-77 | returns the encoder reading and changes nothing |
| ArmTiltSubsystem.ArmTilt.ResetEncoder | src/main/java/frc/robot/subsystems/ArmTilt.java:79-81 | the reading becomes 0 and nothing else changes |
| ArmTiltSubsystem.ArmTilt.EnableSoftLimits | src/main/java/frc/robot/subsystems/ArmTilt.java:84-92 | both soft limits take the given value; asking for the state they are already in changes nothing, so a second call is a no-op |
| ArmTiltSubsystem.ArmTilt.Reset | src/main/java/frc/robot/subsystems/ArmTilt.java:112-114 | the motor is stopped open loop at output 0, whatever position target it was holding; nothing else changes |
| Steps.Flatten | src/main/java/frc/robot/commands/arm/Score/ScoreMedium.java:24-28 | definition, no ensures: the running order of a sequential group, each step replaced by its leaves; FlattenIsFlat, FlattenOfFlat and FlattenAppend state its properties |
| Steps.Leaves | src/main/java/frc/robot/commands/arm/Score/ScoreMedium.java:24-28 | definition, no ensures: a nested group contributes its flattened children and any other command itself; LeavesAreFlat states its property |
| Steps.FlattenIsFlat | src/main/java/frc/robot/commands/arm/Score/ScoreMedium.java:24-28 | the running order contains no nested sequential group |
| Steps.LeavesAreFlat | src/main/java/frc/robot/commands/arm/Score/ScoreMedium.java:24-28 | the leaves of any command contain no nested sequential group |
| Steps.FlattenOfFlat | src/main/java/frc/robot/commands/arm/MoveTo/MoveToMedium.java:22-29 | a sequence with no nested group runs as written |
| Steps.FlattenAppend | src/main/java/frc/robot/commands/auto/AutoSequenceA.java:30-37 | the running order of two sequences one after the other is the first's followed by the second's |
| Steps.FlattenAround | src/main/java/frc/robot/commands/auto/AutoScoreHigh.java:29-31 | a group nested between two flat stretches runs its leaves in its place |
| Steps.TimeoutBound | src/main/java/frc/robot/commands/arm/MoveTo/MoveToMedium.java:23-28 | definition, no ensures: the sum of the timeouts and fixed waits, None once a step has no bound; TimeoutBoundFlatten and Timing.ElapsedWithinBound state its properties |
| Steps.StepUses | src/main/java/frc/robot/commands/auto/AutoSequenceA.java:30-37 | definition, no ensures: the subsystems a leaf's constructor receives, and for a group those of its steps; a group's own declared requirements are not included; UsesAt and UsesFlatten state its properties |
| Steps.Uses | src/main/java/frc/robot/commands/auto/AutoSequenceA.java:30-37 | definition, no ensures: the union of the steps' subsystems; UsesAt and UsesFlatten state its properties |
| Steps.TimeoutBoundFlatten | src/main/java/frc/robot/commands/arm/Score/ScoreMedium.java:24-28 | inlining nested groups does not change the time bound |
| Steps.UsesAt | src/main/java/frc/robot/commands/auto/AutoSequenceA.java:30-37 | a sequence uses a subsystem exactly when one of its steps does |
| Steps.UsesFlatten | src/main/java/frc/robot/commands/auto/AutoSequenceA.java:30-37 | inlining nested groups does not change the subsystems used |
| Timing.StepDuration | src/main/java/frc/robot/commands/arm/MoveTo/MoveToMedium.java:23-28 | a step with a timeout or a fixed wait always ends, and no later than its own bound; only a step without a bound can run forever |
| Timing.Elapsed | src/main/java/frc/robot/commands/auto/AutoScoreHigh.java:24-34 | definition, no ensures: the sum of the leaves' durations, None once a leaf never finishes; ElapsedWithinBound and FinishedExactly state its properties |
| Timing.ActiveAt | src/main/java/frc/robot/commands/auto/AutoScoreHigh.java:24-34 | the index returned is that of a leaf of the run; ActiveExactly and FinishedExactly state which leaf it is |
| Timing.ElapsedWithinBound | src/main/java/frc/robot/commands/arm/MoveTo/MoveToMedium.java:22-29 | whatever the joints do, a run whose steps are all bounded ends within the sum of the bounds |
| Timing.ActiveExactly | src/main/java/frc/robot/commands/auto/AutoScoreHigh.java:24-34 | from the moment the leaves before it are done, leaf i is active exactly until its own duration has passed, and forever if it never finishes |
| Timing.NotBeforeStart | src/main/java/frc/robot/commands/auto/AutoScoreHigh.java:24-34 | at no time from the run's start until the leaves before it are done is leaf i active |
| Timing.ActiveInterval | src/main/java/frc/robot/commands/auto/AutoScoreHigh.java:24-34 | if and only if, at every time from the run's start: leaf i is active exactly when the leaves before it are done and its own duration has not yet passed (or it never finishes) |
| Timing.FinishedExactly | src/main/java/frc/robot/commands/auto/AutoScoreHigh.java:24-34 | a run is over exactly when its total time has passed |
| Motions.MoveToMedium | src/main/java/frc/robot/commands/arm/MoveTo/MoveToMedium.java:22-29 | three steps: a retract, a tilt, then an extension beyond the retract, all at the caller's speed |
| Motions.MoveToMediumSteps | src/main/java/frc/robot/commands/arm/MoveTo/MoveToMedium.java:23-28 | the steps, in order, are extend to 0.0 within 1.0 s, tilt to 15.0 within 1.5 s, and extend to 12.0 within 1.0 s |
| Motions.MoveToMediumBound | src/main/java/frc/robot/commands/arm/MoveTo/MoveToMedium.java:24-28 | the timeouts add up to 3.5 s |
| Motions.MoveToMediumEndsInTime | src/main/java/frc/robot/commands/arm/MoveTo/MoveToMedium.java:22-29 | whatever the joints do, the motion is over within 3.5 s |
| Motions.MoveToPickup | src/main/java/frc/robot/commands/arm/MoveTo/MoveToPickup.java:24-28 | two steps: a tilt to 12.6 bounded by the tilt timeout, at the caller's speed, then suction on; suction comes only second, and no step extends the arm |
| Motions.MoveToHigh | src/main/java/frc/robot/commands/arm/MoveTo/MoveToHigh.java:17-19 | two steps, a tilt strictly before an extension, neither timed, both at the caller's speed |
| Motions.MoveToHighSteps | src/main/java/frc/robot/commands/arm/MoveTo/MoveToHigh.java:18-19 | the steps are tilt to 16.5, then extend to 27.5 |
| Motions.ScoreMedium | src/main/java/frc/robot/commands/arm/Score/ScoreMedium.java:24-28 | MoveToMedium at the caller's speed, then a tilt to 11.5 at half that speed bounded by the tilt timeout |
| Motions.ScoreMediumSteps | src/main/java/frc/robot/commands/arm/Score/ScoreMedium.java:24-28 | flattened it has four steps, the release tilt's target is below MoveToMedium's tilt, it never uses the suction, and its bound is 3.5 s plus the tilt timeout |
| Motions.ScoreHigh | src/main/java/frc/robot/commands/arm/Score/ScoreHigh.java:19-20 | MoveToHigh, then an untimed tilt to 14.5 at the unhalved speed |
| Motions.ScoreHighSteps | src/main/java/frc/robot/commands/arm/Score/ScoreHigh.java:19-20 | flattened, the steps are tilt 16.5, extend 27.5 and tilt 14.5, all at the caller's speed, and none uses the suction |
| Autos.ScoreHighAutoSteps | src/main/java/frc/robot/commands/auto/AutoScoreHigh.java:24-34 | nine steps: suction on, the tilt to 0.67, the extension to 5.1, the seal wait, the retract, ScoreHigh(0.15), the 0.5 s wait, suction off and ResetArm(0.15); suction is enabled only first and disabled only eighth, after ScoreHigh and the 0.5 s wait; the seal wait sits between the extension to 5.1 and the retract; no joint step is timed; every arm step runs at 0.15 |
| Autos.AutoScoreHigh | src/main/java/frc/robot/commands/auto/AutoScoreHigh.java:23-34 | a sequential group of exactly those nine steps with no extra requirements |
| Autos.ScoreHighAutoLeaves | src/main/java/frc/robot/commands/auto/AutoScoreHigh.java:24-34 | definition, no ensures: the eleven leaves in running order, written out once |
| Autos.AutoScoreHighLeaves | src/main/java/frc/robot/commands/auto/AutoScoreHigh.java:24-34 | the eleven leaves in running order, with ScoreHigh's three moves inlined after the retract; proved through AutoScoreHighAround (ScoreHigh's leaves between ScoreHighAutoFront and ScoreHighAutoBack) and SpliceLiteral |
| Autos.AutoScoreHighWaitsForSeal | src/main/java/frc/robot/commands/auto/AutoScoreHigh.java:25-28 | whatever non-negative times the joints take, if the seal never forms, the routine is at the seal wait at every moment after the three steps before it are done (AutoScoreHighDurations and ScoringDurations supply the non-negative durations) |
| Autos.StuckAtSeal | src/main/java/frc/robot/commands/auto/AutoScoreHigh.java:25-28 | after suction on, an untimed tilt and an untimed extension, a run stays at a seal wait that never ends |
| Autos.SimpleAuto | src/main/java/frc/robot/commands/auto/SimpleAuto.java:27-38 | the same nine steps as AutoScoreHigh; the group declares the suction and the arm; the 0.5 s wait, the suction off and the arm reset come in that order; every arm step runs at 0.15 |
| Autos.AutoSequenceA | src/main/java/frc/robot/commands/auto/AutoSequenceA.java:30-37 | three steps: AutoScoreHigh, then the arm reset at 1.0 in parallel with the first trajectory, which resets the pose, then the second trajectory, which does not |
| Autos.AutoSequenceAOrder | src/main/java/frc/robot/commands/auto/AutoSequenceA.java:30-37 | the scoring leaves run first and none of them uses the drivetrain; the parallel step after them does |
| Autos.AutoScoreHighOffDrive | src/main/java/frc/robot/commands/auto/AutoScoreHigh.java:24-34 | no scoring leaf uses the drivetrain, and the last one resets the arm at 0.15 |
| Autos.ResetWhileDriving | src/main/java/frc/robot/commands/auto/AutoSequenceA.java:32-35 | the parallel step hands over both arm joints and the drivetrain |
| Autos.OffTheDrive | src/main/java/frc/robot/commands/auto/AutoSequenceA.java:31-35 | a sequence with no trajectory, heading or composite step does not use the drivetrain |
| Autos.AutoMove | src/main/java/frc/robot/commands/auto/AutoMove.java:19-22 | two steps: the trajectory with a pose reset, then the heading zeroed |
| Autos.AutoMoveUsesDrive | src/main/java/frc/robot/commands/auto/AutoMove.java:16-22 | both steps act on the drivetrain only |
| Rumble.RumbleControllers | src/main/java/frc/robot/commands/controllers/RumbleControllers.java:16-31 | three flat steps: rumble at 1.0, wait 1 s, rumble at 0.0; the group declares no requirements |
| Rumble.Perform | src/main/java/frc/robot/commands/controllers/RumbleControllers.java:21-29 | a rumble step gives the driver and the manipulator the same value; no other step touches them |
| Rumble.PerformAll | src/main/java/frc/robot/commands/controllers/RumbleControllers.java:20-30 | definition, no ensures: the steps applied to the controllers one after the other; LastRumbleWins, NoRumble and RumblesAgree state its properties |
| Rumble.LastRumbleWins | src/main/java/frc/robot/commands/controllers/RumbleControllers.java:20-30 | after a run, both controllers carry the value of the last rumble step |
| Rumble.RumbleEndsOff | src/main/java/frc/robot/commands/controllers/RumbleControllers.java:20-30 | from any state, both rumbles are 1 during the wait and 0 when the routine is over |
| Rumble.RumblesAgree | src/main/java/frc/robot/commands/controllers/RumbleControllers.java:21-29 | a run started with equal rumbles never leaves them different |
| Rumble.RumbleTakesOneSecond | src/main/java/frc/robot/commands/controllers/RumbleControllers.java:20-30 | the routine uses no subsystem and takes exactly 1 s |
| ZeroHeadingCommand.ZeroHeading.constructor | src/main/java/frc/robot/commands/drive/ZeroHeading.java:15-18 | the command requires the drivetrain |
| ZeroHeadingCommand.ZeroHeading.Initialize | src/main/java/frc/robot/commands/drive/ZeroHeading.java:21-24 | the heading is zeroed exactly once |
| ZeroHeadingCommand.ZeroHeading.Execute | src/main/java/frc/robot/commands/drive/ZeroHeading.java:27-28 | nothing changes |
| ZeroHeadingCommand.ZeroHeading.End | src/main/java/frc/robot/commands/drive/ZeroHeading.java:31-32 | nothing changes, whether interrupted or not |
| ZeroHeadingCommand.ZeroHeading.IsFinished | src/main/java/frc/robot/commands/drive/ZeroHeading.java:35-38 | always finished |
| RunRollersInwardCommand.RunRollersInward.constructor | src/main/java/frc/robot/commands/intake/RunRollersInward.java:15-18 | the command requires the intake |
| RunRollersInwardCommand.RunRollersInward.Initialize | src/main/java/frc/robot/commands/intake/RunRollersInward.java:20-23 | the rollers run inward |
| RunRollersInwardCommand.RunRollersInward.Execute | src/main/java/frc/robot/commands/intake/RunRollersInward.java:25-26 | nothing changes |
| RunRollersInwardCommand.RunRollersInward.End | src/main/java/frc/robot/commands/intake/RunRollersInward.java:28-31 | the rollers stop, for both values of interrupted |
| RunRollersInwardCommand.RunRollersInward.IsFinished | src/main/java/frc/robot/commands/intake/RunRollersInward.java:33-36 | never finishes by itself |
| Container.Condition | src/main/java/frc/robot/RobotContainer.java:94-182 | definition, no ensures: the condition each trigger registration watches; AxisBindings, DriverBindings, PresetBindings, ScoreBindings and VacuumRumbles state it binding by binding |
| Container.ActivationOf | src/main/java/frc/robot/RobotContainer.java:94-182 | definition, no ensures: whether each registration is while-held, on press or on release; stated per binding by the same lemmas |
| Container.CommandOf | src/main/java/frc/robot/RobotContainer.java:94-182 | definition, no ensures: the command each registration schedules; stated per binding by the same lemmas |
| Container.PresetAt | src/main/java/frc/robot/RobotContainer.java:157-167 | definition, no ensures: the preset each D-pad angle selects, none for other angles; PresetBindings ties it to the bindings |
| Container.AbsAbove | src/main/java/frc/robot/RobotContainer.java:143-147 | an axis is past a threshold exactly when it is strictly above it or strictly below its negation |
| Container.AxisBindings | src/main/java/frc/robot/RobotContainer.java:143-147 | each arm stick binding is active exactly when its axis is strictly past 0.1 either way (not at exactly 0.1); robot-centric driving (lines 97-98) is on exactly when the right trigger is strictly past 0.9 |
| Container.DriverBindings | src/main/java/frc/robot/RobotContainer.java:100-116 | the bumpers attach the clamps and D-pad 90/270 release them, right and left, each while held; back zeroes the heading and start resets the swerve modules, on press |
| Container.PresetBindings | src/main/java/frc/robot/RobotContainer.java:157-167 | each D-pad preset binding is while-held and active exactly when the angle selects its preset: 0 high, 90 medium, 180 low, 270 pickup, all at 1.0 |
| Container.OnePresetAtATime | src/main/java/frc/robot/RobotContainer.java:157-167 | no two preset bindings are active at once |
| Container.ScoreBindings | src/main/java/frc/robot/RobotContainer.java:170-176 | D-pad 0 with Y scores high and 90 with Y scores medium, while held; the score condition holds exactly when the same angle's preset condition holds and Y is pressed, so with Y both bindings' conditions hold; which command then runs is decided by requirement arbitration, which is not modelled |
| Container.Edge | src/main/java/frc/robot/RobotContainer.java:179-181 | the rumble is good exactly on a rising edge of teleop and minimum vacuum, and bad exactly on a falling edge |
| Container.Fires | src/main/java/frc/robot/RobotContainer.java:94-182 | definition, no ensures: a while-held binding and an on-press binding schedule on a rising edge only, an on-release binding on a falling edge only; WhileHeldOncePerPress, WhileHeldBalanced and VacuumRumbles state its properties |
| Container.Cancels | src/main/java/frc/robot/RobotContainer.java:98-176 | definition, no ensures: only a while-held binding cancels, on a falling edge; WhileHeldOncePerPress and WhileHeldBalanced state its properties |
| Container.WhileHeldOncePerPress | src/main/java/frc/robot/RobotContainer.java:98-176 | a while-held binding schedules exactly on a rising edge of its condition, never again while it stays true, and cancels exactly on a falling edge |
| Container.Starts | src/main/java/frc/robot/RobotContainer.java:94-182 | definition, no ensures: how often a binding schedules along a run of samples; WhileHeldBalanced states its property |
| Container.Cancellations | src/main/java/frc/robot/RobotContainer.java:98-176 | definition, no ensures: how often a binding cancels along a run of samples; WhileHeldBalanced states its property |
| Container.WhileHeldBalanced | src/main/java/frc/robot/RobotContainer.java:98-176 | along any run, a while-held binding's schedules and cancellations pair up: starts plus 1 if the condition held first equals cancellations plus 1 if it holds last |
| Container.VacuumRumbles | src/main/java/frc/robot/RobotContainer.java:179-181 | both vacuum bindings watch teleop and minimum vacuum; the gained binding fires exactly when Edge gives a good rumble and the lost binding exactly when it gives a bad one, each scheduling RumbleControllers with its own pattern |
| Container.RumblesAlternate | src/main/java/frc/robot/RobotContainer.java:179-181 | along any run of samples, good and bad rumbles alternate; the first one says which way the condition first changed; the last one matches the final value; there are none exactly when the condition never changes (the rumbles along a run are RumbleEdges, one Edge per pair of consecutive samples) |
| Container.Options | src/main/java/frc/robot/RobotContainer.java:195-225 | eleven options in the order they are added, the first being the default "None" with no routine |
| Container.Build | src/main/java/frc/robot/RobotContainer.java:195-225 | definition, no ensures: the table after inserting the options one by one; BuildNames and BuildLookup state its properties |
| Container.Chooser | src/main/java/frc/robot/RobotContainer.java:184-228 | definition, no ensures: the table built from the eleven options; ChooserTable states its entries |
| Container.BuildNames | src/main/java/frc/robot/RobotContainer.java:195-225 | the chooser holds exactly the names added |
| Container.BuildLookup | src/main/java/frc/robot/RobotContainer.java:195-225 | a name that is not added again later maps to what it was added with |
| Container.NamesDistinct | src/main/java/frc/robot/RobotContainer.java:195-225 | the eleven option names are all different |
| Container.GetAutonomousCommand | src/main/java/frc/robot/RobotContainer.java:230-232 | whatever is selected, the routine returned is one of the chooser's options |
| Container.ChooserTable | src/main/java/frc/robot/RobotContainer.java:195-232 | every option is returned under its own name; no selection, like the default "None", runs nothing |
| Container.ChooserExamples | src/main/java/frc/robot/RobotContainer.java:200-225 | "Wall Score Balance" gives AutoScoreBalance(wall balance, balance), "Middle Balance" gives AutoBalance(middle balance, balance mid), and "Wall Move" gives AutoMove on the "Move Wall" path at 1.5/1.5 |

## Left out

- Motor and controller configuration is not modelled: CAN ids, idle mode, current limits, PID gains and conversion factors. These are calls into vendor libraries.
- Telemetry is not modelled: `periodic`, `updateTelemetry`, `initSendable`, and publishing to the dashboard. It is output only.
- The scheduler, the command-group internals, `withTimeout` and the polling of `Trigger` are library code and are not modelled; `Fires` and `Cancels` state when each kind of binding schedules and cancels between two samples. A sequential group is modelled by the order of its leaves, and a timeout only bounds its step's duration. Requirement conflicts and interruption are not modelled.
- Timing.StepDuration: time is continuous and an instant step takes no time. The 20 ms control cycle is not modelled, and a parallel group is given no time bound.
- These leaf commands are opaque descriptors that carry only their constructor arguments: `TiltArmToHeight`, `ExtendArmToLength`, `ResetArm`, `EnableSuction`, `DisableSuction`, `FollowTrajectory`, `MoveToLow`, and the opaque chooser routines (`AutoScore`, `AutoBalance`, `AutoMiddleScoreMove`, `AutoScoreBalance`, `AutoScoreMove`). Their sources are not part of this model. In particular, the model does not claim that any of them consults the interlock.
- Trajectory loading is not modelled. A trajectory is a token holding its file name and its velocity and acceleration limits.
- The configuration constants are parameters: the minimum safe tilt, the tilt timeout, the tilt output range and the soft-limit bounds. Their values are not part of this model.
- The encoders are inputs. The constructors take the power-up readings, and the joints' physical motion between calls is not modelled. The constructors start each motor at output 0 open loop; that is a motor controller's power-up state.
- Drive.java, Intake.java and the controllers are not part of this model. `DriveTrain` keeps only a count of heading zeroings, `IntakeRollers` only the roller state, and `Rumble.Rumbles` only the last rumble value of each controller.
- The interlock variant commented out in ArmTilt.java (lines 95-110) is dead code and is not modelled. Neither is `LetArmOut`, which has no behaviour.
- Steps.StepUses: the subsystems a leaf receives are those of the two-joint API. `MoveToHigh`, `ScoreHigh` and `SimpleAuto` are still written against the older `Arm`/`Intake` constructors, which `RobotContainer` no longer calls. The model does not reconcile the two; `SimpleAuto`'s own declared requirements, the suction and the arm, are kept as written.
- Container.CommandOf: the rumble bindings pass a `RumblePattern` (GOOD or BAD) that the `RumbleControllers` constructor in this source does not accept. The model records the pattern beside the routine. Both patterns run the same three steps.
- Container.GetAutonomousCommand: the selection is a parameter, because the dashboard is I/O. An absent selection falls back to the default name, and a name without an entry yields no routine, as for the default's null.
- ArmSubsystem.Arm.constructor, ArmTiltSubsystem.ArmTilt.constructor: the source casts each soft-limit bound to a 32-bit float before handing it to the motor controller. The model stores the bound unrounded.
- Container.Condition: the triggers read controller buttons, axes, the D-pad angle, the match mode and the vacuum sensor, and all of these are inputs. The driver's default drive command and its deadband are not modelled.

## Notes on the source

- Both `isSafeToExtend` and `isSafeToTilt` store their answer in a field before returning it. The model keeps the two fields and states that each query returns the stored answer.
- The encoder reset values differ between the two arm classes. `Arm` resets both of its encoders to -0.1. `ArmTilt` resets its encoder to 0. Each class is modelled with its own value.
- `ArmInterlock.BothBlocked` shows a state where both checks refuse: the arm extended while tilted below the minimum safe tilt. Whether that state can arise depends on the leaf commands, which are not part of this model.

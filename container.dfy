/** The operator wiring of the robot: which controller inputs start which
    commands during teleop, the rumble on gaining or losing the vacuum, and
    the table from autonomous names to routines. */
module Container {
  import opened Types
  import opened Steps
  import opened Motions
  import opened Autos
  import opened Rumble

  /** One reading of an Xbox controller.  `pov` is the D-pad angle in
      degrees, -1 while it is released. */
  datatype Controller = Controller(
    leftY: real, rightY: real, rightTrigger: real,
    a: bool, b: bool, x: bool, y: bool,
    back: bool, start: bool, leftBumper: bool, rightBumper: bool,
    pov: int)

  /** Everything a trigger condition reads. */
  datatype Inputs = Inputs(driver: Controller, manipulator: Controller, teleop: bool, minVacuum: bool)

  datatype LightPattern = Heart | Blank | Cube | Cone   // Blank is the lights' "None" pattern
  datatype RumblePattern = Good | Bad

  /** The commands the bindings start.  The arm presets and the rumble are
      the routines of this model; the others are opaque. */
  datatype Command =
    | Routine(step: Step)
    | DriveRobotCentric
    | ResetSwerve
    | AttachRight | ReleaseRight | AttachLeft | ReleaseLeft
    | ToggleSuction
    | SetLights(pattern: LightPattern)
    | ExtendArm | TiltArm
    | ArmExtendOverride | ArmTiltOverride
    | MoveToLow(speed: real)
    | RumbleWith(rumble: RumblePattern, routine: Step)   // the pattern is passed but the routine takes none

  /** When a binding schedules its command. */
  datatype Activation = WhileTrue | OnTrue | OnFalse

  /** One trigger binding per registration in the controller setup, in
      registration order; the vacuum trigger has a rising and a falling
      binding. */
  datatype Binding =
    | DriverRightTrigger | DriverBack | DriverStart
    | DriverRightBumper | DriverPovRight | DriverLeftBumper | DriverPovLeft
    | ManipulatorA | ManipulatorX | ManipulatorB | ManipulatorLeftBumper | ManipulatorRightBumper
    | ManipulatorLeftStick | ManipulatorRightStick | ManipulatorBack | ManipulatorStart
    | PovUp | PovRight | PovDown | PovLeft
    | PovUpWithY | PovRightWithY
    | VacuumGained | VacuumLost

  function Abs(x: real): real { if x < 0.0 then -x else x }

  /** An axis is past a threshold when its magnitude strictly exceeds it. */
  function AbsAbove(x: real, threshold: real): (r: bool)
    ensures r <==> x > threshold || x < -threshold
  {
    Abs(x) > threshold
  }

  /** The condition each binding watches. */
  function Condition(b: Binding, i: Inputs): bool
  {
    match b
    case DriverRightTrigger => AbsAbove(i.driver.rightTrigger, 0.9)
    case DriverBack => i.driver.back
    case DriverStart => i.driver.start
    case DriverRightBumper => i.driver.rightBumper
    case DriverPovRight => i.driver.pov == 90
    case DriverLeftBumper => i.driver.leftBumper
    case DriverPovLeft => i.driver.pov == 270
    case ManipulatorA => i.manipulator.a
    case ManipulatorX => i.manipulator.x
    case ManipulatorB => i.manipulator.b
    case ManipulatorLeftBumper => i.manipulator.leftBumper
    case ManipulatorRightBumper => i.manipulator.rightBumper
    case ManipulatorLeftStick => AbsAbove(i.manipulator.leftY, 0.1)
    case ManipulatorRightStick => AbsAbove(i.manipulator.rightY, 0.1)
    case ManipulatorBack => i.manipulator.back
    case ManipulatorStart => i.manipulator.start
    case PovUp => i.manipulator.pov == 0
    case PovRight => i.manipulator.pov == 90
    case PovDown => i.manipulator.pov == 180
    case PovLeft => i.manipulator.pov == 270
    case PovUpWithY => i.manipulator.pov == 0 && i.manipulator.y
    case PovRightWithY => i.manipulator.pov == 90 && i.manipulator.y
    case VacuumGained => i.teleop && i.minVacuum
    case VacuumLost => i.teleop && i.minVacuum
  }

  function ActivationOf(b: Binding): Activation
  {
    match b
    case DriverBack | DriverStart => OnTrue
    case ManipulatorA | ManipulatorX | ManipulatorB | ManipulatorLeftBumper | ManipulatorRightBumper => OnTrue
    case VacuumGained => OnTrue
    case VacuumLost => OnFalse
    case _ => WhileTrue
  }

  /** The command each binding schedules.  `tiltTimeOut` is the arm
      configuration's tilt timeout. */
  function CommandOf(b: Binding, tiltTimeOut: real): Command
  {
    match b
    case DriverRightTrigger => DriveRobotCentric
    case DriverBack => Routine(Steps.ZeroHeading)
    case DriverStart => ResetSwerve
    case DriverRightBumper => AttachRight
    case DriverPovRight => ReleaseRight
    case DriverLeftBumper => AttachLeft
    case DriverPovLeft => ReleaseLeft
    case ManipulatorA => ToggleSuction
    case ManipulatorX => SetLights(Heart)
    case ManipulatorB => SetLights(Blank)
    case ManipulatorLeftBumper => SetLights(Cube)
    case ManipulatorRightBumper => SetLights(Cone)
    case ManipulatorLeftStick => ExtendArm
    case ManipulatorRightStick => TiltArm
    case ManipulatorBack => ArmExtendOverride
    case ManipulatorStart => ArmTiltOverride
    case PovUp => Routine(MoveToHigh(1.0))
    case PovRight => Routine(MoveToMedium(1.0))
    case PovDown => MoveToLow(1.0)
    case PovLeft => Routine(MoveToPickup(1.0, tiltTimeOut))
    case PovUpWithY => Routine(ScoreHigh(1.0))
    case PovRightWithY => Routine(ScoreMedium(1.0, tiltTimeOut))
    case VacuumGained => RumbleWith(Good, RumbleControllers())
    case VacuumLost => RumbleWith(Bad, RumbleControllers())
  }

  /** The four D-pad bindings that move the arm to a preset. */
  predicate IsPresetBinding(b: Binding)
  {
    b == PovUp || b == PovRight || b == PovDown || b == PovLeft
  }

  /** The preset the manipulator's D-pad angle selects, all at full speed:
      up is high, right is medium, down is low, left is pickup. */
  function PresetAt(pov: int, tiltTimeOut: real): Option<Command>
  {
    if pov == 0 then Some(Routine(MoveToHigh(1.0)))
    else if pov == 90 then Some(Routine(MoveToMedium(1.0)))
    else if pov == 180 then Some(MoveToLow(1.0))
    else if pov == 270 then Some(Routine(MoveToPickup(1.0, tiltTimeOut)))
    else None
  }

  /** A preset binding is active exactly when the D-pad selects its preset,
      and it is a while-held binding. */
  lemma PresetBindings(b: Binding, i: Inputs, tiltTimeOut: real)
    requires IsPresetBinding(b)
    ensures ActivationOf(b) == WhileTrue
    ensures Condition(b, i) <==> PresetAt(i.manipulator.pov, tiltTimeOut) == Some(CommandOf(b, tiltTimeOut))
  {
    MoveToMediumSteps(1.0);
    MoveToHighSteps(1.0);
  }

  /** The D-pad selects at most one preset at a time. */
  lemma OnePresetAtATime(b1: Binding, b2: Binding, i: Inputs)
    requires IsPresetBinding(b1) && IsPresetBinding(b2)
    requires Condition(b1, i) && Condition(b2, i)
    ensures b1 == b2
  {
  }

  /** Holding Y on the D-pad's up or right scores; the preset binding for
      the same angle is then active too, and without Y only the preset is. */
  lemma ScoreBindings(i: Inputs, tiltTimeOut: real)
    ensures Condition(PovUpWithY, i) <==> Condition(PovUp, i) && i.manipulator.y
    ensures Condition(PovRightWithY, i) <==> Condition(PovRight, i) && i.manipulator.y
    ensures CommandOf(PovUpWithY, tiltTimeOut) == Routine(ScoreHigh(1.0))
    ensures CommandOf(PovRightWithY, tiltTimeOut) == Routine(ScoreMedium(1.0, tiltTimeOut))
    ensures ActivationOf(PovUpWithY) == ActivationOf(PovRightWithY) == WhileTrue
  {
  }

  /** The driver's bumpers attach the clamps and the D-pad's right and left
      release them, each while held; back zeroes the heading and start
      resets the swerve modules, each once per press. */
  lemma DriverBindings(i: Inputs, tiltTimeOut: real)
    ensures Condition(DriverRightBumper, i) == i.driver.rightBumper && CommandOf(DriverRightBumper, tiltTimeOut) == AttachRight
    ensures Condition(DriverLeftBumper, i) == i.driver.leftBumper && CommandOf(DriverLeftBumper, tiltTimeOut) == AttachLeft
    ensures Condition(DriverPovRight, i) <==> i.driver.pov == 90
    ensures Condition(DriverPovLeft, i) <==> i.driver.pov == 270
    ensures CommandOf(DriverPovRight, tiltTimeOut) == ReleaseRight && CommandOf(DriverPovLeft, tiltTimeOut) == ReleaseLeft
    ensures forall b :: b in {DriverRightBumper, DriverLeftBumper, DriverPovRight, DriverPovLeft} ==> ActivationOf(b) == WhileTrue
    ensures ActivationOf(DriverBack) == ActivationOf(DriverStart) == OnTrue
    ensures CommandOf(DriverBack, tiltTimeOut) == Routine(Steps.ZeroHeading) && CommandOf(DriverStart, tiltTimeOut) == ResetSwerve
  {
  }

  /** The joysticks drive the arm exactly while they are pushed strictly
      past 0.1 either way, and robot-centric driving is on exactly while the
      right trigger is strictly past 0.9. */
  lemma AxisBindings(i: Inputs)
    ensures Condition(ManipulatorLeftStick, i) <==> i.manipulator.leftY > 0.1 || i.manipulator.leftY < -0.1
    ensures Condition(ManipulatorRightStick, i) <==> i.manipulator.rightY > 0.1 || i.manipulator.rightY < -0.1
    ensures Condition(DriverRightTrigger, i) <==> i.driver.rightTrigger > 0.9 || i.driver.rightTrigger < -0.9
    ensures !Condition(ManipulatorLeftStick, i.(manipulator := i.manipulator.(leftY := 0.1)))
  {
  }

  // ---------------------------------------------------------------------
  // Rumble on the vacuum

  /** The rumble the vacuum bindings start between two samples of their
      condition: good when it becomes true, bad when it becomes false. */
  function Edge(previous: bool, current: bool): (r: Option<RumblePattern>)
    ensures r == Some(Good) <==> !previous && current
    ensures r == Some(Bad) <==> previous && !current
  {
    if previous == current then None
    else if current then Some(Good)
    else Some(Bad)
  }

  /** Whether a binding of kind `a` schedules its command between two
      samples of its condition.  A while-held binding and an on-true binding
      schedule once, on a rising edge, and not again while the condition
      stays true; an on-false binding schedules on a falling edge. */
  predicate Fires(a: Activation, previous: bool, current: bool)
  {
    match a
    case WhileTrue | OnTrue => !previous && current
    case OnFalse => previous && !current
  }

  /** Whether a binding of kind `a` cancels its command between two samples:
      only a while-held binding does, on a falling edge. */
  predicate Cancels(a: Activation, previous: bool, current: bool)
  {
    a == WhileTrue && previous && !current
  }

  /** How many times a binding schedules its command along a run of
      condition samples. */
  function Starts(a: Activation, samples: seq<bool>): nat
  {
    if |samples| < 2 then 0
    else (if Fires(a, samples[0], samples[1]) then 1 else 0) + Starts(a, samples[1..])
  }

  /** How many times a binding cancels its command along a run of condition
      samples. */
  function Cancellations(a: Activation, samples: seq<bool>): nat
  {
    if |samples| < 2 then 0
    else (if Cancels(a, samples[0], samples[1]) then 1 else 0) + Cancellations(a, samples[1..])
  }

  /** Along any run, a while-held binding's starts and cancellations pair
      up: from a released condition, it has started once more than it was
      cancelled exactly when the condition holds at the end, and never
      cancels more than it started. */
  lemma {:induction false} WhileHeldBalanced(samples: seq<bool>)
    requires |samples| >= 1
    ensures Starts(WhileTrue, samples) + (if samples[0] then 1 else 0)
      == Cancellations(WhileTrue, samples) + (if samples[|samples| - 1] then 1 else 0)
  {
    if |samples| >= 2 {
      var tail := samples[1..];
      WhileHeldBalanced(tail);
      assert tail[0] == samples[1];
      assert tail[|tail| - 1] == samples[|samples| - 1];
    }
  }

  /** A while-held binding schedules its command once per press, not on
      every sample the condition holds, and cancels it on release. */
  lemma WhileHeldOncePerPress(b: Binding, i0: Inputs, i1: Inputs)
    requires ActivationOf(b) == WhileTrue
    ensures Fires(ActivationOf(b), Condition(b, i0), Condition(b, i1)) <==> !Condition(b, i0) && Condition(b, i1)
    ensures Cancels(ActivationOf(b), Condition(b, i0), Condition(b, i1)) <==> Condition(b, i0) && !Condition(b, i1)
    ensures Condition(b, i0) && Condition(b, i1) ==> !Fires(ActivationOf(b), Condition(b, i0), Condition(b, i1))
  {
  }

  /** The two vacuum bindings watch the same condition, teleop and minimum
      vacuum; between two samples the gained binding fires exactly when Edge
      gives a good rumble and the lost binding exactly when it gives a bad
      one, and each schedules the rumble routine with its pattern. */
  lemma VacuumRumbles(b: Binding, i0: Inputs, i1: Inputs, tiltTimeOut: real)
    requires b == VacuumGained || b == VacuumLost
    ensures Condition(b, i0) == (i0.teleop && i0.minVacuum)
    ensures CommandOf(b, tiltTimeOut) == RumbleWith(if b == VacuumGained then Good else Bad, RumbleControllers())
    ensures Fires(ActivationOf(b), Condition(b, i0), Condition(b, i1))
      <==> Edge(Condition(b, i0), Condition(b, i1)) == Some(CommandOf(b, tiltTimeOut).rumble)
  {
  }

  /** The rumbles started along a run of condition samples. */
  function RumbleEdges(samples: seq<bool>): seq<RumblePattern>
  {
    if |samples| < 2 then []
    else
      var e := Edge(samples[0], samples[1]);
      (if e.Some? then [e.value] else []) + RumbleEdges(samples[1..])
  }

  /** Good and bad rumbles alternate, the first one says which way the
      condition first changed, and the last one matches where it ended. */
  lemma {:induction false} RumblesAlternate(samples: seq<bool>)
    requires |samples| >= 1
    ensures var r := RumbleEdges(samples);
      (forall k :: 0 <= k < |r| - 1 ==> r[k] != r[k + 1]) &&
      (|r| > 0 ==> (r[0] == Good <==> !samples[0])) &&
      (|r| > 0 ==> (r[|r| - 1] == Good <==> samples[|samples| - 1])) &&
      (|r| == 0 <==> forall k :: 0 <= k < |samples| ==> samples[k] == samples[0])
  {
    if |samples| >= 2 {
      var tail := samples[1..];
      RumblesAlternate(tail);
      var e := Edge(samples[0], samples[1]);
      var head: seq<RumblePattern> := if e.Some? then [e.value] else [];
      var rt := RumbleEdges(tail);
      var r := RumbleEdges(samples);
      assert r == head + rt;
      assert tail[|tail| - 1] == samples[|samples| - 1];
      if |rt| > 0 && e.Some? {
        assert r[1..] == rt;
      }
      if |rt| == 0 {
        assert forall k :: 0 <= k < |tail| ==> tail[k] == tail[0];
        if e.None? {
          forall k | 0 <= k < |samples| ensures samples[k] == samples[0] {
            if k > 0 { assert samples[k] == tail[k - 1]; }
          }
        }
      } else {
        var j :| 0 <= j < |tail| && tail[j] != tail[0];
        assert samples[j + 1] == tail[j];
      }
    }
  }

  // ---------------------------------------------------------------------
  // The autonomous chooser

  /** The routines the chooser offers.  The scoring-and-balancing routines
      are opaque; AutoMove is modelled. */
  datatype Auto =
    | AutoScore
    | AutoBalance(path: Path, path2: Path)
    | AutoMiddleScoreMove(path: Path)
    | AutoScoreBalance(path: Path, path2: Path)
    | Move(routine: Step)
    | AutoScoreMove(path: Path)

  /** The trajectories, each loaded by file name with its velocity and
      acceleration limits. */
  const BalancePath := Path("Balance", 1.0, 1.0)
  const BalanceMidPath := Path("Balance Mid", 1.0, 1.0)
  const MoveWallPath := Path("Move Wall", 1.5, 1.5)
  const MoveDividerPath := Path("Move Divider", 1.5, 1.5)
  const MoveMiddlePath := Path("Move Middle", 3.0, 3.0)
  const WallBalancePath := Path("Wall Balance", 2.0, 3.0)
  const DividerBalancePath := Path("Divider Balance", 2.0, 3.0)
  const MiddleBalancePath := Path("Middle Balance", 2.0, 3.0)

  /** The name the chooser falls back to; it stands for no routine. */
  const DefaultName := "None"

  /** The chooser's options in the order they are added: first the default,
      which runs nothing, then the routines. */
  function Options(): (r: seq<(string, Option<Auto>)>)
    ensures |r| == 11 && r[0] == (DefaultName, None)
  {
    [
      (DefaultName, None),
      ("Score", Some(AutoScore)),
      ("Middle Balance", Some(AutoBalance(MiddleBalancePath, BalanceMidPath))),
      ("Middle Score Move", Some(AutoMiddleScoreMove(MoveMiddlePath))),
      ("Middle Score Balance", Some(AutoScoreBalance(MiddleBalancePath, BalanceMidPath))),
      ("Divider Move", Some(Move(AutoMove(MoveDividerPath)))),
      ("Divider Score Move", Some(AutoScoreMove(MoveDividerPath))),
      ("Divider Score Balance", Some(AutoScoreBalance(DividerBalancePath, BalancePath))),
      ("Wall Move", Some(Move(AutoMove(MoveWallPath)))),
      ("Wall Score Move", Some(AutoScoreMove(MoveWallPath))),
      ("Wall Score Balance", Some(AutoScoreBalance(WallBalancePath, BalancePath)))
    ]
  }

  /** The chooser table after adding `options` one by one; a later option
      with the same name replaces an earlier one. */
  function Build(options: seq<(string, Option<Auto>)>): map<string, Option<Auto>>
  {
    if options == [] then map[]
    else
      var last := options[|options| - 1];
      Build(options[..|options| - 1])[last.0 := last.1]
  }

  /** The table holds exactly the names added. */
  lemma {:induction false} BuildNames(options: seq<(string, Option<Auto>)>, name: string)
    ensures name in Build(options) <==> exists k :: 0 <= k < |options| && options[k].0 == name
  {
    if options != [] {
      var front := options[..|options| - 1];
      BuildNames(front, name);
      if exists k :: 0 <= k < |front| && front[k].0 == name {
        var k :| 0 <= k < |front| && front[k].0 == name;
        assert options[k] == front[k];
      }
      if exists k :: 0 <= k < |options| && options[k].0 == name {
        var k :| 0 <= k < |options| && options[k].0 == name;
        if k < |front| { assert front[k] == options[k]; }
      }
    }
  }

  /** A name added once, and not again later, maps to what it was added
      with. */
  lemma {:induction false} BuildLookup(options: seq<(string, Option<Auto>)>, k: nat)
    requires k < |options|
    requires forall j :: k < j < |options| ==> options[j].0 != options[k].0
    ensures options[k].0 in Build(options) && Build(options)[options[k].0] == options[k].1
  {
    var front := options[..|options| - 1];
    if k < |options| - 1 {
      forall j | k < j < |front| ensures front[j].0 != front[k].0 {
        assert front[j] == options[j];
      }
      BuildLookup(front, k);
      assert front[k] == options[k];
    }
  }

  /** The names are all different. */
  lemma NamesDistinct()
    ensures forall j, k :: 0 <= j < k < |Options()| ==> Options()[j].0 != Options()[k].0
  {
    var o := Options();
    forall j, k | 0 <= j < k < |o| ensures o[j].0 != o[k].0 {
      assert |o[j].0| != |o[k].0| || o[j].0[0] != o[k].0[0];
    }
  }

  /** The chooser built by the autonomous setup. */
  function Chooser(): map<string, Option<Auto>>
  {
    Build(Options())
  }

  /** The routine to run in autonomous, given what the dashboard selected
      (None: nothing was selected, so the default applies).  A name without
      an entry also runs nothing. */
  function GetAutonomousCommand(selected: Option<string>): (r: Option<Auto>)
    ensures r.Some? ==> exists k :: 0 <= k < |Options()| && Options()[k].1 == r
  {
    var name := if selected.Some? then selected.value else DefaultName;
    if name in Chooser() then
      BuildNames(Options(), name);
      var k :| 0 <= k < |Options()| && Options()[k].0 == name;
      NamesDistinct();
      BuildLookup(Options(), k);
      Chooser()[name]
    else None
  }

  /** Every option is reachable under its own name, and the default runs no
      routine. */
  lemma ChooserTable(k: nat)
    requires k < |Options()|
    ensures GetAutonomousCommand(Some(Options()[k].0)) == Options()[k].1
    ensures GetAutonomousCommand(None) == None
    ensures GetAutonomousCommand(Some(DefaultName)) == None
  {
    NamesDistinct();
    BuildLookup(Options(), k);
    BuildLookup(Options(), 0);
  }

  /** Two entries of the table, spelled out. */
  lemma ChooserExamples()
    ensures GetAutonomousCommand(Some("Wall Score Balance")) == Some(AutoScoreBalance(WallBalancePath, BalancePath))
    ensures GetAutonomousCommand(Some("Middle Balance")) == Some(AutoBalance(MiddleBalancePath, BalanceMidPath))
    ensures GetAutonomousCommand(Some("Wall Move")) == Some(Move(AutoMove(Path("Move Wall", 1.5, 1.5))))
  {
    var o := Options();
    assert o[10] == ("Wall Score Balance", Some(AutoScoreBalance(WallBalancePath, BalancePath)));
    assert o[2] == ("Middle Balance", Some(AutoBalance(MiddleBalancePath, BalanceMidPath)));
    assert o[8] == ("Wall Move", Some(Move(AutoMove(MoveWallPath))));
    ChooserTable(10);
    ChooserTable(2);
    ChooserTable(8);
  }
}

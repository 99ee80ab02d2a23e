/** Values shared by every part of the robot model. */
module Types {

  /** The conventional Some/None datatype. */
  datatype Option<+T> = None | Some(value: T)

  /** The robot's subsystems, as far as the modelled commands name them.
      `Arm` is the older single-class arm; `ArmExtension` and `ArmTilt` are the
      two joints of the newer API. */
  datatype Subsystem = Arm | ArmExtension | ArmTilt | Suction | Drive | Intake

  /** A trajectory loaded from a path-planner file: an opaque token that only
      records the file name and the velocity and acceleration limits it was
      loaded with. */
  datatype Path = Path(name: string, maxVelocity: real, maxAcceleration: real)

  /** What a motor controller was last told to do: run open loop at a
      duty cycle, or hold a closed-loop position target.  A motor has one
      command in effect at a time; the last one given replaces the one before. */
  datatype MotorCommand = DutyCycle(speed: real) | Position(goal: real)

  function Min(a: real, b: real): real { if a <= b then a else b }
}

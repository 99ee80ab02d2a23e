/** The RunRollersInward command: the intake rollers pull inward for as long
    as the command is scheduled and stop when it ends. */
module RunRollersInwardCommand {
  import opened Types

  /** What the intake rollers are doing. */
  datatype Rollers = Stopped | Inward

  /** The part of the intake this command touches: its roller state.  The
      intake's motor is not part of this model. */
  class IntakeRollers {
    var rollers: Rollers

    constructor ()
      ensures rollers == Stopped
    {
      rollers := Stopped;
    }

    method RunRollersInward()
      modifies this`rollers
      ensures rollers == Inward
    {
      rollers := Inward;
    }

    method StopRollers()
      modifies this`rollers
      ensures rollers == Stopped
    {
      rollers := Stopped;
    }
  }

  class RunRollersInward {
    const intake: IntakeRollers
    /** The subsystems the command declares it requires. */
    const requirements: set<Subsystem>

    constructor (intake: IntakeRollers)
      ensures this.intake == intake && requirements == {Intake}
    {
      this.intake := intake;
      requirements := {Intake};
    }

    method Initialize()
      modifies intake`rollers
      ensures intake.rollers == Inward
    {
      intake.RunRollersInward();
    }

    method Execute()
      ensures unchanged(intake)
    {
    }

    /** Stops the rollers, whether the command was interrupted or not. */
    method End(interrupted: bool)
      modifies intake`rollers
      ensures intake.rollers == Stopped
    {
      intake.StopRollers();
    }

    /** The command never ends by itself; it runs until its binding or the
        scheduler cancels it. */
    method IsFinished() returns (done: bool)
      ensures !done
    {
      done := false;
    }
  }
}

/** The ZeroHeading command: an instant command that zeroes the
    drivetrain's gyro heading once, when it is scheduled. */
module ZeroHeadingCommand {
  import opened Types

  /** The part of the drivetrain this command touches: how many times its
      heading has been zeroed.  The gyro itself is not part of this model. */
  class DriveTrain {
    var headingZeroings: nat

    constructor ()
      ensures headingZeroings == 0
    {
      headingZeroings := 0;
    }

    method ZeroHeading()
      modifies this`headingZeroings
      ensures headingZeroings == old(headingZeroings) + 1
    {
      headingZeroings := headingZeroings + 1;
    }
  }

  class ZeroHeading {
    const drive: DriveTrain
    /** The subsystems the command declares it requires. */
    const requirements: set<Subsystem>

    constructor (drive: DriveTrain)
      ensures this.drive == drive && requirements == {Drive}
    {
      this.drive := drive;
      requirements := {Drive};
    }

    /** Zeroes the heading exactly once. */
    method Initialize()
      modifies drive`headingZeroings
      ensures drive.headingZeroings == old(drive.headingZeroings) + 1
    {
      drive.ZeroHeading();
    }

    method Execute()
      ensures unchanged(drive)
    {
    }

    method End(interrupted: bool)
      ensures unchanged(drive)
    {
    }

    /** The command is over as soon as it has been initialized. */
    method IsFinished() returns (done: bool)
      ensures done
    {
      done := true;
    }
  }
}

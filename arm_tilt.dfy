/** The tilt joint of the two-joint arm: one motor with an encoder, a
    closed-loop target whose output range is scaled by the requested speed,
    and forward and reverse soft limits. */
module ArmTiltSubsystem {
  import opened Types

  /** The closed-loop output range for a move at `speed`: the configured
      range multiplied by the speed. */
  function ScaledRange(minOutput: real, maxOutput: real, speed: real): (r: (real, real))
    ensures speed == 1.0 ==> r == (minOutput, maxOutput)
    ensures speed == 0.0 ==> r == (0.0, 0.0)
    ensures minOutput <= maxOutput && speed >= 0.0 ==> r.0 <= r.1
  {
    assert speed == 1.0 ==> minOutput * speed == minOutput && maxOutput * speed == maxOutput;
    assert speed == 0.0 ==> minOutput * speed == 0.0 && maxOutput * speed == 0.0;
    assert maxOutput * speed - minOutput * speed == (maxOutput - minOutput) * speed;
    (minOutput * speed, maxOutput * speed)
  }

  /** A range around zero scaled by a speed between 0 and 1 stays around
      zero and inside the configured range. */
  lemma {:induction false} ScaledRangeWithin(minOutput: real, maxOutput: real, speed: real)
    requires minOutput <= 0.0 <= maxOutput && 0.0 <= speed <= 1.0
    ensures minOutput <= ScaledRange(minOutput, maxOutput, speed).0 <= 0.0
    ensures 0.0 <= ScaledRange(minOutput, maxOutput, speed).1 <= maxOutput
  {
    var r := ScaledRange(minOutput, maxOutput, speed);
    assert r.0 - minOutput == minOutput * (speed - 1.0);
    assert maxOutput - r.1 == maxOutput * (1.0 - speed);
    NonPositiveProduct(minOutput, speed - 1.0);
    NonNegativeProduct(maxOutput, 1.0 - speed);
    NonNegativeProduct(maxOutput, speed);
    NonNegativeProduct(-minOutput, speed);
    assert -(minOutput * speed) == (-minOutput) * speed;
  }

  lemma NonPositiveProduct(a: real, b: real)
    requires a <= 0.0 && b <= 0.0
    ensures a * b >= 0.0
  {
    assert a * b == (-a) * (-b);
    NonNegativeProduct(-a, -b);
  }

  lemma NonNegativeProduct(a: real, b: real)
    requires a >= 0.0 && b >= 0.0
    ensures a * b >= 0.0
  {
  }

  class ArmTilt {
    /** The configured output range and soft-limit bounds. */
    const minOutput: real
    const maxOutput: real
    const forwardLimit: real
    const reverseLimit: real

    /** The command in effect on the motor: an open-loop output or a
        closed-loop target.  Each new command replaces the previous one. */
    var command: MotorCommand
    /** The output range the closed loop may use. */
    var rangeLow: real
    var rangeHigh: real
    /** Whether each soft limit is enforced. */
    var forwardEnabled: bool
    var reverseEnabled: bool
    /** What the encoder reads, in inches. */
    var position: real

    /** The constructor enables both soft limits at the configured bounds
        and sets the configured output range. */
    constructor (minOutput: real, maxOutput: real, forwardLimit: real, reverseLimit: real, reading: real)
      ensures this.minOutput == minOutput && this.maxOutput == maxOutput
      ensures this.forwardLimit == forwardLimit && this.reverseLimit == reverseLimit
      ensures forwardEnabled && reverseEnabled
      ensures (rangeLow, rangeHigh) == (minOutput, maxOutput)
      ensures command == DutyCycle(0.0) && position == reading
    {
      this.minOutput, this.maxOutput := minOutput, maxOutput;
      this.forwardLimit, this.reverseLimit := forwardLimit, reverseLimit;
      forwardEnabled, reverseEnabled := true, true;
      rangeLow, rangeHigh := minOutput, maxOutput;
      command, position := DutyCycle(0.0), reading;
    }

    /** Drives the joint open loop; a positive speed tilts up.  Any
        closed-loop target is dropped. */
    method Run(speed: real)
      modifies this`command
      ensures command == DutyCycle(speed)
    {
      command := DutyCycle(speed);
    }

    /** Aims the closed loop at `goal`, limiting its output to the
        configured range scaled by `speed`.  The encoder and the soft limits
        are not touched. */
    method SetDesiredPosition(goal: real, speed: real)
      modifies this`rangeLow, this`rangeHigh, this`command
      ensures (rangeLow, rangeHigh) == ScaledRange(minOutput, maxOutput, speed)
      ensures speed == 1.0 ==> rangeLow == minOutput && rangeHigh == maxOutput
      ensures command == Position(goal)
    {
      rangeLow := minOutput * speed;
      rangeHigh := maxOutput * speed;
      command := Position(goal);
    }

    method GetEncoderPosition() returns (reading: real)
      ensures reading == position
    {
      reading := position;
    }

    method ResetEncoder()
      modifies this`position
      ensures position == 0.0
    {
      position := 0.0;
    }

    /** Turns both soft limits on or off together; asking for the state they
        are already in changes nothing. */
    method EnableSoftLimits(enable: bool)
      modifies this`forwardEnabled, this`reverseEnabled
      ensures forwardEnabled == enable && reverseEnabled == enable
      ensures old(forwardEnabled) == enable && old(reverseEnabled) == enable ==> unchanged(this)
    {
      if enable {
        forwardEnabled, reverseEnabled := true, true;
      } else {
        forwardEnabled, reverseEnabled := false, false;
      }
    }

    /** Stops the joint: the output becomes 0 open loop, whatever target
        the closed loop was holding. */
    method Reset()
      modifies this`command
      ensures command == DutyCycle(0.0)
    {
      command := DutyCycle(0.0);
    }
  }
}

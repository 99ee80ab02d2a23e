/** The arm interlock.  The single-class arm decides whether its extension
    and its tilt may move from the two encoder positions and the minimum safe
    tilt, a configuration constant whose value is not part of this model. */
module ArmInterlock {

  /** Extending is allowed unless the arm is tilted below the minimum safe
      tilt; at exactly the minimum it is allowed. */
  function ExtendSafe(tilt: real, minSafeTilt: real): (safe: bool)
    ensures safe <==> tilt >= minSafeTilt
  {
    if tilt < minSafeTilt then false else true
  }

  /** Tilting is allowed above the minimum safe tilt whatever the extension,
      and at or below it only while the arm is retracted to zero or less. */
  function TiltSafe(extension: real, tilt: real, minSafeTilt: real): (safe: bool)
    ensures tilt > minSafeTilt ==> safe
    ensures !safe <==> tilt <= minSafeTilt && extension > 0.0
  {
    if tilt > minSafeTilt then true
    else if extension > 0.0 then false
    else true
  }

  /** The two checks treat the threshold differently: at exactly the
      minimum safe tilt an extended arm may extend further but not tilt. */
  lemma BoundaryAsymmetry(extension: real, minSafeTilt: real)
    requires extension > 0.0
    ensures ExtendSafe(minSafeTilt, minSafeTilt)
    ensures !TiltSafe(extension, minSafeTilt, minSafeTilt)
  {
  }

  /** Below the minimum safe tilt with the arm out, neither joint is allowed
      to move; everywhere else at least one of them is. */
  lemma BothBlocked(extension: real, tilt: real, minSafeTilt: real)
    ensures !ExtendSafe(tilt, minSafeTilt) && !TiltSafe(extension, tilt, minSafeTilt)
      <==> tilt < minSafeTilt && extension > 0.0
  {
  }

  /** A retracted arm, such as one whose extension encoder was just reset to
      -0.1, may tilt at every tilt position. */
  lemma RetractedTiltsFreely(extension: real, minSafeTilt: real)
    requires extension <= 0.0
    ensures forall tilt: real :: TiltSafe(extension, tilt, minSafeTilt)
  {
  }
}

/** The single-class arm subsystem: an extension joint and a tilt joint,
    each a motor with an encoder, a closed-loop target and two soft limits. */
module ArmSubsystem {
  import opened Types
  import opened ArmInterlock

  /** Both the extension and the tilt encoder are reset to this reading
      rather than to zero. */
  const ResetReading: real := -0.1

  class Arm {
    /** The configured minimum safe tilt and soft-limit bounds. */
    const minSafeTilt: real
    const extendForwardLimit: real
    const extendReverseLimit: real
    const tiltForwardLimit: real
    const tiltReverseLimit: real

    /** What the two encoders read, in inches. */
    var extensionPosition: real
    var tiltPosition: real

    /** The command in effect on each motor: an open-loop output, in [-1, 1]
        by convention, or a closed-loop position target.  Each new command
        replaces the previous one. */
    var extensionCommand: MotorCommand
    var tiltCommand: MotorCommand

    /** Whether each soft limit is enforced. */
    var extendForwardEnabled: bool
    var extendReverseEnabled: bool
    var tiltForwardEnabled: bool
    var tiltReverseEnabled: bool

    /** The last interlock answers, false until first asked. */
    var extendIsSafe: bool
    var tiltIsSafe: bool

    /** The constructor enables all four soft limits at their configured
        bounds; the encoders read whatever the joints report at power-up. */
    constructor (minSafeTilt: real, extendForwardLimit: real, extendReverseLimit: real,
                 tiltForwardLimit: real, tiltReverseLimit: real,
                 extensionReading: real, tiltReading: real)
      ensures this.minSafeTilt == minSafeTilt
      ensures this.extendForwardLimit == extendForwardLimit && this.extendReverseLimit == extendReverseLimit
      ensures this.tiltForwardLimit == tiltForwardLimit && this.tiltReverseLimit == tiltReverseLimit
      ensures extendForwardEnabled && extendReverseEnabled && tiltForwardEnabled && tiltReverseEnabled
      ensures extensionPosition == extensionReading && tiltPosition == tiltReading
      ensures extensionCommand == DutyCycle(0.0) && tiltCommand == DutyCycle(0.0)
      ensures !extendIsSafe && !tiltIsSafe
    {
      this.minSafeTilt := minSafeTilt;
      this.extendForwardLimit := extendForwardLimit;
      this.extendReverseLimit := extendReverseLimit;
      this.tiltForwardLimit := tiltForwardLimit;
      this.tiltReverseLimit := tiltReverseLimit;
      extendForwardEnabled, extendReverseEnabled := true, true;
      tiltForwardEnabled, tiltReverseEnabled := true, true;
      extensionPosition, tiltPosition := extensionReading, tiltReading;
      extensionCommand, tiltCommand := DutyCycle(0.0), DutyCycle(0.0);
      extendIsSafe, tiltIsSafe := false, false;
    }

    /** Drives the extension open loop; a positive speed extends. */
    method RunExtension(speed: real)
      modifies this`extensionCommand
      ensures extensionCommand == DutyCycle(speed)
    {
      extensionCommand := DutyCycle(speed);
    }

    /** Drives the tilt open loop; a positive speed tilts up. */
    method RunTilt(speed: real)
      modifies this`tiltCommand
      ensures tiltCommand == DutyCycle(speed)
    {
      tiltCommand := DutyCycle(speed);
    }

    method SetDesiredExtensionPosition(position: real)
      modifies this`extensionCommand
      ensures extensionCommand == Position(position)
    {
      extensionCommand := Position(position);
    }

    method SetDesiredTiltPosition(position: real)
      modifies this`tiltCommand
      ensures tiltCommand == Position(position)
    {
      tiltCommand := Position(position);
    }

    method GetExtensionEncoderPosition() returns (position: real)
      ensures position == extensionPosition
    {
      position := extensionPosition;
    }

    method GetTiltEncoderPosition() returns (position: real)
      ensures position == tiltPosition
    {
      position := tiltPosition;
    }

    method ResetTiltEncoder()
      modifies this`tiltPosition
      ensures tiltPosition == ResetReading
    {
      tiltPosition := ResetReading;
    }

    /** After the reset the arm counts as retracted, so the interlock lets
        it tilt wherever it is. */
    method ResetExtensionEncoder()
      modifies this`extensionPosition
      ensures extensionPosition == ResetReading
      ensures forall tilt: real :: TiltSafe(extensionPosition, tilt, minSafeTilt)
    {
      extensionPosition := ResetReading;
      RetractedTiltsFreely(extensionPosition, minSafeTilt);
    }

    /** Turns both tilt soft limits on or off together; the extension limits
        are left as they were. */
    method EnableTiltSoftLimits(enable: bool)
      modifies this`tiltForwardEnabled, this`tiltReverseEnabled
      ensures tiltForwardEnabled == enable && tiltReverseEnabled == enable
    {
      if enable {
        tiltForwardEnabled, tiltReverseEnabled := true, true;
      } else {
        tiltForwardEnabled, tiltReverseEnabled := false, false;
      }
    }

    /** Turns both extension soft limits on or off together; the tilt
        limits are left as they were. */
    method EnableExtendSoftLimits(enable: bool)
      modifies this`extendForwardEnabled, this`extendReverseEnabled
      ensures extendForwardEnabled == enable && extendReverseEnabled == enable
    {
      if enable {
        extendForwardEnabled, extendReverseEnabled := true, true;
      } else {
        extendForwardEnabled, extendReverseEnabled := false, false;
      }
    }

    /** Asks the interlock whether the extension may move, caches the answer
        and returns the cached value. */
    method IsSafeToExtend() returns (safe: bool)
      modifies this`extendIsSafe
      ensures safe == extendIsSafe
      ensures safe <==> tiltPosition >= minSafeTilt
      ensures safe == ExtendSafe(tiltPosition, minSafeTilt)
    {
      var tilt := tiltPosition;
      if tilt < minSafeTilt {
        extendIsSafe := false;
      } else {
        extendIsSafe := true;
      }
      safe := extendIsSafe;
    }

    /** Asks the interlock whether the tilt may move, caches the answer and
        returns the cached value. */
    method IsSafeToTilt() returns (safe: bool)
      modifies this`tiltIsSafe
      ensures safe == tiltIsSafe
      ensures !safe <==> tiltPosition <= minSafeTilt && extensionPosition > 0.0
      ensures safe == TiltSafe(extensionPosition, tiltPosition, minSafeTilt)
    {
      var extension := extensionPosition;
      var tilt := tiltPosition;
      if tilt > minSafeTilt {
        tiltIsSafe := true;
      } else {
        if extension > 0.0 {
          tiltIsSafe := false;
        } else {
          tiltIsSafe := true;
        }
      }
      safe := tiltIsSafe;
    }
  }
}

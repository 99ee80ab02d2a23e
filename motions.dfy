/** The composed arm motions: move-to presets and the score routines that
    reuse them.  `tiltTimeOut` stands for the arm configuration's tilt
    timeout, whose value is not part of this model. */
module Motions {
  import opened Types
  import opened Steps
  import opened Timing

  /** MoveToMedium: retract, tilt to the medium angle, extend to the medium
      length, each step cut off by its own timeout. */
  function MoveToMedium(speed: real): (r: Step)
    ensures r.Group? && Leaves(r) == r.children && |r.children| == 3
    ensures IsRetract(r.children[0]) && r.children[1].Tilt? && r.children[2].Extend?
    ensures r.children[2].target > r.children[0].target
    ensures AllAtSpeed(Leaves(r), speed)
  {
    var steps := [
      Extend(speed, 0.0, Some(1.0)),
      Tilt(speed, 15.0, Some(1.5)),
      Extend(speed, 12.0, Some(1.0))
    ];
    FlattenOfFlat(steps);
    Sequence(steps)
  }

  lemma MoveToMediumSteps(speed: real)
    ensures Leaves(MoveToMedium(speed)) ==
      [Extend(speed, 0.0, Some(1.0)), Tilt(speed, 15.0, Some(1.5)), Extend(speed, 12.0, Some(1.0))]
  {
  }

  /** The MoveToMedium timeouts add up to 3.5 seconds. */
  lemma {:induction false} MoveToMediumBound(speed: real)
    ensures TimeoutBound(Leaves(MoveToMedium(speed))) == Some(3.5)
  {
    var ss := Leaves(MoveToMedium(speed));
    assert TimeoutBound(ss[2..]) == Some(1.0) by {
      assert ss[2..][1..] == [];
    }
    assert TimeoutBound(ss[1..]) == Some(2.5) by {
      assert ss[1..][1..] == ss[2..];
    }
  }

  /** Every MoveToMedium step is timed, so, whatever the joints do, the
      motion is over within 3.5 seconds. */
  lemma MoveToMediumEndsInTime(speed: real, ns: seq<Option<real>>)
    requires |ns| == 3
    ensures Elapsed(Leaves(MoveToMedium(speed)), ns).Some?
    ensures Elapsed(Leaves(MoveToMedium(speed)), ns).value <= 3.5
  {
    MoveToMediumBound(speed);
    ElapsedWithinBound(Leaves(MoveToMedium(speed)), ns);
  }

  /** MoveToPickup: a timed tilt to the pickup angle, then suction on. */
  function MoveToPickup(speed: real, tiltTimeOut: real): (r: Step)
    ensures r.Group? && Leaves(r) == r.children && |r.children| == 2
    ensures r.children[0].Tilt? && r.children[0].target == 12.6
    ensures r.children[0].timeout == Some(tiltTimeOut)
    ensures r.children[1] == EnableSuction
    ensures forall i :: 0 <= i < |Leaves(r)| && Leaves(r)[i] == EnableSuction ==> i == 1
    ensures AllAtSpeed(Leaves(r), speed)
    ensures forall i :: 0 <= i < |Leaves(r)| ==> !Leaves(r)[i].Extend?
  {
    var steps := [
      Tilt(speed, 12.6, Some(tiltTimeOut)),
      EnableSuction
    ];
    FlattenOfFlat(steps);
    Sequence(steps)
  }

  /** MoveToHigh: tilt to the high angle, then extend to the high length,
      neither step timed. */
  function MoveToHigh(speed: real): (r: Step)
    ensures r.Group? && Leaves(r) == r.children && |r.children| == 2
    ensures r.children[0].Tilt? && r.children[1].Extend?
    ensures forall i :: 0 <= i < 2 ==> r.children[i].timeout.None?
    ensures AllAtSpeed(Leaves(r), speed)
  {
    var steps := [
      Tilt(speed, 16.5, None),
      Extend(speed, 27.5, None)
    ];
    FlattenOfFlat(steps);
    Sequence(steps)
  }

  lemma MoveToHighSteps(speed: real)
    ensures Leaves(MoveToHigh(speed)) == [Tilt(speed, 16.5, None), Extend(speed, 27.5, None)]
  {
  }

  /** ScoreMedium: MoveToMedium, then a half-speed timed release tilt. */
  function ScoreMedium(speed: real, tiltTimeOut: real): (r: Step)
    ensures r.Group? && |r.children| == 2 && r.children[0] == MoveToMedium(speed)
    ensures r.children[1] == Tilt(speed * 0.5, 11.5, Some(tiltTimeOut))
  {
    Sequence([
      MoveToMedium(speed),
      Tilt(speed * 0.5, 11.5, Some(tiltTimeOut))
    ])
  }

  /** Flattened, ScoreMedium is the three MoveToMedium steps followed by a
      release tilt below MoveToMedium's tilt, and it never touches the
      suction. */
  lemma {:induction false} ScoreMediumSteps(speed: real, tiltTimeOut: real)
    ensures Leaves(ScoreMedium(speed, tiltTimeOut)) ==
      Leaves(MoveToMedium(speed)) + [Tilt(speed * 0.5, 11.5, Some(tiltTimeOut))]
    ensures |Leaves(ScoreMedium(speed, tiltTimeOut))| == 4
    ensures Leaves(ScoreMedium(speed, tiltTimeOut))[3].target < Leaves(ScoreMedium(speed, tiltTimeOut))[1].target
    ensures Suction !in Uses(Leaves(ScoreMedium(speed, tiltTimeOut)))
    ensures TimeoutBound(Leaves(ScoreMedium(speed, tiltTimeOut))) == Some(3.5 + tiltTimeOut)
  {
    var m := MoveToMedium(speed);
    var t := Tilt(speed * 0.5, 11.5, Some(tiltTimeOut));
    FlattenPair(m, t);
    MoveToMediumBound(speed);
    assert [t][1..] == [];
    TimeoutBoundAppend(Leaves(m), [t]);
    var ss := Leaves(m) + [t];
    assert Uses(ss[3..]) == {ArmTilt} by {
      assert ss[3..][1..] == [];
    }
    assert Uses(ss[2..]) == {ArmExtension, ArmTilt} by {
      assert ss[2..][1..] == ss[3..];
    }
    assert Uses(ss[1..]) == {ArmExtension, ArmTilt} by {
      assert ss[1..][1..] == ss[2..];
    }
  }

  /** ScoreHigh: MoveToHigh, then an untimed full-speed release tilt. */
  function ScoreHigh(speed: real): (r: Step)
    ensures r.Group? && |r.children| == 2 && r.children[0] == MoveToHigh(speed)
    ensures r.children[1] == Tilt(speed, 14.5, None)
  {
    Sequence([
      MoveToHigh(speed),
      Tilt(speed, 14.5, None)
    ])
  }

  /** Flattened, ScoreHigh tilts to 16.5, extends to 27.5 and tilts back to
      14.5, all at the caller's speed, without a timeout and without the
      suction. */
  lemma {:induction false} ScoreHighSteps(speed: real)
    ensures Leaves(ScoreHigh(speed)) ==
      [Tilt(speed, 16.5, None), Extend(speed, 27.5, None), Tilt(speed, 14.5, None)]
    ensures AllAtSpeed(Leaves(ScoreHigh(speed)), speed)
    ensures Suction !in Uses(Leaves(ScoreHigh(speed)))
  {
    var m := MoveToHigh(speed);
    var t := Tilt(speed, 14.5, None);
    FlattenPair(m, t);
    var ss := Leaves(m) + [t];
    assert Uses(ss[2..]) == {ArmTilt} by {
      assert ss[2..][1..] == [];
    }
    assert Uses(ss[1..]) == {ArmExtension, ArmTilt} by {
      assert ss[1..][1..] == ss[2..];
    }
  }
}

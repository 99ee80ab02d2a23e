/** The autonomous routines. */
module Autos {
  import opened Types
  import opened Steps
  import opened Timing
  import opened Motions

  /** The nine steps shared by AutoScoreHigh and SimpleAuto: grab the game
      piece with the suction, wait for the seal, score it high, let go and
      reset the arm, every arm step at 0.15. */
  function ScoreHighAutoSteps(): (ss: seq<Step>)
    ensures |ss| == 9
    ensures ss[0] == EnableSuction
    ensures ss[2].Extend? && ss[2].target == 5.1 && ss[3] == WaitUntilSeal && IsRetract(ss[4])
    ensures ss[1] == Tilt(0.15, 0.67, None)
    ensures ss[5] == ScoreHigh(0.15) && ss[6] == Wait(0.5) && ss[7] == DisableSuction && ss[8] == ResetArm(0.15)
    ensures forall i :: 0 <= i < |ss| && ss[i] == EnableSuction ==> i == 0
    ensures forall i :: 0 <= i < |ss| && ss[i] == DisableSuction ==> i == 7
    ensures forall i :: 0 <= i < |ss| && (ss[i].Tilt? || ss[i].Extend?) ==> ss[i].timeout.None?
    ensures AllAtSpeed(ss, 0.15)
  {
    var high := ScoreHigh(0.15);
    assert high.Group?;
    [
      EnableSuction,
      Tilt(0.15, 0.67, None),
      Extend(0.15, 5.1, None),
      WaitUntilSeal,
      Extend(0.15, 0.0, None),
      high,
      Wait(0.5),
      DisableSuction,
      ResetArm(0.15)
    ]
  }

  /** AutoScoreHigh: the nine scoring steps on the two-joint arm. */
  function AutoScoreHigh(): (r: Step)
    ensures r.Group? && r.declared == {} && r.children == ScoreHighAutoSteps()
  {
    Sequence(ScoreHighAutoSteps())
  }

  /** The first five and the last three AutoScoreHigh steps. */
  function ScoreHighAutoFront(): seq<Step>
  {
    [EnableSuction, Tilt(0.15, 0.67, None), Extend(0.15, 5.1, None), WaitUntilSeal, Extend(0.15, 0.0, None)]
  }

  function ScoreHighAutoBack(): seq<Step>
  {
    [Wait(0.5), DisableSuction, ResetArm(0.15)]
  }

  /** AutoScoreHigh inlines ScoreHigh between its fifth and seventh steps. */
  lemma AutoScoreHighAround()
    ensures Leaves(AutoScoreHigh()) == ScoreHighAutoFront() + Leaves(ScoreHigh(0.15)) + ScoreHighAutoBack()
  {
    var front, back := ScoreHighAutoFront(), ScoreHighAutoBack();
    assert ScoreHighAutoSteps() == front + [ScoreHigh(0.15)] + back;
    GroupAround(AutoScoreHigh(), front, ScoreHigh(0.15), back);
  }

  /** The eleven leaves AutoScoreHigh runs, in order: ScoreHigh's three arm
      moves sit between the retract and the half-second wait. */
  function ScoreHighAutoLeaves(): seq<Step>
  {
    [
      EnableSuction, Tilt(0.15, 0.67, None), Extend(0.15, 5.1, None), WaitUntilSeal,
      Extend(0.15, 0.0, None),
      Tilt(0.15, 16.5, None), Extend(0.15, 27.5, None), Tilt(0.15, 14.5, None),
      Wait(0.5), DisableSuction, ResetArm(0.15)
    ]
  }

  /** AutoScoreHigh runs exactly those leaves. */
  lemma {:induction false} AutoScoreHighLeaves()
    ensures Leaves(AutoScoreHigh()) == ScoreHighAutoLeaves()
  {
    AutoScoreHighAround();
    ScoreHighSteps(0.15);
    SpliceLiteral(Leaves(AutoScoreHigh()), Leaves(ScoreHigh(0.15)));
  }

  lemma SpliceLiteral(l: seq<Step>, mid: seq<Step>)
    requires mid == [Tilt(0.15, 16.5, None), Extend(0.15, 27.5, None), Tilt(0.15, 14.5, None)]
    requires l == ScoreHighAutoFront() + mid + ScoreHighAutoBack()
    ensures l == ScoreHighAutoLeaves()
  {
  }

  /** No AutoScoreHigh step has a timeout, so if the seal never forms the
      routine stays at its wait-until step for ever once the three steps
      before it are done. */
  lemma AutoScoreHighWaitsForSeal(ns: seq<Option<real>>, t: real)
    requires |ns| == 11
    requires forall i :: 0 <= i < |ns| && ns[i].Some? ==> ns[i].value >= 0.0
    requires forall i :: 0 <= i < 3 ==> ns[i].Some?
    requires ns[3].None?
    requires t >= ns[0].value + ns[1].value + ns[2].value
    ensures |Leaves(AutoScoreHigh())| == 11 && ActiveAt(Leaves(AutoScoreHigh()), ns, t) == Some(3)
  {
    var ss := Leaves(AutoScoreHigh());
    AutoScoreHighDurations(ns);
    AutoScoreHighOpening();
    StuckAtSeal(ss, ns, t);
  }

  /** Every AutoScoreHigh leaf takes a non-negative time when the joints
      and the seal do. */
  lemma AutoScoreHighDurations(ns: seq<Option<real>>)
    requires |ns| == 11
    requires forall i :: 0 <= i < |ns| && ns[i].Some? ==> ns[i].value >= 0.0
    ensures |Leaves(AutoScoreHigh())| == 11
    ensures NonNegative(Leaves(AutoScoreHigh()), ns)
  {
    AutoScoreHighLeaves();
    ScoringDurations(Leaves(AutoScoreHigh()), ns);
  }

  /** AutoScoreHigh opens with suction on, the untimed tilt and extension,
      and the seal wait. */
  lemma AutoScoreHighOpening()
    ensures |Leaves(AutoScoreHigh())| == 11
    ensures Leaves(AutoScoreHigh())[0] == EnableSuction
    ensures Leaves(AutoScoreHigh())[1] == Tilt(0.15, 0.67, None)
    ensures Leaves(AutoScoreHigh())[2] == Extend(0.15, 5.1, None)
    ensures Leaves(AutoScoreHigh())[3] == WaitUntilSeal
  {
    AutoScoreHighLeaves();
    OpeningOf(Leaves(AutoScoreHigh()));
  }

  lemma OpeningOf(l: seq<Step>)
    requires l == ScoreHighAutoLeaves()
    ensures |l| == 11 && l[0] == EnableSuction && l[1] == Tilt(0.15, 0.67, None)
    ensures l[2] == Extend(0.15, 5.1, None) && l[3] == WaitUntilSeal
  {
  }

  lemma ScoringDurations(l: seq<Step>, ns: seq<Option<real>>)
    requires l == ScoreHighAutoLeaves()
    requires |ns| == 11
    requires forall i :: 0 <= i < |ns| && ns[i].Some? ==> ns[i].value >= 0.0
    ensures NonNegative(l, ns)
  {
    NaturalDurations(l, ns);
  }

  /** A run that opens with the suction on, an untimed tilt, an untimed
      extension and the wait for the seal is at the wait once those three
      steps are done, until the seal forms. */
  lemma StuckAtSeal(ss: seq<Step>, ns: seq<Option<real>>, t: real)
    requires |ss| == |ns| && |ss| > 3 && NonNegative(ss, ns)
    requires ss[0] == EnableSuction && ss[1].Tilt? && ss[1].timeout.None?
    requires ss[2].Extend? && ss[2].timeout.None? && ss[3] == WaitUntilSeal
    requires forall i :: 0 <= i < 3 ==> ns[i].Some?
    requires ns[3].None?
    requires t >= ns[0].value + ns[1].value + ns[2].value
    ensures ActiveAt(ss, ns, t) == Some(3)
  {
    var front, fns := ss[..3], ns[..3];
    assert front[1..][1..][1..] == [] && fns[1..][1..][1..] == [];
    assert front[0] == ss[0] && front[1..][0] == ss[1] && front[1..][1..][0] == ss[2];
    assert fns[0] == ns[0] && fns[1..][0] == ns[1] && fns[1..][1..][0] == ns[2];
    assert StepDuration(ss[0], ns[0]) == ns[0];
    assert StepDuration(ss[1], ns[1]) == ns[1];
    assert StepDuration(ss[2], ns[2]) == ns[2];
    assert Elapsed(front[1..][1..], fns[1..][1..]) == Some(ns[2].value + 0.0);
    assert Elapsed(front[1..], fns[1..]) == Some(ns[1].value + (ns[2].value + 0.0));
    assert Elapsed(front, fns) == Some(ns[0].value + (ns[1].value + (ns[2].value + 0.0)));
    ActiveExactly(ss, ns, 3, t);
  }

  /** SimpleAuto: the same nine steps on the older single-class arm, with
      the group itself requiring the suction and the arm. */
  function SimpleAuto(): (r: Step)
    ensures r.Group? && r.children == AutoScoreHigh().children
    ensures r.declared == {Suction, Arm}
    ensures r.children[6] == Wait(0.5) && r.children[7] == DisableSuction && r.children[8] == ResetArm(0.15)
    ensures AllAtSpeed(r.children, 0.15)
  {
    Group([
      EnableSuction,
      Tilt(0.15, 0.67, None),
      Extend(0.15, 5.1, None),
      WaitUntilSeal,
      Extend(0.15, 0.0, None),
      ScoreHigh(0.15),
      Wait(0.5),
      DisableSuction,
      ResetArm(0.15)
    ], {Suction, Arm})
  }

  /** AutoSequenceA: score high, then reset the arm while following the
      first trajectory, then follow the second one. */
  function AutoSequenceA(trajectory: Path, trajectory2: Path): (r: Step)
    ensures r.Group? && |r.children| == 3 && r.children[0] == AutoScoreHigh()
    ensures r.children[1].Parallel? && r.children[1].branches == [ResetArm(1.0), Follow(trajectory, true)]
    ensures r.children[2] == Follow(trajectory2, false)
  {
    Sequence([
      AutoScoreHigh(),
      Parallel([ResetArm(1.0), Follow(trajectory, true)]),
      Follow(trajectory2, false)
    ])
  }

  /** AutoSequenceA runs the scoring leaves first, and none of them touches
      the drivetrain; only then does it drive, first resetting the pose and
      then not; its arm reset runs at 1.0 where the scoring reset ran at
      0.15. */
  lemma AutoSequenceAOrder(trajectory: Path, trajectory2: Path)
    ensures Leaves(AutoSequenceA(trajectory, trajectory2)) ==
      Leaves(AutoScoreHigh()) + [Parallel([ResetArm(1.0), Follow(trajectory, true)]), Follow(trajectory2, false)]
    ensures Drive !in Uses(Leaves(AutoScoreHigh()))
    ensures Drive in Uses([Parallel([ResetArm(1.0), Follow(trajectory, true)])])
    ensures |Leaves(AutoScoreHigh())| == 11 && Leaves(AutoScoreHigh())[10] == ResetArm(0.15)
  {
    AutoSequenceALeaves(trajectory, trajectory2);
    AutoScoreHighOffDrive();
    ResetWhileDriving(trajectory);
  }

  /** No scoring leaf acts on the drivetrain, and the last one resets the
      arm at 0.15. */
  lemma AutoScoreHighOffDrive()
    ensures Drive !in Uses(Leaves(AutoScoreHigh()))
    ensures |Leaves(AutoScoreHigh())| == 11 && Leaves(AutoScoreHigh())[10] == ResetArm(0.15)
  {
    AutoScoreHighLeaves();
    ScoringOffDrive(Leaves(AutoScoreHigh()));
  }

  lemma ScoringOffDrive(l: seq<Step>)
    requires l == ScoreHighAutoLeaves()
    ensures Drive !in Uses(l)
  {
    forall i | 0 <= i < |l|
      ensures !(l[i].Follow? || l[i].ZeroHeading? || l[i].Parallel? || l[i].Group?)
    {
      assert l[i] in l;
    }
    OffTheDrive(l);
  }

  /** The parallel step hands over both arm joints and the drivetrain. */
  lemma ResetWhileDriving(trajectory: Path)
    ensures Uses([Parallel([ResetArm(1.0), Follow(trajectory, true)])]) == {ArmExtension, ArmTilt, Drive}
  {
    var p := Parallel([ResetArm(1.0), Follow(trajectory, true)]);
    var f := [Follow(trajectory, true)];
    assert f[1..] == [];
    assert Uses(f) == {Drive};
    var b := [ResetArm(1.0), Follow(trajectory, true)];
    assert b[1..] == f;
    assert Uses(b) == {ArmExtension, ArmTilt} + Uses(f);
    assert StepUses(p) == Uses(b);
    assert [p][1..] == [];
    assert Uses([p]) == StepUses(p) + Uses([]);
  }

  lemma AutoSequenceALeaves(trajectory: Path, trajectory2: Path)
    ensures Leaves(AutoSequenceA(trajectory, trajectory2)) ==
      Leaves(AutoScoreHigh()) + [Parallel([ResetArm(1.0), Follow(trajectory, true)]), Follow(trajectory2, false)]
  {
    ThenDrive(AutoScoreHigh(), Parallel([ResetArm(1.0), Follow(trajectory, true)]), Follow(trajectory2, false));
  }

  lemma ThenDrive(first: Step, p: Step, f: Step)
    requires p.Parallel? && f.Follow?
    ensures Leaves(Sequence([first, p, f])) == Leaves(first) + [p, f]
  {
    assert [first, p, f] == [first] + [p, f];
    FlattenThenFlat(first, [p, f]);
  }

  /** Steps that are neither trajectory, heading nor composite steps leave
      the drivetrain alone. */
  lemma OffTheDrive(ss: seq<Step>)
    requires forall i :: 0 <= i < |ss| ==>
      !(ss[i].Follow? || ss[i].ZeroHeading? || ss[i].Parallel? || ss[i].Group?)
    ensures Drive !in Uses(ss)
  {
    UsesAt(ss, Drive);
  }

  /** AutoMove: follow a trajectory from a reset pose, then zero the heading;
      both steps act on the drivetrain only. */
  function AutoMove(trajectory: Path): (r: Step)
    ensures r.Group? && Leaves(r) == r.children && |r.children| == 2
    ensures r.children[0] == Follow(trajectory, true) && r.children[1] == ZeroHeading
  {
    var steps := [
      Follow(trajectory, true),
      ZeroHeading
    ];
    FlattenOfFlat(steps);
    Sequence(steps)
  }

  lemma AutoMoveUsesDrive(trajectory: Path)
    ensures Uses(Leaves(AutoMove(trajectory))) == {Drive}
  {
    var ss := Leaves(AutoMove(trajectory));
    assert ss == [Follow(trajectory, true), ZeroHeading];
    var z := [ZeroHeading];
    assert z[1..] == [];
    assert Uses(z) == {Drive};
    assert ss[1..] == z;
    assert Uses(ss) == StepUses(ss[0]) + Uses(z);
  }
}

/** Command-group steps.  Every composed motion and autonomous routine of the
    robot is a fixed tree of these steps; this module defines the tree, the
    order in which its leaves run, the time bound its timeouts guarantee, and
    the subsystems its leaves are handed. */
module Steps {
  import opened Types

  /** One command inside a command group.  The leaf arm, suction and
      trajectory commands are opaque: a step only records the arguments its
      constructor is given. */
  datatype Step =
    | Tilt(speed: real, target: real, timeout: Option<real>)    // TiltArmToHeight, with an optional withTimeout
    | Extend(speed: real, target: real, timeout: Option<real>)  // ExtendArmToLength, with an optional withTimeout
    | EnableSuction
    | DisableSuction
    | WaitUntilSeal                                             // WaitUntilCommand(suction::hasVacuumSeal)
    | Wait(seconds: real)                                       // WaitCommand
    | ResetArm(speed: real)
    | Follow(path: Path, resetPose: bool)                       // FollowTrajectory
    | ZeroHeading                                               // ZeroHeading; its lifecycle is module ZeroHeadingCommand
    | SetRumble(value: real)                                    // InstantCommand rumbling both controllers
    | Parallel(branches: seq<Step>)                             // ParallelCommandGroup
    | Group(children: seq<Step>, declared: set<Subsystem>)      // SequentialCommandGroup and its addRequirements

  /** A sequential group that declares no extra requirements. */
  function Sequence(children: seq<Step>): Step
  {
    Group(children, {})
  }

  /** No step of `ss` is itself a sequential group. */
  predicate Flat(ss: seq<Step>)
  {
    forall i :: 0 <= i < |ss| ==> !ss[i].Group?
  }

  /** The steps of `ss` in the order a sequential run activates them:
      nested sequential groups are inlined, while a parallel group runs as
      one step. */
  function Flatten(ss: seq<Step>): seq<Step>
  {
    if ss == [] then [] else Leaves(ss[0]) + Flatten(ss[1..])
  }

  /** The steps of one command, in running order. */
  function Leaves(s: Step): seq<Step>
  {
    match s
    case Group(children, _) => Flatten(children)
    case _ => [s]
  }

  lemma FlatAppend(a: seq<Step>, b: seq<Step>)
    requires Flat(a) && Flat(b)
    ensures Flat(a + b)
  {
    forall i | 0 <= i < |a + b| ensures !(a + b)[i].Group? {
      if i < |a| { assert (a + b)[i] == a[i]; } else { assert (a + b)[i] == b[i - |a|]; }
    }
  }

  /** The running order contains no sequential group. */
  lemma {:induction false} FlattenIsFlat(ss: seq<Step>)
    ensures Flat(Flatten(ss))
  {
    if ss != [] {
      LeavesAreFlat(ss[0]);
      FlattenIsFlat(ss[1..]);
      FlatAppend(Leaves(ss[0]), Flatten(ss[1..]));
    }
  }

  /** The running order of one command contains no sequential group. */
  lemma {:induction false} LeavesAreFlat(s: Step)
    ensures Flat(Leaves(s))
  {
    match s
    case Group(children, _) => FlattenIsFlat(children);
    case _ =>
  }

  /** A sequence with no nested group runs as written. */
  lemma {:induction false} FlattenOfFlat(ss: seq<Step>)
    requires Flat(ss)
    ensures Flatten(ss) == ss
  {
    if ss != [] {
      assert Flat(ss[1..]) by {
        forall i | 0 <= i < |ss| - 1 ensures !ss[1..][i].Group? {
          assert ss[1..][i] == ss[i + 1];
        }
      }
      FlattenOfFlat(ss[1..]);
      assert !ss[0].Group?;
      assert ss == [ss[0]] + ss[1..];
    }
  }

  lemma {:induction false} FlattenAppend(a: seq<Step>, b: seq<Step>)
    ensures Flatten(a + b) == Flatten(a) + Flatten(b)
  {
    if a != [] {
      assert (a + b)[0] == a[0];
      assert (a + b)[1..] == a[1..] + b;
      FlattenAppend(a[1..], b);
    } else {
      assert a + b == b;
    }
  }

  /** A group nested between two flat stretches is inlined in place. */
  lemma FlattenAround(front: seq<Step>, x: Step, back: seq<Step>)
    requires Flat(front) && Flat(back)
    ensures Flatten(front + [x] + back) == front + Leaves(x) + back
  {
    FlattenAppend(front + [x], back);
    FlattenAppend(front, [x]);
    FlattenOfFlat(front);
    FlattenOfFlat(back);
    assert Flatten([x]) == Leaves(x) by {
      assert [x][1..] == [];
    }
  }

  /** A group whose children are a nested command between two flat
      stretches runs that command's leaves in its place. */
  lemma GroupAround(g: Step, front: seq<Step>, x: Step, back: seq<Step>)
    requires g.Group? && g.children == front + [x] + back
    requires Flat(front) && Flat(back)
    ensures Leaves(g) == front + Leaves(x) + back
  {
    FlattenAround(front, x, back);
  }

  /** A command followed by steps that are not groups runs its leaves, then
      those steps. */
  lemma FlattenThenFlat(x: Step, rest: seq<Step>)
    requires Flat(rest)
    ensures Flatten([x] + rest) == Leaves(x) + rest
  {
    FlattenAppend([x], rest);
    FlattenOfFlat(rest);
    assert Flatten([x]) == Leaves(x) by {
      assert [x][1..] == [];
    }
  }

  /** The leaves of `a` followed by those of `b`. */
  lemma {:induction false} FlattenPair(a: Step, b: Step)
    ensures Flatten([a, b]) == Leaves(a) + Leaves(b)
  {
    assert [a, b] == [a] + [b];
    FlattenAppend([a], [b]);
  }

  // ---------------------------------------------------------------------
  // Time bounds

  function AddBound(a: Option<real>, b: Option<real>): (r: Option<real>)
    ensures r.Some? <==> a.Some? && b.Some?
    ensures r.Some? ==> r.value == a.value + b.value
  {
    if a.Some? && b.Some? then Some(a.value + b.value) else None
  }

  /** The longest time a sequential run of `ss` can take, from the timeouts
      and fixed waits it contains; None when some step has no bound.  Only
      steps whose own source shows that they finish are bounded: a timed-out
      joint move, a wait, and the instant heading and rumble steps.  A
      parallel group is not given a bound. */
  function TimeoutBound(ss: seq<Step>): (r: Option<real>)
  {
    if ss == [] then Some(0.0)
    else
      var head := match ss[0]
        case Tilt(_, _, t) => t
        case Extend(_, _, t) => t
        case Wait(sec) => Some(sec)
        case ZeroHeading => Some(0.0)
        case SetRumble(_) => Some(0.0)
        case Group(children, _) => TimeoutBound(children)
        case _ => None;
      AddBound(head, TimeoutBound(ss[1..]))
  }

  lemma {:induction false} TimeoutBoundAppend(a: seq<Step>, b: seq<Step>)
    ensures TimeoutBound(a + b) == AddBound(TimeoutBound(a), TimeoutBound(b))
  {
    if a != [] {
      assert (a + b)[0] == a[0];
      assert (a + b)[1..] == a[1..] + b;
      TimeoutBoundAppend(a[1..], b);
    } else {
      assert a + b == b;
    }
  }

  /** Flattening a routine keeps its time bound. */
  lemma {:induction false} TimeoutBoundFlatten(ss: seq<Step>)
    ensures TimeoutBound(Flatten(ss)) == TimeoutBound(ss)
  {
    if ss != [] {
      TimeoutBoundFlatten(ss[1..]);
      match ss[0]
      case Group(children, _) =>
        TimeoutBoundFlatten(children);
        TimeoutBoundAppend(Flatten(children), Flatten(ss[1..]));
      case _ =>
        assert Flatten(ss) == [ss[0]] + Flatten(ss[1..]);
        TimeoutBoundAppend([ss[0]], Flatten(ss[1..]));
        assert [ss[0]][1..] == [];
    }
  }

  // ---------------------------------------------------------------------
  // Arguments of the leaves

  /** The speed argument a step was constructed with, if it has one. */
  function SpeedOf(s: Step): (r: Option<real>)
    ensures r.Some? <==> s.Tilt? || s.Extend? || s.ResetArm?
  {
    match s
    case Tilt(v, _, _) => Some(v)
    case Extend(v, _, _) => Some(v)
    case ResetArm(v) => Some(v)
    case _ => None
  }

  /** Every arm step among `ss` runs at `speed`. */
  predicate AllAtSpeed(ss: seq<Step>, speed: real)
  {
    forall i :: 0 <= i < |ss| ==> SpeedOf(ss[i]).Some? ==> SpeedOf(ss[i]) == Some(speed)
  }

  /** An extension move that retracts the arm fully. */
  predicate IsRetract(s: Step)
  {
    s.Extend? && s.target == 0.0
  }

  /** The subsystems whose handle a step's constructor receives (the
      two-joint API).  A wait-until step receives only the seal predicate;
      rumble steps act on controllers, which are not subsystems.  A
      group's own `addRequirements` set (`declared`) is not part of it:
      only the subsystems its children receive are. */
  function StepUses(s: Step): set<Subsystem>
  {
    match s
    case Tilt(_, _, _) => {ArmTilt}
    case Extend(_, _, _) => {ArmExtension}
    case EnableSuction => {Suction}
    case DisableSuction => {Suction}
    case ResetArm(_) => {ArmExtension, ArmTilt}
    case Follow(_, _) => {Drive}
    case ZeroHeading => {Drive}
    case Parallel(branches) => Uses(branches)
    case Group(children, _) => Uses(children)
    case _ => {}
  }

  /** The subsystems the steps of `ss` receive. */
  function Uses(ss: seq<Step>): set<Subsystem>
  {
    if ss == [] then {} else StepUses(ss[0]) + Uses(ss[1..])
  }

  /** A subsystem is used by a sequence exactly when one of its steps uses it. */
  lemma {:induction false} UsesAt(ss: seq<Step>, x: Subsystem)
    ensures x in Uses(ss) <==> exists i :: 0 <= i < |ss| && x in StepUses(ss[i])
  {
    if ss != [] {
      UsesAt(ss[1..], x);
      if x in Uses(ss[1..]) {
        var j :| 0 <= j < |ss| - 1 && x in StepUses(ss[1..][j]);
        assert ss[1..][j] == ss[j + 1];
      }
      if exists i :: 0 <= i < |ss| && x in StepUses(ss[i]) {
        var i :| 0 <= i < |ss| && x in StepUses(ss[i]);
        if i > 0 {
          assert ss[1..][i - 1] == ss[i];
        }
      }
    }
  }

  lemma {:induction false} UsesAppend(a: seq<Step>, b: seq<Step>)
    ensures Uses(a + b) == Uses(a) + Uses(b)
  {
    if a != [] {
      assert (a + b)[0] == a[0];
      assert (a + b)[1..] == a[1..] + b;
      UsesAppend(a[1..], b);
    } else {
      assert a + b == b;
    }
  }

  /** Flattening keeps the set of subsystems used. */
  lemma {:induction false} UsesFlatten(ss: seq<Step>)
    ensures Uses(Flatten(ss)) == Uses(ss)
  {
    if ss != [] {
      UsesFlatten(ss[1..]);
      match ss[0]
      case Group(children, _) =>
        UsesFlatten(children);
        UsesAppend(Flatten(children), Flatten(ss[1..]));
      case _ =>
        assert Flatten(ss) == [ss[0]] + Flatten(ss[1..]);
        UsesAppend([ss[0]], Flatten(ss[1..]));
        assert [ss[0]][1..] == [];
    }
  }
}

/** A continuous-time account of a sequential command group: one leaf is
    active at a time, in running order, and the next one starts when the
    active leaf finishes on its own or its timeout fires.  Time is measured in
    seconds from the start of the group; the scheduler's fixed control cycle
    is abstracted away, so an instant step takes no time at all. */
module Timing {
  import opened Types
  import opened Steps

  /** How long leaf `s` stays active when run inside a sequence.  `natural`
      is how long its underlying action would run before finishing by itself
      (None: it never does).  A timeout cuts the run short; a wait lasts its
      fixed time; the heading and rumble steps finish at once. */
  function StepDuration(s: Step, natural: Option<real>): (r: Option<real>)
    ensures TimeoutBound([s]).Some? && !s.Group? ==> r.Some? && r.value <= TimeoutBound([s]).value
    ensures r.None? ==> natural.None?
  {
    match s
    case Tilt(_, _, Some(t)) => Some(if natural.Some? then Min(natural.value, t) else t)
    case Extend(_, _, Some(t)) => Some(if natural.Some? then Min(natural.value, t) else t)
    case Wait(sec) => Some(sec)
    case ZeroHeading => Some(0.0)
    case SetRumble(_) => Some(0.0)
    case _ => natural
  }

  /** Every leaf of the run takes a non-negative time. */
  predicate NonNegative(ss: seq<Step>, ns: seq<Option<real>>)
    requires |ss| == |ns|
  {
    forall i :: 0 <= i < |ss| ==> StepDuration(ss[i], ns[i]).Some? ==> StepDuration(ss[i], ns[i]).value >= 0.0
  }

  /** A run whose fixed waits and timeouts are non-negative, with
      non-negative natural durations, takes non-negative time at every leaf. */
  lemma NaturalDurations(ss: seq<Step>, ns: seq<Option<real>>)
    requires |ss| == |ns|
    requires forall i :: 0 <= i < |ns| && ns[i].Some? ==> ns[i].value >= 0.0
    requires forall i :: 0 <= i < |ss| && ss[i].Wait? ==> ss[i].seconds >= 0.0
    requires forall i :: 0 <= i < |ss| && (ss[i].Tilt? || ss[i].Extend?) && ss[i].timeout.Some? ==>
      ss[i].timeout.value >= 0.0
    ensures NonNegative(ss, ns)
  {
  }

  /** The total time a sequential run of the leaves `ss` takes; None when it
      never finishes. */
  function Elapsed(ss: seq<Step>, ns: seq<Option<real>>): (r: Option<real>)
    requires |ss| == |ns|
  {
    if ss == [] then Some(0.0)
    else AddBound(StepDuration(ss[0], ns[0]), Elapsed(ss[1..], ns[1..]))
  }

  /** The index of the leaf that is active `t` seconds after the run
      started; None once the run is over. */
  function ActiveAt(ss: seq<Step>, ns: seq<Option<real>>, t: real): (r: Option<nat>)
    requires |ss| == |ns|
    ensures r.Some? ==> r.value < |ss|
  {
    if ss == [] then None
    else
      match StepDuration(ss[0], ns[0])
      case None => Some(0)
      case Some(d) =>
        if t < d then Some(0)
        else
          match ActiveAt(ss[1..], ns[1..], t - d)
          case None => None
          case Some(k) => Some(k + 1)
  }

  lemma NonNegativeSlice(ss: seq<Step>, ns: seq<Option<real>>, lo: nat, hi: nat)
    requires |ss| == |ns| && lo <= hi <= |ss| && NonNegative(ss, ns)
    ensures NonNegative(ss[lo..hi], ns[lo..hi])
  {
    forall j | 0 <= j < hi - lo
      ensures ss[lo..hi][j] == ss[lo + j] && ns[lo..hi][j] == ns[lo + j]
    {
    }
  }

  lemma {:induction false} ElapsedNonNegative(ss: seq<Step>, ns: seq<Option<real>>)
    requires |ss| == |ns| && NonNegative(ss, ns)
    ensures Elapsed(ss, ns).Some? ==> Elapsed(ss, ns).value >= 0.0
  {
    if ss != [] {
      NonNegativeSlice(ss, ns, 1, |ss|);
      ElapsedNonNegative(ss[1..], ns[1..]);
    }
  }

  /** A run whose leaves are all covered by timeouts or fixed waits ends,
      whatever the joints and the suction do, within the routine's bound. */
  lemma {:induction false} ElapsedWithinBound(ss: seq<Step>, ns: seq<Option<real>>)
    requires |ss| == |ns| && Flat(ss)
    requires TimeoutBound(ss).Some?
    ensures Elapsed(ss, ns).Some? && Elapsed(ss, ns).value <= TimeoutBound(ss).value
  {
    if ss != [] {
      assert Flat(ss[1..]) by {
        forall i | 0 <= i < |ss| - 1 ensures !ss[1..][i].Group? {
          assert ss[1..][i] == ss[i + 1];
        }
      }
      assert !ss[0].Group?;
      assert [ss[0]][1..] == [];
      assert TimeoutBound(ss) == AddBound(TimeoutBound([ss[0]]), TimeoutBound(ss[1..]));
      ElapsedWithinBound(ss[1..], ns[1..]);
    }
  }

  /** From the moment the leaves before it are done, leaf `i` is active
      exactly until its own duration has passed; a leaf that never finishes
      keeps the run at that leaf forever.  NotBeforeStart covers the times
      before that moment. */
  lemma {:induction false} ActiveExactly(ss: seq<Step>, ns: seq<Option<real>>, i: nat, t: real)
    requires |ss| == |ns| && i < |ss| && NonNegative(ss, ns)
    requires Elapsed(ss[..i], ns[..i]).Some?
    requires t >= Elapsed(ss[..i], ns[..i]).value
    ensures ActiveAt(ss, ns, t) == Some(i) <==>
              match StepDuration(ss[i], ns[i])
              case None => true
              case Some(d) => t < Elapsed(ss[..i], ns[..i]).value + d
  {
    if i > 0 {
      ElapsedPrefix(ss, ns, i);
      var d := StepDuration(ss[0], ns[0]).value;
      NonNegativeSlice(ss, ns, 1, |ss|);
      NonNegativeSlice(ss[1..], ns[1..], 0, i - 1);
      assert ss[1..][0..i - 1] == ss[1..][..i - 1] && ns[1..][0..i - 1] == ns[1..][..i - 1];
      ElapsedNonNegative(ss[1..][..i - 1], ns[1..][..i - 1]);
      ActiveAtShift(ss, ns, i, t);
      assert ss[1..][i - 1] == ss[i] && ns[1..][i - 1] == ns[i];
      ActiveExactly(ss[1..], ns[1..], i - 1, t - d);
    } else {
      assert Elapsed(ss[..0], ns[..0]) == Some(0.0);
    }
  }

  /** Leaf `i` is not active before the leaves ahead of it are done. */
  lemma {:induction false} NotBeforeStart(ss: seq<Step>, ns: seq<Option<real>>, i: nat, t: real)
    requires |ss| == |ns| && i < |ss| && NonNegative(ss, ns)
    requires Elapsed(ss[..i], ns[..i]).Some?
    requires 0.0 <= t < Elapsed(ss[..i], ns[..i]).value
    ensures ActiveAt(ss, ns, t) != Some(i)
  {
    if i > 0 {
      ElapsedPrefix(ss, ns, i);
      var d := StepDuration(ss[0], ns[0]).value;
      if t >= d {
        NonNegativeSlice(ss, ns, 1, |ss|);
        ActiveAtShift(ss, ns, i, t);
        NotBeforeStart(ss[1..], ns[1..], i - 1, t - d);
      }
    }
  }

  /** At any time from the start of the run, leaf `i` is active exactly
      from the moment the leaves ahead of it are done until its own duration
      has passed, and for ever after that start if it never finishes. */
  lemma ActiveInterval(ss: seq<Step>, ns: seq<Option<real>>, i: nat, t: real)
    requires |ss| == |ns| && i < |ss| && NonNegative(ss, ns)
    requires Elapsed(ss[..i], ns[..i]).Some? && t >= 0.0
    ensures ActiveAt(ss, ns, t) == Some(i) <==>
              Elapsed(ss[..i], ns[..i]).value <= t &&
              match StepDuration(ss[i], ns[i])
              case None => true
              case Some(d) => t < Elapsed(ss[..i], ns[..i]).value + d
  {
    if t >= Elapsed(ss[..i], ns[..i]).value {
      ActiveExactly(ss, ns, i, t);
    } else {
      NotBeforeStart(ss, ns, i, t);
    }
  }

  /** The time the first `i` leaves take is the first leaf's time plus that
      of the next `i - 1`. */
  lemma ElapsedPrefix(ss: seq<Step>, ns: seq<Option<real>>, i: nat)
    requires |ss| == |ns| && 0 < i <= |ss|
    ensures Elapsed(ss[..i], ns[..i]) == AddBound(StepDuration(ss[0], ns[0]), Elapsed(ss[1..][..i - 1], ns[1..][..i - 1]))
  {
    assert ss[..i][0] == ss[0] && ns[..i][0] == ns[0];
    assert ss[..i][1..] == ss[1..][..i - 1] && ns[..i][1..] == ns[1..][..i - 1];
  }

  /** Once the first leaf is done, leaf `i` is active exactly when leaf
      `i - 1` of the rest of the run is. */
  lemma ActiveAtShift(ss: seq<Step>, ns: seq<Option<real>>, i: nat, t: real)
    requires |ss| == |ns| && 0 < i < |ss|
    requires StepDuration(ss[0], ns[0]).Some? && t >= StepDuration(ss[0], ns[0]).value
    ensures ActiveAt(ss, ns, t) == Some(i) <==>
              ActiveAt(ss[1..], ns[1..], t - StepDuration(ss[0], ns[0]).value) == Some(i - 1)
  {
  }

  /** A run is over exactly when its total time has passed. */
  lemma {:induction false} FinishedExactly(ss: seq<Step>, ns: seq<Option<real>>, t: real)
    requires |ss| == |ns| && NonNegative(ss, ns) && t >= 0.0
    ensures ActiveAt(ss, ns, t).None? <==> Elapsed(ss, ns).Some? && t >= Elapsed(ss, ns).value
  {
    if ss != [] {
      NonNegativeSlice(ss, ns, 1, |ss|);
      ElapsedNonNegative(ss[1..], ns[1..]);
      match StepDuration(ss[0], ns[0])
      case None =>
      case Some(d) =>
        if t >= d {
          FinishedExactly(ss[1..], ns[1..], t - d);
        }
    }
  }
}

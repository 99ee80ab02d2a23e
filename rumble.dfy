/** RumbleControllers: rumble both controllers fully for one second, then
    stop.  Each rumble step is an instant command that sets the same value
    on the driver's and the manipulator's controller. */
module Rumble {
  import opened Types
  import opened Steps
  import opened Timing

  /** The rumble strength each controller was last given. */
  datatype Rumbles = Rumbles(driver: real, manipulator: real)

  function RumbleControllers(): (r: Step)
    ensures r.Group? && r.declared == {} && Leaves(r) == r.children && |r.children| == 3
    ensures r.children[0] == SetRumble(1.0) && r.children[1] == Wait(1.0) && r.children[2] == SetRumble(0.0)
  {
    var steps := [
      SetRumble(1.0),
      Wait(1.0),
      SetRumble(0.0)
    ];
    FlattenOfFlat(steps);
    Sequence(steps)
  }

  /** The effect of one step on the controllers: a rumble step gives both
      controllers the same value; no other step touches them. */
  function Perform(st: Rumbles, s: Step): (r: Rumbles)
    ensures s.SetRumble? ==> r.driver == r.manipulator == s.value
    ensures !s.SetRumble? ==> r == st
  {
    match s
    case SetRumble(v) => Rumbles(v, v)
    case _ => st
  }

  /** The effect of running the steps `ss` in order. */
  function PerformAll(st: Rumbles, ss: seq<Step>): Rumbles
    decreases ss
  {
    if ss == [] then st else PerformAll(Perform(st, ss[0]), ss[1..])
  }

  /** After a run the controllers carry the value of its last rumble step. */
  lemma {:induction false} LastRumbleWins(st: Rumbles, ss: seq<Step>, i: nat)
    requires i < |ss| && ss[i].SetRumble?
    requires forall j :: i < j < |ss| ==> !ss[j].SetRumble?
    ensures PerformAll(st, ss) == Rumbles(ss[i].value, ss[i].value)
    decreases ss
  {
    if i == 0 {
      NoRumble(Perform(st, ss[0]), ss[1..]);
    } else {
      forall j | i - 1 < j < |ss| - 1 ensures !ss[1..][j].SetRumble? {
        assert ss[1..][j] == ss[j + 1];
      }
      LastRumbleWins(Perform(st, ss[0]), ss[1..], i - 1);
    }
  }

  /** Steps that are not rumble steps leave the controllers alone. */
  lemma {:induction false} NoRumble(st: Rumbles, ss: seq<Step>)
    requires forall j :: 0 <= j < |ss| ==> !ss[j].SetRumble?
    ensures PerformAll(st, ss) == st
    decreases ss
  {
    if ss != [] {
      forall j | 0 <= j < |ss| - 1 ensures !ss[1..][j].SetRumble? {
        assert ss[1..][j] == ss[j + 1];
      }
      NoRumble(st, ss[1..]);
    }
  }

  /** Whatever the controllers were doing, both rumbles are 0 once the
      routine is over, and they were both 1 while it waited. */
  lemma RumbleEndsOff(st: Rumbles)
    ensures PerformAll(st, Leaves(RumbleControllers())) == Rumbles(0.0, 0.0)
    ensures PerformAll(st, Leaves(RumbleControllers())[..2]) == Rumbles(1.0, 1.0)
  {
    var ss := Leaves(RumbleControllers());
    LastRumbleWins(st, ss, 2);
    LastRumbleWins(st, ss[..2], 0);
  }

  /** A run never leaves the two controllers with different values if they
      started equal. */
  lemma {:induction false} RumblesAgree(st: Rumbles, ss: seq<Step>)
    requires st.driver == st.manipulator
    ensures PerformAll(st, ss).driver == PerformAll(st, ss).manipulator
    decreases ss
  {
    if ss != [] {
      RumblesAgree(Perform(st, ss[0]), ss[1..]);
    }
  }

  /** The routine acts on no subsystem and takes exactly its one-second
      wait. */
  lemma RumbleTakesOneSecond(ns: seq<Option<real>>)
    requires |ns| == 3
    ensures Uses(Leaves(RumbleControllers())) == {}
    ensures Elapsed(Leaves(RumbleControllers()), ns) == Some(1.0)
  {
    var ss := Leaves(RumbleControllers());
    assert ss[1..][1..][1..] == [] && ns[1..][1..][1..] == [];
    assert Uses(ss[1..][1..]) == {};
    assert Elapsed(ss[1..][1..], ns[1..][1..]) == Some(0.0);
    assert Elapsed(ss[1..], ns[1..]) == Some(1.0);
  }
}

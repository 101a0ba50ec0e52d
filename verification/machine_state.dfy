/**
 * The printer state that every G-code command evolves: four axes (X, Y, Z and the
 * extruder E) and the machine-wide settings.  `Axis` and `MachineState` are classes
 * whose fields are updated in place; `AxisVal` and `StateVal` are their values,
 * on which the effects of commands are specified.
 */
module MachineStates {
  import opened Wrappers

  /** A parameter value as a command carries it: a bare letter (a flag) or a number. */
  datatype Arg = Flag | Num(value: real)

  datatype AxisId = X | Y | Z | E

  /**
   * The value of one axis.  `relative` is `None` until a mode command runs;
   * `position` is `None` while the position is unknown.
   */
  datatype AxisVal = AxisVal(
    relative: Option<bool>,
    position: Option<real>,
    offset: real,
    min: Option<real>,
    max: Option<real>,
    accelLimit: Option<Arg>,
    speedLimit: Option<Arg>,
    jerk: Option<Arg>)
  {
    /** Python's `if self.relative:` is taken only for `True`; `None` behaves as absolute. */
    predicate IsRelative() {
      relative == Some(true)
    }

    /** The running minimum and maximum are both present and ordered. */
    predicate BoundsOrdered() {
      min.Some? && max.Some? && min.value <= max.value
    }
  }

  /** A freshly reset axis. */
  const FreshAxis := AxisVal(None, None, 0.0, None, None, None, None, None)

  /**
   * `set_offset(off)`: chooses the offset so that the current position (or 0 when it
   * is unknown) reads as `off`.
   */
  function WithOffset(a: AxisVal, off: real): (r: AxisVal)
    ensures r.offset + off == (if a.position.Some? then a.position.value else 0.0)
    ensures r.(offset := a.offset) == a
  {
    a.(offset := if a.position.None? then 0.0 - off else a.position.value - off)
  }

  /** `move(amount)` followed by the running min/max update. */
  function Moved(a: AxisVal, amount: real): (r: AxisVal)
    requires a.IsRelative() ==> a.position.Some?
    ensures r.position.Some?
    ensures a.IsRelative() ==> r.position.value == a.position.value + amount
    ensures !a.IsRelative() ==> r.position.value == a.offset + amount
    ensures r.BoundsOrdered() && r.min.value <= r.position.value <= r.max.value
    ensures a.min.Some? ==> r.min.value <= a.min.value
    ensures a.max.Some? ==> r.max.value >= a.max.value
    ensures r.min.value == r.position.value || r.min == a.min
    ensures r.max.value == r.position.value || r.max == a.max
    ensures r.(position := a.position, min := a.min, max := a.max) == a
  {
    var p := if a.IsRelative() then a.position.value + amount else a.offset + amount;
    var lo := if a.min.None? || p < a.min.value then Some(p) else a.min;
    var hi := if a.max.None? || p > a.max.value then Some(p) else a.max;
    a.(position := Some(p), min := lo, max := hi)
  }

  /** One axis of the machine, updated in place. */
  class Axis {
    var relative: Option<bool>
    var position: Option<real>
    var offset: real
    var min: Option<real>
    var max: Option<real>
    var accelLimit: Option<Arg>
    var speedLimit: Option<Arg>
    var jerk: Option<Arg>

    function Value(): AxisVal
      reads this
    {
      AxisVal(relative, position, offset, min, max, accelLimit, speedLimit, jerk)
    }

    /** `Axis()`, which resets every field. */
    constructor ()
      ensures Value() == FreshAxis
    {
      relative, position, offset := None, None, 0.0;
      min, max := None, None;
      accelLimit, speedLimit, jerk := None, None, None;
    }

    /** `Axis(other)`: a new axis with the same field values. */
    constructor Copy(other: Axis)
      ensures Value() == other.Value()
    {
      relative, position, offset := other.relative, other.position, other.offset;
      min, max := other.min, other.max;
      accelLimit, speedLimit, jerk := other.accelLimit, other.speedLimit, other.jerk;
    }

    method SetOffset(off: real)
      modifies this
      ensures Value() == WithOffset(old(Value()), off)
    {
      if position.None? {
        offset := 0.0 - off;
      } else {
        offset := position.value - off;
      }
    }

    /** Python's `self.position += amount`, which raises on an unknown position. */
    method RelativeMove(amount: real)
      requires position.Some?
      modifies this
      ensures position == Some(old(position.value) + amount)
      ensures Value().(position := old(position)) == old(Value())
    {
      position := Some(position.value + amount);
    }

    method AbsoluteMove(amount: real)
      modifies this
      ensures position == Some(offset + amount)
      ensures Value().(position := old(position)) == old(Value())
    {
      position := Some(offset + amount);
    }

    method Move(amount: real)
      requires Value().IsRelative() ==> position.Some?
      modifies this
      ensures Value() == Moved(old(Value()), amount)
    {
      if relative == Some(true) {
        RelativeMove(amount);
      } else {
        AbsoluteMove(amount);
      }
      if min.None? || position.value < min.value {
        min := position;
      }
      if max.None? || position.value > max.value {
        max := position;
      }
      assert max.value >= min.value;
    }
  }

  /**
   * The elapsed time of a state, in seconds.  It is a float in the program: a
   * travelling move at feedrate 0 divides numpy's distance by zero, which gives
   * an infinite time instead of raising, and the time stays infinite from then on.
   */
  datatype Time = Finite(secs: real) | Infinite

  /** Adding a duration to a time, as float addition does when either may be infinite. */
  function AddTime(t: Time, d: Time): Time {
    if t.Infinite? || d.Infinite? then Infinite else Finite(t.secs + d.secs)
  }

  /** The value of a whole machine state: the four axes and the machine-wide fields. */
  datatype StateVal = StateVal(
    x: AxisVal, y: AxisVal, z: AxisVal, e: AxisVal,
    time: Time,
    layer: Option<real>,
    retracted: bool,
    lifted: bool,
    bedTemp: Option<Arg>,
    headTemp: Option<Arg>,
    feedrateMult: real,
    flowrateMult: real,
    laK: Option<Arg>,
    feedrate: Option<real>,   // mm/s, not mm/min as written in G-code
    fanSpeed: Option<real>,
    printAccel: Option<Arg>,
    retractAccel: Option<Arg>,
    travelAccel: Option<Arg>,
    steppers: bool,
    homed: bool,
    maxExy: Option<real>,
    minExy: Option<real>,
    frequencyLimit: Option<Arg>)
  {
    function Axis(id: AxisId): AxisVal {
      match id
      case X => x
      case Y => y
      case Z => z
      case E => e
    }

    function WithAxis(id: AxisId, a: AxisVal): (r: StateVal)
      ensures r.Axis(id) == a
      ensures forall other :: other != id ==> r.Axis(other) == Axis(other)
      ensures r.(x := x, y := y, z := z, e := e) == this
    {
      match id
      case X => this.(x := a)
      case Y => this.(y := a)
      case Z => this.(z := a)
      case E => this.(e := a)
    }
  }

  /** The state `MachineState()` starts from. */
  const FreshState := StateVal(
    FreshAxis, FreshAxis, FreshAxis, FreshAxis,
    Finite(0.0), None, false, false, None, None, 1.0, 1.0, None, None, None,
    None, None, None, true, false, None, None, None)

  /** The `position` property: the four axis positions, each possibly unknown. */
  function Positions(s: StateVal): (r: seq<Option<real>>)
    ensures |r| == 4
    ensures r[0] == s.x.position && r[1] == s.y.position && r[2] == s.z.position && r[3] == s.e.position
  {
    [s.x.position, s.y.position, s.z.position, s.e.position]
  }

  /** `pos_vec`: the positions of X, Y, Z and E, absent when any of them is unknown. */
  function PosVec(s: StateVal): (r: Option<seq<real>>)
    ensures r.None? <==> exists i :: 0 <= i < 4 && Positions(s)[i].None?
    ensures r.Some? ==> |r.value| == 4 && forall i :: 0 <= i < 4 ==> Positions(s)[i] == Some(r.value[i])
  {
    if s.x.position.None? || s.y.position.None? || s.z.position.None? || s.e.position.None? then
      assert Positions(s)[0].None? || Positions(s)[1].None? || Positions(s)[2].None? || Positions(s)[3].None?;
      None
    else
      Some([s.x.position.value, s.y.position.value, s.z.position.value, s.e.position.value])
  }

  /** `pos_vec_xyz`: the head position, absent when X, Y or Z is unknown. */
  function PosVecXyz(s: StateVal): (r: Option<seq<real>>)
    ensures r.None? <==> exists i :: 0 <= i < 3 && Positions(s)[i].None?
    ensures r.Some? ==> |r.value| == 3 && forall i :: 0 <= i < 3 ==> Positions(s)[i] == Some(r.value[i])
  {
    if s.x.position.None? || s.y.position.None? || s.z.position.None? then
      assert Positions(s)[0].None? || Positions(s)[1].None? || Positions(s)[2].None?;
      None
    else
      Some([s.x.position.value, s.y.position.value, s.z.position.value])
  }

  /** `pos_vec_xy`: the X/Y position, absent when X or Y is unknown. */
  function PosVecXy(s: StateVal): (r: Option<seq<real>>)
    ensures r.None? <==> exists i :: 0 <= i < 2 && Positions(s)[i].None?
    ensures r.Some? ==> |r.value| == 2 && forall i :: 0 <= i < 2 ==> Positions(s)[i] == Some(r.value[i])
  {
    if s.x.position.None? || s.y.position.None? then
      assert Positions(s)[0].None? || Positions(s)[1].None?;
      None
    else
      Some([s.x.position.value, s.y.position.value])
  }

  /**
   * `loc_vec`: the four positions followed by the elapsed time, which may be
   * infinite.  The time of a state is never unknown here, so it is absent exactly
   * when `pos_vec` is.
   */
  function LocVec(s: StateVal): (r: Option<(seq<real>, Time)>)
    ensures r.None? <==> PosVec(s).None?
    ensures r.Some? ==> |r.value.0| == 4 && r.value.1 == s.time
    ensures r.Some? ==> forall i :: 0 <= i < 4 ==> Positions(s)[i] == Some(r.value.0[i])
  {
    match PosVec(s)
    case None => None
    case Some(v) => Some((v, s.time))
  }

  /** One snapshot of the machine; each command's effect is applied to a fresh copy. */
  class MachineState {
    const x: Axis
    const y: Axis
    const z: Axis
    const e: Axis
    var time: Time
    var layer: Option<real>
    var retracted: bool
    var lifted: bool
    var bedTemp: Option<Arg>
    var headTemp: Option<Arg>
    var feedrateMult: real
    var flowrateMult: real
    var laK: Option<Arg>
    var feedrate: Option<real>
    var fanSpeed: Option<real>
    var printAccel: Option<Arg>
    var retractAccel: Option<Arg>
    var travelAccel: Option<Arg>
    var steppers: bool
    var homed: bool
    var maxExy: Option<real>
    var minExy: Option<real>
    var frequencyLimit: Option<Arg>

    /** The four axes are distinct objects, so changing one leaves the others alone. */
    ghost predicate Valid()
      reads this
    {
      x != y && x != z && x != e && y != z && y != e && z != e
    }

    ghost function Repr(): set<object>
      reads this
    {
      {this, x, y, z, e}
    }

    function AxisObj(id: AxisId): Axis
      reads this
    {
      match id
      case X => x
      case Y => y
      case Z => z
      case E => e
    }

    function Snapshot(): StateVal
      reads this, x, y, z, e
    {
      StateVal(x.Value(), y.Value(), z.Value(), e.Value(), time, layer, retracted, lifted,
        bedTemp, headTemp, feedrateMult, flowrateMult, laK, feedrate, fanSpeed,
        printAccel, retractAccel, travelAccel, steppers, homed, maxExy, minExy, frequencyLimit)
    }

    /** `MachineState()`: every field reset. */
    constructor ()
      ensures Valid() && fresh(x) && fresh(y) && fresh(z) && fresh(e)
      ensures Snapshot() == FreshState
    {
      x := new Axis();
      y := new Axis();
      z := new Axis();
      e := new Axis();
      time, layer, retracted, lifted := Finite(0.0), None, false, false;
      bedTemp, headTemp := None, None;
      feedrateMult, flowrateMult := 1.0, 1.0;
      laK, feedrate, fanSpeed := None, None, None;
      printAccel, retractAccel, travelAccel := None, None, None;
      steppers, homed := true, false;
      maxExy, minExy, frequencyLimit := None, None, None;
    }

    /** `MachineState(other)`: the same field values, with fresh copies of the axes. */
    constructor Copy(other: MachineState)
      ensures Valid() && fresh(x) && fresh(y) && fresh(z) && fresh(e)
      ensures Snapshot() == other.Snapshot()
    {
      x := new Axis.Copy(other.x);
      y := new Axis.Copy(other.y);
      z := new Axis.Copy(other.z);
      e := new Axis.Copy(other.e);
      time, layer, retracted, lifted := other.time, other.layer, other.retracted, other.lifted;
      bedTemp, headTemp := other.bedTemp, other.headTemp;
      feedrateMult, flowrateMult := other.feedrateMult, other.flowrateMult;
      laK, feedrate, fanSpeed := other.laK, other.feedrate, other.fanSpeed;
      printAccel, retractAccel, travelAccel := other.printAccel, other.retractAccel, other.travelAccel;
      steppers, homed := other.steppers, other.homed;
      maxExy, minExy, frequencyLimit := other.maxExy, other.minExy, other.frequencyLimit;
    }
  }

  /**
   * A copy is independent of its original: moving an axis of the copy leaves the
   * original's value as it was.
   */
  method CopyIsIndependent(original: MachineState, amount: real) returns (copy: MachineState)
    requires original.Valid()
    requires original.x.Value().IsRelative() ==> original.x.position.Some?
    ensures fresh(copy) && copy.Valid()
    ensures original.Snapshot() == old(original.Snapshot())
    ensures copy.Snapshot() == original.Snapshot().WithAxis(X, Moved(original.x.Value(), amount))
  {
    copy := new MachineState.Copy(original);
    copy.x.Move(amount);
  }

  /**
   * `set_offset(v)` followed by an absolute move to `v` brings the axis back to the
   * position it had, or to 0 when that position was unknown.
   */
  lemma OffsetThenAbsoluteMove(a: AxisVal, v: real)
    requires !a.IsRelative()
    ensures Moved(WithOffset(a, v), v).position == Some(if a.position.Some? then a.position.value else 0.0)
  {
  }
}

/**
 * What the command effects promise: invariants every command keeps, and the
 * effect of each kind of command stated in terms of its parameters.
 */
module EffectProperties {
  import opened Wrappers
  import opened MachineStates
  import opened CommandProps
  import opened CommandEffects

  /** A running minimum and maximum that are either both unset or both set and ordered. */
  predicate RangeOk(lo: Option<real>, hi: Option<real>) {
    (lo.None? <==> hi.None?) && (lo.Some? ==> lo.value <= hi.value)
  }

  /** The bounds a state tracks: each axis' min and max, and the E-per-XY extremes. */
  predicate BoundsOk(s: StateVal) {
    RangeOk(s.x.min, s.x.max) && RangeOk(s.y.min, s.y.max) && RangeOk(s.z.min, s.z.max)
    && RangeOk(s.e.min, s.e.max) && RangeOk(s.minExy, s.maxExy)
  }

  predicate AxisBoundsOk(a: AxisVal) {
    RangeOk(a.min, a.max)
  }

  lemma FreshStateBoundsOk()
    ensures BoundsOk(FreshState)
  {
  }

  /** `WithAxis` keeps the bounds when the new axis keeps them. */
  lemma WithAxisKeepsBounds(s: StateVal, id: AxisId, a: AxisVal)
    requires BoundsOk(s) && RangeOk(a.min, a.max)
    ensures BoundsOk(s.WithAxis(id, a))
  {
  }

  /** One iteration of a command's loop keeps the bounds, the time and all of the state before but its feedrate. */
  lemma StepKeepsBounds(k: Kind, l: char, v: Arg, st: States)
    requires ArgStep(k, l, v, st).Success?
    ensures BoundsOk(st.1) ==> BoundsOk(ArgStep(k, l, v, st).value.1)
    ensures ArgStep(k, l, v, st).value.1.time == st.1.time
    ensures ArgStep(k, l, v, st).value.0.(feedrate := st.0.feedrate) == st.0
  {
    if k.IsMove() {
      MoveStepKeepsBounds(l, v, st);
    } else if k == SetOffset {
      OffsetStepKeepsBounds(l, v, st.1);
    } else if k == SetTypeAccel {
      assert ArgStep(k, l, v, st).value.0 == st.0;
    } else {
      var which := if k == SetJerk then JerkLimit else if k == SetAxisAccel then AccelLimit else SpeedLimit;
      assert ArgStep(k, l, v, st) == After(st.0, LimitStep(which, l, v, st.1));
      LimitStepKeepsBounds(which, l, v, st.1);
    }
  }

  /** The axis `id` of a state whose bounds are consistent has consistent bounds. */
  lemma AxisOfBoundsOk(s: StateVal, id: AxisId)
    requires BoundsOk(s)
    ensures RangeOk(s.Axis(id).min, s.Axis(id).max)
  {
    match id
    case X =>
    case Y =>
    case Z =>
    case E =>
  }

  lemma MoveStepKeepsBounds(l: char, v: Arg, st: States)
    requires MoveStep(l, v, st).Success?
    ensures BoundsOk(st.1) ==> BoundsOk(MoveStep(l, v, st).value.1)
    ensures MoveStep(l, v, st).value.1.time == st.1.time
    ensures MoveStep(l, v, st).value.0.(feedrate := st.0.feedrate) == st.0
  {
    if l != 'F' && BoundsOk(st.1) {
      var id := AxisOfLetter(l).value;
      AxisOfBoundsOk(st.1, id);
      WithAxisKeepsBounds(st.1, id, Moved(st.1.Axis(id), v.value));
    }
  }

  lemma OffsetStepKeepsBounds(l: char, v: Arg, a: StateVal)
    requires OffsetStep(l, v, a).Success?
    ensures BoundsOk(a) ==> BoundsOk(OffsetStep(l, v, a).value)
    ensures OffsetStep(l, v, a).value.time == a.time
  {
    if BoundsOk(a) {
      var id := AxisOfLetter(l).value;
      AxisOfBoundsOk(a, id);
      WithAxisKeepsBounds(a, id, WithOffset(a.Axis(id), v.value));
    }
  }

  lemma LimitStepKeepsBounds(which: Limit, l: char, v: Arg, a: StateVal)
    requires LimitStep(which, l, v, a).Success?
    ensures BoundsOk(a) ==> BoundsOk(LimitStep(which, l, v, a).value)
    ensures LimitStep(which, l, v, a).value.time == a.time
  {
    if BoundsOk(a) && !(which == AccelLimit && l == 'F') {
      var id := AxisOfLetter(l).value;
      AxisOfBoundsOk(a, id);
      WithAxisKeepsBounds(a, id, WithLimit(a.Axis(id), which, v));
    }
  }

  /** The loop of a looping command keeps the bounds, the time and all of the state before but its feedrate. */
  lemma {:induction false} FoldKeepsBounds(k: Kind, ps: Args, st: States)
    requires FoldSteps(k, ps, st).Success?
    ensures BoundsOk(st.1) ==> BoundsOk(FoldSteps(k, ps, st).value.1)
    ensures FoldSteps(k, ps, st).value.1.time == st.1.time
    ensures FoldSteps(k, ps, st).value.0.(feedrate := st.0.feedrate) == st.0
  {
    if ps != [] {
      StepKeepsBounds(k, ps[0].0, ps[0].1, st);
      var st' := ArgStep(k, ps[0].0, ps[0].1, st).value;
      FoldKeepsBounds(k, ps[1..], st');
    }
  }

  /**
   * Every command keeps the tracked bounds consistent: each axis' minimum stays at
   * most its maximum, and so does the E-per-XY range.
   */
  lemma EffectKeepsBounds(k: Kind, args: Args, b: StateVal, norm: seq<real> -> real)
    requires BoundsOk(b)
    requires Effect(k, args, b, norm).Success?
    ensures BoundsOk(Effect(k, args, b, norm).value.1)
  {
    if k.IsMove() {
      assert Effect(k, args, b, norm) == MoveEffect(args, b, norm);
      assert FoldSteps(Move, AArgs(args), (b, b)).Success?;
      FoldKeepsBounds(Move, AArgs(args), (b, b));
    } else if k.Loops() {
      FoldKeepsBounds(k, AArgs(args), (b, b));
    } else {
      SettingKeepsBounds(k, args, b);
      assert SameBounds(Effect(k, args, b, norm).value.1, b);
    }
  }

  /** `a` tracks the same bounds as `b`. */
  predicate SameBounds(a: StateVal, b: StateVal) {
    a.x.min == b.x.min && a.x.max == b.x.max && a.y.min == b.y.min && a.y.max == b.y.max
    && a.z.min == b.z.min && a.z.max == b.z.max && a.e.min == b.e.min && a.e.max == b.e.max
    && a.minExy == b.minExy && a.maxExy == b.maxExy
  }

  /** A command that assigns fields without looping leaves the bounds as they were. */
  lemma SettingKeepsBounds(k: Kind, args: Args, b: StateVal)
    requires !k.Loops()
    requires SettingEffect(k, args, b).Success?
    ensures SameBounds(SettingEffect(k, args, b).value, b)
  {
    if k.StoresParameter() {
      if k.Scales() {
        ScaledKeepsBounds(k, args, b);
      } else {
        StoredKeepsBounds(k, args, b);
      }
    } else {
      FixedKeepsBounds(k, b);
    }
  }

  lemma ScaledKeepsBounds(k: Kind, args: Args, b: StateVal)
    requires k.Scales() && ScaledEffect(k, args, b).Success?
    ensures SameBounds(ScaledEffect(k, args, b).value, b)
  {
  }

  lemma StoredKeepsBounds(k: Kind, args: Args, b: StateVal)
    requires k.StoresParameter() && !k.Scales() && StoredEffect(k, args, b).Success?
    ensures SameBounds(StoredEffect(k, args, b).value, b)
  {
  }

  lemma FixedKeepsBounds(k: Kind, b: StateVal)
    requires !k.Loops() && !k.StoresParameter()
    ensures SameBounds(FixedEffect(k, b), b)
  {
  }

  /** No parameter of `ps` names axis `id`. */
  predicate NoLetterFor(ps: Args, id: AxisId) {
    forall i :: 0 <= i < |ps| ==> AxisOfLetter(ps[i].0) != Some(id)
  }

  /** Parameter `i` of `ps` is the only one that names axis `id`. */
  predicate OnlyLetterFor(ps: Args, id: AxisId, i: int) {
    0 <= i < |ps| && AxisOfLetter(ps[i].0) == Some(id)
    && forall j :: 0 <= j < |ps| && j != i ==> AxisOfLetter(ps[j].0) != Some(id)
  }

  /** A step for another letter leaves axis `id` as it was. */
  lemma MoveStepOtherAxis(l: char, v: Arg, st: States, id: AxisId)
    requires MoveStep(l, v, st).Success?
    requires AxisOfLetter(l) != Some(id)
    ensures MoveStep(l, v, st).value.1.Axis(id) == st.1.Axis(id)
  {
  }

  /** The loop of a move leaves an axis that no parameter names as it was. */
  lemma {:induction false} FoldUntouchedAxis(ps: Args, st: States, id: AxisId)
    requires FoldSteps(Move, ps, st).Success?
    requires NoLetterFor(ps, id)
    ensures FoldSteps(Move, ps, st).value.1.Axis(id) == st.1.Axis(id)
  {
    if ps != [] {
      MoveStepOtherAxis(ps[0].0, ps[0].1, st, id);
      var st' := MoveStep(ps[0].0, ps[0].1, st).value;
      assert NoLetterFor(ps[1..], id) by {
        forall i | 0 <= i < |ps[1..]| ensures AxisOfLetter(ps[1..][i].0) != Some(id) {
          assert ps[1..][i] == ps[i + 1];
        }
      }
      FoldUntouchedAxis(ps[1..], st', id);
    }
  }

  /** The loop of a move moves an axis that exactly one parameter names by that parameter's value. */
  lemma {:induction false} FoldMovedAxis(ps: Args, st: States, id: AxisId, i: int)
    requires FoldSteps(Move, ps, st).Success?
    requires OnlyLetterFor(ps, id, i)
    ensures ps[i].1.Num?
    ensures st.1.Axis(id).IsRelative() ==> st.1.Axis(id).position.Some?
    ensures FoldSteps(Move, ps, st).value.1.Axis(id) == Moved(st.1.Axis(id), ps[i].1.value)
  {
    var st' := MoveStep(ps[0].0, ps[0].1, st).value;
    if i == 0 {
      assert NoLetterFor(ps[1..], id) by {
        forall j | 0 <= j < |ps[1..]| ensures AxisOfLetter(ps[1..][j].0) != Some(id) {
          assert ps[1..][j] == ps[j + 1];
        }
      }
      FoldUntouchedAxis(ps[1..], st', id);
    } else {
      MoveStepOtherAxis(ps[0].0, ps[0].1, st, id);
      assert OnlyLetterFor(ps[1..], id, i - 1) by {
        forall j | 0 <= j < |ps[1..]| && j != i - 1 ensures AxisOfLetter(ps[1..][j].0) != Some(id) {
          assert ps[1..][j] == ps[j + 1];
        }
      }
      FoldMovedAxis(ps[1..], st', id, i - 1);
    }
  }

  /**
   * The loop of a move sets the feedrate of both states to F/60 when it has an F
   * parameter, and leaves the state before and the feedrate after alone otherwise.
   */
  lemma {:induction false} FoldFeedrate(ps: Args, st: States)
    requires FoldSteps(Move, ps, st).Success?
    requires UniqueLetters(ps)
    ensures 'F' !in Letters(ps) ==>
      FoldSteps(Move, ps, st).value.0 == st.0 && FoldSteps(Move, ps, st).value.1.feedrate == st.1.feedrate
    ensures Lookup(ps, 'F').Some? ==>
      Lookup(ps, 'F').value.Num?
      && FoldSteps(Move, ps, st).value.0.feedrate == Some(Lookup(ps, 'F').value.value / 60.0)
      && FoldSteps(Move, ps, st).value.1.feedrate == Some(Lookup(ps, 'F').value.value / 60.0)
  {
    if ps != [] {
      var st' := MoveStep(ps[0].0, ps[0].1, st).value;
      assert Letters(ps) == {ps[0].0} + Letters(ps[1..]);
      FoldFeedrate(ps[1..], st');
    }
  }

  /** The two states `Move` yields from `b`, when it raises nothing. */
  function MoveResult(args: Args, b: StateVal, norm: seq<real> -> real): States
    requires Effect(Move, args, b, norm).Success?
  {
    Effect(Move, args, b, norm).value
  }

  /** How `Move` leaves the two states: the loop's result, then the time and E-per-XY bookkeeping. */
  lemma MoveUnfold(args: Args, b: StateVal, norm: seq<real> -> real)
    requires Effect(Move, args, b, norm).Success?
    ensures FoldSteps(Move, AArgs(args), (b, b)).Success?
    ensures var st := FoldSteps(Move, AArgs(args), (b, b)).value;
      MoveTail(st.0, st.1, norm).Success?
      && MoveResult(args, b, norm) == (st.0, MoveTail(st.0, st.1, norm).value)
  {
  }

  /**
   * `Move` with `F` = v sets the feedrate of both the state before and the state
   * after to v/60 (mm/s); without `F` it leaves the state before as it was.
   */
  lemma MoveFeedrate(args: Args, b: StateVal, norm: seq<real> -> real)
    requires UniqueLetters(args)
    requires Effect(Move, args, b, norm).Success?
    ensures Lookup(args, 'F').Some? ==>
      Lookup(args, 'F').value.Num?
      && MoveResult(args, b, norm).0.feedrate == Some(Lookup(args, 'F').value.value / 60.0)
      && MoveResult(args, b, norm).1.feedrate == Some(Lookup(args, 'F').value.value / 60.0)
    ensures Lookup(args, 'F').None? ==>
      MoveResult(args, b, norm).0 == b && MoveResult(args, b, norm).1.feedrate == b.feedrate
  {
    LoopFeedrate(args, b, norm);
    if Lookup(args, 'F').Some? {
      LoopSetsFeedrate(args, AArgs(args), (b, b));
    } else {
      LoopKeepsFeedrate(args, AArgs(args), (b, b));
    }
  }

  /** The loop over parameters that share `args`'s `F` sets both feedrates from it. */
  lemma LoopSetsFeedrate(args: Args, ps: Args, st: States)
    requires FoldSteps(Move, ps, st).Success?
    requires UniqueLetters(ps) && Lookup(ps, 'F') == Lookup(args, 'F') && Lookup(args, 'F').Some?
    ensures Lookup(args, 'F').value.Num?
    ensures FoldSteps(Move, ps, st).value.0.feedrate == Some(Lookup(args, 'F').value.value / 60.0)
    ensures FoldSteps(Move, ps, st).value.1.feedrate == Some(Lookup(args, 'F').value.value / 60.0)
  {
    FoldFeedrate(ps, st);
  }

  /** The loop over parameters without `F` keeps the state before and the feedrate after. */
  lemma LoopKeepsFeedrate(args: Args, ps: Args, st: States)
    requires FoldSteps(Move, ps, st).Success?
    requires UniqueLetters(ps) && Lookup(ps, 'F') == Lookup(args, 'F') && Lookup(args, 'F').None?
    ensures FoldSteps(Move, ps, st).value.0 == st.0
    ensures FoldSteps(Move, ps, st).value.1.feedrate == st.1.feedrate
  {
    FoldFeedrate(ps, st);
  }

  /** A move leaves the state before and the feedrate after as its loop does. */
  lemma LoopFeedrate(args: Args, b: StateVal, norm: seq<real> -> real)
    requires Effect(Move, args, b, norm).Success?
    ensures FoldSteps(Move, AArgs(args), (b, b)).Success?
    ensures MoveResult(args, b, norm).0 == FoldSteps(Move, AArgs(args), (b, b)).value.0
    ensures MoveResult(args, b, norm).1.feedrate == FoldSteps(Move, AArgs(args), (b, b)).value.1.feedrate
  {
    MoveUnfold(args, b, norm);
    var st := FoldSteps(Move, AArgs(args), (b, b)).value;
    TailFeedrate(st.0, st.1, norm);
  }

  /** The bookkeeping after a move's loop leaves the feedrate alone. */
  lemma TailFeedrate(b: StateVal, a0: StateVal, norm: seq<real> -> real)
    requires MoveTail(b, a0, norm).Success?
    ensures MoveTail(b, a0, norm).value.feedrate == a0.feedrate
  {
  }

  /** An axis that no parameter of a `Move` names keeps its value. */
  lemma MoveUntouchedAxis(args: Args, b: StateVal, norm: seq<real> -> real, id: AxisId)
    requires Effect(Move, args, b, norm).Success?
    requires NoLetterFor(AArgs(args), id)
    ensures MoveResult(args, b, norm).1.Axis(id) == b.Axis(id)
  {
    MoveUnfold(args, b, norm);
    FoldUntouchedAxis(AArgs(args), (b, b), id);
  }

  /**
   * An axis that exactly one parameter of a `Move` names is moved by that value: in
   * relative mode from its known position, otherwise to offset + value.
   */
  lemma MoveNamedAxis(args: Args, b: StateVal, norm: seq<real> -> real, id: AxisId, i: int)
    requires Effect(Move, args, b, norm).Success?
    requires OnlyLetterFor(AArgs(args), id, i)
    ensures AArgs(args)[i].1.Num?
    ensures b.Axis(id).IsRelative() ==> b.Axis(id).position.Some?
    ensures MoveResult(args, b, norm).1.Axis(id) == Moved(b.Axis(id), AArgs(args)[i].1.value)
  {
    MoveUnfold(args, b, norm);
    FoldMovedAxis(AArgs(args), (b, b), id, i);
  }

  /**
   * `t2` is `t1` advanced by a duration whose product with the feedrate `fr` is the
   * distance `dist`; an infinite time stays infinite.
   */
  predicate Advanced(t1: Time, t2: Time, dist: real, fr: real) {
    if t1.Infinite? then t2.Infinite? else t2.Finite? && (t2.secs - t1.secs) * fr == dist
  }

  /**
   * The time of a move from `b` to `a`, starting at time `t`: unchanged when the
   * feedrate is unknown; infinite when the head travels at feedrate 0; otherwise
   * advanced by `head_dist / feedrate`, or by `head_dist_e / feedrate` when the
   * head does not travel.
   */
  predicate TimedMove(b: StateVal, a: StateVal, t: Time, norm: seq<real> -> real) {
    (b.feedrate.None? ==> a.time == t)
    && (b.feedrate.Some? ==>
          HeadDist(b, a, norm).Some?
          && (HeadDist(b, a, norm).value > 0.0 && b.feedrate.value == 0.0 ==> a.time == Infinite)
          && (HeadDist(b, a, norm).value > 0.0 && b.feedrate.value != 0.0 ==>
                Advanced(t, a.time, HeadDist(b, a, norm).value, b.feedrate.value))
          && (HeadDist(b, a, norm).value <= 0.0 ==>
                b.feedrate.value != 0.0 && HeadDistE(b, a).Some?
                && Advanced(t, a.time, HeadDistE(b, a).value, b.feedrate.value)))
  }

  /**
   * The time of a move, with the displacements measured between the two resulting
   * states and the feedrate of the state before as the move leaves it.
   */
  lemma MoveElapsedTime(args: Args, b: StateVal, norm: seq<real> -> real)
    requires Effect(Move, args, b, norm).Success?
    ensures TimedMove(MoveResult(args, b, norm).0, MoveResult(args, b, norm).1, b.time, norm)
  {
    MoveUnfold(args, b, norm);
    FoldKeepsBounds(Move, AArgs(args), (b, b));
    var st := FoldSteps(Move, AArgs(args), (b, b)).value;
    TailElapsedTime(st.0, st.1, b.time, norm);
  }

  /** The time `MoveTail` adds to the loop's result `a0`, both at time `t`, measured on its own result. */
  lemma TailElapsedTime(b: StateVal, a0: StateVal, t: Time, norm: seq<real> -> real)
    requires MoveTail(b, a0, norm).Success?
    requires b.time == t && a0.time == t
    ensures TimedMove(b, MoveTail(b, a0, norm).value, t, norm)
  {
    var a := MoveTail(b, a0, norm).value;
    assert a.x == a0.x && a.y == a0.y && a.z == a0.z && a.e == a0.e;
    assert HeadDist(b, a, norm) == HeadDist(b, a0, norm) && HeadDistE(b, a) == HeadDistE(b, a0);
  }

  /**
   * A flat move (no Z displacement) that travels in X/Y and extrudes widens the
   * tracked E-per-XY range to include its own ratio, so afterwards min <= ratio <= max.
   */
  lemma MoveExtrusionRange(args: Args, b: StateVal, norm: seq<real> -> real)
    requires Effect(Move, args, b, norm).Success?
    ensures var (b', a) := MoveResult(args, b, norm);
      ExtrusionRatio(b', a, norm).Some? ==>
        a.minExy.Some? && a.maxExy.Some?
        && a.minExy.value <= ExtrusionRatio(b', a, norm).value <= a.maxExy.value
  {
    MoveUnfold(args, b, norm);
    var st := FoldSteps(Move, AArgs(args), (b, b)).value;
    TailExtrusionRange(st.0, st.1, norm);
  }

  /** `MoveTail` widens the E-per-XY range to the ratio measured on its own result. */
  lemma TailExtrusionRange(b: StateVal, a0: StateVal, norm: seq<real> -> real)
    requires MoveTail(b, a0, norm).Success?
    ensures var a := MoveTail(b, a0, norm).value;
      ExtrusionRatio(b, a, norm).Some? ==>
        a.minExy.Some? && a.maxExy.Some?
        && a.minExy.value <= ExtrusionRatio(b, a, norm).value <= a.maxExy.value
  {
    var a := MoveTail(b, a0, norm).value;
    assert a.x == a0.x && a.y == a0.y && a.z == a0.z && a.e == a0.e;
    assert ExtrusionRatio(b, a, norm) == ExtrusionRatio(b, a0, norm);
  }

  /** `NoOp`, `ReportTemps` and the ignored `BedLevelingState` leave the state as it was. */
  lemma NoEffect(k: Kind, args: Args, b: StateVal, norm: seq<real> -> real)
    requires k.IsNoOp() || k == BedLevelingState
    ensures Effect(k, args, b, norm) == Success((b, b))
  {
  }

  /**
   * `Home` and `AutoBedLevel` put the head at X = Y = Z = 0, `Park` makes its position
   * unknown; E and every other field keep their values.
   */
  lemma HeadPlacement(k: Kind, args: Args, b: StateVal, norm: seq<real> -> real)
    requires k in {Home, AutoBedLevel, Park}
    ensures Effect(k, args, b, norm).Success?
    ensures var (b', a) := Effect(k, args, b, norm).value;
      b' == b
      && Positions(a)[..3] == (if k == Park then [None, None, None] else [Some(0.0), Some(0.0), Some(0.0)])
      && a.e == b.e
      && a.x.(position := b.x.position) == b.x && a.y.(position := b.y.position) == b.y
      && a.z.(position := b.z.position) == b.z
      && a.(x := b.x, y := b.y, z := b.z) == b
  {
  }

  /**
   * `Relative` puts all four axes in relative mode, and so does `Absolute` as
   * written; `AbsoluteE` puts only E in absolute mode.  Nothing else changes.
   */
  lemma ModeChanges(k: Kind, args: Args, b: StateVal, norm: seq<real> -> real)
    requires k in {Relative, Absolute, AbsoluteE}
    ensures Effect(k, args, b, norm).Success?
    ensures var (b', a) := Effect(k, args, b, norm).value;
      b' == b
      && (forall id :: a.Axis(id).(relative := b.Axis(id).relative) == b.Axis(id))
      && (k in {Relative, Absolute} ==> forall id :: a.Axis(id).IsRelative())
      && (k == AbsoluteE ==> a.e.relative == Some(false) && a.x == b.x && a.y == b.y && a.z == b.z)
      && a.(x := b.x, y := b.y, z := b.z, e := b.e) == b
  {
    var a := Effect(k, args, b, norm).value.1;
    forall id ensures a.Axis(id).(relative := b.Axis(id).relative) == b.Axis(id) {
      match id
      case X =>
      case Y =>
      case Z =>
      case E =>
    }
  }

  /** `DisableSteppers` clears both the steppers and the homed flag, and nothing else. */
  lemma SteppersOff(args: Args, b: StateVal, norm: seq<real> -> real)
    ensures Effect(DisableSteppers, args, b, norm) == Success((b, b.(steppers := false, homed := false)))
    ensures !Effect(DisableSteppers, args, b, norm).value.1.steppers && !Effect(DisableSteppers, args, b, norm).value.1.homed
  {
  }

  /**
   * `SetFeedrateMult` and `SetFlowMult` store S/100 and `SetFan` stores S/255; each
   * raises when S is missing or a flag.  `FanOff` stores 0.  Nothing else changes.
   */
  lemma ScaledSettings(k: Kind, args: Args, b: StateVal, norm: seq<real> -> real)
    requires k in {SetFeedrateMult, SetFlowMult, SetFan, FanOff}
    ensures Effect(k, args, b, norm).Success? <==>
      k == FanOff || (Lookup(args, 'S').Some? && Lookup(args, 'S').value.Num?)
    ensures Effect(k, args, b, norm).Success? ==>
      var (b', a) := Effect(k, args, b, norm).value;
      b' == b
      && (k == SetFeedrateMult ==> a.feedrateMult * 100.0 == Lookup(args, 'S').value.value && a == b.(feedrateMult := a.feedrateMult))
      && (k == SetFlowMult ==> a.flowrateMult * 100.0 == Lookup(args, 'S').value.value && a == b.(flowrateMult := a.flowrateMult))
      && (k == SetFan ==> a.fanSpeed.Some? && a.fanSpeed.value * 255.0 == Lookup(args, 'S').value.value && a == b.(fanSpeed := a.fanSpeed))
      && (k == FanOff ==> a == b.(fanSpeed := Some(0.0)))
  {
  }

  /**
   * The temperature commands store S as given (the head for `M104`/`M109`, the bed for
   * `M140`/`M190`) and `LinearAdvanceFactor` stores K; a missing parameter raises.
   */
  lemma StoredSettings(k: Kind, args: Args, b: StateVal, norm: seq<real> -> real)
    requires k in {SetHeadTemp, PreheatHeadTemp, SetBedTemp, PreheatBedTemp, LinearAdvanceFactor}
    ensures var l := if k == LinearAdvanceFactor then 'K' else 'S';
      Effect(k, args, b, norm).Success? <==> Lookup(args, l).Some?
    ensures Lookup(args, if k == LinearAdvanceFactor then 'K' else 'S').None? ==>
      Effect(k, args, b, norm) == Failure(MissingArg(if k == LinearAdvanceFactor then 'K' else 'S'))
    ensures Effect(k, args, b, norm).Success? ==>
      var (b', a) := Effect(k, args, b, norm).value;
      b' == b
      && (k in {SetHeadTemp, PreheatHeadTemp} ==> a == b.(headTemp := Lookup(args, 'S')))
      && (k in {SetBedTemp, PreheatBedTemp} ==> a == b.(bedTemp := Lookup(args, 'S')))
      && (k == LinearAdvanceFactor ==> a == b.(laK := Lookup(args, 'K')))
  {
  }

  /** The value of letter `l` if the parameters have it, else `dflt`. */
  function Pick(ps: Args, l: char, dflt: Option<Arg>): (r: Option<Arg>)
    ensures Lookup(ps, l).Some? ==> r == Lookup(ps, l)
    ensures Lookup(ps, l).None? ==> r == dflt
  {
    if Lookup(ps, l).Some? then Lookup(ps, l) else dflt
  }

  /** The accelerations a state holds: print, retract, travel. */
  function Accels(s: StateVal): (Option<Arg>, Option<Arg>, Option<Arg>) {
    (s.printAccel, s.retractAccel, s.travelAccel)
  }

  lemma {:induction false} FoldAccelType(ps: Args, st: States)
    requires UniqueLetters(ps)
    ensures FoldSteps(SetTypeAccel, ps, st).Success? <==> Letters(ps) <= {'S', 'P', 'R', 'T'}
    ensures FoldSteps(SetTypeAccel, ps, st).Success? ==>
      var r := FoldSteps(SetTypeAccel, ps, st).value;
      r.0 == st.0
      && r.1.(printAccel := st.1.printAccel, retractAccel := st.1.retractAccel, travelAccel := st.1.travelAccel) == st.1
      && ('S' !in Letters(ps) ==>
            Accels(r.1) == (Pick(ps, 'P', st.1.printAccel), Pick(ps, 'R', st.1.retractAccel), Pick(ps, 'T', st.1.travelAccel)))
      && (Letters(ps) == {'S'} ==> Accels(r.1) == (Lookup(ps, 'S'), Lookup(ps, 'S'), Lookup(ps, 'S')))
  {
    if ps != [] {
      assert Letters(ps) == {ps[0].0} + Letters(ps[1..]);
      var step := AccelTypeStep(ps[0].0, ps[0].1, st.1);
      if step.Success? {
        FoldAccelType(ps[1..], (st.0, step.value));
      }
    }
  }

  /**
   * The loop of `SetTypeAccel` leaves each acceleration at the value of the last
   * parameter that sets it: S or its own letter.
   */
  lemma {:induction false} FoldAccelLast(ps: Args, st: States)
    requires FoldSteps(SetTypeAccel, ps, st).Success?
    ensures Accels(FoldSteps(SetTypeAccel, ps, st).value.1) ==
      (LastIn(ps, {'S', 'P'}, st.1.printAccel), LastIn(ps, {'S', 'R'}, st.1.retractAccel),
       LastIn(ps, {'S', 'T'}, st.1.travelAccel))
  {
    if ps != [] {
      var a := AccelTypeStep(ps[0].0, ps[0].1, st.1).value;
      FoldAccelLast(ps[1..], (st.0, a));
      LastInFront(ps, {'S', 'P'}, st.1.printAccel);
      LastInFront(ps, {'S', 'R'}, st.1.retractAccel);
      LastInFront(ps, {'S', 'T'}, st.1.travelAccel);
    }
  }

  /**
   * `SetTypeAccel` raises unless every parameter is S, P, R or T.  Without S, P, R
   * and T each set one acceleration and the others keep their values; S alone sets
   * all three.  Nothing but the accelerations changes.
   */
  lemma AccelTypes(args: Args, b: StateVal, norm: seq<real> -> real)
    requires UniqueLetters(args)
    ensures Effect(SetTypeAccel, args, b, norm).Success? <==> Letters(args) - {'G', 'M'} <= {'S', 'P', 'R', 'T'}
    ensures Effect(SetTypeAccel, args, b, norm).Success? ==>
      var (b', a) := Effect(SetTypeAccel, args, b, norm).value;
      b' == b
      && a.(printAccel := b.printAccel, retractAccel := b.retractAccel, travelAccel := b.travelAccel) == b
      && ('S' !in Letters(args) ==>
            Accels(a) == (Pick(args, 'P', b.printAccel), Pick(args, 'R', b.retractAccel), Pick(args, 'T', b.travelAccel)))
      && (Letters(args) - {'G', 'M'} == {'S'} ==> Accels(a) == (Lookup(args, 'S'), Lookup(args, 'S'), Lookup(args, 'S')))
  {
    FoldAccelType(AArgs(args), (b, b));
  }

  /**
   * In any order of S, P, R and T, each acceleration `SetTypeAccel` leaves holds
   * the value of the last parameter that sets it (S or its own letter), so
   * `M204 S100 P200` and `M204 P200 S100` differ in the print acceleration.
   */
  lemma AccelTypesInOrder(args: Args, b: StateVal, norm: seq<real> -> real)
    requires Effect(SetTypeAccel, args, b, norm).Success?
    ensures Accels(Effect(SetTypeAccel, args, b, norm).value.1) ==
      (LastIn(args, {'S', 'P'}, b.printAccel), LastIn(args, {'S', 'R'}, b.retractAccel),
       LastIn(args, {'S', 'T'}, b.travelAccel))
  {
    FoldAccelLast(AArgs(args), (b, b));
    LastInAArgs(args, {'S', 'P'}, b.printAccel);
    LastInAArgs(args, {'S', 'R'}, b.retractAccel);
    LastInAArgs(args, {'S', 'T'}, b.travelAccel);
  }

  /**
   * `G92 X v` followed by an absolute `G0 X v` (no feedrate known, no other
   * parameters) brings X back to the position it had before `G92`, or to 0 when that
   * position was unknown.
   */
  lemma OffsetThenMoveReturns(b: StateVal, v: real, norm: seq<real> -> real)
    requires !b.x.IsRelative() && b.feedrate.None?
    ensures Effect(SetOffset, [('X', Num(v))], b, norm).Success?
    ensures var a := Effect(SetOffset, [('X', Num(v))], b, norm).value.1;
      Effect(Move, [('X', Num(v))], a, norm).Success?
      && Effect(Move, [('X', Num(v))], a, norm).value.1.x.position
         == Some(if b.x.position.Some? then b.x.position.value else 0.0)
  {
    var ps: Args := [('X', Num(v))];
    assert AArgs(ps) == ps && ps[1..] == [];
    var a := b.(x := WithOffset(b.x, v));
    assert FoldSteps(SetOffset, ps, (b, b)) == Success((b, a));
    OffsetThenAbsoluteMove(b.x, v);
    assert FoldSteps(Move, ps, (a, a)) == Success((a, a.(x := Moved(a.x, v))));
  }

  /**
   * As written, a move after `G90` is relative: it fails while the position is
   * unknown and otherwise adds to the position, so `G28`, `G90`, `G1 X10`, `G1 X20`
   * ends at X = 30 rather than 20.
   */
  lemma AbsoluteAsWrittenMovesRelatively(b: StateVal, v: real, norm: seq<real> -> real)
    requires b.feedrate.None?
    ensures Effect(Absolute, [], b, norm).Success?
    ensures var a := Effect(Absolute, [], b, norm).value.1;
      var r := Effect(Move, [('X', Num(v))], a, norm);
      (r.Success? <==> b.x.position.Some?)
      && (r.Success? ==> r.value.1.x.position == Some(b.x.position.value + v))
  {
    var ps: Args := [('X', Num(v))];
    assert AArgs(ps) == ps && ps[1..] == [];
    var a := AllModes(b, true);
    if b.x.position.Some? {
      assert FoldSteps(Move, ps, (a, a)) == Success((a, a.(x := Moved(a.x, v))));
    } else {
      assert FoldSteps(Move, ps, (a, a)) == Failure(TypeMismatch);
    }
  }

  /** With the intended `G90`, a following move sets the position to offset plus the value. */
  lemma AbsoluteIntendedMovesAbsolutely(b: StateVal, v: real, norm: seq<real> -> real)
    requires b.feedrate.None?
    ensures var a := AbsoluteIntended(b).1;
      var r := Effect(Move, [('X', Num(v))], a, norm);
      r.Success? && r.value.1.x.position == Some(b.x.offset + v)
  {
    var ps: Args := [('X', Num(v))];
    assert AArgs(ps) == ps && ps[1..] == [];
    var a := AllModes(b, false);
    assert FoldSteps(Move, ps, (a, a)) == Success((a, a.(x := Moved(a.x, v))));
  }
}

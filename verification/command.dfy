/**
 * A parsed G-code command and its `evolve` step.  `ApplyStep`, `ApplyEffect` and
 * `Command.Evolve` change machine states in place, the way `Control.evolve` and
 * the `_evolve` methods do; each is proved to do what `Effect` specifies.
 */
module CommandModel {
  import opened Wrappers
  import opened MachineStates
  import opened CommandProps
  import opened CommandEffects

  /**
   * `a` is a copy of `b` made for one command: two distinct states whose axes are
   * distinct objects, so that writing to `a` leaves `b` alone.
   */
  ghost predicate Separate(b: MachineState, a: MachineState)
    reads b, a
  {
    b != a && a.Valid() && {a.x, a.y, a.z, a.e} !! {b.x, b.y, b.z, b.e}
  }

  /** Stores a limit in one axis, as `getattr(after, letter.lower()).jerk = value` and its siblings do. */
  method SetLimit(ax: Axis, which: Limit, v: Arg)
    modifies ax
    ensures ax.Value() == WithLimit(old(ax.Value()), which, v)
  {
    match which
    case JerkLimit => ax.jerk := Some(v);
    case AccelLimit => ax.accelLimit := Some(v);
    case SpeedLimit => ax.speedLimit := Some(v);
  }

  /** The axis object `getattr(state, letter.lower())` returns, with its value. */
  lemma AxisObjValue(a: MachineState, id: AxisId)
    ensures a.AxisObj(id).Value() == a.Snapshot().Axis(id)
  {
    match id
    case X =>
    case Y =>
    case Z =>
    case E =>
  }

  /** One iteration of `Move._evolve` for an axis letter: `getattr(after, letter.lower()).move(value)`. */
  method MoveArg(l: char, v: Arg, a: MachineState) returns (err: Option<EvolveError>)
    requires a.Valid() && l != 'F'
    modifies a.x, a.y, a.z, a.e
    ensures var r := MoveStep(l, v, (old(a.Snapshot()), old(a.Snapshot())));
      (r.Failure? ==> err == Some(r.error))
      && (r.Success? ==> err.None? && a.Snapshot() == r.value.1)
  {
    var id := AxisOfLetter(l);
    if id.None? {
      return Some(NoSuchAxis(l));
    }
    var ax := a.AxisObj(id.value);
    AxisObjValue(a, id.value);
    if v.Flag? || (ax.relative == Some(true) && ax.position.None?) {
      return Some(TypeMismatch);
    }
    ghost var before := a.Snapshot();
    ax.Move(v.value);
    assert a.Snapshot() == before.WithAxis(id.value, ax.Value()) by {
      match id.value
      case X =>
      case Y =>
      case Z =>
      case E =>
    }
    return None;
  }

  /** One iteration of `SetOffset._evolve`: `getattr(after, letter.lower()).set_offset(value)`. */
  method OffsetArg(l: char, v: Arg, a: MachineState) returns (err: Option<EvolveError>)
    requires a.Valid()
    modifies a.x, a.y, a.z, a.e
    ensures var r := OffsetStep(l, v, old(a.Snapshot()));
      (r.Failure? ==> err == Some(r.error))
      && (r.Success? ==> err.None? && a.Snapshot() == r.value)
  {
    var id := AxisOfLetter(l);
    if id.None? {
      return Some(NoSuchAxis(l));
    }
    var ax := a.AxisObj(id.value);
    AxisObjValue(a, id.value);
    if v.Flag? {
      return Some(TypeMismatch);
    }
    ghost var before := a.Snapshot();
    ax.SetOffset(v.value);
    assert a.Snapshot() == before.WithAxis(id.value, ax.Value()) by {
      match id.value
      case X =>
      case Y =>
      case Z =>
      case E =>
    }
    return None;
  }

  /** One iteration of `SetJerk`, `SetAxisAccel` or `SetAxisFeedrateLimit`. */
  method LimitArg(which: Limit, l: char, v: Arg, a: MachineState) returns (err: Option<EvolveError>)
    requires a.Valid()
    modifies a, a.x, a.y, a.z, a.e
    ensures a.Valid()
    ensures var r := LimitStep(which, l, v, old(a.Snapshot()));
      (r.Failure? ==> err == Some(r.error))
      && (r.Success? ==> err.None? && a.Snapshot() == r.value)
  {
    if which == AccelLimit && l == 'F' {
      a.frequencyLimit := Some(v);
      return None;
    }
    var id := AxisOfLetter(l);
    if id.None? {
      return Some(NoSuchAxis(l));
    }
    var ax := a.AxisObj(id.value);
    AxisObjValue(a, id.value);
    ghost var before := a.Snapshot();
    SetLimit(ax, which, v);
    assert a.Snapshot() == before.WithAxis(id.value, ax.Value()) by {
      match id.value
      case X =>
      case Y =>
      case Z =>
      case E =>
    }
    return None;
  }

  /** One iteration of `SetTypeAccel._evolve`. */
  method AccelStep(l: char, v: Arg, a: MachineState) returns (err: Option<EvolveError>)
    modifies a
    ensures var r := AccelTypeStep(l, v, old(a.Snapshot()));
      (r.Failure? ==> err == Some(r.error) && a.Snapshot() == old(a.Snapshot()))
      && (r.Success? ==> err.None? && a.Snapshot() == r.value)
  {
    if l == 'S' {
      a.printAccel, a.retractAccel, a.travelAccel := Some(v), Some(v), Some(v);
    } else if l == 'P' {
      a.printAccel := Some(v);
    } else if l == 'R' {
      a.retractAccel := Some(v);
    } else if l == 'T' {
      a.travelAccel := Some(v);
    } else {
      return Some(UnknownAccelType(l));
    }
    return None;
  }

  /** One iteration of `Move._evolve`'s loop: F sets the feedrate of both states, an axis letter moves that axis of `a`. */
  method ApplyMoveStep(l: char, v: Arg, b: MachineState, a: MachineState) returns (err: Option<EvolveError>)
    requires Separate(b, a)
    modifies a.x, a.y, a.z, a.e, a`feedrate, b`feedrate
    ensures Separate(b, a)
    ensures var r := MoveStep(l, v, (old(b.Snapshot()), old(a.Snapshot())));
      (r.Failure? ==> err == Some(r.error))
      && (r.Success? ==> err.None? && (b.Snapshot(), a.Snapshot()) == r.value)
  {
    if l == 'F' {
      if v.Flag? {
        return Some(TypeMismatch);
      }
      b.feedrate := Some(v.value / 60.0);
      a.feedrate := Some(v.value / 60.0);
      return None;
    }
    err := MoveArg(l, v, a);
  }

  /** One iteration of the loop of `SetOffset`, `SetTypeAccel` or a limit-setting command: only `a` changes. */
  method ApplyOtherStep(k: Kind, l: char, v: Arg, a: MachineState) returns (err: Option<EvolveError>)
    requires k.Loops() && !k.IsMove() && a.Valid()
    modifies a, a.x, a.y, a.z, a.e
    ensures a.Valid()
    ensures var r := ArgStep(k, l, v, (a.Snapshot(), old(a.Snapshot())));
      (r.Failure? ==> err == Some(r.error))
      && (r.Success? ==> err.None? && a.Snapshot() == r.value.1)
  {
    if k == SetOffset {
      err := OffsetArg(l, v, a);
    } else if k == SetTypeAccel {
      err := AccelStep(l, v, a);
    } else {
      var which := if k == SetJerk then JerkLimit else if k == SetAxisAccel then AccelLimit else SpeedLimit;
      err := LimitArg(which, l, v, a);
    }
  }

  /** One iteration of a looping `_evolve`, for parameter `l` = `v`. */
  method ApplyStep(k: Kind, l: char, v: Arg, b: MachineState, a: MachineState) returns (err: Option<EvolveError>)
    requires k.Loops() && Separate(b, a)
    modifies a, a.x, a.y, a.z, a.e, b`feedrate
    ensures Separate(b, a)
    ensures var r := ArgStep(k, l, v, (old(b.Snapshot()), old(a.Snapshot())));
      (r.Failure? ==> err == Some(r.error))
      && (r.Success? ==> err.None? && (b.Snapshot(), a.Snapshot()) == r.value)
  {
    if k.IsMove() {
      err := ApplyMoveStep(l, v, b, a);
    } else {
      err := ApplyOtherStep(k, l, v, a);
    }
  }

  /** The loop over `aargs` of a looping `_evolve`, stopping at the first exception. */
  method ApplySteps(k: Kind, ps: Args, b: MachineState, a: MachineState) returns (err: Option<EvolveError>)
    requires k.Loops() && Separate(b, a)
    modifies a, a.x, a.y, a.z, a.e, b`feedrate
    ensures Separate(b, a)
    ensures var r := FoldSteps(k, ps, (old(b.Snapshot()), old(a.Snapshot())));
      (r.Failure? ==> err == Some(r.error))
      && (r.Success? ==> err.None? && (b.Snapshot(), a.Snapshot()) == r.value)
  {
    var i := 0;
    while i < |ps|
      invariant 0 <= i <= |ps| && Separate(b, a)
      invariant FoldSteps(k, ps, (old(b.Snapshot()), old(a.Snapshot()))) == FoldSteps(k, ps[i..], (b.Snapshot(), a.Snapshot()))
    {
      assert ps[i..][1..] == ps[i + 1..];
      err := ApplyStep(k, ps[i].0, ps[i].1, b, a);
      if err.Some? {
        return;
      }
      i := i + 1;
    }
    return None;
  }

  /** The time a move takes, added to the state after when the feedrate is known. */
  method ApplyMoveTime(b: MachineState, a: MachineState, norm: seq<real> -> real) returns (err: Option<EvolveError>)
    requires Separate(b, a)
    modifies a`time
    ensures b.feedrate.Some? && MoveTime(b.Snapshot(), old(a.Snapshot()), norm).Failure? ==>
      err == Some(MoveTime(b.Snapshot(), old(a.Snapshot()), norm).error)
    ensures b.feedrate.None? ==> err.None? && a.Snapshot() == old(a.Snapshot())
    ensures b.feedrate.Some? && MoveTime(b.Snapshot(), old(a.Snapshot()), norm).Success? ==>
      err.None? && a.Snapshot() == old(a.Snapshot()).(time := AddTime(b.time, MoveTime(b.Snapshot(), old(a.Snapshot()), norm).value))
  {
    if b.feedrate.Some? {
      var dt := MoveTime(b.Snapshot(), a.Snapshot(), norm);
      if dt.Failure? {
        return Some(dt.error);
      }
      a.time := AddTime(b.time, dt.value);
    }
    return None;
  }

  /** Widens the E-per-XY range of `a` to include `q`. */
  method WidenExtrusionRange(a: MachineState, q: real)
    modifies a`minExy, a`maxExy
    ensures a.Snapshot() == old(a.Snapshot()).(minExy := Lower(old(a.minExy), q), maxExy := Raise(old(a.maxExy), q))
  {
    if a.minExy.None? || a.minExy.value > q {
      a.minExy := Some(q);
    }
    if a.maxExy.None? || a.maxExy.value < q {
      a.maxExy := Some(q);
    }
  }

  /** What `Move._evolve` does after its loop: the time, then the E-per-XY bounds. */
  method ApplyMoveTail(b: MachineState, a: MachineState, norm: seq<real> -> real) returns (err: Option<EvolveError>)
    requires Separate(b, a)
    modifies a`time, a`minExy, a`maxExy
    ensures var r := MoveTail(b.Snapshot(), old(a.Snapshot()), norm);
      (r.Failure? ==> err == Some(r.error))
      && (r.Success? ==> err.None? && a.Snapshot() == r.value)
  {
    var q := ExtrusionRatio(b.Snapshot(), a.Snapshot(), norm);
    err := ApplyMoveTime(b, a, norm);
    if err.Some? {
      return;
    }
    if q.Some? {
      WidenExtrusionRange(a, q.value);
    }
  }

  /** A parameter divided by `d`, as `self.S / d`; the exception it raises otherwise. */
  method DividedArg(args: Args, l: char, d: real) returns (r: Result<real, EvolveError>)
    requires d != 0.0
    ensures r == ArgDivided(args, l, d)
  {
    var v := Lookup(args, l);
    if v.None? {
      return Failure(MissingArg(l));
    }
    if v.value.Flag? {
      return Failure(TypeMismatch);
    }
    return Success(v.value.value / d);
  }

  /**
   * `_evolve` of a command of kind `k` on the copy `a` of the state `b`: the effect
   * `Effect` specifies, or the exception it raises.
   */
  method ApplyEffect(k: Kind, args: Args, b: MachineState, a: MachineState, norm: seq<real> -> real)
    returns (err: Option<EvolveError>)
    requires Separate(b, a) && a.Snapshot() == b.Snapshot()
    modifies a, a.x, a.y, a.z, a.e, b`feedrate
    ensures Separate(b, a)
    ensures var r := Effect(k, args, old(b.Snapshot()), norm);
      (r.Failure? ==> err == Some(r.error))
      && (r.Success? ==> err.None? && (b.Snapshot(), a.Snapshot()) == r.value)
  {
    if k.IsMove() {
      err := ApplyMove(args, b, a, norm);
    } else if k.Loops() {
      err := ApplySteps(k, AArgs(args), b, a);
    } else {
      err := ApplySetting(k, args, a);
    }
  }

  /** `_evolve` of a command that assigns fields of the state after without looping. */
  method ApplySetting(k: Kind, args: Args, a: MachineState) returns (err: Option<EvolveError>)
    requires !k.Loops() && a.Valid()
    modifies a, a.x, a.y, a.z, a.e
    ensures a.Valid()
    ensures var r := SettingEffect(k, args, old(a.Snapshot()));
      (r.Failure? ==> err == Some(r.error))
      && (r.Success? ==> err.None? && a.Snapshot() == r.value)
  {
    if k.StoresParameter() {
      err := ApplyParameter(k, args, a);
    } else {
      ApplyFixed(k, a);
      err := None;
    }
  }

  /** The commands that store a parameter, as given or scaled. */
  method ApplyParameter(k: Kind, args: Args, a: MachineState) returns (err: Option<EvolveError>)
    requires k.StoresParameter()
    modifies a
    ensures var r := ParameterEffect(k, args, old(a.Snapshot()));
      (r.Failure? ==> err == Some(r.error))
      && (r.Success? ==> err.None? && a.Snapshot() == r.value)
  {
    if k.Scales() {
      err := ApplyScaled(k, args, a);
    } else {
      err := ApplyStored(k, args, a);
    }
  }

  /** `SetFeedrateMult`, `SetFlowMult`, `SetFan`: S divided by 100 or 255. */
  method ApplyScaled(k: Kind, args: Args, a: MachineState) returns (err: Option<EvolveError>)
    requires k.Scales()
    modifies a
    ensures var r := ScaledEffect(k, args, old(a.Snapshot()));
      (r.Failure? ==> err == Some(r.error))
      && (r.Success? ==> err.None? && a.Snapshot() == r.value)
  {
    var q := DividedArg(args, 'S', if k == SetFan then 255.0 else 100.0);
    if q.Failure? {
      return Some(q.error);
    }
    if k == SetFeedrateMult {
      a.feedrateMult := q.value;
    } else if k == SetFlowMult {
      a.flowrateMult := q.value;
    } else {
      a.fanSpeed := Some(q.value);
    }
    return None;
  }

  /** The temperature commands and `LinearAdvanceFactor`: S or K stored as given. */
  method ApplyStored(k: Kind, args: Args, a: MachineState) returns (err: Option<EvolveError>)
    requires k.StoresParameter() && !k.Scales()
    modifies a
    ensures var r := StoredEffect(k, args, old(a.Snapshot()));
      (r.Failure? ==> err == Some(r.error))
      && (r.Success? ==> err.None? && a.Snapshot() == r.value)
  {
    var l := if k == LinearAdvanceFactor then 'K' else 'S';
    var v := Lookup(args, l);
    if v.None? {
      return Some(MissingArg(l));
    }
    if k.SetHeadTemp? || k.PreheatHeadTemp? {
      a.headTemp := v;
    } else if k == LinearAdvanceFactor {
      a.laK := v;
    } else {
      a.bedTemp := v;
    }
    return None;
  }

  /** The commands that assign fixed values: fan off, modes, head placement, steppers. */
  method ApplyFixed(k: Kind, a: MachineState)
    requires !k.Loops() && !k.StoresParameter() && a.Valid()
    modifies a, a.x, a.y, a.z, a.e
    ensures a.Valid()
    ensures a.Snapshot() == FixedEffect(k, old(a.Snapshot()))
  {
    if k.SetsModes() {
      ApplyModes(k, a);
    } else if k.PlacesHead() {
      ApplyPlacement(k, a);
    } else if k.FanOff? {
      a.fanSpeed := Some(0.0);
    } else if k.DisableSteppers? {
      a.steppers, a.homed := false, false;
    }
  }

  /** `AbsoluteE`, `Relative` and `Absolute` (as written: every axis relative). */
  method ApplyModes(k: Kind, a: MachineState)
    requires k.SetsModes() && a.Valid()
    modifies a.x, a.y, a.z, a.e
    ensures a.Snapshot() == FixedEffect(k, old(a.Snapshot()))
  {
    if k == AbsoluteE {
      a.e.relative := Some(false);
    } else {
      a.x.relative, a.y.relative, a.z.relative, a.e.relative := Some(true), Some(true), Some(true), Some(true);
    }
  }

  /** `Home` and `AutoBedLevel` put the head at 0, `Park` makes its position unknown. */
  method ApplyPlacement(k: Kind, a: MachineState)
    requires k.PlacesHead() && a.Valid()
    modifies a.x, a.y, a.z
    ensures a.Snapshot() == FixedEffect(k, old(a.Snapshot()))
  {
    var p := if k == Park then None else Some(0.0);
    a.x.position, a.y.position, a.z.position := p, p, p;
  }

  /** `Move._evolve`: the loop over `aargs`, then the time and E-per-XY bookkeeping. */
  method ApplyMove(args: Args, b: MachineState, a: MachineState, norm: seq<real> -> real) returns (err: Option<EvolveError>)
    requires Separate(b, a) && a.Snapshot() == b.Snapshot()
    modifies a, a.x, a.y, a.z, a.e, b`feedrate
    ensures Separate(b, a)
    ensures var r := MoveEffect(args, old(b.Snapshot()), norm);
      (r.Failure? ==> err == Some(r.error))
      && (r.Success? ==> err.None? && (b.Snapshot(), a.Snapshot()) == r.value)
  {
    err := ApplySteps(Move, AArgs(args), b, a);
    if err.None? {
      err := ApplyMoveTail(b, a, norm);
    }
  }

  /**
   * One command of a script: its class (`kind`), its line of G-code, its letter
   * parameters, its comment, the states before and after it once evolved, and its
   * original and current line numbers.
   */
  class Command {
    const kind: Kind
    const gCode: string
    const args: Args
    const comment: Option<string>
    var before: MachineState?
    var after: MachineState?
    var oln: Option<nat>
    var ln: Option<nat>

    /** `Command(g_code, args, comment)`; a command never carries both G and M. */
    constructor (kind: Kind, gCode: string, args: Args, comment: Option<string>)
      requires UniqueLetters(args)
      requires !('G' in Letters(args) && 'M' in Letters(args))
      ensures this.kind == kind && this.gCode == gCode && this.args == args && this.comment == comment
      ensures before == null && after == null && oln.None? && ln.None?
    {
      this.kind := kind;
      this.gCode := gCode;
      this.args := args;
      this.comment := comment;
      before, after := null, null;
      oln, ln := None, None;
    }

    /** `copy`: a new command of the same class, line, parameters and comment, not yet evolved or numbered. */
    method Copy() returns (c: Command)
      requires UniqueLetters(args)
      requires !('G' in Letters(args) && 'M' in Letters(args))
      ensures fresh(c)
      ensures c.kind == kind && c.gCode == gCode && c.args == args && c.comment == comment
      ensures c.before == null && c.after == null && c.oln.None? && c.ln.None?
    {
      c := new Command(kind, gCode, args, comment);
    }

    /**
     * `evolve(st)`.  A `NoOp` (or `ReportTemps`) takes `st` itself as both its
     * before and after state.  Any other command takes `st` as its before state and
     * applies its effect to a fresh copy, its after state; a `Move` with `F` also
     * writes the feedrate into `st`.
     */
    method Evolve(st: MachineState, norm: seq<real> -> real) returns (r: Result<MachineState, EvolveError>)
      requires st.Valid()
      modifies this`before, this`after, st`feedrate
      ensures before == st
      ensures kind.IsNoOp() ==> r == Success(st) && after == st && st.Snapshot() == old(st.Snapshot())
      ensures !kind.IsNoOp() ==>
        after != null && fresh(after) && fresh(after.x) && fresh(after.y) && fresh(after.z) && fresh(after.e)
        && after.Valid() && (r.Success? ==> r.value == after)
      ensures var e := Effect(kind, args, old(st.Snapshot()), norm);
        (e.Failure? ==> r == Failure(e.error))
        && (e.Success? ==> r.Success? && (st.Snapshot(), r.value.Snapshot()) == e.value)
    {
      before := st;
      if kind.IsNoOp() {
        NoOpEffect(kind, args, st.Snapshot(), norm);
        after := st;
        return Success(st);
      }
      var a := new MachineState.Copy(st);
      after := a;
      var err := ApplyEffect(kind, args, st, a, norm);
      if err.Some? {
        return Failure(err.value);
      }
      return Success(a);
    }
  }
}

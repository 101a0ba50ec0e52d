/**
 * The effect of each command class on the machine state (its `_evolve`), specified
 * on values.  An effect maps the state before the command to a pair: the state
 * before as the command leaves it (a `Move` with `F` writes the feedrate into it)
 * and the state after.  A Python exception becomes an `EvolveError`.
 */
module CommandEffects {
  import opened Wrappers
  import opened MachineStates
  import opened CommandProps

  /** The command classes of the code table, plus `NoOp` for a line without parameters. */
  datatype Kind =
    | Move | MoveAlt
    | SetHeadTemp | PreheatHeadTemp | SetBedTemp | PreheatBedTemp
    | SetOffset | ReportTemps | AbsoluteE
    | SetFeedrateMult | SetFlowMult
    | Home | AutoBedLevel | Park | BedLevelingState
    | LinearAdvanceFactor | FanOff
    | SetTypeAccel | SetJerk | SetAxisAccel | SetFan
    | Relative | Absolute | DisableSteppers | SetAxisFeedrateLimit
    | NoOp
  {
    /** `NoOp` and its subclass `ReportTemps` (via `Informational`) keep the state object itself. */
    predicate IsNoOp() {
      this == NoOp || this == ReportTemps
    }

    predicate IsMove() {
      this == Move || this == MoveAlt
    }

    /** The kinds whose `_evolve` loops over `aargs`. */
    predicate Loops() {
      IsMove() || SetOffset? || SetTypeAccel? || SetJerk? || SetAxisAccel? || SetAxisFeedrateLimit?
    }

    /** The kinds whose `_evolve` stores the S or K parameter, as given or scaled. */
    predicate StoresParameter() {
      SetHeadTemp? || PreheatHeadTemp? || SetBedTemp? || PreheatBedTemp? || LinearAdvanceFactor? || Scales()
    }

    /** The kinds that store S divided by 100 or 255. */
    predicate Scales() {
      SetFeedrateMult? || SetFlowMult? || SetFan?
    }

    /** The kinds that set the mode of one axis or of all four. */
    predicate SetsModes() {
      AbsoluteE? || Relative? || Absolute?
    }

    /** The kinds that place the head at the origin or at an unknown position. */
    predicate PlacesHead() {
      Home? || AutoBedLevel? || Park?
    }
  }

  /** The exceptions an effect can raise. */
  datatype EvolveError =
    | NoSuchAxis(letter: char)        // `getattr(after, letter.lower())` finds no axis
    | MissingArg(letter: char)        // `self.S` or `self.K` on a command without it
    | TypeMismatch                    // arithmetic on a flag or on an unknown position
    | DivisionByZero                  // a known feedrate of 0
    | UnknownAccelType(letter: char)  // `M204` with a letter other than S, P, R, T

  type States = (StateVal, StateVal)

  /** `getattr(state, letter.lower())` when it names an axis. */
  function AxisOfLetter(l: char): (r: Option<AxisId>)
    ensures r == Some(X) <==> l == 'X' || l == 'x'
    ensures r == Some(Y) <==> l == 'Y' || l == 'y'
    ensures r == Some(Z) <==> l == 'Z' || l == 'z'
    ensures r == Some(E) <==> l == 'E' || l == 'e'
  {
    if l == 'X' || l == 'x' then Some(X)
    else if l == 'Y' || l == 'y' then Some(Y)
    else if l == 'Z' || l == 'z' then Some(Z)
    else if l == 'E' || l == 'e' then Some(E)
    else None
  }

  /** A number parameter divided by a constant, as `value / d` in Python. */
  function Divided(v: Arg, d: real): (r: Result<real, EvolveError>)
    requires d != 0.0
    ensures r.Success? <==> v.Num?
    ensures r.Success? ==> r.value * d == v.value
  {
    match v
    case Flag => Failure(TypeMismatch)
    case Num(n) => Success(n / d)
  }

  /** One iteration of `Move._evolve`'s loop over `aargs`. */
  function MoveStep(l: char, v: Arg, st: States): (r: Result<States, EvolveError>)
    ensures l == 'F' ==> (r.Success? <==> v.Num?)
    ensures l == 'F' && r.Success? ==>
      r.value.0.feedrate == r.value.1.feedrate == Some(v.value / 60.0)
      && r.value.0.(feedrate := st.0.feedrate) == st.0
      && r.value.1.(feedrate := st.1.feedrate) == st.1
    ensures l != 'F' ==>
      (r.Success? <==>
        AxisOfLetter(l).Some? && v.Num?
        && (st.1.Axis(AxisOfLetter(l).value).IsRelative() ==> st.1.Axis(AxisOfLetter(l).value).position.Some?))
    ensures l != 'F' && r.Success? ==>
      var id := AxisOfLetter(l).value;
      r.value.0 == st.0 && r.value.1 == st.1.WithAxis(id, Moved(st.1.Axis(id), v.value))
  {
    if l == 'F' then
      match Divided(v, 60.0)
      case Failure(e) => Failure(e)
      case Success(f) => Success((st.0.(feedrate := Some(f)), st.1.(feedrate := Some(f))))
    else
      match AxisOfLetter(l)
      case None => Failure(NoSuchAxis(l))
      case Some(id) =>
        var ax := st.1.Axis(id);
        if v.Flag? || (ax.IsRelative() && ax.position.None?) then Failure(TypeMismatch)
        else Success((st.0, st.1.WithAxis(id, Moved(ax, v.value))))
  }

  /** One iteration of `SetOffset._evolve`: `set_offset` on the named axis. */
  function OffsetStep(l: char, v: Arg, a: StateVal): (r: Result<StateVal, EvolveError>)
    ensures r.Success? <==> AxisOfLetter(l).Some? && v.Num?
    ensures r.Success? ==> r.value == a.WithAxis(AxisOfLetter(l).value, WithOffset(a.Axis(AxisOfLetter(l).value), v.value))
  {
    match AxisOfLetter(l)
    case None => Failure(NoSuchAxis(l))
    case Some(id) =>
      if v.Flag? then Failure(TypeMismatch)
      else Success(a.WithAxis(id, WithOffset(a.Axis(id), v.value)))
  }

  /** One iteration of `SetTypeAccel._evolve`: S sets all three accelerations, P, R, T one each. */
  function AccelTypeStep(l: char, v: Arg, a: StateVal): (r: Result<StateVal, EvolveError>)
    ensures r.Success? <==> l == 'S' || l == 'P' || l == 'R' || l == 'T'
    ensures r.Success? ==> r.value.printAccel == (if l == 'S' || l == 'P' then Some(v) else a.printAccel)
    ensures r.Success? ==> r.value.retractAccel == (if l == 'S' || l == 'R' then Some(v) else a.retractAccel)
    ensures r.Success? ==> r.value.travelAccel == (if l == 'S' || l == 'T' then Some(v) else a.travelAccel)
    ensures r.Success? ==> r.value.(printAccel := a.printAccel, retractAccel := a.retractAccel, travelAccel := a.travelAccel) == a
  {
    if l == 'S' then Success(a.(printAccel := Some(v), retractAccel := Some(v), travelAccel := Some(v)))
    else if l == 'P' then Success(a.(printAccel := Some(v)))
    else if l == 'R' then Success(a.(retractAccel := Some(v)))
    else if l == 'T' then Success(a.(travelAccel := Some(v)))
    else Failure(UnknownAccelType(l))
  }

  /** Which limit of an axis a limit-setting command stores its values in. */
  datatype Limit = JerkLimit | AccelLimit | SpeedLimit

  function WithLimit(ax: AxisVal, which: Limit, v: Arg): (r: AxisVal)
    ensures which == JerkLimit ==> r == ax.(jerk := Some(v))
    ensures which == AccelLimit ==> r == ax.(accelLimit := Some(v))
    ensures which == SpeedLimit ==> r == ax.(speedLimit := Some(v))
  {
    match which
    case JerkLimit => ax.(jerk := Some(v))
    case AccelLimit => ax.(accelLimit := Some(v))
    case SpeedLimit => ax.(speedLimit := Some(v))
  }

  /**
   * One iteration of `SetJerk`, `SetAxisAccel` or `SetAxisFeedrateLimit`: the value is
   * stored as given in the named axis; for `SetAxisAccel`, F is the frequency limit.
   */
  function LimitStep(which: Limit, l: char, v: Arg, a: StateVal): (r: Result<StateVal, EvolveError>)
    ensures which == AccelLimit && l == 'F' ==> r == Success(a.(frequencyLimit := Some(v)))
    ensures !(which == AccelLimit && l == 'F') ==> (r.Success? <==> AxisOfLetter(l).Some?)
    ensures !(which == AccelLimit && l == 'F') && r.Success? ==>
      r.value == a.WithAxis(AxisOfLetter(l).value, WithLimit(a.Axis(AxisOfLetter(l).value), which, v))
  {
    if which == AccelLimit && l == 'F' then Success(a.(frequencyLimit := Some(v)))
    else
      match AxisOfLetter(l)
      case None => Failure(NoSuchAxis(l))
      case Some(id) => Success(a.WithAxis(id, WithLimit(a.Axis(id), which, v)))
  }

  /** One iteration of the loop over `aargs` of a looping command. */
  function ArgStep(k: Kind, l: char, v: Arg, st: States): Result<States, EvolveError> {
    if k.IsMove() then MoveStep(l, v, st)
    else
      var r :=
        if k == SetOffset then OffsetStep(l, v, st.1)
        else if k == SetTypeAccel then AccelTypeStep(l, v, st.1)
        else if k == SetJerk then LimitStep(JerkLimit, l, v, st.1)
        else if k == SetAxisAccel then LimitStep(AccelLimit, l, v, st.1)
        else LimitStep(SpeedLimit, l, v, st.1);
      match r
      case Failure(e) => Failure(e)
      case Success(a) => Success((st.0, a))
  }

  /** The loop over `aargs`, stopping at the first exception. */
  function FoldSteps(k: Kind, ps: Args, st: States): Result<States, EvolveError> {
    if ps == [] then Success(st)
    else
      match ArgStep(k, ps[0].0, ps[0].1, st)
      case Failure(e) => Failure(e)
      case Success(st') => FoldSteps(k, ps[1..], st')
  }

  /**
   * The time a move takes, `head_dist / feedrate` (or `head_dist_e / feedrate` when
   * the head does not travel), using the feedrate of the state before.  `head_dist`
   * is a numpy float, so a travelling move at feedrate 0 takes an infinite time;
   * `head_dist_e` is a Python float, whose division by zero raises.
   */
  function MoveTime(b: StateVal, a: StateVal, norm: seq<real> -> real): (r: Result<Time, EvolveError>)
    requires b.feedrate.Some?
    ensures HeadDist(b, a, norm).None? ==> r == Failure(TypeMismatch)
    ensures r.Success? <==>
      HeadDist(b, a, norm).Some?
      && (HeadDist(b, a, norm).value > 0.0 || (HeadDistE(b, a).Some? && b.feedrate.value != 0.0))
    ensures r == Failure(DivisionByZero) <==>
      HeadDist(b, a, norm).Some? && HeadDist(b, a, norm).value <= 0.0
      && HeadDistE(b, a).Some? && b.feedrate.value == 0.0
    ensures r == Success(Infinite) <==>
      HeadDist(b, a, norm).Some? && HeadDist(b, a, norm).value > 0.0 && b.feedrate.value == 0.0
    ensures r.Success? && r.value.Finite? && HeadDist(b, a, norm).value > 0.0 ==>
      r.value.secs * b.feedrate.value == HeadDist(b, a, norm).value
    ensures r.Success? && HeadDist(b, a, norm).value <= 0.0 ==>
      r.value.Finite? && r.value.secs * b.feedrate.value == HeadDistE(b, a).value
  {
    var fr := b.feedrate.value;
    match HeadDist(b, a, norm)
    case None => Failure(TypeMismatch)
    case Some(hd) =>
      if hd > 0.0 then
        if fr == 0.0 then Success(Infinite) else Success(Finite(hd / fr))
      else
        match HeadDistE(b, a)
        case None => Failure(TypeMismatch)
        case Some(he) => if fr == 0.0 then Failure(DivisionByZero) else Success(Finite(he / fr))
  }

  /** The extrusion per X/Y distance of a flat, extruding move; absent for other moves. */
  function ExtrusionRatio(b: StateVal, a: StateVal, norm: seq<real> -> real): (r: Option<real>)
    ensures r.Some? <==> HeadDistZ(b, a) == Some(0.0) && HeadDistXy(b, a, norm).Some? && HeadDistXy(b, a, norm).value > 0.0
                         && HeadDistE(b, a).Some? && HeadDistE(b, a).value > 0.0
    ensures r.Some? ==> r.value > 0.0 && r.value * HeadDistXy(b, a, norm).value == HeadDistE(b, a).value
  {
    var hz, hxy, he := HeadDistZ(b, a), HeadDistXy(b, a, norm), HeadDistE(b, a);
    if hz == Some(0.0) && hxy.Some? && hxy.value > 0.0 && he.Some? && he.value > 0.0 then
      Some(he.value / hxy.value)
    else None
  }

  /** Widens a running minimum to include `x`. */
  function Lower(m: Option<real>, x: real): (r: Option<real>)
    ensures r.Some? && r.value <= x
    ensures m.Some? ==> r.value <= m.value
    ensures r.value == x || r == m
  {
    if m.None? || m.value > x then Some(x) else m
  }

  /** Widens a running maximum to include `x`. */
  function Raise(m: Option<real>, x: real): (r: Option<real>)
    ensures r.Some? && r.value >= x
    ensures m.Some? ==> r.value >= m.value
    ensures r.value == x || r == m
  {
    if m.None? || m.value < x then Some(x) else m
  }

  /** What `Move._evolve` does after its loop: the elapsed time and the E-per-XY bounds. */
  function MoveTail(b: StateVal, a: StateVal, norm: seq<real> -> real): (r: Result<StateVal, EvolveError>)
    ensures r.Success? <==> b.feedrate.None? || MoveTime(b, a, norm).Success?
    ensures r.Failure? ==> r.error == MoveTime(b, a, norm).error
    ensures r.Success? && b.feedrate.None? ==> r.value.time == a.time
    ensures r.Success? && b.feedrate.Some? ==> r.value.time == AddTime(b.time, MoveTime(b, a, norm).value)
    ensures r.Success? ==> r.value.(time := a.time, minExy := a.minExy, maxExy := a.maxExy) == a
    ensures r.Success? && ExtrusionRatio(b, a, norm).None? ==> r.value.minExy == a.minExy && r.value.maxExy == a.maxExy
    ensures r.Success? && ExtrusionRatio(b, a, norm).Some? ==>
      var q := ExtrusionRatio(b, a, norm).value;
      r.value.minExy == Lower(a.minExy, q) && r.value.maxExy == Raise(a.maxExy, q)
  {
    var timed :=
      if b.feedrate.None? then Success(a)
      else match MoveTime(b, a, norm)
        case Failure(e) => Failure(e)
        case Success(dt) => Success(a.(time := AddTime(b.time, dt)));
    match timed
    case Failure(e) => Failure(e)
    case Success(a') =>
      match ExtrusionRatio(b, a, norm)
      case None => Success(a')
      case Some(q) => Success(a'.(minExy := Lower(a'.minExy, q), maxExy := Raise(a'.maxExy, q)))
  }

  /** A number parameter named `l` divided by `d`, as `self.S / d`. */
  function ArgDivided(args: Args, l: char, d: real): (r: Result<real, EvolveError>)
    requires d != 0.0
    ensures Lookup(args, l).None? ==> r == Failure(MissingArg(l))
    ensures r.Success? ==> Lookup(args, l).Some? && Lookup(args, l).value.Num?
    ensures r.Success? ==> r.value * d == Lookup(args, l).value.value
  {
    var v := Lookup(args, l);
    if v.None? then Failure(MissingArg(l))
    else
      Divided(v.value, d)
  }

  /** A parameter named `l` as given, as `self.S` or `self.K`. */
  function ArgValue(args: Args, l: char): (r: Result<Arg, EvolveError>)
    ensures r.Success? <==> Lookup(args, l).Some?
    ensures r.Success? ==> Lookup(args, l) == Some(r.value)
    ensures r.Failure? ==> r.error == MissingArg(l)
  {
    match Lookup(args, l)
    case None => Failure(MissingArg(l))
    case Some(v) => Success(v)
  }

  /** Sets the X, Y and Z positions to `p` (`Home`, `AutoBedLevel`, `Park`). */
  function PlaceHead(s: StateVal, p: Option<real>): StateVal {
    s.(x := s.x.(position := p), y := s.y.(position := p), z := s.z.(position := p))
  }

  /** Sets the mode of all four axes (`Relative`, `Absolute`). */
  function AllModes(s: StateVal, rel: bool): StateVal {
    s.(x := s.x.(relative := Some(rel)), y := s.y.(relative := Some(rel)),
       z := s.z.(relative := Some(rel)), e := s.e.(relative := Some(rel)))
  }

  /** Stores `f(args)` with the `after` state, or passes on the exception. */
  function After(b: StateVal, r: Result<StateVal, EvolveError>): Result<States, EvolveError> {
    match r
    case Failure(e) => Failure(e)
    case Success(a) => Success((b, a))
  }

  /**
   * `evolve` of a command of kind `k` with parameters `args` from state `b`: the
   * state before as the command leaves it and the state after.  `Absolute` is
   * modelled as written: like `Relative`, it puts every axis in relative mode
   * (`AbsoluteIntended` is the effect its code `G90` stands for).
   */
  function Effect(k: Kind, args: Args, b: StateVal, norm: seq<real> -> real): Result<States, EvolveError> {
    if k.IsMove() then MoveEffect(args, b, norm)
    else if k.Loops() then FoldSteps(k, AArgs(args), (b, b))
    else After(b, SettingEffect(k, args, b))
  }

  /** `NoOp` and `ReportTemps` leave the state as it is. */
  lemma NoOpEffect(k: Kind, args: Args, b: StateVal, norm: seq<real> -> real)
    requires k.IsNoOp()
    ensures Effect(k, args, b, norm) == Success((b, b))
  {
  }

  /** The state after a command whose `_evolve` assigns fields without looping. */
  function SettingEffect(k: Kind, args: Args, b: StateVal): Result<StateVal, EvolveError>
    requires !k.Loops()
  {
    if k.StoresParameter() then ParameterEffect(k, args, b) else Success(FixedEffect(k, b))
  }

  /** The commands that store one of their parameters, as given or scaled. */
  function ParameterEffect(k: Kind, args: Args, b: StateVal): Result<StateVal, EvolveError>
    requires k.StoresParameter()
  {
    if k.Scales() then ScaledEffect(k, args, b) else StoredEffect(k, args, b)
  }

  /** `SetFeedrateMult`, `SetFlowMult`, `SetFan`: S divided by 100 or 255. */
  function ScaledEffect(k: Kind, args: Args, b: StateVal): Result<StateVal, EvolveError>
    requires k.Scales()
  {
    if k == SetFeedrateMult then Stored(ArgDivided(args, 'S', 100.0), q => b.(feedrateMult := q))
    else if k == SetFlowMult then Stored(ArgDivided(args, 'S', 100.0), q => b.(flowrateMult := q))
    else Stored(ArgDivided(args, 'S', 255.0), q => b.(fanSpeed := Some(q)))
  }

  /** The temperature commands and `LinearAdvanceFactor`: S or K stored as given. */
  function StoredEffect(k: Kind, args: Args, b: StateVal): Result<StateVal, EvolveError>
    requires k.StoresParameter() && !k.Scales()
  {
    if k == SetHeadTemp || k == PreheatHeadTemp then Stored(ArgValue(args, 'S'), v => b.(headTemp := Some(v)))
    else if k == SetBedTemp || k == PreheatBedTemp then Stored(ArgValue(args, 'S'), v => b.(bedTemp := Some(v)))
    else Stored(ArgValue(args, 'K'), v => b.(laK := Some(v)))
  }

  /**
   * The commands that assign fixed values: fan off, modes, head placement, steppers.
   * `Absolute` is modelled as written: like `Relative`, it puts every axis in
   * relative mode.  `NoOp`, `ReportTemps` and `BedLevelingState` change nothing.
   */
  function FixedEffect(k: Kind, b: StateVal): StateVal
    requires !k.Loops() && !k.StoresParameter()
  {
    if k.FanOff? then b.(fanSpeed := Some(0.0))
    else if k.AbsoluteE? then b.(e := b.e.(relative := Some(false)))
    else if k.Home? || k.AutoBedLevel? then PlaceHead(b, Some(0.0))
    else if k.Park? then PlaceHead(b, None)
    else if k.Relative? || k.Absolute? then AllModes(b, true)
    else if k.DisableSteppers? then b.(steppers := false, homed := false)
    else b
  }

  /** The state `f` builds from a parameter, or the exception reading the parameter raised. */
  function Stored<T>(v: Result<T, EvolveError>, f: T -> StateVal): Result<StateVal, EvolveError> {
    match v
    case Failure(e) => Failure(e)
    case Success(x) => Success(f(x))
  }

  /** `Move._evolve`: the loop over `aargs`, then the time and E-per-XY bookkeeping. */
  function MoveEffect(args: Args, b: StateVal, norm: seq<real> -> real): Result<States, EvolveError> {
    match FoldSteps(Move, AArgs(args), (b, b))
    case Failure(e) => Failure(e)
    case Success(st) => After(st.0, MoveTail(st.0, st.1, norm))
  }

  /** The effect `G90` stands for: every axis in absolute mode, nothing else changed. */
  function AbsoluteIntended(b: StateVal): (r: States)
    ensures r.0 == b && forall id :: r.1.Axis(id) == b.Axis(id).(relative := Some(false))
    ensures r.1.(x := b.x, y := b.y, z := b.z, e := b.e) == b
  {
    (b, AllModes(b, false))
  }
}

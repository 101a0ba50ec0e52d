/**
 * The G-code interpreter of the tower scripts (`Machine` and `Mutator` in
 * `temptower.py` and `linear_advance_tower.py`, which share the same code)
 * together with the two towers built on it: the temperature tower, which
 * also rewrites feedrates (`ExtrusionDecelerator`), and the linear-advance
 * tower. A tower reads the file once to learn its height and to annotate
 * every line, then reads it again and writes the file back with a new
 * setting at every floor.
 */
module TowerMachines {
  import opened Wrappers
  import opened Text
  import opened TowerPolicy

  /** `SLOW_E_MM` of `temptower.py`: how close to a retract, in mm of filament, a move is slowed. */
  const SlowEMm: real := -1.0
  /** `SLOW_XY_RATE` of `temptower.py`, in mm per minute. */
  const SlowXyRate: real := 120.0
  /** The line the linear-advance tower writes before every new K factor. */
  const WaitForMoves: string := "M400 ; wait for gcode buffer to finish moves"
  /** The start of the comment that replaces a temperature command of the print. */
  const OverriddenPrefix: string := "overriden by temptower.py: "

  /** `AXES.index(c)`: X, Y, Z and E are axes 0 to 3; any other letter is unknown. */
  function AxisIndex(c: char): (r: Option<nat>)
    ensures r.Some? ==> r.value < 4
    ensures r.Some? <==> c == 'X' || c == 'Y' || c == 'Z' || c == 'E'
  {
    if c == 'X' then Some(0) else if c == 'Y' then Some(1)
    else if c == 'Z' then Some(2) else if c == 'E' then Some(3) else None
  }

  /** A position that is still `None` counts as 0. */
  function Known(p: Option<real>): real {
    if p.None? then 0.0 else p.value
  }

  /** The four coordinates X, Y, Z and E. */
  type Vec4 = s: seq<real> | |s| == 4 witness [0.0, 0.0, 0.0, 0.0]
  /** The printed bounds of X, Y and Z. */
  type Vec3 = s: seq<real> | |s| == 3 witness [0.0, 0.0, 0.0]
  /** A position, where an axis not yet moved is `None`. */
  type Place = s: seq<Option<real>> | |s| == 4 witness [None, None, None, None]

  function RMax(a: real, b: real): real { if b > a then b else a }
  function RMin(a: real, b: real): real { if b < a then b else a }

  // ---------------------------------------------------------------------
  // Line analysis
  // ---------------------------------------------------------------------

  /**
   * `LineAnalysis`: what is recorded about one line of G-code. The
   * attributes the source only sets later are `None` until they are set.
   */
  datatype LineAnalysis = LineAnalysis(
    start: Place,
    delta: Vec4,
    end: Place,
    retract: Option<bool>,
    stepsToRetract: Option<nat>,
    eToRetract: Option<real>,
    stepsToPause: Option<nat>,
    eToPause: Option<real>,
    feedrate: Option<real>)

  /** A new line starts and ends at the current position and moves nothing. */
  function NewAnalysis(position: Place): (la: LineAnalysis)
    ensures la.retract.None? && la.delta[3] == 0.0
  {
    LineAnalysis(position, [0.0, 0.0, 0.0, 0.0], position, None, None, None, None, None, None)
  }

  /** The coordinate `move_axis` gives an axis: relative moves add to it, absolute moves put it at `offset + number`. */
  function MovedTo(isRelative: bool, p: Option<real>, offset: real, number: real): real {
    if isRelative then Known(p) + number else offset + number
  }

  /** What `move_axis` records about the line for a move of `axis` by `number` from `before`. */
  function Recorded(la: LineAnalysis, before: Place, axis: nat, number: real, isRelative: bool, offset: real): (r: LineAnalysis)
    requires axis < 4
    ensures r.(start := la.start, delta := la.delta, end := la.end) == la
  {
    var from := before[axis := Some(Known(before[axis]))];
    var to := before[axis := Some(MovedTo(isRelative, before[axis], offset, number))];
    if isRelative then
      la.(start := if before[axis].None? then la.start[axis := Some(0.0)] else la.start,
          delta := la.delta[axis := number],
          end := to)
    else
      la.(start := from, delta := la.delta[axis := Known(to[axis]) - Known(from[axis])], end := to)
  }

  /** In both modes the line ends at the new position and records the axis' displacement as its delta. */
  lemma RecordedMove(la: LineAnalysis, before: Place, axis: nat, number: real, isRelative: bool, offset: real)
    requires axis < 4
    ensures var r := Recorded(la, before, axis, number, isRelative, offset);
            r.end == before[axis := Some(MovedTo(isRelative, before[axis], offset, number))]
            && r.delta[axis] == MovedTo(isRelative, before[axis], offset, number) - Known(before[axis])
            && (forall a :: 0 <= a < 4 && a != axis ==> r.end[a] == before[a] && r.delta[a] == la.delta[a])
  {
  }

  // ---------------------------------------------------------------------
  // The walks back through the history
  // ---------------------------------------------------------------------

  /** The two walks back from a line: `retract` and `extruder_pause`. */
  datatype Walk = ToRetract | ToPause

  /**
   * Whether a walk goes on past an earlier line: the walk to a retract
   * passes moves that completed without retracting, the walk to a pause
   * passes lines that move the extruder.
   */
  predicate Passes(w: Walk, la: LineAnalysis)
  {
    if w.ToRetract? then la.retract == Some(false) else la.delta[3] != 0.0
  }

  /** A line labelled by a walk: how many lines ahead the event is, and how far the extruder moves before it. */
  function Label(w: Walk, la: LineAnalysis, steps: nat, e: real): (r: LineAnalysis)
    ensures r.delta == la.delta && r.retract == la.retract
  {
    if w.ToRetract? then la.(stepsToRetract := Some(steps), eToRetract := Some(e))
    else la.(stepsToPause := Some(steps), eToPause := Some(e))
  }

  /** Where a walk back from line `n` stops: the first line of the run of passed lines just below `n`. */
  function WalkStart(w: Walk, h: seq<LineAnalysis>, n: nat): (s: nat)
    requires n <= |h|
    ensures s <= n
    ensures forall i :: s <= i < n ==> Passes(w, h[i])
    ensures s > 0 ==> !Passes(w, h[s - 1])
    decreases n
  {
    if n == 0 || !Passes(w, h[n - 1]) then n else WalkStart(w, h, n - 1)
  }

  /** The extruder movement of lines `lo` to `hi - 1`. */
  function ESum(h: seq<LineAnalysis>, lo: nat, hi: nat): real
    requires lo <= hi <= |h|
    decreases hi - lo
  {
    if lo == hi then 0.0 else h[lo].delta[3] + ESum(h, lo + 1, hi)
  }

  /** `h` with lines `lo` to `n - 1` labelled as a walk back from line `n` labels them. */
  function LabelledFrom(w: Walk, h: seq<LineAnalysis>, n: nat, lo: nat): (r: seq<LineAnalysis>)
    requires lo <= n < |h|
    ensures |r| == |h|
    decreases n - lo
  {
    if lo == n then h else LabelledFrom(w, h, n, lo + 1)[lo := Label(w, h[lo], n - lo, ESum(h, lo + 1, n))]
  }

  /** Line `i` of a labelled history. */
  lemma {:induction false} LabelledAt(w: Walk, h: seq<LineAnalysis>, n: nat, lo: nat, i: nat)
    requires lo <= n < |h| && i < |h|
    ensures LabelledFrom(w, h, n, lo)[i] == if lo <= i < n then Label(w, h[i], n - i, ESum(h, i + 1, n)) else h[i]
    decreases n - lo
  {
    if lo < n {
      LabelledAt(w, h, n, lo + 1, i);
    }
  }

  /**
   * The history after a walk back from line `n`: every line the walk passes
   * records the distance to line `n` and the extrusion of the lines between.
   */
  function Walked(w: Walk, h: seq<LineAnalysis>, n: nat): (r: seq<LineAnalysis>)
    requires n < |h|
    ensures |r| == |h|
  {
    LabelledFrom(w, h, n, WalkStart(w, h, n))
  }

  /** One step of the walk labels one more line, the one below `lo`, and adds its extruder movement. */
  lemma WalkStep(w: Walk, h: seq<LineAnalysis>, n: nat, lo: nat, labelled: seq<LineAnalysis>, e: real)
    requires 0 < lo <= n < |h| && labelled == LabelledFrom(w, h, n, lo) && e == ESum(h, lo, n)
    ensures labelled[lo - 1] == h[lo - 1]
    ensures labelled[lo - 1 := Label(w, labelled[lo - 1], n - (lo - 1), e)] == LabelledFrom(w, h, n, lo - 1)
    ensures e + labelled[lo - 1].delta[3] == ESum(h, lo - 1, n)
  {
    LabelledAt(w, h, n, lo, lo - 1);
  }

  /** Seen from the line just below where the walk may stop, the walk passes that line exactly when it goes further down. */
  lemma WalkPassesAt(w: Walk, h: seq<LineAnalysis>, n: nat, i: nat)
    requires i < n <= |h| && WalkStart(w, h, n) <= i + 1
    ensures Passes(w, h[i]) <==> WalkStart(w, h, n) <= i
  {
  }

  /** The walk stops exactly below the run of passed lines. */
  lemma {:induction false} WalkStartUnique(w: Walk, h: seq<LineAnalysis>, n: nat, s: nat)
    requires s <= n <= |h|
    requires forall i :: s <= i < n ==> Passes(w, h[i])
    requires s == 0 || !Passes(w, h[s - 1])
    ensures WalkStart(w, h, n) == s
    decreases n
  {
    if n > s {
      WalkStartUnique(w, h, n - 1, s);
    }
  }

  /** Two histories that agree on what a walk tests agree on where it stops. */
  lemma {:induction false} WalkStartSame(w: Walk, h: seq<LineAnalysis>, g: seq<LineAnalysis>, n: nat)
    requires n <= |h| && n <= |g|
    requires forall i :: 0 <= i < n ==> h[i].delta == g[i].delta && h[i].retract == g[i].retract
    ensures WalkStart(w, h, n) == WalkStart(w, g, n)
    decreases n
  {
    if n > 0 {
      WalkStartSame(w, h, g, n - 1);
    }
  }

  lemma {:induction false} ESumSame(h: seq<LineAnalysis>, g: seq<LineAnalysis>, lo: nat, hi: nat)
    requires lo <= hi <= |h| && hi <= |g|
    requires forall i :: lo <= i < hi ==> h[i].delta == g[i].delta
    ensures ESum(h, lo, hi) == ESum(g, lo, hi)
    decreases hi - lo
  {
    if lo < hi {
      ESumSame(h, g, lo + 1, hi);
    }
  }

  /**
   * What a walk records: the lines it passes, from the one just below `n`
   * down, are 1, 2, … lines from `n`, and each records the extruder movement
   * of the lines after it up to `n`. Lines outside the walk, and everything a
   * walk tests, are left as they were.
   */
  lemma {:induction false} WalkedLabels(w: Walk, h: seq<LineAnalysis>, n: nat)
    requires n < |h|
    ensures var r, s := Walked(w, h, n), WalkStart(w, h, n);
            (forall i :: 0 <= i < |h| ==> r[i].delta == h[i].delta && r[i].retract == h[i].retract)
            && (forall i :: 0 <= i < |h| && !(s <= i < n) ==> r[i] == h[i])
            && (w.ToRetract? ==> forall i :: s <= i < n ==>
                  r[i].stepsToRetract == Some(n - i) && r[i].eToRetract == Some(ESum(h, i + 1, n)))
            && (w.ToPause? ==> forall i :: s <= i < n ==>
                  r[i].stepsToPause == Some(n - i) && r[i].eToPause == Some(ESum(h, i + 1, n)))
  {
    var s := WalkStart(w, h, n);
    var r := LabelledFrom(w, h, n, s);
    forall i | 0 <= i < |h|
      ensures r[i].delta == h[i].delta && r[i].retract == h[i].retract
      ensures !(s <= i < n) ==> r[i] == h[i]
      ensures s <= i < n ==> r[i] == Label(w, h[i], n - i, ESum(h, i + 1, n))
    {
      LabelledAt(w, h, n, s, i);
    }
  }

  /** One line of a walked history. */
  lemma WalkedAt(w: Walk, h: seq<LineAnalysis>, n: nat, i: nat)
    requires n < |h| && i < |h|
    ensures Walked(w, h, n)[i] ==
      if WalkStart(w, h, n) <= i < n then Label(w, h[i], n - i, ESum(h, i + 1, n)) else h[i]
  {
    LabelledAt(w, h, n, WalkStart(w, h, n), i);
  }

  /** A walk leaves what walks test as it was. */
  lemma WalkedKeepsTests(w: Walk, h: seq<LineAnalysis>, n: nat)
    requires n < |h|
    ensures forall i :: 0 <= i < |h| ==> Walked(w, h, n)[i].delta == h[i].delta && Walked(w, h, n)[i].retract == h[i].retract
  {
    forall i | 0 <= i < |h|
      ensures Walked(w, h, n)[i].delta == h[i].delta && Walked(w, h, n)[i].retract == h[i].retract
    {
      WalkedAt(w, h, n, i);
    }
  }

  /** Walking twice changes nothing more: `check_extruder_pause` may repeat the walk `retract` already made. */
  lemma {:induction false} WalkedIdempotent(w: Walk, h: seq<LineAnalysis>, n: nat)
    requires n < |h|
    ensures Walked(w, Walked(w, h, n), n) == Walked(w, h, n)
  {
    var r := Walked(w, h, n);
    var s := WalkStart(w, h, n);
    WalkedKeepsTests(w, h, n);
    WalkStartSame(w, h, r, n);
    forall i | 0 <= i < |h|
      ensures Walked(w, r, n)[i] == r[i]
    {
      WalkedAt(w, h, n, i);
      WalkedAt(w, r, n, i);
      if s <= i < n {
        ESumSame(h, r, i + 1, n);
        var e := ESum(h, i + 1, n);
        assert r[i] == Label(w, h[i], n - i, e);
        assert Walked(w, r, n)[i] == Label(w, r[i], n - i, e);
      }
    }
  }

  /** The two walks label different attributes and test attributes neither changes, so their order does not matter. */
  lemma {:induction false} WalksCommute(h: seq<LineAnalysis>, n: nat)
    requires n < |h|
    ensures Walked(ToPause, Walked(ToRetract, h, n), n) == Walked(ToRetract, Walked(ToPause, h, n), n)
  {
    var a, b := Walked(ToRetract, h, n), Walked(ToPause, h, n);
    var sr, sp := WalkStart(ToRetract, h, n), WalkStart(ToPause, h, n);
    WalkedKeepsTests(ToRetract, h, n);
    WalkedKeepsTests(ToPause, h, n);
    WalkStartSame(ToPause, h, a, n);
    WalkStartSame(ToRetract, h, b, n);
    forall i | 0 <= i < |h|
      ensures Walked(ToPause, a, n)[i] == Walked(ToRetract, b, n)[i]
    {
      WalkedAt(ToRetract, h, n, i);
      WalkedAt(ToPause, h, n, i);
      WalkedAt(ToPause, a, n, i);
      WalkedAt(ToRetract, b, n, i);
      if i < n {
        ESumSame(h, a, i + 1, n);
        ESumSame(h, b, i + 1, n);
        var e := ESum(h, i + 1, n);
        var x := h[i];
        if sr <= i && sp <= i {
          assert a[i] == Label(ToRetract, x, n - i, e) && b[i] == Label(ToPause, x, n - i, e);
          assert Walked(ToPause, a, n)[i] == Label(ToPause, a[i], n - i, e);
          assert Walked(ToRetract, b, n)[i] == Label(ToRetract, b[i], n - i, e);
        }
      }
    }
  }

  // ---------------------------------------------------------------------
  // Layers and retracts
  // ---------------------------------------------------------------------

  predicate NoDuplicates(s: seq<real>) {
    forall i, j :: 0 <= i < j < |s| ==> s[i] != s[j]
  }

  /** `materialized` records the height of each new layer once, in the order first printed. */
  function AddLayer(layers: seq<real>, z: real): (r: seq<real>)
    ensures |r| == |layers| + (if z in layers then 0 else 1)
    ensures z in r && r[..|layers|] == layers
    ensures NoDuplicates(layers) ==> NoDuplicates(r)
  {
    if z in layers then layers else layers + [z]
  }

  /**
   * `detect_retract`: a completed move retracts when it leaves the extruder
   * below where the previous move left it; the first E position is compared
   * with itself.
   */
  function RetractFlag(e: Option<real>, prevE: Option<real>): (r: bool)
    ensures r <==> e.Some? && prevE.Some? && e.value < prevE.value
  {
    e.Some? && e.value < (if prevE.None? then e.value else prevE.value)
  }

  // ---------------------------------------------------------------------
  // Output
  // ---------------------------------------------------------------------

  /** What a tower adds to the print with `insert(...)`, marked `; added by …`. */
  datatype Insertion =
    | SetSetting(setting: Setting)                      // `M104 S<temp>` or `M900 K<k>`
    | FloorBanner(floor: int, floors: real, k: Option<real>) // `M117 Tower Floor <floor>/<floors>` (with `K=` on the linear-advance tower)

  /** One line of the output file; the lines whose text holds formatted floats are kept as their values. */
  datatype Emitted =
    | Line(text: string)                                 // written as is: echoed commands, comment lines, `M400`
    | Inserted(what: Insertion)
    | RetractNote(prevE: Option<real>, e: Option<real>)  // the echoed comment `Retract <prev_e>-<e>`
    | FloorNotes(height: real, floor: int, setting: Setting) // the three `; …: height / step / temp or k` lines
    | FeedrateNote(oldPerSecond: real, newPerSecond: real)  // `; feedrate: old: … mm/s new: … mm/s`

  /** `insert_set_temp` / `insert_set_k`: the linear-advance tower waits for the moves to finish before it sets K. */
  function SettingLines(p: Policy, s: Setting): (r: seq<Emitted>)
    ensures p.LinearAdvance? <==> |r| == 2
    ensures 1 <= |r| && Inserted(SetSetting(s)) == r[|r| - 1]
    ensures p.LinearAdvance? ==> r[0] == Line(WaitForMoves)
  {
    (if p.LinearAdvance? then [Line(WaitForMoves)] else []) + [Inserted(SetSetting(s))]
  }

  /** The lines `maybe_insert_temp` / `maybe_insert_k` write for floor `floor`. */
  function FloorLines(p: Policy, height: real, floor: int, floors: real, s: Setting): (r: seq<Emitted>)
    ensures |r| == |SettingLines(p, s)| + 2
    ensures r[0] == FloorNotes(height, floor, s) && r[1..|r| - 1] == SettingLines(p, s)
    ensures r[|r| - 1].Inserted? && r[|r| - 1].what.FloorBanner? && r[|r| - 1].what.floor == floor + 1
  {
    [FloorNotes(height, floor, s)] + SettingLines(p, s)
      + [Inserted(FloorBanner(floor + 1, floors, if s.K? then Some(s.factor) else None))]
  }

  /** How `maybe_modify_move` writes a move of the second pass. */
  datatype Rewrite = Slowed(from: real, to: real) | Restored(to: real) | AsIs

  predicate MovesHead(args: seq<string>) {
    exists w | w in args :: w != [] && (w[0] == 'X' || w[0] == 'Y' || w[0] == 'Z')
  }

  /**
   * The choice of `maybe_modify_move` for a line whose first-pass analysis is
   * `la` (the `SLOW_BEFORE == 'any'` branch is unreachable, as
   * `SLOW_BEFORE` is `'retract'`): slow an extruding move of the head that
   * comes at most `-SLOW_E_MM` before a retract, put back the feedrate of the
   * first pass on a head move without `F`, or write the move as it is.
   */
  function ChooseRewrite(la: LineAnalysis, oldFeedrate: Option<real>, feedrate: Option<real>, args: seq<string>): (r: Result<Rewrite, TowerError>)
    ensures r.Success? && r.value.Slowed? ==>
              MovesHead(args) && la.delta[3] > 0.0 && la.feedrate == Some(r.value.from) && r.value.from > SlowXyRate
    ensures r.Success? && r.value.Slowed? ==> r.value.to >= r.value.from
    ensures r.Success? && r.value.Restored? ==>
              MovesHead(args) && !HasFeedrate(args) && oldFeedrate == Some(r.value.to) && feedrate != oldFeedrate
    ensures r.Failure? ==> oldFeedrate.Some? && feedrate.None? && r.error == MissingFeedrate
  {
    if la.delta[3] > 0.0 && la.eToRetract.Some? && la.eToRetract.value <= SlowEMm
       && la.feedrate.Some? && la.feedrate.value > SlowXyRate && MovesHead(args)
    then
      var e, from := la.eToRetract.value, la.feedrate.value;
      var to := (from * e + SlowXyRate * (SlowEMm - e)) / SlowEMm;
      assert to == from + (-e - 1.0) * (from - SlowXyRate);
      assert (-e - 1.0) * (from - SlowXyRate) >= 0.0;
      Success(Slowed(from, to))
    else if oldFeedrate.Some? then
      if feedrate.None? then Failure(MissingFeedrate)
      else if oldFeedrate != feedrate && !HasFeedrate(args) && MovesHead(args) then Success(Restored(oldFeedrate.value))
      else Success(AsIs)
    else Success(AsIs)
  }

  /** What `run_line` does with a command: the `commands` table, where `G4`, `G5`, `G6` and unknown commands are only echoed. */
  datatype Handler = SetTemperature | MoveHead | SetAbsolute | SetRelative | SetOffset | EchoOnly

  function Route(command: string): Handler {
    if command == "M109" || command == "M104" then SetTemperature
    else if command == "G1" || command == "G0" then MoveHead
    else if command == "G90" then SetAbsolute
    else if command == "G91" then SetRelative
    else if command == "G92" then SetOffset
    else EchoOnly
  }

  /** The index of the first argument a move stops at: neither `F` nor an axis letter. */
  function MoveStop(args: seq<string>): (k: nat)
    requires forall i :: 0 <= i < |args| ==> args[i] != []
    ensures k <= |args|
    ensures forall i :: 0 <= i < k ==> IsFeedrateWord(args[i]) || AxisIndex(args[i][0]).Some?
    ensures k < |args| ==> !IsFeedrateWord(args[k]) && AxisIndex(args[k][0]).None?
  {
    if args == [] then 0
    else if IsFeedrateWord(args[0]) || AxisIndex(args[0][0]).Some? then 1 + MoveStop(args[1..])
    else 0
  }

  /** Whether a word among `args` names axis `a`. */
  predicate Names(args: seq<string>, a: nat) {
    exists j :: 0 <= j < |args| && args[j] != [] && AxisIndex(args[j][0]) == Some(a)
  }

  /** The axes named among the first `i + 1` arguments are those named among the first `i` and the one argument `i` names. */
  lemma NamesGrow(args: seq<string>, i: nat)
    requires i < |args| && forall j :: 0 <= j < |args| ==> args[j] != []
    ensures forall a: nat :: Names(args[..i + 1], a) <==> Names(args[..i], a) || AxisIndex(args[i][0]) == Some(a)
  {
    forall a: nat | Names(args[..i + 1], a)
      ensures Names(args[..i], a) || AxisIndex(args[i][0]) == Some(a)
    {
      var j :| 0 <= j < i + 1 && args[..i + 1][j] != [] && AxisIndex(args[..i + 1][j][0]) == Some(a);
      if j < i {
        assert args[..i][j] == args[j];
      }
    }
    forall a: nat | Names(args[..i], a) || AxisIndex(args[i][0]) == Some(a)
      ensures Names(args[..i + 1], a)
    {
      if Names(args[..i], a) {
        var j :| 0 <= j < i && args[..i][j] != [] && AxisIndex(args[..i][j][0]) == Some(a);
        assert args[..i + 1][j] == args[j];
      } else {
        assert args[..i + 1][i] == args[i];
      }
    }
  }

  /** An axis the first `i` arguments name is named by all of them. */
  lemma NamesPrefix(args: seq<string>, i: nat)
    requires i <= |args|
    ensures forall a: nat :: Names(args[..i], a) ==> Names(args, a)
  {
    forall a: nat | Names(args[..i], a)
      ensures Names(args, a)
    {
      var j :| 0 <= j < i && args[..i][j] != [] && AxisIndex(args[..i][j][0]) == Some(a);
      assert args[j] == args[..i][j];
    }
  }

  /** The feedrate after one argument: an `F` argument that is a number sets it. */
  function ArgFeedrate(arg: string, f: Option<real>): Option<real> {
    if IsFeedrateWord(arg) && ParseNumber(arg[1..]).Some? then Some(DecValue(ParseNumber(arg[1..]).value)) else f
  }

  /** The feedrate after the arguments `args`, starting from `f`. */
  function FeedrateAfter(args: seq<string>, f: Option<real>): Option<real> {
    if args == [] then f else ArgFeedrate(args[|args| - 1], FeedrateAfter(args[..|args| - 1], f))
  }

  /** The offsets `setoff` leaves: each axis argument sets its axis' offset so that the current position reads as the argument, until an unknown letter. */
  function Offsets(offset: Vec4, position: Place, args: seq<string>): (r: Result<Vec4, TowerError>)
    requires forall i :: 0 <= i < |args| ==> args[i] != []
    decreases |args|
  {
    if args == [] then Success(offset)
    else match AxisIndex(args[0][0])
      case None => Success(offset)
      case Some(a) =>
        match ParseNumber(args[0][1..])
        case None => Failure(NotANumber(args[0][1..]))
        case Some(d) => Offsets(offset[a := Known(position[a]) - DecValue(d)], position, args[1..])
  }

  /** After `G92 <axis><w>` an absolute move to `<axis><w>` leaves the axis where it is. */
  lemma OffsetKeepsPlace(p: Option<real>, w: real)
    ensures MovedTo(false, p, Known(p) - w, w) == Known(p)
  {
  }

  /** The replaced arguments of `modify_move` are words, as the arguments were. */
  lemma WithFeedrateWords(args: seq<string>, fword: string)
    requires IsFeedrateWord(fword) && forall i :: 0 <= i < |args| ==> args[i] != []
    ensures forall i :: 0 <= i < |WithFeedrate(args, fword)| ==> WithFeedrate(args, fword)[i] != []
  {
    ReplaceKeepsOthers(args, fword);
  }

  /** The lines `maybe_modify_move` writes ahead of the move's own effects, for the choice `rw`. */
  function RewriteLines(command: string, args: seq<string>, comment: string, rw: Rewrite, format: real -> string): (r: seq<Emitted>)
    ensures |r| == (if rw.Slowed? then 2 else 1)
    ensures r[|r| - 1].Line?
    ensures rw.AsIs? ==> r == [Line(Deparse(command, args, comment))]
  {
    match rw
    case Slowed(from, to) =>
      [FeedrateNote(from / 60.0, to / 60.0), Line(Deparse(command, WithFeedrate(args, "F" + format(to)), comment))]
    case Restored(to) => [Line(Deparse(command, WithFeedrate(args, "F" + format(to)), comment))]
    case AsIs => [Line(Deparse(command, args, comment))]
  }

  // ---------------------------------------------------------------------
  // The machine
  // ---------------------------------------------------------------------

  /**
   * The state of a tower script. Attributes the source creates later
   * (`retracting`, `z_hopping`, `feedrate`, `analysis`, the tower's floor
   * fields) start out as `false`, `None` or 0, which is how the source reads
   * them before they exist.
   */
  class Machine {
    /** Which tower this is, with its start and end settings. */
    const policy: Policy
    /** The lines of the input file, trailing whitespace removed. */
    const gcode: seq<string>
    /** Python's `f"{x:0.5}"` on a feedrate. */
    const formatFeedrate: real -> string

    var isRelative: bool
    var maxPos: Vec4            // `max`
    var minPos: Vec4            // `min`
    var materialMax: Vec3
    var materialMin: Vec3
    var position: Place
    var offset: Vec4
    var layers: seq<real>
    var hasRetracted: bool
    var retracted: bool
    var zUp: bool
    var retracting: bool
    var zHopping: bool
    var nextLine: nat
    var prevE: Option<real>
    var history: seq<LineAnalysis>   // `new_analysis`
    var analysis: Option<seq<LineAnalysis>>
    var boundingMax: Vec3
    var boundingMin: Vec3
    var feedrate: Option<real>
    var oldFeedrate: Option<real>
    var ranOnce: bool
    var outputting: bool             // whether the output file `fh` is open
    var written: seq<Emitted>        // the lines written to `fh`
    var towerHeight: real
    var floorSize: real
    var floors: real
    var curFloor: int
    var overridden: bool             // `temp_has_been_overriden` / `k_has_been_overriden`

    /** Each layer height is recorded once, and the first pass analysed every line of the file. */
    ghost predicate Valid()
      reads this`layers, this`analysis
    {
      NoDuplicates(layers)
      && (analysis.Some? ==> |analysis.value| == |gcode|)
    }

    /** `Machine.__init__`: keep the G-code and start from a reset machine. */
    constructor(policy: Policy, gcode: seq<string>, formatFeedrate: real -> string)
      ensures Valid() && this.policy == policy && this.gcode == gcode
      ensures Cleared() && !ranOnce && !outputting && written == [] && analysis.None?
    {
      this.policy, this.gcode, this.formatFeedrate := policy, gcode, formatFeedrate;
      isRelative := false;
      maxPos, minPos := [0.0, 0.0, 0.0, 0.0], [0.0, 0.0, 0.0, 0.0];
      materialMax, materialMin := [0.0, 0.0, 0.0], [0.0, 0.0, 0.0];
      position := [None, None, None, None];
      offset := [0.0, 0.0, 0.0, 0.0];
      layers := [];
      hasRetracted, retracted, zUp := false, false, false;
      retracting, zHopping := false, false;
      nextLine := 0;
      prevE := None;
      history := [];
      analysis := None;
      boundingMax, boundingMin := [0.0, 0.0, 0.0], [0.0, 0.0, 0.0];
      feedrate, oldFeedrate := None, None;
      ranOnce, outputting, written := false, false, [];
      towerHeight, floorSize, floors, curFloor, overridden := 0.0, 0.0, 0.0, 0, false;
    }

    /** The state `reset` leaves. */
    ghost predicate Cleared()
      reads this
    {
      !isRelative && maxPos == [0.0, 0.0, 0.0, 0.0] && minPos == [0.0, 0.0, 0.0, 0.0]
      && materialMax == [0.0, 0.0, 0.0] && materialMin == [0.0, 0.0, 0.0]
      && position == [None, None, None, None] && offset == [0.0, 0.0, 0.0, 0.0]
      && layers == [] && !hasRetracted && !retracted && !zUp
      && nextLine == 0 && prevE.None? && history == []
    }

    /** `reset`: forget the position, the bounds, the layers and the history; `retracting` and `z_hopping` survive. */
    method Reset()
      requires Valid()
      modifies this`isRelative, this`maxPos, this`minPos, this`position, this`offset,
               this`materialMax, this`materialMin, this`layers, this`hasRetracted, this`retracted, this`zUp,
               this`nextLine, this`prevE, this`history
      ensures Valid() && Cleared()
    {
      ResetMotion();
      ResetPrint();
      ResetHistory();
    }

    method ResetMotion()
      modifies this`isRelative, this`maxPos, this`minPos, this`position, this`offset
      ensures !isRelative && maxPos == [0.0, 0.0, 0.0, 0.0] && minPos == [0.0, 0.0, 0.0, 0.0]
      ensures position == [None, None, None, None] && offset == [0.0, 0.0, 0.0, 0.0]
    {
      isRelative := false;
      maxPos, minPos := [0.0, 0.0, 0.0, 0.0], [0.0, 0.0, 0.0, 0.0];
      position := [None, None, None, None];
      offset := [0.0, 0.0, 0.0, 0.0];
    }

    method ResetPrint()
      modifies this`materialMax, this`materialMin, this`layers, this`hasRetracted, this`retracted, this`zUp
      ensures materialMax == [0.0, 0.0, 0.0] && materialMin == [0.0, 0.0, 0.0]
      ensures layers == [] && !hasRetracted && !retracted && !zUp
    {
      materialMax, materialMin := [0.0, 0.0, 0.0], [0.0, 0.0, 0.0];
      layers := [];
      hasRetracted, retracted, zUp := false, false, false;
    }

    method ResetHistory()
      modifies this`nextLine, this`prevE, this`history
      ensures nextLine == 0 && prevE.None? && history == []
    {
      nextLine := 0;
      prevE := None;
      history := [];
    }

    /** `echo`: write the command back while the output is open. */
    method Echo(command: string, args: seq<string>, comment: string)
      modifies this`written
      ensures written == old(written) + (if outputting then [Line(Deparse(command, args, comment))] else [])
    {
      if outputting {
        written := written + [Line(Deparse(command, args, comment))];
      }
    }

    /**
     * `materialized`, called when the extruder reaches a new maximum: widen
     * the printed bounds of X, Y and Z to the current position, record the
     * layer, and note that the print goes on after a retract. Comparing an
     * axis that is still `None` raises.
     */
    method Materialized() returns (r: Result<(), TowerError>)
      requires Valid()
      modifies this`materialMax, this`materialMin, this`layers, this`retracted, this`zUp, this`retracting
      ensures Valid()
      ensures r.Success? <==> position[0].Some? && position[1].Some? && position[2].Some?
      ensures r.Failure? ==> r.error == UnknownPosition
      ensures r.Success? ==>
                (forall a :: 0 <= a < 3 ==>
                   materialMax[a] == RMax(old(materialMax[a]), position[a].value)
                   && materialMin[a] == RMin(old(materialMin[a]), position[a].value))
                && layers == AddLayer(old(layers), position[2].value)
                && !retracted && !zUp && retracting == (old(retracting) || hasRetracted)
    {
      var axis := 0;
      while axis < 3
        invariant 0 <= axis <= 3 && |materialMax| == 3 && |materialMin| == 3
        invariant layers == old(layers) && retracted == old(retracted) && zUp == old(zUp) && retracting == old(retracting)
        invariant forall a :: 0 <= a < axis ==> position[a].Some?
        invariant forall a :: 0 <= a < 3 ==>
                    materialMax[a] == (if a < axis then RMax(old(materialMax[a]), position[a].value) else old(materialMax[a]))
                    && materialMin[a] == (if a < axis then RMin(old(materialMin[a]), position[a].value) else old(materialMin[a]))
      {
        if position[axis].None? {
          return Failure(UnknownPosition);
        }
        var p := position[axis].value;
        if p > materialMax[axis] {
          materialMax := materialMax[axis := p];
        }
        if p < materialMin[axis] {
          materialMin := materialMin[axis := p];
        }
        axis := axis + 1;
      }
      layers := AddLayer(layers, position[2].value);
      retracted, zUp := false, false;
      if hasRetracted {
        retracting := true;
      }
      return Success(());
    }

    /**
     * `insert_set_temp` / `insert_set_k`: write the setting of the current
     * floor (the linear-advance tower first writes `M400`) and note that the
     * print's own setting has been overridden.
     */
    method InsertSetting() returns (r: Result<(), TowerError>)
      modifies this`written, this`overridden
      ensures r.Success? <==> CurSetting(policy, floors, curFloor).Success?
      ensures r.Success? ==> written == old(written) + SettingLines(policy, CurSetting(policy, floors, curFloor).value) && overridden
      ensures r.Failure? ==> written == old(written) + (if policy.LinearAdvance? then [Line(WaitForMoves)] else [])
                             && overridden == old(overridden)
    {
      if policy.LinearAdvance? {
        written := written + [Line(WaitForMoves)];
      }
      match CurSetting(policy, floors, curFloor) {
        case Failure(e) =>
          return Failure(e);
        case Success(s) =>
          written := written + [Inserted(SetSetting(s))];
          overridden := true;
          return Success(());
      }
    }

    /**
     * `maybe_insert_temp` / `maybe_insert_k`: while writing, when the printed
     * height passes the top of the current floor, move up one floor and insert
     * its setting; a setting is also inserted at the second layer when none
     * was yet.
     */
    method MaybeInsert() returns (r: Result<(), TowerError>)
      modifies this`curFloor, this`written, this`overridden
      ensures old(written) <= written
      ensures !outputting ==> r.Success? && curFloor == old(curFloor) && written == old(written) && overridden == old(overridden)
      ensures outputting ==>
                var (insert, f) := NextFloor(materialMax[2], old(curFloor), floorSize, |layers|, old(overridden));
                curFloor == f
                && (!insert ==> r.Success? && written == old(written) && overridden == old(overridden))
                && (insert ==> (r.Success? <==> CurSetting(policy, floors, f).Success?))
                && (insert && r.Success? ==>
                      written == old(written) + FloorLines(policy, materialMax[2], f, floors, CurSetting(policy, floors, f).value)
                      && overridden)
    {
      if !outputting {
        return Success(());
      }
      var height := materialMax[2];
      var (insert, f) := NextFloor(height, curFloor, floorSize, |layers|, overridden);
      curFloor := f;
      if !insert {
        return Success(());
      }
      match CurSetting(policy, floors, curFloor) {
        case Failure(e) =>
          return Failure(e);
        case Success(s) =>
          written := written + [FloorNotes(height, curFloor, s)];
          r := InsertSetting();
          if r.Failure? {
            return;
          }
          written := written + [Inserted(FloorBanner(curFloor + 1, floors, if s.K? then Some(s.factor) else None))];
      }
    }

    /** The tower's `z_lift`, on a new Z maximum: a floor may start here unless the print retracts or Z-hops. */
    method ZLift() returns (r: Result<(), TowerError>)
      modifies this`curFloor, this`written, this`overridden
      ensures !(ranOnce && !retracting && !zHopping) ==>
                r.Success? && curFloor == old(curFloor) && written == old(written) && overridden == old(overridden)
      ensures curFloor == old(curFloor) || curFloor == old(curFloor) + 1
      ensures old(written) <= written && (!outputting ==> written == old(written))
    {
      if ranOnce && !retracting && !zHopping {
        r := MaybeInsert();
      } else {
        r := Success(());
      }
    }

    /**
     * `walk back from line n`: the loops of `retract` and `extruder_pause`,
     * which label the earlier lines up to the first one the walk does not pass.
     */
    method WalkBack(w: Walk, n: nat)
      requires n < |history|
      modifies this`history
      ensures history == Walked(w, old(history), n)
    {
      ghost var h := history;
      var labelled := history;
      var lo := n;
      var extrusion := 0.0;
      var stopped := false;
      while !stopped && lo > 0
        invariant lo <= n
        invariant WalkStart(w, h, n) <= lo
        invariant stopped ==> WalkStart(w, h, n) == lo
        invariant labelled == LabelledFrom(w, h, n, lo)
        invariant extrusion == ESum(h, lo, n)
        decreases lo, if stopped then 0 else 1
      {
        WalkPassesAt(w, h, n, lo - 1);
        WalkStep(w, h, n, lo, labelled, extrusion);
        if !Passes(w, labelled[lo - 1]) {
          stopped := true;
        } else {
          var moved := labelled[lo - 1].delta[3];
          labelled := labelled[lo - 1 := Label(w, labelled[lo - 1], n - (lo - 1), extrusion)];
          extrusion := extrusion + moved;
          lo := lo - 1;
        }
      }
      history := labelled;
    }

    /**
     * The tower's `retract`: label the lines that lead to this retract and to
     * the last extruder pause, echo a note, and let a floor start here when
     * the print retracts before its layer changes.
     */
    method Retract(line: nat) returns (r: Result<(), TowerError>)
      requires line < |history|
      modifies this`hasRetracted, this`retracted, this`history, this`written, this`curFloor, this`overridden
      ensures hasRetracted && retracted
      ensures history == Walked(ToPause, Walked(ToRetract, old(history), line), line)
      ensures old(written) + (if outputting then [RetractNote(prevE, position[3])] else []) <= written
      ensures !outputting ==> written == old(written)
      ensures !(ranOnce && retracting && !zHopping) ==>
                r.Success? && written == old(written) + (if outputting then [RetractNote(prevE, position[3])] else [])
      ensures curFloor == old(curFloor) || curFloor == old(curFloor) + 1
    {
      hasRetracted, retracted := true, true;
      WalkBack(ToRetract, line);
      WalkBack(ToPause, line);
      if outputting {
        written := written + [RetractNote(prevE, position[3])];
      }
      if ranOnce && retracting && !zHopping {
        r := MaybeInsert();
      } else {
        r := Success(());
      }
    }

    /**
     * `detect_retract`, at the end of a completed move: the line retracts when
     * it leaves the extruder below where the previous move left it. A line
     * whose E position is still unknown does not retract.
     */
    method DetectRetract(line: nat) returns (r: Result<(), TowerError>)
      requires line < |history|
      modifies this`history, this`prevE, this`hasRetracted, this`retracted, this`written, this`curFloor, this`overridden
      ensures var flag := RetractFlag(position[3], old(prevE));
              var marked := old(history)[line := old(history)[line].(retract := Some(flag))];
              history == (if flag then Walked(ToPause, Walked(ToRetract, marked, line), line) else marked)
              && history[line] == marked[line]
              && (!flag ==> r.Success? && written == old(written) && curFloor == old(curFloor)
                            && hasRetracted == old(hasRetracted) && retracted == old(retracted))
      ensures prevE == (if position[3].Some? then position[3] else old(prevE))
      ensures old(written) <= written && (!outputting ==> written == old(written))
      ensures curFloor == old(curFloor) || curFloor == old(curFloor) + 1
    {
      if position[3].None? {
        history := history[line := history[line].(retract := Some(false))];
        return Success(());
      }
      if prevE.None? {
        prevE := position[3];
      }
      if position[3].value < prevE.value {
        history := history[line := history[line].(retract := Some(true))];
        ghost var marked := history;
        r := Retract(line);
        WalkedAt(ToRetract, marked, line, line);
        WalkedAt(ToPause, Walked(ToRetract, marked, line), line, line);
      } else {
        history := history[line := history[line].(retract := Some(false))];
        r := Success(());
      }
      prevE := position[3];
    }

    /** The first half of `move_axis`: the new coordinate of the axis, and what the line's analysis records. */
    method RecordMove(axis: nat, number: real, line: nat) returns (p: real)
      requires axis < 4 && line < |history|
      modifies this`position, this`history
      ensures p == MovedTo(isRelative, old(position[axis]), offset[axis], number)
      ensures position == old(position)[axis := Some(p)]
      ensures history == old(history)[line := Recorded(old(history[line]), old(position), axis, number, isRelative, offset[axis])]
    {
      p := MovedTo(isRelative, position[axis], offset[axis], number);
      history := history[line := Recorded(history[line], position, axis, number, isRelative, offset[axis])];
      position := position[axis := Some(p)];
    }

    /**
     * `move_axis`: move one axis, relatively or to `offset + number`, record
     * the move in the line's analysis and widen the axis' bounds; a new
     * maximum of E marks printed material and a new maximum of Z may start a
     * floor. A negative Z argument marks a Z-hop.
     */
    method MoveAxis(axis: nat, number: real, line: nat) returns (r: Result<(), TowerError>)
      requires axis < 4 && line < |history| && Valid()
      modifies this`position, this`history, this`maxPos, this`minPos, this`zUp, this`zHopping,
               this`materialMax, this`materialMin, this`layers, this`retracted, this`retracting,
               this`curFloor, this`written, this`overridden
      ensures Valid()
      ensures var p := MovedTo(isRelative, old(position[axis]), offset[axis], number);
              position == old(position)[axis := Some(p)]
              && history == old(history)[line := Recorded(old(history[line]), old(position), axis, number, isRelative, offset[axis])]
              && maxPos == old(maxPos)[axis := RMax(old(maxPos[axis]), p)]
              && (r.Success? ==> minPos == old(minPos)[axis := RMin(old(minPos[axis]), p)])
      ensures r.Success? && axis == 2 && number < 0.0 ==> !zUp && zHopping
      ensures axis != 3 ==> layers == old(layers)
      ensures old(written) <= written && (!outputting ==> written == old(written))
      ensures curFloor == old(curFloor) || curFloor == old(curFloor) + 1
    {
      var p := RecordMove(axis, number, line);
      r := NewMaximum(axis, p);
      if r.Success? {
        NewMinimum(axis, p, number);
      }
    }

    /** The middle of `move_axis`: a new maximum of E marks printed material, a new maximum of Z may start a floor. */
    method NewMaximum(axis: nat, p: real) returns (r: Result<(), TowerError>)
      requires axis < 4 && Valid()
      modifies this`maxPos, this`materialMax, this`materialMin, this`layers, this`retracted, this`zUp, this`retracting,
               this`curFloor, this`written, this`overridden
      ensures Valid() && maxPos == old(maxPos)[axis := RMax(old(maxPos[axis]), p)]
      ensures !(p > old(maxPos[axis]) && axis == 3) ==> layers == old(layers)
      ensures old(written) <= written && (!outputting ==> written == old(written))
      ensures curFloor == old(curFloor) || curFloor == old(curFloor) + 1
    {
      r := Success(());
      if p > maxPos[axis] {
        maxPos := maxPos[axis := p];
        if axis == 3 {
          r := Materialized();
        } else if axis == 2 {
          r := ZLift();
        }
      }
    }

    /** The end of `move_axis`: widen the minimum, and a negative Z argument marks a Z-hop. */
    method NewMinimum(axis: nat, p: real, number: real)
      requires axis < 4
      modifies this`minPos, this`zUp, this`zHopping
      ensures minPos == old(minPos)[axis := RMin(old(minPos[axis]), p)]
      ensures axis == 2 && number < 0.0 ==> !zUp && zHopping
      ensures !(axis == 2 && number < 0.0) ==> zUp == old(zUp) && zHopping == old(zHopping)
    {
      if p < minPos[axis] {
        minPos := minPos[axis := p];
      }
      if axis == 2 && number < 0.0 {
        zUp, zHopping := false, true;
      }
    }

    /**
     * One argument of `Machine.move`: `F` sets the feedrate, an axis letter
     * moves that axis, and any other letter ends the move (`goOn` is false).
     */
    method MoveArg(arg: string, line: nat) returns (goOn: bool, r: Result<(), TowerError>)
      requires arg != [] && line < |history| && Valid()
      modifies this`position, this`history, this`maxPos, this`minPos, this`zUp, this`zHopping,
               this`materialMax, this`materialMin, this`layers, this`retracted, this`retracting,
               this`curFloor, this`written, this`overridden, this`feedrate
      ensures Valid() && |history| == |old(history)|
      ensures old(written) <= written && (!outputting ==> written == old(written))
      ensures curFloor >= old(curFloor)
      ensures r.Success? ==> (goOn <==> IsFeedrateWord(arg) || AxisIndex(arg[0]).Some?)
      ensures r.Success? ==> feedrate == ArgFeedrate(arg, old(feedrate))
      ensures forall a :: 0 <= a < 4 && AxisIndex(arg[0]) != Some(a) ==> position[a] == old(position[a])
      ensures r.Success? && goOn && !IsFeedrateWord(arg) ==> position[AxisIndex(arg[0]).value].Some?
      ensures history[line].retract == old(history[line].retract) && history[line].feedrate == old(history[line].feedrate)
    {
      goOn := true;
      r := Success(());
      if IsFeedrateWord(arg) {
        match ParseNumber(arg[1..]) {
          case None =>
            r := Failure(NotANumber(arg[1..]));
          case Some(d) =>
            feedrate := Some(DecValue(d));
        }
      } else {
        match AxisIndex(arg[0]) {
          case None =>
            goOn := false;
          case Some(axis) =>
            match ParseNumber(arg[1..]) {
              case None =>
                r := Failure(NotANumber(arg[1..]));
              case Some(d) =>
                r := MoveAxis(axis, DecValue(d), line);
            }
        }
      }
    }

    /**
     * `Machine.move` for `G0` and `G1`: apply the arguments in order (`F`
     * sets the feedrate, an axis letter moves that axis) and stop at the
     * first other letter; a move that reaches its end records the feedrate
     * in the line's analysis and detects a retract.
     */
    method MachineMove(args: seq<string>, line: nat) returns (r: Result<(), TowerError>)
      requires line < |history| && Valid()
      requires forall i :: 0 <= i < |args| ==> args[i] != []
      modifies this`position, this`history, this`maxPos, this`minPos, this`zUp, this`zHopping,
               this`materialMax, this`materialMin, this`layers, this`retracted, this`retracting,
               this`curFloor, this`written, this`overridden, this`feedrate, this`prevE, this`hasRetracted
      ensures Valid() && |history| == |old(history)|
      ensures old(written) <= written && (!outputting ==> written == old(written))
      ensures curFloor >= old(curFloor)
      ensures forall a :: 0 <= a < 4 && !Names(args, a) ==> position[a] == old(position[a])
      ensures r.Success? ==> feedrate == FeedrateAfter(args[..MoveStop(args)], old(feedrate))
      ensures r.Success? ==> forall a :: 0 <= a < 4 && Names(args[..MoveStop(args)], a) ==> position[a].Some?
      ensures r.Success? && MoveStop(args) < |args| ==>
                history[line].retract == old(history[line].retract) && history[line].feedrate == old(history[line].feedrate)
                && prevE == old(prevE)
      ensures r.Success? && MoveStop(args) == |args| ==>
                history[line].retract.Some?
                && history[line].feedrate == (if feedrate.Some? then feedrate else old(history[line].feedrate))
    {
      var completed;
      completed, r := ApplyArgs(args, line);
      if r.Failure? || !completed {
        return;
      }
      r := FinishMove(line);
    }

    /** The end of a completed `Machine.move`: record the feedrate in the line's analysis, then detect a retract. */
    method FinishMove(line: nat) returns (r: Result<(), TowerError>)
      requires line < |history|
      modifies this`history, this`prevE, this`hasRetracted, this`retracted, this`written, this`curFloor, this`overridden
      ensures |history| == |old(history)|
      ensures old(written) <= written && (!outputting ==> written == old(written))
      ensures curFloor >= old(curFloor)
      ensures history[line].retract.Some?
      ensures history[line].feedrate == (if feedrate.Some? then feedrate else old(history[line].feedrate))
    {
      if feedrate.Some? {
        history := history[line := history[line].(feedrate := feedrate)];
      }
      r := DetectRetract(line);
    }

    /** The argument loop of `Machine.move`; `completed` tells whether it reached the last argument. */
    method ApplyArgs(args: seq<string>, line: nat) returns (completed: bool, r: Result<(), TowerError>)
      requires line < |history| && Valid()
      requires forall i :: 0 <= i < |args| ==> args[i] != []
      modifies this`position, this`history, this`maxPos, this`minPos, this`zUp, this`zHopping,
               this`materialMax, this`materialMin, this`layers, this`retracted, this`retracting,
               this`curFloor, this`written, this`overridden, this`feedrate
      ensures Valid() && |history| == |old(history)|
      ensures old(written) <= written && (!outputting ==> written == old(written))
      ensures curFloor >= old(curFloor)
      ensures forall a :: 0 <= a < 4 && !Names(args, a) ==> position[a] == old(position[a])
      ensures r.Success? ==> (completed <==> MoveStop(args) == |args|)
      ensures r.Success? ==> feedrate == FeedrateAfter(args[..MoveStop(args)], old(feedrate))
      ensures r.Success? ==> forall a :: 0 <= a < 4 && Names(args[..MoveStop(args)], a) ==> position[a].Some?
      ensures history[line].retract == old(history[line].retract) && history[line].feedrate == old(history[line].feedrate)
    {
      var i := 0;
      while i < |args|
        invariant 0 <= i <= |args| && i <= MoveStop(args)
        invariant Valid() && |history| == |old(history)|
        invariant old(written) <= written && (!outputting ==> written == old(written))
        invariant curFloor >= old(curFloor)
        invariant forall a :: 0 <= a < 4 && !Names(args[..i], a) ==> position[a] == old(position[a])
        invariant forall a :: 0 <= a < 4 && Names(args[..i], a) ==> position[a].Some?
        invariant feedrate == FeedrateAfter(args[..i], old(feedrate))
        invariant history[line].retract == old(history[line].retract) && history[line].feedrate == old(history[line].feedrate)
      {
        var goOn;
        goOn, r := ArgTurn(args, i, line, old(position), old(feedrate));
        if r.Failure? {
          return false, r;
        }
        if !goOn {
          NamesPrefix(args, i);
          return false, r;
        }
        i := i + 1;
      }
      assert args[..i] == args;
      NamesPrefix(args, i);
      return true, Success(());
    }

    /** One turn of the argument loop of `Machine.move`: argument `i`, after the first `i` were applied from `pos0` and `f0`. */
    method ArgTurn(args: seq<string>, i: nat, line: nat, ghost pos0: Place, ghost f0: Option<real>) returns (goOn: bool, r: Result<(), TowerError>)
      requires i < |args| && line < |history| && Valid()
      requires forall j :: 0 <= j < |args| ==> args[j] != []
      requires i <= MoveStop(args)
      requires forall a :: 0 <= a < 4 && !Names(args[..i], a) ==> position[a] == pos0[a]
      requires forall a :: 0 <= a < 4 && Names(args[..i], a) ==> position[a].Some?
      requires feedrate == FeedrateAfter(args[..i], f0)
      modifies this`position, this`history, this`maxPos, this`minPos, this`zUp, this`zHopping,
               this`materialMax, this`materialMin, this`layers, this`retracted, this`retracting,
               this`curFloor, this`written, this`overridden, this`feedrate
      ensures Valid() && |history| == |old(history)|
      ensures old(written) <= written && (!outputting ==> written == old(written))
      ensures curFloor >= old(curFloor)
      ensures forall a :: 0 <= a < 4 && !Names(args[..i], a) && AxisIndex(args[i][0]) != Some(a) ==> position[a] == pos0[a]
      ensures r.Success? ==> (goOn <==> i < MoveStop(args))
      ensures r.Success? && goOn ==> feedrate == FeedrateAfter(args[..i + 1], f0)
      ensures r.Success? && goOn ==> forall a :: 0 <= a < 4 && Names(args[..i + 1], a) ==> position[a].Some?
      ensures r.Success? && goOn ==> forall a :: 0 <= a < 4 && !Names(args[..i + 1], a) ==> position[a] == pos0[a]
      ensures r.Success? && !goOn ==> feedrate == old(feedrate) && position == old(position)
      ensures history[line].retract == old(history[line].retract) && history[line].feedrate == old(history[line].feedrate)
    {
      var arg := args[i];
      assert args[..i + 1][..i] == args[..i] && args[..i + 1][i] == arg;
      goOn, r := MoveArg(arg, line);
      NamesGrow(args, i);
    }

    /** The loop of `setoff` (`G92`): each axis argument sets the axis' offset with `offset_axis`, until an unknown letter. */
    method SetOffsets(args: seq<string>) returns (r: Result<(), TowerError>)
      requires forall i :: 0 <= i < |args| ==> args[i] != []
      modifies this`offset
      ensures r.Success? <==> Offsets(old(offset), position, args).Success?
      ensures r.Success? ==> offset == Offsets(old(offset), position, args).value
      ensures r.Failure? ==> r.error == Offsets(old(offset), position, args).error
    {
      var i := 0;
      while i < |args|
        invariant 0 <= i <= |args|
        invariant Offsets(old(offset), position, args) == Offsets(offset, position, args[i..])
      {
        assert args[i..][1..] == args[i + 1..];
        match AxisIndex(args[i][0]) {
          case None =>
            return Success(());
          case Some(a) =>
            match ParseNumber(args[i][1..]) {
              case None =>
                return Failure(NotANumber(args[i][1..]));
              case Some(d) =>
                offset := offset[a := Known(position[a]) - DecValue(d)];
            }
        }
        i := i + 1;
      }
      return Success(());
    }

    /** The tower's `setoff`: set the offsets, then echo the command. */
    method SetOff(command: string, args: seq<string>, comment: string) returns (r: Result<(), TowerError>)
      requires forall i :: 0 <= i < |args| ==> args[i] != []
      modifies this`offset, this`written
      ensures r.Success? <==> Offsets(old(offset), position, args).Success?
      ensures r.Success? ==> offset == Offsets(old(offset), position, args).value
                             && written == old(written) + (if outputting then [Line(Deparse(command, args, comment))] else [])
      ensures r.Failure? ==> written == old(written)
    {
      r := SetOffsets(args);
      if r.Success? {
        Echo(command, args, comment);
      }
    }

    /**
     * `set_temp` / `preheat` (`M109`, `M104`): from the second layer on, the
     * temperature tower comments the print's own command out and, while
     * writing, puts the floor's temperature in its place; the
     * linear-advance tower echoes the command.
     */
    method SetTemp(command: string, args: seq<string>, comment: string) returns (r: Result<(), TowerError>)
      modifies this`written, this`overridden
      ensures var overriding := policy.Temperature? && |layers| > 1;
              var first := if overriding then Line(Deparse("", [], OverriddenPrefix + Deparse(command, args, comment)))
                           else Line(Deparse(command, args, comment));
              old(written) + (if outputting then [first] else []) <= written
              && (!(overriding && outputting) ==> r.Success? && |written| == |old(written)| + (if outputting then 1 else 0))
      ensures policy.Temperature? && |layers| > 1 && outputting ==>
                (r.Success? <==> CurSetting(policy, floors, curFloor).Success?)
                && (r.Success? ==> written[|old(written)| + 1..] == SettingLines(policy, CurSetting(policy, floors, curFloor).value))
      ensures !outputting ==> written == old(written)
    {
      r := Success(());
      if policy.Temperature? && |layers| > 1 {
        Echo("", [], OverriddenPrefix + Deparse(command, args, comment));
        if outputting {
          r := InsertSetting();
        }
      } else {
        Echo(command, args, comment);
      }
    }

    /**
     * `modify_move`: write and perform the move with its `F` arguments
     * replaced by the new feedrate, or with the feedrate appended when it
     * had none.
     */
    method ModifyMove(command: string, args: seq<string>, comment: string, f: real, line: nat) returns (r: Result<(), TowerError>)
      requires line < |history| && Valid()
      requires forall i :: 0 <= i < |args| ==> args[i] != []
      modifies this`position, this`history, this`maxPos, this`minPos, this`zUp, this`zHopping,
               this`materialMax, this`materialMin, this`layers, this`retracted, this`retracting,
               this`curFloor, this`written, this`overridden, this`feedrate, this`prevE, this`hasRetracted
      ensures Valid() && |history| == |old(history)|
      ensures old(written) + (if outputting then [Line(Deparse(command, WithFeedrate(args, "F" + formatFeedrate(f)), comment))] else []) <= written
      ensures !outputting ==> written == old(written)
      ensures curFloor >= old(curFloor)
    {
      var fword := "F" + formatFeedrate(f);
      var newArgs := ReplaceFeedrateArgs(args, fword);
      WithFeedrateWords(args, fword);
      Echo(command, newArgs, comment);
      r := MachineMove(newArgs, line);
    }

    /**
     * `maybe_modify_move`, for a move of the second pass: take the feedrate
     * the first pass recorded for the line as `old_feedrate`, then slow the
     * move down, restore the feedrate, or write it as it is.
     */
    method MaybeModifyMove(command: string, args: seq<string>, comment: string, line: nat) returns (r: Result<(), TowerError>)
      requires line < |history| && line < |gcode| && Valid() && analysis.Some? && outputting
      requires forall i :: 0 <= i < |args| ==> args[i] != []
      modifies this`position, this`history, this`maxPos, this`minPos, this`zUp, this`zHopping,
               this`materialMax, this`materialMin, this`layers, this`retracted, this`retracting,
               this`curFloor, this`written, this`overridden, this`feedrate, this`prevE, this`hasRetracted, this`oldFeedrate
      ensures Valid() && |history| == |old(history)|
      ensures var la := analysis.value[line];
              oldFeedrate == (if la.feedrate.Some? then la.feedrate else old(oldFeedrate))
      ensures var choice := ChooseRewrite(analysis.value[line], oldFeedrate, old(feedrate), args);
              (choice.Failure? ==> r == Failure(choice.error) && written == old(written))
              && (choice.Success? ==> old(written) + RewriteLines(command, args, comment, choice.value, formatFeedrate) <= written)
      ensures old(written) <= written && curFloor >= old(curFloor)
    {
      var la := analysis.value[line];
      if la.feedrate.Some? {
        oldFeedrate := la.feedrate;
      }
      var choice := ChooseRewrite(la, oldFeedrate, feedrate, args);
      match choice {
        case Failure(e) =>
          return Failure(e);
        case Success(Slowed(from, to)) =>
          written := written + [FeedrateNote(from / 60.0, to / 60.0)];
          r := ModifyMove(command, args, comment, to, line);
        case Success(Restored(to)) =>
          r := ModifyMove(command, args, comment, to, line);
        case Success(AsIs) =>
          Echo(command, args, comment);
          r := MachineMove(args, line);
      }
    }

    /**
     * `move` (`G0`, `G1`) as the towers run it: while the temperature tower
     * writes its second pass it goes through `maybe_modify_move`; otherwise
     * the move is echoed (the temperature tower drops its comment) and
     * performed.
     */
    method Move(command: string, args: seq<string>, comment: string, line: nat) returns (r: Result<(), TowerError>)
      requires line < |history| && line < |gcode| && Valid()
      requires forall i :: 0 <= i < |args| ==> args[i] != []
      modifies this`position, this`history, this`maxPos, this`minPos, this`zUp, this`zHopping,
               this`materialMax, this`materialMin, this`layers, this`retracted, this`retracting,
               this`curFloor, this`written, this`overridden, this`feedrate, this`prevE, this`hasRetracted, this`oldFeedrate
      ensures Valid() && |history| == |old(history)|
      ensures !(policy.Temperature? && analysis.Some? && outputting) ==>
                old(written) + (if outputting then [Line(Deparse(command, args, if policy.Temperature? then "" else comment))] else []) <= written
      ensures old(written) <= written && (!outputting ==> written == old(written))
      ensures curFloor >= old(curFloor)
    {
      if policy.Temperature? && analysis.Some? && outputting {
        r := MaybeModifyMove(command, args, comment, line);
      } else {
        Echo(command, args, if policy.Temperature? then "" else comment);
        r := MachineMove(args, line);
      }
    }

    /** `commands[command](command, args, comment)`: run the command's handler; every handler of the towers echoes. */
    method Dispatch(command: string, args: seq<string>, comment: string, line: nat) returns (r: Result<(), TowerError>)
      requires line < |history| && line < |gcode| && Valid()
      requires forall i :: 0 <= i < |args| ==> args[i] != []
      modifies this`position, this`history, this`maxPos, this`minPos, this`zUp, this`zHopping,
               this`materialMax, this`materialMin, this`layers, this`retracted, this`retracting,
               this`curFloor, this`written, this`overridden, this`feedrate, this`prevE, this`hasRetracted,
               this`isRelative, this`offset, this`oldFeedrate
      ensures Valid() && |history| == |old(history)|
      ensures old(written) <= written && (!outputting ==> written == old(written))
      ensures curFloor >= old(curFloor)
      ensures Route(command) == SetAbsolute ==> r.Success? && !isRelative
      ensures Route(command) == SetRelative ==> r.Success? && isRelative
      ensures Route(command) == SetAbsolute || Route(command) == SetRelative || Route(command) == EchoOnly ==>
                written == old(written) + (if outputting then [Line(Deparse(command, args, comment))] else [])
    {
      match Route(command) {
        case SetTemperature =>
          r := SetTemp(command, args, comment);
        case MoveHead =>
          r := Move(command, args, comment, line);
        case SetAbsolute =>
          isRelative := false;
          Echo(command, args, comment);
          r := Success(());
        case SetRelative =>
          isRelative := true;
          Echo(command, args, comment);
          r := Success(());
        case SetOffset =>
          r := SetOff(command, args, comment);
        case EchoOnly =>
          Echo(command, args, comment);
          r := Success(());
      }
    }

    /**
     * `run_line`: start the line's analysis at the current position when the
     * line is new, cut the comment off at the first `;`, copy a line without
     * a command to the output, run a command's handler, and label the lines
     * before an extruder pause.
     */
    method RunLine(line: nat) returns (r: Result<(), TowerError>)
      requires line < |gcode| && line <= |history| && Valid()
      modifies this`position, this`history, this`maxPos, this`minPos, this`zUp, this`zHopping,
               this`materialMax, this`materialMin, this`layers, this`retracted, this`retracting,
               this`curFloor, this`written, this`overridden, this`feedrate, this`prevE, this`hasRetracted,
               this`isRelative, this`offset, this`oldFeedrate
      ensures Valid() && |history| == (if line < old(|history|) then old(|history|) else line + 1)
      ensures old(written) <= written && (!outputting ==> written == old(written))
      ensures curFloor >= old(curFloor)
      ensures Words(SplitAtFirst(gcode[line], ';').0) == [] ==>
                r.Success? && written == old(written) + (if outputting then [Line(gcode[line])] else [])
    {
      if |history| <= line {
        history := history + [NewAnalysis(position)];
      }
      var text := gcode[line];
      var (code, rest) := SplitAtFirst(text, ';');
      var comment := if rest.Some? then rest.value else "";
      var words := Words(code);
      if words == [] {
        if outputting {
          written := written + [Line(text)];
        }
        r := Success(());
      } else {
        r := Dispatch(words[0], words[1..], comment, line);
        if r.Failure? {
          return;
        }
      }
      if history[line].delta[3] == 0.0 {
        WalkBack(ToPause, line);
      }
    }

    /** `run` and `end`: run every line in order, then keep the printed bounds and the analysis of the whole file. */
    method Run() returns (r: Result<(), TowerError>)
      requires |history| <= |gcode| && Valid()
      modifies this`position, this`history, this`maxPos, this`minPos, this`zUp, this`zHopping,
               this`materialMax, this`materialMin, this`layers, this`retracted, this`retracting,
               this`curFloor, this`written, this`overridden, this`feedrate, this`prevE, this`hasRetracted,
               this`isRelative, this`offset, this`oldFeedrate, this`nextLine, this`boundingMax, this`boundingMin, this`ranOnce, this`analysis
      ensures Valid()
      ensures r.Success? ==> ranOnce && analysis == Some(history) && |history| == |gcode|
                             && boundingMax == materialMax && boundingMin == materialMin
      ensures r.Failure? ==> ranOnce == old(ranOnce) && analysis == old(analysis)
      ensures old(written) <= written && (!outputting ==> written == old(written))
      ensures curFloor >= old(curFloor)
    {
      nextLine := 0;
      while nextLine < |gcode|
        invariant nextLine <= |gcode| && Valid()
        invariant |history| == (if nextLine < old(|history|) then old(|history|) else nextLine)
        invariant ranOnce == old(ranOnce) && analysis == old(analysis)
        invariant old(written) <= written && (!outputting ==> written == old(written))
        invariant curFloor >= old(curFloor)
      {
        r := RunLine(nextLine);
        if r.Failure? {
          return;
        }
        nextLine := nextLine + 1;
      }
      boundingMax, boundingMin := materialMax, materialMin;
      ranOnce := true;
      analysis := Some(history);
      r := Success(());
    }

    /**
     * The tower's `__init__` after `Machine.__init__`: run the file once,
     * keep its bounds, reset the machine, and divide the printed height
     * into `floors` floors. No floors, one floor (whose change per floor
     * divides by zero) and a print without height are errors.
     */
    method Analyse(floors: real) returns (r: Result<(), TowerError>)
      requires history == [] && Valid()
      modifies this`position, this`history, this`maxPos, this`minPos, this`zUp, this`zHopping,
               this`materialMax, this`materialMin, this`layers, this`retracted, this`retracting,
               this`curFloor, this`written, this`overridden, this`feedrate, this`prevE, this`hasRetracted,
               this`isRelative, this`offset, this`oldFeedrate, this`nextLine, this`boundingMax, this`boundingMin,
               this`ranOnce, this`analysis, this`towerHeight, this`floorSize, this`floors
      ensures Valid()
      ensures floors == 0.0 || floors == 1.0 ==> r.Failure?
      ensures r.Success? ==>
                ranOnce && analysis.Some? && |analysis.value| == |gcode| && Cleared()
                && towerHeight == boundingMax[2] && towerHeight > 0.0 && floorSize * floors == towerHeight
                && this.floors == floors && curFloor == 0 && !overridden
    {
      r := Run();
      if r.Success? {
        Reset();
        r := DivideIntoFloors(floors);
      }
    }

    /** The end of the tower's `__init__`: the floor size, the first floor, and the change per floor. */
    method DivideIntoFloors(floors: real) returns (r: Result<(), TowerError>)
      modifies this`towerHeight, this`floorSize, this`curFloor, this`floors, this`overridden
      ensures towerHeight == boundingMax[2]
      ensures r.Success? <==> floors != 0.0 && floors != 1.0 && boundingMax[2] > 0.0
      ensures r.Success? ==> floorSize * floors == towerHeight && this.floors == floors && curFloor == 0 && !overridden
      ensures r.Failure? ==> r.error == (if floors == 0.0 || boundingMax[2] > 0.0 then DivisionByZero else FlatTower)
    {
      towerHeight := boundingMax[2];
      if floors == 0.0 {
        return Failure(DivisionByZero);
      }
      floorSize := towerHeight / floors;
      if towerHeight <= 0.0 {
        return Failure(FlatTower);
      }
      curFloor := 0;
      this.floors := floors;
      overridden := false;
      var inc := Increment(policy, floors);
      if inc.Failure? {
        return Failure(inc.error);
      }
      return Success(());
    }

    /**
     * The tower's `generate`: run the file again with the output open, then
     * check that the print reached the top floor, whose setting is the
     * tower's end setting.
     */
    method Generate() returns (r: Result<(), TowerError>)
      requires history == [] && Valid() && 0 <= curFloor
      modifies this`position, this`history, this`maxPos, this`minPos, this`zUp, this`zHopping,
               this`materialMax, this`materialMin, this`layers, this`retracted, this`retracting,
               this`curFloor, this`written, this`overridden, this`feedrate, this`prevE, this`hasRetracted,
               this`isRelative, this`offset, this`oldFeedrate, this`nextLine, this`boundingMax, this`boundingMin,
               this`ranOnce, this`analysis, this`outputting
      ensures Valid() && !outputting
      ensures old(written) <= written
      ensures r.Success? ==> curFloor as real == floors - 1.0
      ensures r.Success? && floors != 1.0 ==> curFloor >= 1 && CurSetting(policy, floors, curFloor) == Success(policy.EndSetting())
    {
      outputting := true;
      r := Run();
      outputting := false;
      if r.Failure? {
        return;
      }
      if curFloor as real != floors - 1.0 {
        return Failure(WrongFinalFloor(curFloor));
      }
      if floors != 1.0 {
        TopFloorIsEnd(policy, floors, curFloor);
      }
    }
  }

  /**
   * The script's last two lines: analyse the print for a tower of `floors`
   * floors, then generate it. A generated tower ends on its top floor, with
   * the tower's end setting.
   */
  method MakeTower(policy: Policy, gcode: seq<string>, floors: real, formatFeedrate: real -> string)
    returns (m: Machine, r: Result<seq<Emitted>, TowerError>)
    ensures floors == 0.0 || floors == 1.0 ==> r.Failure?
    ensures r.Success? ==> r.value == m.written && !m.outputting && m.policy == policy && m.gcode == gcode
    ensures r.Success? ==> floors >= 2.0 && m.curFloor as real == floors - 1.0
                           && CurSetting(policy, floors, m.curFloor) == Success(policy.EndSetting())
  {
    m := new Machine(policy, gcode, formatFeedrate);
    var a := m.Analyse(floors);
    if a.Failure? {
      return m, Failure(a.error);
    }
    var g := m.Generate();
    if g.Failure? {
      return m, Failure(g.error);
    }
    return m, Success(m.written);
  }
}

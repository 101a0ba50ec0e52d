/**
 * The value computations of the two tower scripts, `temptower.py` (a
 * temperature tower) and `linear_advance_tower.py` (a linear-advance tower):
 * the setting of each floor, the floor a height belongs to, `deparse`, and
 * the argument rewriting of `modify_move`.
 */
module TowerPolicy {
  import opened Wrappers
  import opened Text

  /** The exceptions the tower scripts raise while analysing or generating. */
  datatype TowerError =
    | NotANumber(word: string)   // `float(arg[1:])` on text that is not a number
    | UnknownPosition            // `materialized` compares an axis position that is still `None`
    | DivisionByZero             // `floors == 0` in `floor_size`, or `floors == 1` in `temp_inc` / `k_inc`
    | FlatTower                  // `assert self.tower_height > 0`
    | MissingFeedrate            // `self.feedrate` read before any `F` argument was seen
    | WrongFinalFloor(floor: int) // `assert self.cur_floor == self.floors - 1`

  /** Which tower is generated, with the setting of its first and of its last floor. */
  datatype Policy =
    | Temperature(startTemp: int, endTemp: int)
    | LinearAdvance(startK: real, endK: real)
  {
    function Start(): real {
      if Temperature? then startTemp as real else startK
    }

    function End(): real {
      if Temperature? then endTemp as real else endK
    }

    /** The setting of the first floor, as the script writes it. */
    function StartSetting(): Setting {
      if Temperature? then Temp(startTemp) else K(startK)
    }

    /** The setting of the last floor, as the script writes it. */
    function EndSetting(): Setting {
      if Temperature? then Temp(endTemp) else K(endK)
    }
  }

  /** What a floor sets: a nozzle temperature (`M104 S…`) or a linear advance factor (`M900 K…`). */
  datatype Setting = Temp(degrees: int) | K(factor: real)

  /** Python's `int(x)` on a float: truncation toward zero. */
  function Trunc(x: real): (r: int)
    ensures 0.0 <= x ==> 0 <= r && r as real <= x < r as real + 1.0
    ensures x < 0.0 ==> r <= 0 && r as real - 1.0 < x <= r as real
  {
    if x >= 0.0 then x.Floor else -((-x).Floor)
  }

  /** `temp_inc` / `k_inc`: the change per floor, `(end - start) / (floors - 1)`. */
  function Increment(p: Policy, floors: real): (r: Result<real, TowerError>)
    ensures r.Failure? <==> floors == 1.0
    ensures r.Success? ==> r.value * (floors - 1.0) == p.End() - p.Start()
  {
    if floors == 1.0 then Failure(DivisionByZero)
    else Success((p.End() - p.Start()) / (floors - 1.0))
  }

  /** `max(min(cur_floor, floors), 0)`: the floor number held between 0 and `floors`. */
  function ClampFloor(f: int, floors: real): (r: real)
    ensures 0.0 <= r
    ensures 0.0 <= floors ==> r <= floors
    ensures 0 <= f && f as real <= floors ==> r == f as real
    ensures r <= f as real || r == 0.0
  {
    var low := if f as real <= floors then f as real else floors;
    if low >= 0.0 then low else 0.0
  }

  /** The setting of floor `f` before any rounding: `start + inc * max(min(f, floors), 0)`. */
  function Level(p: Policy, floors: real, f: int): (r: Result<real, TowerError>)
    ensures r.Failure? <==> floors == 1.0
  {
    match Increment(p, floors)
    case Failure(e) => Failure(e)
    case Success(inc) => Success(p.Start() + inc * ClampFloor(f, floors))
  }

  /** `cur_temp` (the level cut to an integer by `int(...)`) or `cur_k` (the level itself). */
  function CurSetting(p: Policy, floors: real, f: int): (r: Result<Setting, TowerError>)
    ensures r.Failure? <==> floors == 1.0
    ensures r.Success? ==> (r.value.Temp? <==> p.Temperature?)
  {
    match Level(p, floors, f)
    case Failure(e) => Failure(e)
    case Success(level) => if p.Temperature? then Success(Temp(Trunc(level))) else Success(K(level))
  }

  /** The ground floor gets the start setting, whatever the number of floors. */
  lemma GroundFloorIsStart(p: Policy, floors: real)
    requires floors != 1.0
    ensures Level(p, floors, 0) == Success(p.Start())
    ensures CurSetting(p, floors, 0) == Success(p.StartSetting())
  {
    var inc := Increment(p, floors).value;
    assert Increment(p, floors) == Success(inc);
    var c := ClampFloor(0, floors);
    assert c == 0.0;
    assert Level(p, floors, 0).Success?;
    assert Level(p, floors, 0).value == p.Start() + inc * c;
    assert inc * c == 0.0;
    if p.Temperature? {
      assert Trunc(p.startTemp as real) == p.startTemp;
    }
  }

  /** The last floor, number `floors - 1`, gets exactly the end setting. */
  lemma {:induction false} TopFloorIsEnd(p: Policy, floors: real, f: int)
    requires 1 <= f && floors == (f + 1) as real
    ensures Level(p, floors, f) == Success(p.End())
    ensures CurSetting(p, floors, f) == Success(p.EndSetting())
  {
    var inc := Increment(p, floors).value;
    assert Increment(p, floors) == Success(inc);
    var c := ClampFloor(f, floors);
    assert c == floors - 1.0;
    assert inc * c == p.End() - p.Start();
    assert Level(p, floors, f).Success?;
    assert Level(p, floors, f).value == p.Start() + inc * c;
    if p.Temperature? {
      assert Trunc(p.endTemp as real) == p.endTemp;
    }
  }

  lemma {:induction false} ScaleMonotone(s: real, inc: real, a: real, b: real)
    requires 0.0 <= inc && a <= b
    ensures s + inc * a <= s + inc * b
  {
    assert inc * b - inc * a == inc * (b - a);
  }

  lemma {:induction false} ScaledOrder(x: real, y: real, s: real, inc: real, a: real, b: real)
    requires x == s + inc * a && y == s + inc * b && 0.0 <= inc && a <= b
    ensures x <= y
  {
    ScaleMonotone(s, inc, a, b);
  }

  lemma {:induction false} IncrementSign(p: Policy, floors: real)
    requires floors > 1.0 && p.Start() <= p.End()
    ensures 0.0 <= Increment(p, floors).value
  {
    var inc := Increment(p, floors).value;
    var d := floors - 1.0;
    assert inc * d == p.End() - p.Start();
  }

  lemma ClampMonotone(f: int, g: int, floors: real)
    requires f <= g
    ensures ClampFloor(f, floors) <= ClampFloor(g, floors)
  {
  }

  lemma LevelValue(p: Policy, floors: real, f: int)
    requires floors != 1.0
    ensures Level(p, floors, f).Success?
    ensures Level(p, floors, f).value == p.Start() + Increment(p, floors).value * ClampFloor(f, floors)
  {
    var inc := Increment(p, floors).value;
    assert Increment(p, floors) == Success(inc);
  }

  /** With the start below the end, higher floors never get a lower setting. */
  lemma {:induction false} LevelMonotone(p: Policy, floors: real, f: int, g: int)
    requires floors > 1.0 && p.Start() <= p.End() && f <= g
    ensures Level(p, floors, f).value <= Level(p, floors, g).value
  {
    IncrementSign(p, floors);
    LevelValue(p, floors, f);
    LevelValue(p, floors, g);
    ClampMonotone(f, g, floors);
    ScaledOrder(Level(p, floors, f).value, Level(p, floors, g).value,
                p.Start(), Increment(p, floors).value, ClampFloor(f, floors), ClampFloor(g, floors));
  }

  /** Every floor of the tower, 0 to `floors - 1`, gets a setting between the start and the end. */
  lemma {:induction false} LevelWithinRange(p: Policy, floors: real, f: int)
    requires floors > 1.0 && p.Start() <= p.End()
    requires 0 <= f && f as real <= floors - 1.0
    ensures p.Start() <= Level(p, floors, f).value <= p.End()
  {
    var inc := Increment(p, floors).value;
    var d := floors - 1.0;
    assert inc * d == p.End() - p.Start();
    IncrementSign(p, floors);
    var c := ClampFloor(f, floors);
    assert c == f as real;
    assert Level(p, floors, f).value == p.Start() + inc * c;
    ScaleMonotone(p.Start(), inc, 0.0, c);
    ScaleMonotone(p.Start(), inc, c, d);
  }

  // ---------------------------------------------------------------------
  // Floors
  // ---------------------------------------------------------------------

  /** `cur_floor_limit`: the height of the top of floor `f`. */
  function FloorLimit(f: int, floorSize: real): real {
    (f + 1) as real * floorSize
  }

  /**
   * The decision of `maybe_insert_temp` / `maybe_insert_k` while the output
   * is written: whether to insert a setting, and the floor afterwards. The
   * floor moves up one when the printed height passes the top of the current
   * floor; a setting is also inserted once the print has more than one layer
   * and none was inserted yet.
   */
  function NextFloor(height: real, f: int, floorSize: real, layerCount: nat, overridden: bool): (r: (bool, int))
    ensures r.1 == f || r.1 == f + 1
    ensures r.1 == f + 1 <==> height > FloorLimit(f, floorSize)
    ensures r.0 <==> r.1 == f + 1 || (layerCount > 1 && !overridden)
  {
    var above := height > FloorLimit(f, floorSize);
    (above || (layerCount > 1 && !overridden), if above then f + 1 else f)
  }

  /** A height several floors above the current one still moves the tower up a single floor. */
  lemma {:induction false} FloorRisesByOne(height: real, f: int, floorSize: real, layerCount: nat, overridden: bool)
    requires floorSize > 0.0 && height > FloorLimit(f + 1, floorSize)
    ensures NextFloor(height, f, floorSize, layerCount, overridden) == (true, f + 1)
  {
    assert FloorLimit(f + 1, floorSize) == FloorLimit(f, floorSize) + floorSize;
  }

  // ---------------------------------------------------------------------
  // Echoed lines
  // ---------------------------------------------------------------------

  /** The words `deparse` joins: the command, its arguments and, when the comment is not empty, `;` and the comment. */
  function DeparseWords(command: string, args: seq<string>, comment: string): seq<string> {
    [command] + args + (if |comment| > 0 then [";", comment] else [])
  }

  /** `deparse`: a command written back as one line of G-code. */
  function Deparse(command: string, args: seq<string>, comment: string): string {
    JoinWords(DeparseWords(command, args, comment))
  }

  lemma {:induction false} JoinWordsAppend(ws: seq<string>, w: string)
    requires ws != []
    ensures JoinWords(ws + [w]) == JoinWords(ws) + " " + w
    decreases |ws|
  {
    if |ws| == 1 {
      assert ws + [w] == [ws[0], w];
      assert JoinWords([w]) == w;
    } else {
      assert (ws + [w])[1..] == ws[1..] + [w];
      JoinWordsAppend(ws[1..], w);
    }
  }

  /** `deparse` separates every word by one space, and the comment by ` ; `. */
  lemma DeparseSpacing(command: string, args: seq<string>, comment: string)
    ensures Deparse(command, args, comment)
         == JoinWords([command] + args) + (if comment == "" then "" else " ; " + comment)
  {
    var ws := [command] + args;
    if comment != "" {
      JoinWordsAppend(ws, ";");
      JoinWordsAppend(ws + [";"], comment);
      assert ws + [";", comment] == ws + [";"] + [comment];
    } else {
      assert ws + [] == ws;
    }
  }

  lemma {:induction false} WordLenAppend(s: string, t: string)
    requires t == [] || IsSpace(t[0])
    ensures WordLen(s + t) == WordLen(s)
    decreases |s|
  {
    if s == [] {
      assert s + t == t;
    } else if !IsSpace(s[0]) {
      assert (s + t)[1..] == s[1..] + t;
      WordLenAppend(s[1..], t);
    }
  }

  /** A trailing space does not change the words of a line. */
  lemma {:induction false} WordsTrailingSpace(s: string)
    ensures Words(s + " ") == Words(s)
    decreases |s|
  {
    if s == [] {
      assert Words(" ") == Words(""[..]);
    } else if IsSpace(s[0]) {
      assert (s + " ")[1..] == s[1..] + " ";
      WordsTrailingSpace(s[1..]);
    } else {
      var n := WordLen(s);
      WordLenAppend(s, " ");
      assert (s + " ")[..n] == s[..n];
      assert (s + " ")[n..] == s[n..] + " ";
      WordsTrailingSpace(s[n..]);
    }
  }

  /** Splitting at the first `c` finds the one just after a `c`-free prefix. */
  lemma SplitAtFirstAfter(a: string, b: string, c: char)
    requires c !in a
    ensures SplitAtFirst(a + [c] + b, c) == (a, Some(b))
  {
    var s := a + [c] + b;
    assert s[|a|] == c;
    var r := SplitAtFirst(s, c);
    assert r.1.Some?;
    var k := |r.0|;
    assert k == |a|;
    assert r.0 == s[..k] == a;
    assert r.1.value == s[k + 1..] == b;
  }

  /** A word of a G-code line as `run_line` sees it: non-empty, with no space and no `;`. */
  predicate CodeWord(w: string) {
    w != [] && NoSpace(w) && ';' !in w
  }

  lemma {:induction false} JoinWordsNoSemicolon(ws: seq<string>)
    requires forall i :: 0 <= i < |ws| ==> CodeWord(ws[i])
    ensures ';' !in JoinWords(ws)
    decreases |ws|
  {
    if |ws| > 1 {
      JoinWordsNoSemicolon(ws[1..]);
    }
  }

  /**
   * An echoed line read back by `run_line` gives the same command and
   * arguments; the comment comes back behind the one space `deparse` puts
   * after `;`.
   */
  lemma EchoReadsBack(command: string, args: seq<string>, comment: string)
    requires CodeWord(command) && forall i :: 0 <= i < |args| ==> CodeWord(args[i])
    ensures var (code, rest) := SplitAtFirst(Deparse(command, args, comment), ';');
            Words(code) == [command] + args
            && rest == (if comment == "" then None else Some(" " + comment))
  {
    var ws := [command] + args;
    assert forall i :: 0 <= i < |ws| ==> CodeWord(ws[i]) by {
      forall i | 0 <= i < |ws| ensures CodeWord(ws[i]) {
        if i > 0 { assert ws[i] == args[i - 1]; }
      }
    }
    JoinWordsNoSemicolon(ws);
    WordsJoinRoundTrip(ws);
    DeparseSpacing(command, args, comment);
    var j := JoinWords(ws);
    if comment == "" {
      var r := SplitAtFirst(j, ';');
      assert Deparse(command, args, comment) == j;
      assert r.1.None?;
    } else {
      assert Deparse(command, args, comment) == (j + " ") + [';'] + (" " + comment);
      assert ';' !in j + " ";
      SplitAtFirstAfter(j + " ", " " + comment, ';');
      WordsTrailingSpace(j);
    }
  }

  // ---------------------------------------------------------------------
  // Feedrate rewriting
  // ---------------------------------------------------------------------

  predicate IsFeedrateWord(w: string) {
    w != [] && w[0] == 'F'
  }

  predicate HasFeedrate(args: seq<string>) {
    exists w | w in args :: IsFeedrateWord(w)
  }

  /** The arguments with every `F` argument replaced by `fword`. */
  function ReplaceFeedrate(args: seq<string>, fword: string): (r: seq<string>)
    ensures |r| == |args|
  {
    if args == [] then []
    else
      var last := args[|args| - 1];
      ReplaceFeedrate(args[..|args| - 1], fword) + [if IsFeedrateWord(last) then fword else last]
  }

  /**
   * The arguments `modify_move` passes on: every `F` argument replaced by
   * `fword`, and `fword` appended when there was none.
   */
  function WithFeedrate(args: seq<string>, fword: string): seq<string> {
    ReplaceFeedrate(args, fword) + (if HasFeedrate(args) then [] else [fword])
  }

  /**
   * The argument loop of `modify_move`: copy the arguments with every `F`
   * argument replaced by `fword`, and append `fword` when none was found.
   */
  method ReplaceFeedrateArgs(args: seq<string>, fword: string) returns (newArgs: seq<string>)
    ensures newArgs == WithFeedrate(args, fword)
  {
    var found := false;
    newArgs := [];
    var i := 0;
    while i < |args|
      invariant 0 <= i <= |args|
      invariant newArgs == ReplaceFeedrate(args[..i], fword)
      invariant found <==> HasFeedrate(args[..i])
    {
      var arg := args[i];
      assert args[..i + 1][..i] == args[..i];
      assert args[..i + 1][i] == arg;
      if IsFeedrateWord(arg) {
        found := true;
        arg := fword;
      }
      newArgs := newArgs + [arg];
      i := i + 1;
    }
    assert args[..i] == args;
    if !found {
      newArgs := newArgs + [fword];
    }
  }

  /** The arguments that are not `F` arguments, in order. */
  function OtherArgs(args: seq<string>): seq<string> {
    if args == [] then []
    else
      var last := args[|args| - 1];
      OtherArgs(args[..|args| - 1]) + (if IsFeedrateWord(last) then [] else [last])
  }

  lemma {:induction false} ReplaceKeepsOthers(args: seq<string>, fword: string)
    requires IsFeedrateWord(fword)
    ensures OtherArgs(ReplaceFeedrate(args, fword)) == OtherArgs(args)
    ensures forall i :: 0 <= i < |args| ==> ReplaceFeedrate(args, fword)[i] == (if IsFeedrateWord(args[i]) then fword else args[i])
  {
    if args != [] {
      var init := args[..|args| - 1];
      ReplaceKeepsOthers(init, fword);
      var r := ReplaceFeedrate(args, fword);
      assert r[..|r| - 1] == ReplaceFeedrate(init, fword);
    }
  }

  lemma {:induction false} OtherArgsAppend(a: seq<string>, b: seq<string>)
    ensures OtherArgs(a + b) == OtherArgs(a) + OtherArgs(b)
    decreases |b|
  {
    if b == [] {
      assert a + b == a;
    } else {
      var init := b[..|b| - 1];
      assert (a + b)[..|a + b| - 1] == a + init;
      OtherArgsAppend(a, init);
    }
  }

  /**
   * `modify_move` keeps the other arguments, in order, sets every `F`
   * argument to the new feedrate, and leaves exactly one more argument when
   * it had to append one.
   */
  lemma WithFeedrateProperties(args: seq<string>, fword: string)
    requires IsFeedrateWord(fword)
    ensures OtherArgs(WithFeedrate(args, fword)) == OtherArgs(args)
    ensures |WithFeedrate(args, fword)| == |args| + (if HasFeedrate(args) then 0 else 1)
    ensures forall i :: 0 <= i < |WithFeedrate(args, fword)| && IsFeedrateWord(WithFeedrate(args, fword)[i]) ==>
              WithFeedrate(args, fword)[i] == fword
    ensures fword in WithFeedrate(args, fword)
  {
    WithFeedrateKeepsOthers(args, fword);
    WithFeedrateSetsFeedrate(args, fword);
  }

  lemma WithFeedrateKeepsOthers(args: seq<string>, fword: string)
    requires IsFeedrateWord(fword)
    ensures OtherArgs(WithFeedrate(args, fword)) == OtherArgs(args)
  {
    var r := ReplaceFeedrate(args, fword);
    ReplaceKeepsOthers(args, fword);
    var tail := if HasFeedrate(args) then [] else [fword];
    OtherArgsAppend(r, tail);
    assert OtherArgs([fword]) == OtherArgs([]) + [] by {
      assert [fword][..0] == [];
    }
  }

  lemma WithFeedrateSetsFeedrate(args: seq<string>, fword: string)
    requires IsFeedrateWord(fword)
    ensures forall i :: 0 <= i < |WithFeedrate(args, fword)| && IsFeedrateWord(WithFeedrate(args, fword)[i]) ==>
              WithFeedrate(args, fword)[i] == fword
    ensures fword in WithFeedrate(args, fword)
  {
    WithFeedrateOnlyNew(args, fword);
    WithFeedratePresent(args, fword);
  }

  lemma WithFeedrateOnlyNew(args: seq<string>, fword: string)
    requires IsFeedrateWord(fword)
    ensures forall i :: 0 <= i < |WithFeedrate(args, fword)| && IsFeedrateWord(WithFeedrate(args, fword)[i]) ==>
              WithFeedrate(args, fword)[i] == fword
  {
    var r := ReplaceFeedrate(args, fword);
    ReplaceKeepsOthers(args, fword);
    var all := WithFeedrate(args, fword);
    forall i | 0 <= i < |all| && IsFeedrateWord(all[i])
      ensures all[i] == fword
    {
      if i < |r| {
        assert all[i] == r[i];
      }
    }
  }

  lemma WithFeedratePresent(args: seq<string>, fword: string)
    requires IsFeedrateWord(fword)
    ensures fword in WithFeedrate(args, fword)
  {
    var r := ReplaceFeedrate(args, fword);
    ReplaceKeepsOthers(args, fword);
    var all := WithFeedrate(args, fword);
    if HasFeedrate(args) {
      var w :| w in args && IsFeedrateWord(w);
      var i :| 0 <= i < |args| && args[i] == w;
      assert all[i] == r[i];
    } else {
      assert all[|r|] == fword;
    }
  }

}

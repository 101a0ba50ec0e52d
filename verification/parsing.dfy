/**
 * Turning a line of G-code into a command: the code table (`load_codes`), the
 * dispatch key, `parse_arg` and `_parse`/`parse`.
 */
module CommandParsing {
  import opened Wrappers
  import opened Text
  import opened MachineStates
  import opened CommandProps
  import opened CommandEffects
  import opened CommandModel

  // ---------------------------------------------------------------------
  // The code table
  // ---------------------------------------------------------------------

  /** The G-code each command class answers to: its letter and its number. */
  function CodeOf(k: Kind): (r: (char, nat))
    requires k != NoOp
    ensures r.0 == 'G' || r.0 == 'M'
  {
    match k
    case Move => ('G', 0)
    case MoveAlt => ('G', 1)
    case SetHeadTemp => ('M', 109)
    case PreheatHeadTemp => ('M', 104)
    case SetBedTemp => ('M', 190)
    case PreheatBedTemp => ('M', 140)
    case SetOffset => ('G', 92)
    case ReportTemps => ('M', 105)
    case AbsoluteE => ('M', 82)
    case SetFeedrateMult => ('M', 220)
    case SetFlowMult => ('M', 221)
    case Home => ('G', 28)
    case AutoBedLevel => ('G', 29)
    case Park => ('G', 27)
    case BedLevelingState => ('M', 420)
    case LinearAdvanceFactor => ('M', 900)
    case FanOff => ('M', 107)
    case SetTypeAccel => ('M', 204)
    case SetJerk => ('M', 205)
    case SetAxisAccel => ('M', 201)
    case SetFan => ('M', 106)
    case Relative => ('G', 91)
    case Absolute => ('G', 90)
    case DisableSteppers => ('M', 84)
    case SetAxisFeedrateLimit => ('M', 203)
  }

  /** The code as the key text of the table, such as `G0` or `M109`. */
  function Code(k: Kind): (r: string)
    requires k != NoOp
    ensures |r| >= 2 && r[0] == CodeOf(k).0 && Canonical(r[1..]) && DigitsValue(r[1..]) == CodeOf(k).1
  {
    NatTextValue(CodeOf(k).1);
    var r := [CodeOf(k).0] + NatText(CodeOf(k).1);
    assert r[1..] == NatText(CodeOf(k).1);
    r
  }

  /** The class whose code has this letter and number, if any. */
  function KindOfNumber(family: char, n: nat): (r: Option<Kind>)
    ensures r.Some? ==> r.value != NoOp && CodeOf(r.value) == (family, n)
  {
    if family == 'G' then
      if n == 0 then Some(Move)
      else if n == 1 then Some(MoveAlt)
      else if n == 27 then Some(Park)
      else if n == 28 then Some(Home)
      else if n == 29 then Some(AutoBedLevel)
      else if n == 90 then Some(Absolute)
      else if n == 91 then Some(Relative)
      else if n == 92 then Some(SetOffset)
      else None
    else if family == 'M' then
      if n == 82 then Some(AbsoluteE)
      else if n == 84 then Some(DisableSteppers)
      else if n == 104 then Some(PreheatHeadTemp)
      else if n == 105 then Some(ReportTemps)
      else if n == 106 then Some(SetFan)
      else if n == 107 then Some(FanOff)
      else if n == 109 then Some(SetHeadTemp)
      else if n == 140 then Some(PreheatBedTemp)
      else if n == 190 then Some(SetBedTemp)
      else if n == 201 then Some(SetAxisAccel)
      else if n == 203 then Some(SetAxisFeedrateLimit)
      else if n == 204 then Some(SetTypeAccel)
      else if n == 205 then Some(SetJerk)
      else if n == 220 then Some(SetFeedrateMult)
      else if n == 221 then Some(SetFlowMult)
      else if n == 420 then Some(BedLevelingState)
      else if n == 900 then Some(LinearAdvanceFactor)
      else None
    else None
  }

  /**
   * The class registered under a key, if any: the lookup `codes[key]`.  A key names
   * a class exactly when it is that class's code, so it never holds a `.`.
   */
  function KindOfCode(c: string): (r: Option<Kind>)
    ensures r.Some? ==> r.value != NoOp && Code(r.value) == c && '.' !in c
  {
    if |c| >= 2 && Canonical(c[1..]) then
      var r := KindOfNumber(c[0], DigitsValue(c[1..]));
      if r.Some? then
        CodeOfKey(c, r.value);
        r
      else r
    else None
  }

  /** A key made of a class's letter and the canonical digits of its number is that class's code, and holds no point. */
  lemma CodeOfKey(c: string, k: Kind)
    requires |c| >= 2 && Canonical(c[1..]) && k != NoOp && CodeOf(k) == (c[0], DigitsValue(c[1..]))
    ensures Code(k) == c && '.' !in c
  {
    CanonicalText(c[1..]);
    assert c == [c[0]] + c[1..];
    DigitsTailNoPoint(c[1..], 0);
    assert c[1..][0..] == c[1..];
  }

  /** Every class's code leads back to that class, so no two classes share a code. */
  lemma CodeRoundTrip(k: Kind)
    requires k != NoOp
    ensures KindOfCode(Code(k)) == Some(k)
  {
    NumberRoundTrip(k);
  }

  /** Every class's letter and number lead back to that class. */
  lemma NumberRoundTrip(k: Kind)
    requires k != NoOp
    ensures KindOfNumber(CodeOf(k).0, CodeOf(k).1) == Some(k)
  {
    match k
    case Move =>
    case MoveAlt =>
    case SetHeadTemp =>
    case PreheatHeadTemp =>
    case SetBedTemp =>
    case PreheatBedTemp =>
    case SetOffset =>
    case ReportTemps =>
    case AbsoluteE =>
    case SetFeedrateMult =>
    case SetFlowMult =>
    case Home =>
    case AutoBedLevel =>
    case Park =>
    case BedLevelingState =>
    case LinearAdvanceFactor =>
    case FanOff =>
    case SetTypeAccel =>
    case SetJerk =>
    case SetAxisAccel =>
    case SetFan =>
    case Relative =>
    case Absolute =>
    case DisableSteppers =>
    case SetAxisFeedrateLimit =>
  }

  /** No two classes share a code. */
  lemma CodeInjective(a: Kind, b: Kind)
    requires a != NoOp && b != NoOp && Code(a) == Code(b)
    ensures a == b
  {
    CodeRoundTrip(a);
    CodeRoundTrip(b);
  }

  /** The command classes that have a code, in the order `dir(commands)` lists them. */
  const Registered: seq<Kind> := [
    Absolute, AbsoluteE, AutoBedLevel, BedLevelingState, DisableSteppers, FanOff, Home,
    LinearAdvanceFactor, Move, MoveAlt, Park, PreheatBedTemp, PreheatHeadTemp, Relative,
    ReportTemps, SetAxisAccel, SetAxisFeedrateLimit, SetBedTemp, SetFan, SetFeedrateMult,
    SetFlowMult, SetHeadTemp, SetJerk, SetOffset, SetTypeAccel]

  /** The position of a class in `Registered`. */
  function Rank(k: Kind): nat {
    match k
    case Absolute => 0
    case AbsoluteE => 1
    case AutoBedLevel => 2
    case BedLevelingState => 3
    case DisableSteppers => 4
    case FanOff => 5
    case Home => 6
    case LinearAdvanceFactor => 7
    case Move => 8
    case MoveAlt => 9
    case Park => 10
    case PreheatBedTemp => 11
    case PreheatHeadTemp => 12
    case Relative => 13
    case ReportTemps => 14
    case SetAxisAccel => 15
    case SetAxisFeedrateLimit => 16
    case SetBedTemp => 17
    case SetFan => 18
    case SetFeedrateMult => 19
    case SetFlowMult => 20
    case SetHeadTemp => 21
    case SetJerk => 22
    case SetOffset => 23
    case SetTypeAccel => 24
    case NoOp => 25
  }

  /** Each registered class sits at its rank and every class but `NoOp` is registered. */
  lemma RegisteredRanks()
    ensures forall i :: 0 <= i < |Registered| ==> Rank(Registered[i]) == i && Registered[i] != NoOp
    ensures forall k :: k != NoOp ==> k in Registered
  {
  }

  /** Each class but `NoOp` sits in `Registered` at its rank. */
  lemma RankIndex(k: Kind)
    requires k != NoOp
    ensures Rank(k) < |Registered| && Registered[Rank(k)] == k
  {
  }

  /** A table holding every registered class under its code holds exactly the codes. */
  lemma TableComplete(m: map<string, Kind>)
    requires forall c :: c in m ==> m[c] != NoOp && Code(m[c]) == c
    requires forall j :: 0 <= j < |Registered| ==> Code(Registered[j]) in m
    ensures forall c :: c in m <==> KindOfCode(c).Some?
  {
    forall c | KindOfCode(c).Some? ensures c in m {
      RankIndex(KindOfCode(c).value);
    }
    forall c | c in m ensures KindOfCode(c).Some? {
      CodeRoundTrip(m[c]);
    }
  }

  /** In such a table each code maps to the class `KindOfCode` names. */
  lemma TableAgrees(m: map<string, Kind>)
    requires forall c :: c in m ==> m[c] != NoOp && Code(m[c]) == c
    ensures forall c :: c in m ==> KindOfCode(c) == Some(m[c])
  {
    forall c | c in m ensures KindOfCode(c) == Some(m[c]) {
      CodeRoundTrip(m[c]);
    }
  }

  /** After `i` turns of the loop of `load_codes`: the first `i` classes are entered, each under its own code. */
  ghost predicate Registering(ks: seq<Kind>, i: nat, m: map<string, Kind>) {
    i <= |ks|
    && (forall c :: c in m ==> m[c] != NoOp && Code(m[c]) == c && Rank(m[c]) < i)
    && (forall j :: 0 <= j < i ==> ks[j] != NoOp && Code(ks[j]) in m)
  }

  /** The next class's code is not yet taken. */
  lemma CodeFree(ks: seq<Kind>, i: nat, m: map<string, Kind>)
    requires i < |ks| && ks[i] != NoOp && Rank(ks[i]) == i && Registering(ks, i, m)
    ensures Code(ks[i]) !in m
  {
    if Code(ks[i]) in m {
      CodeInjective(ks[i], m[Code(ks[i])]);
    }
  }

  /** Entering the next class under its code keeps every entry under its own code. */
  lemma EntriesNext(ks: seq<Kind>, i: nat, m: map<string, Kind>, m': map<string, Kind>)
    requires i < |ks| && ks[i] != NoOp && Rank(ks[i]) == i && m' == m[Code(ks[i]) := ks[i]]
    requires forall c :: c in m ==> m[c] != NoOp && Code(m[c]) == c && Rank(m[c]) < i
    ensures forall c :: c in m' ==> m'[c] != NoOp && Code(m'[c]) == c && Rank(m'[c]) < i + 1
  {
    forall c | c in m' ensures m'[c] != NoOp && Code(m'[c]) == c && Rank(m'[c]) < i + 1 {
      if c != Code(ks[i]) {
        assert m'[c] == m[c];
      }
    }
  }

  /** Entering the next class under its code keeps the codes entered so far. */
  lemma CodesNext(ks: seq<Kind>, i: nat, m: map<string, Kind>)
    requires i < |ks| && ks[i] != NoOp
    requires forall j :: 0 <= j < i ==> ks[j] != NoOp && Code(ks[j]) in m
    ensures forall j :: 0 <= j < i + 1 ==> ks[j] != NoOp && Code(ks[j]) in m[Code(ks[i]) := ks[i]]
  {
  }

  /** Entering the next class under its code keeps the table well formed. */
  lemma RegisterNext(ks: seq<Kind>, i: nat, m: map<string, Kind>)
    requires i < |ks| && ks[i] != NoOp && Rank(ks[i]) == i && Registering(ks, i, m)
    ensures Registering(ks, i + 1, m[Code(ks[i]) := ks[i]])
  {
    EntriesNext(ks, i, m, m[Code(ks[i]) := ks[i]]);
    CodesNext(ks, i, m);
  }

  /**
   * The loop of `load_codes` over the classes `ks` (each at its rank, as in
   * `Registered`): each is entered under its code, after checking that the code is
   * not yet taken.
   */
  method RegisterAll(ks: seq<Kind>) returns (m: map<string, Kind>)
    requires forall i :: 0 <= i < |ks| ==> ks[i] != NoOp && Rank(ks[i]) == i
    ensures forall c :: c in m ==> m[c] != NoOp && Code(m[c]) == c
    ensures forall j :: 0 <= j < |ks| ==> Code(ks[j]) in m
  {
    m := map[];
    var i := 0;
    while i < |ks|
      invariant Registering(ks, i, m)
    {
      var k := ks[i];
      // `load_codes` asserts that no code is registered twice
      CodeFree(ks, i, m);
      assert Code(k) !in m;
      RegisterNext(ks, i, m);
      m := m[Code(k) := k];
      i := i + 1;
    }
  }

  /** The table `load_codes` fills: code to class. */
  class CodeRegistry {
    var codes: Option<map<string, Kind>>

    /** Once loaded, the table holds every class under its code and nothing else. */
    ghost predicate Valid()
      reads this
    {
      codes.Some? ==>
        (forall c :: c in codes.value <==> KindOfCode(c).Some?)
        && (forall c :: c in codes.value ==> codes.value[c] == KindOfCode(c).value)
    }

    constructor ()
      ensures codes.None? && Valid()
    {
      codes := None;
    }

    /**
     * `load_codes`: on first use, registers every class under its code, checking
     * that no code is registered twice.  The check never fails, and the table then
     * agrees with `KindOfCode`.
     */
    method Load()
      requires Valid()
      modifies this
      ensures Valid() && codes.Some?
      ensures old(codes).Some? ==> codes == old(codes)
    {
      if codes.Some? {
        return;
      }
      RegisteredRanks();
      var m := RegisterAll(Registered);
      TableComplete(m);
      TableAgrees(m);
      codes := Some(m);
    }
  }

  // ---------------------------------------------------------------------
  // The dispatch key
  // ---------------------------------------------------------------------

  /** Python's `s.replace('.0', '')`: every `.0`, scanning left to right, removed. */
  function RemoveDotZero(s: string): (r: string)
    ensures |r| <= |s|
  {
    if |s| < 2 then s
    else if s[0] == '.' && s[1] == '0' then RemoveDotZero(s[2..])
    else [s[0]] + RemoveDotZero(s[1..])
  }

  /** The text `f"{v}"` gives for a parameter value: nothing for a flag, `repr` for a number. */
  function ValueText(v: Option<Dec>): string {
    match v
    case None => ""
    case Some(d) => FloatText(d)
  }

  /** The key `_parse` looks up, `f"G{args['G']}".replace('.0', '')`: every `.0` is removed, anywhere. */
  function DispatchKeyAsWritten(family: char, v: Option<Dec>): string {
    RemoveDotZero([family] + ValueText(v))
  }

  /**
   * The key as intended: a whole number is written without its `.0` and any other
   * number keeps its digits, so only whole numbers can name a registered code.
   */
  function DispatchKey(family: char, v: Option<Dec>): (r: string)
    ensures |r| >= 1 && r[0] == family
  {
    match v
    case None => [family]
    case Some(d) =>
      if AllZeros(d.frac) then [family] + WholeText(d) else [family] + FloatText(d)
  }

  lemma {:induction false} RemoveDotZeroNoDot(s: string)
    requires '.' !in s
    ensures RemoveDotZero(s) == s
  {
    if |s| >= 2 {
      RemoveDotZeroNoDot(s[1..]);
      assert s == [s[0]] + s[1..];
    }
  }

  lemma {:induction false} RemoveDotZeroTrailing(s: string)
    requires '.' !in s
    ensures RemoveDotZero(s + ".0") == s
  {
    if s == [] {
      assert s + ".0" == ".0";
    } else {
      assert (s + ".0")[1..] == s[1..] + ".0";
      RemoveDotZeroTrailing(s[1..]);
      assert s == [s[0]] + s[1..];
    }
  }

  /** For a whole number (and for a flag) the key as written and the intended key agree. */
  lemma KeysAgreeOnWholeNumbers(family: char, v: Option<Dec>)
    requires family != '.'
    requires v.Some? ==> v.value.Valid() && AllZeros(v.value.frac)
    ensures DispatchKeyAsWritten(family, v) == DispatchKey(family, v)
  {
    if v.None? {
      assert [family] + ValueText(v) == [family];
      RemoveDotZeroNoDot([family]);
    } else {
      var d := v.value;
      var head := [family] + WholeText(d);
      WholeTextNoPoint(d);
      FloatTextOfWhole(d);
      assert [family] + FloatText(d) == head + ".0";
      RemoveDotZeroTrailing(head);
    }
  }

  /** The text of `G2.08`'s parameter is `2.08`. */
  lemma TwoPointZeroEightText()
    ensures FloatText(Dec(false, "2", "08")) == "2.08"
    ensures !AllZeros("08")
  {
    var d := Dec(false, "2", "08");
    assert "08"[1] == '8';
    assert StripTrailingZeros("08") == "08";
    assert "2"[0] == '2';
    assert StripLeadingZeros("2") == "2";
    assert WholeText(d) == "2";
    assert FloatText(d) == "2" + "." + "08";
  }

  /** Removing every `.0` from `G2.08` leaves `G28`. */
  lemma DotZeroOfTwoPointZeroEight()
    ensures RemoveDotZero("G2.08") == "G28"
  {
    var s := "G2.08";
    assert s[1..] == "2.08" && s[1..][1..] == ".08" && ".08"[2..] == "8";
    assert RemoveDotZero("8") == "8";
    assert RemoveDotZero(".08") == "8";
    assert RemoveDotZero("2.08") == ['2'] + "8";
    assert RemoveDotZero(s) == ['G'] + "28";
  }

  /** `G28` is the code of `Home`. */
  lemma HomeKey()
    ensures KindOfCode("G28") == Some(Home)
  {
    assert "G28"[1..] == "28";
    assert DigitsValue("28") == 28 by { assert "28"[..1] == "2"; assert "2"[..0] == ""; }
  }

  /** The key as written for `G2.08` is `G28`, the code of `Home`. */
  lemma AsWrittenKeyOfTwoPointZeroEight()
    ensures KindOfCode(DispatchKeyAsWritten('G', Some(Dec(false, "2", "08")))) == Some(Home)
  {
    var d := Dec(false, "2", "08");
    TwoPointZeroEightText();
    assert ValueText(Some(d)) == "2.08";
    assert ['G'] + ValueText(Some(d)) == "G2.08";
    DotZeroOfTwoPointZeroEight();
    assert DispatchKeyAsWritten('G', Some(d)) == "G28";
    HomeKey();
  }

  /** The intended key for `G2.08` is `G2.08`, which names no class. */
  lemma KeyOfTwoPointZeroEight()
    ensures KindOfCode(DispatchKey('G', Some(Dec(false, "2", "08")))) == None
  {
    assert !AllZeros("08") by { assert "08"[1] == '8'; }
    if KindOfCode(DispatchKey('G', Some(Dec(false, "2", "08")))).Some? {
      DispatchKeyWhole('G', Dec(false, "2", "08"));
    }
  }

  /** `2.08` stands for the number 2.08. */
  lemma TwoPointZeroEightValue()
    ensures Dec(false, "2", "08").Valid() && DecValue(Dec(false, "2", "08")) == 2.08
  {
    assert DigitsValue("2") == 2 by { assert "2"[..0] == ""; }
    assert DigitsValue("08") == 8 by { assert "08"[..1] == "0"; assert "0"[..0] == ""; }
    assert Pow10(2) == 100;
  }

  /** As written, `G2.08` is dispatched as `G28` (Home); the intended key names no class. */
  lemma DotZeroMisroutes()
    ensures DecValue(Dec(false, "2", "08")) == 2.08
    ensures KindOfCode(DispatchKeyAsWritten('G', Some(Dec(false, "2", "08")))) == Some(Home)
    ensures KindOfCode(DispatchKey('G', Some(Dec(false, "2", "08")))) == None
  {
    TwoPointZeroEightValue();
    AsWrittenKeyOfTwoPointZeroEight();
    KeyOfTwoPointZeroEight();
  }

  /** With the intended key, only a whole number can select a registered class. */
  lemma DispatchKeyWhole(family: char, d: Dec)
    requires KindOfCode(DispatchKey(family, Some(d))).Some?
    ensures AllZeros(d.frac)
  {
  }

  // ---------------------------------------------------------------------
  // Parsing a line
  // ---------------------------------------------------------------------

  /** Why a line could not be turned into a command. */
  datatype ParseError =
    | BadNumber(token: string)   // `float(...)` refused a parameter's value
    | UnknownCode(key: string)   // no class is registered under the dispatch key
    | BothGAndM                  // the command's constructor refuses G and M together
    | UnknownCommand             // parameters, but neither G nor M

  /** A parameter as read from the line: its letter, and its number unless it is a flag. */
  type Param = (char, Option<Dec>)

  /** `parse_arg`: the first character is the letter, the rest (if any) a number. */
  function ParseArg(token: string): (r: Result<Param, ParseError>)
    requires |token| >= 1
    ensures r.Failure? <==> |token| > 1 && ParseNumber(token[1..]).None?
    ensures r.Success? ==> r.value.0 == token[0]
    ensures r.Success? ==> (r.value.1.None? <==> |token| == 1)
    ensures r.Success? && r.value.1.Some? ==> r.value.1.value.Valid()
  {
    if |token| == 1 then Success((token[0], None))
    else
      match ParseNumber(token[1..])
      case None => Failure(BadNumber(token))
      case Some(d) => Success((token[0], Some(d)))
  }

  /** The token a parameter is written as: its letter and its number. */
  function ParamText(p: Param): (r: string)
    ensures |r| >= 1
  {
    [p.0] + (match p.1 case None => "" case Some(d) => RenderDec(d))
  }

  /** Reading back the token of a parameter gives that parameter. */
  lemma ParseArgRoundTrip(p: Param)
    requires p.1.Some? ==> p.1.value.Valid()
    ensures ParseArg(ParamText(p)) == Success(p)
  {
    var t := ParamText(p);
    if p.1.Some? {
      var d := p.1.value;
      RenderParseRoundTrip(d);
      assert t[1..] == RenderDec(d);
    }
  }

  predicate ValidParams(ps: seq<Param>) {
    forall i :: 0 <= i < |ps| ==> (ps[i].1.Some? ==> ps[i].1.value.Valid())
  }

  /** `map(parse_arg, tokens)`, consumed in order: the first refused token is the error. */
  function ParseArgs(tokens: seq<string>): (r: Result<seq<Param>, ParseError>)
    requires forall i :: 0 <= i < |tokens| ==> |tokens[i]| >= 1
    ensures r.Failure? <==> exists i :: 0 <= i < |tokens| && ParseArg(tokens[i]).Failure?
    ensures r.Success? ==> |r.value| == |tokens| && ValidParams(r.value)
    ensures r.Success? ==> forall i :: 0 <= i < |tokens| ==> Success(r.value[i]) == ParseArg(tokens[i])
  {
    if tokens == [] then Success([])
    else
      match ParseArg(tokens[0])
      case Failure(e) => Failure(e)
      case Success(p) =>
        match ParseArgs(tokens[1..])
        case Failure(e) => 
          assert exists i :: 0 <= i < |tokens[1..]| && ParseArg(tokens[1..][i]).Failure?;
          Failure(e)
        case Success(ps) =>
          assert forall i :: 1 <= i < |tokens| ==> tokens[i] == tokens[1..][i - 1];
          Success([p] + ps)
  }

  /** The value a parameter holds in the command: a number, or the empty string of a flag. */
  function ArgOf(v: Option<Dec>): (a: Arg)
    requires v.Some? ==> v.value.Valid()
    ensures Holds(a, v)
  {
    match v
    case None => Flag
    case Some(d) => Num(DecValue(d))
  }

  /** `a` is the value the command holds for the parameter read as `v`. */
  predicate Holds(a: Arg, v: Option<Dec>) {
    match v
    case None => a == Flag
    case Some(d) => d.Valid() && a == Num(DecValue(d))
  }

  /** The parameters as the command holds them, letter by letter. */
  function Values(ps: seq<Param>): (r: Args)
    requires ValidParams(ps)
    ensures |r| == |ps| && Letters(r) == Letters(ps)
    ensures forall i :: 0 <= i < |ps| ==> r[i] == (ps[i].0, ArgOf(ps[i].1))
    ensures UniqueLetters(ps) ==> UniqueLetters(r)
  {
    if ps == [] then []
    else
      var r := [(ps[0].0, ArgOf(ps[0].1))] + Values(ps[1..]);
      assert r[1..] == Values(ps[1..]);
      assert ps[1..] + [] == ps[1..];
      r
  }

  /** A line as parsed: the class, its parameters and the comment after `;`. */
  datatype ParsedLine = ParsedLine(kind: Kind, args: Args, comment: Option<string>)

  /**
   * The class for a dict of parameters: `NoOp` for none, otherwise the class
   * registered under the `G` key or, failing a `G`, the `M` key.
   */
  function Classify(d: seq<Param>, comment: Option<string>): (r: Result<ParsedLine, ParseError>)
    requires UniqueLetters(d) && ValidParams(d)
    ensures r.Success? ==> r.value.comment == comment && r.value.args == Values(d)
    ensures r.Success? ==> !('G' in Letters(d) && 'M' in Letters(d))
    ensures r.Success? && r.value.kind == NoOp <==> d == []
  {
    if d == [] then Success(ParsedLine(NoOp, [], comment))
    else if 'G' in Letters(d) || 'M' in Letters(d) then
      var family := if 'G' in Letters(d) then 'G' else 'M';
      var key := DispatchKeyAsWritten(family, Lookup(d, family).value);
      match KindOfCode(key)
      case None => Failure(UnknownCode(key))
      case Some(k) =>
        if 'G' in Letters(d) && 'M' in Letters(d) then Failure(BothGAndM)
        else Success(ParsedLine(k, Values(d), comment))
    else Failure(UnknownCommand)
  }

  /** The parameters of a line, read token by token, before they are made a dict. */
  function LineParams(line: string): Result<seq<Param>, ParseError> {
    ParseArgs(Words(SplitAtFirst(line, ';').0))
  }

  /**
   * `_parse`: split off the comment at the first `;`, read the whitespace-separated
   * parameters into a dict (a later token for a letter replacing an earlier one),
   * and pick the class for it.
   */
  function ParseLine(line: string): (r: Result<ParsedLine, ParseError>)
    ensures r.Success? ==> r.value.comment == SplitAtFirst(line, ';').1
    ensures r.Success? ==> UniqueLetters(r.value.args)
    ensures r.Success? ==> !('G' in Letters(r.value.args) && 'M' in Letters(r.value.args))
  {
    match LineParams(line)
    case Failure(e) => Failure(e)
    case Success(ps) =>
      BuildArgsValid(ps);
      Classify(BuildArgs(ps), SplitAtFirst(line, ';').1)
  }

  /** Every parameter of the built dict is one read from the line. */
  lemma BuildArgsValid(ps: seq<Param>)
    requires ValidParams(ps)
    ensures ValidParams(BuildArgs(ps))
  {
    var d := BuildArgs(ps);
    forall i | 0 <= i < |d| && d[i].1.Some? ensures d[i].1.value.Valid() {
      BuildArgsFrom(ps, d[i]);
      var j :| 0 <= j < |ps| && ps[j] == d[i];
    }
  }

  /** A parameter read from the line holds a well-formed number, if any. */
  lemma ParamValid(ps: seq<Param>, p: Param)
    requires ValidParams(ps) && p in ps
    ensures p.1.Some? ==> p.1.value.Valid()
  {
    var i :| 0 <= i < |ps| && ps[i] == p;
  }

  /** Looking a letter up among the command's parameters finds the value read for it. */
  lemma {:induction false} ValuesLookup(ps: seq<Param>, l: char)
    requires ValidParams(ps)
    ensures Lookup(Values(ps), l).None? <==> Lookup(ps, l).None?
    ensures Lookup(ps, l).Some? ==> Holds(Lookup(Values(ps), l).value, Lookup(ps, l).value)
  {
    if ps != [] && ps[0].0 != l {
      assert Values(ps)[1..] == Values(ps[1..]);
      assert ValidParams(ps[1..]) by {
        forall i | 0 <= i < |ps[1..]| ensures ps[1..][i] == ps[i + 1] { }
      }
      ValuesLookup(ps[1..], l);
    }
  }

  /** A line parses to `NoOp` exactly when it holds no parameter before its comment. */
  lemma ParseLineNoOp(line: string)
    ensures (ParseLine(line).Success? && ParseLine(line).value.kind == NoOp)
      <==> Words(SplitAtFirst(line, ';').0) == []
  {
    var ps := LineParams(line);
    if ps.Success? && BuildArgs(ps.value) == [] {
      assert Letters(ps.value) == {};
    }
  }

  /**
   * Each parameter of a parsed command holds the value of the last token for its
   * letter, and the command has no letter that was not on the line.
   */
  lemma ParseLineArgs(line: string, l: char)
    requires ParseLine(line).Success?
    ensures LineParams(line).Success?
    ensures var ps := LineParams(line).value;
      var a := ParseLine(line).value.args;
      (Lookup(a, l).None? <==> LastValue(ps, l).None?)
      && (LastValue(ps, l).Some? ==> Holds(Lookup(a, l).value, LastValue(ps, l).value))
  {
    var ps := LineParams(line).value;
    var d := BuildArgs(ps);
    BuildArgsKeepsLastValue(ps, l);
    BuildArgsValid(ps);
    ValuesLookup(d, l);
    if d == [] {
      assert Letters(ps) == {};
    }
  }

  /**
   * A parsed command other than `NoOp` is the class registered under the key of its
   * `G` value, or of its `M` value when it has no `G`.
   */
  lemma ParseLineKind(line: string)
    requires ParseLine(line).Success? && ParseLine(line).value.kind != NoOp
    ensures LineParams(line).Success?
    ensures var ps := LineParams(line).value;
      var family := if 'G' in Letters(ps) then 'G' else 'M';
      family in Letters(ps) && LastValue(ps, family).Some?
      && KindOfCode(DispatchKeyAsWritten(family, LastValue(ps, family).value)) == Some(ParseLine(line).value.kind)
  {
    var ps := LineParams(line).value;
    var d := BuildArgs(ps);
    BuildArgsValid(ps);
    assert ParseLine(line) == Classify(d, SplitAtFirst(line, ';').1);
    ClassifyKind(d, SplitAtFirst(line, ';').1);
    assert Letters(d) == Letters(ps);
    var family := if 'G' in Letters(ps) then 'G' else 'M';
    BuildArgsKeepsLastValue(ps, family);
    var k := ParseLine(line).value.kind;
    assert KindOfCode(DispatchKeyAsWritten(family, Lookup(d, family).value)) == Some(k);
    assert Lookup(d, family) == LastValue(ps, family);
  }

  /** The class picked for a non-empty dict is the one its `G` (else `M`) key names. */
  lemma ClassifyKind(d: seq<Param>, comment: Option<string>)
    requires UniqueLetters(d) && ValidParams(d)
    requires Classify(d, comment).Success? && Classify(d, comment).value.kind != NoOp
    ensures var family := if 'G' in Letters(d) then 'G' else 'M';
      family in Letters(d)
      && KindOfCode(DispatchKeyAsWritten(family, Lookup(d, family).value)) == Some(Classify(d, comment).value.kind)
  {
  }

  /** A line with parameters but neither a `G` nor an `M` is refused. */
  lemma ParseLineNeedsCommandLetter(line: string)
    requires LineParams(line).Success? && LineParams(line).value != []
    requires 'G' !in Letters(LineParams(line).value) && 'M' !in Letters(LineParams(line).value)
    ensures ParseLine(line) == Failure(UnknownCommand)
  {
    var ps := LineParams(line).value;
    assert ps[0].0 in Letters(ps);
  }

  /**
   * `parse(g_code)`: loads the table if need be, parses the line and builds the
   * command, not yet evolved or numbered, holding the line as its text.
   */
  method Parse(reg: CodeRegistry, line: string) returns (r: Result<Command, ParseError>)
    requires reg.Valid()
    modifies reg
    ensures reg.Valid() && reg.codes.Some?
    ensures old(reg.codes).Some? ==> reg.codes == old(reg.codes)
    ensures r.Failure? <==> ParseLine(line).Failure?
    ensures r.Failure? ==> r.error == ParseLine(line).error
    ensures r.Success? ==>
      fresh(r.value)
      && r.value.kind == ParseLine(line).value.kind
      && r.value.args == ParseLine(line).value.args
      && r.value.comment == ParseLine(line).value.comment
      && r.value.gCode == line
      && r.value.before == null && r.value.after == null
      && r.value.oln.None? && r.value.ln.None?
  {
    reg.Load();
    var comment := SplitAtFirst(line, ';').1;
    var params := LineParams(line);
    if params.Failure? {
      return Failure(params.error);
    }
    var ps := params.value;
    var d := BuildArgs(ps);
    BuildArgsValid(ps);
    assert ParseLine(line) == Classify(d, comment);
    var kind: Kind;
    if d == [] {
      kind := NoOp;
    } else if 'G' in Letters(d) || 'M' in Letters(d) {
      var family := if 'G' in Letters(d) then 'G' else 'M';
      var key := DispatchKeyAsWritten(family, Lookup(d, family).value);
      var table := reg.codes.value;
      if key !in table {
        return Failure(UnknownCode(key));
      }
      kind := table[key];
      if 'G' in Letters(d) && 'M' in Letters(d) {
        return Failure(BothGAndM);
      }
    } else {
      return Failure(UnknownCommand);
    }
    var c := new Command(kind, line, Values(d), comment);
    return Success(c);
  }
}

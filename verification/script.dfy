/**
 * A G-code script: its commands, read one per line and numbered, and the
 * analysis that evolves a default machine state through them in order, each
 * command's state after being the next command's state before.
 */
module Scripts {
  import opened Wrappers
  import opened Text
  import opened MachineStates
  import opened CommandProps
  import opened CommandEffects
  import opened CommandModel
  import opened CommandParsing

  /** Why reading or analysing a script stopped. */
  datatype ScriptError =
    | ParseFailed(parse: ParseError)     // a line could not be parsed
    | EvolveFailed(evolve: EvolveError)  // a command's effect raised
    | NoCommands                         // `commands[-1]` on an empty list
    | NotOriginal                        // `keep` was handed a command not at its line

  /** No command object occurs twice. */
  predicate Distinct(cs: seq<Command>) {
    forall i, j :: 0 <= i < j < |cs| ==> cs[i] != cs[j]
  }

  /** Each command's state after is the next command's state before. */
  ghost predicate Chained(cs: seq<Command>)
    reads cs
  {
    forall i :: 0 < i < |cs| ==> cs[i - 1].after == cs[i].before
  }

  /**
   * The value of the running state after evolving `s` through the commands in
   * order, or the first effect's error.
   */
  function Final(cs: seq<Command>, s: StateVal, norm: seq<real> -> real): Result<StateVal, EvolveError> {
    if cs == [] then Success(s)
    else
      match Effect(cs[0].kind, cs[0].args, s, norm)
      case Failure(e) => Failure(e)
      case Success(st) => Final(cs[1..], st.1, norm)
  }

  /** Evolving through two lists in turn is evolving through their concatenation. */
  lemma {:induction false} FinalAppend(xs: seq<Command>, ys: seq<Command>, s: StateVal, norm: seq<real> -> real)
    ensures Final(xs + ys, s, norm) ==
      match Final(xs, s, norm)
      case Failure(e) => Failure(e)
      case Success(t) => Final(ys, t, norm)
  {
    if xs != [] {
      assert (xs + ys)[1..] == xs[1..] + ys;
      match Effect(xs[0].kind, xs[0].args, s, norm)
      case Failure(e) =>
        assert Final(xs, s, norm) == Failure(e);
        assert Final(xs + ys, s, norm) == Failure(e);
      case Success(st) =>
        FinalAppend(xs[1..], ys, st.1, norm);
        assert Final(xs, s, norm) == Final(xs[1..], st.1, norm);
        assert Final(xs + ys, s, norm) == Final(xs[1..] + ys, st.1, norm);
    } else {
      assert xs + ys == ys;
    }
  }

  /** One step of the fold: the first command's effect, then the rest. */
  lemma FinalStep(cs: seq<Command>, s: StateVal, norm: seq<real> -> real)
    requires cs != []
    ensures var e := Effect(cs[0].kind, cs[0].args, s, norm);
      (e.Failure? ==> Final(cs, s, norm) == Failure(e.error))
      && (e.Success? ==> Final(cs, s, norm) == Final(cs[1..], e.value.1, norm))
  {
  }

  /** `Final` from position `ci` of a list: the effect of command `ci`, then the rest. */
  lemma FinalAt(cs: seq<Command>, ci: nat, s: StateVal, norm: seq<real> -> real)
    requires ci < |cs|
    ensures var e := Effect(cs[ci].kind, cs[ci].args, s, norm);
      (e.Failure? ==> Final(cs[ci..], s, norm) == Failure(e.error))
      && (e.Success? ==> Final(cs[ci..], s, norm) == Final(cs[ci + 1..], e.value.1, norm))
  {
    assert cs[ci..][1..] == cs[ci + 1..];
    FinalStep(cs[ci..], s, norm);
  }

  /** The original line numbers of the commands, in order. */
  ghost function Olns(cs: seq<Command>): (r: seq<Option<nat>>)
    reads cs
    ensures |r| == |cs| && forall i :: 0 <= i < |cs| ==> r[i] == cs[i].oln
  {
    seq(|cs|, i reads cs requires 0 <= i < |cs| => cs[i].oln)
  }

  /** The current line numbers of the commands, in order. */
  ghost function Lns(cs: seq<Command>): (r: seq<Option<nat>>)
    reads cs
    ensures |r| == |cs| && forall i :: 0 <= i < |cs| ==> r[i] == cs[i].ln
  {
    seq(|cs|, i reads cs requires 0 <= i < |cs| => cs[i].ln)
  }

  /**
   * The commands have been evolved in order, the last of them into `st`: each
   * has its states, and each one's state after is the next one's state before.
   */
  ghost predicate EvolvedChain(cs: seq<Command>, st: MachineState?)
    reads cs
  {
    st != null
    && (cs != [] ==> st == cs[|cs| - 1].after)
    && (forall j :: 0 <= j < |cs| ==> cs[j].before != null && cs[j].after != null)
    && Chained(cs)
  }

  /** A command evolved from the last state of a chain extends it. */
  lemma EvolvedChainAppend(cs: seq<Command>, c: Command, st: MachineState)
    requires EvolvedChain(cs, c.before) && c.after == st
    ensures EvolvedChain(cs + [c], st)
  {
  }
  /**
   * Command `ci`, evolved from the last state of the chain before it, extends the
   * chain; `analyze` asserts the link between it and the command before.
   */
  lemma ChainGrows(cs: seq<Command>, ci: nat, st: MachineState)
    requires ci < |cs| && EvolvedChain(cs[..ci], cs[ci].before) && cs[ci].after == st
    ensures EvolvedChain(cs[..ci + 1], st)
    ensures ci > 0 ==> cs[ci - 1].after == cs[ci].before
  {
    assert cs[..ci + 1] == cs[..ci] + [cs[ci]];
    EvolvedChainAppend(cs[..ci], cs[ci], st);
  }

  /** The commands read from lines, the `i`-th numbered `i + 1` on both counts. */
  ghost predicate Numbered(cs: seq<Command>)
    reads cs
  {
    forall i :: 0 <= i < |cs| ==> cs[i].oln == Some(i + 1) && cs[i].ln == Some(i + 1)
  }

  class Script {
    var commands: seq<Command>
    var fileName: Option<string>
    var state: MachineState?

    /** `Script(script)`: a new list holding the same commands, and the same file name. */
    constructor Copy(s: Script)
      ensures commands == s.commands && fileName == s.fileName && state == null
    {
      commands := s.commands;
      fileName := s.fileName;
      state := null;
    }

    constructor FromCommands(cs: seq<Command>, name: Option<string>)
      ensures commands == cs && fileName == name && state == null
    {
      commands := cs;
      fileName := name;
      state := null;
    }

    /**
     * `analyze_one(command)`: the command evolves the running state, which becomes
     * its state after; a raised effect leaves the running state as it was.
     */
    method AnalyzeOne(c: Command, norm: seq<real> -> real) returns (r: Result<(), ScriptError>)
      requires state != null && state.Valid()
      modifies this, c`before, c`after, state`feedrate
      ensures commands == old(commands) && fileName == old(fileName)
      ensures c.before == old(state)
      ensures state != null && state.Valid()
      ensures state == old(state) || (fresh(state) && fresh(state.Repr()))
      ensures r.Success? ==> state == c.after
      ensures r.Failure? ==> state == old(state)
      ensures var e := Effect(c.kind, c.args, old(state.Snapshot()), norm);
        (e.Failure? ==> r == Failure(EvolveFailed(e.error)))
        && (e.Success? ==> r.Success? && (old(state).Snapshot(), state.Snapshot()) == e.value)
    {
      var st := state;
      var next := c.Evolve(st, norm);
      if next.Failure? {
        return Failure(EvolveFailed(next.error));
      }
      state := next.value;
      if c.kind.IsNoOp() {
        NoOpEffect(c.kind, c.args, old(st.Snapshot()), norm);
      }
      return Success(());
    }

    /** The first `ci` commands have been analysed, the last of them into the running state. */
    ghost predicate AnalyzedUpTo(ci: nat)
      reads this, commands
    {
      ci <= |commands| && EvolvedChain(commands[..ci], state)
    }

    /** One turn of the loop of `analyze`: command `ci` evolves the running state. */
    method AnalyzeStep(ci: nat, norm: seq<real> -> real) returns (r: Result<(), ScriptError>)
      requires Distinct(commands) && ci < |commands|
      requires AnalyzedUpTo(ci) && state.Valid()
      modifies this, commands[ci], state`feedrate
      ensures commands == old(commands) && fileName == old(fileName)
      ensures Olns(commands) == old(Olns(commands)) && Lns(commands) == old(Lns(commands))
      ensures state != null && state.Valid()
      ensures state == old(state) || (fresh(state) && fresh(state.Repr()))
      ensures r.Failure? ==> r.error.EvolveFailed?
      ensures r.Failure? ==> Final(commands[ci..], old(state.Snapshot()), norm) == Failure(r.error.evolve)
      ensures r.Success? ==> Final(commands[ci..], old(state.Snapshot()), norm) == Final(commands[ci + 1..], state.Snapshot(), norm)
      ensures r.Success? ==> AnalyzedUpTo(ci + 1)
    {
      var c := commands[ci];
      FinalAt(commands, ci, state.Snapshot(), norm);
      r := AnalyzeOne(c, norm);
      if r.Failure? {
        return;
      }
      ChainGrows(commands, ci, state);
    }

    /**
     * `analyze`: evolves a default state through every command in order.  The
     * check that each command's state before is the previous command's state
     * after always holds; the final state is the fold of the effects.
     */
    method Analyze(norm: seq<real> -> real) returns (r: Result<(), ScriptError>)
      requires Distinct(commands)
      modifies this, commands
      ensures commands == old(commands) && fileName == old(fileName)
      ensures state != null && state.Valid() && fresh(state)
      ensures r.Failure? <==> Final(commands, FreshState, norm).Failure?
      ensures r.Failure? ==> r.error == EvolveFailed(Final(commands, FreshState, norm).error)
      ensures r.Success? ==> Final(commands, FreshState, norm) == Success(state.Snapshot())
      ensures r.Success? ==> AnalyzedUpTo(|commands|)
      ensures Olns(commands) == old(Olns(commands)) && Lns(commands) == old(Lns(commands))
    {
      state := new MachineState();
      var ci := 0;
      while ci < |commands|
        invariant 0 <= ci <= |commands|
        invariant commands == old(commands) && fileName == old(fileName)
        invariant AnalyzedUpTo(ci) && state.Valid() && fresh(state)
        invariant Final(commands, FreshState, norm) == Final(commands[ci..], state.Snapshot(), norm)
        invariant Olns(commands) == old(Olns(commands)) && Lns(commands) == old(Lns(commands))
      {
        r := AnalyzeStep(ci, norm);
        if r.Failure? {
          return;
        }
        ci := ci + 1;
      }
      return Success(());
    }
  }

  /** The command was read from the line: it is what `parse` makes of it. */
  predicate ReadFrom(c: Command, line: string) {
    c.gCode == line && ParseLine(line) == Success(ParsedLine(c.kind, c.args, c.comment))
  }

  /** A command just parsed: no states yet, and no line numbers. */
  ghost predicate Unanalysed(c: Command)
    reads c
  {
    c.before == null && c.after == null && c.oln.None? && c.ln.None?
  }

  /** Every line, without its trailing whitespace, parses. */
  predicate AllParse(lines: seq<string>) {
    forall i :: 0 <= i < |lines| ==> ParseLine(RStrip(lines[i])).Success?
  }

  /** Line `i` is the first that does not parse, and `e` is why. */
  predicate FirstFailure(lines: seq<string>, i: nat, e: ParseError) {
    i < |lines| && ParseLine(RStrip(lines[i])) == Failure(e) && AllParse(lines[..i])
  }

  /** The commands were read one from each line, in order. */
  predicate ReadAll(cs: seq<Command>, lines: seq<string>) {
    |cs| == |lines| && forall j :: 0 <= j < |cs| ==> ReadFrom(cs[j], RStrip(lines[j]))
  }

  /** No command occurs twice and none is analysed or numbered yet. */
  ghost predicate AllUnanalysed(cs: seq<Command>)
    reads cs
  {
    Distinct(cs) && forall j :: 0 <= j < |cs| ==> Unanalysed(cs[j])
  }

  lemma ReadAllAppend(cs: seq<Command>, lines: seq<string>, c: Command, line: string)
    requires ReadAll(cs, lines) && ReadFrom(c, RStrip(line))
    ensures ReadAll(cs + [c], lines + [line])
  {
    forall j | 0 <= j < |cs| + 1
      ensures ReadFrom((cs + [c])[j], RStrip((lines + [line])[j]))
    {
      if j < |cs| {
        assert (cs + [c])[j] == cs[j] && (lines + [line])[j] == lines[j];
      } else {
        assert (cs + [c])[j] == c && (lines + [line])[j] == line;
      }
    }
  }

  /** A command read from line `i` extends the commands read from the lines before it. */
  lemma ReadOne(cs: seq<Command>, lines: seq<string>, i: nat, c: Command)
    requires i < |lines| && ReadAll(cs, lines[..i]) && ReadFrom(c, RStrip(lines[i]))
    ensures ReadAll(cs + [c], lines[..i + 1])
  {
    assert lines[..i + 1] == lines[..i] + [lines[i]];
    ReadAllAppend(cs, lines[..i], c, lines[i]);
  }

  lemma AllUnanalysedAppend(cs: seq<Command>, c: Command)
    requires AllUnanalysed(cs) && Unanalysed(c) && c !in cs
    ensures AllUnanalysed(cs + [c])
  {
  }

  /** Lines that commands were read from all parse. */
  lemma ReadAllParses(cs: seq<Command>, lines: seq<string>)
    requires ReadAll(cs, lines)
    ensures AllParse(lines)
  {
    forall i | 0 <= i < |lines|
      ensures ParseLine(RStrip(lines[i])).Success?
    {
      assert ReadFrom(cs[i], RStrip(lines[i]));
    }
  }

  /** A line that does not parse after lines that commands were read from is the first failure. */
  lemma StopsAt(cs: seq<Command>, lines: seq<string>, i: nat, e: ParseError)
    requires i < |lines| && ReadAll(cs, lines[..i]) && ParseLine(RStrip(lines[i])) == Failure(e)
    ensures FirstFailure(lines, i, e) && !AllParse(lines)
  {
    ReadAllParses(cs, lines[..i]);
  }

  /** One turn of the parsing loop of `from_file`: line `i` becomes the next command. */
  method ReadNext(reg: CodeRegistry, ghost cs: seq<Command>, lines: seq<string>, i: nat) returns (r: Result<Command, ParseError>)
    requires reg.Valid() && i < |lines| && ReadAll(cs, lines[..i]) && AllUnanalysed(cs)
    modifies reg
    ensures reg.Valid()
    ensures r.Failure? ==> FirstFailure(lines, i, r.error) && !AllParse(lines)
    ensures r.Success? ==> fresh(r.value) && ReadAll(cs + [r.value], lines[..i + 1]) && AllUnanalysed(cs + [r.value])
  {
    var line := RStrip(lines[i]);
    r := Parse(reg, line);
    if r.Failure? {
      StopsAt(cs, lines, i, r.error);
      return;
    }
    assert ReadFrom(r.value, line);
    ReadOne(cs, lines, i, r.value);
    AllUnanalysedAppend(cs, r.value);
  }

  /**
   * The parsing half of `from_file`: every line, without its trailing
   * whitespace, parsed in order; the first line that does not parse stops the
   * reading with its error.
   */
  method ParseLines(reg: CodeRegistry, lines: seq<string>) returns (r: Result<seq<Command>, ParseError>)
    requires reg.Valid()
    modifies reg
    ensures reg.Valid()
    ensures r.Failure? <==> !AllParse(lines)
    ensures r.Failure? ==> exists i :: FirstFailure(lines, i, r.error)
    ensures r.Success? ==> ReadAll(r.value, lines) && AllUnanalysed(r.value)
    ensures r.Success? ==> fresh(set c | c in r.value)
  {
    var cs: seq<Command> := [];
    var i := 0;
    while i < |lines|
      invariant 0 <= i <= |lines| && reg.Valid()
      invariant ReadAll(cs, lines[..i]) && AllUnanalysed(cs)
      invariant fresh(set c | c in cs)
    {
      var p := ReadNext(reg, cs, lines, i);
      if p.Failure? {
        return Failure(p.error);
      }
      cs := cs + [p.value];
      i := i + 1;
    }
    assert lines[..i] == lines;
    ReadAllParses(cs, lines);
    return Success(cs);
  }

  /**
   * `Script.from_file`: the lines are parsed, then the `i`-th command gets
   * original and current line number `i + 1`.  The count logged at the end
   * reads the last command, so an empty file raises.
   */
  method FromFile(reg: CodeRegistry, name: string, lines: seq<string>) returns (r: Result<Script, ScriptError>)
    requires reg.Valid()
    modifies reg
    ensures reg.Valid()
    ensures r.Failure? <==> lines == [] || !AllParse(lines)
    ensures r.Failure? && r.error.ParseFailed? ==> exists i :: FirstFailure(lines, i, r.error.parse)
    ensures r.Failure? && !r.error.ParseFailed? ==> r.error == NoCommands && lines == []
    ensures r.Success? ==>
      fresh(r.value) && r.value.fileName == Some(name) && r.value.state == null
      && ReadAll(r.value.commands, lines) && Distinct(r.value.commands) && Numbered(r.value.commands)
    ensures r.Success? ==> fresh(set c | c in r.value.commands)
    ensures r.Success? ==> forall c :: c in r.value.commands ==> c.before == null && c.after == null
  {
    var parsed := ParseLines(reg, lines);
    if parsed.Failure? {
      return Failure(ParseFailed(parsed.error));
    }
    var cs := parsed.value;
    NumberLines(cs);
    if cs == [] {
      return Failure(NoCommands);
    }
    var s := new Script.FromCommands(cs, Some(name));
    return Success(s);
  }

  /** The numbering loop of `from_file`: the `i`-th command, not yet numbered, gets `i + 1`. */
  method NumberLines(cs: seq<Command>)
    requires AllUnanalysed(cs)
    modifies cs
    ensures Numbered(cs)
    ensures forall j :: 0 <= j < |cs| ==> cs[j].before == old(cs[j].before) && cs[j].after == old(cs[j].after)
  {
    var i := 0;
    while i < |cs|
      invariant 0 <= i <= |cs|
      invariant forall j :: 0 <= j < i ==> cs[j].oln == Some(j + 1) && cs[j].ln == Some(j + 1)
      invariant forall j :: i <= j < |cs| ==> cs[j].oln.None?
      invariant forall j :: 0 <= j < |cs| ==> cs[j].before == old(cs[j].before) && cs[j].after == old(cs[j].after)
    {
      // `from_file` asserts that a command is numbered once
      assert cs[i].oln.None?;
      cs[i].oln := Some(i + 1);
      cs[i].ln := Some(i + 1);
      i := i + 1;
    }
  }
}

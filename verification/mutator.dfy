/**
 * The mutator pipeline.  A script is analysed and becomes the original; the
 * output starts empty and the original is walked front to back.  Each original
 * command is either kept (a fresh copy is appended) or replaced (the given
 * commands are appended).  Every appended command carries the original's line
 * number and evolves the running state, which continues from the end of the
 * analysis.  The output is then renumbered from 1.
 *
 * What a mutator does with each command is decided by its subclass; here the
 * decisions are an input, one per original command.
 */
module Mutators {
  import opened Wrappers
  import opened MachineStates
  import opened CommandProps
  import opened CommandEffects
  import opened CommandModel
  import opened Scripts

  /** What is done with one original command: `keep` it, or `replace` it by `rs`. */
  datatype Decision = Kept | Replaced(rs: seq<Command>)

  /** The commands a decision hands back, none for `keep`. */
  function Replacements(d: Decision): seq<Command> {
    if d.Replaced? then d.rs else []
  }

  /** A command as the constructor accepts it; `copy` runs the constructor again. */
  predicate WellFormed(c: Command) {
    UniqueLetters(c.args) && !('G' in Letters(c.args) && 'M' in Letters(c.args))
  }

  /** The same line: class, text, parameters and comment. */
  predicate SameLine(a: Command, b: Command) {
    a.kind == b.kind && a.gCode == b.gCode && a.args == b.args && a.comment == b.comment
  }

  /**
   * `original[ln - 1]` as Python reads it: no line number raises, line 0 reads
   * the last command, a line past the end raises.
   */
  function OriginalAt(orig: seq<Command>, ln: Option<nat>): (r: Option<Command>)
    ensures ln.Some? && 1 <= ln.value <= |orig| ==> r == Some(orig[ln.value - 1])
    ensures ln.Some? && ln.value == 0 && orig != [] ==> r == Some(orig[|orig| - 1])
    ensures r.None? <==> ln.None? || ln.value > |orig| || orig == []
  {
    match ln
    case None => None
    case Some(l) =>
      if l == 0 then (if orig == [] then None else Some(orig[|orig| - 1]))
      else if l <= |orig| then Some(orig[l - 1])
      else None
  }

  /** Each original command sits at its own current line number. */
  ghost predicate AtTheirLines(orig: seq<Command>)
    reads orig
  {
    forall i :: 0 <= i < |orig| ==> OriginalAt(orig, orig[i].ln) == Some(orig[i])
  }

  /** A script read from a file has every command at its line number, so `keep` never fails its check on it. */
  lemma NumberedAtTheirLines(cs: seq<Command>)
    requires Numbered(cs)
    ensures AtTheirLines(cs)
  {
  }

  /**
   * One command of the planned output: a copy of an original, or a
   * replacement; with the original line number it carries.
   */
  datatype Entry = Copied(src: Command, oln: Option<nat>) | Put(c: Command, oln: Option<nat>)

  /** The command whose line the entry's output command has. */
  function LineOf(e: Entry): Command {
    match e
    case Copied(src, _) => src
    case Put(c, _) => c
  }

  /** The lines of the planned output, in order. */
  function Lines(plan: seq<Entry>): (r: seq<Command>)
    ensures |r| == |plan| && forall k :: 0 <= k < |plan| ==> r[k] == LineOf(plan[k])
  {
    seq(|plan|, k requires 0 <= k < |plan| => LineOf(plan[k]))
  }

  /** What one decision about original `o`, whose original line number is `oln`, appends. */
  function Step(o: Command, oln: Option<nat>, d: Decision): (r: seq<Entry>)
    ensures d.Kept? ==> r == [Copied(o, oln)]
    ensures d.Replaced? ==> |r| == |d.rs| && forall k :: 0 <= k < |r| ==> r[k] == Put(d.rs[k], oln)
  {
    match d
    case Kept => [Copied(o, oln)]
    case Replaced(rs) => seq(|rs|, k requires 0 <= k < |rs| => Put(rs[k], oln))
  }

  /** The planned output of the decisions about the first `|ds|` originals, in order. */
  function Plan(orig: seq<Command>, olns: seq<Option<nat>>, ds: seq<Decision>): seq<Entry>
    requires |ds| <= |orig| && |ds| <= |olns|
  {
    if ds == [] then []
    else
      var n := |ds| - 1;
      Plan(orig, olns, ds[..n]) + Step(orig[n], olns[n], ds[n])
  }

  /** Line by line, the same classes, texts, parameters and comments. */
  predicate LinesMatch(xs: seq<Command>, ys: seq<Command>) {
    |xs| == |ys| && forall k :: 0 <= k < |xs| ==> SameLine(xs[k], ys[k])
  }

  /** The original line numbers the plan gives its commands, in order. */
  function PlanOlns(plan: seq<Entry>): (r: seq<Option<nat>>)
    ensures |r| == |plan| && forall k :: 0 <= k < |plan| ==> r[k] == plan[k].oln
  {
    seq(|plan|, k requires 0 <= k < |plan| => plan[k].oln)
  }

  /**
   * The commands are the plan's: the same lines in the same order, and every
   * replacement is the very object handed back.
   */
  predicate Matches(out: seq<Command>, plan: seq<Entry>) {
    LinesMatch(out, Lines(plan))
    && forall k :: 0 <= k < |out| && plan[k].Put? ==> out[k] == plan[k].c
  }

  /** The output is the plan, each command with the planned original line number. */
  ghost predicate Realizes(out: seq<Command>, plan: seq<Entry>)
    reads out
  {
    Matches(out, plan) && Olns(out) == PlanOlns(plan)
  }

  /** A copy with the original line number realizes a one-command `keep` step. */
  lemma RealizesCopy(n: Command, c: Command, oln: Option<nat>)
    requires SameLine(n, c) && n.oln == oln
    ensures Realizes([n], [Copied(c, oln)])
  {
    assert Olns([n]) == [oln];
  }

  /** The plan for one more decision is the plan so far followed by that decision's step. */
  lemma PlanNext(orig: seq<Command>, olns: seq<Option<nat>>, ds: seq<Decision>, ci: nat)
    requires ci < |ds| <= |orig| && |ds| <= |olns|
    ensures Plan(orig, olns, ds[..ci + 1]) == Plan(orig, olns, ds[..ci]) + Step(orig[ci], olns[ci], ds[ci])
  {
    assert ds[..ci + 1][..ci] == ds[..ci];
  }

  lemma MatchesAppend(out: seq<Command>, plan: seq<Entry>, more: seq<Command>, step: seq<Entry>)
    requires Matches(out, plan) && Matches(more, step)
    ensures Matches(out + more, plan + step)
  {
    assert Lines(plan + step) == Lines(plan) + Lines(step);
  }

  lemma RealizesAppend(out: seq<Command>, plan: seq<Entry>, more: seq<Command>, step: seq<Entry>)
    requires Realizes(out, plan) && Realizes(more, step)
    ensures Realizes(out + more, plan + step)
  {
    MatchesAppend(out, plan, more, step);
    assert Olns(out + more) == Olns(out) + Olns(more);
    assert PlanOlns(plan + step) == PlanOlns(plan) + PlanOlns(step);
  }

  /** Appending the replacements of original `ci` to an output realizing the plan so far realizes the plan one decision further, and hands back none of the later replacements. */
  lemma ReplaceRealizes(orig: seq<Command>, olns: seq<Option<nat>>, ds: seq<Decision>, ci: nat, prev: seq<Command>)
    requires ci < |ds| == |orig| == |olns| && ds[ci].Replaced? && ReplacementsFit(orig, ds)
    requires Realizes(prev, Plan(orig, olns, ds[..ci]))
    requires forall j, x :: ci < j < |ds| && x in Replacements(ds[j]) ==> x !in prev
    requires forall x :: x in ds[ci].rs ==> x.oln == olns[ci]
    ensures Realizes(prev + ds[ci].rs, Plan(orig, olns, ds[..ci + 1]))
    ensures forall j, x :: ci < j < |ds| && x in Replacements(ds[j]) ==> x !in prev + ds[ci].rs
  {
    var rs := ds[ci].rs;
    var step := Step(orig[ci], olns[ci], ds[ci]);
    PlanNext(orig, olns, ds, ci);
    assert Olns(rs) == PlanOlns(step);
    RealizesAppend(prev, Plan(orig, olns, ds[..ci]), rs, step);
    forall j, x | ci < j < |ds| && x in Replacements(ds[j])
      ensures x !in prev + rs
    {
      assert x !in Replacements(ds[ci]);
    }
  }

  /** The replacements are new to the output: no object is handed back twice, and the only original one may hand back is its own. */
  predicate ReplacementsFit(orig: seq<Command>, ds: seq<Decision>) {
    (forall i :: 0 <= i < |ds| ==> Distinct(Replacements(ds[i])))
    && (forall i, j, x :: 0 <= i < j < |ds| && x in Replacements(ds[i]) ==> x !in Replacements(ds[j]))
    && (forall i, x :: 0 <= i < |ds| && i < |orig| && x in Replacements(ds[i]) && x in orig ==> x == orig[i])
  }

  /** No decision hands back a later original. */
  lemma OthersNotHandedBack(orig: seq<Command>, ds: seq<Decision>, ci: nat, j: nat)
    requires Distinct(orig) && ReplacementsFit(orig, ds) && ci < j < |orig| && ci < |ds|
    ensures orig[j] !in Replacements(ds[ci])
  {
    assert orig[j] in orig && orig[j] != orig[ci];
  }

  /** Every object some decision hands back. */
  function Pool(ds: seq<Decision>): set<Command> {
    set i, x | 0 <= i < |ds| && x in Replacements(ds[i]) :: x
  }

  /** Output `k` carries line number `k + 1`. */
  ghost predicate Renumbered(cs: seq<Command>)
    reads cs
  {
    forall k :: 0 <= k < |cs| ==> cs[k].ln == Some(k + 1)
  }

  /** Which original each planned output command comes from. */
  function Origins(ds: seq<Decision>): (r: seq<nat>)
    ensures forall k :: 0 <= k < |r| ==> r[k] < |ds|
  {
    if ds == [] then []
    else
      var n := |ds| - 1;
      Origins(ds[..n]) + seq(if ds[n].Kept? then 1 else |ds[n].rs|, _ => n)
  }

  /**
   * The plan follows the original order: its commands come from originals in
   * non-decreasing order; a copy comes from an original that is kept and is that
   * original's line, a replacement is handed back by its original's decision,
   * and each carries its original's line number.
   */
  lemma {:induction false} PlanOrder(orig: seq<Command>, olns: seq<Option<nat>>, ds: seq<Decision>)
    requires |ds| <= |orig| && |ds| <= |olns|
    ensures var plan, from := Plan(orig, olns, ds), Origins(ds);
      |from| == |plan|
      && (forall k, l :: 0 <= k < l < |from| ==> from[k] <= from[l])
      && (forall k :: 0 <= k < |plan| ==> plan[k].oln == olns[from[k]])
      && (forall k :: 0 <= k < |plan| && plan[k].Copied? ==> ds[from[k]].Kept? && plan[k].src == orig[from[k]])
      && (forall k :: 0 <= k < |plan| && plan[k].Put? ==> ds[from[k]].Replaced? && plan[k].c in ds[from[k]].rs)
  {
    if ds != [] {
      var n := |ds| - 1;
      PlanOrder(orig, olns, ds[..n]);
      var plan0, from0 := Plan(orig, olns, ds[..n]), Origins(ds[..n]);
      var step := Step(orig[n], olns[n], ds[n]);
      var tail: seq<nat> := seq(if ds[n].Kept? then 1 else |ds[n].rs|, _ => n);
      assert Plan(orig, olns, ds) == plan0 + step;
      assert Origins(ds) == from0 + tail;
      forall k | 0 <= k < |plan0|
        ensures from0[k] < n
      {
      }
    }
  }

  /** A kept original contributes exactly one command, a replaced one exactly its replacements. */
  lemma {:induction false} PlanLength(orig: seq<Command>, olns: seq<Option<nat>>, ds: seq<Decision>, d: Decision)
    requires |ds| < |orig| && |ds| < |olns|
    ensures |Plan(orig, olns, ds + [d])| == |Plan(orig, olns, ds)| + (if d.Kept? then 1 else |d.rs|)
  {
    assert (ds + [d])[..|ds|] == ds;
  }

  /** Deciding about one more original only appends to the plan. */
  lemma {:induction false} PlanPrefix(orig: seq<Command>, olns: seq<Option<nat>>, ds: seq<Decision>, n: nat)
    requires |ds| <= |orig| && |ds| <= |olns| && n <= |ds|
    ensures var p := Plan(orig, olns, ds[..n]); |p| <= |Plan(orig, olns, ds)| && Plan(orig, olns, ds)[..|p|] == p
    decreases |ds| - n
  {
    if n < |ds| {
      PlanPrefix(orig, olns, ds, n + 1);
      assert ds[..n + 1][..n] == ds[..n];
      assert Plan(orig, olns, ds[..n + 1]) == Plan(orig, olns, ds[..n]) + Step(orig[n], olns[n], ds[n]);
    } else {
      assert ds[..n] == ds;
    }
  }

  /** Evolving depends only on the commands' classes and parameters. */
  lemma {:induction false} FinalSameLines(xs: seq<Command>, ys: seq<Command>, s: StateVal, norm: seq<real> -> real)
    requires LinesMatch(xs, ys)
    ensures Final(xs, s, norm) == Final(ys, s, norm)
  {
    if xs != [] {
      assert SameLine(xs[0], ys[0]);
      assert LinesMatch(xs[1..], ys[1..]);
      match Effect(xs[0].kind, xs[0].args, s, norm)
      case Failure(e) =>
      case Success(st) =>
        FinalSameLines(xs[1..], ys[1..], st.1, norm);
    }
  }

  /** Once a prefix fails, the whole list fails. */
  lemma FinalPrefixFailure(xs: seq<Command>, ys: seq<Command>, s: StateVal, norm: seq<real> -> real)
    requires |xs| <= |ys| && ys[..|xs|] == xs && Final(xs, s, norm).Failure?
    ensures Final(ys, s, norm).Failure?
  {
    assert ys == xs + ys[|xs|..];
    FinalAppend(xs, ys[|xs|..], s, norm);
  }

  /** Once the plan for a prefix of the decisions fails to evolve, the whole plan does. */
  lemma PlanFailure(orig: seq<Command>, olns: seq<Option<nat>>, ds: seq<Decision>, n: nat, s: StateVal, norm: seq<real> -> real)
    requires |ds| <= |orig| && |ds| <= |olns| && n <= |ds|
    requires Final(Lines(Plan(orig, olns, ds[..n])), s, norm).Failure?
    ensures Final(Lines(Plan(orig, olns, ds)), s, norm).Failure?
  {
    PlanPrefix(orig, olns, ds, n);
    var p, q := Plan(orig, olns, ds[..n]), Plan(orig, olns, ds);
    assert Lines(q)[..|p|] == Lines(p);
    FinalPrefixFailure(Lines(p), Lines(q), s, norm);
  }

  /** Output that matches the plan so far, followed by a failing step, makes the whole plan fail to evolve. */
  lemma StepFailure(orig: seq<Command>, olns: seq<Option<nat>>, ds: seq<Decision>, ci: nat,
                    prev: seq<Command>, more: seq<Command>, s: StateVal, norm: seq<real> -> real)
    requires ci < |ds| <= |orig| && |ds| <= |olns|
    requires Matches(prev, Plan(orig, olns, ds[..ci])) && Matches(more, Step(orig[ci], olns[ci], ds[ci]))
    requires Final(prev + more, s, norm).Failure?
    ensures Final(Lines(Plan(orig, olns, ds)), s, norm).Failure?
  {
    var plan, step := Plan(orig, olns, ds[..ci]), Step(orig[ci], olns[ci], ds[ci]);
    PlanNext(orig, olns, ds, ci);
    MatchesAppend(prev, plan, more, step);
    FinalSameLines(prev + more, Lines(plan + step), s, norm);
    PlanFailure(orig, olns, ds, ci + 1, s, norm);
  }

  /** `process`'s renumbering loop: output command `k` gets current line number `k + 1`. */
  method Renumber(cs: seq<Command>)
    requires Distinct(cs)
    modifies cs
    ensures Renumbered(cs)
    ensures forall k :: 0 <= k < |cs| ==>
      cs[k].oln == old(cs[k].oln) && cs[k].before == old(cs[k].before) && cs[k].after == old(cs[k].after)
  {
    var k := 0;
    while k < |cs|
      invariant 0 <= k <= |cs|
      invariant forall j :: 0 <= j < k ==> cs[j].ln == Some(j + 1)
      invariant forall j :: 0 <= j < |cs| ==>
        cs[j].oln == old(cs[j].oln) && cs[j].before == old(cs[j].before) && cs[j].after == old(cs[j].after)
    {
      cs[k].ln := Some(k + 1);
      k := k + 1;
    }
  }

  class Mutator {
    /** The script this mutator is: its command list is the output, its state the running state. */
    const script: Script
    /** The analysed input, walked front to back. */
    var original: seq<Command>
    /** The value of the running state when the analysis of the original ended. */
    ghost var start: StateVal

    /** `Script.__init__(script)`: the mutator starts as a copy of the script. */
    constructor (s: Script)
      ensures fresh(script)
      ensures script.commands == s.commands && script.fileName == s.fileName && script.state == null
      ensures original == []
    {
      script := new Script.Copy(s);
      original := [];
      start := FreshState;
    }

    /**
     * The commands `cs` have been evolved in order from the end of the
     * analysis into the state `st`, and hold no command twice.
     */
    ghost predicate EvolvedThrough(cs: seq<Command>, st: MachineState?, norm: seq<real> -> real)
      reads this`start, cs, st
      reads if st != null then st.Repr() else {}
    {
      EvolvedChain(cs, st) && Distinct(cs)
      && Final(cs, start, norm) == Success(st.Snapshot())
    }

    /** The output so far has been evolved. */
    ghost predicate Evolved(norm: seq<real> -> real)
      reads this, script, script.commands, script.state
      reads if script.state != null then script.state.Repr() else {}
    {
      EvolvedThrough(script.commands, script.state, norm)
    }

    /** `analyze_one(x)` after the commands `cs`: `x` evolves the running state. */
    method EvolveNext(x: Command, ghost cs: seq<Command>, norm: seq<real> -> real) returns (r: Result<(), ScriptError>)
      requires EvolvedThrough(cs, script.state, norm) && script.state.Valid() && x !in cs
      modifies script, x`before, x`after, script.state`feedrate
      ensures script.commands == old(script.commands) && script.fileName == old(script.fileName)
      ensures script.state != null && script.state.Valid()
      ensures script.state == old(script.state) || (fresh(script.state) && fresh(script.state.Repr()))
      ensures r.Failure? <==> Final(cs + [x], start, norm).Failure?
      ensures r.Failure? ==> r.error.EvolveFailed?
      ensures r.Success? ==> EvolvedThrough(cs + [x], script.state, norm)
    {
      ghost var s := script.state.Snapshot();
      FinalAppend(cs, [x], start, norm);
      FinalStep([x], s, norm);
      r := script.AnalyzeOne(x, norm);
      if r.Success? {
        EvolvedChainAppend(cs, x, script.state);
      }
    }

    /**
     * `keep(ci, old)`: `old` must be the original at its line; a copy of it,
     * with its original line number, is appended and evolves the running state.
     */
    method Keep(ci: nat, c: Command, norm: seq<real> -> real) returns (r: Result<(), ScriptError>, ghost n: Command)
      requires Evolved(norm) && script.state.Valid() && WellFormed(c)
      modifies script, script.state`feedrate
      ensures script.fileName == old(script.fileName)
      ensures script.state != null && script.state.Valid()
      ensures script.state == old(script.state) || (fresh(script.state) && fresh(script.state.Repr()))
      ensures r == Failure(NotOriginal) <==> OriginalAt(original, c.ln) != Some(c)
      ensures r == Failure(NotOriginal) ==> script.commands == old(script.commands) && script.state == old(script.state)
      ensures r != Failure(NotOriginal) ==>
        script.commands == old(script.commands) + [n] && fresh(n) && SameLine(n, c) && n.oln == c.oln
        && (r.Failure? <==> Final(script.commands, start, norm).Failure?)
      ensures r.Failure? && r != Failure(NotOriginal) ==> r.error.EvolveFailed?
      ensures r.Success? ==> Evolved(norm)
    {
      if OriginalAt(original, c.ln) != Some(c) {
        return Failure(NotOriginal), c;
      }
      var copy := c.Copy();
      copy.oln := c.oln;
      n := copy;
      r := Append(copy, norm);
    }

    /** The tail of `keep`: the copy is appended, then evolves the running state. */
    method Append(n: Command, norm: seq<real> -> real) returns (r: Result<(), ScriptError>)
      requires Evolved(norm) && script.state.Valid() && n !in script.commands
      modifies script, n`before, n`after, script.state`feedrate
      ensures script.commands == old(script.commands) + [n] && script.fileName == old(script.fileName)
      ensures script.state != null && script.state.Valid()
      ensures script.state == old(script.state) || (fresh(script.state) && fresh(script.state.Repr()))
      ensures r.Failure? <==> Final(script.commands, start, norm).Failure?
      ensures r.Failure? ==> r.error.EvolveFailed?
      ensures r.Success? ==> Evolved(norm)
    {
      ghost var done := script.commands;
      script.commands := script.commands + [n];
      r := EvolveNext(n, done, norm);
    }

    /**
     * The loop of `replace` has handled the first `cj` replacements: each got
     * the original line number `oln` and has evolved after the output `done`,
     * which is not yet extended.
     */
    ghost predicate Replacing(cj: nat, oln: Option<nat>, rs: seq<Command>, done: seq<Command>, norm: seq<real> -> real)
      reads this, script, script.state, rs, done
      reads if script.state != null then script.state.Repr() else {}
    {
      cj <= |rs| && script.commands == done
      && (forall j :: 0 <= j < cj ==> rs[j].oln == oln)
      && EvolvedThrough(done + rs[..cj], script.state, norm)
    }

    /** One turn of the loop of `replace`: replacement `cj` gets the original line number `oln`, then evolves. */
    method ReplaceStep(cj: nat, oln: Option<nat>, rs: seq<Command>, ghost done: seq<Command>, norm: seq<real> -> real)
      returns (r: Result<(), ScriptError>)
      requires cj < |rs| && Distinct(rs) && (forall x :: x in rs ==> x !in done)
      requires Replacing(cj, oln, rs, done, norm) && script.state.Valid()
      modifies script, rs[cj], script.state`feedrate
      ensures script.fileName == old(script.fileName)
      ensures script.state != null && script.state.Valid()
      ensures script.state == old(script.state) || (fresh(script.state) && fresh(script.state.Repr()))
      ensures r.Failure? ==> r.error.EvolveFailed? && script.commands == done && Final(done + rs, start, norm).Failure?
      ensures r.Success? ==> Replacing(cj + 1, oln, rs, done, norm)
    {
      var x := rs[cj];
      x.oln := oln;
      assert x !in done + rs[..cj];
      r := EvolveNext(x, done + rs[..cj], norm);
      assert rs[..cj + 1] == rs[..cj] + [x];
      assert done + rs[..cj] + [x] == done + rs[..cj + 1];
      if r.Failure? {
        FinalPrefixFailure(done + rs[..cj + 1], done + rs, start, norm);
      }
    }

    /**
     * `replace(ci, old, replacements)`: each replacement in turn gets the
     * original line number of `old` and evolves the running state; then all of
     * them are appended, in order.  A replacement that raises stops the loop
     * before anything is appended.
     */
    method Replace(ci: nat, c: Command, rs: seq<Command>, norm: seq<real> -> real) returns (r: Result<(), ScriptError>)
      requires Evolved(norm) && script.state.Valid()
      requires Distinct(rs) && forall x :: x in rs ==> x !in script.commands
      modifies script, script.state`feedrate, set x | x in rs
      ensures script.fileName == old(script.fileName)
      ensures script.state != null && script.state.Valid()
      ensures script.state == old(script.state) || (fresh(script.state) && fresh(script.state.Repr()))
      ensures r.Failure? <==> Final(old(script.commands) + rs, start, norm).Failure?
      ensures r.Failure? ==> r.error.EvolveFailed? && script.commands == old(script.commands)
      ensures r.Success? ==> script.commands == old(script.commands) + rs && Evolved(norm)
      ensures r.Success? ==> forall x :: x in rs ==> x.oln == old(c.oln)
    {
      // Every replacement, `old` among them or not, gets the value `old.oln` had on entry.
      var oln := c.oln;
      ghost var done := script.commands;
      assert done + rs[..0] == done;
      var cj := 0;
      while cj < |rs|
        invariant script.fileName == old(script.fileName)
        invariant script.state != null && script.state.Valid()
        invariant script.state == old(script.state) || (fresh(script.state) && fresh(script.state.Repr()))
        invariant Replacing(cj, oln, rs, done, norm)
      {
        r := ReplaceStep(cj, oln, rs, done, norm);
        if r.Failure? {
          return;
        }
        cj := cj + 1;
      }
      assert rs[..cj] == rs;
      script.commands := script.commands + rs;
      return Success(());
    }

    /**
     * The decisions about the first `ci` originals have been carried out: the
     * output is their plan, evolved, and holds none of the later replacements.
     */
    ghost predicate Progress(ci: nat, olns: seq<Option<nat>>, ds: seq<Decision>, norm: seq<real> -> real)
      reads this, script, script.commands, script.state
      reads if script.state != null then script.state.Repr() else {}
    {
      ci <= |ds| && ci <= |original| && ci <= |olns|
      && Evolved(norm) && Realizes(script.commands, Plan(original, olns, ds[..ci]))
      && forall j, x :: ci <= j < |ds| && x in Replacements(ds[j]) ==> x !in script.commands
    }

    /** The originals from `ci` on still carry their line numbers `olns` and `lns`. */
    ghost predicate Pending(ci: nat, olns: seq<Option<nat>>, lns: seq<Option<nat>>)
      reads this, original
    {
      |olns| == |lns| == |original|
      && forall j :: ci <= j < |original| ==> original[j].oln == olns[j] && original[j].ln == lns[j]
    }

    /** Appending a copy of a kept original to an output that realizes the plan so far realizes the plan one decision further. */
    lemma KeepProgress(ci: nat, olns: seq<Option<nat>>, ds: seq<Decision>, prev: seq<Command>, n: Command, norm: seq<real> -> real)
      requires ci < |ds| == |original| == |olns| && ds[ci].Kept?
      requires Evolved(norm) && script.commands == prev + [n]
      requires Realizes(prev, Plan(original, olns, ds[..ci]))
      requires forall j, x :: ci < j < |ds| && x in Replacements(ds[j]) ==> x !in script.commands
      requires SameLine(n, original[ci]) && n.oln == olns[ci]
      ensures Progress(ci + 1, olns, ds, norm)
    {
      PlanNext(original, olns, ds, ci);
      RealizesCopy(n, original[ci], olns[ci]);
      RealizesAppend(prev, Plan(original, olns, ds[..ci]), [n], Step(original[ci], olns[ci], ds[ci]));
    }

    /** One turn of the loop of `process`, for an original that is kept. */
    method ProcessKeep(ci: nat, ghost olns: seq<Option<nat>>, ghost lns: seq<Option<nat>>, ds: seq<Decision>, norm: seq<real> -> real)
      returns (r: Result<(), ScriptError>)
      requires ci < |ds| == |original| && ds[ci].Kept? && WellFormed(original[ci])
      requires Pending(ci, olns, lns)
      requires Progress(ci, olns, ds, norm) && script.state.Valid()
      modifies script, script.state`feedrate
      ensures script.fileName == old(script.fileName)
      ensures script.state != null && script.state.Valid()
      ensures script.state == old(script.state) || (fresh(script.state) && fresh(script.state.Repr()))
      ensures r.Success? ==> Progress(ci + 1, olns, ds, norm)
      ensures r == Failure(NotOriginal) <==> OriginalAt(original, lns[ci]) != Some(original[ci])
      ensures r.Failure? && r != Failure(NotOriginal) ==>
        r.error.EvolveFailed? && Final(Lines(Plan(original, olns, ds)), start, norm).Failure?
      ensures forall x :: x in script.commands ==> x in old(script.commands) || fresh(x)
    {
      var c := original[ci];
      ghost var prev := script.commands;
      ghost var n;
      r, n := Keep(ci, c, norm);
      if r == Failure(NotOriginal) {
        return;
      }
      if r.Success? {
        KeepProgress(ci, olns, ds, prev, n, norm);
      } else {
        assert Matches([n], Step(c, olns[ci], ds[ci]));
        StepFailure(original, olns, ds, ci, prev, [n], start, norm);
      }
    }

    /** Appending the replacements of a replaced original to an output that realizes the plan so far realizes the plan one decision further. */
    lemma ReplaceProgress(ci: nat, olns: seq<Option<nat>>, ds: seq<Decision>, prev: seq<Command>, norm: seq<real> -> real)
      requires ci < |ds| == |original| == |olns| && ds[ci].Replaced? && ReplacementsFit(original, ds)
      requires Evolved(norm) && script.commands == prev + ds[ci].rs
      requires Realizes(prev, Plan(original, olns, ds[..ci]))
      requires forall j, x :: ci < j < |ds| && x in Replacements(ds[j]) ==> x !in prev
      requires forall x :: x in ds[ci].rs ==> x.oln == olns[ci]
      ensures Progress(ci + 1, olns, ds, norm)
    {
      ReplaceRealizes(original, olns, ds, ci, prev);
    }

    /** One turn of the loop of `process`, for an original that is replaced. */
    method ProcessReplace(ci: nat, ghost olns: seq<Option<nat>>, ghost lns: seq<Option<nat>>, ds: seq<Decision>, norm: seq<real> -> real)
      returns (r: Result<(), ScriptError>)
      requires ci < |ds| == |original| && ds[ci].Replaced? && ReplacementsFit(original, ds)
      requires Pending(ci, olns, lns)
      requires Progress(ci, olns, ds, norm) && script.state.Valid()
      modifies script, script.state`feedrate, set x | x in ds[ci].rs
      ensures script.fileName == old(script.fileName)
      ensures script.state != null && script.state.Valid()
      ensures script.state == old(script.state) || (fresh(script.state) && fresh(script.state.Repr()))
      ensures r.Success? ==> Progress(ci + 1, olns, ds, norm)
      ensures r.Failure? ==> r.error.EvolveFailed? && Final(Lines(Plan(original, olns, ds)), start, norm).Failure?
      ensures forall x :: x in script.commands ==> x in old(script.commands) || x in ds[ci].rs
    {
      var c := original[ci];
      var rs := ds[ci].rs;
      ghost var prev := script.commands;
      assert Replacements(ds[ci]) == rs;
      r := Replace(ci, c, rs, norm);
      if r.Success? {
        ReplaceProgress(ci, olns, ds, prev, norm);
      } else {
        StepFailure(original, olns, ds, ci, prev, rs, start, norm);
      }
    }

    /**
     * The walk has carried out the decisions about the first `ci` originals:
     * the output is their plan, every kept one among them was at its line, and
     * the originals still to come carry their line numbers `olns` and `lns`.
     */
    ghost predicate Walked(ci: nat, olns: seq<Option<nat>>, lns: seq<Option<nat>>, ds: seq<Decision>, norm: seq<real> -> real)
      reads this, original, script, script.commands, script.state
      reads if script.state != null then script.state.Repr() else {}
    {
      Progress(ci, olns, ds, norm) && Pending(ci, olns, lns)
      && forall j :: 0 <= j < ci && ds[j].Kept? ==> OriginalAt(original, lns[j]) == Some(original[j])
    }

    /** Before the first decision, the empty output realizes the empty plan. */
    lemma WalkStarts(olns: seq<Option<nat>>, lns: seq<Option<nat>>, ds: seq<Decision>, norm: seq<real> -> real)
      requires |ds| == |original| && Pending(0, olns, lns)
      requires script.commands == [] && Evolved(norm)
      ensures Walked(0, olns, lns, ds, norm)
    {
      assert ds[..0] == [];
      assert Olns([]) == [];
    }

    /** One turn of the loop of `process`: `process_command(ci, original[ci])`. */
    method WalkStep(ci: nat, ghost olns: seq<Option<nat>>, ghost lns: seq<Option<nat>>, ds: seq<Decision>, ghost pool: set<Command>, norm: seq<real> -> real)
      returns (r: Result<(), ScriptError>)
      requires ci < |ds| == |original| && Distinct(original) && ReplacementsFit(original, ds)
      requires ds[ci].Kept? ==> WellFormed(original[ci])
      requires Walked(ci, olns, lns, ds, norm) && script.state.Valid()
      requires forall x :: x in Pool(ds) ==> x in pool
      modifies script, script.state`feedrate, pool
      ensures script.fileName == old(script.fileName)
      ensures script.state != null && script.state.Valid()
      ensures script.state == old(script.state) || (fresh(script.state) && fresh(script.state.Repr()))
      ensures r.Success? ==> Walked(ci + 1, olns, lns, ds, norm)
      ensures forall x :: x in script.commands ==> x in old(script.commands) || x in pool || fresh(x)
      ensures r == Failure(NotOriginal) ==> ds[ci].Kept? && OriginalAt(original, lns[ci]) != Some(original[ci])
      ensures r.Failure? && r != Failure(NotOriginal) ==>
        r.error.EvolveFailed? && Final(Lines(Plan(original, olns, ds)), start, norm).Failure?
    {
      if ds[ci].Kept? {
        r := ProcessKeep(ci, olns, lns, ds, norm);
      } else {
        forall j | ci < j < |original|
          ensures original[j] !in ds[ci].rs
        {
          OthersNotHandedBack(original, ds, ci, j);
        }
        assert forall x :: x in ds[ci].rs ==> x in Pool(ds);
        r := ProcessReplace(ci, olns, lns, ds, norm);
      }
    }

    /**
     * The loop of `process`: each original in turn is kept or replaced as its
     * decision says.  The originals carry original line numbers `olns` and
     * current line numbers `lns`.  On success the output is the plan of all the
     * decisions and has been evolved from the end of the analysis; the walk
     * stops at a kept original that is not at its line (`at` is its index), or
     * at a command that fails to evolve.
     */
    method Walk(ghost olns: seq<Option<nat>>, ghost lns: seq<Option<nat>>, ds: seq<Decision>, ghost pool: set<Command>, norm: seq<real> -> real)
      returns (r: Result<(), ScriptError>, ghost at: nat)
      requires |ds| == |original| && Distinct(original) && ReplacementsFit(original, ds)
      requires forall i :: 0 <= i < |ds| && ds[i].Kept? ==> WellFormed(original[i])
      requires Pending(0, olns, lns)
      requires script.commands == [] && Evolved(norm) && script.state.Valid()
      requires forall x :: x in Pool(ds) ==> x in pool
      modifies script, script.state`feedrate, pool
      ensures script.fileName == old(script.fileName)
      ensures script.state != null && script.state.Valid()
      ensures script.state == old(script.state) || (fresh(script.state) && fresh(script.state.Repr()))
      ensures r.Success? ==> Walked(|ds|, olns, lns, ds, norm)
      ensures forall x :: x in script.commands ==> x in pool || fresh(x)
      ensures r == Failure(NotOriginal) ==>
        at < |ds| && ds[at].Kept? && OriginalAt(original, lns[at]) != Some(original[at])
      ensures r.Failure? && r != Failure(NotOriginal) ==>
        r.error.EvolveFailed? && Final(Lines(Plan(original, olns, ds)), start, norm).Failure?
    {
      r := Success(());
      at := 0;
      WalkStarts(olns, lns, ds, norm);
      var ci := 0;
      while ci < |ds|
        invariant 0 <= ci <= |ds| && r.Success?
        invariant script.fileName == old(script.fileName)
        invariant script.state != null && script.state.Valid()
        invariant script.state == old(script.state) || (fresh(script.state) && fresh(script.state.Repr()))
        invariant Walked(ci, olns, lns, ds, norm)
        invariant forall x :: x in script.commands ==> x in pool || fresh(x)
      {
        r := WalkStep(ci, olns, lns, ds, pool, norm);
        if r.Failure? {
          return r, ci;
        }
        ci := ci + 1;
      }
    }

    /** At the end of the walk the output is the plan of all the decisions, and evolving the plan gives the running state. */
    lemma WalkDone(olns: seq<Option<nat>>, lns: seq<Option<nat>>, ds: seq<Decision>, norm: seq<real> -> real)
      requires |ds| == |original| && Walked(|ds|, olns, lns, ds, norm)
      ensures Realizes(script.commands, Plan(original, olns, ds))
      ensures Final(Lines(Plan(original, olns, ds)), start, norm) == Success(script.state.Snapshot())
    {
      assert ds[..|ds|] == ds;
      FinalSameLines(script.commands, Lines(Plan(original, olns, ds)), start, norm);
    }

    /** `process`'s renumbering loop, which leaves the output, its original line numbers and its evolution as they are. */
    method Renumbering(ghost plan: seq<Entry>, norm: seq<real> -> real)
      requires Evolved(norm) && Realizes(script.commands, plan)
      modifies script.commands
      ensures Evolved(norm) && Realizes(script.commands, plan) && Renumbered(script.commands)
    {
      Renumber(script.commands);
      assert Olns(script.commands) == old(Olns(script.commands));
    }

    /**
     * `process`: the walk over the originals, then the renumbering of the
     * output from 1.  An empty output makes the final `commands[-1]` raise.
     * The originals carry original line numbers `olns` and current line
     * numbers `lns`.  On success the output is the plan of the decisions with
     * every command at its planned original line number, it has evolved from
     * the end of the analysis into the running state, and it is numbered 1, 2, ...
     */
    method Process(ghost olns: seq<Option<nat>>, ghost lns: seq<Option<nat>>, ds: seq<Decision>, norm: seq<real> -> real)
      returns (r: Result<(), ScriptError>)
      requires |ds| == |original| && Distinct(original) && ReplacementsFit(original, ds)
      requires forall i :: 0 <= i < |ds| && ds[i].Kept? ==> WellFormed(original[i])
      requires Pending(0, olns, lns)
      requires script.commands == [] && Evolved(norm) && script.state.Valid()
      modifies script, script.state`feedrate, Pool(ds)
      ensures script.fileName == old(script.fileName)
      ensures script.state != null && script.state.Valid()
      ensures r.Success? <==>
        (forall i :: 0 <= i < |ds| && ds[i].Kept? ==> OriginalAt(original, lns[i]) == Some(original[i]))
        && Final(Lines(Plan(original, olns, ds)), start, norm).Success? && Plan(original, olns, ds) != []
      ensures r == Failure(NotOriginal) ==>
        exists i :: 0 <= i < |ds| && ds[i].Kept? && OriginalAt(original, lns[i]) != Some(original[i])
      ensures r.Failure? && r.error.EvolveFailed? ==> Final(Lines(Plan(original, olns, ds)), start, norm).Failure?
      ensures r == Failure(NoCommands) ==> Plan(original, olns, ds) == []
      ensures r.Success? ==>
        Realizes(script.commands, Plan(original, olns, ds)) && Evolved(norm) && Renumbered(script.commands)
    {
      ghost var at;
      r, at := Walk(olns, lns, ds, Pool(ds), norm);
      if r.Failure? {
        return;
      }
      WalkDone(olns, lns, ds, norm);
      Renumbering(Plan(original, olns, ds), norm);
      if script.commands == [] {
        return Failure(NoCommands);
      }
    }

    /**
     * The rest of `Mutator.__init__`: the script is analysed, becomes the
     * original, the output starts empty with the running state of the
     * analysis, and `process` runs.  A failing analysis stops it first.
     */
    method Init(ds: seq<Decision>, norm: seq<real> -> real) returns (r: Result<(), ScriptError>)
      requires |ds| == |script.commands| && Distinct(script.commands) && ReplacementsFit(script.commands, ds)
      requires forall i :: 0 <= i < |ds| && ds[i].Kept? ==> WellFormed(script.commands[i])
      modifies this, script, script.commands, Pool(ds)
      ensures original == old(script.commands) && script.fileName == old(script.fileName)
      ensures Final(original, FreshState, norm).Failure? ==>
        r == Failure(EvolveFailed(Final(original, FreshState, norm).error))
      ensures Final(original, FreshState, norm).Success? ==> start == Final(original, FreshState, norm).value
      ensures var plan := Plan(original, old(Olns(script.commands)), ds);
        r.Success? <==>
          Final(original, FreshState, norm).Success?
          && (forall i :: 0 <= i < |ds| && ds[i].Kept? ==> OriginalAt(original, old(Lns(script.commands))[i]) == Some(original[i]))
          && Final(Lines(plan), start, norm).Success? && plan != []
      ensures r.Success? ==>
        Realizes(script.commands, Plan(original, old(Olns(script.commands)), ds)) && Evolved(norm) && Renumbered(script.commands)
    {
      ghost var olns, lns := Olns(script.commands), Lns(script.commands);
      r := script.Analyze(norm);
      original := script.commands;
      if r.Failure? {
        return;
      }
      r := Restart(olns, lns, ds, norm);
    }

    /**
     * The tail of `Mutator.__init__` after a successful analysis: the output
     * starts empty from the running state of the analysis, and `process` runs
     * over the originals.
     */
    method Restart(ghost olns: seq<Option<nat>>, ghost lns: seq<Option<nat>>, ds: seq<Decision>, norm: seq<real> -> real)
      returns (r: Result<(), ScriptError>)
      requires |ds| == |original| && Distinct(original) && ReplacementsFit(original, ds)
      requires forall i :: 0 <= i < |ds| && ds[i].Kept? ==> WellFormed(original[i])
      requires Pending(0, olns, lns)
      requires script.state != null && script.state.Valid()
      modifies this`start, script, script.state`feedrate, Pool(ds)
      ensures script.fileName == old(script.fileName)
      ensures start == old(script.state.Snapshot())
      ensures r.Success? <==>
        (forall i :: 0 <= i < |ds| && ds[i].Kept? ==> OriginalAt(original, lns[i]) == Some(original[i]))
        && Final(Lines(Plan(original, olns, ds)), start, norm).Success? && Plan(original, olns, ds) != []
      ensures r.Success? ==>
        Realizes(script.commands, Plan(original, olns, ds)) && Evolved(norm) && Renumbered(script.commands)
    {
      start := script.state.Snapshot();
      script.commands := [];
      r := Process(olns, lns, ds, norm);
    }
  }
}

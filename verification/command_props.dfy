/**
 * The parts of a G-code command that the command effects read: its letter
 * parameters (`args`, `aargs`) and the displacements between the states before and
 * after it (`head_dist`, `head_dist_xy`, `head_dist_z`, `head_dist_e`, `moves_head`,
 * `vector`).  The Euclidean norm is a parameter: it is not computed here.
 */
module CommandProps {
  import opened Wrappers
  import opened MachineStates

  /** The letter parameters of a command, in the order Python's dict keeps them. */
  type Args = seq<(char, Arg)>

  /** The letters a parameter list mentions. */
  function Letters<V(==)>(ps: seq<(char, V)>): set<char> {
    set p | p in ps :: p.0
  }

  /** No letter occurs twice, as in a Python dict. */
  predicate UniqueLetters<V(==)>(ps: seq<(char, V)>) {
    ps == [] || (ps[0].0 !in Letters(ps[1..]) && UniqueLetters(ps[1..]))
  }

  /** `self.L`: the value of letter `l`, absent when the command has no such letter. */
  function Lookup<V(==)>(ps: seq<(char, V)>, l: char): (r: Option<V>)
    ensures r.None? <==> l !in Letters(ps)
    ensures r.Some? ==> (l, r.value) in ps
  {
    if ps == [] then None
    else if ps[0].0 == l then Some(ps[0].1)
    else
      assert Letters(ps) == {ps[0].0} + Letters(ps[1..]);
      Lookup(ps[1..], l)
  }

  /** `aargs`: the parameters without the command letters `G` and `M`, in order. */
  function AArgs(args: Args): (r: Args)
    ensures |r| <= |args|
    ensures forall p :: p in r <==> p in args && p.0 != 'G' && p.0 != 'M'
    ensures Letters(r) == Letters(args) - {'G', 'M'}
    ensures UniqueLetters(args) ==> UniqueLetters(r)
    ensures forall l :: l != 'G' && l != 'M' ==> Lookup(r, l) == Lookup(args, l)
  {
    if args == [] then []
    else
      var rest := AArgs(args[1..]);
      assert Letters(args) == {args[0].0} + Letters(args[1..]);
      if args[0].0 == 'G' || args[0].0 == 'M' then rest
      else
        var r := [args[0]] + rest;
        assert Letters(r) == {args[0].0} + Letters(rest);
        r
  }

  /**
   * Python's `dict` built from `(letter, value)` pairs: a later pair for a letter
   * replaces the value in the place of the letter's first occurrence.
   */
  function BuildArgs<V(==)>(ps: seq<(char, V)>): (r: seq<(char, V)>)
    ensures UniqueLetters(r)
    ensures Letters(r) == Letters(ps)
  {
    if ps == [] then []
    else
      var init := ps[..|ps| - 1];
      assert ps == init + [ps[|ps| - 1]];
      assert Letters(ps) == Letters(init) + {ps[|ps| - 1].0};
      Insert(BuildArgs(init), ps[|ps| - 1])
  }

  /** `d[l] = v` on a dict kept as a list of unique pairs. */
  function Insert<V(==)>(d: seq<(char, V)>, p: (char, V)): (r: seq<(char, V)>)
    requires UniqueLetters(d)
    ensures UniqueLetters(r)
    ensures Letters(r) == Letters(d) + {p.0}
    ensures Lookup(r, p.0) == Some(p.1)
    ensures forall l :: l != p.0 ==> Lookup(r, l) == Lookup(d, l)
  {
    if d == [] then
      assert Letters([p]) == {p.0};
      [p]
    else if d[0].0 == p.0 then
      var r := [p] + d[1..];
      assert Letters(r) == {p.0} + Letters(d[1..]);
      assert Letters(d) == {p.0} + Letters(d[1..]);
      r
    else
      var rest := Insert(d[1..], p);
      var r := [d[0]] + rest;
      assert Letters(r) == {d[0].0} + Letters(rest);
      assert Letters(d) == {d[0].0} + Letters(d[1..]);
      assert r[1..] == rest;
      r
  }

  /** Every pair of the dict after `d[l] = v` is the new pair or one already there. */
  lemma {:induction false} InsertFrom<V>(d: seq<(char, V)>, p: (char, V), q: (char, V))
    requires UniqueLetters(d) && q in Insert(d, p)
    ensures q == p || q in d
  {
    if d != [] && d[0].0 != p.0 && q != d[0] {
      var rest := Insert(d[1..], p);
      assert Insert(d, p) == [d[0]] + rest;
      InsertFrom(d[1..], p, q);
    }
  }

  /** Every pair of a built dict is one of the pairs it was built from. */
  lemma {:induction false} BuildArgsFrom<V>(ps: seq<(char, V)>, q: (char, V))
    requires q in BuildArgs(ps)
    ensures q in ps
  {
    if ps != [] {
      var init := ps[..|ps| - 1];
      InsertFrom(BuildArgs(init), ps[|ps| - 1], q);
      if q != ps[|ps| - 1] {
        BuildArgsFrom(init, q);
      }
    }
  }

  /** The value of the last pair whose letter is in `ls`, or `dflt` when there is none. */
  function LastIn<V(==)>(ps: seq<(char, V)>, ls: set<char>, dflt: Option<V>): Option<V> {
    if ps == [] then dflt
    else if ps[|ps| - 1].0 in ls then Some(ps[|ps| - 1].1)
    else LastIn(ps[..|ps| - 1], ls, dflt)
  }

  /** The value of the last pair for letter `l`. */
  function LastValue<V(==)>(ps: seq<(char, V)>, l: char): Option<V> {
    LastIn(ps, {l}, None)
  }

  /**
   * Scanning from the front: the last pair with a letter in `ls` is the last one
   * after the first pair, where the first pair, when its letter is in `ls`, is the
   * fallback.
   */
  lemma {:induction false} LastInFront<V>(ps: seq<(char, V)>, ls: set<char>, dflt: Option<V>)
    requires ps != []
    ensures LastIn(ps, ls, dflt) == LastIn(ps[1..], ls, if ps[0].0 in ls then Some(ps[0].1) else dflt)
  {
    if |ps| > 1 {
      var n := |ps|;
      assert ps[1..][..n - 2] == ps[..n - 1][1..];
      LastInFront(ps[..n - 1], ls, dflt);
    }
  }

  /** Dropping `G` and `M` does not change the last parameter with a letter in `ls`. */
  lemma {:induction false} LastInAArgs(args: Args, ls: set<char>, dflt: Option<Arg>)
    requires 'G' !in ls && 'M' !in ls
    ensures LastIn(AArgs(args), ls, dflt) == LastIn(args, ls, dflt)
  {
    if args != [] {
      LastInFront(args, ls, dflt);
      var d := if args[0].0 in ls then Some(args[0].1) else dflt;
      LastInAArgs(args[1..], ls, d);
      if args[0].0 != 'G' && args[0].0 != 'M' {
        var r := AArgs(args);
        assert r == [args[0]] + AArgs(args[1..]);
        LastInFront(r, ls, dflt);
        assert r[1..] == AArgs(args[1..]);
      }
    }
  }

  /** Every letter of a built dict holds the value of that letter's last pair. */
  lemma {:induction false} BuildArgsKeepsLastValue<V>(ps: seq<(char, V)>, l: char)
    ensures Lookup(BuildArgs(ps), l) == LastValue(ps, l)
  {
    if ps != [] {
      BuildArgsKeepsLastValue(ps[..|ps| - 1], l);
    }
  }

  /** Where letter `l` first occurs in a parameter list. */
  function FirstAt<V(==)>(ps: seq<(char, V)>, l: char): (r: nat)
    requires l in Letters(ps)
    ensures r < |ps| && ps[r].0 == l
    ensures forall k :: 0 <= k < r ==> ps[k].0 != l
  {
    assert Letters(ps) == {ps[0].0} + Letters(ps[1..]);
    if ps[0].0 == l then 0 else 1 + FirstAt(ps[1..], l)
  }

  /** The first occurrence of a letter is the one with no occurrence before it. */
  lemma FirstAtIs<V>(ps: seq<(char, V)>, l: char, k: nat)
    requires k < |ps| && ps[k].0 == l && forall j :: 0 <= j < k ==> ps[j].0 != l
    ensures l in Letters(ps) && FirstAt(ps, l) == k
  {
    assert ps[k] in ps;
  }

  /** The letters of `r` occur in `ps`, in the order of their first occurrences there. */
  predicate InFirstOrder<V(==)>(r: seq<(char, V)>, ps: seq<(char, V)>) {
    (forall i :: 0 <= i < |r| ==> r[i].0 in Letters(ps))
    && forall i, j :: 0 <= i < j < |r| ==> FirstAt(ps, r[i].0) < FirstAt(ps, r[j].0)
  }

  /** `aargs` keeps the parameters in the order the command has them. */
  lemma {:induction false} AArgsInOrder(args: Args)
    requires UniqueLetters(args)
    ensures InFirstOrder(AArgs(args), args)
  {
    if args != [] {
      var rest := AArgs(args[1..]);
      AArgsInOrder(args[1..]);
      assert Letters(args) == {args[0].0} + Letters(args[1..]);
      forall i | 0 <= i < |rest|
        ensures rest[i].0 in Letters(args) && rest[i].0 != args[0].0
        ensures FirstAt(args, rest[i].0) == 1 + FirstAt(args[1..], rest[i].0)
      {
      }
      if args[0].0 != 'G' && args[0].0 != 'M' {
        var r := AArgs(args);
        assert r == [args[0]] + rest;
        forall i, j | 0 <= i < j < |r|
          ensures FirstAt(args, r[i].0) < FirstAt(args, r[j].0)
        {
          assert r[j] == rest[j - 1];
          if i > 0 {
            assert r[i] == rest[i - 1];
          }
        }
      }
    }
  }

  /** The pairs of `d` keep their letters and places under `d[l] = v`; a new letter goes last. */
  lemma {:induction false} InsertPlaces<V>(d: seq<(char, V)>, p: (char, V))
    requires UniqueLetters(d)
    ensures p.0 in Letters(d) ==> |Insert(d, p)| == |d|
    ensures p.0 !in Letters(d) ==> Insert(d, p) == d + [p]
    ensures forall k :: 0 <= k < |d| ==> Insert(d, p)[k].0 == d[k].0
  {
    if d != [] && d[0].0 != p.0 {
      assert Letters(d) == {d[0].0} + Letters(d[1..]);
      InsertPlaces(d[1..], p);
      assert Insert(d, p) == [d[0]] + Insert(d[1..], p);
    }
  }

  /** Appending a pair moves no first occurrence; a new letter first occurs at the end. */
  lemma FirstAtAppend<V>(init: seq<(char, V)>, p: (char, V), l: char)
    requires l in Letters(init) + {p.0}
    ensures l in Letters(init + [p])
    ensures l in Letters(init) ==> FirstAt(init + [p], l) == FirstAt(init, l)
    ensures l !in Letters(init) ==> FirstAt(init + [p], l) == |init|
  {
    if l in Letters(init) {
      FirstAtIs(init + [p], l, FirstAt(init, l));
    } else {
      FirstAtIs(init + [p], l, |init|);
    }
  }

  /** A dict built from pairs lists its letters in the order they first occur. */
  lemma {:induction false} BuildArgsInOrder<V>(ps: seq<(char, V)>)
    ensures InFirstOrder(BuildArgs(ps), ps)
  {
    if ps != [] {
      var init, p := ps[..|ps| - 1], ps[|ps| - 1];
      assert ps == init + [p];
      BuildArgsInOrder(init);
      var d := BuildArgs(init);
      InsertPlaces(d, p);
      InsertedInOrder(init, d, p);
    }
  }

  /** `d[l] = v` on a dict in first-occurrence order of `init` is in that order of `init + [p]`. */
  lemma InsertedInOrder<V>(init: seq<(char, V)>, d: seq<(char, V)>, p: (char, V))
    requires UniqueLetters(d) && Letters(d) == Letters(init) && InFirstOrder(d, init)
    requires p.0 in Letters(d) ==> |Insert(d, p)| == |d|
    requires p.0 !in Letters(d) ==> Insert(d, p) == d + [p]
    requires forall k :: 0 <= k < |d| ==> Insert(d, p)[k].0 == d[k].0
    ensures InFirstOrder(Insert(d, p), init + [p])
  {
    var r := Insert(d, p);
    forall i | 0 <= i < |r|
      ensures r[i].0 in Letters(init + [p])
      ensures i < |d| ==> FirstAt(init + [p], r[i].0) == FirstAt(init, d[i].0)
      ensures i >= |d| ==> FirstAt(init + [p], r[i].0) == |init|
    {
      if i < |d| {
        FirstAtAppend(init, p, d[i].0);
      } else {
        FirstAtAppend(init, p, p.0);
      }
    }
  }

  /** `head_dist`: the Euclidean length of the X/Y/Z displacement, absent when unknown. */
  function HeadDist(b: StateVal, a: StateVal, norm: seq<real> -> real): (r: Option<real>)
    ensures r.None? <==> PosVecXyz(b).None? || PosVecXyz(a).None?
  {
    if PosVecXyz(a).None? || PosVecXyz(b).None? then None
    else Some(norm(Minus(PosVecXyz(a).value, PosVecXyz(b).value)))
  }

  /** `head_dist_xy`: the Euclidean length of the X/Y displacement, absent when unknown. */
  function HeadDistXy(b: StateVal, a: StateVal, norm: seq<real> -> real): (r: Option<real>)
    ensures r.None? <==> PosVecXy(b).None? || PosVecXy(a).None?
  {
    if PosVecXy(a).None? || PosVecXy(b).None? then None
    else Some(norm(Minus(PosVecXy(a).value, PosVecXy(b).value)))
  }

  /** `head_dist_z`: after minus before, absent when either Z position is unknown. */
  function HeadDistZ(b: StateVal, a: StateVal): (r: Option<real>)
    ensures r.None? <==> b.z.position.None? || a.z.position.None?
    ensures r.Some? ==> b.z.position.value + r.value == a.z.position.value
  {
    if a.z.position.None? || b.z.position.None? then None
    else Some(a.z.position.value - b.z.position.value)
  }

  /** `head_dist_e`: after minus before, absent when either E position is unknown. */
  function HeadDistE(b: StateVal, a: StateVal): (r: Option<real>)
    ensures r.None? <==> b.e.position.None? || a.e.position.None?
    ensures r.Some? ==> b.e.position.value + r.value == a.e.position.value
  {
    if a.e.position.None? || b.e.position.None? then None
    else Some(a.e.position.value - b.e.position.value)
  }

  /** Component-wise difference of two vectors of one length. */
  function Minus(u: seq<real>, v: seq<real>): (r: seq<real>)
    requires |u| == |v|
    ensures |r| == |u| && forall i :: 0 <= i < |u| ==> v[i] + r[i] == u[i]
  {
    seq(|u|, i requires 0 <= i < |u| => u[i] - v[i])
  }

  /** `vector`: the X/Y/Z/E displacement, absent when any position is unknown. */
  function Vector(b: StateVal, a: StateVal): (r: Option<seq<real>>)
    ensures r.None? <==> PosVec(b).None? || PosVec(a).None?
    ensures r.Some? ==> |r.value| == 4 && forall i :: 0 <= i < 4 ==> Positions(b)[i].value + r.value[i] == Positions(a)[i].value
  {
    if PosVec(a).None? || PosVec(b).None? then None
    else Some(Minus(PosVec(a).value, PosVec(b).value))
  }

  /**
   * `moves_head` as written: it reads `self.before.positions`, an attribute that
   * machine states do not have, so every call raises `AttributeError`.
   */
  function MovesHeadAsWritten(b: StateVal, a: StateVal): Result<bool, string> {
    Failure("positions")
  }

  lemma MovesHeadAsWrittenAlwaysRaises(b: StateVal, a: StateVal)
    ensures MovesHeadAsWritten(b, a).Failure?
  {
  }

  /** `moves_head` as intended: some of X, Y, Z differs between the two states. */
  function MovesHead(b: StateVal, a: StateVal): bool {
    exists i :: 0 <= i < 3 && Positions(b)[i] != Positions(a)[i]
  }

  /**
   * A command that does not move the head leaves the X/Y/Z position as it was; one
   * that does, between known positions, changes it.
   */
  lemma MovesHeadMeansDisplacement(b: StateVal, a: StateVal)
    ensures !MovesHead(b, a) ==> PosVecXyz(b) == PosVecXyz(a) && (HeadDistZ(b, a).Some? ==> HeadDistZ(b, a).value == 0.0)
    ensures MovesHead(b, a) && PosVecXyz(b).Some? && PosVecXyz(a).Some? ==> PosVecXyz(b) != PosVecXyz(a)
  {
    if !MovesHead(b, a) {
      assert Positions(b)[0] == Positions(a)[0];
      assert Positions(b)[1] == Positions(a)[1];
      assert Positions(b)[2] == Positions(a)[2];
    }
  }
}

/**
 * Text handling shared by the G-code parser and the tower scripts:
 * splitting a line at its first `;`, Python's whitespace `str.split()`,
 * `' '.join(...)`, and decimal numbers as accepted by `float(...)`.
 */
module Text {
  import opened Wrappers

  /** The ASCII characters Python's `str.split()` treats as whitespace. */
  predicate IsSpace(c: char) {
    c == ' ' || c == '\t' || c == '\n' || c == '\r' || c == '\U{B}' || c == '\U{C}'
  }

  predicate NoSpace(w: string) {
    forall i :: 0 <= i < |w| ==> !IsSpace(w[i])
  }

  predicate IsDigit(c: char) {
    '0' <= c <= '9'
  }

  predicate AllDigits(s: string) {
    forall i :: 0 <= i < |s| ==> IsDigit(s[i])
  }

  /** Index of the first occurrence of `c` in `s`, if any. */
  function FirstIndex(s: string, c: char): (r: Option<nat>)
    ensures r.None? <==> c !in s
    ensures r.Some? ==> r.value < |s| && s[r.value] == c && c !in s[..r.value]
  {
    if s == [] then None
    else if s[0] == c then Some(0)
    else
      match FirstIndex(s[1..], c)
      case None => None
      case Some(k) =>
        assert s[1..][..k] == s[1..k + 1];
        Some(k + 1)
  }

  /**
   * `s.split(c, 1)`: the text before the first `c` and, when there is one,
   * the text after it; `None` when `s` holds no `c`.
   */
  function SplitAtFirst(s: string, c: char): (r: (string, Option<string>))
    ensures r.1.None? ==> c !in s && r.0 == s
    ensures r.1.Some? ==> c !in r.0 && r.0 + [c] + r.1.value == s
  {
    match FirstIndex(s, c)
    case None => (s, None)
    case Some(k) =>
      assert s[..k] + [c] + s[k + 1..] == s;
      (s[..k], Some(s[k + 1..]))
  }

  /** Length of the run of non-space characters that starts `s`. */
  function WordLen(s: string): (n: nat)
    ensures n <= |s| && NoSpace(s[..n])
    ensures n < |s| ==> IsSpace(s[n])
  {
    if s == [] || IsSpace(s[0]) then 0
    else
      var k := WordLen(s[1..]);
      assert s[..k + 1] == [s[0]] + s[1..][..k];
      k + 1
  }

  /** Python's `s.split()`: the maximal runs of non-space characters, in order. */
  function Words(s: string): (ws: seq<string>)
    decreases |s|
    ensures forall i :: 0 <= i < |ws| ==> ws[i] != [] && NoSpace(ws[i])
    ensures ws == [] <==> forall i :: 0 <= i < |s| ==> IsSpace(s[i])
  {
    if s == [] then []
    else if IsSpace(s[0]) then
      var ws := Words(s[1..]);
      assert forall i :: 0 < i < |s| ==> s[i] == s[1..][i - 1];
      ws
    else
      var n := WordLen(s);
      [s[..n]] + Words(s[n..])
  }

  /** The characters of `s` that are not whitespace, in order. */
  function DropSpaces(s: string): (r: string)
    ensures NoSpace(r) && |r| <= |s|
  {
    if s == [] then ""
    else if IsSpace(s[0]) then DropSpaces(s[1..])
    else [s[0]] + DropSpaces(s[1..])
  }

  /** The words of a list written one after the other, with nothing between them. */
  function Concat(ws: seq<string>): string {
    if ws == [] then "" else ws[0] + Concat(ws[1..])
  }

  lemma {:induction false} DropSpacesAppend(u: string, v: string)
    ensures DropSpaces(u + v) == DropSpaces(u) + DropSpaces(v)
  {
    if u != [] {
      assert (u + v)[1..] == u[1..] + v;
      DropSpacesAppend(u[1..], v);
    } else {
      assert u + v == v;
    }
  }

  lemma {:induction false} DropSpacesOfWord(w: string)
    requires NoSpace(w)
    ensures DropSpaces(w) == w
  {
    if w != [] {
      DropSpacesOfWord(w[1..]);
    }
  }

  /** The words of `s`, written one after the other, are `s` with its whitespace removed. */
  lemma {:induction false} WordsKeepEveryOtherChar(s: string)
    decreases |s|
    ensures Concat(Words(s)) == DropSpaces(s)
  {
    if s != [] {
      if IsSpace(s[0]) {
        WordsKeepEveryOtherChar(s[1..]);
      } else {
        var n := WordLen(s);
        WordsKeepEveryOtherChar(s[n..]);
        FirstWordKept(s, n);
      }
    }
  }

  /** A line that starts with a word of length `n` keeps that word, then the rest's characters. */
  lemma FirstWordKept(s: string, n: nat)
    requires s != [] && !IsSpace(s[0]) && n == WordLen(s)
    requires Concat(Words(s[n..])) == DropSpaces(s[n..])
    ensures Concat(Words(s)) == DropSpaces(s)
  {
    var ws := Words(s);
    assert ws == [s[..n]] + Words(s[n..]);
    assert ws[1..] == Words(s[n..]);
    assert s == s[..n] + s[n..];
    DropSpacesAppend(s[..n], s[n..]);
    DropSpacesOfWord(s[..n]);
  }

  /** Python's `' '.join(ws)`. */
  function JoinWords(ws: seq<string>): string {
    if ws == [] then ""
    else if |ws| == 1 then ws[0]
    else ws[0] + " " + JoinWords(ws[1..])
  }

  lemma {:induction false} WordLenOfWord(w: string, t: string)
    requires w != [] && NoSpace(w)
    requires t == [] || IsSpace(t[0])
    ensures WordLen(w + t) == |w|
  {
    if |w| > 1 {
      assert (w + t)[1..] == w[1..] + t;
      WordLenOfWord(w[1..], t);
    } else {
      assert (w + t)[1..] == t;
    }
  }

  lemma {:induction false} WordsOfSpacePrefix(t: string)
    requires t != [] && IsSpace(t[0])
    ensures Words(t) == Words(t[1..])
  {
  }

  /** Splitting a space-joined list of non-empty, space-free words gives the words back. */
  lemma {:induction false} WordsJoinRoundTrip(ws: seq<string>)
    requires forall i :: 0 <= i < |ws| ==> ws[i] != [] && NoSpace(ws[i])
    ensures Words(JoinWords(ws)) == ws
  {
    if ws == [] {
    } else if |ws| == 1 {
      var w := ws[0];
      WordLenOfWord(w, []);
      assert w + [] == w;
      assert w[|w|..] == [];
      assert w[..|w|] == w;
    } else {
      var w, rest := ws[0], JoinWords(ws[1..]);
      var s := w + " " + rest;
      assert s == w + (" " + rest);
      WordLenOfWord(w, " " + rest);
      assert s[..|w|] == w;
      assert s[|w|..] == " " + rest;
      WordsOfSpacePrefix(" " + rest);
      assert (" " + rest)[1..] == rest;
      WordsJoinRoundTrip(ws[1..]);
      assert ws == [w] + ws[1..];
    }
  }

  // ---------------------------------------------------------------------
  // Decimal numbers
  // ---------------------------------------------------------------------

  /**
   * A number in the decimal form `[-]whole[.frac]`, kept digit by digit so that
   * both its value and the text Python prints for it can be recovered.
   */
  datatype Dec = Dec(negative: bool, whole: string, frac: string) {
    predicate Valid() {
      AllDigits(whole) && AllDigits(frac) && |whole| + |frac| > 0
    }
  }

  function DigitValue(c: char): nat
    requires IsDigit(c)
  {
    (c as int - '0' as int) as nat
  }

  function DigitsValue(s: string): nat
    requires AllDigits(s)
  {
    if s == [] then 0 else DigitsValue(s[..|s| - 1]) * 10 + DigitValue(s[|s| - 1])
  }

  function Pow10(n: nat): (r: nat)
    ensures r >= 1
  {
    if n == 0 then 1 else 10 * Pow10(n - 1)
  }

  /** The exact value of a decimal number (floating-point rounding is not modelled). */
  function DecValue(d: Dec): real
    requires d.Valid()
  {
    var magnitude := DigitsValue(d.whole) as real + DigitsValue(d.frac) as real / Pow10(|d.frac|) as real;
    if d.negative then -magnitude else magnitude
  }

  /** Number of leading decimal digits of `s`. */
  function DigitRun(s: string): (n: nat)
    ensures n <= |s| && AllDigits(s[..n])
    ensures n < |s| ==> !IsDigit(s[n])
  {
    if s == [] || !IsDigit(s[0]) then 0
    else
      var k := DigitRun(s[1..]);
      assert s[..k + 1] == [s[0]] + s[1..][..k];
      k + 1
  }

  /**
   * Python's `float(s)` restricted to plain decimal notation: an optional sign,
   * digits, and an optional `.` followed by digits, with at least one digit.
   */
  function ParseNumber(s: string): (r: Option<Dec>)
    ensures r.Some? ==> r.value.Valid()
  {
    var negative := |s| > 0 && s[0] == '-';
    var body := if |s| > 0 && (s[0] == '-' || s[0] == '+') then s[1..] else s;
    var n := DigitRun(body);
    var whole, tail := body[..n], body[n..];
    if tail == [] then
      if n > 0 then Some(Dec(negative, whole, "")) else None
    else if tail[0] == '.' && AllDigits(tail[1..]) && n + |tail[1..]| > 0 then
      Some(Dec(negative, whole, tail[1..]))
    else None
  }

  /** Writes a decimal number back as text. */
  function RenderDec(d: Dec): string {
    (if d.negative then "-" else "") + d.whole + (if d.frac == "" then "" else "." + d.frac)
  }

  lemma {:induction false} DigitRunOfDigits(w: string, t: string)
    requires AllDigits(w)
    requires t == [] || !IsDigit(t[0])
    ensures DigitRun(w + t) == |w|
  {
    if w != [] {
      assert (w + t)[1..] == w[1..] + t;
      DigitRunOfDigits(w[1..], t);
    } else {
      assert w + t == t;
    }
  }

  /** The unsigned text of a valid decimal parses back to it, without a sign. */
  lemma ParseRenderedBody(d: Dec, tail: string)
    requires d.Valid() && tail == (if d.frac == "" then "" else "." + d.frac)
    ensures d.whole + tail != []
    ensures (d.whole + tail)[0] != '-' && (d.whole + tail)[0] != '+'
    ensures ParseNumber(d.whole + tail) == Some(d.(negative := false))
  {
    var body := d.whole + tail;
    DigitRunOfDigits(d.whole, tail);
    assert body[..|d.whole|] == d.whole && body[|d.whole|..] == tail;
    if d.frac != "" {
      assert tail[1..] == d.frac;
    }
    if d.whole == [] {
      assert body[0] == '.';
    } else {
      assert body[0] == d.whole[0];
    }
  }

  /** A leading `-` before unsigned text makes the number it parses to negative. */
  lemma ParseOfMinus(body: string)
    requires body != [] && body[0] != '-' && body[0] != '+'
    ensures ParseNumber("-" + body) ==
      if ParseNumber(body).None? then None else Some(ParseNumber(body).value.(negative := true))
  {
    assert ("-" + body)[1..] == body;
  }

  /** Rendering a valid decimal and parsing the text gives the same decimal back. */
  lemma RenderParseRoundTrip(d: Dec)
    requires d.Valid()
    ensures ParseNumber(RenderDec(d)) == Some(d)
  {
    var tail := if d.frac == "" then "" else "." + d.frac;
    RenderedSign(d, tail);
    ParseRenderedBody(d, tail);
    if d.negative {
      ParseOfMinus(d.whole + tail);
    }
  }

  /** The text of a decimal is its unsigned text, after a `-` when it is negative. */
  lemma RenderedSign(d: Dec, tail: string)
    requires tail == (if d.frac == "" then "" else "." + d.frac)
    ensures RenderDec(d) == if d.negative then "-" + (d.whole + tail) else d.whole + tail
  {
    if d.negative {
      assert RenderDec(d) == "-" + (d.whole + tail);
    } else {
      assert RenderDec(d) == d.whole + tail;
    }
  }

  /** `s` without its leading `'0'` characters. */
  function StripLeadingZeros(s: string): (r: string)
    ensures |r| <= |s| && r == s[|s| - |r|..]
    ensures r == [] || r[0] != '0'
  {
    if s != [] && s[0] == '0' then StripLeadingZeros(s[1..]) else s
  }

  /** `s` without its trailing `'0'` characters. */
  function StripTrailingZeros(s: string): (r: string)
    ensures |r| <= |s| && r == s[..|r|]
    ensures r == [] || r[|r| - 1] != '0'
  {
    if s != [] && s[|s| - 1] == '0' then StripTrailingZeros(s[..|s| - 1]) else s
  }

  predicate AllZeros(s: string) {
    forall i :: 0 <= i < |s| ==> s[i] == '0'
  }

  lemma {:induction false} StripTrailingZerosEmpty(s: string)
    ensures StripTrailingZeros(s) == [] <==> AllZeros(s)
  {
    if s != [] && s[|s| - 1] == '0' {
      StripTrailingZerosEmpty(s[..|s| - 1]);
      assert AllZeros(s[..|s| - 1]) <==> AllZeros(s);
    }
  }

  /** The sign and the whole part of `repr(float(...))`: no leading zeros, or `0`. */
  function WholeText(d: Dec): string {
    var w := StripLeadingZeros(d.whole);
    (if d.negative then "-" else "") + (if w == "" then "0" else w)
  }

  /**
   * The text Python's `repr` gives for `float(RenderDec(d))`: the sign, the whole
   * part without leading zeros (or `0`), a point, and the fraction without
   * trailing zeros (or `0`).
   */
  function FloatText(d: Dec): string {
    var f := StripTrailingZeros(d.frac);
    WholeText(d) + "." + (if f == "" then "0" else f)
  }

  /** A tail of a run of digits holds no point. */
  lemma DigitsTailNoPoint(s: string, k: nat)
    requires AllDigits(s) && k <= |s|
    ensures '.' !in s[k..]
  {
    forall i | 0 <= i < |s| - k ensures s[k..][i] != '.' {
      assert IsDigit(s[k + i]);
    }
  }

  /** The whole part's text holds no point. */
  lemma WholeTextNoPoint(d: Dec)
    requires d.Valid()
    ensures '.' !in WholeText(d)
  {
    var w := StripLeadingZeros(d.whole);
    DigitsTailNoPoint(d.whole, |d.whole| - |w|);
    var sign: string := if d.negative then "-" else "";
    var body: string := if w == "" then "0" else w;
    assert WholeText(d) == sign + body;
  }

  /** The text of a number whose fraction is all zeros ends in `.0`. */
  lemma FloatTextOfWhole(d: Dec)
    requires AllZeros(d.frac)
    ensures FloatText(d) == WholeText(d) + ".0"
  {
    StripTrailingZerosEmpty(d.frac);
  }

  /** A whole number written the way Python writes an `int`: digits, no leading zero. */
  predicate Canonical(s: string) {
    |s| >= 1 && AllDigits(s) && (s[0] != '0' || |s| == 1)
  }

  function DigitChar(n: nat): (c: char)
    requires n < 10
    ensures IsDigit(c) && DigitValue(c) == n
  {
    ('0' as int + n) as char
  }

  /** `str(n)` for a natural number. */
  function NatText(n: nat): (r: string)
    ensures 1 <= |r| && AllDigits(r)
    ensures |r| == 1 <==> n < 10
    ensures n >= 10 ==> r[0] != '0'
  {
    if n < 10 then [DigitChar(n)] else NatText(n / 10) + [DigitChar(n % 10)]
  }

  /** `int(str(n)) == n`, and `str(n)` is in canonical form. */
  lemma {:induction false} NatTextValue(n: nat)
    ensures Canonical(NatText(n)) && DigitsValue(NatText(n)) == n
  {
    var r := NatText(n);
    if n < 10 {
      assert r[..0] == [];
    } else {
      NatTextValue(n / 10);
      assert r[..|r| - 1] == NatText(n / 10);
    }
  }

  lemma {:induction false} LeadingDigitPositive(s: string)
    requires Canonical(s) && s[0] != '0'
    ensures DigitsValue(s) >= 1
  {
    if |s| > 1 {
      LeadingDigitPositive(s[..|s| - 1]);
    }
  }

  /** `str(int(s)) == s` for a canonical `s`. */
  lemma {:induction false} CanonicalText(s: string)
    requires Canonical(s)
    ensures NatText(DigitsValue(s)) == s
  {
    if |s| == 1 {
      assert s[..0] == [];
    } else {
      var t := s[..|s| - 1];
      LeadingDigitPositive(t);
      CanonicalText(t);
      assert s == t + [s[|s| - 1]];
    }
  }

  /** Python's `s.rstrip()`: `s` without its trailing whitespace. */
  function RStrip(s: string): (r: string)
    ensures |r| <= |s| && r == s[..|r|]
    ensures r == [] || !IsSpace(r[|r| - 1])
    ensures forall i :: |r| <= i < |s| ==> IsSpace(s[i])
  {
    if s != [] && IsSpace(s[|s| - 1]) then RStrip(s[..|s| - 1]) else s
  }
}

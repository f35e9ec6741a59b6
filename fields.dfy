/**
 * The field codec: formatting a value into a fixed-width slot of a record
 * (space-padded text, zero-padded integers) and reading it back from a fixed
 * column range, plus the few Ruby string operations the parser relies on
 * (`gsub` of one character, `strip.empty?`, `to_i`, `split("\n")`).
 */
module Fields {

  function Min(a: int, b: int): int { if a <= b then a else b }
  function Max(a: int, b: int): int { if a >= b then a else b }

  /** The BSB pattern `\d{3}-\d{3}`. */
  predicate IsBsb(s: string) {
    |s| == 7 && AllDigits(s[..3]) && s[3] == '-' && AllDigits(s[4..])
  }

  /** A BSB ends in a digit, so it fills its seven-column slot with no pad. */
  lemma BsbUnpadded(s: string)
    requires IsBsb(s)
    ensures NoTrailingSpace(s) && NoLeadingSpace(s)
  {
    assert IsDigit(s[4..][2]);
    assert IsDigit(s[..3][0]);
  }

  // ---------------------------------------------------------------- padding

  /** `n` copies of `c`. */
  function Repeat(c: char, n: nat): (r: string)
    ensures |r| == n
    ensures forall i :: 0 <= i < n ==> r[i] == c
  {
    seq(n, _ => c)
  }

  function Spaces(n: nat): (r: string)
    ensures |r| == n
    ensures forall i :: 0 <= i < n ==> r[i] == ' '
  {
    Repeat(' ', n)
  }

  /**
   * A left-justified text slot of width `w`: the text, then spaces to the
   * width; text longer than the slot is cut to it.
   */
  function LeftJustify(s: string, w: nat): (r: string)
    ensures |r| == w
    ensures forall i :: 0 <= i < w ==> r[i] == if i < |s| then s[i] else ' '
  {
    if |s| >= w then s[..w] else s + Spaces(w - |s|)
  }

  /**
   * A right-justified text slot of width `w`: spaces, then the text;
   * text longer than the slot is cut to it.
   */
  function RightJustify(s: string, w: nat): (r: string)
    ensures |r| == w
    ensures |s| >= w ==> r == s[..w]
    ensures |s| < w ==> forall i :: 0 <= i < w ==>
              r[i] == if i < w - |s| then ' ' else s[i - (w - |s|)]
  {
    if |s| >= w then s[..w] else Spaces(w - |s|) + s
  }

  /** Trailing spaces removed (the pad of a left-justified slot). */
  function RStrip(s: string): (r: string)
    ensures |r| <= |s| && r == s[..|r|]
    ensures forall i :: |r| <= i < |s| ==> s[i] == ' '
    ensures |r| == 0 || r[|r| - 1] != ' '
  {
    if |s| > 0 && s[|s| - 1] == ' ' then RStrip(s[..|s| - 1]) else s
  }

  /** Leading spaces removed (the pad of a right-justified slot). */
  function LStrip(s: string): (r: string)
    ensures |r| <= |s| && r == s[|s| - |r|..]
    ensures forall i :: 0 <= i < |s| - |r| ==> s[i] == ' '
    ensures |r| == 0 || r[0] != ' '
  {
    if |s| > 0 && s[0] == ' ' then LStrip(s[1..]) else s
  }

  /** Re-padding a stripped slot gives the slot back, whatever it held. */
  lemma {:induction false} LeftJustifyRStrip(x: string)
    ensures LeftJustify(RStrip(x), |x|) == x
  {
    var r := RStrip(x);
    var p := LeftJustify(r, |x|);
    forall i | 0 <= i < |x| ensures p[i] == x[i] {
      if i < |r| { assert r[i] == x[i]; }
    }
  }

  lemma {:induction false} RightJustifyLStrip(x: string)
    ensures RightJustify(LStrip(x), |x|) == x
  {
    var r := LStrip(x);
    var p := RightJustify(r, |x|);
    if |r| < |x| {
      forall i | 0 <= i < |x| ensures p[i] == x[i] {
        if i >= |x| - |r| { assert r[i - (|x| - |r|)] == x[i]; }
      }
    }
  }

  /** A slot's text, stripped and justified again, fills the slot as before. */
  lemma ReJustify(s: string, w: nat)
    ensures LeftJustify(RStrip(LeftJustify(s, w)), w) == LeftJustify(s, w)
  {
    LeftJustifyRStrip(LeftJustify(s, w));
  }

  /** Text that fills its slot exactly is left as it is. */
  lemma LeftJustifyFull(s: string)
    ensures LeftJustify(s, |s|) == s
  {
  }

  /** The same for a right-justified slot. */
  lemma ReRightJustify(s: string, w: nat)
    ensures RightJustify(LStrip(RightJustify(s, w)), w) == RightJustify(s, w)
  {
    RightJustifyLStrip(RightJustify(s, w));
  }

  /** No trailing blank: the text a left-justified slot gives back unchanged. */
  predicate NoTrailingSpace(s: string) { |s| == 0 || s[|s| - 1] != ' ' }

  /** No leading blank: the text a right-justified slot gives back unchanged. */
  predicate NoLeadingSpace(s: string) { |s| == 0 || s[0] != ' ' }

  /** Stripping the pad of a slot gives back text that fitted and did not end in a space. */
  lemma {:induction false} RStripLeftJustify(s: string, w: nat)
    requires |s| <= w && NoTrailingSpace(s)
    ensures RStrip(LeftJustify(s, w)) == s
  {
    var x := LeftJustify(s, w);
    assert x[..|s|] == s;
  }

  /** The same for a right-justified slot and text that did not start with a space. */
  lemma {:induction false} LStripRightJustify(s: string, w: nat)
    requires |s| <= w && NoLeadingSpace(s)
    ensures LStrip(RightJustify(s, w)) == s
  {
    var x := RightJustify(s, w);
    if |s| < w {
      assert x[w - |s|..] == s;
    }
  }

  /** A digit string, and so one that starts or ends in no blank. */
  lemma DigitsUnpadded(s: string)
    requires AllDigits(s)
    ensures NoTrailingSpace(s) && NoLeadingSpace(s)
  {
    if |s| > 0 {
      assert IsDigit(s[0]) && IsDigit(s[|s| - 1]);
    }
  }

  // ---------------------------------------------------------------- numbers

  predicate IsDigit(c: char) { '0' <= c <= '9' }

  predicate AllDigits(s: string) { forall i :: 0 <= i < |s| ==> IsDigit(s[i]) }

  function DigitValue(c: char): nat
    requires IsDigit(c)
  {
    (c as int) - ('0' as int)
  }

  function DigitChar(d: nat): (c: char)
    requires d < 10
    ensures IsDigit(c) && DigitValue(c) == d
  {
    (('0' as int) + d) as char
  }

  /** The value of a string of decimal digits. */
  function DigitsValue(s: string): nat
    requires AllDigits(s)
  {
    if |s| == 0 then 0 else DigitsValue(s[..|s| - 1]) * 10 + DigitValue(s[|s| - 1])
  }

  function Pow10(w: nat): (p: nat)
    ensures p >= 1
  {
    if w == 0 then 1 else 10 * Pow10(w - 1)
  }

  /** Ruby's `Integer#to_s` for a non-negative integer: no leading zeros. */
  function DecimalDigits(n: nat): (r: string)
    ensures |r| >= 1 && AllDigits(r)
  {
    if n < 10 then [DigitChar(n)] else DecimalDigits(n / 10) + [DigitChar(n % 10)]
  }

  /** The digits of `n` start with no zero (unless `n` is 0) and spell `n`. */
  lemma {:induction false} DecimalDigitsValue(n: nat)
    ensures var r := DecimalDigits(n); (|r| > 1 ==> r[0] != '0') && DigitsValue(r) == n
  {
    if n >= 10 {
      var r := DecimalDigits(n);
      DecimalDigitsValue(n / 10);
      assert r[..|r| - 1] == DecimalDigits(n / 10);
    }
  }

  /** A number fits a slot of `w` digits exactly when it is below 10^w. */
  lemma {:induction false} DecimalDigitsFit(n: nat, w: nat)
    requires 1 <= w
    ensures |DecimalDigits(n)| <= w <==> n < Pow10(w)
  {
    if n >= 10 {
      if w == 1 {
        assert |DecimalDigits(n)| == |DecimalDigits(n / 10)| + 1;
      } else {
        DecimalDigitsFit(n / 10, w - 1);
        assert |DecimalDigits(n)| == |DecimalDigits(n / 10)| + 1;
      }
    }
  }

  /** Zeros prepended to a digit string leave its value unchanged. */
  lemma {:induction false} LeadingZeros(k: nat, d: string)
    requires AllDigits(d)
    ensures AllDigits(Repeat('0', k) + d)
    ensures DigitsValue(Repeat('0', k) + d) == DigitsValue(d)
  {
    var z := Repeat('0', k);
    if |d| == 0 {
      assert z + d == z;
      ZerosValue(k);
    } else {
      var d' := d[..|d| - 1];
      LeadingZeros(k, d');
      assert (z + d)[..|z + d| - 1] == z + d';
    }
  }

  lemma {:induction false} ZerosValue(k: nat)
    ensures AllDigits(Repeat('0', k))
    ensures DigitsValue(Repeat('0', k)) == 0
  {
    if k > 0 {
      var z := Repeat('0', k);
      assert z[..k - 1] == Repeat('0', k - 1);
      ZerosValue(k - 1);
    }
  }

  /**
   * A zero-filled numeric slot of width `w`, as `n.to_s.rjust(w, "0")`:
   * a wider number is not cut, so the slot overflows.
   */
  function ZeroPad(n: nat, w: nat): (r: string)
    ensures |r| == Max(w, |DecimalDigits(n)|)
  {
    var d := DecimalDigits(n);
    if |d| >= w then d else Repeat('0', w - |d|) + d
  }

  /** A zero-filled slot holds digits only, and their value is the number. */
  lemma ZeroPadValue(n: nat, w: nat)
    ensures AllDigits(ZeroPad(n, w)) && DigitsValue(ZeroPad(n, w)) == n
  {
    var d := DecimalDigits(n);
    DecimalDigitsValue(n);
    if |d| < w {
      LeadingZeros(w - |d|, d);
    }
  }

  lemma ZeroPadWidth(n: nat, w: nat)
    requires 1 <= w && n < Pow10(w)
    ensures |ZeroPad(n, w)| == w
  {
    DecimalDigitsFit(n, w);
  }

  /** The longest prefix of `s` made of decimal digits. */
  function DigitPrefix(s: string): (r: string)
    ensures AllDigits(r) && |r| <= |s| && r == s[..|r|]
    ensures |r| == |s| || !IsDigit(s[|r|])
  {
    if |s| > 0 && IsDigit(s[0]) then
      var t := DigitPrefix(s[1..]);
      assert [s[0]] + t == s[..|t| + 1];
      [s[0]] + t
    else ""
  }

  /** Characters Ruby's `String#to_i` skips before the number. */
  predicate IsSpace(c: char) {
    c == ' ' || c == '\t' || c == '\n' || c == '\U{000B}' || c == '\U{000C}' || c == '\r'
  }

  function SkipSpace(s: string): (r: string)
    ensures |r| <= |s| && r == s[|s| - |r|..]
    ensures |r| == 0 || !IsSpace(r[0])
  {
    if |s| > 0 && IsSpace(s[0]) then SkipSpace(s[1..]) else s
  }

  /**
   * The number a numeric slot holds: leading white space skipped, then the
   * longest run of digits (leading zeros dropped); 0 when there is none.
   * Unsigned digits only: unlike `String#to_i`, a sign or an underscore
   * ends the number.
   */
  function ReadNumber(s: string): (r: nat)
    ensures AllDigits(s) ==> r == DigitsValue(s)
  {
    var t := SkipSpace(s);
    assert |s| > 0 && IsDigit(s[0]) ==> t == s;
    assert AllDigits(s) ==> DigitPrefix(t) == s;
    DigitsValue(DigitPrefix(t))
  }

  /** A slot that starts with neither white space nor a digit reads as 0. */
  lemma NonDigitReadsZero(s: string)
    requires |s| > 0 && !IsSpace(s[0]) && !IsDigit(s[0])
    ensures ReadNumber(s) == 0
  {
    assert SkipSpace(s) == s;
    assert DigitPrefix(s) == "";
  }

  /** A digit followed by a non-digit reads as that one digit. */
  lemma StopAfterDigit(s: string)
    requires |s| >= 2 && IsDigit(s[0]) && !IsDigit(s[1])
    ensures ReadNumber(s) == DigitValue(s[0])
  {
    assert SkipSpace(s) == s;
    assert DigitPrefix(s[1..]) == "";
    var d := [s[0]];
    assert DigitPrefix(s) == d;
    assert d[..|d| - 1] == [];
    assert DigitsValue(d) == DigitsValue([]) * 10 + DigitValue(s[0]);
  }

  /** A sign or an underscore ends the digits read. */
  lemma ReadNumberUnsigned()
    ensures ReadNumber("-5") == 0
    ensures ReadNumber("1_0") == 1
  {
    NonDigitReadsZero("-5");
    StopAfterDigit("1_0");
  }

  /** Reading a zero-filled slot back gives the number written into it. */
  lemma ReadZeroPad(n: nat, w: nat)
    ensures ReadNumber(ZeroPad(n, w)) == n
  {
    ZeroPadValue(n, w);
  }

  // ---------------------------------------------------------------- columns

  /**
   * The characters at 0-based positions `from` up to `to` (exclusive),
   * cut at the end of the line, as Ruby's `line[from...to]` (a start past
   * the end reads as the empty string, as `nil.to_i` reads as 0).
   */
  function Slice(s: string, from: nat, to: nat): (r: string)
    requires from <= to
    ensures to <= |s| ==> r == s[from..to]
    ensures |r| <= to - from
  {
    if from >= |s| then "" else s[from..Min(to, |s|)]
  }

  // ------------------------------------------------------------ line breaks

  /** `s.gsub(c, "")`: every occurrence of `c` removed. */
  function Delete(s: string, c: char): (r: string)
    ensures forall i :: 0 <= i < |r| ==> r[i] != c
    ensures |r| <= |s|
    ensures c !in s ==> r == s
    ensures forall i :: 0 <= i < |r| ==> r[i] in s
  {
    if |s| == 0 then ""
    else (if s[0] == c then "" else [s[0]]) + Delete(s[1..], c)
  }

  /** Every character other than `c` is kept, as often as it occurs in `s`. */
  lemma {:induction false} DeleteCounts(s: string, c: char)
    ensures multiset(Delete(s, c)) == multiset(s)[c := 0]
  {
    if |s| > 0 {
      assert s == [s[0]] + s[1..];
      DeleteCounts(s[1..], c);
    }
  }

  lemma {:induction false} DeleteAppend(a: string, b: string, c: char)
    ensures Delete(a + b, c) == Delete(a, c) + Delete(b, c)
  {
    if |a| > 0 {
      assert (a + b)[1..] == a[1..] + b;
      DeleteAppend(a[1..], b, c);
    } else {
      assert a + b == b;
    }
  }

  /** Neither a carriage return nor a line feed occurs in `s`. */
  predicate HasNoBreak(s: string) { '\r' !in s && '\n' !in s }

  lemma LeftJustifyNoBreak(s: string, w: nat)
    requires HasNoBreak(s)
    ensures HasNoBreak(LeftJustify(s, w))
  {
    var r := LeftJustify(s, w);
    forall i | 0 <= i < w ensures r[i] != '\r' && r[i] != '\n' {
      if i < |s| { assert s[i] in s; }
    }
  }

  lemma RightJustifyNoBreak(s: string, w: nat)
    requires HasNoBreak(s)
    ensures HasNoBreak(RightJustify(s, w))
  {
    var r := RightJustify(s, w);
    forall i | 0 <= i < w ensures r[i] != '\r' && r[i] != '\n' {
      if |s| >= w || i >= w - |s| { assert r[i] in s; }
    }
  }

  lemma SpacesNoBreak(n: nat)
    ensures HasNoBreak(Spaces(n))
  {
    var r := Spaces(n);
    assert forall i :: 0 <= i < n ==> r[i] != '\r' && r[i] != '\n';
  }

  lemma ZeroPadNoBreak(n: nat, w: nat)
    ensures HasNoBreak(ZeroPad(n, w))
  {
    ZeroPadValue(n, w);
    DigitsNoBreak(ZeroPad(n, w));
  }

  lemma DigitsNoBreak(s: string)
    requires AllDigits(s)
    ensures HasNoBreak(s)
  {
    forall i | 0 <= i < |s| ensures s[i] != '\r' && s[i] != '\n' {
      assert IsDigit(s[i]);
    }
  }

  /** Characters `String#strip` removes: white space and NUL. */
  predicate IsStripped(c: char) { IsSpace(c) || c == '\0' }

  /** `s.strip.empty?`: the line holds nothing but white space. */
  predicate IsBlank(s: string) {
    forall i :: 0 <= i < |s| ==> IsStripped(s[i])
  }

  // -------------------------------------------------------------- splitting

  /** The lines of `ls` joined with "\n" between them. */
  function Join(ls: seq<string>): string
    requires |ls| >= 1
  {
    if |ls| == 1 then ls[0] else ls[0] + "\n" + Join(ls[1..])
  }

  lemma {:induction false} JoinPrepend(x: string, ls: seq<string>)
    requires |ls| >= 1
    ensures Join([x + ls[0]] + ls[1..]) == x + Join(ls)
  {
    var ls' := [x + ls[0]] + ls[1..];
    if |ls| > 1 {
      assert ls'[1..] == ls[1..];
      assert Join(ls') == (x + ls[0]) + "\n" + Join(ls[1..]);
      assert Join(ls) == ls[0] + "\n" + Join(ls[1..]);
    } else {
      assert ls' == [x + ls[0]];
    }
  }

  /**
   * The pieces between the "\n" characters of `s`, empty pieces included:
   * the inverse of Join.
   */
  function Pieces(s: string): (r: seq<string>)
    ensures |r| >= 1
    ensures forall i :: 0 <= i < |r| ==> '\n' !in r[i]
    ensures Join(r) == s
  {
    if |s| == 0 then [""]
    else
      var rest := Pieces(s[1..]);
      if s[0] == '\n' then
        assert ([""] + rest)[1..] == rest;
        [""] + rest
      else
        JoinPrepend([s[0]], rest);
        assert s == [s[0]] + s[1..];
        [[s[0]] + rest[0]] + rest[1..]
  }

  /** Pieces undoes Join on lines without a line feed. */
  lemma {:induction false} PiecesJoin(ls: seq<string>)
    requires |ls| >= 1
    requires forall i :: 0 <= i < |ls| ==> '\n' !in ls[i]
    ensures Pieces(Join(ls)) == ls
  {
    if |ls| == 1 {
      NoFeedPieces(ls[0]);
    } else {
      PiecesJoin(ls[1..]);
      PiecesAfterLine(ls[0], Join(ls[1..]));
      assert ls == [ls[0]] + ls[1..];
    }
  }

  lemma {:induction false} NoFeedPieces(x: string)
    requires '\n' !in x
    ensures Pieces(x) == [x]
  {
    if |x| > 0 {
      NoFeedPieces(x[1..]);
      assert x == [x[0]] + x[1..];
    }
  }

  lemma {:induction false} PiecesAfterLine(x: string, y: string)
    requires '\n' !in x
    ensures Pieces(x + "\n" + y) == [x] + Pieces(y)
  {
    if |x| == 0 {
      assert (x + "\n" + y)[1..] == y;
    } else {
      assert (x + "\n" + y)[1..] == x[1..] + "\n" + y;
      PiecesAfterLine(x[1..], y);
      assert x == [x[0]] + x[1..];
    }
  }

  /** The pieces with the empty ones at the end dropped. */
  function DropTrailingEmpty(ls: seq<string>): (r: seq<string>)
    ensures |r| <= |ls| && r == ls[..|r|]
    ensures forall i :: |r| <= i < |ls| ==> ls[i] == ""
    ensures |r| == 0 || r[|r| - 1] != ""
  {
    if |ls| > 0 && ls[|ls| - 1] == "" then DropTrailingEmpty(ls[..|ls| - 1]) else ls
  }

  /** Ruby's `text.split("\n")`: the pieces, trailing empty ones dropped. */
  function SplitLines(text: string): (r: seq<string>)
    ensures forall i :: 0 <= i < |r| ==> '\n' !in r[i]
    ensures |r| == 0 || r[|r| - 1] != ""
  {
    DropTrailingEmpty(Pieces(text))
  }
}

/**
 * The two pieces of JavaScript's string library that the scenario schema
 * relies on: `Array.prototype.join('\n')` and the conversion of an integer
 * number to its decimal text inside a template literal (`${n}`), the latter
 * for magnitudes below 10^21.
 * Each comes with its inverse, so that what a text holds can be read back.
 */
module Text {

  /** True when `s` fits on one line. */
  predicate SingleLine(s: string) {
    '\n' !in s
  }

  /** True when no line of `lines` holds a newline. */
  predicate AllSingleLine(lines: seq<string>) {
    forall l :: l in lines ==> SingleLine(l)
  }

  lemma SingleLineConcat(a: string, b: string)
    ensures SingleLine(a + b) <==> SingleLine(a) && SingleLine(b)
  {
  }

  lemma AllSingleLineConcat(a: seq<string>, b: seq<string>)
    ensures AllSingleLine(a + b) <==> AllSingleLine(a) && AllSingleLine(b)
  {
  }

  /** `lines.join('\n')`: an empty list gives the empty string. */
  function JoinLines(lines: seq<string>): string {
    if |lines| == 0 then ""
    else if |lines| == 1 then lines[0]
    else lines[0] + "\n" + JoinLines(lines[1..])
  }

  /** `s.split('\n')`: the pieces between the newlines, never an empty list. */
  function SplitLines(s: string): (lines: seq<string>)
    ensures |lines| >= 1
    ensures AllSingleLine(lines)
  {
    if s == [] then [""]
    else
      var rest := SplitLines(s[1..]);
      assert rest[0] in rest && forall l :: l in rest[1..] ==> l in rest;
      if s[0] == '\n' then [""] + rest
      else [[s[0]] + rest[0]] + rest[1..]
  }

  /** Splitting after a newline-free prefix extends the first piece only. */
  lemma {:induction false} SplitLinesPrefix(x: string, t: string)
    requires SingleLine(x)
    ensures SplitLines(x + t) == [x + SplitLines(t)[0]] + SplitLines(t)[1..]
  {
    if x == [] {
      assert x + t == t && x + SplitLines(t)[0] == SplitLines(t)[0];
      assert SplitLines(t) == [SplitLines(t)[0]] + SplitLines(t)[1..];
    } else {
      assert (x + t)[0] == x[0] != '\n';
      assert (x + t)[1..] == x[1..] + t;
      var rest := SplitLines(x[1..] + t);
      assert SplitLines(x + t) == [[x[0]] + rest[0]] + rest[1..];
      SplitLinesPrefix(x[1..], t);
      assert rest[1..] == SplitLines(t)[1..];
      assert [x[0]] + rest[0] == [x[0]] + (x[1..] + SplitLines(t)[0]) == x + SplitLines(t)[0];
    }
  }

  /** Joining lines that hold no newline is undone by splitting. */
  lemma {:induction false} SplitJoin(lines: seq<string>)
    requires |lines| >= 1
    requires AllSingleLine(lines)
    ensures SplitLines(JoinLines(lines)) == lines
  {
    if |lines| == 1 {
      SplitLinesPrefix(lines[0], "");
      assert lines[0] + "" == lines[0];
    } else {
      var rest := JoinLines(lines[1..]);
      assert JoinLines(lines) == lines[0] + ("\n" + rest);
      SplitLinesPrefix(lines[0], "\n" + rest);
      assert ("\n" + rest)[0] == '\n' && ("\n" + rest)[1..] == rest;
      assert lines[0] in lines;
      assert forall l :: l in lines[1..] ==> l in lines;
      SplitJoin(lines[1..]);
      assert SplitLines("\n" + rest) == [""] + lines[1..];
      assert lines[0] + "" == lines[0];
      assert lines == [lines[0]] + lines[1..];
    }
  }

  /** Splitting a text and joining the pieces gives the text back. */
  lemma {:induction false} JoinSplit(s: string)
    ensures JoinLines(SplitLines(s)) == s
  {
    if s != [] {
      var rest := SplitLines(s[1..]);
      JoinSplit(s[1..]);
      if s[0] == '\n' {
        assert ([""] + rest)[1..] == rest;
      } else if |rest| > 1 {
        var lines := [[s[0]] + rest[0]] + rest[1..];
        assert lines[1..] == rest[1..];
        assert JoinLines(rest) == rest[0] + "\n" + JoinLines(rest[1..]);
      }
    }
  }

  /** The character of a decimal digit. */
  function DigitChar(d: nat): (c: char)
    requires d < 10
    ensures '0' <= c <= '9' && c as int - '0' as int == d
  {
    ['0', '1', '2', '3', '4', '5', '6', '7', '8', '9'][d]
  }

  predicate IsDigit(c: char) {
    '0' <= c <= '9'
  }

  /** The decimal text of a natural number, with no leading zero. */
  function NatToDecimal(n: nat): (s: string)
    ensures |s| >= 1
    ensures forall i :: 0 <= i < |s| ==> IsDigit(s[i])
    ensures s[0] == '0' ==> n == 0
  {
    if n < 10 then [DigitChar(n)]
    else NatToDecimal(n / 10) + [DigitChar(n % 10)]
  }

  /**
   * The decimal text of an integer: digits, with a minus sign before a
   * negative one. This is what `${n}` produces for an integer number of
   * magnitude below 10^21; JavaScript switches to exponent form from there on.
   */
  function IntToDecimal(n: int): (s: string)
    ensures |s| >= 1 && (s[0] == '-' <==> n < 0)
    ensures forall i :: 0 <= i < |s| ==> IsDigit(s[i]) || (i == 0 && s[i] == '-')
  {
    if n < 0 then "-" + NatToDecimal(-n) else NatToDecimal(n)
  }

  /** The value of a text made of decimal digits. */
  function ParseNat(s: string): nat
    requires forall i :: 0 <= i < |s| ==> IsDigit(s[i])
  {
    if s == [] then 0
    else
      assert IsDigit(s[|s| - 1]);
      ParseNat(s[..|s| - 1]) * 10 + (s[|s| - 1] as int - '0' as int)
  }

  /** The value of an optionally signed decimal text. */
  function ParseInt(s: string): int
    requires |s| >= 1
    requires s[0] == '-' ==> forall i :: 1 <= i < |s| ==> IsDigit(s[i])
    requires s[0] != '-' ==> forall i :: 0 <= i < |s| ==> IsDigit(s[i])
  {
    if s[0] == '-' then -(ParseNat(s[1..]) as int) else ParseNat(s)
  }

  /** Reading back the decimal text of a natural number gives the number. */
  lemma {:induction false} ParseNatToDecimal(n: nat)
    ensures ParseNat(NatToDecimal(n)) == n
  {
    var s := NatToDecimal(n);
    if n >= 10 {
      ParseNatToDecimal(n / 10);
      assert s[..|s| - 1] == NatToDecimal(n / 10);
    }
  }

  /** Reading back the decimal text of an integer gives the integer. */
  lemma IntToDecimalRoundTrip(n: int)
    ensures var s := IntToDecimal(n);
      |s| >= 1 && (s[0] == '-' <==> n < 0) && ParseInt(s) == n
  {
    if n < 0 {
      ParseNatToDecimal(-n);
      assert IntToDecimal(n)[1..] == NatToDecimal(-n);
    } else {
      ParseNatToDecimal(n);
    }
  }

  /** The decimal text of an integer fits on one line. */
  lemma IntToDecimalSingleLine(n: int)
    ensures SingleLine(IntToDecimal(n))
  {

  }

  /** Different integers have different decimal texts. */
  lemma IntToDecimalInjective(m: int, n: int)
    requires IntToDecimal(m) == IntToDecimal(n)
    ensures m == n
  {
    IntToDecimalRoundTrip(m);
    IntToDecimalRoundTrip(n);
  }
}

/** The few JavaScript string operations the server relies on: `includes`,
    `Array.prototype.join('\n')` with its inverse, and the decimal rendering
    of an integer that a template literal performs. */
module Text {

  /** `sub` occurs in `s` starting at index `i`, compared character by character. */
  predicate MatchesAt(s: string, sub: string, i: nat)
  {
    i + |sub| <= |s| && forall k :: 0 <= k < |sub| ==> s[i + k] == sub[k]
  }

  /** `s.includes(sub)`. */
  predicate Contains(s: string, sub: string)
  {
    exists i: nat | i <= |s| :: MatchesAt(s, sub, i)
  }

  /** No character `x` in `s` is directly followed by `y`. */
  predicate PairFree(s: string, x: char, y: char)
  {
    forall j :: 0 <= j < |s| - 1 && s[j] == x ==> s[j + 1] != y
  }

  /** A string in which the first two characters of `sub` never stand side by
      side cannot contain `sub`. */
  lemma NoPairNoMatch(s: string, sub: string)
    requires |sub| >= 2 && PairFree(s, sub[0], sub[1])
    ensures !Contains(s, sub)
  {
  }

  /** Pair freedom survives concatenation when the seam does not create the pair. */
  lemma {:induction false} PairFreeConcat(a: string, b: string, x: char, y: char)
    requires PairFree(a, x, y) && PairFree(b, x, y)
    requires |a| == 0 || |b| == 0 || a[|a| - 1] != x || b[0] != y
    ensures PairFree(a + b, x, y)
  {
    var s := a + b;
    forall j | 0 <= j < |s| - 1 && s[j] == x
      ensures s[j + 1] != y
    {
      if j + 1 < |a| {
        assert s[j] == a[j] && s[j + 1] == a[j + 1];
      } else if j >= |a| {
        assert s[j] == b[j - |a|] && s[j + 1] == b[j + 1 - |a|];
      }
    }
  }

  /** A string with no line break in it. */
  predicate SingleLine(s: string)
  {
    forall i :: 0 <= i < |s| ==> s[i] != '\n'
  }

  /** `lines.join('\n')`. */
  function JoinLines(lines: seq<string>): string
  {
    if |lines| == 0 then ""
    else if |lines| == 1 then lines[0]
    else lines[0] + "\n" + JoinLines(lines[1..])
  }

  /** Index of the first line break of `s`. */
  function FirstBreak(s: string): (i: nat)
    requires '\n' in s
    ensures i < |s| && s[i] == '\n' && SingleLine(s[..i])
  {
    if s[0] == '\n' then 0
    else
      var i := 1 + FirstBreak(s[1..]);
      assert s[..i] == [s[0]] + s[1..][..i - 1];
      i
  }

  /** `s.split('\n')`: always at least one piece, and no piece holds a break. */
  function SplitLines(s: string): (r: seq<string>)
    ensures |r| >= 1
    ensures forall k :: 0 <= k < |r| ==> SingleLine(r[k])
    decreases |s|
  {
    if '\n' in s then
      var i := FirstBreak(s);
      [s[..i]] + SplitLines(s[i + 1..])
    else
      [s]
  }

  /** Splitting a joined list of single-line strings gives the list back. */
  lemma {:induction false} SplitJoin(lines: seq<string>)
    requires |lines| >= 1
    requires forall k :: 0 <= k < |lines| ==> SingleLine(lines[k])
    ensures SplitLines(JoinLines(lines)) == lines
  {
    if |lines| > 1 {
      var head, rest := lines[0], JoinLines(lines[1..]);
      var s := head + "\n" + rest;
      assert s[|head|] == '\n';
      var i := FirstBreak(s);
      assert s[..i] == head;
      assert s[i + 1..] == rest;
      SplitJoin(lines[1..]);
    }
  }

  predicate IsDigit(c: char)
  {
    '0' <= c <= '9'
  }

  function DigitChar(d: nat): (c: char)
    requires d < 10
    ensures IsDigit(c)
  {
    (('0' as int) + d) as char
  }

  function DigitValue(c: char): (d: nat)
    requires IsDigit(c)
    ensures d < 10 && DigitChar(d) == c
  {
    (c as int) - ('0' as int)
  }

  /** Decimal digits of `n`, most significant first, without leading zeros. */
  function NatToDecimal(n: nat): (s: string)
    ensures |s| >= 1 && forall k :: 0 <= k < |s| ==> IsDigit(s[k])
    ensures |s| > 1 ==> s[0] != '0'
  {
    if n < 10 then [DigitChar(n)] else NatToDecimal(n / 10) + [DigitChar(n % 10)]
  }

  /** `${n}` for an integer `n`. */
  function IntToDecimal(n: int): (s: string)
    ensures SingleLine(s) && |s| >= 1
  {
    if n < 0 then "-" + NatToDecimal(-n) else NatToDecimal(n)
  }

  /** Reads back a string of decimal digits. */
  function ParseNat(s: string): nat
    requires forall k :: 0 <= k < |s| ==> IsDigit(s[k])
  {
    if |s| == 0 then 0 else ParseNat(s[..|s| - 1]) * 10 + DigitValue(s[|s| - 1])
  }

  /** Reads back an optionally negative decimal numeral (0 when it is not one). */
  function ParseInt(s: string): int
  {
    if |s| > 0 && s[0] == '-' && forall k :: 1 <= k < |s| ==> IsDigit(s[k]) then
      -(ParseNat(s[1..]) as int)
    else if forall k :: 0 <= k < |s| ==> IsDigit(s[k]) then
      ParseNat(s)
    else
      0
  }

  lemma {:induction false} ParseNatToDecimal(n: nat)
    ensures ParseNat(NatToDecimal(n)) == n
  {
    if n >= 10 {
      var s := NatToDecimal(n);
      assert s[..|s| - 1] == NatToDecimal(n / 10);
      ParseNatToDecimal(n / 10);
    }
  }

  /** The decimal rendering of an integer reads back as that integer. */
  lemma ParseIntToDecimal(n: int)
    ensures ParseInt(IntToDecimal(n)) == n
  {
    var s := IntToDecimal(n);
    if n < 0 {
      var digits := NatToDecimal(-n);
      assert s[1..] == digits;
      assert forall k :: 1 <= k < |s| ==> s[k] == digits[k - 1];
      ParseNatToDecimal(-n);
    } else {
      assert s[0] != '-';
      ParseNatToDecimal(n);
    }
  }
}

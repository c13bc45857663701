/**
 * Text building blocks of the script templates: Python's `"\n".join`, a
 * "this string has this whole line" relation, and `str()` of an integer.
 */
module TextLines {

  /** `"\n".join(lines)`. */
  function JoinLines(lines: seq<string>): string
  {
    if |lines| == 0 then ""
    else if |lines| == 1 then lines[0]
    else lines[0] + "\n" + JoinLines(lines[1..])
  }

  /** `line` stands at offset `i` of `s`, bounded by line breaks or the ends of `s`. */
  ghost predicate LineAt(s: string, line: string, i: int)
  {
    && 0 <= i && i + |line| <= |s|
    && s[i..i + |line|] == line
    && (i == 0 || s[i - 1] == '\n')
    && (i + |line| == |s| || s[i + |line|] == '\n')
  }

  ghost predicate HasLine(s: string, line: string)
  {
    exists i :: LineAt(s, line, i)
  }

  /** Where line `k` starts in `"\n".join(lines)`. */
  function LineOffset(lines: seq<string>, k: nat): nat
    requires k <= |lines|
  {
    if k == 0 then 0 else |lines[0]| + 1 + LineOffset(lines[1..], k - 1)
  }

  /** A whole line of `a` stays a whole line, at the same offset, once more lines follow. */
  lemma LineInFront(a: string, b: string, line: string, i: int)
    requires LineAt(a, line, i)
    ensures LineAt(a + "\n" + b, line, i)
  {
    var s := a + "\n" + b;
    assert s[i..i + |line|] == a[i..i + |line|];
    assert i > 0 ==> s[i - 1] == a[i - 1];
    assert i + |line| < |a| ==> s[i + |line|] == a[i + |line|];
    assert s[|a|] == '\n';
  }

  /** A whole line of `b` stays a whole line, shifted, once more lines precede it. */
  lemma LineBehind(a: string, b: string, line: string, j: int)
    requires LineAt(b, line, j)
    ensures LineAt(a + "\n" + b, line, |a| + 1 + j)
  {
    var s := a + "\n" + b;
    var off := |a| + 1;
    assert s[off..] == b;
    assert s[off + j..off + j + |line|] == b[j..j + |line|];
    assert j == 0 ==> s[off + j - 1] == '\n';
    assert j > 0 ==> s[off + j - 1] == b[j - 1];
    assert off + j + |line| < |s| ==> s[off + j + |line|] == b[j + |line|];
  }

  /** A whole line of `a` is a whole line of `a`, a break, and `b`. */
  lemma HasLineFront(a: string, b: string, line: string)
    requires HasLine(a, line)
    ensures HasLine(a + "\n" + b, line)
  {
    var i :| LineAt(a, line, i);
    LineInFront(a, b, line, i);
  }

  /** A whole line of `b` is a whole line of `a`, a break, and `b`. */
  lemma HasLineBehind(a: string, b: string, line: string)
    requires HasLine(b, line)
    ensures HasLine(a + "\n" + b, line)
  {
    var j :| LineAt(b, line, j);
    LineBehind(a, b, line, j);
  }

  /** A whole line of any of three texts is a whole line of the three joined by breaks. */
  lemma HasLineOfThree(a: string, b: string, c: string, line: string)
    requires HasLine(a, line) || HasLine(b, line) || HasLine(c, line)
    ensures HasLine(a + "\n" + b + "\n" + c, line)
  {
    if HasLine(a, line) || HasLine(b, line) {
      if HasLine(a, line) {
        HasLineFront(a, b, line);
      } else {
        HasLineBehind(a, b, line);
      }
      HasLineFront(a + "\n" + b, c, line);
    } else {
      HasLineBehind(a + "\n" + b, c, line);
    }
  }

  /** Line `k` stands whole at its offset in the joined text. */
  lemma {:induction false} JoinLineAt(lines: seq<string>, k: nat)
    requires k < |lines|
    ensures LineAt(JoinLines(lines), lines[k], LineOffset(lines, k))
  {
    var s := JoinLines(lines);
    if |lines| == 1 {
      assert s[0..|lines[0]|] == lines[0];
    } else {
      var rest := JoinLines(lines[1..]);
      assert s == lines[0] + "\n" + rest;
      if k == 0 {
        assert s[0..|lines[0]|] == lines[0];
        assert s[|lines[0]|] == '\n';
      } else {
        JoinLineAt(lines[1..], k - 1);
        assert lines[k] == lines[1..][k - 1];
        LineBehind(lines[0], rest, lines[k], LineOffset(lines[1..], k - 1));
      }
    }
  }

  /** Every joined line is a whole line of the joined text. */
  lemma JoinHasLine(lines: seq<string>, k: nat)
    requires k < |lines|
    ensures HasLine(JoinLines(lines), lines[k])
  {
    JoinLineAt(lines, k);
  }

  /** After an empty first line, the second line starts at offset 1. */
  lemma JoinSecondLine(lines: seq<string>)
    requires |lines| >= 2 && lines[0] == ""
    ensures LineAt(JoinLines(lines), lines[1], 1)
  {
    JoinLineAt(lines, 1);
    assert LineOffset(lines, 1) == 1 + LineOffset(lines[1..], 0);
  }

  function DigitChar(d: nat): char
    requires d < 10
  {
    "0123456789"[d]
  }

  function DigitValue(c: char): nat
  {
    if '0' <= c <= '9' then (c as int - '0' as int) as nat else 0
  }

  /** `str(n)` for a non-negative integer: its decimal digits, no leading zero. */
  function NatToString(n: nat): (s: string)
    ensures |s| > 0
    ensures forall i :: 0 <= i < |s| ==> '0' <= s[i] <= '9'
    ensures |s| > 1 ==> s[0] != '0'
  {
    if n < 10 then [DigitChar(n)] else NatToString(n / 10) + [DigitChar(n % 10)]
  }

  /** The number a string of decimal digits denotes. */
  function DecimalValue(s: string): nat
  {
    if |s| == 0 then 0 else 10 * DecimalValue(s[..|s| - 1]) + DigitValue(s[|s| - 1])
  }

  /** Reading back the digits of `str(n)` gives `n`. */
  lemma {:induction false} NatToStringRoundTrip(n: nat)
    ensures DecimalValue(NatToString(n)) == n
  {
    var s := NatToString(n);
    if n >= 10 {
      NatToStringRoundTrip(n / 10);
      assert s[..|s| - 1] == NatToString(n / 10);
    }
  }

  /** `str(n)` for any integer. */
  function IntToString(n: int): (s: string)
    ensures |s| > 0
    ensures s[0] == '-' <==> n < 0
  {
    if n < 0 then "-" + NatToString(-n) else NatToString(n)
  }

  /**
   * `str(n)` is an optional `-` and then the digits of `|n|`, with no
   * leading zero, which read back as `|n|`.
   */
  lemma IntToStringDigits(n: int)
    ensures var s := IntToString(n);
            var d := if n < 0 then s[1..] else s;
            && |d| > 0
            && (forall i :: 0 <= i < |d| ==> '0' <= d[i] <= '9')
            && (|d| > 1 ==> d[0] != '0')
            && DecimalValue(d) == (if n < 0 then -n else n)
  {
    var s := IntToString(n);
    if n < 0 {
      var m := NatToString(-n);
      assert s == "-" + m;
      assert s[1..] == m;
      NatToStringRoundTrip(-n);
    } else {
      assert s == NatToString(n);
      NatToStringRoundTrip(n);
    }
  }

  /** Distinct integers print differently. */
  lemma IntToStringInjective(a: int, b: int)
    requires IntToString(a) == IntToString(b)
    ensures a == b
  {
    var s := IntToString(a);
    if a < 0 {
      assert b < 0;
      assert s[1..] == NatToString(-a) by { assert s == "-" + NatToString(-a); }
      assert s[1..] == NatToString(-b) by { assert s == "-" + NatToString(-b); }
      NatToStringInjective(-a, -b);
    } else {
      assert b >= 0;
      NatToStringInjective(a, b);
    }
  }

  lemma NatToStringInjective(m: nat, n: nat)
    requires NatToString(m) == NatToString(n)
    ensures m == n
  {
    NatToStringRoundTrip(m);
    NatToStringRoundTrip(n);
  }
}

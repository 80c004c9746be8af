/** Python string formatting used by the model: `str(int)`, `c * n`, `" ".join` and `"\n".join`. */
module Text {

  /** The number of items `range(n)` yields: Python treats a negative count as zero. */
  function Extent(n: int): nat {
    if n < 0 then 0 else n
  }

  predicate IsDigit(c: char) {
    '0' <= c <= '9'
  }

  predicate AllDigits(s: string) {
    forall i :: 0 <= i < |s| ==> IsDigit(s[i])
  }

  function DigitChar(d: nat): (c: char)
    requires d < 10
    ensures IsDigit(c) && (c as int) - ('0' as int) == d
  {
    "0123456789"[d]
  }

  /** The number a string of decimal digits denotes (the reading direction of `int(s)`). */
  function DigitsValue(s: string): nat
    requires AllDigits(s)
  {
    if |s| == 0 then 0
    else DigitsValue(s[..|s| - 1]) * 10 + ((s[|s| - 1] as int) - ('0' as int))
  }

  /** `str(n)` for a non-negative integer: decimal, no leading zero, and it reads back as `n`. */
  function NatToString(n: nat): (r: string)
    ensures 1 <= |r|
    ensures AllDigits(r)
    ensures |r| == 1 || r[0] != '0'
    ensures DigitsValue(r) == n
  {
    if n < 10 then [DigitChar(n)]
    else
      var front := NatToString(n / 10);
      var r := front + [DigitChar(n % 10)];
      assert r[..|r| - 1] == front;
      r
  }

  /** `str(i)` for any integer: a minus sign in front of the magnitude when negative. */
  function IntToString(i: int): (r: string)
    ensures 1 <= |r|
    ensures i >= 0 ==> AllDigits(r) && DigitsValue(r) == i
    ensures i < 0 ==> r[0] == '-' && AllDigits(r[1..]) && DigitsValue(r[1..]) == -i
    ensures OneLine(r)
  {
    if i < 0 then
      var mag := NatToString(-i);
      assert ("-" + mag)[1..] == mag;
      "-" + mag
    else NatToString(i)
  }

  /** `c * n`: `n` copies of `c`, nothing when `n` is not positive. */
  function Repeat(c: char, n: int): (r: string)
    ensures |r| == Extent(n)
    ensures forall i :: 0 <= i < |r| ==> r[i] == c
  {
    seq(Extent(n), _ => c)
  }

  /** `" ".join(row)` for a row of one-character strings: the characters at even offsets, single spaces between. */
  function Spaced(row: seq<char>): (r: string)
    ensures |row| == 0 ==> r == ""
    ensures |row| > 0 ==> |r| == 2 * |row| - 1
    ensures forall i :: 0 <= i < |row| ==> r[2 * i] == row[i]
    ensures forall i :: 0 <= i < |row| - 1 ==> r[2 * i + 1] == ' '
    ensures forall c :: c in r ==> c == ' ' || c in row
  {
    if |row| == 0 then ""
    else if |row| == 1 then [row[0]]
    else
      var tail := Spaced(row[1..]);
      var r := [row[0], ' '] + tail;
      assert r[1] == ' ';
      assert forall i :: 1 <= i < |row| ==> r[2 * i] == tail[2 * (i - 1)];
      assert forall i :: 1 <= i < |row| - 1 ==> r[2 * i + 1] == ' ' by {
        forall i | 1 <= i < |row| - 1
          ensures r[2 * i + 1] == ' '
        {
          var j := i - 1;
          assert r[2 * i + 1] == tail[2 * j + 1];
        }
      }
      r
  }

  /** `"\n".join(lines)` */
  function JoinLines(lines: seq<string>): (r: string)
    ensures |lines| == 0 ==> r == ""
    ensures |lines| > 0 ==> lines[0] <= r
  {
    if |lines| == 0 then ""
    else if |lines| == 1 then lines[0]
    else lines[0] + "\n" + JoinLines(lines[1..])
  }

  /** A string holding no line break. */
  predicate OneLine(s: string) {
    '\n' !in s
  }

  /** Every string of `ls` is a single line. */
  predicate AllOneLine(ls: seq<string>) {
    forall i :: 0 <= i < |ls| ==> OneLine(ls[i])
  }

  lemma OneLineConcat(a: string, b: string)
    requires OneLine(a) && OneLine(b)
    ensures OneLine(a + b)
  {
  }

  lemma AllOneLineConcat(a: seq<string>, b: seq<string>)
    requires AllOneLine(a) && AllOneLine(b)
    ensures AllOneLine(a + b)
  {
    forall i | 0 <= i < |a + b|
      ensures OneLine((a + b)[i])
    {
      if i >= |a| {
        assert (a + b)[i] == b[i - |a|];
      }
    }
  }

  /** `s.split("\n")`: the pieces between line breaks, always at least one. */
  function SplitLines(s: string): (ls: seq<string>)
    ensures |ls| >= 1
    decreases |s|
  {
    if |s| == 0 then [""]
    else
      var rest := SplitLines(s[1..]);
      if s[0] == '\n' then [""] + rest
      else [[s[0]] + rest[0]] + rest[1..]
  }

  /** A line-free prefix only extends the first piece. */
  lemma {:induction false} SplitPrefix(a: string, t: string)
    requires OneLine(a)
    ensures SplitLines(a + t) == [a + SplitLines(t)[0]] + SplitLines(t)[1..]
    decreases |a|
  {
    if |a| > 0 {
      assert (a + t)[1..] == a[1..] + t;
      SplitPrefix(a[1..], t);
      assert [a[0]] + (a[1..] + SplitLines(t)[0]) == a + SplitLines(t)[0];
    } else {
      assert a + t == t && a + SplitLines(t)[0] == SplitLines(t)[0];
      assert SplitLines(t) == [SplitLines(t)[0]] + SplitLines(t)[1..];
    }
  }

  /** Splitting undoes joining, as long as no line holds a line break itself. */
  lemma {:induction false} SplitJoin(lines: seq<string>)
    requires |lines| >= 1 && AllOneLine(lines)
    ensures SplitLines(JoinLines(lines)) == lines
    decreases |lines|
  {
    if |lines| == 1 {
      SplitPrefix(lines[0], "");
      assert lines[0] + "" == lines[0];
    } else {
      var rest := lines[1..];
      assert forall i :: 0 <= i < |rest| ==> rest[i] == lines[i + 1];
      SplitJoin(rest);
      var t := "\n" + JoinLines(rest);
      assert t[1..] == JoinLines(rest);
      assert SplitLines(t) == [""] + rest;
      assert lines[0] + "\n" + JoinLines(rest) == lines[0] + t;
      SplitPrefix(lines[0], t);
      assert lines[0] + "" == lines[0];
    }
  }

  /** Joining undoes splitting, for every string. */
  lemma {:induction false} JoinSplit(s: string)
    ensures JoinLines(SplitLines(s)) == s
    decreases |s|
  {
    if |s| > 0 {
      var rest := SplitLines(s[1..]);
      JoinSplit(s[1..]);
      if s[0] == '\n' {
        assert ([""] + rest)[1..] == rest;
      } else {
        var ls := [[s[0]] + rest[0]] + rest[1..];
        assert ls[1..] == rest[1..];
        if |rest| > 1 {
          assert JoinLines(rest) == rest[0] + "\n" + JoinLines(rest[1..]);
        }
        assert s == [s[0]] + s[1..];
      }
    }
  }
}

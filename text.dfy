/**
 * The string operations the client relies on, with Python's meaning:
 * `sub in s`, `s.find`, `s.split(c)`, `sep.join(parts)` and `str(n)` for integers.
 */
module Text {
  import opened Wrappers

  /** `sub` occurs in `s` starting at index `i`. */
  predicate OccursAt(s: string, sub: string, i: int) {
    0 <= i && i + |sub| <= |s| && s[i..i + |sub|] == sub
  }

  /** Python's `sub in s` for two strings. */
  predicate Contains(s: string, sub: string) {
    exists i | 0 <= i <= |s| :: OccursAt(s, sub, i)
  }

  predicate StartsWith(s: string, prefix: string) {
    |prefix| <= |s| && s[..|prefix|] == prefix
  }

  lemma OccursShift(s: string, sub: string, j: int)
    requires |s| > 0 && j >= 0
    ensures OccursAt(s[1..], sub, j) <==> OccursAt(s, sub, j + 1)
  {
    if 0 <= j && j + |sub| <= |s| - 1 {
      assert s[1..][j..j + |sub|] == s[j + 1..j + 1 + |sub|];
    }
  }

  lemma OccursInPrefix(s: string, sub: string, j: int, m: nat)
    requires m <= |s|
    ensures OccursAt(s[..m], sub, j) <==> OccursAt(s, sub, j) && j + |sub| <= m
  {
    if 0 <= j && j + |sub| <= m {
      assert s[..m][j..j + |sub|] == s[j..j + |sub|];
    }
  }

  /** Index of the first occurrence of `sub` in `s` (Python's `s.find(sub)` when it is found). */
  function FirstIndexOf(s: string, sub: string): (r: nat)
    requires Contains(s, sub)
    ensures OccursAt(s, sub, r)
    ensures forall j :: 0 <= j < r ==> !OccursAt(s, sub, j)
    decreases |s|
  {
    if OccursAt(s, sub, 0) then 0
    else
      assert |s| > 0 by {
        var i :| 0 <= i <= |s| && OccursAt(s, sub, i);
        assert i != 0;
      }
      assert Contains(s[1..], sub) by {
        var i :| 0 <= i <= |s| && OccursAt(s, sub, i);
        OccursShift(s, sub, i - 1);
        assert OccursAt(s[1..], sub, i - 1);
      }
      var k := FirstIndexOf(s[1..], sub);
      OccursShift(s, sub, k);
      forall j | 0 <= j < k + 1 ensures !OccursAt(s, sub, j) {
        if j > 0 { OccursShift(s, sub, j - 1); }
      }
      k + 1
  }

  /** Index of the last occurrence of `sub` in `s` (Python's `s.rfind(sub)` when it is found). */
  function LastIndexOf(s: string, sub: string): (r: nat)
    requires Contains(s, sub)
    ensures OccursAt(s, sub, r)
    ensures forall j :: r < j ==> !OccursAt(s, sub, j)
    decreases |s|
  {
    var i :| 0 <= i <= |s| && OccursAt(s, sub, i);
    if OccursAt(s, sub, |s| - |sub|) then |s| - |sub|
    else
      var m := |s| - 1;
      assert i + |sub| <= m;
      OccursInPrefix(s, sub, i, m);
      var k := LastIndexOf(s[..m], sub);
      OccursInPrefix(s, sub, k, m);
      forall j | k < j ensures !OccursAt(s, sub, j) {
        OccursInPrefix(s, sub, j, m);
      }
      k
  }

  /** Python's `s.split(c)` for a one-character separator. */
  function Split(s: string, c: char): (parts: seq<string>)
    ensures |parts| >= 1
    ensures forall i :: 0 <= i < |parts| ==> c !in parts[i]
    ensures |parts| > 1 <==> c in s
    decreases |s|
  {
    if |s| == 0 then [""]
    else
      var rest := Split(s[1..], c);
      assert c in s <==> s[0] == c || c in s[1..] by {
        assert s == [s[0]] + s[1..];
      }
      if s[0] == c then [""] + rest
      else [[s[0]] + rest[0]] + rest[1..]
  }

  /** Python's `sep.join(parts)`. */
  function Join(sep: string, parts: seq<string>): string
    decreases |parts|
  {
    if |parts| == 0 then ""
    else if |parts| == 1 then parts[0]
    else parts[0] + sep + Join(sep, parts[1..])
  }

  /** Joining the pieces of a split with the separator gives back the string. */
  lemma {:induction false} JoinSplit(s: string, c: char)
    ensures Join([c], Split(s, c)) == s
    decreases |s|
  {
    if |s| > 0 {
      var rest := Split(s[1..], c);
      JoinSplit(s[1..], c);
      var parts := Split(s, c);
      assert s == [s[0]] + s[1..];
      if s[0] == c {
        assert parts == [""] + rest;
        assert parts[1..] == rest;
        assert Join([c], parts) == parts[0] + [c] + Join([c], parts[1..]);
      } else if |rest| == 1 {
        assert Join([c], rest) == rest[0];
        assert parts == [[s[0]] + rest[0]];
      } else {
        assert parts == [[s[0]] + rest[0]] + rest[1..];
        assert parts[1..] == rest[1..];
        assert Join([c], parts) == parts[0] + [c] + Join([c], parts[1..]);
        assert Join([c], rest) == rest[0] + [c] + Join([c], rest[1..]);
      }
    }
  }

  /** Splitting a piece free of the separator, followed by the separator, peels off that piece. */
  lemma {:induction false} SplitAfterPiece(p: string, c: char, t: string)
    requires c !in p
    ensures Split(p + [c] + t, c) == [p] + Split(t, c)
    decreases |p|
  {
    if |p| == 0 {
      assert p + [c] + t == [c] + t;
      assert ([c] + t)[1..] == t;
    } else {
      var s := p + [c] + t;
      assert s[1..] == p[1..] + [c] + t;
      SplitAfterPiece(p[1..], c, t);
      assert s[0] == p[0];
      assert [p[0]] + p[1..] == p;
    }
  }

  /** A string without the separator splits into itself. */
  lemma {:induction false} SplitWhole(p: string, c: char)
    requires c !in p
    ensures Split(p, c) == [p]
    decreases |p|
  {
    if |p| > 0 {
      SplitWhole(p[1..], c);
      assert [p[0]] + p[1..] == p;
    }
  }

  /** Splitting a join of separator-free pieces gives back the pieces. */
  lemma {:induction false} SplitJoin(parts: seq<string>, c: char)
    requires |parts| >= 1
    requires forall i :: 0 <= i < |parts| ==> c !in parts[i]
    ensures Split(Join([c], parts), c) == parts
    decreases |parts|
  {
    if |parts| == 1 {
      SplitWhole(parts[0], c);
    } else {
      SplitJoin(parts[1..], c);
      SplitAfterPiece(parts[0], c, Join([c], parts[1..]));
      assert [parts[0]] + parts[1..] == parts;
    }
  }

  /** Appending one piece to a non-empty join adds the separator and the piece. */
  lemma {:induction false} JoinAppend(sep: string, parts: seq<string>, x: string)
    requires |parts| >= 1
    ensures Join(sep, parts + [x]) == Join(sep, parts) + sep + x
    decreases |parts|
  {
    if |parts| == 1 {
      assert (parts + [x])[1..] == [x];
    } else {
      assert (parts + [x])[1..] == parts[1..] + [x];
      JoinAppend(sep, parts[1..], x);
    }
  }

  predicate IsDigit(ch: char) {
    '0' <= ch <= '9'
  }

  predicate AllDigits(s: string) {
    forall i :: 0 <= i < |s| ==> IsDigit(s[i])
  }

  function DigitChar(d: nat): (ch: char)
    requires d < 10
    ensures IsDigit(ch) && ch as int - '0' as int == d
  {
    "0123456789"[d]
  }

  /** Decimal digits of a natural number, without leading zeros. */
  function NatToString(n: nat): (s: string)
    ensures |s| >= 1 && AllDigits(s)
    decreases n
  {
    if n < 10 then [DigitChar(n)] else NatToString(n / 10) + [DigitChar(n % 10)]
  }

  /** Python's `str(n)` for an integer. */
  function IntToString(n: int): string {
    if n < 0 then "-" + NatToString(-n) else NatToString(n)
  }

  function DigitsValue(s: string): nat
    requires AllDigits(s)
    decreases |s|
  {
    if |s| == 0 then 0
    else DigitsValue(s[..|s| - 1]) * 10 + (s[|s| - 1] as int - '0' as int)
  }

  /** Python's `int(s)` on an optional minus sign followed by decimal digits. */
  function ParseInt(s: string): Option<int> {
    if |s| >= 2 && s[0] == '-' && AllDigits(s[1..]) then Some(0 - DigitsValue(s[1..]))
    else if |s| >= 1 && AllDigits(s) then Some(DigitsValue(s))
    else None
  }

  lemma {:induction false} NatToStringRoundTrip(n: nat)
    ensures DigitsValue(NatToString(n)) == n
    decreases n
  {
    if n >= 10 {
      var s := NatToString(n);
      NatToStringRoundTrip(n / 10);
      assert s[..|s| - 1] == NatToString(n / 10);
    }
  }

  lemma NoColonInDigits(s: string)
    requires AllDigits(s)
    ensures ':' !in s
  {
  }

  /** `int(str(n)) == n`: the decimal form of an integer determines it, and holds no colon. */
  lemma IntToStringRoundTrip(n: int)
    ensures ParseInt(IntToString(n)) == Some(n)
    ensures ':' !in IntToString(n)
  {
    var d := NatToString(if n < 0 then -n else n);
    NatToStringRoundTrip(if n < 0 then -n else n);
    NoColonInDigits(d);
    if n < 0 {
      assert IntToString(n) == "-" + d;
      assert ("-" + d)[1..] == d;
      assert ("-" + d)[0] == '-';
    } else {
      assert IntToString(n) == d;
      assert d[0] != '-';
    }
  }
}

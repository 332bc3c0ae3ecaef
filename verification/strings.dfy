/** The few string operations of Python's `str` that the driver relies on. */
module Strings {
  import opened Values

  predicate IsDigit(c: char) {
    '0' <= c <= '9'
  }

  /** The class `[a-zA-Z0-9]` of the engine URL pattern. */
  predicate IsAlnum(c: char) {
    'a' <= c <= 'z' || 'A' <= c <= 'Z' || IsDigit(c)
  }

  predicate AllDigits(s: string) {
    forall i :: 0 <= i < |s| ==> IsDigit(s[i])
  }

  predicate AllAlnum(s: string) {
    forall i :: 0 <= i < |s| ==> IsAlnum(s[i])
  }

  function DigitChar(d: nat): (c: char)
    requires d < 10
    ensures IsDigit(c)
  {
    ('0' as int + d) as char
  }

  /** Decimal digits of a natural number, most significant first, without leading zeros. */
  function NatToString(n: nat): (s: string)
    ensures |s| > 0 && AllDigits(s)
  {
    if n < 10 then [DigitChar(n)] else NatToString(n / 10) + [DigitChar(n % 10)]
  }

  /** `"%d" % i` and `str(i)`. */
  function IntToString(i: int): (s: string)
    ensures |s| > 0 && '/' !in s && '{' !in s && '}' !in s && '&' !in s
    ensures i >= 0 <==> AllDigits(s)
  {
    if i < 0 then
      var s := "-" + NatToString(-i);
      assert !IsDigit(s[0]);
      s
    else NatToString(i)
  }

  /** The value of a run of decimal digits. */
  function DigitsValue(s: string): nat
    requires AllDigits(s)
  {
    if s == [] then 0 else DigitsValue(s[..|s| - 1]) * 10 + (s[|s| - 1] as int - '0' as int)
  }

  /**
   * `int(s)` on a string: an optional sign followed by at least one decimal digit;
   * anything else is the ValueError case.
   */
  function ParseInt(s: string): (r: Option<int>)
    ensures r.Some? ==> |s| > 0
    ensures |s| > 0 && AllDigits(s) ==> r == Some(DigitsValue(s))
  {
    if |s| == 0 then None
    else if s[0] == '-' || s[0] == '+' then
      var t := s[1..];
      if |t| > 0 && AllDigits(t) then Some(if s[0] == '-' then -(DigitsValue(t) as int) else DigitsValue(t)) else None
    else if AllDigits(s) then Some(DigitsValue(s))
    else None
  }

  lemma {:induction false} DigitsValueOfNatToString(n: nat)
    ensures DigitsValue(NatToString(n)) == n
  {
    if n >= 10 {
      var s := NatToString(n);
      assert s[..|s| - 1] == NatToString(n / 10);
      DigitsValueOfNatToString(n / 10);
    }
  }

  /** Printing an integer with `%d` and reading it back with `int()` gives the integer. */
  lemma ParseIntOfIntToString(i: int)
    ensures ParseInt(IntToString(i)) == Some(i)
  {
    var s := IntToString(i);
    if i < 0 {
      assert s[1..] == NatToString(-i);
      DigitsValueOfNatToString(-i);
    } else {
      DigitsValueOfNatToString(i);
    }
  }

  /** `s.rpartition(c)[-1]`: what follows the last `c`, or all of `s` when there is none. */
  function AfterLast(s: string, c: char): (r: string)
    ensures c !in r
    ensures |r| <= |s| && s[|s| - |r|..] == r
    ensures |r| < |s| ==> s[|s| - |r| - 1] == c
  {
    if s == [] then []
    else if s[|s| - 1] == c then []
    else AfterLast(s[..|s| - 1], c) + [s[|s| - 1]]
  }

  /** The part after the last separator is exactly the final segment when that segment has no separator. */
  lemma {:induction false} AfterLastOfSuffix(p: string, c: char, q: string)
    requires c !in q
    ensures AfterLast(p + [c] + q, c) == q
  {
    if q != [] {
      var s := p + [c] + q;
      assert s[..|s| - 1] == p + [c] + q[..|q| - 1];
      AfterLastOfSuffix(p, c, q[..|q| - 1]);
    }
  }

  /** `s.rstrip(c)` for a single character. */
  function RStrip(s: string, c: char): (r: string)
    ensures |r| <= |s| && s[..|r|] == r
    ensures r == [] || r[|r| - 1] != c
    ensures forall i :: |r| <= i < |s| ==> s[i] == c
  {
    if s != [] && s[|s| - 1] == c then RStrip(s[..|s| - 1], c) else s
  }

  /** `s.split(c)`: always at least one part, and no part contains the separator. */
  function Split(s: string, c: char): (parts: seq<string>)
    ensures |parts| > 0
    ensures forall k :: 0 <= k < |parts| ==> c !in parts[k]
  {
    if s == [] then [""]
    else
      var rest := Split(s[1..], c);
      if s[0] == c then [""] + rest else [[s[0]] + rest[0]] + rest[1..]
  }

  /** `c.join(parts)` for a one-character separator. */
  function Join(parts: seq<string>, c: char): string {
    if parts == [] then ""
    else if |parts| == 1 then parts[0]
    else parts[0] + [c] + Join(parts[1..], c)
  }

  /** The joined string starts with the first part. */
  lemma JoinHead(parts: seq<string>, c: char)
    requires parts != []
    ensures |parts[0]| <= |Join(parts, c)| && Join(parts, c)[..|parts[0]|] == parts[0]
  {
  }

  lemma JoinCons(p: string, rest: seq<string>, c: char)
    requires rest != []
    ensures Join([p] + rest, c) == p + [c] + Join(rest, c)
  {
    assert ([p] + rest)[1..] == rest;
  }

  /** Splitting at a separator and joining again rebuilds the string. */
  lemma {:induction false} JoinSplit(s: string, c: char)
    ensures Join(Split(s, c), c) == s
  {
    if s != [] {
      JoinSplit(s[1..], c);
      if s[0] == c {
        JoinSplitAtSeparator(s, c);
      } else {
        JoinSplitAtPlain(s, c);
      }
    }
  }

  /** The step of `JoinSplit` for a string that starts with the separator: an empty first part. */
  lemma JoinSplitAtSeparator(s: string, c: char)
    requires s != [] && s[0] == c
    requires Join(Split(s[1..], c), c) == s[1..]
    ensures Join(Split(s, c), c) == s
  {
    var rest := Split(s[1..], c);
    assert Split(s, c) == [""] + rest;
    JoinCons("", rest, c);
    assert [c] + s[1..] == s;
  }

  /** The step of `JoinSplit` for a string that starts with another character: it leads the first part. */
  lemma JoinSplitAtPlain(s: string, c: char)
    requires s != [] && s[0] != c
    requires Join(Split(s[1..], c), c) == s[1..]
    ensures Join(Split(s, c), c) == s
  {
    var rest := Split(s[1..], c);
    var first := [s[0]] + rest[0];
    assert Split(s, c) == [first] + rest[1..];
    if |rest| == 1 {
      assert Split(s, c) == [first];
    } else {
      JoinCons(first, rest[1..], c);
      assert rest == [rest[0]] + rest[1..];
      JoinCons(rest[0], rest[1..], c);
    }
    assert [s[0]] + s[1..] == s;
  }

  /** A separator splits the string into the parts before it followed by the parts after it. */
  lemma {:induction false} SplitAround(a: string, c: char, b: string)
    ensures Split(a + [c] + b, c) == Split(a, c) + Split(b, c)
  {
    var s := a + [c] + b;
    if a == [] {
      assert s[1..] == b;
    } else {
      assert s[1..] == a[1..] + [c] + b;
      SplitAround(a[1..], c, b);
    }
  }

  /** A string without the separator is a single part. */
  lemma {:induction false} SplitWithoutSeparator(s: string, c: char)
    requires c !in s
    ensures Split(s, c) == [s]
  {
    if s != [] {
      SplitWithoutSeparator(s[1..], c);
      assert [s[0]] + s[1..] == s;
    }
  }

  /** Joining parts that do not contain the separator and splitting again gives the parts back. */
  lemma {:induction false} SplitJoin(parts: seq<string>, c: char)
    requires |parts| > 0
    requires forall k :: 0 <= k < |parts| ==> c !in parts[k]
    ensures Split(Join(parts, c), c) == parts
  {
    if |parts| == 1 {
      SplitWithoutSeparator(parts[0], c);
    } else {
      SplitJoin(parts[1..], c);
      SplitAround(parts[0], c, Join(parts[1..], c));
      SplitWithoutSeparator(parts[0], c);
      assert parts == [parts[0]] + parts[1..];
    }
  }

  /** `sub in s` for strings. */
  predicate Contains(s: string, sub: string) {
    sub <= s || (s != [] && Contains(s[1..], sub))
  }

  /** `sub in s` holds exactly when `sub` occurs in `s` at some position. */
  lemma {:induction false} ContainsOccurs(s: string, sub: string)
    ensures Contains(s, sub) <==> exists i :: 0 <= i <= |s| && sub <= s[i..]
  {
    if sub <= s {
      assert s[0..] == s;
    } else if s != [] {
      ContainsOccurs(s[1..], sub);
      if Contains(s[1..], sub) {
        var i :| 0 <= i <= |s[1..]| && sub <= s[1..][i..];
        assert s[1..][i..] == s[i + 1..];
      }
      if exists i :: 0 <= i <= |s| && sub <= s[i..] {
        var i :| 0 <= i <= |s| && sub <= s[i..];
        assert i > 0 && s[1..][i - 1..] == s[i..];
      }
    }
  }

  /** The position of the first `c` in `s`, if any (`s.find(c)`). */
  function Find(s: string, c: char): (r: Option<nat>)
    ensures r.None? <==> c !in s
    ensures r.Some? ==> r.value < |s| && s[r.value] == c && c !in s[..r.value]
  {
    if s == [] then None
    else if s[0] == c then Some(0)
    else match Find(s[1..], c)
      case None => None
      case Some(i) => Some(i + 1)
  }
}

/**
 * The PHP string built-ins the response parser and the batch planner rely on,
 * on byte strings (one `char` per byte): strpos for one character, explode with
 * a positive limit, implode, trim with its default character list, strtolower
 * on ASCII, intval on a string and the decimal rendering of an integer.
 */
module PhpStrings {
  import opened Wrappers

  /** Position of the first occurrence of `c` in `s` (strpos for one character). */
  function IndexOf(s: string, c: char): (r: Option<nat>)
    ensures r.None? <==> c !in s
    ensures r.Some? ==> r.value < |s| && s[r.value] == c && c !in s[..r.value]
  {
    if s == [] then None
    else if s[0] == c then Some(0)
    else match IndexOf(s[1..], c)
      case None => None
      case Some(i) =>
        assert s[..i + 1] == [s[0]] + s[1..][..i];
        Some(i + 1)
  }

  lemma {:induction false} IndexOfFirst(a: string, c: char, b: string)
    requires c !in a
    ensures IndexOf(a + [c] + b, c) == Some(|a|)
  {
    var s := a + [c] + b;
    assert s[|a|] == c;
    assert s[..|a|] == a;
  }

  /** implode(glue, pieces). */
  function Join(glue: string, pieces: seq<string>): string
  {
    if |pieces| == 0 then ""
    else if |pieces| == 1 then pieces[0]
    else pieces[0] + glue + Join(glue, pieces[1..])
  }

  /**
   * explode(sep, s, limit) for a one-character separator and a positive limit:
   * `s` is cut at the first `limit - 1` separators, the last piece keeps the rest.
   */
  function Explode(sep: char, s: string, limit: nat): (r: seq<string>)
    requires limit >= 1
    ensures 1 <= |r| <= limit
    ensures Join([sep], r) == s
    ensures forall k :: 0 <= k < |r| - 1 ==> sep !in r[k]
    ensures |r| < limit ==> sep !in r[|r| - 1]
    decreases limit
  {
    if limit == 1 then [s]
    else match IndexOf(s, sep)
      case None => [s]
      case Some(i) =>
        var rest := Explode(sep, s[i + 1..], limit - 1);
        ExplodeCons(sep, s, i, rest, limit);
        [s[..i]] + rest
  }

  /** The step of explode: the piece before the first separator, then the pieces of the rest. */
  lemma ExplodeCons(sep: char, s: string, i: nat, rest: seq<string>, limit: nat)
    requires limit >= 2
    requires i < |s| && s[i] == sep && sep !in s[..i]
    requires 1 <= |rest| <= limit - 1 && Join([sep], rest) == s[i + 1..]
    requires forall k :: 0 <= k < |rest| - 1 ==> sep !in rest[k]
    requires |rest| < limit - 1 ==> sep !in rest[|rest| - 1]
    ensures var r := [s[..i]] + rest;
      && 1 <= |r| <= limit
      && Join([sep], r) == s
      && (forall k :: 0 <= k < |r| - 1 ==> sep !in r[k])
      && (|r| < limit ==> sep !in r[|r| - 1])
  {
    var head := s[..i];
    var r := [head] + rest;
    assert r[0] == head && r[1..] == rest;
    calc {
      Join([sep], r);
      head + [sep] + Join([sep], rest);
      head + [sep] + s[i + 1..];
      { assert s == s[..i] + [sep] + s[i + 1..]; }
      s;
    }
    forall k | 0 <= k < |r| - 1 ensures sep !in r[k] {
      if k > 0 {
        assert r[k] == rest[k - 1];
      }
    }
    assert r[|r| - 1] == rest[|rest| - 1];
  }

  /** Cutting at the first separator: `a` is everything before it, `b` everything after. */
  lemma {:induction false} ExplodeAtFirst(sep: char, a: string, b: string)
    requires sep !in a
    ensures Explode(sep, a + [sep] + b, 2) == [a, b]
  {
    var s := a + [sep] + b;
    IndexOfFirst(a, sep, b);
    assert s[..|a|] == a && s[|a| + 1..] == b;
  }

  /** With a limit of three, the first two separators cut the string. */
  lemma {:induction false} ExplodeAtFirstTwo(sep: char, a: string, b: string, c: string)
    requires sep !in a && sep !in b
    ensures Explode(sep, a + [sep] + b + [sep] + c, 3) == [a, b, c]
  {
    var s := a + [sep] + b + [sep] + c;
    assert s == a + [sep] + (b + [sep] + c);
    IndexOfFirst(a, sep, b + [sep] + c);
    assert s[..|a|] == a && s[|a| + 1..] == b + [sep] + c;
    ExplodeAtFirst(sep, b, c);
  }

  /** explode with a limit of two cuts the string exactly when it holds the separator. */
  lemma ExplodeCutsIffSeparator(sep: char, s: string)
    ensures |Explode(sep, s, 2)| == 2 <==> sep in s
  {
    var r := Explode(sep, s, 2);
    if |r| == 2 {
      assert Join([sep], r) == r[0] + [sep] + r[1];
      assert s[|r[0]|] == sep;
    }
  }

  /** A string without the separator explodes into itself alone. */
  lemma ExplodeNoSeparator(sep: char, s: string, limit: nat)
    requires limit >= 1 && sep !in s
    ensures Explode(sep, s, limit) == [s]
  {
  }

  /** The characters PHP's trim removes by default. */
  predicate IsTrimChar(c: char)
  {
    c == ' ' || c == '\t' || c == '\n' || c == '\r' || c == '\0' || c == '\U{000B}'
  }

  function TrimLeft(s: string): (r: string)
    ensures |r| <= |s|
    ensures r == [] || !IsTrimChar(r[0])
    ensures forall k :: 0 <= k < |s| - |r| ==> IsTrimChar(s[k])
  {
    if s != [] && IsTrimChar(s[0]) then TrimLeft(s[1..]) else s
  }

  function TrimRight(s: string): (r: string)
    ensures |r| <= |s|
    ensures forall k :: 0 <= k < |r| ==> r[k] == s[k]
    ensures r == [] || !IsTrimChar(r[|r| - 1])
    ensures forall k :: |r| <= k < |s| ==> IsTrimChar(s[k])
  {
    if s != [] && IsTrimChar(s[|s| - 1]) then TrimRight(s[..|s| - 1]) else s
  }

  /** What TrimLeft keeps is the end of its input. */
  lemma {:induction false} TrimLeftIsSuffix(s: string)
    ensures TrimLeft(s) == s[|s| - |TrimLeft(s)|..]
  {
    if s != [] && IsTrimChar(s[0]) {
      TrimLeftIsSuffix(s[1..]);
      assert s[1..][|s| - 1 - |TrimLeft(s)|..] == s[|s| - |TrimLeft(s)|..];
    }
  }

  /** trim(s): `s` without its leading and trailing whitespace. */
  function Trim(s: string): string
  {
    TrimRight(TrimLeft(s))
  }

  /** trim strips exactly the surrounding whitespace and leaves the inside alone. */
  lemma {:induction false} TrimSurrounded(pre: string, mid: string, post: string)
    requires forall k :: 0 <= k < |pre| ==> IsTrimChar(pre[k])
    requires forall k :: 0 <= k < |post| ==> IsTrimChar(post[k])
    requires mid == [] || (!IsTrimChar(mid[0]) && !IsTrimChar(mid[|mid| - 1]))
    ensures Trim(pre + mid + post) == mid
  {
    var tail := mid + post;
    assert pre + mid + post == pre + tail;
    if mid == [] {
      assert tail == post;
      TrimLeftDrops(pre, []);
      TrimLeftDrops(pre + post, []) by {
        assert pre + post + [] == pre + post;
        forall k | 0 <= k < |pre + post| ensures IsTrimChar((pre + post)[k]) {
          if k >= |pre| { assert (pre + post)[k] == post[k - |pre|]; }
        }
      }
      assert pre + post + [] == pre + tail;
    } else {
      TrimLeftDrops(pre, tail);
      TrimRightDrops(mid, post);
    }
  }

  lemma {:induction false} TrimLeftDrops(pre: string, s: string)
    requires forall k :: 0 <= k < |pre| ==> IsTrimChar(pre[k])
    requires s == [] || !IsTrimChar(s[0])
    ensures TrimLeft(pre + s) == s
  {
    if pre != [] {
      assert (pre + s)[1..] == pre[1..] + s;
      TrimLeftDrops(pre[1..], s);
    } else {
      assert pre + s == s;
    }
  }

  lemma {:induction false} TrimRightDrops(s: string, post: string)
    requires forall k :: 0 <= k < |post| ==> IsTrimChar(post[k])
    requires s == [] || !IsTrimChar(s[|s| - 1])
    ensures TrimRight(s + post) == s
  {
    if post != [] {
      assert (s + post)[..|s + post| - 1] == s + post[..|post| - 1];
      TrimRightDrops(s, post[..|post| - 1]);
    } else {
      assert s + post == s;
    }
  }

  function LowerChar(c: char): char
  {
    if 'A' <= c <= 'Z' then (c as int + 32) as char else c
  }

  /** strtolower on ASCII: only `A`..`Z` change. */
  function ToLower(s: string): (r: string)
    ensures |r| == |s|
    ensures forall k :: 0 <= k < |s| ==> r[k] == LowerChar(s[k])
  {
    seq(|s|, k requires 0 <= k < |s| => LowerChar(s[k]))
  }

  predicate IsDigit(c: char)
  {
    '0' <= c <= '9'
  }

  function DigitValue(c: char): nat
    requires IsDigit(c)
  {
    c as int - '0' as int
  }

  function DigitChar(d: nat): (c: char)
    requires d < 10
    ensures IsDigit(c) && DigitValue(c) == d
  {
    ('0' as int + d) as char
  }

  /** The longest prefix of `s` made of decimal digits. */
  function LeadingDigits(s: string): (r: string)
    ensures |r| <= |s|
    ensures forall k :: 0 <= k < |r| ==> r[k] == s[k] && IsDigit(r[k])
    ensures |r| < |s| ==> !IsDigit(s[|r|])
  {
    if s != [] && IsDigit(s[0]) then [s[0]] + LeadingDigits(s[1..]) else []
  }

  /** The value of a string of decimal digits, most significant first. */
  function DigitsValue(d: string): nat
    requires forall k :: 0 <= k < |d| ==> IsDigit(d[k])
  {
    if d == [] then 0 else DigitsValue(d[..|d| - 1]) * 10 + DigitValue(d[|d| - 1])
  }

  const INT_MAX: int := 0x7FFF_FFFF_FFFF_FFFF
  const INT_MIN: int := -0x8000_0000_0000_0000

  /** PHP integers are 64 bits wide: a string holding a larger number converts to the nearest bound. */
  function Saturate(v: int): (r: int)
    ensures INT_MIN <= r <= INT_MAX
    ensures INT_MIN <= v <= INT_MAX ==> r == v
  {
    if v > INT_MAX then INT_MAX else if v < INT_MIN then INT_MIN else v
  }

  /** The whitespace PHP skips in front of a numeric string. */
  predicate IsNumericSpace(c: char)
  {
    c == ' ' || c == '\t' || c == '\n' || c == '\r' || c == '\U{000B}' || c == '\U{000C}'
  }

  function SkipNumericSpace(s: string): (r: string)
    ensures |r| <= |s|
    ensures r == [] || !IsNumericSpace(r[0])
    ensures forall k :: 0 <= k < |s| - |r| ==> IsNumericSpace(s[k])
  {
    if s != [] && IsNumericSpace(s[0]) then SkipNumericSpace(s[1..]) else s
  }

  /**
   * intval(s) on a string: leading whitespace, an optional sign, then the
   * longest run of digits; no digits give 0.
   */
  function IntVal(s: string): (r: int)
    ensures INT_MIN <= r <= INT_MAX
  {
    var t := SkipNumericSpace(s);
    if t != [] && (t[0] == '-' || t[0] == '+') then
      var m: int := DigitsValue(LeadingDigits(t[1..]));
      if t[0] == '-' then Saturate(-m) else Saturate(m)
    else
      Saturate(DigitsValue(LeadingDigits(t)))
  }

  /** The decimal digits of `n`, most significant first, without leading zeros. */
  function Decimal(n: nat): (r: string)
    ensures r != [] && IsDigit(r[0])
    ensures forall k :: 0 <= k < |r| ==> IsDigit(r[k])
  {
    if n < 10 then [DigitChar(n)] else Decimal(n / 10) + [DigitChar(n % 10)]
  }

  /** An integer as PHP writes it into a string. */
  function IntToString(i: int): string
  {
    if i < 0 then "-" + Decimal(-i) else Decimal(i)
  }

  lemma {:induction false} DigitsValueOfDecimal(n: nat)
    ensures DigitsValue(Decimal(n)) == n
  {
    if n >= 10 {
      var d := Decimal(n);
      assert d[..|d| - 1] == Decimal(n / 10);
      DigitsValueOfDecimal(n / 10);
    }
  }

  lemma {:induction false} LeadingDigitsOfPrefix(d: string, rest: string)
    requires forall k :: 0 <= k < |d| ==> IsDigit(d[k])
    requires rest == [] || !IsDigit(rest[0])
    ensures LeadingDigits(d + rest) == d
  {
    if d != [] {
      assert (d + rest)[1..] == d[1..] + rest;
      LeadingDigitsOfPrefix(d[1..], rest);
    } else {
      assert d + rest == rest;
    }
  }

  /** intval reads back what Decimal writes, whatever non-digit text follows. */
  lemma {:induction false} IntValOfDecimal(n: nat, rest: string)
    requires n <= INT_MAX
    requires rest == [] || !IsDigit(rest[0])
    ensures IntVal(Decimal(n) + rest) == n
  {
    var d := Decimal(n);
    assert (d + rest)[0] == d[0];
    IntValOfDigitFirst(d + rest);
    LeadingDigitsOfPrefix(d, rest);
    DigitsValueOfDecimal(n);
  }

  /** A string that starts with a digit has no space or sign for intval to skip. */
  lemma IntValOfDigitFirst(s: string)
    requires s != [] && IsDigit(s[0])
    ensures IntVal(s) == Saturate(DigitsValue(LeadingDigits(s)))
  {
    assert SkipNumericSpace(s) == s;
  }
}

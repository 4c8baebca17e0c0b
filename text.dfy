/**
 * The JavaScript string built-ins the controller relies on: `toLowerCase`,
 * `split(",")`, `join(",")` and the decimal rendering of a number inside a
 * template literal, together with the readers that invert them.
 */
module Text {

  import opened Wrappers

  // ---------------------------------------------------------------- case

  predicate IsUpper(c: char) { 'A' <= c <= 'Z' }

  /** Lower-cases an ASCII capital letter; every other character is kept. */
  function LowerChar(c: char): (r: char)
    ensures !IsUpper(r)
    ensures IsUpper(c) ==> r as int == c as int + 32
    ensures !IsUpper(c) ==> r == c
  {
    if IsUpper(c) then (c as int + 32) as char else c
  }

  /** `s.toLowerCase()`, restricted to the ASCII letters. */
  function ToLower(s: string): (r: string)
    ensures |r| == |s|
    ensures forall i :: 0 <= i < |s| ==> r[i] == LowerChar(s[i])
  {
    seq(|s|, i requires 0 <= i < |s| => LowerChar(s[i]))
  }

  predicate NoUpper(s: string) { forall i :: 0 <= i < |s| ==> !IsUpper(s[i]) }

  /** Two strings that differ at most in the case of their ASCII letters. */
  predicate SameIgnoringCase(a: string, b: string)
  {
    |a| == |b| && forall i :: 0 <= i < |a| ==> LowerChar(a[i]) == LowerChar(b[i])
  }

  lemma ToLowerHasNoUpper(s: string)
    ensures NoUpper(ToLower(s))
  {
  }

  lemma ToLowerKeepsLowercase(s: string)
    requires NoUpper(s)
    ensures ToLower(s) == s
  {
  }

  lemma ToLowerIdempotent(s: string)
    ensures ToLower(ToLower(s)) == ToLower(s)
  {
    ToLowerHasNoUpper(s);
    ToLowerKeepsLowercase(ToLower(s));
  }

  /** Comparing lower-cased forms is the same as comparing up to case. */
  lemma ToLowerEqualIff(a: string, b: string)
    requires NoUpper(b)
    ensures ToLower(a) == b <==> SameIgnoringCase(a, b)
  {
    if SameIgnoringCase(a, b) {
      forall i | 0 <= i < |a| ensures ToLower(a)[i] == b[i] {
        assert LowerChar(b[i]) == b[i];
      }
    }
  }

  // ---------------------------------------------------------------- split and join

  /**
   * `s.split(sep)` with a one-character separator: every separator ends a
   * token, so the result is never empty and "" splits to [""].
   */
  function Split(s: string, sep: char): (r: seq<string>)
    ensures |r| >= 1
    decreases |s|
  {
    if |s| == 0 then [""]
    else
      var rest := Split(s[1..], sep);
      if s[0] == sep then [""] + rest else [[s[0]] + rest[0]] + rest[1..]
  }

  /** `ss.join(sep)`. */
  function Join(ss: seq<string>, sep: string): string
  {
    if |ss| == 0 then ""
    else if |ss| == 1 then ss[0]
    else ss[0] + sep + Join(ss[1..], sep)
  }

  /** No token of a split contains the separator. */
  lemma {:induction false} SplitOmitsSeparator(s: string, sep: char)
    ensures forall i :: 0 <= i < |Split(s, sep)| ==> sep !in Split(s, sep)[i]
    decreases |s|
  {
    if |s| > 0 {
      SplitOmitsSeparator(s[1..], sep);
    }
  }

  /** The tokens of a string without capital letters have none either. */
  lemma {:induction false} SplitKeepsNoUpper(s: string, sep: char)
    requires NoUpper(s)
    ensures forall i :: 0 <= i < |Split(s, sep)| ==> NoUpper(Split(s, sep)[i])
    decreases |s|
  {
    if |s| > 0 {
      assert NoUpper(s[1..]);
      SplitKeepsNoUpper(s[1..], sep);
    }
  }

  /** Joining the tokens back with the separator gives the original string. */
  lemma {:induction false} JoinSplit(s: string, sep: char)
    ensures Join(Split(s, sep), [sep]) == s
    decreases |s|
  {
    if |s| > 0 {
      var rest := Split(s[1..], sep);
      JoinSplit(s[1..], sep);
      if s[0] == sep {
        assert [""] + rest == [""] + rest[..];
        assert ([""] + rest)[1..] == rest;
        assert Join([""] + rest, [sep]) == "" + [sep] + Join(rest, [sep]);
      } else {
        var parts := [[s[0]] + rest[0]] + rest[1..];
        assert parts[1..] == rest[1..];
        if |rest| == 1 {
          assert Join(rest, [sep]) == rest[0];
        } else {
          assert Join(rest, [sep]) == rest[0] + [sep] + Join(rest[1..], [sep]);
          assert Join(parts, [sep]) == [s[0]] + rest[0] + [sep] + Join(rest[1..], [sep]);
        }
        assert s == [s[0]] + s[1..];
      }
    }
  }

  lemma {:induction false} SplitWithoutSeparator(s: string, sep: char)
    requires sep !in s
    ensures Split(s, sep) == [s]
    decreases |s|
  {
    if |s| > 0 {
      SplitWithoutSeparator(s[1..], sep);
      assert s == [s[0]] + s[1..];
    }
  }

  /** A token free of the separator followed by the separator splits off first. */
  lemma {:induction false} SplitAfterToken(a: string, b: string, sep: char)
    requires sep !in a
    ensures Split(a + [sep] + b, sep) == [a] + Split(b, sep)
    decreases |a|
  {
    var s := a + [sep] + b;
    if |a| == 0 {
      assert s == [sep] + b;
      assert s[1..] == b;
    } else {
      assert s[1..] == a[1..] + [sep] + b;
      SplitAfterToken(a[1..], b, sep);
      assert a == [a[0]] + a[1..];
    }
  }

  /** Splitting a join of separator-free tokens gives the tokens back. */
  lemma {:induction false} SplitJoin(ts: seq<string>, sep: char)
    requires |ts| >= 1
    requires forall i :: 0 <= i < |ts| ==> sep !in ts[i]
    ensures Split(Join(ts, [sep]), sep) == ts
    decreases |ts|
  {
    if |ts| == 1 {
      SplitWithoutSeparator(ts[0], sep);
    } else {
      SplitJoin(ts[1..], sep);
      SplitAfterToken(ts[0], Join(ts[1..], [sep]), sep);
      assert ts == [ts[0]] + ts[1..];
    }
  }

  // ---------------------------------------------------------------- numbers

  predicate IsDigit(c: char) { '0' <= c <= '9' }

  predicate AllDigits(s: string) { forall i :: 0 <= i < |s| ==> IsDigit(s[i]) }

  function DigitChar(d: nat): (c: char)
    requires d < 10
    ensures IsDigit(c)
  {
    ('0' as int + d) as char
  }

  function DigitValue(c: char): (d: nat)
    requires IsDigit(c)
    ensures d < 10
  {
    c as int - '0' as int
  }

  /** Decimal digits of n, most significant first, without leading zeros. */
  function NatToString(n: nat): (r: string)
    ensures |r| >= 1 && AllDigits(r)
    decreases n
  {
    if n < 10 then [DigitChar(n)] else NatToString(n / 10) + [DigitChar(n % 10)]
  }

  /** How a JavaScript integer is written by a template literal. */
  function IntToString(i: int): string
  {
    if i < 0 then "-" + NatToString(-i) else NatToString(i)
  }

  /** The value of a string of decimal digits. */
  function ParseNat(s: string): nat
    requires AllDigits(s)
    decreases |s|
  {
    if |s| == 0 then 0 else ParseNat(s[..|s| - 1]) * 10 + DigitValue(s[|s| - 1])
  }

  lemma {:induction false} ParseNatToString(n: nat)
    ensures ParseNat(NatToString(n)) == n
    decreases n
  {
    if n >= 10 {
      var s := NatToString(n);
      ParseNatToString(n / 10);
      assert s[..|s| - 1] == NatToString(n / 10);
    }
  }

  /** Length of the longest prefix of s made of digits. */
  function DigitRunLength(s: string): (k: nat)
    ensures k <= |s| && AllDigits(s[..k])
    ensures k < |s| ==> !IsDigit(s[k])
    decreases |s|
  {
    if |s| == 0 || !IsDigit(s[0]) then 0 else 1 + DigitRunLength(s[1..])
  }

  predicate StartsWithNonDigit(u: string) { |u| == 0 || !IsDigit(u[0]) }

  lemma {:induction false} DigitRunOfDigits(d: string, u: string)
    requires AllDigits(d) && StartsWithNonDigit(u)
    ensures DigitRunLength(d + u) == |d|
    decreases |d|
  {
    if |d| > 0 {
      assert (d + u)[1..] == d[1..] + u;
      DigitRunOfDigits(d[1..], u);
    } else {
      assert d + u == u;
    }
  }

  /** Reads a natural number at the front of t and returns it with the rest. */
  function ReadNat(t: string): Option<(nat, string)>
  {
    var k := DigitRunLength(t);
    if k == 0 then None else Some((ParseNat(t[..k]), t[k..]))
  }

  /** Reads an optionally negative integer at the front of t. */
  function ReadInt(t: string): Option<(int, string)>
  {
    if |t| > 0 && t[0] == '-' then
      match ReadNat(t[1..])
      case None => None
      case Some(p) => var v: int := -(p.0 as int); Some((v, p.1))
    else
      match ReadNat(t)
      case None => None
      case Some(p) => Some((p.0 as int, p.1))
  }

  lemma ReadNatToString(n: nat, u: string)
    requires StartsWithNonDigit(u)
    ensures ReadNat(NatToString(n) + u) == Some((n, u))
  {
    var d := NatToString(n);
    DigitRunOfDigits(d, u);
    assert (d + u)[..|d|] == d;
    assert (d + u)[|d|..] == u;
    ParseNatToString(n);
  }

  lemma ReadIntNegative(n: nat, rest: string)
    requires n > 0 && StartsWithNonDigit(rest)
    ensures ReadInt("-" + NatToString(n) + rest) == Some((-(n as int), rest))
  {
    var t := "-" + NatToString(n) + rest;
    assert t[1..] == NatToString(n) + rest;
    ReadNatToString(n, rest);
  }

  lemma ReadIntNonNegative(n: nat, rest: string)
    requires StartsWithNonDigit(rest)
    ensures ReadInt(NatToString(n) + rest) == Some((n as int, rest))
  {
    var d := NatToString(n);
    assert (d + rest)[0] == d[0];
    ReadNatToString(n, rest);
  }

  /** Reading back the rendering of an integer gives the integer and the rest. */
  lemma ReadIntToString(i: int, u: string)
    requires StartsWithNonDigit(u)
    ensures ReadInt(IntToString(i) + u) == Some((i, u))
  {
    if i < 0 {
      ReadIntNegative(-i, u);
    } else {
      ReadIntNonNegative(i, u);
    }
  }
}

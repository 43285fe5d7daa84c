/**
 * The string primitives the pages rely on: ASCII lower-casing,
 * `String.prototype.includes`, `split` on one character, `substring`,
 * and the decimal form of an integer (`Number.prototype.toString` and `Number`).
 */
module Text {
  import opened Wrappers

  /** `toLowerCase` on one character, restricted to ASCII letters. */
  function LowerChar(c: char): (r: char)
    ensures 'A' <= c <= 'Z' ==> r != c && 'a' <= r <= 'z'
    ensures !('A' <= c <= 'Z') ==> r == c
  {
    if 'A' <= c <= 'Z' then (c as int + 32) as char else c
  }

  function ToLower(s: string): (r: string)
    ensures |r| == |s|
    ensures forall i :: 0 <= i < |s| ==> r[i] == LowerChar(s[i])
  {
    seq(|s|, i requires 0 <= i < |s| => LowerChar(s[i]))
  }

  /** Lower-casing leaves no upper-case ASCII letter, so doing it twice changes nothing. */
  lemma ToLowerIdempotent(s: string)
    ensures ToLower(ToLower(s)) == ToLower(s)
    ensures forall i :: 0 <= i < |s| ==> !('A' <= ToLower(s)[i] <= 'Z')
  {
  }

  /** `s.includes(sub)`: `sub` occurs in `s` at some offset. */
  predicate Includes(s: string, sub: string)
  {
    exists i | 0 <= i <= |s| - |sub| :: OccursAt(s, sub, i)
  }

  /** `sub` stands in `s` from offset `i` on. */
  predicate OccursAt(s: string, sub: string, i: int)
  {
    0 <= i <= |s| - |sub| && s[i..i + |sub|] == sub
  }

  /** The empty query is a substring of everything, and every string contains itself. */
  lemma IncludesTrivial(s: string)
    ensures Includes(s, "")
    ensures Includes(s, s)
  {
    assert OccursAt(s, "", 0);
    assert OccursAt(s, s, 0);
  }

  /** `s.toLowerCase().includes(q.toLowerCase())`. */
  predicate IncludesIgnoringCase(s: string, q: string)
  {
    Includes(ToLower(s), ToLower(q))
  }

  /** `s.split(c)[0]`: everything before the first `c`, or all of `s` when there is none. */
  function BeforeChar(s: string, c: char): string
    decreases |s|
  {
    if s == [] then []
    else if s[0] == c then []
    else [s[0]] + BeforeChar(s[1..], c)
  }

  /** Everything after the first `c`; `None` when `s` has no `c`. */
  function AfterChar(s: string, c: char): Option<string>
    decreases |s|
  {
    if s == [] then None
    else if s[0] == c then Some(s[1..])
    else AfterChar(s[1..], c)
  }

  /** `s.split(c)[1]`: the piece between the first and the second `c`; `undefined` (None) without a `c`. */
  function SecondPiece(s: string, c: char): Option<string>
  {
    match AfterChar(s, c)
    case None => None
    case Some(rest) => Some(BeforeChar(rest, c))
  }

  /** Splitting at the first `c` loses nothing: the two parts and the `c` between them give back `s`. */
  lemma {:induction false} SplitAtFirst(s: string, c: char)
    ensures c !in BeforeChar(s, c)
    ensures AfterChar(s, c).Some? <==> c in s
    ensures AfterChar(s, c).None? ==> BeforeChar(s, c) == s
    ensures AfterChar(s, c).Some? ==> s == BeforeChar(s, c) + [c] + AfterChar(s, c).value
    decreases |s|
  {
    if s != [] && s[0] != c {
      SplitAtFirst(s[1..], c);
      assert s == [s[0]] + s[1..];
      assert c in s <==> c in s[1..];
    }
  }

  /** A leading stretch without `c` passes through `split(c)[0]` whole. */
  lemma {:induction false} BeforeCharAppend(a: string, b: string, c: char)
    requires c !in a
    ensures BeforeChar(a + b, c) == a + BeforeChar(b, c)
    decreases |a|
  {
    if a != [] {
      assert a[0] in a && (a + b)[0] == a[0];
      assert (a + b)[1..] == a[1..] + b;
      BeforeCharAppend(a[1..], b, c);
      assert a == [a[0]] + a[1..];
      assert a + BeforeChar(b, c) == [a[0]] + (a[1..] + BeforeChar(b, c));
    } else {
      assert a + b == b;
    }
  }

  /** A leading stretch without `c` does not move where the first `c` is. */
  lemma {:induction false} AfterCharAppend(a: string, b: string, c: char)
    requires c !in a
    ensures AfterChar(a + b, c) == AfterChar(b, c)
    decreases |a|
  {
    if a != [] {
      assert a[0] in a && (a + b)[0] == a[0];
      assert (a + b)[1..] == a[1..] + b;
      AfterCharAppend(a[1..], b, c);
    } else {
      assert a + b == b;
    }
  }

  /**
   * JavaScript's `length`: the number of UTF-16 code units, one for a
   * character of the Basic Multilingual Plane and two for any other.
   */
  function Utf16Length(s: string): (n: nat)
    ensures |s| <= n <= 2 * |s|
    ensures (forall i :: 0 <= i < |s| ==> (s[i] as int) < 0x1_0000) ==> n == |s|
    decreases |s|
  {
    if s == [] then 0
    else
      assert forall i :: 0 <= i < |s| - 1 ==> s[1..][i] == s[i + 1];
      (if (s[0] as int) < 0x1_0000 then 1 else 2) + Utf16Length(s[1..])
  }

  /** `s.substring(0, n)`. */
  function Prefix(s: string, n: nat): (r: string)
    ensures |r| == if |s| < n then |s| else n
    ensures r <= s
  {
    if |s| < n then s else s[..n]
  }

  function Digit(d: nat): (c: char)
    requires d < 10
    ensures '0' <= c <= '9'
  {
    ('0' as int + d) as char
  }

  function NatToString(n: nat): (s: string)
    ensures |s| > 0
    ensures forall i :: 0 <= i < |s| ==> '0' <= s[i] <= '9'
    decreases n
  {
    if n < 10 then [Digit(n)] else NatToString(n / 10) + [Digit(n % 10)]
  }

  /** `n.toString()` for an integral number. */
  function IntToString(n: int): (s: string)
    ensures |s| > 0
  {
    if n < 0 then "-" + NatToString(-n) else NatToString(n)
  }

  predicate IsDigits(s: string)
  {
    |s| > 0 && forall i :: 0 <= i < |s| ==> '0' <= s[i] <= '9'
  }

  function DigitsValue(s: string): nat
    requires forall i :: 0 <= i < |s| ==> '0' <= s[i] <= '9'
    decreases |s|
  {
    if s == [] then 0 else DigitsValue(s[..|s| - 1]) * 10 + (s[|s| - 1] as int - '0' as int)
  }

  /** `Number(s)` on an optional minus sign followed by decimal digits; `None` stands for NaN. */
  function ParseInt(s: string): Option<int>
  {
    if |s| > 0 && s[0] == '-' && IsDigits(s[1..]) then Some(-(DigitsValue(s[1..]) as int))
    else if IsDigits(s) then Some(DigitsValue(s))
    else None
  }

  lemma {:induction false} DigitsValueOfNat(n: nat)
    ensures DigitsValue(NatToString(n)) == n
    decreases n
  {
    if n >= 10 {
      var s := NatToString(n);
      DigitsValueOfNat(n / 10);
      assert s[..|s| - 1] == NatToString(n / 10);
    }
  }

  /** A string of digits reads as its value, and with a leading minus as the negated value. */
  lemma ParseIntOfDigits(d: string)
    requires IsDigits(d)
    ensures ParseInt(d) == Some(DigitsValue(d) as int)
    ensures ParseInt("-" + d) == Some(-(DigitsValue(d) as int))
  {
    assert d[0] != '-';
    assert ("-" + d)[1..] == d;
  }

  /** `Number(n.toString()) == n`: the decimal form of an integer reads back as that integer. */
  lemma IntToStringRoundTrip(n: int)
    ensures ParseInt(IntToString(n)) == Some(n)
  {
    var m: nat := if n < 0 then -n else n;
    DigitsValueOfNat(m);
    ParseIntOfDigits(NatToString(m));
  }

  /** Distinct integers have distinct decimal forms, so comparing `toString()` is comparing numbers. */
  lemma IntToStringInjective(m: int, n: int)
    ensures IntToString(m) == IntToString(n) <==> m == n
  {
    if IntToString(m) == IntToString(n) {
      IntToStringRoundTrip(m);
      IntToStringRoundTrip(n);
    }
  }
}

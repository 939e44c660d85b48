/** Small shared vocabulary: optional values, JavaScript truthiness of
    optional strings, string prefixes and substrings, ASCII lower-casing,
    decimal rendering of naturals and the Ethereum address pattern
    `^0x[a-fA-F0-9]{40}$` used by both the front-end and the proxy. */
module Common {

  /** A value that may be `null`/`undefined` on the JavaScript side. */
  datatype Option<+T> = None | Some(value: T)

  /** A success value or an error, for calls that can revert or fail. */
  datatype Result<+T, +E> = Ok(value: T) | Err(error: E)

  /** JavaScript `a ?? b`: only a missing value falls through to `b`. */
  function Coalesce<T>(a: Option<T>, b: T): (r: T)
    ensures a.Some? ==> r == a.value
    ensures a.None? ==> r == b
  {
    match a
    case Some(v) => v
    case None => b
  }

  /** JavaScript truthiness of a string that may be missing: `null`,
      `undefined` and `""` are falsy, every other string is truthy. */
  predicate Truthy(s: Option<string>)
  {
    s.Some? && s.value != ""
  }

  predicate StartsWith(s: string, prefix: string)
  {
    |prefix| <= |s| && s[..|prefix|] == prefix
  }

  /** `s.includes(sub)`: `sub` occurs at some position of `s`. */
  predicate Contains(s: string, sub: string)
    decreases |s|
  {
    StartsWith(s, sub) || (|s| > 0 && Contains(s[1..], sub))
  }

  /** `s.replace(prefix, replacement)` when `s` starts with `prefix`: the first
      occurrence of the pattern is the prefix itself. */
  function ReplacePrefix(s: string, prefix: string, replacement: string): (r: string)
    requires StartsWith(s, prefix)
    ensures StartsWith(r, replacement)
    ensures r[|replacement|..] == s[|prefix|..]
  {
    replacement + s[|prefix|..]
  }

  function LowerChar(c: char): char
  {
    if 'A' <= c <= 'Z' then (c as int + 32) as char else c
  }

  /** `s.toLowerCase()`, restricted to the ASCII letters. */
  function ToLower(s: string): (r: string)
    ensures |r| == |s|
    ensures forall i :: 0 <= i < |s| ==> r[i] == LowerChar(s[i])
  {
    if s == [] then [] else [LowerChar(s[0])] + ToLower(s[1..])
  }

  lemma ToLowerAppend(a: string, b: string)
    ensures ToLower(a + b) == ToLower(a) + ToLower(b)
  {
    assert |ToLower(a + b)| == |ToLower(a) + ToLower(b)|;
    forall i | 0 <= i < |a + b|
      ensures ToLower(a + b)[i] == (ToLower(a) + ToLower(b))[i]
    {
    }
  }

  /** Lower-casing keeps every occurrence: if `s` contains `sub`, the
      lower-cased `s` contains the lower-cased `sub`. */
  lemma {:induction false} ContainsToLower(s: string, sub: string)
    requires Contains(s, sub)
    ensures Contains(ToLower(s), ToLower(sub))
    decreases |s|
  {
    if StartsWith(s, sub) {
      assert s == sub + s[|sub|..];
      ToLowerAppend(sub, s[|sub|..]);
      assert ToLower(s)[..|sub|] == ToLower(sub);
    } else {
      ContainsToLower(s[1..], sub);
      assert ToLower(s)[1..] == ToLower(s[1..]);
    }
  }

  /** A string that contains `sub` after some prefix contains it too. */
  lemma {:induction false} ContainsAfterPrefix(p: string, s: string, sub: string)
    requires Contains(s, sub)
    ensures Contains(p + s, sub)
    decreases |p|
  {
    if p == [] {
      assert p + s == s;
    } else {
      ContainsAfterPrefix(p[1..], s, sub);
      assert (p + s)[1..] == p[1..] + s;
    }
  }

  predicate IsHexDigit(c: char)
  {
    ('0' <= c <= '9') || ('a' <= c <= 'f') || ('A' <= c <= 'F')
  }

  /** The regular expression `^0x[a-fA-F0-9]{40}$`: exactly `0x`
      followed by forty hexadecimal digits of either case. */
  predicate AddressPattern(s: string)
  {
    && |s| == 42
    && s[0] == '0' && s[1] == 'x'
    && forall i :: 2 <= i < 42 ==> IsHexDigit(s[i])
  }

  /** The anchored match the regular expression engine performs: check the
      length, the literal `0x`, then scan the forty digit positions. */
  method MatchAddressPattern(s: string) returns (ok: bool)
    ensures ok <==> AddressPattern(s)
    ensures ok ==> StartsWith(s, "0x") && |s| == 42
  {
    if |s| != 42 || s[0] != '0' || s[1] != 'x' {
      return false;
    }
    var i := 2;
    while i < 42
      invariant 2 <= i <= 42
      invariant forall j :: 2 <= j < i ==> IsHexDigit(s[j])
    {
      if !IsHexDigit(s[i]) {
        return false;
      }
      i := i + 1;
    }
    return true;
  }

  function DigitChar(d: nat): char
    requires d < 10
  {
    "0123456789"[d]
  }

  function DigitValue(c: char): nat
  {
    if '0' <= c <= '9' then (c as int - '0' as int) as nat else 0
  }

  /** Decimal rendering of a natural, as Solidity's `Strings.toString`. */
  function NatToString(n: nat): (r: string)
    ensures |r| >= 1
    ensures forall i :: 0 <= i < |r| ==> '0' <= r[i] <= '9'
  {
    if n < 10 then [DigitChar(n)] else NatToString(n / 10) + [DigitChar(n % 10)]
  }

  /** Reads a string of decimal digits back into a natural. */
  function ParseDecimal(s: string): nat
  {
    if s == [] then 0 else 10 * ParseDecimal(s[..|s| - 1]) + DigitValue(s[|s| - 1])
  }

  /** Decimal rendering can be read back, so it never maps two naturals to
      the same string. */
  lemma {:induction false} ParseNatToString(n: nat)
    ensures ParseDecimal(NatToString(n)) == n
  {
    var r := NatToString(n);
    if n < 10 {
      assert r[..|r| - 1] == [];
    } else {
      ParseNatToString(n / 10);
      assert r[..|r| - 1] == NatToString(n / 10);
    }
  }

  lemma NatToStringInjective(a: nat, b: nat)
    requires NatToString(a) == NatToString(b)
    ensures a == b
  {
    ParseNatToString(a);
    ParseNatToString(b);
  }
}

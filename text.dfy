/**
 * The string operations the console's filters and badges use: `toLowerCase`
 * (restricted to ASCII), `includes`, `split(c)[0]` and the global `parseInt`
 * with no radix argument.
 */
module Text {
  import opened Options

  // ---------------------------------------------------------------------------
  // toLowerCase (ASCII letters only)
  // ---------------------------------------------------------------------------

  predicate IsUpper(c: char) {
    'A' <= c <= 'Z'
  }

  function LowerChar(c: char): (r: char)
    ensures !IsUpper(r)
    ensures !IsUpper(c) ==> r == c
    ensures IsUpper(c) ==> r as int == c as int + 32
  {
    if IsUpper(c) then (c as int + 32) as char else c
  }

  /** `s.toLowerCase()` for the ASCII range: same length, letter by letter. */
  function Lower(s: string): (r: string)
    ensures |r| == |s|
    ensures forall i :: 0 <= i < |s| ==> r[i] == LowerChar(s[i])
  {
    if s == [] then [] else [LowerChar(s[0])] + Lower(s[1..])
  }

  /** Lower-casing twice is lower-casing once. */
  lemma LowerIdempotent(s: string)
    ensures Lower(Lower(s)) == Lower(s)
  {
    var l := Lower(s);
    assert forall i :: 0 <= i < |l| ==> Lower(l)[i] == l[i];
  }

  // ---------------------------------------------------------------------------
  // includes
  // ---------------------------------------------------------------------------

  /** `sub` occurs in `s` starting at position `i`. */
  ghost predicate OccursAt(s: string, sub: string, i: int) {
    0 <= i && i + |sub| <= |s| && s[i..i + |sub|] == sub
  }

  /** `s.includes(sub)`: `sub` is a contiguous piece of `s`. */
  function Includes(s: string, sub: string): (b: bool)
    ensures b <==> exists i :: OccursAt(s, sub, i)
    decreases |s|
  {
    if |sub| <= |s| && s[..|sub|] == sub then
      assert OccursAt(s, sub, 0);
      true
    else if s == [] then
      false
    else
      var b := Includes(s[1..], sub);
      assert forall i :: OccursAt(s[1..], sub, i) ==> OccursAt(s, sub, i + 1) by {
        forall i | OccursAt(s[1..], sub, i) ensures OccursAt(s, sub, i + 1) {
          assert s[1..][i..i + |sub|] == s[i + 1..i + 1 + |sub|];
        }
      }
      assert forall i :: OccursAt(s, sub, i) && i > 0 ==> OccursAt(s[1..], sub, i - 1) by {
        forall i | OccursAt(s, sub, i) && i > 0 ensures OccursAt(s[1..], sub, i - 1) {
          assert s[1..][i - 1..i - 1 + |sub|] == s[i..i + |sub|];
        }
      }
      assert !OccursAt(s, sub, 0);
      b
  }

  /** Every string includes the empty string: an empty search term matches everything. */
  lemma IncludesEmpty(s: string)
    ensures Includes(s, "")
  {
    assert OccursAt(s, "", 0);
  }

  /** A string lacking the first character of `sub` does not include `sub`. */
  lemma MissingFirstCharExcludes(s: string, sub: string)
    requires sub != [] && sub[0] !in s
    ensures !Includes(s, sub)
  {
  }

  // ---------------------------------------------------------------------------
  // split(c)[0]
  // ---------------------------------------------------------------------------

  /** `s.split(c)[0]`: the longest prefix of `s` that does not contain `c`. */
  function BeforeFirst(s: string, c: char): (r: string)
    ensures r <= s
    ensures c !in r
    ensures |r| < |s| ==> s[|r|] == c
  {
    if s == [] then []
    else if s[0] == c then []
    else [s[0]] + BeforeFirst(s[1..], c)
  }

  /** The text before the first separator of `prefix + [c] + rest` is `prefix`, when `prefix` has no separator. */
  lemma {:induction false} BeforeFirstOfJoin(prefix: string, c: char, rest: string)
    requires c !in prefix
    ensures BeforeFirst(prefix + [c] + rest, c) == prefix
  {
    if prefix != [] {
      assert (prefix + [c] + rest)[1..] == prefix[1..] + [c] + rest;
      BeforeFirstOfJoin(prefix[1..], c, rest);
    }
  }

  // ---------------------------------------------------------------------------
  // parseInt(s) with no radix
  // ---------------------------------------------------------------------------

  /**
   * The characters `parseInt` skips before the number: the WhiteSpace code points
   * (tab, vertical tab, form feed, space, no-break space, byte-order mark and the
   * other Unicode space separators) and the LineTerminators (LF, CR, U+2028, U+2029).
   */
  predicate IsJsSpace(c: char) {
    var k := c as int;
    k == 0x09 || k == 0x0A || k == 0x0B || k == 0x0C || k == 0x0D || k == 0x20 ||
    k == 0xA0 || k == 0x1680 || (0x2000 <= k <= 0x200A) || k == 0x2028 || k == 0x2029 ||
    k == 0x202F || k == 0x205F || k == 0x3000 || k == 0xFEFF
  }

  function TrimStart(s: string): (r: string)
    ensures r == [] || !IsJsSpace(r[0])
    ensures exists n :: 0 <= n <= |s| && r == s[n..] && forall i :: 0 <= i < n ==> IsJsSpace(s[i])
  {
    if s != [] && IsJsSpace(s[0]) then
      var r := TrimStart(s[1..]);
      ghost var n :| 0 <= n <= |s[1..]| && r == s[1..][n..] && forall i :: 0 <= i < n ==> IsJsSpace(s[1..][i]);
      assert r == s[n + 1..];
      assert forall i :: 0 <= i < n + 1 ==> IsJsSpace(s[i]) by {
        forall i | 0 <= i < n + 1 ensures IsJsSpace(s[i]) {
          if i > 0 { assert s[i] == s[1..][i - 1]; }
        }
      }
      r
    else
      assert s == s[0..];
      s
  }

  /** The value of `c` as a digit in base `radix` (10 or 16), if it is one. */
  function DigitValue(c: char, radix: nat): (r: Option<nat>)
    ensures r.Some? ==> r.value < radix
    ensures radix == 10 ==> (r.Some? <==> '0' <= c <= '9')
  {
    if '0' <= c <= '9' && (c as int - '0' as int) < radix then Some(c as int - '0' as int)
    else if radix == 16 && 'a' <= c <= 'f' then Some(c as int - 'a' as int + 10)
    else if radix == 16 && 'A' <= c <= 'F' then Some(c as int - 'A' as int + 10)
    else None
  }

  /** The longest prefix of `s` made of base-`radix` digits. */
  function DigitPrefix(s: string, radix: nat): (r: string)
    ensures r <= s
    ensures forall i :: 0 <= i < |r| ==> DigitValue(r[i], radix).Some?
    ensures |r| < |s| ==> DigitValue(s[|r|], radix).None?
  {
    if s != [] && DigitValue(s[0], radix).Some? then [s[0]] + DigitPrefix(s[1..], radix) else []
  }

  /** The number a string of base-`radix` digits denotes, most significant first. */
  function DigitsValue(ds: string, radix: nat): nat
    requires forall i :: 0 <= i < |ds| ==> DigitValue(ds[i], radix).Some?
  {
    if ds == [] then 0
    else DigitsValue(ds[..|ds| - 1], radix) * radix + DigitValue(ds[|ds| - 1], radix).value
  }

  /**
   * `parseInt(s)`: leading white space is skipped, an optional sign is read, a
   * `0x`/`0X` prefix switches to base 16, and the longest run of digits that
   * follows is the magnitude. `None` stands for NaN (no digits at all).
   */
  function ParseInt(s: string): (r: Option<int>)
    ensures r.Some? ==> HasDecimalDigit(s)
  {
    var t := TrimStart(s);
    var r := ParseSigned(t);
    if r.Some? then
      assert HasDecimalDigit(s) by {
        ghost var n, i :| 0 <= n <= |s| && t == s[n..] && 0 <= i < |t| && '0' <= t[i] <= '9';
        assert s[n + i] == t[i];
      }
      r
    else r
  }

  /** The number after the white space: an optional sign, then the magnitude. */
  function ParseSigned(t: string): (r: Option<int>)
    ensures r.Some? ==> HasDecimalDigit(t)
  {
    if t != [] && (t[0] == '-' || t[0] == '+') then
      match Magnitude(t[1..])
      case None => None
      case Some(m) =>
        assert t[1..][0] == t[1];
        Some(if t[0] == '-' then -(m as int) else m as int)
    else
      match Magnitude(t)
      case None => None
      case Some(m) => Some(m)
  }

  /**
   * The unsigned part: base 16 after a `0x`/`0X` prefix, base 10 otherwise. It is NaN
   * exactly when it does not start with a decimal digit, or when a `0x` prefix is
   * followed by no hexadecimal digit.
   */
  function Magnitude(u: string): (r: Option<nat>)
    ensures r.Some? ==> u != [] && '0' <= u[0] <= '9'
    ensures r.None? <==> (u == [] || !('0' <= u[0] <= '9')
                          || (|u| >= 2 && u[0] == '0' && (u[1] == 'x' || u[1] == 'X') && (|u| == 2 || DigitValue(u[2], 16).None?)))
  {
    var hex := |u| >= 2 && u[0] == '0' && (u[1] == 'x' || u[1] == 'X');
    var radix := if hex then 16 else 10;
    var ds := DigitPrefix(if hex then u[2..] else u, radix);
    if ds == [] then None else Some(DigitsValue(ds, radix))
  }

  /** Some character of `s` is one of the ten decimal digits. */
  ghost predicate HasDecimalDigit(s: string) {
    exists i :: 0 <= i < |s| && '0' <= s[i] <= '9'
  }

  /**
   * JavaScript's `parseInt(s) > bound`: false for `NaN`, so a string with no decimal
   * digit is never above any bound.
   */
  function ParsesAbove(s: string, bound: int): (b: bool)
    ensures !HasDecimalDigit(s) ==> !b
  {
    match ParseInt(s)
    case Some(v) => v > bound
    case None => false
  }

  // ---------------------------------------------------------------------------
  // decimal numerals, and the round trip with parseInt
  // ---------------------------------------------------------------------------

  function DigitChar(d: nat): (c: char)
    requires d < 10
    ensures DigitValue(c, 10) == Some(d)
  {
    ('0' as int + d) as char
  }

  /** The decimal numeral of `n`, without leading zeros (`String(n)`). */
  function Decimal(n: nat): (r: string)
    ensures r != []
    ensures forall i :: 0 <= i < |r| ==> DigitValue(r[i], 10).Some?
    ensures r[0] == '0' ==> n == 0
  {
    if n < 10 then [DigitChar(n)] else Decimal(n / 10) + [DigitChar(n % 10)]
  }

  lemma {:induction false} DecimalValue(n: nat)
    ensures DigitsValue(Decimal(n), 10) == n
  {
    if n >= 10 {
      var r := Decimal(n);
      assert r[..|r| - 1] == Decimal(n / 10);
      DecimalValue(n / 10);
    }
  }

  /** The digits of a numeral followed by a non-digit are exactly the numeral. */
  lemma {:induction false} DigitPrefixOfNumeral(ds: string, rest: string, radix: nat)
    requires forall i :: 0 <= i < |ds| ==> DigitValue(ds[i], radix).Some?
    requires rest == [] || DigitValue(rest[0], radix).None?
    ensures DigitPrefix(ds + rest, radix) == ds
  {
    if ds != [] {
      assert (ds + rest)[1..] == ds[1..] + rest;
      DigitPrefixOfNumeral(ds[1..], rest, radix);
    } else {
      assert ds + rest == rest;
    }
  }

  /**
   * Round trip: the numeral of `n` followed by a suffix that does not start with a
   * digit (`"800ms"`) parses back to `n`, unless the numeral is `0` and the suffix
   * starts a hexadecimal prefix.
   */
  lemma NumeralRoundTrip(n: nat, suffix: string)
    requires suffix == [] || ('0' > suffix[0] || suffix[0] > '9')
    requires n == 0 ==> suffix == [] || (suffix[0] != 'x' && suffix[0] != 'X')
    ensures ParseInt(Decimal(n) + suffix) == Some(n)
  {
    var s := Decimal(n) + suffix;
    assert s[0] == Decimal(n)[0];
    assert TrimStart(s) == s by {
      assert !IsJsSpace(s[0]);
    }
    NumeralMagnitude(n, suffix);
  }

  /** The magnitude read from a numeral followed by a non-digit suffix is its number. */
  lemma NumeralMagnitude(n: nat, suffix: string)
    requires suffix == [] || ('0' > suffix[0] || suffix[0] > '9')
    requires n == 0 ==> suffix == [] || (suffix[0] != 'x' && suffix[0] != 'X')
    ensures Magnitude(Decimal(n) + suffix) == Some(n)
  {
    var u := Decimal(n) + suffix;
    assert u[0] == Decimal(n)[0];
    if |u| >= 2 && u[0] == '0' {
      assert n == 0 && |Decimal(n)| == 1;
      assert u[1] == suffix[0];
    }
    DigitPrefixOfNumeral(Decimal(n), suffix, 10);
    DecimalValue(n);
  }

  /** A string that starts with a digit and no `0x` prefix parses in base 10 from its first character. */
  lemma ParseUnsignedDecimal(s: string)
    requires s != [] && '0' <= s[0] <= '9'
    requires !(|s| >= 2 && s[0] == '0' && (s[1] == 'x' || s[1] == 'X'))
    ensures DigitPrefix(s, 10) != []
    ensures ParseInt(s) == Some(DigitsValue(DigitPrefix(s, 10), 10))
  {
    assert !IsJsSpace(s[0]);
    assert TrimStart(s) == s;
  }

  /** A leading `-` negates the numeral that follows it. */
  lemma ParseIntNegative(n: nat, suffix: string)
    requires suffix == [] || ('0' > suffix[0] || suffix[0] > '9')
    requires n == 0 ==> suffix == [] || (suffix[0] != 'x' && suffix[0] != 'X')
    ensures ParseInt(['-'] + Decimal(n) + suffix) == Some(-(n as int))
  {
    var u := Decimal(n) + suffix;
    assert ['-'] + Decimal(n) + suffix == ['-'] + u;
    ParseIntWithoutSpace(['-'] + u);
    ParseSignedMinus(u);
    NumeralMagnitude(n, suffix);
  }

  lemma ParseSignedMinus(u: string)
    ensures ParseSigned(['-'] + u) == match Magnitude(u) case None => None case Some(m) => Some(-(m as int))
  {
    assert (['-'] + u)[1..] == u;
  }

  /** Without leading white space, `parseInt` starts at the sign. */
  lemma ParseIntWithoutSpace(s: string)
    requires s != [] && !IsJsSpace(s[0])
    ensures ParseInt(s) == ParseSigned(s)
  {
    assert TrimStart(s) == s;
  }

  /** `parseInt` skips a leading white-space or line-terminator character. */
  lemma ParseIntSkipsSpace(c: char, s: string)
    requires IsJsSpace(c)
    ensures ParseInt([c] + s) == ParseInt(s)
  {
    assert ([c] + s)[1..] == s;
    assert TrimStart([c] + s) == TrimStart(s);
  }

  /** A numeral followed by a non-digit suffix is above a bound exactly when its number is. */
  lemma ParsesAboveNumeral(n: nat, suffix: string, bound: int)
    requires suffix == [] || ('0' > suffix[0] || suffix[0] > '9')
    requires n == 0 ==> suffix == [] || (suffix[0] != 'x' && suffix[0] != 'X')
    ensures ParsesAbove(Decimal(n) + suffix, bound) <==> n > bound
  {
    NumeralRoundTrip(n, suffix);
  }
}

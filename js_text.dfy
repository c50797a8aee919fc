/**
 * The JavaScript string and number-parsing behaviour the routes and pages rely on:
 * `split`, `toLowerCase`, `includes`, `parseInt`, `parseFloat`, `Number(...)` and
 * the decimal rendering of a non-negative integer inside a template string.
 * A parse that JavaScript answers with NaN is `None` here.
 */
module JsText {
  import opened Wrappers

  predicate IsDigit(c: char) { '0' <= c <= '9' }

  /**
   * The white space and line terminators JavaScript trims before a number:
   * tab, vertical tab, form feed, the byte-order mark, the space separators
   * of Unicode category Zs, and line feed, carriage return and the line and
   * paragraph separators.
   */
  predicate IsWhitespace(c: char) {
    || c == '\t' || c == '\U{000B}' || c == '\U{000C}' || c == '\U{FEFF}'
    || c == ' ' || c == '\U{00A0}' || c == '\U{1680}' || '\U{2000}' <= c <= '\U{200A}'
    || c == '\U{202F}' || c == '\U{205F}' || c == '\U{3000}'
    || c == '\n' || c == '\r' || c == '\U{2028}' || c == '\U{2029}'
  }

  predicate IsHexDigit(c: char) { IsDigit(c) || 'a' <= c <= 'f' || 'A' <= c <= 'F' }

  function HexDigitValue(c: char): (d: nat)
    requires IsHexDigit(c)
    ensures d < 16
  {
    if IsDigit(c) then DigitValue(c)
    else if 'a' <= c <= 'f' then (c as int - 'a' as int + 10) as nat
    else (c as int - 'A' as int + 10) as nat
  }

  function DigitValue(c: char): nat
    requires IsDigit(c)
  {
    (c as int - '0' as int) as nat
  }

  function DigitChar(d: nat): (c: char)
    requires d < 10
    ensures IsDigit(c) && DigitValue(c) == d
  {
    (d + '0' as int) as char
  }

  // ---------------------------------------------------------------- rendering

  /** `${n}` for a non-negative integer: its decimal digits, without leading zeros. */
  function NatToString(n: nat): string
  {
    if n < 10 then [DigitChar(n)] else NatToString(n / 10) + [DigitChar(n % 10)]
  }

  predicate AllDigits(s: string) {
    forall i :: 0 <= i < |s| ==> IsDigit(s[i])
  }

  /** The value of a string of decimal digits, read most significant first. */
  function DigitsValue(s: string): nat
    requires AllDigits(s)
  {
    if s == [] then 0 else DigitsValue(s[..|s| - 1]) * 10 + DigitValue(s[|s| - 1])
  }

  lemma {:induction false} NatToStringDigits(n: nat)
    ensures |NatToString(n)| > 0 && AllDigits(NatToString(n))
    ensures DigitsValue(NatToString(n)) == n
  {
    if n >= 10 {
      NatToStringDigits(n / 10);
      var s := NatToString(n);
      assert s[..|s| - 1] == NatToString(n / 10);
    }
  }

  /** Distinct numbers render as distinct strings. */
  lemma NatToStringInjective(m: nat, n: nat)
    requires NatToString(m) == NatToString(n)
    ensures m == n
  {
    NatToStringDigits(m);
    NatToStringDigits(n);
  }

  /** `prefix${m}` and `prefix${n}` differ whenever `m` and `n` do. */
  lemma PrefixedNatInjective(prefix: string, m: nat, n: nat)
    requires prefix + NatToString(m) == prefix + NatToString(n)
    ensures m == n
  {
    var a, b := prefix + NatToString(m), prefix + NatToString(n);
    assert a[|prefix|..] == NatToString(m);
    assert b[|prefix|..] == NatToString(n);
    NatToStringInjective(m, n);
  }

  // ---------------------------------------------------------------- case and search

  function ToLowerChar(c: char): char {
    if 'A' <= c <= 'Z' then (c as int + 32) as char else c
  }

  /** `s.toLowerCase()` on ASCII letters; every other character is kept. */
  function ToLower(s: string): (r: string)
    ensures |r| == |s|
    ensures forall i :: 0 <= i < |s| ==> r[i] == ToLowerChar(s[i])
  {
    if s == [] then [] else [ToLowerChar(s[0])] + ToLower(s[1..])
  }

  /** Lower-casing twice is lower-casing once. */
  lemma ToLowerIdempotent(s: string)
    ensures ToLower(ToLower(s)) == ToLower(s)
  {
    var once := ToLower(s);
    assert forall i :: 0 <= i < |s| ==> ToLowerChar(once[i]) == once[i];
  }

  /** `s.includes(t)`: `t` occurs in `s` as a contiguous block. */
  predicate Includes(s: string, t: string)
    decreases |s|
  {
    |t| <= |s| && (s[..|t|] == t || (s != [] && Includes(s[1..], t)))
  }

  /** `t` occurs in `s` starting at position `i`. */
  predicate OccursAt(s: string, t: string, i: int) {
    0 <= i <= |s| - |t| && s[i..i + |t|] == t
  }

  /** `Includes` holds exactly when `t` occurs at some position of `s`. */
  lemma {:induction false} IncludesAt(s: string, t: string)
    ensures Includes(s, t) <==> exists i :: OccursAt(s, t, i)
    decreases |s|
  {
    if |t| <= |s| && s != [] {
      IncludesAt(s[1..], t);
      if s[..|t|] == t {
        assert OccursAt(s, t, 0);
      }
      if Includes(s[1..], t) {
        var i :| OccursAt(s[1..], t, i);
        assert s[i + 1..i + 1 + |t|] == s[1..][i..i + |t|];
        assert OccursAt(s, t, i + 1);
      }
      if exists i :: OccursAt(s, t, i) {
        var i :| OccursAt(s, t, i);
        if i > 0 {
          assert s[1..][i - 1..i - 1 + |t|] == s[i..i + |t|];
          assert OccursAt(s[1..], t, i - 1);
        } else {
          assert s[..|t|] == t;
        }
      }
    } else if |t| <= |s| {
      assert OccursAt(s, t, 0);
    } else {
      assert forall i :: !OccursAt(s, t, i);
    }
  }

  /** A string includes every block it is assembled from. */
  lemma IncludesMiddle(a: string, t: string, b: string)
    ensures Includes(a + t + b, t)
  {
    var s := a + t + b;
    assert s[|a|..|a| + |t|] == t;
    assert OccursAt(s, t, |a|);
    IncludesAt(s, t);
  }

  // ---------------------------------------------------------------- split

  /** `s.split(sep)` for a one-character separator: the pieces between separators. */
  function Split(s: string, sep: char): (pieces: seq<string>)
    ensures |pieces| >= 1
  {
    if s == [] then [""]
    else
      var rest := Split(s[1..], sep);
      if s[0] == sep then [""] + rest else [[s[0]] + rest[0]] + rest[1..]
  }

  /** `pieces.join(sep)`. */
  function Join(pieces: seq<string>, sep: char): string
    requires |pieces| >= 1
  {
    if |pieces| == 1 then pieces[0] else pieces[0] + [sep] + Join(pieces[1..], sep)
  }

  /** Joining the pieces again gives back the split string, and no piece holds the separator. */
  lemma {:induction false} SplitJoin(s: string, sep: char)
    ensures Join(Split(s, sep), sep) == s
    ensures forall k :: 0 <= k < |Split(s, sep)| ==> sep !in Split(s, sep)[k]
  {
    if s != [] {
      SplitJoin(s[1..], sep);
      var rest := Split(s[1..], sep);
      if s[0] != sep {
        var ps := Split(s, sep);
        assert ps[1..] == rest[1..];
        if |rest| == 1 {
          assert Join(ps, sep) == [s[0]] + rest[0];
        } else {
          assert Join(ps, sep) == [s[0]] + rest[0] + [sep] + Join(rest[1..], sep);
        }
        assert s == [s[0]] + s[1..];
      }
    }
  }

  /** A string without the separator splits into itself alone. */
  lemma {:induction false} SplitWithoutSeparator(s: string, sep: char)
    requires sep !in s
    ensures Split(s, sep) == [s]
  {
    if s != [] {
      SplitWithoutSeparator(s[1..], sep);
      assert s == [s[0]] + s[1..];
    }
  }

  /** The first separator ends the first piece. */
  lemma {:induction false} SplitAtSeparator(a: string, b: string, sep: char)
    requires sep !in a
    ensures Split(a + [sep] + b, sep) == [a] + Split(b, sep)
  {
    var s := a + [sep] + b;
    if a == [] {
      assert s[1..] == b;
    } else {
      assert s[1..] == a[1..] + [sep] + b;
      SplitAtSeparator(a[1..], b, sep);
      assert a == [a[0]] + a[1..];
    }
  }

  // ---------------------------------------------------------------- numbers

  function TrimStart(s: string): (r: string)
    ensures |r| <= |s|
  {
    if s != [] && IsWhitespace(s[0]) then TrimStart(s[1..]) else s
  }

  function TrimEnd(s: string): (r: string)
    ensures |r| <= |s|
  {
    if s != [] && IsWhitespace(s[|s| - 1]) then TrimEnd(s[..|s| - 1]) else s
  }

  function LeadingDigits(s: string): (r: string)
    ensures AllDigits(r) && |r| <= |s| && r == s[..|r|]
  {
    if s != [] && IsDigit(s[0]) then [s[0]] + LeadingDigits(s[1..]) else []
  }

  predicate AllHexDigits(s: string) {
    forall i :: 0 <= i < |s| ==> IsHexDigit(s[i])
  }

  function LeadingHexDigits(s: string): (r: string)
    ensures AllHexDigits(r) && |r| <= |s| && r == s[..|r|]
  {
    if s != [] && IsHexDigit(s[0]) then [s[0]] + LeadingHexDigits(s[1..]) else []
  }

  /** The value of a string of hexadecimal digits, read most significant first. */
  function HexValue(s: string): nat
    requires AllHexDigits(s)
  {
    if s == [] then 0 else HexValue(s[..|s| - 1]) * 16 + HexDigitValue(s[|s| - 1])
  }

  /** The `0x` or `0X` prefix that switches `parseInt` without a radix to base 16. */
  predicate HexPrefixed(s: string) {
    |s| >= 2 && s[0] == '0' && (s[1] == 'x' || s[1] == 'X')
  }

  function Pow10(n: nat): (p: real)
    ensures p >= 1.0
  {
    if n == 0 then 1.0 else 10.0 * Pow10(n - 1)
  }

  /** The sign `parseInt`, `parseFloat` and `Number` accept in front of the digits, and what follows it. */
  function SignOf(s: string): (real, string)
  {
    if s != [] && s[0] == '-' then (-1.0, s[1..])
    else if s != [] && s[0] == '+' then (1.0, s[1..])
    else (1.0, s)
  }

  /**
   * The longest prefix of `s` of the form `digits [ '.' digits ]` holding at
   * least one digit: its value and its length; `None` when there is none.
   */
  function DecimalPrefix(s: string): Option<(real, nat)>
  {
    var whole := LeadingDigits(s);
    var after := s[|whole|..];
    var frac := if after != [] && after[0] == '.' then LeadingDigits(after[1..]) else "";
    var len := if after != [] && after[0] == '.' then |whole| + 1 + |frac| else |whole|;
    if |whole| + |frac| == 0 then None
    else Some((DigitsValue(whole) as real + DigitsValue(frac) as real / Pow10(|frac|), len))
  }

  /**
   * `parseInt(s)` without a radix: leading blanks, a sign, then as many
   * digits as there are, hexadecimal after a `0x` or `0X` prefix and decimal otherwise.
   */
  function ParseInt(s: string): Option<int>
  {
    var (sign, rest) := SignOf(TrimStart(s));
    if HexPrefixed(rest) then
      var digits := LeadingHexDigits(rest[2..]);
      if digits == "" then None
      else Some(if sign < 0.0 then -(HexValue(digits) as int) else HexValue(digits))
    else
      var digits := LeadingDigits(rest);
      if digits == "" then None
      else Some(if sign < 0.0 then -(DigitsValue(digits) as int) else DigitsValue(digits))
  }

  /** `parseFloat(s)`: leading blanks, a sign, then the longest decimal prefix. */
  function ParseFloat(s: string): Option<real>
  {
    var (sign, rest) := SignOf(TrimStart(s));
    match DecimalPrefix(rest)
    case None => None
    case Some((v, _)) => Some(sign * v)
  }

  /** `Number(s)`: blanks trimmed, the empty string is 0, otherwise the whole rest must be one signed decimal. */
  function ToNumber(s: string): Option<real>
  {
    var t := TrimEnd(TrimStart(s));
    if t == "" then Some(0.0)
    else
      var (sign, rest) := SignOf(t);
      match DecimalPrefix(rest)
      case None => None
      case Some((v, len)) => if len == |rest| then Some(sign * v) else None
  }

  lemma {:induction false} LeadingDigitsOfDigits(s: string)
    requires AllDigits(s)
    ensures LeadingDigits(s) == s
  {
    if s != [] {
      LeadingDigitsOfDigits(s[1..]);
    }
  }

  /** Rendering a number and reading it back with `parseInt` gives the number. */
  lemma ParseIntOfNatToString(n: nat)
    ensures ParseInt(NatToString(n)) == Some(n)
  {
    var s := NatToString(n);
    NatToStringDigits(n);
    LeadingDigitsOfDigits(s);
    assert !IsWhitespace(s[0]) && s[0] != '-' && s[0] != '+';
    assert !HexPrefixed(s) by {
      if |s| >= 2 {
        assert IsDigit(s[1]);
      }
    }
  }

  /** A `0x` prefix reads the digits after it in base 16: `0x` and two hexadecimal digits is their base-16 value. */
  lemma ParseIntHex(hi: char, lo: char)
    requires IsHexDigit(hi) && IsHexDigit(lo)
    ensures ParseInt("0x" + [hi, lo]) == Some(HexDigitValue(hi) * 16 + HexDigitValue(lo))
  {
    var s := "0x" + [hi, lo];
    assert TrimStart(s) == s && SignOf(s) == (1.0, s);
    assert HexPrefixed(s) && s[2..] == [hi, lo];
    assert LeadingHexDigits([hi, lo]) == [hi, lo] by {
      assert [hi, lo][1..] == [lo] && [lo][1..] == [];
    }
    assert HexValue([hi, lo]) == HexDigitValue(hi) * 16 + HexDigitValue(lo) by {
      assert [hi, lo][..1] == [hi] && [hi][..0] == [];
      assert HexValue([hi]) == HexDigitValue(hi);
      assert HexValue([hi, lo]) == HexValue([hi]) * 16 + HexDigitValue(lo);
    }
  }

  /** A `0x` prefix with no hexadecimal digit after it is NaN. */
  lemma ParseIntBareHexPrefix()
    ensures ParseInt("0x") == None && ParseInt("0xg") == None
  {
    assert TrimStart("0x") == "0x" && SignOf("0x") == (1.0, "0x");
    assert TrimStart("0xg") == "0xg" && SignOf("0xg") == (1.0, "0xg");
    assert "0x"[2..] == "" && "0xg"[2..] == "g";
  }

  /** A no-break space counts as a leading blank. */
  lemma ParseIntNoBreakSpace()
    ensures ParseInt("\U{00A0}42") == Some(42)
  {
    var s := "\U{00A0}42";
    assert s[1..] == "42";
    assert TrimStart(s) == "42" && SignOf("42") == (1.0, "42");
    assert !HexPrefixed("42");
    assert LeadingDigits("42") == "42" by {
      assert LeadingDigits("2") == "2";
    }
    assert DigitsValue("42") == 42 by {
      assert "42"[..1] == "4" && "4"[..0] == "";
    }
  }

  lemma ToNumberOfNatToString(n: nat)
    ensures ToNumber(NatToString(n)) == Some(n as real)
  {
    var s := NatToString(n);
    NatToStringDigits(n);
    assert !IsWhitespace(s[0]) && !IsWhitespace(s[|s| - 1]) && s[0] != '-' && s[0] != '+';
    assert TrimEnd(TrimStart(s)) == s && SignOf(s) == (1.0, s);
    DecimalPrefixOfDigits(s);
  }

  /** A non-empty run of digits is its own decimal prefix, with no fraction. */
  lemma DecimalPrefixOfDigits(s: string)
    requires |s| > 0 && AllDigits(s)
    ensures DecimalPrefix(s) == Some((DigitsValue(s) as real, |s|))
  {
    LeadingDigitsOfDigits(s);
    assert s[|s|..] == "";
  }

  /** `Number` reads the empty string as 0, where `parseInt` and `parseFloat` answer NaN. */
  lemma EmptyStringNumbers()
    ensures ToNumber("") == Some(0.0)
    ensures ParseInt("") == None && ParseFloat("") == None
  {
  }
}

/** The JavaScript string and number primitives the portal's code relies on:
    the regular-expression filters on phone numbers, `includes`, `trim`,
    `parseInt(_, 10)` and `String(n)`. */
module Common {

  datatype Option<+T> = None | Some(value: T)

  /** The JSON reply of a route: `{ success: true, ... }` carrying a payload,
      or `{ success: false, message }` sent with an HTTP status code. */
  datatype Reply<+T> = Ok(value: T) | Fail(code: int, message: string)

  /** A JavaScript number as the code sees it: an integer or NaN. */
  datatype JsNumber = Int(n: int) | NaN

  /** An identifier field of a JSON body: absent (or null), a number, or a string. */
  datatype JsonId = Absent | Number(n: int) | Text(s: string)
  {
    /** JavaScript truthiness: absent, `0` and `""` are falsy. */
    predicate Truthy()
    {
      match this
      case Absent => false
      case Number(n) => n != 0
      case Text(s) => s != ""
    }
  }

  // ---------------------------------------------------------------------
  // Characters

  predicate IsDigit(c: char) { '0' <= c <= '9' }

  /** The character class `[0-9+]`. */
  predicate IsPhoneChar(c: char) { IsDigit(c) || c == '+' }

  /** The characters JavaScript's `trim` and `parseInt` skip: white space
      and line terminators. */
  predicate IsJsSpace(c: char)
  {
    c == ' ' || c == '\t' || c == '\n' || c == '\r' || c == '\U{B}' || c == '\U{C}'
    || c == '\U{A0}' || c == '\U{FEFF}' || c == '\U{1680}'
    || ('\U{2000}' <= c <= '\U{200A}')
    || c == '\U{2028}' || c == '\U{2029}' || c == '\U{202F}' || c == '\U{205F}' || c == '\U{3000}'
  }

  // ---------------------------------------------------------------------
  // Regular-expression filters

  /** `s.replace(/\D/g, "")`: the digits of `s`, in order. */
  function DigitsOf(s: string): (r: string)
    ensures |r| <= |s|
    ensures forall i :: 0 <= i < |r| ==> IsDigit(r[i])
    ensures (forall i :: 0 <= i < |s| ==> IsDigit(s[i])) ==> r == s
  {
    if s == [] then []
    else (if IsDigit(s[0]) then [s[0]] else []) + DigitsOf(s[1..])
  }

  /** `s.replace(/[^0-9+]/g, "")`: the digits and plus signs of `s`, in order. */
  function KeepPhoneChars(s: string): (r: string)
    ensures |r| <= |s|
    ensures forall i :: 0 <= i < |r| ==> IsPhoneChar(r[i])
    ensures r == s <==> forall i :: 0 <= i < |s| ==> IsPhoneChar(s[i])
  {
    if s == [] then []
    else
      (if IsPhoneChar(s[0]) then [s[0]] else []) + KeepPhoneChars(s[1..])
  }

  /** Removing the non-phone characters removes no digit. */
  lemma {:induction false} DigitsOfKeepPhoneChars(s: string)
    ensures DigitsOf(KeepPhoneChars(s)) == DigitsOf(s)
  {
    if s != [] {
      DigitsOfKeepPhoneChars(s[1..]);
      var k := KeepPhoneChars(s);
      if IsPhoneChar(s[0]) {
        assert k == [s[0]] + KeepPhoneChars(s[1..]);
        assert k[0] == s[0] && k[1..] == KeepPhoneChars(s[1..]);
        assert DigitsOf(k) == (if IsDigit(s[0]) then [s[0]] else []) + DigitsOf(k[1..]);
      } else {
        assert k == KeepPhoneChars(s[1..]);
      }
    }
  }

  /** The phone filter is idempotent. */
  lemma KeepPhoneCharsIdempotent(s: string)
    ensures KeepPhoneChars(KeepPhoneChars(s)) == KeepPhoneChars(s)
  {
  }

  // ---------------------------------------------------------------------
  // Substrings and blank strings

  predicate StartsWith(s: string, p: string) { |p| <= |s| && s[..|p|] == p }

  /** `p` occurs in `s` at index `i`. */
  predicate OccursAt(s: string, p: string, i: int)
  {
    0 <= i <= |s| - |p| && s[i..i + |p|] == p
  }

  /** `s.includes(p)`: the empty string is in every string, a string is in
      whatever starts with it, and nothing is in a shorter string. */
  predicate Contains(s: string, p: string): (r: bool)
    ensures p == [] ==> r
    ensures StartsWith(s, p) ==> r
    ensures r ==> |p| <= |s|
  {
    assert StartsWith(s, p) ==> OccursAt(s, p, 0);
    exists i :: 0 <= i <= |s| - |p| && OccursAt(s, p, i)
  }

  /** Whoever contains a string contains each of its prefixes. */
  lemma ContainsPrefix(s: string, p: string, q: string)
    requires Contains(s, p) && StartsWith(p, q)
    ensures Contains(s, q)
  {
    var i :| 0 <= i <= |s| - |p| && OccursAt(s, p, i);
    assert s[i..i + |q|] == p[..|q|];
    assert OccursAt(s, q, i);
  }

  /** Joining sequences is associative. */
  lemma AppendAssociative<T>(x: seq<T>, y: seq<T>, z: seq<T>)
    ensures x + (y + z) == (x + y) + z
  {
  }

  /** The head and the tail of a non-empty concatenation. */
  lemma AppendSplit<T>(x: seq<T>, y: seq<T>)
    requires x != []
    ensures (x + y)[0] == x[0] && (x + y)[1..] == x[1..] + y
  {
  }

  /** `!s.trim()`: the string is white space only, so that nothing is left
      once the leading white space is skipped. */
  predicate IsBlank(s: string): (r: bool)
    ensures r <==> TrimStart(s) == []
  {
    TrimStartEmpty(s);
    forall i :: 0 <= i < |s| ==> IsJsSpace(s[i])
  }

  // ---------------------------------------------------------------------
  // Numbers and their decimal form

  function DigitChar(d: nat): char
    requires d < 10
  {
    "0123456789"[d]
  }

  function DigitValue(c: char): nat
    requires IsDigit(c)
  {
    (c as int) - ('0' as int)
  }

  /** `String(n)` for a natural number: its shortest decimal form. */
  function DecimalString(n: nat): (r: string)
    ensures |r| > 0
    ensures forall i :: 0 <= i < |r| ==> IsDigit(r[i])
    ensures n < 10 <==> |r| == 1
    ensures n < 100 <==> |r| <= 2
    decreases n
  {
    if n < 10 then [DigitChar(n)] else DecimalString(n / 10) + [DigitChar(n % 10)]
  }

  /** `String(i)` for any integer: a minus sign exactly for a negative
      number, then decimal digits. */
  function IntString(i: int): (r: string)
    ensures |r| > 0 && (r[0] == '-' <==> i < 0)
    ensures forall k :: (if i < 0 then 1 else 0) <= k < |r| ==> IsDigit(r[k])
  {
    if i < 0 then "-" + DecimalString(-i) else DecimalString(i)
  }

  /** The value of a string of decimal digits, most significant first. */
  function DigitsValue(z: string): nat
    requires forall i :: 0 <= i < |z| ==> IsDigit(z[i])
  {
    if z == [] then 0 else DigitsValue(z[..|z| - 1]) * 10 + DigitValue(z[|z| - 1])
  }

  /** The longest prefix of `s` made of decimal digits. */
  function DigitPrefix(s: string): (z: string)
    ensures StartsWith(s, z)
    ensures forall i :: 0 <= i < |z| ==> IsDigit(z[i])
    ensures |z| < |s| ==> !IsDigit(s[|z|])
  {
    if s == [] || !IsDigit(s[0]) then [] else [s[0]] + DigitPrefix(s[1..])
  }

  /** `s` without its leading white space. */
  function TrimStart(s: string): string
  {
    if s != [] && IsJsSpace(s[0]) then TrimStart(s[1..]) else s
  }

  /** Skipping leading white space leaves nothing exactly when there was
      nothing but white space. */
  lemma {:induction false} TrimStartEmpty(s: string)
    ensures TrimStart(s) == [] <==> forall i :: 0 <= i < |s| ==> IsJsSpace(s[i])
  {
    if s != [] && IsJsSpace(s[0]) {
      TrimStartEmpty(s[1..]);
      assert forall i :: 1 <= i < |s| ==> s[i] == s[1..][i - 1];
    }
  }

  /** Skipping leading white space leaves a suffix. */
  lemma {:induction false} TrimStartSuffix(s: string)
    ensures |TrimStart(s)| <= |s| && TrimStart(s) == s[|s| - |TrimStart(s)|..]
  {
    if s != [] && IsJsSpace(s[0]) {
      TrimStartSuffix(s[1..]);
    }
  }

  /** The number the longest run of leading digits of `u` spells; NaN when
      `u` does not start with a digit. */
  function LeadingNumber(u: string): JsNumber
  {
    var z := DigitPrefix(u);
    if z == [] then NaN else Int(DigitsValue(z))
  }

  function Negate(x: JsNumber): JsNumber
  {
    match x
    case NaN => NaN
    case Int(v) => Int(-v)
  }

  /** `parseInt(s, 10)`: skip leading white space, read an optional sign and
      the longest run of digits after it; NaN when there is no digit. */
  function ParseInt(s: string): JsNumber
  {
    var t := TrimStart(s);
    if t != [] && t[0] == '-' then Negate(LeadingNumber(t[1..]))
    else if t != [] && t[0] == '+' then LeadingNumber(t[1..])
    else LeadingNumber(t)
  }

  lemma {:induction false} DigitsValueOfDecimal(n: nat)
    ensures DigitsValue(DecimalString(n)) == n
    decreases n
  {
    if n >= 10 {
      DigitsValueOfDecimal(n / 10);
      var r := DecimalString(n);
      assert r[..|r| - 1] == DecimalString(n / 10);
    }
  }

  lemma {:induction false} DigitPrefixOfDigits(z: string)
    requires forall i :: 0 <= i < |z| ==> IsDigit(z[i])
    ensures DigitPrefix(z) == z
  {
    if z != [] {
      DigitPrefixOfDigits(z[1..]);
    }
  }

  /** A string of digits spells its value. */
  lemma LeadingNumberOfDigits(d: string)
    requires d != []
    requires forall i :: 0 <= i < |d| ==> IsDigit(d[i])
    ensures LeadingNumber(d) == Int(DigitsValue(d))
  {
    DigitPrefixOfDigits(d);
  }

  lemma TrimStartNoSpace(s: string)
    requires s != [] && !IsJsSpace(s[0])
    ensures TrimStart(s) == s
  {
  }

  /** `parseInt` reads a string of digits as its value. */
  lemma ParseIntOfDigits(d: string)
    requires d != []
    requires forall i :: 0 <= i < |d| ==> IsDigit(d[i])
    ensures ParseInt(d) == Int(DigitsValue(d))
  {
    assert IsDigit(d[0]);
    TrimStartNoSpace(d);
    LeadingNumberOfDigits(d);
    assert ParseInt(d) == LeadingNumber(d);
  }

  /** `parseInt` reads a minus sign followed by digits as the negated value. */
  lemma ParseIntMinusSign(d: string)
    ensures ParseInt("-" + d) == Negate(LeadingNumber(d))
  {
    var s := "-" + d;
    assert s[0] == '-' && s[1..] == d;
    TrimStartNoSpace(s);
  }

  /** The decimal text of a number is read back as that number. */
  lemma LeadingNumberOfDecimal(n: nat)
    ensures LeadingNumber(DecimalString(n)) == Int(n)
  {
    DigitsValueOfDecimal(n);
    LeadingNumberOfDigits(DecimalString(n));
  }

  /** A text that does not start with a digit spells no number. */
  lemma LeadingNumberNoDigit(u: string)
    requires u == [] || !IsDigit(u[0])
    ensures LeadingNumber(u) == NaN
  {
  }

  /** `parseInt` of a text with no digit at all is NaN. */
  lemma ParseIntNoDigit(s: string)
    requires forall i :: 0 <= i < |s| ==> !IsDigit(s[i])
    ensures ParseInt(s) == NaN
  {
    TrimStartSuffix(s);
    var t := TrimStart(s);
    var k := |s| - |t|;
    if t == [] {
      LeadingNumberNoDigit(t);
    } else {
      assert t[0] == s[k];
      LeadingNumberNoDigit(t);
      if |t| > 1 {
        assert t[1..][0] == s[k + 1];
      }
      LeadingNumberNoDigit(t[1..]);
    }
  }

  /** Writing an integer with `String` and reading it back with `parseInt`
      gives the integer again: what the browser stores under `applicantId`
      is read back unchanged. */
  lemma ParseIntRoundTrip(i: int)
    ensures ParseInt(IntString(i)) == Int(i)
  {
    if i < 0 {
      NegativeRoundTrip(-i);
    } else {
      DigitsValueOfDecimal(i);
      ParseIntOfDigits(DecimalString(i));
    }
  }

  lemma NegativeRoundTrip(n: nat)
    requires n > 0
    ensures ParseInt("-" + DecimalString(n)) == Int(0 - n as int)
  {
    LeadingNumberOfDecimal(n);
    ParseIntMinusSign(DecimalString(n));
  }
}

/** The small part of JavaScript's semantics that the relay and the page rely on:
    optional values, truthiness of optional strings and numbers, the `a || b || c`
    fallback chain, `String.prototype.trim`, and the decimal rendering of an integer
    inside a template literal. */
module Js {

  /** A value that may be `undefined` (or `null`). */
  datatype Option<+T> = None | Some(value: T)

  /** JavaScript truthiness of an optional string: absent and `""` are both falsy. */
  predicate Truthy(o: Option<string>) {
    o.Some? && o.value != ""
  }

  /** JavaScript truthiness of an optional number: absent and `0` are both falsy. */
  predicate NumberTruthy(o: Option<int>) {
    o.Some? && o.value != 0
  }

  /** `c[0] || c[1] || ... || fallback`: the first truthy candidate, else the fallback. */
  function FirstTruthy(c: seq<Option<string>>, fallback: string): (r: string)
    ensures (forall i | 0 <= i < |c| :: !Truthy(c[i])) ==> r == fallback
    ensures forall i | 0 <= i < |c| && Truthy(c[i]) ::
              (forall j | 0 <= j < i :: !Truthy(c[j])) ==> r == c[i].value
    ensures fallback != "" ==> r != ""
  {
    if c == [] then fallback
    else if Truthy(c[0]) then c[0].value
    else
      var r := FirstTruthy(c[1..], fallback);
      assert forall i | 1 <= i < |c| :: c[i] == c[1..][i - 1];
      r
  }

  // ---------------------------------------------------------------------------
  // String.prototype.trim

  /** The characters ECMAScript counts as WhiteSpace or LineTerminator. */
  predicate IsJsWhitespace(c: char) {
    || c == '\t' || c == '\n' || c == '\U{000B}' || c == '\U{000C}' || c == '\r' || c == ' '
    || c == '\U{00A0}' || c == '\U{1680}' || ('\U{2000}' <= c <= '\U{200A}')
    || c == '\U{2028}' || c == '\U{2029}' || c == '\U{202F}' || c == '\U{205F}'
    || c == '\U{3000}' || c == '\U{FEFF}'
  }

  predicate AllWhitespace(s: string) {
    forall i | 0 <= i < |s| :: IsJsWhitespace(s[i])
  }

  /** `s` with its leading whitespace removed. */
  function TrimStart(s: string): (r: string)
    ensures |r| <= |s| && r == s[|s| - |r|..]
    ensures AllWhitespace(s[..|s| - |r|])
    ensures r == [] || !IsJsWhitespace(r[0])
  {
    if s == [] || !IsJsWhitespace(s[0]) then s else TrimStart(s[1..])
  }

  /** `s` with its trailing whitespace removed. */
  function TrimEnd(s: string): (r: string)
    ensures |r| <= |s| && r == s[..|r|]
    ensures AllWhitespace(s[|r|..])
    ensures r == [] || !IsJsWhitespace(r[|r| - 1])
  {
    if s == [] || !IsJsWhitespace(s[|s| - 1]) then s else TrimEnd(s[..|s| - 1])
  }

  /** `s` is `r` preceded by `lead` whitespace characters and followed by whitespace only. */
  predicate IsPadding(s: string, lead: nat, r: string)
    requires lead + |r| <= |s|
  {
    s[lead..lead + |r|] == r && AllWhitespace(s[..lead]) && AllWhitespace(s[lead + |r|..])
  }

  /** If `t` is `s` without a whitespace lead, and `r` is `t` without a whitespace tail,
      then `r` is `s` padded by that lead and that tail. */
  lemma PaddingOf(s: string, t: string, r: string)
    requires |t| <= |s| && t == s[|s| - |t|..] && AllWhitespace(s[..|s| - |t|])
    requires |r| <= |t| && r == t[..|r|] && AllWhitespace(t[|r|..])
    ensures |s| - |t| + |r| <= |s| && IsPadding(s, |s| - |t|, r)
  {
    assert s[|s| - |t| + |r|..] == t[|r|..];
  }

  /** Stripping leading, then trailing whitespace leaves the piece of `s` that follows
      the stripped lead, with only whitespace after it. */
  lemma StrippedIsPadding(s: string)
    ensures |s| - |TrimStart(s)| + |TrimEnd(TrimStart(s))| <= |s|
    ensures IsPadding(s, |s| - |TrimStart(s)|, TrimEnd(TrimStart(s)))
  {
    PaddingOf(s, TrimStart(s), TrimEnd(TrimStart(s)));
  }

  /** `s.trim()`: what remains of `s` once whitespace is stripped from both ends. */
  function Trim(s: string): (r: string)
    ensures r == [] || (!IsJsWhitespace(r[0]) && !IsJsWhitespace(r[|r| - 1]))
    ensures exists lead | 0 <= lead <= |s| - |r| :: IsPadding(s, lead, r)
  {
    StrippedIsPadding(s);
    var lead := |s| - |TrimStart(s)|;
    assert IsPadding(s, lead, TrimEnd(TrimStart(s)));
    TrimEnd(TrimStart(s))
  }

  lemma {:induction false} TrimStartOfPadded(pad: string, t: string)
    requires AllWhitespace(pad)
    requires t == [] || !IsJsWhitespace(t[0])
    ensures TrimStart(pad + t) == t
  {
    if pad != [] {
      assert (pad + t)[1..] == pad[1..] + t;
      TrimStartOfPadded(pad[1..], t);
    }
  }

  lemma {:induction false} TrimEndOfPadded(t: string, pad: string)
    requires AllWhitespace(pad)
    requires t == [] || !IsJsWhitespace(t[|t| - 1])
    ensures TrimEnd(t + pad) == t
  {
    if pad != [] {
      assert (t + pad)[..|t + pad| - 1] == t + pad[..|pad| - 1];
      TrimEndOfPadded(t, pad[..|pad| - 1]);
    }
  }

  /** Trimming removes exactly the surrounding whitespace: a text with no whitespace at
      either end comes back unchanged from any padding. */
  lemma {:induction false} TrimOfPadded(before: string, t: string, after: string)
    requires AllWhitespace(before) && AllWhitespace(after)
    requires t == [] || (!IsJsWhitespace(t[0]) && !IsJsWhitespace(t[|t| - 1]))
    ensures Trim(before + t + after) == t
  {
    if t == [] {
      assert before + t + after == before + after;
      assert AllWhitespace(before + after);
      TrimStartOfPadded(before + after, []);
      assert before + after + [] == before + after;
      TrimEndOfPadded([], []);
    } else {
      assert before + t + after == before + (t + after);
      TrimStartOfPadded(before, t + after);
      TrimEndOfPadded(t, after);
    }
  }

  /** Trimming twice is trimming once. */
  lemma {:induction false} TrimIdempotent(s: string)
    ensures Trim(Trim(s)) == Trim(s)
  {
    var r := Trim(s);
    assert TrimStart(r) == r;
    assert TrimEnd(r) == r;
  }

  // ---------------------------------------------------------------------------
  // Decimal rendering of an integer, as `${n}` produces it

  function DigitChar(d: nat): (c: char)
    requires d < 10
    ensures IsDigit(c) && c as int - '0' as int == d
  {
    ('0' as int + d) as char
  }

  predicate IsDigit(c: char) {
    '0' <= c <= '9'
  }

  /** The decimal digits of `n`, most significant first, without leading zeros. */
  function NaturalText(n: nat): (s: string)
    ensures |s| > 0 && IsDigit(s[0])
    ensures |s| > 1 ==> s[0] != '0'
  {
    if n < 10 then [DigitChar(n)] else NaturalText(n / 10) + [DigitChar(n % 10)]
  }

  /** The integers a JavaScript Number holds exactly: magnitude at most 2^53 - 1. Beyond
      them `${n}` prints the shortest digits that identify the nearest Number. */
  type SafeInteger = n: int | -9007199254740991 <= n <= 9007199254740991

  /** The decimal text of `n`: its digits, with a leading `-` when negative. For a
      `SafeInteger` this is what `${n}` produces. */
  function Decimal(n: int): (s: string)
    ensures |s| > 0
    ensures s[0] == '-' <==> n < 0
  {
    if n < 0 then "-" + NaturalText(-n) else NaturalText(n)
  }

  /** The value of a string of decimal digits. */
  function DigitsValue(s: string): int {
    if s == [] then 0 else DigitsValue(s[..|s| - 1]) * 10 + (s[|s| - 1] as int - '0' as int)
  }

  lemma {:induction false} NaturalTextRoundTrip(n: nat)
    ensures DigitsValue(NaturalText(n)) == n
  {
    if n >= 10 {
      var s := NaturalText(n);
      assert s[..|s| - 1] == NaturalText(n / 10);
      NaturalTextRoundTrip(n / 10);
    }
  }

  lemma {:induction false} NaturalTextInjective(m: nat, n: nat)
    requires NaturalText(m) == NaturalText(n)
    ensures m == n
  {
    NaturalTextRoundTrip(m);
    NaturalTextRoundTrip(n);
  }

  /** Distinct integers render as distinct texts. */
  lemma {:induction false} DecimalInjective(a: int, b: int)
    requires Decimal(a) == Decimal(b)
    ensures a == b
  {
    assert (a < 0) == (b < 0);
    if a < 0 {
      var x, y := NaturalText(-a), NaturalText(-b);
      assert x == ("-" + x)[1..] == ("-" + y)[1..] == y;
      NaturalTextInjective(-a, -b);
    } else {
      NaturalTextInjective(a, b);
    }
  }
}

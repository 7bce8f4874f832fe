/** String helpers of the deploy script: lower-casing, secret redaction, URL joining. */
module Text {

  /** ASCII lower-casing of one character. */
  function LowerChar(c: char): char {
    if 'A' <= c <= 'Z' then (c as int + 32) as char else c
  }

  /** `str.lower()`, restricted to ASCII letters. */
  function Lower(s: string): (r: string)
    ensures |r| == |s|
    ensures forall i :: 0 <= i < |s| ==> r[i] == LowerChar(s[i])
  {
    seq(|s|, i requires 0 <= i < |s| => LowerChar(s[i]))
  }

  /** Lower-casing twice is lower-casing once. */
  lemma LowerIdempotent(s: string)
    ensures Lower(Lower(s)) == Lower(s)
  {
  }

  /**
   * `_redact`: the empty string stays empty, a short secret becomes four stars, and a longer
   * one keeps only its first four and last four characters around four stars.
   */
  function Redact(s: string): (r: string)
    ensures s == "" ==> r == ""
    ensures 0 < |s| <= 8 ==> r == "****"
    ensures |s| > 8 ==> |r| == 12 && r[..4] == s[..4] && r[4..8] == "****" && r[8..] == s[|s| - 4..]
  {
    if s == "" then s
    else if |s| <= 8 then "****"
    else s[..4] + "****" + s[|s| - 4..]
  }

  /**
   * The redacted form never depends on the middle of the secret: two secrets of the same
   * length that agree on their first four and last four characters redact identically.
   */
  lemma {:induction false} RedactIgnoresMiddle(s: string, t: string)
    requires |s| == |t|
    requires forall i :: 0 <= i < |s| && (i < 4 || i >= |s| - 4) ==> s[i] == t[i]
    ensures Redact(s) == Redact(t)
  {
    if |s| > 8 {
      assert s[..4] == t[..4];
      assert s[|s| - 4..] == t[|t| - 4..];
    }
  }

  /** `s.rstrip("/")`: drops every trailing slash and nothing else. */
  function StripTrailingSlashes(s: string): (r: string)
    ensures r <= s
    ensures r == [] || r[|r| - 1] != '/'
    ensures forall i :: |r| <= i < |s| ==> s[i] == '/'
  {
    if s != [] && s[|s| - 1] == '/' then StripTrailingSlashes(s[..|s| - 1]) else s
  }

  const JOB_ID_FIELD: string := "{jobId}"

  /** Whether `t` opens with the replacement field `{jobId}`. */
  predicate StartsWithField(t: string) {
    t != [] && t[0] == '{' && |t| >= |JOB_ID_FIELD| && t[..|JOB_ID_FIELD|] == JOB_ID_FIELD
  }

  /** `template.format(jobId=v)` for templates whose only replacement field is `{jobId}`. */
  function Fill(template: string, v: string): (r: string)
    ensures '{' !in template ==> r == template
    decreases |template|
  {
    if StartsWithField(template) then v + Fill(template[|JOB_ID_FIELD|..], v)
    else if template == [] then []
    else [template[0]] + Fill(template[1..], v)
  }

  /** Text before the first brace passes through `Fill` unchanged. */
  lemma {:induction false} FillLiteralPrefix(p: string, rest: string, v: string)
    requires '{' !in p
    ensures Fill(p + rest, v) == p + Fill(rest, v)
    decreases |p|
  {
    if p != [] {
      assert (p + rest)[0] == p[0];
      assert (p + rest)[1..] == p[1..] + rest;
      FillLiteralPrefix(p[1..], rest, v);
      assert [p[0]] + p[1..] == p;
    } else {
      assert p + rest == rest;
    }
  }

  /** The field alone is replaced by the value. */
  lemma FillField(v: string)
    ensures Fill(JOB_ID_FIELD, v) == v
  {
    assert StartsWithField(JOB_ID_FIELD);
    assert JOB_ID_FIELD[|JOB_ID_FIELD|..] == [];
  }

  const DEPLOYMENTS_PREFIX: string := "/deployments/"

  /** The default status path template, `/deployments/{jobId}`. */
  const DEFAULT_STATUS_PATH: string := DEPLOYMENTS_PREFIX + JOB_ID_FIELD

  /** A template that is literal text followed by the field becomes that text followed by the value. */
  lemma FillAfterLiteral(p: string, v: string)
    requires '{' !in p
    ensures Fill(p + JOB_ID_FIELD, v) == p + v
  {
    FillLiteralPrefix(p, JOB_ID_FIELD, v);
    FillField(v);
  }

  /** The default status path `/deployments/{jobId}` becomes `/deployments/<id>`. */
  lemma FillDefaultStatusPath(v: string)
    ensures Fill(DEFAULT_STATUS_PATH, v) == DEPLOYMENTS_PREFIX + v
  {
    FillAfterLiteral(DEPLOYMENTS_PREFIX, v);
  }

  function DigitChar(d: nat): char
    requires d < 10
  {
    (48 + d) as char
  }

  predicate AllDigits(s: string) {
    forall i :: 0 <= i < |s| ==> '0' <= s[i] <= '9'
  }

  /** Decimal digits as `str` prints a natural number: at least one, and no leading zero but in "0". */
  predicate CanonicalDigits(s: string) {
    s != [] && AllDigits(s) && (s[0] == '0' ==> s == "0")
  }

  /** `str` of an integer: canonical digits, after a minus sign exactly when the value is negative. */
  predicate CanonicalDecimal(s: string) {
    if s != [] && s[0] == '-' then CanonicalDigits(s[1..]) && s[1..] != "0" else CanonicalDigits(s)
  }

  /** The decimal digits of `n`, most significant first. */
  function Digits(n: nat): (r: string)
    ensures CanonicalDigits(r)
    ensures r == "0" <==> n == 0
    decreases n
  {
    if n < 10 then [DigitChar(n)] else Digits(n / 10) + [DigitChar(n % 10)]
  }

  /** `str(n)` for an integer. */
  function Decimal(n: int): (r: string)
    ensures CanonicalDecimal(r)
    ensures r != [] && (r[0] == '-' <==> n < 0)
  {
    if n < 0 then
      var d := Digits(-n);
      assert ("-" + d)[1..] == d;
      "-" + d
    else Digits(n)
  }

  /** The value of a string of decimal digits, most significant first. */
  function DigitsValue(s: string): int {
    if s == [] then 0 else 10 * DigitsValue(s[..|s| - 1]) + (s[|s| - 1] as int - 48)
  }

  /** `int(text)` for an optional minus sign followed by decimal digits. */
  function DecimalValue(s: string): int {
    if s != [] && s[0] == '-' then -DigitsValue(s[1..]) else DigitsValue(s)
  }

  /** The digits of `n` start with a digit and read back as `n`. */
  lemma {:induction false} DigitsRoundTrip(n: nat)
    ensures Digits(n) != [] && '0' <= Digits(n)[0] <= '9'
    ensures DigitsValue(Digits(n)) == n
    decreases n
  {
    if n >= 10 {
      DigitsRoundTrip(n / 10);
      var d := Digits(n / 10);
      assert (d + [DigitChar(n % 10)])[..|d|] == d;
    }
  }

  /** `int(str(n)) == n`: the decimal text of an integer reads back as that integer. */
  lemma DecimalRoundTrip(n: int)
    ensures DecimalValue(Decimal(n)) == n
  {
    if n < 0 {
      DigitsRoundTrip(-n);
      assert ("-" + Digits(-n))[1..] == Digits(-n);
    } else {
      DigitsRoundTrip(n);
    }
  }

  /** A digit string is worth at least 1 when it does not start with '0'. */
  lemma {:induction false} DigitsValuePositive(s: string)
    requires AllDigits(s)
    ensures DigitsValue(s) >= 0
    ensures s != [] && s[0] != '0' ==> DigitsValue(s) >= 1
    decreases |s|
  {
    if s != [] {
      DigitsValuePositive(s[..|s| - 1]);
    }
  }

  /** Canonical digits are the digits of their own value. */
  lemma {:induction false} CanonicalDigitsUnique(s: string)
    requires CanonicalDigits(s)
    ensures DigitsValue(s) >= 0 && s == Digits(DigitsValue(s))
    decreases |s|
  {
    DigitsValuePositive(s);
    if |s| >= 2 {
      var init := s[..|s| - 1];
      assert init[0] == s[0] != '0';
      CanonicalDigitsUnique(init);
      DigitsValuePositive(init);
      var v := DigitsValue(s);
      assert v / 10 == DigitsValue(init) && v % 10 == s[|s| - 1] as int - 48;
      assert s == init + [s[|s| - 1]];
    }
  }

  /**
   * `str(n)` is the only canonical decimal text that reads back as `n`: any canonical text is
   * `Decimal` of its own value.
   */
  lemma DecimalUnique(s: string)
    requires CanonicalDecimal(s)
    ensures s == Decimal(DecimalValue(s))
  {
    if s[0] == '-' {
      var d := s[1..];
      CanonicalDigitsUnique(d);
      DigitsValuePositive(d);
      assert s == "-" + d;
    } else {
      CanonicalDigitsUnique(s);
    }
  }
}

/** Decimal product identifiers: how a number is printed (`Number.prototype.toString`
    on a non-negative integer) and how the cart store reduces a local item id to the
    numeric product id it sends to the server (src/hooks/useCart.ts:203-217, repeated
    at 270-284 and 321-335). */
module ProductIds {

  predicate IsDigit(c: char) {
    '0' <= c <= '9'
  }

  /** The regular expression `/^\d+$/`: at least one character, all ASCII digits. */
  predicate AllDigits(s: string) {
    |s| > 0 && forall i :: 0 <= i < |s| ==> IsDigit(s[i])
  }

  /** The capture group of `/^(\d+)/`, or "" when the string does not start with a digit. */
  function LeadingDigits(s: string): (r: string)
    ensures |r| <= |s| && r == s[..|r|]
    ensures forall i :: 0 <= i < |r| ==> IsDigit(r[i])
    ensures |r| < |s| ==> !IsDigit(s[|r|])
  {
    if |s| > 0 && IsDigit(s[0]) then [s[0]] + LeadingDigits(s[1..]) else ""
  }

  /** Outcome of the normalisation: the id to send, or the "Invalid product ID format" error. */
  datatype Normalized = Numeric(id: string) | InvalidFormat

  /** An all-digit id is sent unchanged; otherwise its leading digit run, if it has one. */
  function NormalizeId(s: string): (r: Normalized)
    ensures r.Numeric? ==> AllDigits(r.id)
  {
    if AllDigits(s) then Numeric(s)
    else
      var lead := LeadingDigits(s);
      if lead != "" then Numeric(lead) else InvalidFormat
  }

  /** The three outcomes of NormalizeId, both directions. */
  lemma NormalizeIdSpec(s: string)
    ensures NormalizeId(s).Numeric? <==> |s| > 0 && IsDigit(s[0])
    ensures NormalizeId(s).Numeric? ==> AllDigits(NormalizeId(s).id) && NormalizeId(s).id == LeadingDigits(s)
    ensures NormalizeId(s).Numeric? ==> NormalizeId(s).id == s[..|NormalizeId(s).id|]
    ensures AllDigits(s) ==> NormalizeId(s) == Numeric(s)
  {
    if AllDigits(s) {
      AllDigitsLeading(s);
    }
  }

  /** On an all-digit string the leading run is the whole string. */
  lemma {:induction false} AllDigitsLeading(s: string)
    requires AllDigits(s)
    ensures LeadingDigits(s) == s
  {
    if |s| > 1 {
      assert AllDigits(s[1..]);
      AllDigitsLeading(s[1..]);
    }
  }

  /** Normalisation is idempotent: what it sends normalises to itself. */
  lemma NormalizeIdIdempotent(s: string)
    requires NormalizeId(s).Numeric?
    ensures NormalizeId(NormalizeId(s).id) == NormalizeId(s)
  {
    NormalizeIdSpec(s);
  }

  /** The examples of a composite id, a word and the empty id. */
  lemma NormalizeIdExamples()
    ensures NormalizeId("1-blackCherry") == Numeric("1")
    ensures NormalizeId("42") == Numeric("42")
    ensures NormalizeId("abc") == InvalidFormat
    ensures NormalizeId("") == InvalidFormat
  {
    assert !AllDigits("1-blackCherry") by { assert !IsDigit("1-blackCherry"[1]); }
    assert LeadingDigits("-blackCherry") == "";
    assert LeadingDigits("1-blackCherry") == "1";
    assert LeadingDigits("2") == "2";
    assert LeadingDigits("42") == "42";
    assert !AllDigits("abc") by { assert !IsDigit("abc"[0]); }
  }

  function DigitChar(d: nat): (c: char)
    requires d < 10
    ensures IsDigit(c)
  {
    ('0' as int + d) as char
  }

  function DigitValue(c: char): nat
    requires IsDigit(c)
  {
    (c as int - '0' as int) as nat
  }

  /** Decimal printing of a non-negative integer, as `n.toString()` and Python `str(n)` print it. */
  function NatToString(n: nat): (s: string)
    ensures AllDigits(s)
    ensures |s| == 1 <==> n < 10
    ensures s[|s| - 1] == DigitChar(n % 10)
  {
    if n < 10 then [DigitChar(n)] else NatToString(n / 10) + [DigitChar(n % 10)]
  }

  /** Printing is injective: distinct numbers print as distinct strings. */
  lemma {:induction false} NatToStringInjective(n: nat, m: nat)
    ensures NatToString(n) == NatToString(m) ==> n == m
  {
    if NatToString(n) != NatToString(m) {
      return;
    }
    var s, t := NatToString(n), NatToString(m);
    assert DigitValue(DigitChar(n % 10)) == n % 10;
    assert DigitValue(DigitChar(m % 10)) == m % 10;
    if n >= 10 {
      assert s[..|s| - 1] == NatToString(n / 10);
      assert t[..|t| - 1] == NatToString(m / 10);
      NatToStringInjective(n / 10, m / 10);
    }
  }

  /** A printed number is already normal: the store sends it unchanged. */
  lemma NormalizeNatToString(n: nat)
    ensures NormalizeId(NatToString(n)) == Numeric(NatToString(n))
  {
  }

  /** The number a digit string denotes, as the server's integer id lookup reads it. */
  function DigitsValue(s: string): nat
    requires forall i :: 0 <= i < |s| ==> IsDigit(s[i])
  {
    if |s| == 0 then 0 else DigitsValue(s[..|s| - 1]) * 10 + DigitValue(s[|s| - 1])
  }

  /** Reading back a printed number gives the number: the id the store sends names
      the product it came from. */
  lemma {:induction false} DigitsValueNatToString(n: nat)
    ensures DigitsValue(NatToString(n)) == n
  {
    if n >= 10 {
      var s := NatToString(n);
      assert s[..|s| - 1] == NatToString(n / 10);
      DigitsValueNatToString(n / 10);
    }
  }
}

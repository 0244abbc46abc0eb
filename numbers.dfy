/** Rust's `FromStr` for the two integer types the decoders read, `i64`
    and `u8`, and the canonical decimal rendering used to state round trips.
    Integers are unbounded here; the type's range is an explicit check. */
module Numbers {
  import opened Results

  const I64_MIN: int := -0x8000_0000_0000_0000
  const I64_MAX: int := 0x7FFF_FFFF_FFFF_FFFF
  const U8_MAX: int := 255

  /** The values of a Rust `u8`. */
  type Byte = n: int | 0 <= n <= U8_MAX

  predicate IsDigit(c: char)
  {
    '0' <= c <= '9'
  }

  predicate AllDigits(s: string)
  {
    forall i :: 0 <= i < |s| ==> IsDigit(s[i])
  }

  /** The value of a string of decimal digits, most significant first. */
  function DigitsValue(s: string): nat
    requires AllDigits(s)
  {
    if s == [] then 0 else DigitsValue(s[..|s| - 1]) * 10 + (s[|s| - 1] as int - '0' as int)
  }

  predicate InI64(n: int)
  {
    I64_MIN <= n <= I64_MAX
  }

  /** `s.parse::<i64>()`: an optional `+` or `-`, then one or more ASCII
      digits (leading zeros allowed), and a value within the i64 range. */
  function ParseI64(s: string): (r: Option<int>)
    ensures r.Some? ==> InI64(r.value)
  {
    var signed := s != [] && (s[0] == '+' || s[0] == '-');
    var body := if signed then s[1..] else s;
    if body == [] || !AllDigits(body) then None
    else
      var magnitude: int := DigitsValue(body);
      var v := if s[0] == '-' then 0 - magnitude else magnitude;
      if InI64(v) then Some(v) else None
  }

  /** `s.parse::<u8>()`: an optional `+` (a `-` is an invalid digit for an
      unsigned type), then one or more ASCII digits, with value at most 255. */
  function ParseU8(s: string): (r: Option<int>)
    ensures r.Some? ==> 0 <= r.value <= U8_MAX
  {
    var body := if s != [] && s[0] == '+' then s[1..] else s;
    if body == [] || !AllDigits(body) then None
    else if DigitsValue(body) <= U8_MAX then Some(DigitsValue(body))
    else None
  }

  /** What an accepted i64 token looks like, and the value of an unsigned
      run of digits. */
  lemma ParseI64Digits(s: string)
    ensures ParseI64(s).Some? ==> s != [] && forall i :: 0 <= i < |s| ==> IsDigit(s[i]) || (i == 0 && (s[i] == '+' || s[i] == '-'))
    ensures s != [] && AllDigits(s) && DigitsValue(s) <= I64_MAX ==> ParseI64(s) == Some(DigitsValue(s))
  {
  }

  /** What an accepted u8 token looks like, and the value of a short run of
      digits. */
  lemma ParseU8Digits(s: string)
    ensures ParseU8(s).Some? ==> s != [] && forall i :: 0 <= i < |s| ==> IsDigit(s[i]) || (i == 0 && s[i] == '+')
    ensures s != [] && AllDigits(s) && DigitsValue(s) <= U8_MAX ==> ParseU8(s) == Some(DigitsValue(s))
  {
  }

  /** A token that holds a character other than a digit or a sign is not an
      integer: in particular no comma, colon or pipe can be inside one. */
  lemma ParseI64Rejects(s: string, c: char)
    requires c in s && !IsDigit(c) && c != '+' && c != '-'
    ensures ParseI64(s).None? && ParseU8(s).None?
  {
    ParseI64Digits(s);
    ParseU8Digits(s);
  }

  function DigitChar(d: nat): (c: char)
    requires d < 10
    ensures IsDigit(c) && c as int - '0' as int == d
  {
    ('0' as int + d) as char
  }

  /** Bit `k` of `n`, bit 0 being the least significant. */
  function Bit(n: nat, k: nat): bool
  {
    if k == 0 then n % 2 == 1 else Bit(n / 2, k - 1)
  }

  /** The canonical decimal form of `n`, with no sign and no leading zero. */
  function ShowNat(n: nat): (r: string)
    ensures r != [] && AllDigits(r)
  {
    if n < 10 then [DigitChar(n)] else ShowNat(n / 10) + [DigitChar(n % 10)]
  }

  lemma {:induction false} ShowNatValue(n: nat)
    ensures DigitsValue(ShowNat(n)) == n
  {
    if n >= 10 {
      var s := ShowNat(n);
      assert s[..|s| - 1] == ShowNat(n / 10);
      ShowNatValue(n / 10);
    }
  }

  /** The canonical decimal form of `n`, with a `-` when it is negative. */
  function ShowInt(n: int): (r: string)
    ensures r != [] && forall i :: 0 <= i < |r| ==> IsDigit(r[i]) || (i == 0 && r[i] == '-')
  {
    if n < 0 then "-" + ShowNat(-n) else ShowNat(n)
  }

  /** Every i64 survives a round trip through its decimal form. */
  lemma ParseShowI64(n: int)
    requires InI64(n)
    ensures ParseI64(ShowInt(n)) == Some(n)
  {
    if n < 0 {
      ShowNatValue(-n);
      assert ShowInt(n)[1..] == ShowNat(-n);
    } else {
      ShowNatValue(n);
      ParseI64Digits(ShowInt(n));
    }
  }

  /** Every u8 survives a round trip through its decimal form. */
  lemma ParseShowU8(n: nat)
    requires n <= U8_MAX
    ensures ParseU8(ShowNat(n)) == Some(n)
  {
    ShowNatValue(n);
    ParseU8Digits(ShowNat(n));
  }

  /** No decimal form holds a character other than a digit or `-`. */
  lemma ShowIntAvoids(n: int, c: char)
    requires !IsDigit(c) && c != '-'
    ensures c !in ShowInt(n)
  {
  }
}

/** The pieces of Go's standard library that the handlers lean on for text
    and maps: `strconv.Atoi`, decimal formatting of an integer (`%d`),
    `strings.TrimPrefix`, and the zero value a missing map key reads as. */
module GoText {
  import opened Wrappers

  const MinInt64: int := -0x8000_0000_0000_0000
  const MaxInt64: int := 0x7FFF_FFFF_FFFF_FFFF

  /** Go's `int64`: the type of `time.Now().Unix()`, and the width of `int`
      (and so the range of `strconv.Atoi`) on a 64-bit target. */
  type Int64 = x: int | MinInt64 <= x <= MaxInt64

  predicate IsDigit(c: char) { '0' <= c <= '9' }

  predicate IsSign(c: char) { c == '+' || c == '-' }

  predicate AllDigits(s: string) { forall i :: 0 <= i < |s| ==> IsDigit(s[i]) }

  function DigitChar(d: nat): (c: char)
    requires d < 10
    ensures IsDigit(c)
  {
    ('0' as int + d) as char
  }

  function DigitValue(c: char): (d: nat)
    requires IsDigit(c)
    ensures d < 10 && DigitChar(d) == c
  {
    c as int - '0' as int
  }

  /** The value of a run of decimal digits, most significant first (0 for
      the empty run, which `Atoi` never passes here). */
  function DigitsValue(s: string): nat
    requires AllDigits(s)
  {
    if s == [] then 0 else 10 * DigitsValue(s[..|s| - 1]) + DigitValue(s[|s| - 1])
  }

  /** The decimal digits of `n`, with no leading zero (what `%d` prints for a
      non-negative value). */
  function Decimal(n: nat): (s: string)
    ensures |s| > 0 && AllDigits(s)
    ensures s[0] == '0' <==> n == 0
  {
    if n < 10 then [DigitChar(n)] else Decimal(n / 10) + [DigitChar(n % 10)]
  }

  /** `fmt.Sprintf("%d", n)` / `strconv.Itoa(n)`: a minus sign for a negative
      value, then the decimal digits of its magnitude. */
  function Itoa(n: int): (s: string)
    ensures |s| > 0
    ensures s[0] == '-' <==> n < 0
  {
    if n < 0 then "-" + Decimal(-n) else Decimal(n)
  }

  /** `strconv.Atoi` on a 64-bit target: an optional `+` or `-`, then one or
      more ASCII decimal digits and nothing else (no blanks, no decimal point,
      no exponent, no underscores); leading zeros are allowed; a value outside
      the `int64` range is an error. */
  function Atoi(s: string): (r: Option<int>)
    ensures r.Some? ==> |s| > 0 && (IsDigit(s[0]) || (IsSign(s[0]) && |s| > 1))
    ensures r.Some? ==> AllDigits(s[1..])
    ensures r.Some? ==> MinInt64 <= r.value <= MaxInt64
  {
    var digits := if |s| > 0 && IsSign(s[0]) then s[1..] else s;
    if digits == [] || !AllDigits(digits) then None
    else
      var magnitude: int := DigitsValue(digits);
      var v := if s[0] == '-' then -magnitude else magnitude;
      if MinInt64 <= v <= MaxInt64 then Some(v) else None
  }

  /** Reading the digits that `Decimal` prints gives back the number. */
  lemma {:induction false} DecimalValue(n: nat)
    ensures DigitsValue(Decimal(n)) == n
  {
    if n >= 10 {
      var s := Decimal(n);
      assert s[..|s| - 1] == Decimal(n / 10);
      DecimalValue(n / 10);
    }
  }

  /** Round trip: `strconv.Atoi` reads back every `int64` that `%d` prints. */
  lemma {:induction false} AtoiItoa(n: Int64)
    ensures Atoi(Itoa(n)) == Some(n)
  {
    var s := Itoa(n);
    if n < 0 {
      var m: nat := -(n as int);
      var d := Decimal(m);
      assert s == "-" + d && s[1..] == d;
      DecimalValue(m);
    } else {
      assert s == Decimal(n) && !IsSign(s[0]);
      DecimalValue(n);
    }
  }

  /** Two `int64` values print the same only if they are equal. */
  lemma ItoaInjective(a: Int64, b: Int64)
    ensures Itoa(a) == Itoa(b) <==> a == b
  {
    AtoiItoa(a);
    AtoiItoa(b);
  }

  /** Every optionally signed run of digits is read with its signed value,
      leading zeros included, when that value is within `int64`, and refused
      (`ErrRange`) when it is not. */
  lemma AtoiAcceptsNumerals(digits: string)
    requires |digits| > 0 && AllDigits(digits)
    ensures Atoi(digits) ==
      if DigitsValue(digits) <= MaxInt64 then Some(DigitsValue(digits) as int) else None
    ensures Atoi("+" + digits) ==
      if DigitsValue(digits) <= MaxInt64 then Some(DigitsValue(digits) as int) else None
    ensures Atoi("-" + digits) ==
      if DigitsValue(digits) <= MaxInt64 + 1 then Some(-(DigitsValue(digits) as int)) else None
  {
    assert IsDigit(digits[0]) && !IsSign(digits[0]);
    var plus, minus := "+" + digits, "-" + digits;
    assert plus[0] == '+' && plus[1..] == digits;
    assert minus[0] == '-' && minus[1..] == digits;
  }

  /** `strings.TrimPrefix(s, prefix)`: `s` without a leading `prefix`, or `s`
      itself when it does not start with `prefix`. */
  function TrimPrefix(s: string, prefix: string): (r: string)
    ensures prefix <= s ==> prefix + r == s
    ensures !(prefix <= s) ==> r == s
  {
    if prefix <= s then s[|prefix|..] else s
  }

  /** Go's `m[k]` on a `map[string]string`: a missing key reads as `""`. */
  function Lookup(m: map<string, string>, k: string): (v: string)
    ensures k in m ==> v == m[k]
    ensures k !in m ==> v == ""
  {
    if k in m then m[k] else ""
  }
}

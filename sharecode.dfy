/** The collection share code (components/Dashboard.tsx, `getOrCreateCode`):
    reuse the code stored under the `collectionShareCode` setting, or draw a
    new 10-digit number, store it and use it. */
module ShareCode {
  import opened Wrappers

  const MinCode := 1000000000
  /** The exclusive bound on the random offset: `Math.random() * 9000000000`. */
  const CodeSpan := 9000000000

  function Pow10(d: nat): nat
  {
    if d == 0 then 1 else 10 * Pow10(d - 1)
  }

  function DigitChar(d: nat): char
    requires d < 10
  {
    ('0' as int + d) as char
  }

  function DigitValue(c: char): int
  {
    c as int - '0' as int
  }

  /** `n.toString()` for a non-negative integer: its decimal digits, without
      leading zeros. */
  function DecimalString(n: nat): (r: string)
    ensures r != []
    ensures forall i :: 0 <= i < |r| ==> '0' <= r[i] <= '9'
  {
    if n < 10 then [DigitChar(n)] else DecimalString(n / 10) + [DigitChar(n % 10)]
  }

  /** Reading the digits back. */
  function ParseDecimal(s: string): int
  {
    if s == [] then 0 else 10 * ParseDecimal(s[..|s| - 1]) + DigitValue(s[|s| - 1])
  }

  lemma {:induction false} DecimalRoundTrip(n: nat)
    ensures ParseDecimal(DecimalString(n)) == n
  {
    if n >= 10 {
      DecimalRoundTrip(n / 10);
      var s := DecimalString(n);
      assert s[..|s| - 1] == DecimalString(n / 10);
    }
  }

  /** A number in [10^(d-1), 10^d) is written with exactly d digits. */
  lemma {:induction false} DecimalLength(n: nat, d: nat)
    requires d >= 1 && Pow10(d - 1) <= n < Pow10(d)
    ensures |DecimalString(n)| == d
  {
    if n >= 10 {
      assert d >= 2;
      DecimalLength(n / 10, d - 1);
    }
  }

  /** A new code: the smallest ten-digit number plus a random offset below
      nine billion, the floored random part being given as `offset`. */
  function NewCode(offset: int): (code: int)
    requires 0 <= offset < CodeSpan
    ensures 1000000000 <= code <= 9999999999
  {
    MinCode + offset
  }

  /** A new code is written with exactly ten digits. */
  lemma NewCodeHasTenDigits(offset: int)
    requires 0 <= offset < CodeSpan
    ensures |DecimalString(NewCode(offset))| == 10
    ensures ParseDecimal(DecimalString(NewCode(offset))) == NewCode(offset)
  {
    assert Pow10(9) == 1000000000 && Pow10(10) == 10000000000 by {
      assert Pow10(2) == 100;
      assert Pow10(4) == 10000;
      assert Pow10(6) == 1000000;
      assert Pow10(8) == 100000000;
    }
    DecimalLength(NewCode(offset), 10);
    DecimalRoundTrip(NewCode(offset));
  }

  /** The code the dashboard will use, and the value to store when it had to
      create one. */
  datatype Resolution = Resolution(code: string, store: Option<string>)

  /** The stored setting counts only when it is present and not the empty string. */
  predicate IsSet(stored: Option<string>)
  {
    stored.Some? && stored.value != ""
  }

  /** Get-or-create: a stored code is reused and nothing is written; otherwise
      a fresh ten-digit code is generated, written back and used. */
  function Resolve(stored: Option<string>, offset: int): (r: Resolution)
    requires 0 <= offset < CodeSpan
    ensures IsSet(stored) ==> r.code == stored.value && r.store == None
    ensures !IsSet(stored) ==>
      && r.store == Some(r.code)
      && |r.code| == 10
      && (forall i :: 0 <= i < |r.code| ==> '0' <= r.code[i] <= '9')
      && MinCode <= ParseDecimal(r.code) < MinCode + CodeSpan
    ensures r.code != ""
  {
    if IsSet(stored) then Resolution(stored.value, None)
    else
      NewCodeHasTenDigits(offset);
      var code := DecimalString(NewCode(offset));
      Resolution(code, Some(code))
  }
}

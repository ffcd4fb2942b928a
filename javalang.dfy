/** The parts of the Java platform the library relies on: two's-complement
    `int` and `long`, the exceptions it raises, `Long.toString` and
    `StringBuilder`. */
module JavaLang {
  import opened Wrappers

  const INT32_MIN: int := -0x8000_0000
  const INT32_MAX: int := 0x7fff_ffff
  const INT64_MIN: int := -0x8000_0000_0000_0000
  const INT64_MAX: int := 0x7fff_ffff_ffff_ffff
  const TWO_32: int := 0x1_0000_0000
  const TWO_64: int := 0x1_0000_0000_0000_0000

  /** A Java `int`. */
  type Int32 = x: int | -0x8000_0000 <= x <= 0x7fff_ffff

  /** A Java `long`. */
  type Int64 = x: int | -0x8000_0000_0000_0000 <= x <= 0x7fff_ffff_ffff_ffff

  /** The exceptions the modelled code raises, with the message it passes
      (`None` where the code passes no message). */
  datatype Error =
    | IllegalArgument(detail: Option<string>)
    | NullPointer
    | NoSuchElement(message: string)
    | UnsupportedOperation(message: string)
    | IndexOutOfBounds(index: int)
    | ConcurrentModification
    | IllegalState(message: string)
    | GatewayFailure(message: string)

  /** The `int` that Java's `+`, `-` and `*` produce for the exact value `x`. */
  function Wrap32(x: int): (r: Int32)
    ensures (x - r) % TWO_32 == 0
    ensures INT32_MIN <= x <= INT32_MAX ==> r == x
    ensures INT32_MAX < x <= INT32_MAX + TWO_32 ==> r == x - TWO_32
    ensures INT32_MIN - TWO_32 <= x < INT32_MIN ==> r == x + TWO_32
  {
    (x - INT32_MIN) % TWO_32 + INT32_MIN
  }

  /** The `long` that Java's `+`, `-` and `*` produce for the exact value `x`. */
  function Wrap64(x: int): (r: Int64)
    ensures (x - r) % TWO_64 == 0
    ensures INT64_MIN <= x <= INT64_MAX ==> r == x
    ensures INT64_MAX < x <= INT64_MAX + TWO_64 ==> r == x - TWO_64
    ensures INT64_MIN - TWO_64 <= x < INT64_MIN ==> r == x + TWO_64
  {
    (x - INT64_MIN) % TWO_64 + INT64_MIN
  }

  /** Wrapping an intermediate sum changes nothing: `int` addition done step
      by step agrees with the exact sum wrapped once. */
  lemma Wrap32Add(a: int, b: int)
    ensures Wrap32(Wrap32(a) + b) == Wrap32(a + b)
  {
    var q := (a - INT32_MIN) / TWO_32;
    assert Wrap32(a) == a - q * TWO_32;
    var y := a + b;
    assert (y - q * TWO_32 - INT32_MIN) % TWO_32 == (y - INT32_MIN) % TWO_32;
  }

  /** Same for `long`. */
  lemma Wrap64Add(a: int, b: int)
    ensures Wrap64(Wrap64(a) + b) == Wrap64(a + b)
  {
    var q := (a - INT64_MIN) / TWO_64;
    assert Wrap64(a) == a - q * TWO_64;
    var y := a + b;
    assert (y - q * TWO_64 - INT64_MIN) % TWO_64 == (y - INT64_MIN) % TWO_64;
  }

  /* ---------------- Long.toString ---------------- */

  predicate IsDigits(s: string) {
    forall i :: 0 <= i < |s| ==> '0' <= s[i] <= '9'
  }

  function DigitChar(d: int): (c: char)
    requires 0 <= d < 10
    ensures '0' <= c <= '9' && c as int - '0' as int == d
  {
    (d + '0' as int) as char
  }

  /** The form `Long.toString` writes: an optional minus sign, then at least
      one digit, with no leading zero and no minus zero. */
  predicate CanonicalDecimal(s: string) {
    var d := if |s| > 0 && s[0] == '-' then s[1..] else s;
    |d| > 0 && IsDigits(d) && (d[0] == '0' ==> s == "0")
  }

  /** Decimal digits of `n`, most significant first, without leading zeros. */
  function NatToDecimal(n: nat): (s: string)
    ensures |s| > 0 && IsDigits(s)
    ensures s[0] == '0' ==> n == 0 && s == "0"
    decreases n
  {
    if n < 10 then [DigitChar(n)] else NatToDecimal(n / 10) + [DigitChar(n % 10)]
  }

  /** `Long.toString(x)`: a minus sign for negative values, then the digits of
      the magnitude. */
  function LongToString(x: Int64): (s: string)
    ensures CanonicalDecimal(s)
    ensures s[0] == '-' <==> x < 0
  {
    if x < 0 then "-" + NatToDecimal(-(x as int)) else NatToDecimal(x)
  }

  /** The number a string of decimal digits denotes. */
  function DigitsValue(s: string): nat
    requires IsDigits(s)
  {
    if s == [] then 0 else DigitsValue(s[..|s| - 1]) * 10 + (s[|s| - 1] as int - '0' as int)
  }

  /** A decimal reader, independent of `LongToString`: an optional minus
      sign followed by at least one digit. */
  function ParseDecimal(s: string): Option<int> {
    if |s| >= 2 && s[0] == '-' && IsDigits(s[1..]) then Some(-(DigitsValue(s[1..]) as int))
    else if |s| >= 1 && IsDigits(s) then Some(DigitsValue(s))
    else None
  }

  lemma {:induction false} NatToDecimalValue(n: nat)
    ensures DigitsValue(NatToDecimal(n)) == n
    decreases n
  {
    if n >= 10 {
      var s := NatToDecimal(n);
      assert s[..|s| - 1] == NatToDecimal(n / 10);
      NatToDecimalValue(n / 10);
    }
  }

  /** Reading back what `Long.toString` prints yields the original value. */
  lemma LongToStringRoundTrip(x: Int64)
    ensures ParseDecimal(LongToString(x)) == Some(x)
  {
    if x < 0 {
      var m: nat := -(x as int);
      var t := NatToDecimal(m);
      var s := "-" + t;
      assert s[1..] == t;
      NatToDecimalValue(m);
      assert ParseDecimal(s) == Some(-(m as int));
    } else {
      var s := NatToDecimal(x);
      assert s[0] != '-';
      NatToDecimalValue(x);
    }
  }

  /** `java.lang.StringBuilder`, as far as `append` and `toString` go. */
  class StringBuilder {
    var content: string

    constructor ()
      ensures content == ""
    {
      content := "";
    }

    method Append(s: string)
      modifies this
      ensures content == old(content) + s
    {
      content := content + s;
    }
  }
}

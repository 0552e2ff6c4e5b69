// Shared vocabulary: optional values, results, bytes, and decimal numerals.
module Basics {

  datatype Option<+T> = None | Some(value: T)

  datatype Result<+T, +E> = Success(value: T) | Failure(error: E)

  type byte = b: int | 0 <= b < 256

  // A Rust `String` holds UTF-8, so text is modelled by its bytes.
  type Text = seq<byte>

  const U32_MAX := 0xFFFF_FFFF
  const U64_SPAN := 0x1_0000_0000_0000_0000

  function Min(a: nat, b: nat): (m: nat)
    ensures m <= a && m <= b && (m == a || m == b)
  {
    if a <= b then a else b
  }

  /** Unsigned subtraction that stops at zero, as `Duration::saturating_sub` does. */
  function SaturatingSub(a: nat, b: nat): (d: nat)
    ensures b <= a ==> d + b == a
    ensures a < b ==> d == 0
  {
    if b <= a then a - b else 0
  }

  /** The bytes of an ASCII string. */
  function Ascii(s: string): (t: Text)
    requires forall i :: 0 <= i < |s| ==> s[i] as int < 128
    ensures |t| == |s|
    ensures forall i :: 0 <= i < |s| ==> t[i] == s[i] as int
  {
    seq(|s|, i requires 0 <= i < |s| => s[i] as int)
  }

  /** The decimal numeral of `n`, as Rust's integer `Display` writes it. */
  function Decimal(n: nat): (t: Text)
    ensures |t| > 0
    ensures forall i :: 0 <= i < |t| ==> 48 <= t[i] <= 57
  {
    var last: Text := [48 + n % 10];
    if n < 10 then last else Decimal(n / 10) + last
  }

  /** The number a run of decimal digits writes, or nothing when it is not one. */
  function Numeral(t: Text): Option<nat>
  {
    if t == [] then None
    else
      var d := t[|t| - 1];
      if !(48 <= d <= 57) then None
      else if |t| == 1 then Some(d - 48)
      else match Numeral(t[..|t| - 1])
        case None => None
        case Some(high) => Some(10 * high + (d - 48))
  }

  /** Reading a printed number gives the number back. */
  lemma {:induction false} NumeralOfDecimal(n: nat)
    ensures Numeral(Decimal(n)) == Some(n)
  {
    if n >= 10 {
      NumeralOfDecimal(n / 10);
      var t := Decimal(n);
      assert t[..|t| - 1] == Decimal(n / 10);
    }
  }

  lemma DecimalInjective(a: nat, b: nat)
    requires Decimal(a) == Decimal(b)
    ensures a == b
  {
    NumeralOfDecimal(a);
    NumeralOfDecimal(b);
  }
}

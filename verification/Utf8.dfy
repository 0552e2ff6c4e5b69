// UTF-8 as the Rust standard library reads it: `str::from_utf8`, `String::from_utf8_lossy`, and
// the characters of a valid string.
module Utf8 {
  import opened Basics

  /** One decoding step: a character of `size` bytes, or a broken sequence of `size` bytes. */
  datatype Step = Char(code: nat, size: nat) | Broken(size: nat)

  predicate Continuation(b: byte) { 0x80 <= b <= 0xBF }

  /** Whether `b1` may follow the lead byte `b0` of a three-byte or four-byte character. */
  predicate SecondByte(b0: byte, b1: byte)
  {
    if b0 == 0xE0 then 0xA0 <= b1 <= 0xBF
    else if b0 == 0xED then 0x80 <= b1 <= 0x9F
    else if b0 == 0xF0 then 0x90 <= b1 <= 0xBF
    else if b0 == 0xF4 then 0x80 <= b1 <= 0x8F
    else Continuation(b1)
  }

  function First(t: Text): (step: Step)
    requires t != []
    ensures 1 <= step.size <= 4 && step.size <= |t|
  {
    var b0: int, b1: int := t[0], if |t| > 1 then t[1] else 0;
    var b2: int, b3: int := if |t| > 2 then t[2] else 0, if |t| > 3 then t[3] else 0;
    if b0 < 0x80 then Char(b0, 1)
    else if 0xC2 <= b0 <= 0xDF then
      if Continuation(b1) then Char((b0 - 0xC0) * 64 + (b1 - 0x80), 2) else Broken(1)
    else if 0xE0 <= b0 <= 0xEF then
      if !SecondByte(b0, b1) then Broken(1)
      else if !Continuation(b2) then Broken(2)
      else Char((b0 - 0xE0) * 4096 + (b1 - 0x80) * 64 + (b2 - 0x80), 3)
    else if 0xF0 <= b0 <= 0xF4 then
      if !SecondByte(b0, b1) then Broken(1)
      else if !Continuation(b2) then Broken(2)
      else if !Continuation(b3) then Broken(3)
      else Char((b0 - 0xF0) * 262144 + (b1 - 0x80) * 4096 + (b2 - 0x80) * 64 + (b3 - 0x80), 4)
    else Broken(1)
  }

  /** `str::from_utf8(t).is_ok()`. */
  predicate Valid(t: Text)
  {
    t == [] || (First(t).Char? && Valid(t[First(t).size..]))
  }

  /** The characters of a valid string. */
  function Chars(t: Text): seq<nat>
    requires Valid(t)
  {
    if t == [] then [] else [First(t).code] + Chars(t[First(t).size..])
  }

  const REPLACEMENT: Text := [0xEF, 0xBF, 0xBD]

  /** `String::from_utf8_lossy`: every broken sequence becomes U+FFFD. */
  function Lossy(t: Text): Text
  {
    if t == [] then []
    else
      var step := First(t);
      (if step.Char? then t[..step.size] else REPLACEMENT) + Lossy(t[step.size..])
  }

  predicate IsAscii(t: Text) { forall i :: 0 <= i < |t| ==> t[i] < 128 }

  /** A valid string goes through `from_utf8_lossy` unchanged. */
  lemma {:induction false} LossyKeepsValid(t: Text)
    requires Valid(t)
    ensures Lossy(t) == t
  {
    if t != [] {
      LossyKeepsValid(t[First(t).size..]);
      assert t == t[..First(t).size] + t[First(t).size..];
    }
  }

  /** Text that is ASCII after `from_utf8_lossy` was that text before it. */
  lemma {:induction false} LossyAscii(t: Text)
    requires IsAscii(Lossy(t))
    ensures Lossy(t) == t && Valid(t)
  {
    if t != [] {
      var step := First(t);
      var head: Text := if step.Char? then t[..step.size] else REPLACEMENT;
      var rest := Lossy(t[step.size..]);
      assert Lossy(t) == head + rest;
      assert forall i :: 0 <= i < |head| ==> head[i] == Lossy(t)[i];
      assert head[0] < 128;
      assert step.Char?;
      assert forall i :: 0 <= i < |rest| ==> rest[i] == Lossy(t)[|head| + i];
      LossyAscii(t[step.size..]);
      assert t == t[..step.size] + t[step.size..];
    }
  }

  /** ASCII is valid UTF-8, one character a byte. */
  lemma {:induction false} AsciiIsValid(t: Text)
    requires IsAscii(t)
    ensures Valid(t) && Chars(t) == t
  {
    if t != [] {
      AsciiIsValid(t[1..]);
    }
  }
}

// The base64 lane of a payload: section 4 of RFC 4648, with padding, as the STANDARD engine
// writes it and as strictly as that engine reads it (canonical padding, zero trailing bits).
module Base64 {
  import opened Basics

  const PAD: byte := 61

  /** The alphabet: A-Z, a-z, 0-9, '+' and '/'. */
  function Letter(s: int): byte
    requires 0 <= s < 64
  {
    if s < 26 then 65 + s
    else if s < 52 then 97 + (s - 26)
    else if s < 62 then 48 + (s - 52)
    else if s == 62 then 43
    else 47
  }

  function SextetOf(b: byte): (o: Option<int>)
    ensures o.Some? ==> 0 <= o.value < 64
  {
    if 65 <= b <= 90 then Some(b - 65)
    else if 97 <= b <= 122 then Some(b - 97 + 26)
    else if 48 <= b <= 57 then Some(b - 48 + 52)
    else if b == 43 then Some(62)
    else if b == 47 then Some(63)
    else None
  }

  lemma LetterAndBack(s: int)
    requires 0 <= s < 64
    ensures SextetOf(Letter(s)) == Some(s) && Letter(s) != PAD
  {
  }

  lemma SextetAndBack(b: byte)
    requires SextetOf(b).Some?
    ensures Letter(SextetOf(b).value) == b && b != PAD
  {
  }

  function EncodeThree(a: byte, b: byte, c: byte): (t: Text)
    ensures |t| == 4
  {
    [Letter(a / 4), Letter(a % 4 * 16 + b / 16), Letter(b % 16 * 4 + c / 64), Letter(c % 64)]
  }

  function EncodeTwo(a: byte, b: byte): (t: Text)
    ensures |t| == 4
  {
    [Letter(a / 4), Letter(a % 4 * 16 + b / 16), Letter(b % 16 * 4), PAD]
  }

  function EncodeOne(a: byte): (t: Text)
    ensures |t| == 4
  {
    [Letter(a / 4), Letter(a % 4 * 16), PAD, PAD]
  }

  function Encode(data: seq<byte>): Text
  {
    if data == [] then []
    else if |data| == 1 then EncodeOne(data[0])
    else if |data| == 2 then EncodeTwo(data[0], data[1])
    else EncodeThree(data[0], data[1], data[2]) + Encode(data[3..])
  }

  /** The bytes of one group of four characters; only the last group may be padded. */
  function DecodeFour(w: byte, x: byte, y: byte, z: byte, last: bool): Option<seq<byte>>
  {
    match (SextetOf(w), SextetOf(x), SextetOf(y), SextetOf(z))
    case (Some(a), Some(b), Some(c), Some(d)) =>
      Some([a * 4 + b / 16, b % 16 * 16 + c / 4, c % 4 * 64 + d])
    case (Some(a), Some(b), Some(c), None) =>
      if last && z == PAD && c % 4 == 0 then Some([a * 4 + b / 16, b % 16 * 16 + c / 4]) else None
    case (Some(a), Some(b), None, None) =>
      if last && y == PAD && z == PAD && b % 16 == 0 then Some([a * 4 + b / 16]) else None
    case _ => None
  }

  function Decode(t: Text): Option<seq<byte>>
  {
    if t == [] then Some([])
    else if |t| < 4 then None
    else
      match (DecodeFour(t[0], t[1], t[2], t[3], |t| == 4), Decode(t[4..]))
      case (Some(head), Some(rest)) => Some(head + rest)
      case _ => None
  }

  /** Digits of two mixed-radix numbers, for the three radices the lane splits bytes at. */
  lemma Digits(high: int, low: int)
    requires 0 <= high
    ensures 0 <= low < 4 ==> (high * 4 + low) / 4 == high && (high * 4 + low) % 4 == low
    ensures 0 <= low < 16 ==> (high * 16 + low) / 16 == high && (high * 16 + low) % 16 == low
    ensures 0 <= low < 64 ==> (high * 64 + low) / 64 == high && (high * 64 + low) % 64 == low
  {
  }

  lemma ThreeRoundTrip(a: byte, b: byte, c: byte, last: bool)
    ensures var t := EncodeThree(a, b, c); DecodeFour(t[0], t[1], t[2], t[3], last) == Some([a, b, c])
  {
    LetterAndBack(a / 4);
    LetterAndBack(a % 4 * 16 + b / 16);
    LetterAndBack(b % 16 * 4 + c / 64);
    LetterAndBack(c % 64);
    Digits(a % 4, b / 16);
    Digits(b % 16, c / 64);
    hide Letter, SextetOf;
  }

  lemma TwoRoundTrip(a: byte, b: byte)
    ensures var t := EncodeTwo(a, b); DecodeFour(t[0], t[1], t[2], t[3], true) == Some([a, b])
  {
    LetterAndBack(a / 4);
    LetterAndBack(a % 4 * 16 + b / 16);
    LetterAndBack(b % 16 * 4);
    Digits(a % 4, b / 16);
    PadIsNoLetter();
    hide Letter, SextetOf;
  }

  lemma OneRoundTrip(a: byte)
    ensures var t := EncodeOne(a); DecodeFour(t[0], t[1], t[2], t[3], true) == Some([a])
  {
    LetterAndBack(a / 4);
    LetterAndBack(a % 4 * 16);
    Digits(a % 4, 0);
    PadIsNoLetter();
    hide Letter, SextetOf;
  }

  lemma PadIsNoLetter()
    ensures SextetOf(PAD).None?
  {
  }

  /** Decoding what was encoded gives the payload back, whatever its bytes and length. */
  lemma {:induction false} DecodeEncode(data: seq<byte>)
    ensures Decode(Encode(data)) == Some(data)
  {
    hide EncodeOne, EncodeTwo, EncodeThree, DecodeFour;
    if |data| == 1 || |data| == 2 {
      OneRoundTrip(data[0]);
      TwoRoundTrip(data[0], data[|data| - 1]);
      assert Encode(data)[4..] == [] && Decode([]) == Some([]);
      assert data == (if |data| == 1 then [data[0]] else [data[0], data[1]]) + [];
    } else if |data| >= 3 {
      var head := EncodeThree(data[0], data[1], data[2]);
      ThreeRoundTrip(data[0], data[1], data[2], |Encode(data)| == 4);
      DecodeEncode(data[3..]);
      assert Encode(data)[..4] == head && Encode(data)[4..] == Encode(data[3..]);
      assert data == [data[0], data[1], data[2]] + data[3..];
    }
  }

  lemma ThreeIsCanonical(w: byte, x: byte, y: byte, z: byte)
    requires SextetOf(w).Some? && SextetOf(x).Some? && SextetOf(y).Some? && SextetOf(z).Some?
    ensures var d := DecodeFour(w, x, y, z, false).value; |d| == 3 && EncodeThree(d[0], d[1], d[2]) == [w, x, y, z]
  {
    SextetAndBack(w);
    SextetAndBack(x);
    SextetAndBack(y);
    SextetAndBack(z);
    var a, b, c, d := SextetOf(w).value, SextetOf(x).value, SextetOf(y).value, SextetOf(z).value;
    Digits(a, b / 16);
    Digits(b % 16, c / 4);
    Digits(c % 4, d);
    Rejoined(b, c);
    hide Letter, SextetOf;
  }

  lemma Rejoined(b: int, c: int)
    ensures b / 16 * 16 + b % 16 == b && c / 4 * 4 + c % 4 == c
  {
  }

  lemma TwoAreCanonical(w: byte, x: byte, y: byte)
    requires SextetOf(w).Some? && SextetOf(x).Some? && SextetOf(y).Some? && SextetOf(y).value % 4 == 0
    ensures var d := DecodeFour(w, x, y, PAD, true);
            d.Some? && |d.value| == 2 && EncodeTwo(d.value[0], d.value[1]) == [w, x, y, PAD]
  {
    SextetAndBack(w);
    SextetAndBack(x);
    SextetAndBack(y);
    PadIsNoLetter();
    var a, b, c := SextetOf(w).value, SextetOf(x).value, SextetOf(y).value;
    Digits(a, b / 16);
    Digits(b % 16, c / 4);
    Rejoined(b, c);
    hide Letter, SextetOf;
  }

  lemma OneIsCanonical(w: byte, x: byte)
    requires SextetOf(w).Some? && SextetOf(x).Some? && SextetOf(x).value % 16 == 0
    ensures var d := DecodeFour(w, x, PAD, PAD, true);
            d.Some? && |d.value| == 1 && EncodeOne(d.value[0]) == [w, x, PAD, PAD]
  {
    SextetAndBack(w);
    SextetAndBack(x);
    PadIsNoLetter();
    var a, b := SextetOf(w).value, SextetOf(x).value;
    Digits(a, b / 16);
    Rejoined(b, 0);
    hide Letter, SextetOf;
  }

  lemma TailIsCanonical(w: byte, x: byte, y: byte, z: byte)
    requires DecodeFour(w, x, y, z, true).Some? && SextetOf(z).None?
    ensures var d := DecodeFour(w, x, y, z, true).value;
            || (|d| == 1 && EncodeOne(d[0]) == [w, x, y, z])
            || (|d| == 2 && EncodeTwo(d[0], d[1]) == [w, x, y, z])
  {
    hide SextetOf, Letter, EncodeOne, EncodeTwo;
    if SextetOf(y).Some? {
      TwoAreCanonical(w, x, y);
    } else {
      OneIsCanonical(w, x);
    }
  }

  /** One decoded group is three bytes that encode to it, or it is the padded last group. */
  lemma FourIsCanonical(w: byte, x: byte, y: byte, z: byte, last: bool)
    requires DecodeFour(w, x, y, z, last).Some?
    ensures var d := DecodeFour(w, x, y, z, last).value;
            1 <= |d| <= 3 && Encode(d) == [w, x, y, z] && (!last ==> |d| == 3)
  {
    hide EncodeOne, EncodeTwo, EncodeThree, SextetOf, Letter;
    var d := DecodeFour(w, x, y, z, last).value;
    if SextetOf(z).Some? {
      ThreeIsCanonical(w, x, y, z);
      assert Encode(d[3..]) == [];
    } else {
      TailIsCanonical(w, x, y, z);
    }
  }

  /** The reader is strict: it accepts nothing but what the writer writes. */
  lemma {:induction false} EncodeDecode(t: Text)
    requires Decode(t).Some?
    ensures Encode(Decode(t).value) == t
  {
    if t != [] {
      var head := DecodeFour(t[0], t[1], t[2], t[3], |t| == 4).value;
      FourIsCanonical(t[0], t[1], t[2], t[3], |t| == 4);
      EncodeDecode(t[4..]);
      var rest := Decode(t[4..]).value;
      assert Decode(t).value == head + rest;
      if |t| == 4 {
        assert head + rest == head;
        assert t == [t[0], t[1], t[2], t[3]];
      } else {
        assert (head + rest)[3..] == rest;
        assert Encode(head) == EncodeThree(head[0], head[1], head[2]) + Encode(head[3..]);
        assert t == [t[0], t[1], t[2], t[3]] + t[4..];
      }
    }
  }

  /** Encoded text is printable ASCII, and empty only for an empty payload. */
  lemma {:induction false} EncodeIsPrintable(data: seq<byte>)
    ensures forall i :: 0 <= i < |Encode(data)| ==> 0x20 <= Encode(data)[i] < 0x7F
    ensures Encode(data) == [] <==> data == []
  {
    if |data| >= 3 {
      EncodeIsPrintable(data[3..]);
    }
  }
}

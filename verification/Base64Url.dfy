/** Unpadded base64url, section 5 of RFC 4648, as Go's `base64.RawURLEncoding` reads and writes it. */
module Base64Url {
  import opened Wrappers
  import Text

  type Byte = b: int | 0 <= b < 256
  type Sextet = v: int | 0 <= v < 64
  type Bytes = seq<Byte>

  function Digit(v: Sextet): char {
    if v < 26 then ('A' as int + v) as char
    else if v < 52 then ('a' as int + v - 26) as char
    else if v < 62 then ('0' as int + v - 52) as char
    else if v == 62 then '-' else '_'
  }

  function Value(c: char): Option<Sextet> {
    if 'A' <= c <= 'Z' then Some(c as int - 'A' as int)
    else if 'a' <= c <= 'z' then Some(c as int - 'a' as int + 26)
    else if '0' <= c <= '9' then Some(c as int - '0' as int + 52)
    else if c == '-' then Some(62)
    else if c == '_' then Some(63)
    else None
  }

  predicate InAlphabet(s: string) {
    forall i | 0 <= i < |s| :: Value(s[i]).Some?
  }

  function Encode(b: Bytes): string {
    if |b| == 0 then ""
    else if |b| == 1 then [Digit(b[0] / 4), Digit(b[0] % 4 * 16)]
    else if |b| == 2 then [Digit(b[0] / 4), Digit(b[0] % 4 * 16 + b[1] / 16), Digit(b[1] % 16 * 4)]
    else [Digit(b[0] / 4), Digit(b[0] % 4 * 16 + b[1] / 16), Digit(b[1] % 16 * 4 + b[2] / 64), Digit(b[2] % 64)]
         + Encode(b[3..])
  }

  /** The decoder skips line breaks. */
  function DropLineBreaks(s: string): string {
    if s == "" then ""
    else if s[0] == '\r' || s[0] == '\n' then DropLineBreaks(s[1..])
    else [s[0]] + DropLineBreaks(s[1..])
  }

  function DecodeDigits(s: string): Option<Bytes> {
    if |s| == 0 then Some([])
    else if |s| == 1 then None
    else
      var v0, v1 := Value(s[0]), Value(s[1]);
      if v0.None? || v1.None? then None
      else
        var b0 := v0.value * 4 + v1.value / 16;
        if |s| == 2 then Some([b0])
        else
          var v2 := Value(s[2]);
          if v2.None? then None
          else
            var b1 := v1.value % 16 * 16 + v2.value / 4;
            if |s| == 3 then Some([b0, b1])
            else
              var v3 := Value(s[3]);
              var rest := DecodeDigits(s[4..]);
              if v3.None? || rest.None? then None
              else Some([b0, b1, v2.value % 4 * 64 + v3.value] + rest.value)
  }

  function Decode(s: string): Option<Bytes> {
    DecodeDigits(DropLineBreaks(s))
  }

  lemma DigitValue(v: Sextet)
    ensures Value(Digit(v)) == Some(v)
  {
  }

  /** Three bytes cut into four sextets and put together again. */
  lemma GroupArithmetic(b0: Byte, b1: Byte, b2: Byte)
    ensures b0 / 4 * 4 + (b0 % 4 * 16 + b1 / 16) / 16 == b0
    ensures (b0 % 4 * 16 + b1 / 16) % 16 * 16 + (b1 % 16 * 4 + b2 / 64) / 4 == b1
    ensures (b1 % 16 * 4 + b2 / 64) % 4 * 64 + b2 % 64 == b2
  {
  }

  lemma {:induction false} EncodesInAlphabet(b: Bytes)
    ensures InAlphabet(Encode(b))
  {
    if |b| >= 3 {
      EncodesInAlphabet(b[3..]);
    }
  }

  lemma {:induction false} AlphabetHasNoLineBreak(s: string)
    requires InAlphabet(s)
    ensures DropLineBreaks(s) == s
  {
    if s != "" {
      assert Value(s[0]).Some?;
      assert forall i | 0 <= i < |s[1..]| :: s[1..][i] == s[i + 1];
      AlphabetHasNoLineBreak(s[1..]);
    }
  }

  lemma DecodeQuantum(v0: Sextet, v1: Sextet, v2: Sextet, v3: Sextet, t: string)
    requires DecodeDigits(t).Some?
    ensures DecodeDigits([Digit(v0), Digit(v1), Digit(v2), Digit(v3)] + t)
         == Some([v0 * 4 + v1 / 16, v1 % 16 * 16 + v2 / 4, v2 % 4 * 64 + v3] + DecodeDigits(t).value)
  {
    var s := [Digit(v0), Digit(v1), Digit(v2), Digit(v3)] + t;
    assert s[4..] == t;
    DigitValue(v0);
    DigitValue(v1);
    DigitValue(v2);
    DigitValue(v3);
  }

  lemma DecodeTail(v0: Sextet, v1: Sextet, v2: Sextet)
    ensures DecodeDigits([Digit(v0), Digit(v1)]) == Some([v0 * 4 + v1 / 16])
    ensures DecodeDigits([Digit(v0), Digit(v1), Digit(v2)]) == Some([v0 * 4 + v1 / 16, v1 % 16 * 16 + v2 / 4])
  {
    DigitValue(v0);
    DigitValue(v1);
    DigitValue(v2);
  }

  lemma OneByte(b0: Byte)
    ensures DecodeDigits([Digit(b0 / 4), Digit(b0 % 4 * 16)]) == Some([b0])
  {
    DecodeTail(b0 / 4, b0 % 4 * 16, 0);
  }

  lemma TwoBytes(b0: Byte, b1: Byte)
    ensures DecodeDigits([Digit(b0 / 4), Digit(b0 % 4 * 16 + b1 / 16), Digit(b1 % 16 * 4)]) == Some([b0, b1])
  {
    DecodeTail(b0 / 4, b0 % 4 * 16 + b1 / 16, b1 % 16 * 4);
    GroupArithmetic(b0, b1, 0);
    assert 0 / 64 == 0;
  }

  lemma ThreeBytes(b0: Byte, b1: Byte, b2: Byte, rest: Bytes)
    requires DecodeDigits(Encode(rest)) == Some(rest)
    ensures DecodeDigits([Digit(b0 / 4), Digit(b0 % 4 * 16 + b1 / 16), Digit(b1 % 16 * 4 + b2 / 64), Digit(b2 % 64)]
                         + Encode(rest)) == Some([b0, b1, b2] + rest)
  {
    DecodeQuantum(b0 / 4, b0 % 4 * 16 + b1 / 16, b1 % 16 * 4 + b2 / 64, b2 % 64, Encode(rest));
    GroupArithmetic(b0, b1, b2);
  }

  lemma EmptyDigits()
    ensures DecodeDigits("") == Some([])
  {
  }

  lemma {:induction false} DigitsRoundTrip(b: Bytes)
    ensures DecodeDigits(Encode(b)) == Some(b)
  {
    hide DecodeDigits, Digit;
    if |b| == 0 {
      EmptyDigits();
    } else if |b| == 1 {
      OneByte(b[0]);
      assert b == [b[0]];
    } else if |b| == 2 {
      TwoBytes(b[0], b[1]);
      assert b == [b[0], b[1]];
    } else {
      DigitsRoundTrip(b[3..]);
      ThreeBytes(b[0], b[1], b[2], b[3..]);
      assert b == [b[0], b[1], b[2]] + b[3..];
    }
  }

  /** Decoding undoes encoding, and encoded text never holds the separator of token parts. */
  lemma RoundTrip(b: Bytes)
    ensures Decode(Encode(b)) == Some(b)
    ensures '.' !in Encode(b)
  {
    EncodesInAlphabet(b);
    AlphabetHasNoLineBreak(Encode(b));
    DigitsRoundTrip(b);
    forall i | 0 <= i < |Encode(b)|
      ensures Encode(b)[i] != '.'
    {
      assert Value(Encode(b)[i]).Some? && Value('.').None?;
    }
  }

  // ---- What the text says ----------------------------------------------------------------

  const ALPHABET: string := Text.UPPER + Text.LOWER + "0123456789-_"

  /** The characters read as they stand in the alphabet, as one number in base 64. */
  function Number64(t: string): nat {
    if t == "" then 0
    else
      var v := Value(t[|t| - 1]);
      64 * Number64(t[..|t| - 1]) + if v.Some? then v.value else 0
  }

  lemma AlphabetRuns()
    ensures |ALPHABET| == 64
    ensures forall v | 0 <= v < 26 :: ALPHABET[v] as int == 'A' as int + v
    ensures forall v | 26 <= v < 52 :: ALPHABET[v] as int == 'a' as int + v - 26
    ensures forall v | 52 <= v < 62 :: ALPHABET[v] as int == '0' as int + v - 52
    ensures ALPHABET[62] == '-' && ALPHABET[63] == '_'
  {
    Text.Letters();
  }

  lemma ValueIsThePlace(c: char, v: Sextet)
    ensures Value(c) == Some(v) <==> c == ALPHABET[v]
    ensures Digit(v) == ALPHABET[v]
  {
    AlphabetRuns();
  }

  lemma Quantum(a: Sextet, b: Sextet, c: Sextet, d: Sextet)
    ensures Number64([Digit(a), Digit(b)]) == 64 * a + b
    ensures Number64([Digit(a), Digit(b), Digit(c)]) == 4096 * a + 64 * b + c
    ensures Number64([Digit(a), Digit(b), Digit(c), Digit(d)]) == 262144 * a + 4096 * b + 64 * c + d
  {
    DigitValue(a);
    DigitValue(b);
    DigitValue(c);
    DigitValue(d);
    hide Digit, Value;
    var t := [Digit(a), Digit(b), Digit(c), Digit(d)];
    assert t[..3] == [Digit(a), Digit(b), Digit(c)] && t[..2] == [Digit(a), Digit(b)] && t[..1] == [Digit(a)];
    assert t[..3][..2] == t[..2] && t[..2][..1] == t[..1] && t[..1][..0] == "";
    assert Number64(t[..1]) == a;
    assert Number64(t[..2]) == 64 * a + b;
    assert Number64(t[..3]) == 64 * (64 * a + b) + c;
  }

  /** The bytes as one number in base 256. */
  function Number256(b: Bytes): nat {
    if b == [] then 0 else 256 * Number256(b[..|b| - 1]) + b[|b| - 1]
  }

  lemma ShortNumbers(a: Byte, b: Byte, c: Byte)
    ensures Number256([a]) == a && Number256([a, b]) == 256 * a + b
    ensures Number256([a, b, c]) == 65536 * a + 256 * b + c
  {
    assert [a, b, c][..2] == [a, b] && [a, b][..1] == [a] && [a][..0] == [];
    assert Number256([a]) == a;
    assert Number256([a, b]) == 256 * a + b;
  }

  lemma {:induction false} EncodedLength(b: Bytes)
    ensures |Encode(b)| == (4 * |b| + 2) / 3
  {
    hide Digit;
    if |b| >= 3 {
      EncodedLength(b[3..]);
    }
  }

  lemma FirstGroup(b: Bytes)
    requires |b| >= 3
    ensures |Encode(b)| >= 4 && Number64(Encode(b)[..4]) == Number256(b[..3]) && Encode(b)[4..] == Encode(b[3..])
  {
    hide Digit, Value, Number64, Number256;
    ShortNumbers(b[0], b[1], b[2]);
    Quantum(b[0] / 4, b[0] % 4 * 16 + b[1] / 16, b[1] % 16 * 4 + b[2] / 64, b[2] % 64);
    assert b[..3] == [b[0], b[1], b[2]];
    assert Encode(b)[..4] == [Digit(b[0] / 4), Digit(b[0] % 4 * 16 + b[1] / 16), Digit(b[1] % 16 * 4 + b[2] / 64),
                              Digit(b[2] % 64)];
  }

  lemma LastGroup(b: Bytes)
    requires |b| in {1, 2}
    ensures |b| == 1 ==> |Encode(b)| == 2 && Number64(Encode(b)) == 16 * Number256(b)
    ensures |b| == 2 ==> |Encode(b)| == 3 && Number64(Encode(b)) == 4 * Number256(b)
  {
    hide Digit, Value, Number64, Number256;
    if |b| == 1 {
      assert b == [b[0]];
      ShortNumbers(b[0], 0, 0);
      Quantum(b[0] / 4, b[0] % 4 * 16, 0, 0);
    } else {
      assert b == [b[0], b[1]];
      ShortNumbers(b[0], b[1], 0);
      Quantum(b[0] / 4, b[0] % 4 * 16 + b[1] / 16, b[1] % 16 * 4, 0);
    }
  }

  /**
   Three bytes and the four characters in their place are the same number, and so are the bytes and
   characters left at the end, but for two or four bits of padding.
   */
  lemma {:induction false} GroupsAreTheSameNumbers(b: Bytes, k: nat)
    requires 3 * k < |b|
    ensures var t := Encode(b);
            && |t| == (4 * |b| + 2) / 3
            && (3 * k + 3 <= |b| ==> Number64(t[4 * k..4 * k + 4]) == Number256(b[3 * k..3 * k + 3]))
            && (3 * k + 2 == |b| ==> Number64(t[4 * k..]) == 4 * Number256(b[3 * k..]))
            && (3 * k + 1 == |b| ==> Number64(t[4 * k..]) == 16 * Number256(b[3 * k..]))
    decreases k
  {
    hide Encode, Number64, Number256;
    EncodedLength(b);
    var t := Encode(b);
    if k > 0 {
      FirstGroup(b);
      GroupsAreTheSameNumbers(b[3..], k - 1);
      var u, c := Encode(b[3..]), b[3..];
      assert t[4 * k..] == u[4 * (k - 1)..] && b[3 * k..] == c[3 * (k - 1)..];
      if 3 * k + 3 <= |b| {
        assert t[4 * k..4 * k + 4] == u[4 * (k - 1)..4 * (k - 1) + 4];
        assert b[3 * k..3 * k + 3] == c[3 * (k - 1)..3 * (k - 1) + 3];
      }
    } else if |b| >= 3 {
      FirstGroup(b);
      assert t[0..4] == t[..4] && b[0..3] == b[..3];
    } else {
      LastGroup(b);
      assert t[0..] == t && b[0..] == b;
    }
  }
}

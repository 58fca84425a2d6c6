/**
  The hand-written UTF-8 validator of plugin/srt-session.cpp, against the encoding of section 3 of
  RFC 3629. The specification works on integers; the validator masks bytes as the source does, and its
  six-bit shifts of the code point are the equal products.
 */
module Utf8 {
  import opened Words

  /** A Unicode scalar value. */
  type Scalar = c: int | 0 <= c <= 0x10FFFF && !(0xD800 <= c <= 0xDFFF)

  function EncodeOne(c: Scalar): (r: seq<Byte>)
    ensures 1 <= |r| <= 4
  {
    if c < 0x80 then [c]
    else if c < 0x800 then [0xC0 + c / 64, 0x80 + c % 64]
    else if c < 0x10000 then [0xE0 + c / 64 / 64, 0x80 + c / 64 % 64, 0x80 + c % 64]
    else [0xF0 + c / 64 / 64 / 64, 0x80 + c / 64 / 64 % 64, 0x80 + c / 64 % 64, 0x80 + c % 64]
  }

  function Encode(cs: seq<Scalar>): seq<Byte> {
    if cs == [] then [] else EncodeOne(cs[0]) + Encode(cs[1..])
  }

  // The masks the validator applies, as arithmetic on the byte

  function AsByte(b: bv8): Byte {
    b as int
  }

  function Bytes(value: seq<bv8>): (bytes: seq<Byte>)
    ensures |bytes| == |value| && forall i :: 0 <= i < |value| ==> bytes[i] == AsByte(value[i])
  {
    seq(|value|, i requires 0 <= i < |value| => AsByte(value[i]))
  }

  function Low6(b: bv8): (r: int)
    ensures r == AsByte(b) % 64
  {
    (b & 0x3F) as int
  }

  function Low5(b: bv8): (r: int)
    ensures r == AsByte(b) % 32
  {
    (b & 0x1F) as int
  }

  function Low4(b: bv8): (r: int)
    ensures r == AsByte(b) % 16
  {
    (b & 0x0F) as int
  }

  function Low3(b: bv8): (r: int)
    ensures r == AsByte(b) % 8
  {
    (b & 0x07) as int
  }

  predicate TopBitsContinue(b: bv8)
    ensures TopBitsContinue(b) <==> AsByte(b) / 64 == 2
  {
    (b & 0xC0) == 0x80
  }

  function WidthOf(lead: Byte): (w: nat)
    ensures w <= 4
  {
    if lead <= 0x7F then 1
    else if 0xC2 <= lead <= 0xDF then 2
    else if 0xE0 <= lead <= 0xEF then 3
    else if 0xF0 <= lead <= 0xF4 then 4
    else 0
  }

  function LeadBits(lead: Byte): int {
    match WidthOf(lead)
    case 2 => lead % 32
    case 3 => lead % 16
    case 4 => lead % 8
    case _ => lead
  }

  predicate Continuation(b: Byte) { b / 64 == 2 }

  /** The code point of the lead byte and `n - 1` continuation bytes. */
  function Folded(s: seq<Byte>, n: nat): int
    requires 1 <= n <= |s|
  {
    if n == 1 then LeadBits(s[0]) else Folded(s, n - 1) * 64 + s[n - 1] % 64
  }

  predicate Rejected(width: nat, c: int) {
    || (width == 2 && c < 0x80) || (width == 3 && c < 0x800)
    || (width == 4 && (c < 0x10000 || c > 0x10FFFF))
    || 0xD800 <= c <= 0xDFFF
  }

  /** `s` starts with one accepted character of width `w`. */
  predicate Accepts(s: seq<Byte>, w: nat) {
    && 0 < |s| && w == WidthOf(s[0]) && 1 <= w <= |s|
    && (forall j :: 1 <= j < w ==> Continuation(s[j]))
    && !Rejected(w, Folded(s, w))
  }

  lemma Unfold(s: seq<Byte>, w: nat)
    requires 1 <= w <= 4 && w <= |s|
    ensures Folded(s, 1) == LeadBits(s[0])
    ensures w >= 2 ==> Folded(s, 2) == LeadBits(s[0]) * 64 + s[1] % 64
    ensures w >= 3 ==> Folded(s, 3) == (LeadBits(s[0]) * 64 + s[1] % 64) * 64 + s[2] % 64
    ensures w >= 4 ==> Folded(s, 4) == ((LeadBits(s[0]) * 64 + s[1] % 64) * 64 + s[2] % 64) * 64 + s[3] % 64
  {
    if w >= 3 { assert Folded(s, 3) == Folded(s, 2) * 64 + s[2] % 64; }
    if w >= 4 { assert Folded(s, 4) == Folded(s, 3) * 64 + s[3] % 64; }
  }

  lemma Digits(high: nat, low: nat)
    requires low < 64
    ensures (high * 64 + low) / 64 == high && (high * 64 + low) % 64 == low
  {
  }

  lemma EncodeTwo(l: nat, x: nat)
    requires 2 <= l < 32 && x < 64
    ensures EncodeOne(l * 64 + x) == [0xC0 + l, 0x80 + x]
  {
    Digits(l, x);
  }

  lemma EncodeThree(l: nat, x: nat, y: nat)
    requires l < 16 && x < 64 && y < 64
    requires var c := (l * 64 + x) * 64 + y; 0x800 <= c && !(0xD800 <= c <= 0xDFFF)
    ensures EncodeOne((l * 64 + x) * 64 + y) == [0xE0 + l, 0x80 + x, 0x80 + y]
  {
    Digits(l, x);
    Digits(l * 64 + x, y);
  }

  lemma EncodeFour(l: nat, x: nat, y: nat, z: nat)
    requires l < 5 && x < 64 && y < 64 && z < 64
    requires 0x10000 <= ((l * 64 + x) * 64 + y) * 64 + z <= 0x10FFFF
    ensures EncodeOne(((l * 64 + x) * 64 + y) * 64 + z) == [0xF0 + l, 0x80 + x, 0x80 + y, 0x80 + z]
  {
    Digits(l, x);
    Digits(l * 64 + x, y);
    Digits((l * 64 + x) * 64 + y, z);
  }

  lemma LeadByte(b: Byte)
    ensures WidthOf(b) == 1 <==> b <= 0x7F
    ensures WidthOf(b) == 2 <==> 0xC2 <= b < 0xE0
    ensures WidthOf(b) == 3 <==> 0xE0 <= b < 0xF0
    ensures WidthOf(b) == 4 <==> 0xF0 <= b < 0xF5
    ensures b <= 0x7F ==> LeadBits(b) == b
    ensures 0xC2 <= b < 0xE0 ==> LeadBits(b) == b - 0xC0
    ensures 0xE0 <= b < 0xF0 ==> LeadBits(b) == b - 0xE0
    ensures 0xF0 <= b < 0xF5 ==> LeadBits(b) == b - 0xF0
  {
  }

  lemma ContinuationByte(b: Byte)
    ensures Continuation(b) <==> 0x80 <= b < 0xC0
    ensures Continuation(b) ==> b == 0x80 + b % 64
  {
  }

  /** What the validator accepts at one position is the encoding of the code point it folded. */
  lemma AcceptedIsEncoding(s: seq<Byte>, w: nat)
    requires Accepts(s, w)
    ensures var c := Folded(s, w);
            0 <= c <= 0x10FFFF && !(0xD800 <= c <= 0xDFFF) && EncodeOne(c) == s[..w]
  {
    hide Folded, WidthOf, LeadBits, Continuation;
    Unfold(s, w);
    LeadByte(s[0]);
    forall j | 1 <= j < w ensures s[j] == 0x80 + s[j] % 64 { ContinuationByte(s[j]); }
    if w == 1 {
      assert s[..1] == [s[0]];
    } else {
      hide EncodeOne;
      if w == 2 {
        EncodeTwo(s[0] - 0xC0, s[1] % 64);
        assert s[..2] == [s[0], s[1]];
      } else if w == 3 {
        EncodeThree(s[0] - 0xE0, s[1] % 64, s[2] % 64);
        assert s[..3] == [s[0], s[1], s[2]];
      } else {
        AcceptedFour(s);
      }
    }
  }

  lemma AcceptedFour(s: seq<Byte>)
    requires Accepts(s, 4)
    ensures 0x10000 <= Folded(s, 4) <= 0x10FFFF && EncodeOne(Folded(s, 4)) == s[..4]
  {
    hide Folded, WidthOf, LeadBits, Continuation, EncodeOne;
    Unfold(s, 4);
    LeadByte(s[0]);
    ContinuationByte(s[1]);
    ContinuationByte(s[2]);
    ContinuationByte(s[3]);
    EncodeFour(s[0] - 0xF0, s[1] % 64, s[2] % 64, s[3] % 64);
    assert s[..4] == [s[0], s[1], s[2], s[3]];
  }

  /** The sixty-fourths digits of a code point recombine to it. */
  lemma Recombine(c: nat)
    ensures c == c / 64 * 64 + c % 64
    ensures c == (c / 64 / 64 * 64 + c / 64 % 64) * 64 + c % 64
    ensures c == ((c / 64 / 64 / 64 * 64 + c / 64 / 64 % 64) * 64 + c / 64 % 64) * 64 + c % 64
  {
  }

  /** And it accepts every encoding, whatever follows it. */
  lemma EncodingIsAccepted(c: Scalar, rest: seq<Byte>)
    ensures var s := EncodeOne(c) + rest; var w := |EncodeOne(c)|;
            Accepts(s, w) && Folded(s, w) == c
  {
    hide Folded, WidthOf, LeadBits, Continuation;
    var s, w := EncodeOne(c) + rest, |EncodeOne(c)|;
    Unfold(s, w);
    LeadByte(s[0]);
    Recombine(c);
    forall j | 1 <= j < w
      ensures Continuation(s[j]) && s[j] == 0x80 + s[j] % 64
    {
      assert 0x80 <= s[j] < 0xC0;
      ContinuationByte(s[j]);
    }
  }

  ghost predicate WellFormed(s: seq<Byte>) {
    exists cs: seq<Scalar> :: Encode(cs) == s
  }

  /** The scalars a well-formed string encodes, read off one accepted character at a time. */
  function Decode(s: seq<Byte>): Option<seq<Scalar>> {
    if s == [] then Some([])
    else
      var w := WidthOf(s[0]);
      if !Accepts(s, w) then None
      else
        AcceptedIsEncoding(s, w);
        var rest := Decode(s[w..]);
        if rest.None? then None else Some([Folded(s, w)] + rest.value)
  }

  lemma {:induction false} DecodeEncode(cs: seq<Scalar>)
    ensures Decode(Encode(cs)) == Some(cs)
  {
    if cs != [] {
      DecodeEncode(cs[1..]);
      var rest := Encode(cs[1..]);
      EncodingIsAccepted(cs[0], rest);
      assert (EncodeOne(cs[0]) + rest)[|EncodeOne(cs[0])|..] == rest;
      assert [cs[0]] + cs[1..] == cs;
    }
  }

  lemma {:induction false} EncodeDecode(s: seq<Byte>)
    requires Decode(s).Some?
    ensures Encode(Decode(s).value) == s
  {
    hide EncodeOne, Folded, WidthOf;
    if s != [] {
      var w := WidthOf(s[0]);
      AcceptedIsEncoding(s, w);
      EncodeDecode(s[w..]);
      assert s == s[..w] + s[w..];
    }
  }

  /** No two scalar sequences have the same encoding. */
  lemma EncodingUnique(cs: seq<Scalar>, ds: seq<Scalar>)
    requires Encode(cs) == Encode(ds)
    ensures cs == ds
  {
    DecodeEncode(cs);
    DecodeEncode(ds);
  }

  lemma WellFormedIffDecodes(s: seq<Byte>)
    ensures WellFormed(s) <==> Decode(s).Some?
  {
    if WellFormed(s) {
      var cs: seq<Scalar> :| Encode(cs) == s;
      DecodeEncode(cs);
    }
    if Decode(s).Some? { EncodeDecode(s); }
  }

  lemma DecodeEmpty()
    ensures Decode([]).Some?
  {
  }

  lemma DecodeStep(s: seq<Byte>)
    requires s != []
    ensures var w := WidthOf(s[0]);
            Decode(s).Some? <==> Accepts(s, w) && Decode(s[w..]).Some?
  {
  }

  /** The validator accepts exactly the encodings of scalar sequences. */
  method ValidUtf8(value: seq<bv8>) returns (ok: bool)
    ensures ok <==> WellFormed(Bytes(value))
  {
    hide Decode, WellFormed, Bytes, AsByte, Low3, Low4, Low5, Low6, TopBitsContinue;
    ghost var bytes := Bytes(value);
    WellFormedIffDecodes(bytes);
    DecodeEmpty();
    assert bytes[0..] == bytes;
    var i := 0;
    while i < |value|
      invariant 0 <= i <= |value|
      invariant Decode(bytes).Some? <==> Decode(bytes[i..]).Some?
    {
      ghost var rest := bytes[i..];
      DecodeStep(rest);
      var lead := AsByte(value[i]);
      assert rest[0] == lead;
      var width: nat, codepoint: int := 0, 0;
      if lead <= 0x7F {
        width, codepoint := 1, lead;
      } else if 0xC2 <= lead <= 0xDF {
        width, codepoint := 2, Low5(value[i]);
      } else if 0xE0 <= lead <= 0xEF {
        width, codepoint := 3, Low4(value[i]);
      } else if 0xF0 <= lead <= 0xF4 {
        width, codepoint := 4, Low3(value[i]);
      } else {
        return false;
      }
      if i + width > |value| {
        return false;
      }
      var j := 1;
      while j < width
        invariant 1 <= j <= width
        invariant forall k :: 1 <= k < j ==> Continuation(rest[k])
        invariant codepoint == Folded(rest, j)
      {
        var continuation := value[i + j];
        assert AsByte(continuation) == rest[j];
        if !TopBitsContinue(continuation) {
          return false;
        }
        codepoint := codepoint * 64 + Low6(continuation);
        j := j + 1;
      }
      if (width == 2 && codepoint < 0x80) || (width == 3 && codepoint < 0x800)
         || (width == 4 && (codepoint < 0x10000 || codepoint > 0x10FFFF))
         || 0xD800 <= codepoint <= 0xDFFF {
        return false;
      }
      assert rest[width..] == bytes[i + width..];
      i := i + width;
    }
    assert bytes[i..] == [];
    ok := true;
  }
}

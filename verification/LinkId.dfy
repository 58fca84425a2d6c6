/** The 64-bit link id of an adapter (plugin/srtla-output.cpp:220-228). */
module LinkId {
  import opened Words

  const MODULUS: int := 0x1_0000_0000_0000_0000

  /** Exclusive or of the low `bits` bits, bit by bit. */
  function Xor(a: nat, b: nat, bits: nat): nat {
    if bits == 0 then 0 else (if a % 2 == b % 2 then 0 else 1) + 2 * Xor(a / 2, b / 2, bits - 1)
  }

  function Pow2(bits: nat): nat {
    if bits == 0 then 1 else 2 * Pow2(bits - 1)
  }

  lemma {:induction false} XorBound(a: nat, b: nat, bits: nat)
    ensures Xor(a, b, bits) < Pow2(bits)
  {
    if bits > 0 { XorBound(a / 2, b / 2, bits - 1); }
  }

  lemma {:induction false} XorCommutes(a: nat, b: nat, bits: nat)
    ensures Xor(a, b, bits) == Xor(b, a, bits)
  {
    if bits > 0 { XorCommutes(a / 2, b / 2, bits - 1); }
  }

  lemma {:induction false} XorUndone(a: nat, b: nat, bits: nat)
    requires a < Pow2(bits)
    ensures Xor(Xor(a, b, bits), b, bits) == a
  {
    if bits > 0 {
      var half := Xor(a / 2, b / 2, bits - 1);
      var r := Xor(a, b, bits);
      XorUndone(a / 2, b / 2, bits - 1);
      assert r / 2 == half && (r % 2 == 0 <==> a % 2 == b % 2);
    }
  }

  lemma EightBits()
    ensures Pow2(8) == 256
  {
    assert Pow2(4) == 16;
    assert Pow2(6) == 64;
  }

  function Xor8(a: Byte, b: Byte): Byte {
    EightBits();
    XorBound(a, b, 8);
    Xor(a, b, 8)
  }

  /** Exclusive or with a byte touches only the low eight bits of the state. */
  function Mix(h: U64, c: Byte): U64 {
    h / 256 * 256 + Xor8(h % 256, c)
  }

  function Multiply(h: U64): U64 {
    h * 1099511628211 % MODULUS
  }

  /** One step of the hash: the byte is mixed in, then the state is multiplied modulo 2^64. */
  function Absorb(h: U64, c: Byte): U64 {
    Multiply(Mix(h, c))
  }

  /** The hash state after the bytes `id`, from state `h`. */
  function HashFrom(h: U64, id: seq<Byte>): U64
    decreases |id|
  {
    if id == [] then h else HashFrom(Absorb(h, id[0]), id[1..])
  }

  const OFFSET: U64 := 1469598103934665603

  function LinkIdOf(id: seq<Byte>): U64 {
    HashFrom(OFFSET, id)
  }

  lemma Xor8Laws(a: Byte, b: Byte)
    ensures Xor8(Xor8(a, b), b) == a && Xor8(a, b) == Xor8(b, a)
  {
    EightBits();
    XorUndone(a, b, 8);
    XorCommutes(a, b, 8);
  }

  lemma MixInjective(g: U64, h: U64, c: Byte, d: Byte)
    requires Mix(g, c) == Mix(h, d)
    ensures c == d <==> g == h
  {
    hide Xor8;
    assert g / 256 == h / 256 && Xor8(g % 256, c) == Xor8(h % 256, d);
    Xor8Laws(g % 256, c);
    Xor8Laws(h % 256, d);
    Xor8Laws(c, g % 256);
    Xor8Laws(d, h % 256);
  }

  lemma Remainder(x: int, k: int)
    requires 0 <= x < MODULUS
    ensures (x + k * MODULUS) % MODULUS == x
  {
  }

  /** The multiplier is odd: 1099511628211 * 14886173955864302971 is one modulo 2^64, so multiplying can be undone. */
  lemma MultiplyUndone(x: U64)
    ensures Multiply(x) * 14886173955864302971 % MODULUS == x
  {
    var k := x * 1099511628211 / MODULUS;
    assert Multiply(x) == x * 1099511628211 - k * MODULUS;
    var t := 887285111055 * x - 14886173955864302971 * k;
    assert Multiply(x) * 14886173955864302971 == x + t * MODULUS;
    Remainder(x, t);
  }

  /** A step loses neither the state nor the byte. */
  lemma AbsorbInjective(g: U64, h: U64, c: Byte, d: Byte)
    requires Absorb(g, c) == Absorb(h, d)
    ensures c == d <==> g == h
  {
    hide Multiply, Mix;
    MultiplyUndone(Mix(g, c));
    MultiplyUndone(Mix(h, d));
    MixInjective(g, h, c, d);
  }

  /** Absorbing a whole string is injective on states. */
  lemma {:induction false} HashInjective(g: U64, h: U64, id: seq<Byte>)
    requires HashFrom(g, id) == HashFrom(h, id)
    ensures g == h
    decreases |id|
  {
    hide Absorb;
    if id != [] {
      HashInjective(Absorb(g, id[0]), Absorb(h, id[0]), id[1..]);
      AbsorbInjective(g, h, id[0], id[0]);
    }
  }

  lemma {:induction false} HashConcat(h: U64, a: seq<Byte>, b: seq<Byte>)
    ensures HashFrom(h, a + b) == HashFrom(HashFrom(h, a), b)
    decreases |a|
  {
    hide Absorb;
    if a == [] {
      assert a + b == b;
    } else {
      assert (a + b)[1..] == a[1..] + b;
      HashConcat(Absorb(h, a[0]), a[1..], b);
    }
  }

  /** Adapter ids of equal length that differ in exactly one byte never share a link id. */
  lemma OneByteApart(a: seq<Byte>, b: seq<Byte>, i: nat)
    requires |a| == |b| && i < |a| && a[i] != b[i]
    requires forall k :: 0 <= k < |a| && k != i ==> a[k] == b[k]
    ensures LinkIdOf(a) != LinkIdOf(b)
  {
    hide Absorb;
    var head, tail := a[..i], a[i + 1..];
    assert a == head + ([a[i]] + tail) && b == head + ([b[i]] + tail);
    var h := HashFrom(OFFSET, head);
    HashConcat(OFFSET, head, [a[i]] + tail);
    HashConcat(OFFSET, head, [b[i]] + tail);
    assert ([a[i]] + tail)[1..] == tail && ([b[i]] + tail)[1..] == tail;
    if LinkIdOf(a) == LinkIdOf(b) {
      HashInjective(Absorb(h, a[i]), Absorb(h, b[i]), tail);
      AbsorbInjective(h, h, a[i], b[i]);
    }
  }

  /** Bit `i` of a number. */
  function Bit(a: nat, i: nat): nat {
    if i == 0 then a % 2 else Bit(a / 2, i - 1)
  }

  /** The exclusive or has a one exactly where the operands differ. */
  lemma {:induction false} XorBits(a: nat, b: nat, bits: nat, i: nat)
    requires i < bits
    ensures Bit(Xor(a, b, bits), i) == if Bit(a, i) == Bit(b, i) then 0 else 1
  {
    var rest := Xor(a / 2, b / 2, bits - 1);
    var low := if a % 2 == b % 2 then 0 else 1;
    assert (low + 2 * rest) % 2 == low && (low + 2 * rest) / 2 == rest;
    if i > 0 { XorBits(a / 2, b / 2, bits - 1, i - 1); }
  }

  /** The id of the empty string is the start value, that of one byte the value with the byte mixed in, multiplied. */
  lemma ShortIds(c: Byte)
    ensures LinkIdOf([]) == 1469598103934665603
    ensures LinkIdOf([c]) == (1469598103934665472 + Xor(131, c, 8)) * 1099511628211 % 0x1_0000_0000_0000_0000
  {
    hide Xor8, Xor;
    assert [c][1..] == [];
    assert HashFrom(Absorb(OFFSET, c), [c][1..]) == Absorb(OFFSET, c);
    Xor8IsXor(131, c);
    assert Mix(OFFSET, c) == 1469598103934665472 + Xor8(131, c);
  }

  lemma Xor8IsXor(a: Byte, b: Byte)
    ensures Xor8(a, b) == Xor(a, b, 8)
  {
  }

  /** So the letter a, say, has a known id. */
  lemma LetterId()
    ensures LinkIdOf([97]) == 4953267810257967366
  {
    ShortIds(97);
    LetterMixed();
    Remainder(4953267810257967366, 87594872982);
    hide Xor, LinkIdOf;
  }

  lemma LetterMixed()
    ensures Xor(131, 97, 8) == 226
  {
    assert Xor(8, 6, 4) == 14;
  }

  /** The loop of the source computes that hash. */
  method StableLinkId(value: seq<Byte>) returns (hash: U64)
    ensures hash == LinkIdOf(value)
  {
    hide Multiply, Mix;
    hash := OFFSET;
    assert value[0..] == value;
    for i := 0 to |value|
      invariant LinkIdOf(value) == HashFrom(hash, value[i..])
    {
      assert value[i..][1..] == value[i + 1..];
      hash := Mix(hash, value[i]);
      hash := Multiply(hash);
    }
  }
}

/** The Scheme number value of the AST: a kind tag and a 64-bit payload shared by the
    exact (int64) and the inexact (double) representation. The double is kept as its
    bit pattern; nothing here interprets it. */
module Numbers {

  const TWO_63: int := 0x8000_0000_0000_0000
  const TWO_64: int := 0x1_0000_0000_0000_0000

  /** ExactNumberT. */
  type int64 = x: int | -TWO_63 <= x < TWO_63

  /** An unsigned 64-bit pattern (the union's 8 bytes read as one unsigned word). */
  type uint64 = x: int | 0 <= x < TWO_64

  datatype NumberKind = ExactKind | InexactKind

  /** A Number is its kind plus the 8 payload bytes of the union. */
  datatype Number = Number(kind: NumberKind, payload: uint64)

  /** The two's complement bit pattern of an int64. */
  function ExactBits(v: int64): (b: uint64)
  {
    if v < 0 then v + TWO_64 else v
  }

  /** The int64 whose two's complement pattern is `b`. */
  function BitsValue(b: uint64): (v: int64)
  {
    if b < TWO_63 then b else b - TWO_64
  }

  lemma {:induction false} BitsValueOfExactBits(v: int64)
    ensures BitsValue(ExactBits(v)) == v
  {
    if v < 0 {
      assert ExactBits(v) == v + TWO_64;
    }
  }

  lemma {:induction false} ExactBitsOfBitsValue(b: uint64)
    ensures ExactBits(BitsValue(b)) == b
  {
    if b >= TWO_63 {
      assert BitsValue(b) + TWO_64 == b;
    }
  }

  /** Unary minus on an int64, wrapping as the machine does: the negation of the
      smallest int64 is itself. */
  function WrapNegate(b: uint64): (r: uint64)
    ensures BitsValue(b) != -TWO_63 ==> BitsValue(r) == -BitsValue(b)
    ensures BitsValue(b) == -TWO_63 ==> r == b
  {
    (TWO_64 - b) % TWO_64
  }

  /** Unary minus on a double's bit pattern: the sign bit (bit 63) flips and the other
      63 bits stay. */
  function FlipSign(b: uint64): (r: uint64)
    ensures (r < TWO_63) <==> (b >= TWO_63)
    ensures r % TWO_63 == b % TWO_63
  {
    (b + TWO_63) % TWO_64
  }

  /** Number(): the default number is exact zero. */
  function DefaultNumber(): (n: Number)
    ensures IsExact(n) && GetExact(n) == 0
  {
    Number(ExactKind, 0)
  }

  /** ASTContext::makeExactNumber. */
  function MakeExact(v: int64): (n: Number)
    ensures IsExact(n) && GetExact(n) == v
  {
    BitsValueOfExactBits(v);
    Number(ExactKind, ExactBits(v))
  }

  /** ASTContext::makeInexactNumber, on the double's bit pattern. */
  function MakeInexact(bits: uint64): (n: Number)
    ensures IsInexact(n) && GetInexact(n) == bits
  {
    Number(InexactKind, bits)
  }

  predicate IsExact(n: Number) { n.kind == ExactKind }

  predicate IsInexact(n: Number) { n.kind == InexactKind }

  /** Exactly one of the two kind predicates holds. */
  lemma KindsPartition(n: Number)
    ensures IsExact(n) != IsInexact(n)
  {
  }

  /** getExact: only defined on exact numbers. */
  function GetExact(n: Number): int64
    requires IsExact(n)
  {
    BitsValue(n.payload)
  }

  /** getInexact: only defined on inexact numbers. */
  function GetInexact(n: Number): uint64
    requires IsInexact(n)
  {
    n.payload
  }

  /** Number::equals / operator==: same kind and the same 64-bit pattern. */
  predicate Equals(a: Number, b: Number)
  {
    a.kind == b.kind && a.payload == b.payload
  }

  /** Number::exactEquals. */
  predicate ExactEquals(n: Number, o: int64)
  {
    n.kind == ExactKind && BitsValue(n.payload) == o
  }

  /** Number::inexactEquals, comparing bit patterns. */
  predicate InexactEquals(n: Number, o: uint64)
  {
    n.kind == InexactKind && n.payload == o
  }

  /** equals is value identity of the (kind, payload) pair. */
  lemma EqualsIsIdentity(a: Number, b: Number)
    ensures Equals(a, b) <==> a == b
  {
  }

  /** exactEquals(o) holds exactly for the exact number made from o. */
  lemma {:induction false} ExactEqualsIffMadeFrom(n: Number, o: int64)
    ensures ExactEquals(n, o) <==> n == MakeExact(o)
  {
    if ExactEquals(n, o) {
      ExactBitsOfBitsValue(n.payload);
    }
  }

  /** Two exact numbers are equal iff their values are. */
  lemma {:induction false} ExactEqualsInjective(x: int64, y: int64)
    ensures Equals(MakeExact(x), MakeExact(y)) <==> x == y
  {
    BitsValueOfExactBits(x);
    BitsValueOfExactBits(y);
  }

  /** An exact number never equals an inexact one, whatever the payloads. */
  lemma ExactNeverEqualsInexact(x: int64, bits: uint64)
    ensures !Equals(MakeExact(x), MakeInexact(bits))
  {
  }
}

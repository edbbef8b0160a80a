/**
 * The element type record of include/data_type.h: five bit-fields packed into
 * one 32-bit word, an equality that compares the two words through a union,
 * and the twelve named element types.
 */
module DataType {

  /** Field widths of the bit-fields: packed:8, sign:1, size:7, mantissa:8, exponent:8. */
  type Bits8 = x: nat | x < 0x100
  type Bit1 = x: nat | x < 2
  type Bits7 = x: nat | x < 0x80

  datatype DataLayout = DataLayout(packed: Bits8, sign: Bit1, size: Bits7, mantissa: Bits8, exponent: Bits8)

  /**
   * The unsigned int that `operator==` reads back through its union. The five
   * fields fill two unsigned shorts exactly, allocated from the least
   * significant bit: packed in bits 0-7, sign in bit 8, size in bits 9-15,
   * mantissa in bits 16-23 and exponent in bits 24-31.
   */
  function Word(l: DataLayout): (w: nat)
    ensures w < 0x1_0000_0000
  {
    l.packed + 0x100 * (l.sign + 2 * (l.size + 0x80 * (l.mantissa + 0x100 * l.exponent)))
  }

  /** Reads the five fields back out of a word. */
  function Fields(w: nat): DataLayout
    requires w < 0x1_0000_0000
  {
    DataLayout(w % 0x100, (w / 0x100) % 2, (w / 0x200) % 0x80, (w / 0x1_0000) % 0x100, w / 0x100_0000)
  }

  /** No two layouts share a word: the pun loses nothing. */
  lemma {:induction false} FieldsOfWord(l: DataLayout)
    ensures Fields(Word(l)) == l
  {
    var e: nat := l.exponent;
    var m: nat := l.mantissa + 0x100 * e;
    var z: nat := l.size + 0x80 * m;
    var s: nat := l.sign + 2 * z;
    var w: nat := l.packed + 0x100 * s;
    assert Word(l) == w;
    assert w % 0x100 == l.packed && w / 0x100 == s;
    assert s % 2 == l.sign && s / 2 == z;
    assert z % 0x80 == l.size && z / 0x80 == m;
    assert m % 0x100 == l.mantissa && m / 0x100 == e;
    assert w / 0x200 == z;
    assert w / 0x1_0000 == m;
    assert w / 0x100_0000 == e;
  }

  /** `operator==`: the two punned words are equal, which happens exactly when every field is. */
  predicate Eq(a: DataLayout, b: DataLayout)
    ensures Eq(a, b) <==> a == b
  {
    FieldsOfWord(a);
    FieldsOfWord(b);
    Word(a) == Word(b)
  }

  /** `operator!=`: the negation of `operator==`. */
  predicate Ne(a: DataLayout, b: DataLayout)
  {
    !Eq(a, b)
  }

  lemma NeIsFieldDifference(a: DataLayout, b: DataLayout)
    ensures Ne(a, b) <==> (a.packed != b.packed || a.sign != b.sign || a.size != b.size
                           || a.mantissa != b.mantissa || a.exponent != b.exponent)
  {
  }

  lemma EqIsEquivalence(a: DataLayout, b: DataLayout, c: DataLayout)
    ensures Eq(a, a)
    ensures Eq(a, b) ==> Eq(b, a)
    ensures Eq(a, b) && Eq(b, c) ==> Eq(a, c)
  {
  }

  const I8: DataLayout := DataLayout(1, 1, 1, 7, 0)
  const I16: DataLayout := DataLayout(1, 1, 2, 15, 0)
  const I32: DataLayout := DataLayout(1, 1, 4, 31, 0)
  const I64: DataLayout := DataLayout(1, 1, 8, 63, 0)
  const U8: DataLayout := DataLayout(1, 0, 1, 8, 0)
  const U16: DataLayout := DataLayout(1, 0, 2, 16, 0)
  const U32: DataLayout := DataLayout(1, 0, 4, 32, 0)
  const U64: DataLayout := DataLayout(1, 0, 8, 64, 0)
  const F16: DataLayout := DataLayout(1, 1, 2, 10, 5)
  const BF16: DataLayout := DataLayout(1, 1, 2, 7, 8)
  const F32: DataLayout := DataLayout(1, 1, 4, 23, 8)
  const F64: DataLayout := DataLayout(1, 1, 8, 52, 11)

  /** The twelve named element types, in declaration order. */
  const Named: seq<DataLayout> := [I8, I16, I32, I64, U8, U16, U32, U64, F16, BF16, F32, F64]

  const SignedIntegers: seq<DataLayout> := [I8, I16, I32, I64]
  const UnsignedIntegers: seq<DataLayout> := [U8, U16, U32, U64]

  /** No two named element types compare equal under `operator==`. */
  lemma NamedPairwiseUnequal()
    ensures forall i, j :: 0 <= i < j < |Named| ==> Ne(Named[i], Named[j])
  {
  }

  /** F16 and BF16 have the same byte size but are told apart by mantissa and exponent. */
  lemma HalfFormatsDiffer()
    ensures F16.size == BF16.size && Ne(F16, BF16)
    ensures F16.mantissa != BF16.mantissa && F16.exponent != BF16.exponent
  {
  }

  /** Integer types have no exponent bits; unsigned ones clear the sign bit, signed ones set it. */
  lemma IntegerLayouts()
    ensures forall t :: t in SignedIntegers ==> t.exponent == 0 && t.sign == 1
    ensures forall t :: t in UnsignedIntegers ==> t.exponent == 0 && t.sign == 0
  {
  }

  /** Every named type accounts for all its bits: sign + mantissa + exponent == 8 * size. */
  lemma NamedBitsAddUp()
    ensures forall t :: t in Named ==> t.sign + t.mantissa + t.exponent == 8 * t.size
  {
  }
}

/** GF(2^8) modulo x^8 + x^4 + x^3 + x^2 + 1, acting on bytes. */
module Gf256 {
  import opened Hadamard

  function Xtime(b: bv8): bv8 {
    (b << 1) ^ ((b >> 7) * 0x1d)
  }

  function Xor(a: bv8, b: bv8): bv8 {
    a ^ b
  }

  function Bytes(): Space<bv8> {
    Space(Xor, 0, Xtime)
  }

  lemma XtimeAdditive(a: bv8, b: bv8)
    ensures Xtime(Xor(a, b)) == Xor(Xtime(a), Xtime(b))
  {
  }

  lemma XorOfXors(a: bv8, b: bv8, c: bv8, d: bv8)
    ensures Xor(a ^ b, c ^ d) == Xor(a ^ c, b ^ d)
  {
  }

  lemma XorMedial(a: bv8, b: bv8, c: bv8, d: bv8)
    ensures Xor(Xor(a, b), Xor(c, d)) == Xor(Xor(a, c), Xor(b, d))
  {
    XorOfXors(a, b, c, d);
  }

  lemma XorZero(a: bv8)
    ensures Xor(a, 0) == a && Xor(0, a) == a && Xor(a, a) == 0
  {
  }

  lemma BytesAreBinarySpace()
    ensures BinarySpace(Bytes())
  {
    forall a: bv8 {
      XorZero(a);
    }
    forall a: bv8, b: bv8 {
      XtimeAdditive(a, b);
    }
    forall a: bv8, b: bv8, c: bv8, d: bv8 {
      XorMedial(a, b, c, d);
    }
  }

  lemma ByteConstants(b: bv8)
    ensures var (b2, b4, b8) := (Xtime(b), Xtime(Xtime(b)), Xtime(Xtime(Xtime(b))));
      && Times(Bytes(), ONE, b) == b && Times(Bytes(), TWO, b) == b2 && Times(Bytes(), THREE, b) == Xor(b, b2)
      && Times(Bytes(), FOUR, b) == b4 && Times(Bytes(), FIVE, b) == Xor(b, b4) && Times(Bytes(), SIX, b) == Xor(b2, b4)
      && Times(Bytes(), SEVEN, b) == Xor(b, Xor(b2, b4)) && Times(Bytes(), EIGHT, b) == b8
      && Times(Bytes(), ELEVEN, b) == Xor(b, Xor(b2, b8))
  {
    BytesAreBinarySpace();
    TimesConstants(Bytes(), b);
  }
}

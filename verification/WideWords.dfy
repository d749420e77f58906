/** 64-bit words and their bytes, the most significant first. */
module WideWords {
  import opened Gf256

  function B0(w: bv64): bv8 { ((w >> 56) & 0xff) as bv8 }
  function B1(w: bv64): bv8 { ((w >> 48) & 0xff) as bv8 }
  function B2(w: bv64): bv8 { ((w >> 40) & 0xff) as bv8 }
  function B3(w: bv64): bv8 { ((w >> 32) & 0xff) as bv8 }
  function B4(w: bv64): bv8 { ((w >> 24) & 0xff) as bv8 }
  function B5(w: bv64): bv8 { ((w >> 16) & 0xff) as bv8 }
  function B6(w: bv64): bv8 { ((w >> 8) & 0xff) as bv8 }
  function B7(w: bv64): bv8 { ((w >> 0) & 0xff) as bv8 }

  function Word(a: bv8, b: bv8, c: bv8, d: bv8, e: bv8, f: bv8, g: bv8, h: bv8): bv64 {
    ((a as bv64) << 56) ^ ((b as bv64) << 48) ^ ((c as bv64) << 40) ^ ((d as bv64) << 32) ^
    ((e as bv64) << 24) ^ ((f as bv64) << 16) ^ ((g as bv64) << 8) ^ (h as bv64)
  }

  function Xor64(a: bv64, b: bv64): bv64 {
    a ^ b
  }

  lemma WordOfBytes(w: bv64)
    ensures Word(B0(w), B1(w), B2(w), B3(w), B4(w), B5(w), B6(w), B7(w)) == w
  {
  }

  lemma BytesOfWord(a: bv8, b: bv8, c: bv8, d: bv8, e: bv8, f: bv8, g: bv8, h: bv8)
    ensures var w := Word(a, b, c, d, e, f, g, h);
      B0(w) == a && B1(w) == b && B2(w) == c && B3(w) == d &&
      B4(w) == e && B5(w) == f && B6(w) == g && B7(w) == h
  {
  }

  lemma WordXor(a: bv8, b: bv8, c: bv8, d: bv8, e: bv8, f: bv8, g: bv8, h: bv8,
                a': bv8, b': bv8, c': bv8, d': bv8, e': bv8, f': bv8, g': bv8, h': bv8)
    ensures Word(Xor(a, a'), Xor(b, b'), Xor(c, c'), Xor(d, d'), Xor(e, e'), Xor(f, f'), Xor(g, g'), Xor(h, h'))
         == Xor64(Word(a, b, c, d, e, f, g, h), Word(a', b', c', d', e', f', g', h'))
  {
  }
}

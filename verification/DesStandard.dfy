/**
  DES as FIPS 46-3 describes it, and that the routines of `NXTservices/des.c:97-262, 429-560` compute it: the
  expansion E, the eight S-boxes, the permutation P, and the network between the initial permutation and its
  inverse.  The source keeps both halves rotated left by one and folds P into its tables.
 */
module DesStandard {
  import opened Words
  import opened DesTables
  import opened Des

  /* ---- The tables of the standard ---- */

  /** Bit n of a word as the standard numbers them: from the left, starting with 1. */
  function Bit(w: bv32, n: bv32): bv32
    requires 1 <= n <= 32
  {
    (w >> (32 - n)) & 1
  }

  function Six(a: bv32, b: bv32, c: bv32, d: bv32, e: bv32, f: bv32): bv8 {
    (((a << 5) | (b << 4) | (c << 3) | (d << 2) | (e << 1) | f) & 0x3f) as bv8
  }

  /* The eight rows of the bit-selection table E. */

  function E1(r: bv32): bv8 {
    Six(Bit(r, 32), Bit(r, 1), Bit(r, 2), Bit(r, 3), Bit(r, 4), Bit(r, 5))
  }

  function E2(r: bv32): bv8 {
    Six(Bit(r, 4), Bit(r, 5), Bit(r, 6), Bit(r, 7), Bit(r, 8), Bit(r, 9))
  }

  function E3(r: bv32): bv8 {
    Six(Bit(r, 8), Bit(r, 9), Bit(r, 10), Bit(r, 11), Bit(r, 12), Bit(r, 13))
  }

  function E4(r: bv32): bv8 {
    Six(Bit(r, 12), Bit(r, 13), Bit(r, 14), Bit(r, 15), Bit(r, 16), Bit(r, 17))
  }

  function E5(r: bv32): bv8 {
    Six(Bit(r, 16), Bit(r, 17), Bit(r, 18), Bit(r, 19), Bit(r, 20), Bit(r, 21))
  }

  function E6(r: bv32): bv8 {
    Six(Bit(r, 20), Bit(r, 21), Bit(r, 22), Bit(r, 23), Bit(r, 24), Bit(r, 25))
  }

  function E7(r: bv32): bv8 {
    Six(Bit(r, 24), Bit(r, 25), Bit(r, 26), Bit(r, 27), Bit(r, 28), Bit(r, 29))
  }

  function E8(r: bv32): bv8 {
    Six(Bit(r, 28), Bit(r, 29), Bit(r, 30), Bit(r, 31), Bit(r, 32), Bit(r, 1))
  }

  /** The permutation P, row by row. */
  function P(w: bv32): bv32 {
    (Bit(w, 16) << 31) | (Bit(w, 7) << 30) | (Bit(w, 20) << 29) | (Bit(w, 21) << 28)
    | (Bit(w, 29) << 27) | (Bit(w, 12) << 26) | (Bit(w, 28) << 25) | (Bit(w, 17) << 24)
    | (Bit(w, 1) << 23) | (Bit(w, 15) << 22) | (Bit(w, 23) << 21) | (Bit(w, 26) << 20)
    | (Bit(w, 5) << 19) | (Bit(w, 18) << 18) | (Bit(w, 31) << 17) | (Bit(w, 10) << 16)
    | (Bit(w, 2) << 15) | (Bit(w, 8) << 14) | (Bit(w, 24) << 13) | (Bit(w, 14) << 12)
    | (Bit(w, 32) << 11) | (Bit(w, 27) << 10) | (Bit(w, 3) << 9) | (Bit(w, 9) << 8)
    | (Bit(w, 19) << 7) | (Bit(w, 13) << 6) | (Bit(w, 30) << 5) | (Bit(w, 6) << 4)
    | (Bit(w, 22) << 3) | (Bit(w, 11) << 2) | (Bit(w, 4) << 1) | Bit(w, 25)
  }

  /** An entry of an S-box: the outer two of six bits choose the row, the inner four the column. */
  function Entry(x: bv8, row0: bv64, row1: bv64, row2: bv64, row3: bv64): bv32 {
    var row := if x & 0x20 == 0 then (if x & 1 == 0 then row0 else row1) else (if x & 1 == 0 then row2 else row3);
    ((row >> (60 - 4 * (((x >> 1) & 15) as bv64))) & 15) as bv32
  }

  /* The S-boxes, a digit an entry. */

  function S1(x: bv8): bv32 {
    Entry(x, 0xE4D12FB83A6C5907, 0x0F74E2D1A6CB9538, 0x41E8D62BFC973A50, 0xFC8249175B3EA06D)
  }

  function S2(x: bv8): bv32 {
    Entry(x, 0xF18E6B34972DC05A, 0x3D47F28EC01A69B5, 0x0E7BA4D158C6932F, 0xD8A13F42B67C05E9)
  }

  function S3(x: bv8): bv32 {
    Entry(x, 0xA09E63F51DC7B428, 0xD709346A285ECBF1, 0xD6498F30B12C5AE7, 0x1AD069874FE3B52C)
  }

  function S4(x: bv8): bv32 {
    Entry(x, 0x7DE3069A1285BC4F, 0xD8B56F03472C1AE9, 0xA690CB7DF13E5284, 0x3F06A1D8945BC72E)
  }

  function S5(x: bv8): bv32 {
    Entry(x, 0x2C417AB6853FD0E9, 0xEB2C47D150FA3986, 0x421BAD78F9C5630E, 0xB8C71E2D6F09A453)
  }

  function S6(x: bv8): bv32 {
    Entry(x, 0xC1AF92680D34E75B, 0xAF427C9561DE0B38, 0x9EF528C3704A1DB6, 0x432C95FABE17608D)
  }

  function S7(x: bv8): bv32 {
    Entry(x, 0x4B2EF08D3C975A61, 0xD0B7491AE35C2F86, 0x14BDC37EAF680592, 0x6BD814A7950FE23C)
  }

  function S8(x: bv8): bv32 {
    Entry(x, 0xD2846FB1A93E50C7, 0x1FD8A374C56B0E92, 0x7B419CE206ADF358, 0x21E74A8DFC90356B)
  }

  /** The rows of a round key: its 48 bits in two words of 24. */
  function KeyRow(k: Halves<bv32>, i: nat): bv8
    requires 1 <= i <= 8
  {
    if i == 1 then SixBits(k.l >> 18) else if i == 2 then SixBits(k.l >> 12) else if i == 3 then SixBits(k.l >> 6)
    else if i == 4 then SixBits(k.l) else if i == 5 then SixBits(k.r >> 18) else if i == 6 then SixBits(k.r >> 12)
    else if i == 7 then SixBits(k.r >> 6) else SixBits(k.r)
  }

  function XorSix(x: bv8, y: bv8): bv8 {
    x ^ y
  }

  /** Eight words combined in the order of the source. */
  function Combined(a: bv32, b: bv32, c: bv32, d: bv32, e: bv32, f: bv32, g: bv32, h: bv32): bv32 {
    Xor32(Xor4(g, e, c, a), Xor4(h, f, d, b))
  }

  /** Eight digits side by side. */
  function Word8(a: bv32, b: bv32, c: bv32, d: bv32, e: bv32, f: bv32, g: bv32, h: bv32): bv32 {
    (a << 28) | (b << 24) | (c << 20) | (d << 16) | (e << 12) | (f << 8) | (g << 4) | h
  }

  /** The cipher function f(R, K): expansion, addition of the key, the S-boxes side by side, and P. */
  function StandardF(k: Halves<bv32>, r: bv32): bv32 {
    P(Word8(S1(XorSix(E1(r), KeyRow(k, 1))), S2(XorSix(E2(r), KeyRow(k, 2))),
            S3(XorSix(E3(r), KeyRow(k, 3))), S4(XorSix(E4(r), KeyRow(k, 4))),
            S5(XorSix(E5(r), KeyRow(k, 5))), S6(XorSix(E6(r), KeyRow(k, 6))),
            S7(XorSix(E7(r), KeyRow(k, 7))), S8(XorSix(E8(r), KeyRow(k, 8)))))
  }

  /* ---- The tables of the source are P after the S-boxes ---- */

  /** P, and the rotation by one that the source keeps its halves in. */
  function Turned(w: bv32): bv32 {
    TurnedOnce(P(w))
  }

  function TurnedOnce(w: bv32): bv32 {
    (w << 1) | (w >> 31)
  }

  lemma RawTurnedXor(v: bv32, w: bv32)
    ensures Turned(v ^ w) == Xor32(Turned(v), Turned(w))
  {
  }

  lemma TurnedXor(v: bv32, w: bv32)
    ensures Turned(Xor32(v, w)) == Xor32(Turned(v), Turned(w))
  {
    RawTurnedXor(v, w);
    Xor32Is(v, w);
  }

  lemma TurnedXor4(a: bv32, b: bv32, c: bv32, d: bv32)
    ensures Turned(Xor4(a, b, c, d)) == Xor4(Turned(a), Turned(b), Turned(c), Turned(d))
  {
    TurnedXor(a, b);
    TurnedXor(Xor32(a, b), c);
    TurnedXor(Xor32(Xor32(a, b), c), d);
  }

  lemma TurnedCombined(a: bv32, b: bv32, c: bv32, d: bv32, e: bv32, f: bv32, g: bv32, h: bv32)
    ensures Turned(Combined(a, b, c, d, e, f, g, h))
         == Combined(Turned(a), Turned(b), Turned(c), Turned(d), Turned(e), Turned(f), Turned(g), Turned(h))
  {
    TurnedXor4(g, e, c, a);
    TurnedXor4(h, f, d, b);
    TurnedXor(Xor4(g, e, c, a), Xor4(h, f, d, b));
  }

  lemma RawSideBySide(a: bv32, b: bv32, c: bv32, d: bv32, e: bv32, f: bv32, g: bv32, h: bv32)
    requires a & 15 == a && b & 15 == b && c & 15 == c && d & 15 == d && e & 15 == e && f & 15 == f && g & 15 == g && h & 15 == h
    ensures Word8(a, b, c, d, e, f, g, h)
         == (((g << 4) ^ (e << 12) ^ (c << 20) ^ (a << 28)) ^ (h ^ (f << 8) ^ (d << 16) ^ (b << 24)))
  {
  }

  lemma CombinedIs(a: bv32, b: bv32, c: bv32, d: bv32, e: bv32, f: bv32, g: bv32, h: bv32)
    ensures Combined(a, b, c, d, e, f, g, h) == ((g ^ e ^ c ^ a) ^ (h ^ f ^ d ^ b))
  {
    Xor32Is(g, e);
    Xor32Is(g ^ e, c);
    Xor32Is(g ^ e ^ c, a);
    Xor32Is(h, f);
    Xor32Is(h ^ f, d);
    Xor32Is(h ^ f ^ d, b);
    Xor32Is(g ^ e ^ c ^ a, h ^ f ^ d ^ b);
  }

  lemma Table1(x: bv8)
    ensures SP1(x) == Turned(S1(x) << 28)
  {
    if x & 0x20 == 0 {
      if x & 1 == 0 {
      } else {
      }
    } else if x & 1 == 0 {
    } else {
    }
  }

  lemma Table2(x: bv8)
    ensures SP2(x) == Turned(S2(x) << 24)
  {
    if x & 0x20 == 0 {
      if x & 1 == 0 {
      } else {
      }
    } else if x & 1 == 0 {
    } else {
    }
  }

  lemma Table3(x: bv8)
    ensures SP3(x) == Turned(S3(x) << 20)
  {
    if x & 0x20 == 0 {
      if x & 1 == 0 {
      } else {
      }
    } else if x & 1 == 0 {
    } else {
    }
  }

  lemma Table4(x: bv8)
    ensures SP4(x) == Turned(S4(x) << 16)
  {
    if x & 0x20 == 0 {
      if x & 1 == 0 {
      } else {
      }
    } else if x & 1 == 0 {
    } else {
    }
  }

  lemma Table5(x: bv8)
    ensures SP5(x) == Turned(S5(x) << 12)
  {
    if x & 0x20 == 0 {
      if x & 1 == 0 {
      } else {
      }
    } else if x & 1 == 0 {
    } else {
    }
  }

  lemma Table6(x: bv8)
    ensures SP6(x) == Turned(S6(x) << 8)
  {
    if x & 0x20 == 0 {
      if x & 1 == 0 {
      } else {
      }
    } else if x & 1 == 0 {
    } else {
    }
  }

  lemma Table7(x: bv8)
    ensures SP7(x) == Turned(S7(x) << 4)
  {
    if x & 0x20 == 0 {
      if x & 1 == 0 {
      } else {
      }
    } else if x & 1 == 0 {
    } else {
    }
  }

  lemma Table8(x: bv8)
    ensures SP8(x) == Turned(S8(x))
  {
    if x & 0x20 == 0 {
      if x & 1 == 0 {
      } else {
      }
    } else if x & 1 == 0 {
    } else {
    }
  }

  /* ---- The six bits that reach each table ---- */

  lemma RawChunkXor(v: bv32, w: bv32, n: bv32)
    requires n <= 24
    ensures Chunk(v ^ w, n) == XorSix(Chunk(v, n), Chunk(w, n))
  {
  }

  lemma ChunkXor(v: bv32, w: bv32, n: bv32)
    requires n <= 24
    ensures Chunk(Xor32(v, w), n) == XorSix(Chunk(v, n), Chunk(w, n))
  {
    RawChunkXor(v, w, n);
    Xor32Is(v, w);
  }

  lemma RotatedByOne(r: bv32)
    ensures Rol(r, 1) == (r << 1) | (r >> 31)
    ensures Rol(r, 1) == TurnedOnce(r)
  {
  }

  lemma RotatedBack(r: bv32)
    ensures Ror((r << 1) | (r >> 31), 4) == (r >> 3) | (r << 29)
  {
  }

  lemma OddRows(r: bv32)
    ensures Chunk((r >> 3) | (r << 29), 24) == E1(r) && Chunk((r >> 3) | (r << 29), 16) == E3(r)
    ensures Chunk((r >> 3) | (r << 29), 8) == E5(r) && Chunk((r >> 3) | (r << 29), 0) == E7(r)
  {
  }

  lemma EvenRows(r: bv32)
    ensures Chunk((r << 1) | (r >> 31), 24) == E2(r) && Chunk((r << 1) | (r >> 31), 16) == E4(r)
    ensures Chunk((r << 1) | (r >> 31), 8) == E6(r) && Chunk((r << 1) | (r >> 31), 0) == E8(r)
  {
  }

  lemma OddKeyRows(k: Halves<bv32>)
    ensures Chunk(Cook(k.l, k.r).l, 24) == KeyRow(k, 1) && Chunk(Cook(k.l, k.r).l, 16) == KeyRow(k, 3)
    ensures Chunk(Cook(k.l, k.r).l, 8) == KeyRow(k, 5) && Chunk(Cook(k.l, k.r).l, 0) == KeyRow(k, 7)
  {
  }

  lemma EvenKeyRows(k: Halves<bv32>)
    ensures Chunk(Cook(k.l, k.r).r, 24) == KeyRow(k, 2) && Chunk(Cook(k.l, k.r).r, 16) == KeyRow(k, 4)
    ensures Chunk(Cook(k.l, k.r).r, 8) == KeyRow(k, 6) && Chunk(Cook(k.l, k.r).r, 0) == KeyRow(k, 8)
  {
  }

  lemma OddChunks(k: Halves<bv32>, r: bv32)
    ensures var w := Xor32(Ror(Rol(r, 1), 4), Cook(k.l, k.r).l);
      && Chunk(w, 24) == XorSix(E1(r), KeyRow(k, 1)) && Chunk(w, 16) == XorSix(E3(r), KeyRow(k, 3))
      && Chunk(w, 8) == XorSix(E5(r), KeyRow(k, 5)) && Chunk(w, 0) == XorSix(E7(r), KeyRow(k, 7))
  {
    var x, y := Ror(Rol(r, 1), 4), Cook(k.l, k.r).l;
    RotatedByOne(r);
    RotatedBack(r);
    OddRows(r);
    OddKeyRows(k);
    ChunkXor(x, y, 24);
    ChunkXor(x, y, 16);
    ChunkXor(x, y, 8);
    ChunkXor(x, y, 0);
  }

  lemma EvenChunks(k: Halves<bv32>, r: bv32)
    ensures var w := Xor32(Rol(r, 1), Cook(k.l, k.r).r);
      && Chunk(w, 24) == XorSix(E2(r), KeyRow(k, 2)) && Chunk(w, 16) == XorSix(E4(r), KeyRow(k, 4))
      && Chunk(w, 8) == XorSix(E6(r), KeyRow(k, 6)) && Chunk(w, 0) == XorSix(E8(r), KeyRow(k, 8))
  {
    var x, y := Rol(r, 1), Cook(k.l, k.r).r;
    RotatedByOne(r);
    EvenRows(r);
    EvenKeyRows(k);
    ChunkXor(x, y, 24);
    ChunkXor(x, y, 16);
    ChunkXor(x, y, 8);
    ChunkXor(x, y, 0);
  }

  /* ---- The round function ---- */

  lemma EntryIsDigit(x: bv8, row0: bv64, row1: bv64, row2: bv64, row3: bv64)
    ensures Entry(x, row0, row1, row2, row3) & 15 == Entry(x, row0, row1, row2, row3)
  {
  }

  lemma SideBySide(a: bv32, b: bv32, c: bv32, d: bv32, e: bv32, f: bv32, g: bv32, h: bv32)
    requires a & 15 == a && b & 15 == b && c & 15 == c && d & 15 == d && e & 15 == e && f & 15 == f && g & 15 == g && h & 15 == h
    ensures Combined(a << 28, b << 24, c << 20, d << 16, e << 12, f << 8, g << 4, h) == Word8(a, b, c, d, e, f, g, h)
  {
    RawSideBySide(a, b, c, d, e, f, g, h);
    CombinedIs(a << 28, b << 24, c << 20, d << 16, e << 12, f << 8, g << 4, h);
  }

  /** `p` is what a table gives where its S-box gives the digit `d`. */
  predicate Output(p: bv32, d: bv32, n: bv32)
    requires n <= 28
  {
    p == Turned(d << n) && d & 15 == d
  }

  lemma Box1(x: bv8)
    ensures Output(SP1(x), S1(x), 28)
  {
    Table1(x);
    EntryIsDigit(x, 0xE4D12FB83A6C5907, 0x0F74E2D1A6CB9538, 0x41E8D62BFC973A50, 0xFC8249175B3EA06D);
  }

  lemma Box2(x: bv8)
    ensures Output(SP2(x), S2(x), 24)
  {
    Table2(x);
    EntryIsDigit(x, 0xF18E6B34972DC05A, 0x3D47F28EC01A69B5, 0x0E7BA4D158C6932F, 0xD8A13F42B67C05E9);
  }

  lemma Box3(x: bv8)
    ensures Output(SP3(x), S3(x), 20)
  {
    Table3(x);
    EntryIsDigit(x, 0xA09E63F51DC7B428, 0xD709346A285ECBF1, 0xD6498F30B12C5AE7, 0x1AD069874FE3B52C);
  }

  lemma Box4(x: bv8)
    ensures Output(SP4(x), S4(x), 16)
  {
    Table4(x);
    EntryIsDigit(x, 0x7DE3069A1285BC4F, 0xD8B56F03472C1AE9, 0xA690CB7DF13E5284, 0x3F06A1D8945BC72E);
  }

  lemma Box5(x: bv8)
    ensures Output(SP5(x), S5(x), 12)
  {
    Table5(x);
    EntryIsDigit(x, 0x2C417AB6853FD0E9, 0xEB2C47D150FA3986, 0x421BAD78F9C5630E, 0xB8C71E2D6F09A453);
  }

  lemma Box6(x: bv8)
    ensures Output(SP6(x), S6(x), 8)
  {
    Table6(x);
    EntryIsDigit(x, 0xC1AF92680D34E75B, 0xAF427C9561DE0B38, 0x9EF528C3704A1DB6, 0x432C95FABE17608D);
  }

  lemma Box7(x: bv8)
    ensures Output(SP7(x), S7(x), 4)
  {
    Table7(x);
    EntryIsDigit(x, 0x4B2EF08D3C975A61, 0xD0B7491AE35C2F86, 0x14BDC37EAF680592, 0x6BD814A7950FE23C);
  }

  lemma Box8(x: bv8)
    ensures Output(SP8(x), S8(x), 0)
  {
    Table8(x);
    EntryIsDigit(x, 0xD2846FB1A93E50C7, 0x1FD8A374C56B0E92, 0x7B419CE206ADF358, 0x21E74A8DFC90356B);
  }

  lemma OutputsJoin(p1: bv32, p2: bv32, p3: bv32, p4: bv32, p5: bv32, p6: bv32, p7: bv32, p8: bv32,
                    d1: bv32, d2: bv32, d3: bv32, d4: bv32, d5: bv32, d6: bv32, d7: bv32, d8: bv32)
    requires Output(p1, d1, 28) && Output(p2, d2, 24) && Output(p3, d3, 20) && Output(p4, d4, 16)
    requires Output(p5, d5, 12) && Output(p6, d6, 8) && Output(p7, d7, 4) && Output(p8, d8, 0)
    ensures Combined(p1, p2, p3, p4, p5, p6, p7, p8) == Turned(Word8(d1, d2, d3, d4, d5, d6, d7, d8))
  {
    TurnedCombined(d1 << 28, d2 << 24, d3 << 20, d4 << 16, d5 << 12, d6 << 8, d7 << 4, d8);
    SideBySide(d1, d2, d3, d4, d5, d6, d7, d8);
  }

  /** The eight tables together are P after the eight S-boxes. */
  lemma TablesAreBoxes(x1: bv8, x2: bv8, x3: bv8, x4: bv8, x5: bv8, x6: bv8, x7: bv8, x8: bv8)
    ensures Combined(SP1(x1), SP2(x2), SP3(x3), SP4(x4), SP5(x5), SP6(x6), SP7(x7), SP8(x8))
         == Turned(Word8(S1(x1), S2(x2), S3(x3), S4(x4), S5(x5), S6(x6), S7(x7), S8(x8)))
  {
    Box1(x1);
    Box2(x2);
    Box3(x3);
    Box4(x4);
    Box5(x5);
    Box6(x6);
    Box7(x7);
    Box8(x8);
    OutputsJoin(SP1(x1), SP2(x2), SP3(x3), SP4(x4), SP5(x5), SP6(x6), SP7(x7), SP8(x8),
                S1(x1), S2(x2), S3(x3), S4(x4), S5(x5), S6(x6), S7(x7), S8(x8));
  }

  lemma TurnedIs(w: bv32)
    ensures Turned(w) == Rol(P(w), 1)
  {
    RotatedByOne(P(w));
  }

  /** The round function of the source is that of the standard, on halves rotated by one and under a cooked key. */
  lemma RoundFunctionIsStandard(k: Halves<bv32>, r: bv32)
    ensures F(Cook(k.l, k.r), Rol(r, 1)) == Rol(StandardF(k, r), 1)
  {
    OddChunks(k, r);
    EvenChunks(k, r);
    var x1, x2 := XorSix(E1(r), KeyRow(k, 1)), XorSix(E2(r), KeyRow(k, 2));
    var x3, x4 := XorSix(E3(r), KeyRow(k, 3)), XorSix(E4(r), KeyRow(k, 4));
    var x5, x6 := XorSix(E5(r), KeyRow(k, 5)), XorSix(E6(r), KeyRow(k, 6));
    var x7, x8 := XorSix(E7(r), KeyRow(k, 7)), XorSix(E8(r), KeyRow(k, 8));
    TablesAreBoxes(x1, x2, x3, x4, x5, x6, x7, x8);
    TurnedIs(Word8(S1(x1), S2(x2), S3(x3), S4(x4), S5(x5), S6(x6), S7(x7), S8(x8)));
  }

  /* ---- The whole of DES ---- */

  function Both<W>(rho: W -> W, s: Halves<W>): Halves<W> {
    Halves(rho(s.l), rho(s.r))
  }

  function Mapped<K, J>(cook: K -> J, ks: seq<K>): (js: seq<J>)
    ensures |js| == |ks|
  {
    if ks == [] then [] else [cook(ks[0])] + Mapped(cook, ks[1..])
  }

  lemma {:induction false} MappedAt<K, J>(cook: K -> J, ks: seq<K>, i: nat)
    requires i < |ks|
    ensures Mapped(cook, ks)[i] == cook(ks[i])
  {
    if i > 0 {
      MappedAt(cook, ks[1..], i - 1);
    }
  }

  lemma IsMapped<K, J>(cook: K -> J, ks: seq<K>, js: seq<J>)
    requires |js| == |ks| && forall i | 0 <= i < |ks| :: js[i] == cook(ks[i])
    ensures js == Mapped(cook, ks)
  {
    forall i | 0 <= i < |ks| ensures js[i] == Mapped(cook, ks)[i] {
      MappedAt(cook, ks, i);
    }
  }

  /** On words changed by `rho` and under keys changed by `cook`, f does what g does. */
  ghost predicate Conjugates<K(!new), J, W(!new)>(xor: (W, W) -> W, f: (J, W) -> W, g: (K, W) -> W, cook: K -> J, rho: W -> W) {
    && (forall k, x :: f(cook(k), rho(x)) == rho(g(k, x)))
    && (forall x, y :: xor(rho(x), rho(y)) == rho(xor(x, y)))
  }

  lemma {:induction false} RoundsConjugate<K(!new), J, W(!new)>(
    xor: (W, W) -> W, f: (J, W) -> W, g: (K, W) -> W, cook: K -> J, rho: W -> W, ks: seq<K>, s: Halves<W>)
    requires Conjugates(xor, f, g, cook, rho)
    ensures Rounds(xor, f, Mapped(cook, ks), Both(rho, s)) == Both(rho, Rounds(xor, g, ks, s))
  {
    if ks != [] {
      var js := Mapped(cook, ks);
      assert js[0] == cook(ks[0]) && js[1..] == Mapped(cook, ks[1..]);
      assert Round(xor, f, js[0], Both(rho, s)) == Both(rho, Round(xor, g, ks[0], s));
      RoundsConjugate(xor, f, g, cook, rho, ks[1..], Round(xor, g, ks[0], s));
    }
  }

  /** The 24-bit words of the round keys, as the permuted choices of the standard give them. */
  function RawSchedule<W>(t: KeyFrame<W>, bit: nat -> bool): (ks: seq<Halves<W>>)
    requires InRange(t)
    ensures |ks| == ROUNDS
  {
    seq(ROUNDS, i requires 0 <= i < ROUNDS => RawKey(t, Rotated(Selected(t, bit), t.rotation(i))))
  }

  function RawKey<W>(t: KeyFrame<W>, s: seq<bool>): Halves<W>
    requires InRange(t) && |s| == 56
  {
    Halves(Packed(t, s, 0, 24), Packed(t, s, 24, 24))
  }

  lemma CookedSchedule<W>(t: KeyFrame<W>, bit: nat -> bool, cook: Halves<W> -> Halves<W>)
    requires InRange(t) && forall k :: cook(k) == t.cook(k.l, k.r)
    ensures Mapped(cook, RawSchedule(t, bit)) == Schedule(t, bit)
  {
    forall i: nat | i < ROUNDS ensures Schedule(t, bit)[i] == cook(RawSchedule(t, bit)[i]) {
    }
    IsMapped(cook, RawSchedule(t, bit), Schedule(t, bit));
  }

  function CookPair(k: Halves<bv32>): Halves<bv32> {
    Cook(k.l, k.r)
  }

  function RolOne(x: bv32): bv32 {
    Rol(x, 1)
  }

  lemma RawRolXor(x: bv32, y: bv32)
    ensures Xor32((x << 1) | (x >> 31), (y << 1) | (y >> 31)) == ((x ^ y) << 1) | ((x ^ y) >> 31)
  {
  }

  lemma RolXor(x: bv32, y: bv32)
    ensures Xor32(RolOne(x), RolOne(y)) == RolOne(Xor32(x, y))
  {
    RawRolXor(x, y);
    Xor32Is(x, y);
    RotatedByOne(x);
    RotatedByOne(y);
    RotatedByOne(x ^ y);
  }

  lemma RolOneInjective(x: bv32, y: bv32)
    requires RolOne(x) == RolOne(y)
    ensures x == y
  {
    RorRol(x, 1);
    RorRol(y, 1);
  }

  lemma StandardConjugates()
    ensures Conjugates(Xor32, F, StandardF, CookPair, RolOne)
  {
    forall k: Halves<bv32>, x: bv32 ensures F(CookPair(k), RolOne(x)) == RolOne(StandardF(k, x)) {
      RoundFunctionIsStandard(k, x);
    }
    forall x: bv32, y: bv32 ensures Xor32(RolOne(x), RolOne(y)) == RolOne(Xor32(x, y)) {
      RolXor(x, y);
    }
  }

  /** The two halves that the initial permutation of the standard gives. */
  function Numbered(b: Block): Block {
    Halves(NumberedLeft(b), NumberedRight(b))
  }

  /** The 48-bit round keys of the standard: PC-2 of the two registers, which PC-1 fills and each round rotates. */
  function StandardKeys(key: seq<Byte>): (ks: seq<Halves<bv32>>)
    requires |key| == 8
    ensures |ks| == ROUNDS
  {
    FrameInRange();
    seq(ROUNDS, i requires 0 <= i < ROUNDS => RawKey(Frame(), Registers(Frame(), Shift, KeyBit(key), i + 1)))
  }

  lemma StandardKeysAre(key: seq<Byte>)
    requires |key| == 8
    ensures InRange(Frame()) && StandardKeys(key) == RawSchedule(Frame(), KeyBit(key))
  {
    FrameInRange();
    forall i: nat | i < ROUNDS ensures StandardKeys(key)[i] == RawSchedule(Frame(), KeyBit(key))[i] {
      RotationsOfTheStandard(key, i);
    }
  }

  lemma StandardKeysCooked(key: seq<Byte>)
    requires |key| == 8
    ensures Mapped(CookPair, StandardKeys(key)) == KeySchedule(key)
  {
    StandardKeysAre(key);
    CookedSchedule(Frame(), KeyBit(key), CookPair);
  }

  /** A block under any keys: the permutation of the output is the exchanged result of the standard's rounds. */
  lemma NetworkIsStandard(xor: (bv32, bv32) -> bv32, f: (Halves<bv32>, bv32) -> bv32, g: (Halves<bv32>, bv32) -> bv32,
                          cook: Halves<bv32> -> Halves<bv32>, ks: seq<Halves<bv32>>, b: Block, c: Block)
    requires Conjugates(xor, f, g, cook, RolOne)
    requires c == Transformed(Initial(), InverseInitial(), xor, f, Mapped(cook, ks), b)
    ensures Numbered(c) == Swapped(Rounds(xor, g, ks, Numbered(b)))
  {
    PermutationsInverse();
    InitialIsNumbered(b);
    InitialIsNumbered(c);
    RoundsConjugate(xor, f, g, cook, RolOne, ks, Numbered(b));
    var t := Rounds(xor, g, ks, Numbered(b));
    assert Both(RolOne, Numbered(c)) == Swapped(Both(RolOne, t));
    RolOneInjective(NumberedLeft(c), t.r);
    RolOneInjective(NumberedRight(c), t.l);
  }

  /** Enciphering is that of FIPS 46-3: IP, sixteen rounds of f, the exchange of the halves, and the inverse of IP. */
  lemma EncipheringIsStandard(key: seq<Byte>, b: Block)
    requires |key| == 8
    ensures Numbered(Enciphered(KeySchedule(key), b)) == Swapped(Rounds(Xor32, StandardF, StandardKeys(key), Numbered(b)))
  {
    StandardConjugates();
    StandardKeysCooked(key);
    NetworkIsStandard(Xor32, F, StandardF, CookPair, StandardKeys(key), b, Enciphered(KeySchedule(key), b));
  }
}

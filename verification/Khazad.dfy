/**
  Khazad (`NXTservices/khazad.c`): 8-byte blocks, 16-byte keys, 8 rounds driven by eight
  tables that fuse the S-box with one column of an 8 x 8 Hadamard matrix.
 */
module Khazad {
  import opened Words
  import opened WideWords
  import opened Hadamard
  import opened Gf256
  import opened InvolutionalCipher
  import opened Diffusion
  import opened KhazadTables

  const ROUNDS := 8

  /* ---- Words as rows of bytes ---- */

  function Unpack(w: bv64): Row<bv8> {
    Row8(B0(w), B1(w), B2(w), B3(w), B4(w), B5(w), B6(w), B7(w))
  }

  function Pack(r: Row<bv8>): bv64 {
    match r
    case Two(Two(Two(One(a), One(b)), Two(One(c), One(d))), Two(Two(One(e), One(f)), Two(One(g), One(h)))) =>
      Word(a, b, c, d, e, f, g, h)
    case _ => 0
  }

  lemma PackUnpack(w: bv64)
    ensures Shape(3, Unpack(w)) && Pack(Unpack(w)) == w
  {
    WordOfBytes(w);
    FourAndEight(B0(w), B1(w), B2(w), B3(w), B4(w), B5(w), B6(w), B7(w));
  }

  lemma UnpackPack(r: Row<bv8>)
    requires Shape(3, r)
    ensures Unpack(Pack(r)) == r
  {
    var a, b, c, d, e, f, g, h := RowsOfEight(r);
    BytesOfWord(a, b, c, d, e, f, g, h);
  }

  lemma PackRow(a: bv8, b: bv8, c: bv8, d: bv8, e: bv8, f: bv8, g: bv8, h: bv8)
    ensures Pack(Row8(a, b, c, d, e, f, g, h)) == Word(a, b, c, d, e, f, g, h)
  {
  }

  lemma AddByteRows(a: bv8, b: bv8, c: bv8, d: bv8, e: bv8, f: bv8, g: bv8, h: bv8,
                    a': bv8, b': bv8, c': bv8, d': bv8, e': bv8, f': bv8, g': bv8, h': bv8)
    ensures AddRows(Bytes(), Row8(a, b, c, d, e, f, g, h), Row8(a', b', c', d', e', f', g', h'))
         == Row8(Xor(a, a'), Xor(b, b'), Xor(c, c'), Xor(d, d'), Xor(e, e'), Xor(f, f'), Xor(g, g'), Xor(h, h'))
  {
    AddRows4(Bytes(), a, b, c, d, a', b', c', d');
    AddRows4(Bytes(), e, f, g, h, e', f', g', h');
  }

  lemma PackXor(r: Row<bv8>, q: Row<bv8>)
    requires Shape(3, r) && Shape(3, q)
    ensures Pack(AddRows(Bytes(), r, q)) == Xor64(Pack(r), Pack(q))
  {
    var a, b, c, d, e, f, g, h := RowsOfEight(r);
    var a', b', c', d', e', f', g', h' := RowsOfEight(q);
    PackRow(a, b, c, d, e, f, g, h);
    PackRow(a', b', c', d', e', f', g', h');
    PackRow(Xor(a, a'), Xor(b, b'), Xor(c, c'), Xor(d, d'), Xor(e, e'), Xor(f, f'), Xor(g, g'), Xor(h, h'));
    AddByteRows(a, b, c, d, e, f, g, h, a', b', c', d', e', f', g', h');
    WordXor(a, b, c, d, e, f, g, h, a', b', c', d', e', f', g', h');
  }

  function Words64(): Coding<bv8, bv64> {
    Coding(Pack, Unpack, Xor64)
  }

  lemma Words64Faithful()
    ensures Faithful(Bytes(), 3, Words64())
  {
    forall w {
      PackUnpack(w);
    }
    forall r | Shape(3, r) {
      UnpackPack(r);
    }
    forall r, q | Shape(3, r) && Shape(3, q) {
      PackXor(r, q);
    }
  }

  /* ---- The tables ---- */

  /** had(1, 3, 4, 5, 6, 8, 11, 7). */
  function MatrixRow(): Row<Poly> {
    Row8(ONE, THREE, FOUR, FIVE, SIX, EIGHT, ELEVEN, SEVEN)
  }

  /* Every entry of the tables; each quarter of a table is decided by itself. */

  lemma Table0(x: bv8)
    ensures var b := Sbox(x);
      var (b2, b4, b8) := (Xtime(b), Xtime(Xtime(b)), Xtime(Xtime(Xtime(b))));
      T0(x) == Word(b, Xor(b, b2), b4, Xor(b, b4), Xor(b2, b4), b8, Xor(b, Xor(b2, b8)), Xor(b, Xor(b2, b4)))
  {
    if x & 0x80 == 0 {
      if x & 0x40 == 0 {
      } else {
      }
    } else if x & 0x40 == 0 {
    } else {
    }
  }

  lemma Table1(x: bv8)
    ensures var b := Sbox(x);
      var (b2, b4, b8) := (Xtime(b), Xtime(Xtime(b)), Xtime(Xtime(Xtime(b))));
      T1(x) == Word(Xor(b, b2), b, Xor(b, b4), b4, b8, Xor(b2, b4), Xor(b, Xor(b2, b4)), Xor(b, Xor(b2, b8)))
  {
    if x & 0x80 == 0 {
      if x & 0x40 == 0 {
      } else {
      }
    } else if x & 0x40 == 0 {
    } else {
    }
  }

  lemma Table2(x: bv8)
    ensures var b := Sbox(x);
      var (b2, b4, b8) := (Xtime(b), Xtime(Xtime(b)), Xtime(Xtime(Xtime(b))));
      T2(x) == Word(b4, Xor(b, b4), b, Xor(b, b2), Xor(b, Xor(b2, b8)), Xor(b, Xor(b2, b4)), Xor(b2, b4), b8)
  {
    if x & 0x80 == 0 {
      if x & 0x40 == 0 {
      } else {
      }
    } else if x & 0x40 == 0 {
    } else {
    }
  }

  lemma Table3(x: bv8)
    ensures var b := Sbox(x);
      var (b2, b4, b8) := (Xtime(b), Xtime(Xtime(b)), Xtime(Xtime(Xtime(b))));
      T3(x) == Word(Xor(b, b4), b4, Xor(b, b2), b, Xor(b, Xor(b2, b4)), Xor(b, Xor(b2, b8)), b8, Xor(b2, b4))
  {
    if x & 0x80 == 0 {
      if x & 0x40 == 0 {
      } else {
      }
    } else if x & 0x40 == 0 {
    } else {
    }
  }

  lemma Table4(x: bv8)
    ensures var b := Sbox(x);
      var (b2, b4, b8) := (Xtime(b), Xtime(Xtime(b)), Xtime(Xtime(Xtime(b))));
      T4(x) == Word(Xor(b2, b4), b8, Xor(b, Xor(b2, b8)), Xor(b, Xor(b2, b4)), b, Xor(b, b2), b4, Xor(b, b4))
  {
    if x & 0x80 == 0 {
      if x & 0x40 == 0 {
      } else {
      }
    } else if x & 0x40 == 0 {
    } else {
    }
  }

  lemma Table5(x: bv8)
    ensures var b := Sbox(x);
      var (b2, b4, b8) := (Xtime(b), Xtime(Xtime(b)), Xtime(Xtime(Xtime(b))));
      T5(x) == Word(b8, Xor(b2, b4), Xor(b, Xor(b2, b4)), Xor(b, Xor(b2, b8)), Xor(b, b2), b, Xor(b, b4), b4)
  {
    if x & 0x80 == 0 {
      if x & 0x40 == 0 {
      } else {
      }
    } else if x & 0x40 == 0 {
    } else {
    }
  }

  lemma Table6(x: bv8)
    ensures var b := Sbox(x);
      var (b2, b4, b8) := (Xtime(b), Xtime(Xtime(b)), Xtime(Xtime(Xtime(b))));
      T6(x) == Word(Xor(b, Xor(b2, b8)), Xor(b, Xor(b2, b4)), Xor(b2, b4), b8, b4, Xor(b, b4), b, Xor(b, b2))
  {
    if x & 0x80 == 0 {
      if x & 0x40 == 0 {
      } else {
      }
    } else if x & 0x40 == 0 {
    } else {
    }
  }

  lemma Table7(x: bv8)
    ensures var b := Sbox(x);
      var (b2, b4, b8) := (Xtime(b), Xtime(Xtime(b)), Xtime(Xtime(Xtime(b))));
      T7(x) == Word(Xor(b, Xor(b2, b4)), Xor(b, Xor(b2, b8)), b8, Xor(b2, b4), Xor(b, b4), b4, Xor(b, b2), b)
  {
    if x & 0x80 == 0 {
      if x & 0x40 == 0 {
      } else {
      }
    } else if x & 0x40 == 0 {
    } else {
    }
  }

  lemma SboxInvolution(x: bv8)
    ensures Sbox(Sbox(x)) == x
  {
  }

  lemma Column0(x: bv8)
    ensures T0(x) == Pack(Column8(Bytes(), ONE, THREE, FOUR, FIVE, SIX, EIGHT, ELEVEN, SEVEN, Sbox(x)))
  {
    var b := Sbox(x);
    Table0(x);
    ByteConstants(b);
    PackRow(Times(Bytes(), ONE, b), Times(Bytes(), THREE, b), Times(Bytes(), FOUR, b), Times(Bytes(), FIVE, b),
            Times(Bytes(), SIX, b), Times(Bytes(), EIGHT, b), Times(Bytes(), ELEVEN, b), Times(Bytes(), SEVEN, b));
  }

  lemma Column1(x: bv8)
    ensures T1(x) == Pack(Column8(Bytes(), THREE, ONE, FIVE, FOUR, EIGHT, SIX, SEVEN, ELEVEN, Sbox(x)))
  {
    var b := Sbox(x);
    Table1(x);
    ByteConstants(b);
    PackRow(Times(Bytes(), THREE, b), Times(Bytes(), ONE, b), Times(Bytes(), FIVE, b), Times(Bytes(), FOUR, b),
            Times(Bytes(), EIGHT, b), Times(Bytes(), SIX, b), Times(Bytes(), SEVEN, b), Times(Bytes(), ELEVEN, b));
  }

  lemma Column2(x: bv8)
    ensures T2(x) == Pack(Column8(Bytes(), FOUR, FIVE, ONE, THREE, ELEVEN, SEVEN, SIX, EIGHT, Sbox(x)))
  {
    var b := Sbox(x);
    Table2(x);
    ByteConstants(b);
    PackRow(Times(Bytes(), FOUR, b), Times(Bytes(), FIVE, b), Times(Bytes(), ONE, b), Times(Bytes(), THREE, b),
            Times(Bytes(), ELEVEN, b), Times(Bytes(), SEVEN, b), Times(Bytes(), SIX, b), Times(Bytes(), EIGHT, b));
  }

  lemma Column3(x: bv8)
    ensures T3(x) == Pack(Column8(Bytes(), FIVE, FOUR, THREE, ONE, SEVEN, ELEVEN, EIGHT, SIX, Sbox(x)))
  {
    var b := Sbox(x);
    Table3(x);
    ByteConstants(b);
    PackRow(Times(Bytes(), FIVE, b), Times(Bytes(), FOUR, b), Times(Bytes(), THREE, b), Times(Bytes(), ONE, b),
            Times(Bytes(), SEVEN, b), Times(Bytes(), ELEVEN, b), Times(Bytes(), EIGHT, b), Times(Bytes(), SIX, b));
  }

  lemma Column4(x: bv8)
    ensures T4(x) == Pack(Column8(Bytes(), SIX, EIGHT, ELEVEN, SEVEN, ONE, THREE, FOUR, FIVE, Sbox(x)))
  {
    var b := Sbox(x);
    Table4(x);
    ByteConstants(b);
    PackRow(Times(Bytes(), SIX, b), Times(Bytes(), EIGHT, b), Times(Bytes(), ELEVEN, b), Times(Bytes(), SEVEN, b),
            Times(Bytes(), ONE, b), Times(Bytes(), THREE, b), Times(Bytes(), FOUR, b), Times(Bytes(), FIVE, b));
  }

  lemma Column5(x: bv8)
    ensures T5(x) == Pack(Column8(Bytes(), EIGHT, SIX, SEVEN, ELEVEN, THREE, ONE, FIVE, FOUR, Sbox(x)))
  {
    var b := Sbox(x);
    Table5(x);
    ByteConstants(b);
    PackRow(Times(Bytes(), EIGHT, b), Times(Bytes(), SIX, b), Times(Bytes(), SEVEN, b), Times(Bytes(), ELEVEN, b),
            Times(Bytes(), THREE, b), Times(Bytes(), ONE, b), Times(Bytes(), FIVE, b), Times(Bytes(), FOUR, b));
  }

  lemma Column6(x: bv8)
    ensures T6(x) == Pack(Column8(Bytes(), ELEVEN, SEVEN, SIX, EIGHT, FOUR, FIVE, ONE, THREE, Sbox(x)))
  {
    var b := Sbox(x);
    Table6(x);
    ByteConstants(b);
    PackRow(Times(Bytes(), ELEVEN, b), Times(Bytes(), SEVEN, b), Times(Bytes(), SIX, b), Times(Bytes(), EIGHT, b),
            Times(Bytes(), FOUR, b), Times(Bytes(), FIVE, b), Times(Bytes(), ONE, b), Times(Bytes(), THREE, b));
  }

  lemma Column7(x: bv8)
    ensures T7(x) == Pack(Column8(Bytes(), SEVEN, ELEVEN, EIGHT, SIX, FIVE, FOUR, THREE, ONE, Sbox(x)))
  {
    var b := Sbox(x);
    Table7(x);
    ByteConstants(b);
    PackRow(Times(Bytes(), SEVEN, b), Times(Bytes(), ELEVEN, b), Times(Bytes(), EIGHT, b), Times(Bytes(), SIX, b),
            Times(Bytes(), FIVE, b), Times(Bytes(), FOUR, b), Times(Bytes(), THREE, b), Times(Bytes(), ONE, b));
  }

  /** The first four columns of the matrix scaled by four bytes and summed, and the last four. */
  function UpperSum(b0: bv8, b1: bv8, b2: bv8, b3: bv8): bv64 {
    Tree(Xor64, Pack(Column8(Bytes(), ONE, THREE, FOUR, FIVE, SIX, EIGHT, ELEVEN, SEVEN, b0)),
                Pack(Column8(Bytes(), THREE, ONE, FIVE, FOUR, EIGHT, SIX, SEVEN, ELEVEN, b1)),
                Pack(Column8(Bytes(), FOUR, FIVE, ONE, THREE, ELEVEN, SEVEN, SIX, EIGHT, b2)),
                Pack(Column8(Bytes(), FIVE, FOUR, THREE, ONE, SEVEN, ELEVEN, EIGHT, SIX, b3)))
  }

  function LowerSum(b4: bv8, b5: bv8, b6: bv8, b7: bv8): bv64 {
    Tree(Xor64, Pack(Column8(Bytes(), SIX, EIGHT, ELEVEN, SEVEN, ONE, THREE, FOUR, FIVE, b4)),
                Pack(Column8(Bytes(), EIGHT, SIX, SEVEN, ELEVEN, THREE, ONE, FIVE, FOUR, b5)),
                Pack(Column8(Bytes(), ELEVEN, SEVEN, SIX, EIGHT, FOUR, FIVE, ONE, THREE, b6)),
                Pack(Column8(Bytes(), SEVEN, ELEVEN, EIGHT, SIX, FIVE, FOUR, THREE, ONE, b7)))
  }

  lemma TwoHalves(b0: bv8, b1: bv8, b2: bv8, b3: bv8, b4: bv8, b5: bv8, b6: bv8, b7: bv8)
    ensures Pack(Multiply(Bytes(), MatrixRow(), Row8(b0, b1, b2, b3, b4, b5, b6, b7)))
         == Xor64(UpperSum(b0, b1, b2, b3), LowerSum(b4, b5, b6, b7))
  {
    Words64Faithful();
    EightTables(Bytes(), Words64(), ONE, THREE, FOUR, FIVE, SIX, EIGHT, ELEVEN, SEVEN, b0, b1, b2, b3, b4, b5, b6, b7);
  }

  lemma Xor64Is(a: bv64, b: bv64)
    ensures Xor64(a, b) == a ^ b
  {
  }

  lemma XorTree(a: bv64, b: bv64, c: bv64, d: bv64)
    ensures Tree(Xor64, a, b, c, d) == a ^ b ^ c ^ d
  {
    Xor64Is(a, b);
    Xor64Is(c, d);
    assert Xor64(a ^ b, c ^ d) == a ^ b ^ c ^ d;
  }

  /** Lookups in the first four tables, and in the last four. */
  method UpperLookups(x0: bv8, x1: bv8, x2: bv8, x3: bv8) returns (w: bv64)
    ensures w == UpperSum(Sbox(x0), Sbox(x1), Sbox(x2), Sbox(x3))
  {
    w := T0(x0) ^ T1(x1) ^ T2(x2) ^ T3(x3);
    Column0(x0);
    Column1(x1);
    Column2(x2);
    Column3(x3);
    XorTree(T0(x0), T1(x1), T2(x2), T3(x3));
  }

  method LowerLookups(x4: bv8, x5: bv8, x6: bv8, x7: bv8) returns (w: bv64)
    ensures w == LowerSum(Sbox(x4), Sbox(x5), Sbox(x6), Sbox(x7))
  {
    w := T4(x4) ^ T5(x5) ^ T6(x6) ^ T7(x7);
    Column4(x4);
    Column5(x5);
    Column6(x6);
    Column7(x7);
    XorTree(T4(x4), T5(x5), T6(x6), T7(x7));
  }

  /** The last round keeps one byte of every lookup: the S-box alone. */
  method MaskedLookup0(x: bv8) returns (w: bv64)
    ensures w == Word(Sbox(x), 0, 0, 0, 0, 0, 0, 0)
  {
    w := T0(x) & 0xff00000000000000;
    Table0(x);
  }

  method MaskedLookup1(x: bv8) returns (w: bv64)
    ensures w == Word(0, Sbox(x), 0, 0, 0, 0, 0, 0)
  {
    w := T1(x) & 0x00ff000000000000;
    Table1(x);
  }

  method MaskedLookup2(x: bv8) returns (w: bv64)
    ensures w == Word(0, 0, Sbox(x), 0, 0, 0, 0, 0)
  {
    w := T2(x) & 0x0000ff0000000000;
    Table2(x);
  }

  method MaskedLookup3(x: bv8) returns (w: bv64)
    ensures w == Word(0, 0, 0, Sbox(x), 0, 0, 0, 0)
  {
    w := T3(x) & 0x000000ff00000000;
    Table3(x);
  }

  method MaskedLookup4(x: bv8) returns (w: bv64)
    ensures w == Word(0, 0, 0, 0, Sbox(x), 0, 0, 0)
  {
    w := T4(x) & 0x00000000ff000000;
    Table4(x);
  }

  method MaskedLookup5(x: bv8) returns (w: bv64)
    ensures w == Word(0, 0, 0, 0, 0, Sbox(x), 0, 0)
  {
    w := T5(x) & 0x0000000000ff0000;
    Table5(x);
  }

  method MaskedLookup6(x: bv8) returns (w: bv64)
    ensures w == Word(0, 0, 0, 0, 0, 0, Sbox(x), 0)
  {
    w := T6(x) & 0x000000000000ff00;
    Table6(x);
  }

  method MaskedLookup7(x: bv8) returns (w: bv64)
    ensures w == Word(0, 0, 0, 0, 0, 0, 0, Sbox(x))
  {
    w := T7(x) & 0x00000000000000ff;
    Table7(x);
  }

  lemma WordParts(a: bv8, b: bv8, c: bv8, d: bv8, e: bv8, f: bv8, g: bv8, h: bv8)
    ensures Word(a, 0, 0, 0, 0, 0, 0, 0) ^
            Word(0, b, 0, 0, 0, 0, 0, 0) ^
            Word(0, 0, c, 0, 0, 0, 0, 0) ^
            Word(0, 0, 0, d, 0, 0, 0, 0) ^
            Word(0, 0, 0, 0, e, 0, 0, 0) ^
            Word(0, 0, 0, 0, 0, f, 0, 0) ^
            Word(0, 0, 0, 0, 0, 0, g, 0) ^
            Word(0, 0, 0, 0, 0, 0, 0, h)
         == Word(a, b, c, d, e, f, g, h)
  {
  }

  /* ---- The layers and their laws ---- */

  function Substitute(): bv64 -> bv64 {
    Gamma(Words64(), Sbox)
  }

  function Diffuse(): bv64 -> bv64 {
    Theta(Bytes(), Words64(), MatrixRow())
  }

  lemma RowTotalIsOne()
    ensures Shape(3, MatrixRow()) && UnitTotal(Bytes(), MatrixRow())
  {
    FourAndEight(ONE, THREE, FOUR, FIVE, SIX, EIGHT, ELEVEN, SEVEN);
    assert Total(Row4(ONE, THREE, FOUR, FIVE)) == Plus(Plus(ONE, THREE), Plus(FOUR, FIVE));
    assert Total(Row4(SIX, EIGHT, ELEVEN, SEVEN)) == Plus(Plus(SIX, EIGHT), Plus(ELEVEN, SEVEN));
    assert Total(MatrixRow()) == ONE;
    forall b ensures Times(Bytes(), ONE, b) == b {
      ByteConstants(b);
    }
  }

  /** The laws the generic inversion theorem asks for. */
  lemma LayersAreInvolutions()
    ensures Involution(Substitute()) && Involution(Diffuse())
    ensures Linear(Diffuse(), Xor64) && Cancels(Xor64)
  {
    Words64Faithful();
    BytesAreBinarySpace();
    RowTotalIsOne();
    forall x: bv8 ensures Sbox(Sbox(x)) == x {
      SboxInvolution(x);
    }
    GammaInvolution(Bytes(), 3, Words64(), Sbox);
    ThetaInvolution(Bytes(), 3, Words64(), MatrixRow());
    ThetaLinear(Bytes(), 3, Words64(), MatrixRow());
    forall x: bv64, k ensures Xor64(Xor64(x, k), k) == x {
      Xor64Is(x, k);
      assert Xor64(x ^ k, k) == x;
    }
  }

  lemma UnpackIs(w: bv64)
    ensures Unpack(w) == Row8(B0(w), B1(w), B2(w), B3(w), B4(w), B5(w), B6(w), B7(w))
  {
  }

  lemma SubstituteIs(w: bv64)
    ensures Substitute()(w) == Pack(MapRow(Sbox, Unpack(w)))
  {
  }

  lemma SubstituteOnBytes(w: bv64)
    ensures Substitute()(w)
         == Word(Sbox(B0(w)), Sbox(B1(w)), Sbox(B2(w)), Sbox(B3(w)), Sbox(B4(w)), Sbox(B5(w)), Sbox(B6(w)), Sbox(B7(w)))
  {
    SubstituteIs(w);
    UnpackIs(w);
    MapRow8(Sbox, B0(w), B1(w), B2(w), B3(w), B4(w), B5(w), B6(w), B7(w));
    PackRow(Sbox(B0(w)), Sbox(B1(w)), Sbox(B2(w)), Sbox(B3(w)), Sbox(B4(w)), Sbox(B5(w)), Sbox(B6(w)), Sbox(B7(w)));
  }

  lemma DiffuseIs(w: bv64)
    ensures Diffuse()(w) == Pack(Multiply(Bytes(), MatrixRow(), Unpack(w)))
  {
  }

  lemma DiffuseOnBytes(w: bv64)
    ensures Diffuse()(w)
         == Xor64(UpperSum(B0(w), B1(w), B2(w), B3(w)), LowerSum(B4(w), B5(w), B6(w), B7(w)))
  {
    DiffuseIs(w);
    UnpackIs(w);
    TwoHalves(B0(w), B1(w), B2(w), B3(w), B4(w), B5(w), B6(w), B7(w));
  }

  lemma DiffuseSubstituteOnBytes(w: bv64)
    ensures Diffuse()(Substitute()(w))
         == Xor64(UpperSum(Sbox(B0(w)), Sbox(B1(w)), Sbox(B2(w)), Sbox(B3(w))),
                  LowerSum(Sbox(B4(w)), Sbox(B5(w)), Sbox(B6(w)), Sbox(B7(w))))
  {
    SubstituteOnBytes(w);
    BytesOfWord(Sbox(B0(w)), Sbox(B1(w)), Sbox(B2(w)), Sbox(B3(w)), Sbox(B4(w)), Sbox(B5(w)), Sbox(B6(w)), Sbox(B7(w)));
    DiffuseOnBytes(Substitute()(w));
  }

  /* ---- Blocks ---- */

  function LoadBlock(p: seq<Byte>): bv64
    requires |p| == 8
  {
    Word(p[0], p[1], p[2], p[3], p[4], p[5], p[6], p[7])
  }

  function StoreBlock(w: bv64): (p: seq<Byte>)
    ensures |p| == 8
  {
    [B0(w), B1(w), B2(w), B3(w), B4(w), B5(w), B6(w), B7(w)]
  }

  lemma LoadStoreBlock(w: bv64, p: seq<Byte>)
    requires |p| == 8
    ensures LoadBlock(StoreBlock(w)) == w && StoreBlock(LoadBlock(p)) == p
  {
    WordOfBytes(w);
    BytesOfWord(p[0], p[1], p[2], p[3], p[4], p[5], p[6], p[7]);
    assert StoreBlock(LoadBlock(p)) == [p[0], p[1], p[2], p[3], p[4], p[5], p[6], p[7]];
  }

  method FullRound(state: bv64, k: bv64, ghost add: (bv64, bv64) -> bv64) returns (next: bv64)
    requires add == Xor64
    ensures next == add(Diffuse()(Substitute()(state)), k)
  {
    var upper := UpperLookups(B0(state), B1(state), B2(state), B3(state));
    var lower := LowerLookups(B4(state), B5(state), B6(state), B7(state));
    next := upper ^ lower ^ k;
    DiffuseSubstituteOnBytes(state);
    Xor64Is(upper, lower);
    Xor64Is(upper ^ lower, k);
  }

  method LastRound(state: bv64, k: bv64, ghost add: (bv64, bv64) -> bv64) returns (next: bv64)
    requires add == Xor64
    ensures next == add(Substitute()(state), k)
  {
    var w0 := MaskedLookup0(B0(state));
    var w1 := MaskedLookup1(B1(state));
    var w2 := MaskedLookup2(B2(state));
    var w3 := MaskedLookup3(B3(state));
    var w4 := MaskedLookup4(B4(state));
    var w5 := MaskedLookup5(B5(state));
    var w6 := MaskedLookup6(B6(state));
    var w7 := MaskedLookup7(B7(state));
    next := w0 ^ w1 ^ w2 ^ w3 ^ w4 ^ w5 ^ w6 ^ w7 ^ k;
    SubstituteOnBytes(state);
    WordParts(Sbox(B0(state)), Sbox(B1(state)), Sbox(B2(state)), Sbox(B3(state)),
              Sbox(B4(state)), Sbox(B5(state)), Sbox(B6(state)), Sbox(B7(state)));
    Xor64Is(w0 ^ w1 ^ w2 ^ w3 ^ w4 ^ w5 ^ w6 ^ w7, k);
  }

  /** The block transformation under a given list of round keys. */
  function CryptBlock(keys: seq<bv64>, p: seq<Byte>): (q: seq<Byte>)
    requires |keys| == ROUNDS + 1 && |p| == 8
    ensures |q| == 8
  {
    StoreBlock(Crypt(Substitute(), Diffuse(), Xor64, keys, LoadBlock(p)))
  }

  type Layer = bv64 -> bv64
  type Addition = (bv64, bv64) -> bv64

  /** `state` is the state in which round `r` starts; round 1 is the first after the initial key addition. */
  ghost predicate InRound(gamma: Layer, theta: Layer, add: Addition, w: bv64, roundKey: seq<bv64>, r: nat, state: bv64) {
    1 <= r <= |roundKey| && state == FullRounds(gamma, theta, add, roundKey, r - 1, w)
  }

  /** The layers of this cipher.  The methods below take them as ghost parameters, so that the loop does not see their definitions. */
  ghost predicate Layers(gamma: Layer, theta: Layer, add: Addition) {
    gamma == Substitute() && theta == Diffuse() && add == Xor64
  }

  method FirstKey(w: bv64, roundKey: seq<bv64>, ghost gamma: Layer, ghost theta: Layer, ghost add: Addition) returns (state: bv64)
    requires |roundKey| == ROUNDS + 1 && Layers(gamma, theta, add)
    ensures InRound(gamma, theta, add, w, roundKey, 1, state)
  {
    state := w ^ roundKey[0];
    RoundByRound(gamma, theta, add, roundKey, 0, w);
    Xor64Is(w, roundKey[0]);
  }

  method Round(w: bv64, roundKey: seq<bv64>, r: nat, state: bv64, ghost gamma: Layer, ghost theta: Layer, ghost add: Addition)
    returns (next: bv64)
    requires |roundKey| == ROUNDS + 1 && 1 <= r < ROUNDS && Layers(gamma, theta, add)
    requires InRound(gamma, theta, add, w, roundKey, r, state)
    ensures InRound(gamma, theta, add, w, roundKey, r + 1, next)
  {
    RoundByRound(gamma, theta, add, roundKey, r, w);
    next := FullRound(state, roundKey[r], add);
  }

  method FinalRound(w: bv64, roundKey: seq<bv64>, state: bv64, ghost gamma: Layer, ghost theta: Layer, ghost add: Addition)
    returns (last: bv64)
    requires |roundKey| == ROUNDS + 1 && Layers(gamma, theta, add)
    requires InRound(gamma, theta, add, w, roundKey, |roundKey| - 1, state)
    ensures last == Crypt(gamma, theta, add, roundKey, w)
  {
    last := LastRound(state, roundKey[ROUNDS], add);
    CryptIs(gamma, theta, add, roundKey, w);
  }

  method MiddleRounds(w: bv64, roundKey: seq<bv64>, first: bv64, ghost gamma: Layer, ghost theta: Layer, ghost add: Addition)
    returns (state: bv64)
    requires |roundKey| == ROUNDS + 1 && Layers(gamma, theta, add)
    requires InRound(gamma, theta, add, w, roundKey, 1, first)
    ensures InRound(gamma, theta, add, w, roundKey, |roundKey| - 1, state)
  {
    state := first;
    for r := 1 to ROUNDS
      invariant InRound(gamma, theta, add, w, roundKey, r, state)
    {
      state := Round(w, roundKey, r, state, gamma, theta, add);
    }
  }

  method AllRounds(w: bv64, roundKey: seq<bv64>, ghost gamma: Layer, ghost theta: Layer, ghost add: Addition) returns (last: bv64)
    requires |roundKey| == ROUNDS + 1 && Layers(gamma, theta, add)
    ensures last == Crypt(gamma, theta, add, roundKey, w)
  {
    var state := FirstKey(w, roundKey, gamma, theta, add);
    state := MiddleRounds(w, roundKey, state, gamma, theta, add);
    last := FinalRound(w, roundKey, state, gamma, theta, add);
  }

  method KhazadCrypt(p: seq<Byte>, roundKey: seq<bv64>) returns (q: seq<Byte>)
    requires |p| == 8 && |roundKey| == ROUNDS + 1
    ensures q == CryptBlock(roundKey, p)
  {
    var last := AllRounds(LoadBlock(p), roundKey, Substitute(), Diffuse(), Xor64);
    q := StoreBlock(last);
  }

  /* ---- The key schedule ---- */

  /** The round constants. */
  function RoundConstant(r: nat): bv64 {
    if r == 0 then 0xba542f7453d3d24d
    else if r == 1 then 0x50ac8dbf70529a4c
    else if r == 2 then 0xead597d133515ba6
    else if r == 3 then 0xde48a899db32b7fc
    else if r == 4 then 0xe39e919be2bb416e
    else if r == 5 then 0xa5cb6b95a1f3b102
    else if r == 6 then 0xccc41d14c363da5d
    else if r == 7 then 0x5fdc7dcd7f5a6c5c
    else 0xf726ffede89d6f8e
  }

  /** They are the S-box read off in order, eight bytes to a constant. */
  lemma RoundConstantsFromSbox()
    ensures RoundConstant(0) == Word(Sbox(0), Sbox(1), Sbox(2), Sbox(3), Sbox(4), Sbox(5), Sbox(6), Sbox(7))
    ensures RoundConstant(1) == Word(Sbox(8), Sbox(9), Sbox(10), Sbox(11), Sbox(12), Sbox(13), Sbox(14), Sbox(15))
    ensures RoundConstant(2) == Word(Sbox(16), Sbox(17), Sbox(18), Sbox(19), Sbox(20), Sbox(21), Sbox(22), Sbox(23))
    ensures RoundConstant(3) == Word(Sbox(24), Sbox(25), Sbox(26), Sbox(27), Sbox(28), Sbox(29), Sbox(30), Sbox(31))
    ensures RoundConstant(4) == Word(Sbox(32), Sbox(33), Sbox(34), Sbox(35), Sbox(36), Sbox(37), Sbox(38), Sbox(39))
  {
  }

  lemma MoreRoundConstantsFromSbox()
    ensures RoundConstant(5) == Word(Sbox(40), Sbox(41), Sbox(42), Sbox(43), Sbox(44), Sbox(45), Sbox(46), Sbox(47))
    ensures RoundConstant(6) == Word(Sbox(48), Sbox(49), Sbox(50), Sbox(51), Sbox(52), Sbox(53), Sbox(54), Sbox(55))
    ensures RoundConstant(7) == Word(Sbox(56), Sbox(57), Sbox(58), Sbox(59), Sbox(60), Sbox(61), Sbox(62), Sbox(63))
    ensures RoundConstant(8) == Word(Sbox(64), Sbox(65), Sbox(66), Sbox(67), Sbox(68), Sbox(69), Sbox(70), Sbox(71))
  {
  }

  /** A round key from the two before it: one round of a Feistel network. */
  function NextKey(r: nat, k1: bv64, k2: bv64): bv64 {
    Xor64(Xor64(Diffuse()(Substitute()(k1)), RoundConstant(r)), k2)
  }

  /** The two halves of the cipher key, then one key a round. */
  ghost predicate ExpansionBy(next: (nat, bv64, bv64) -> bv64, key: seq<Byte>, ks: seq<bv64>)
    requires |key| == 16
  {
    |ks| >= 2 && ks[0] == LoadBlock(key[..8]) && ks[1] == LoadBlock(key[8..]) && Recurrence(next, ks)
  }

  ghost predicate Expansion(key: seq<Byte>, ks: seq<bv64>)
    requires |key| == 16
  {
    ExpansionBy(NextKey, key, ks)
  }

  /** `next` computes the keys of this cipher; the trigger keeps their definition out of the loop. */
  ghost predicate GivesKeys(next: (nat, bv64, bv64) -> bv64) {
    forall r: nat, k1, k2 {:trigger NextKey(r, k1, k2)} :: next(r, k1, k2) == NextKey(r, k1, k2)
  }

  lemma NextKeyGivesKeys()
    ensures GivesKeys(NextKey)
  {
  }

  lemma ExpansionGrows(next: (nat, bv64, bv64) -> bv64, key: seq<Byte>, ks: seq<bv64>, k: bv64)
    requires |key| == 16 && ExpansionBy(next, key, ks) && k == next(|ks| - 2, ks[|ks| - 1], ks[|ks| - 2])
    ensures ExpansionBy(next, key, ks + [k])
  {
    RecurrenceGrows(next, ks, k);
  }

  method NextRoundKey(r: nat, k1: bv64, k2: bv64, ghost next: (nat, bv64, bv64) -> bv64) returns (k: bv64)
    requires GivesKeys(next)
    ensures k == next(r, k1, k2)
  {
    var t := FullRound(k1, RoundConstant(r), Xor64);
    k := t ^ k2;
    Xor64Is(t, k2);
    assert k == NextKey(r, k1, k2);
  }

  /** One step of the schedule: the two newest keys give the next one. */
  method ScheduleRound(key: seq<Byte>, ks: seq<bv64>, ghost next: (nat, bv64, bv64) -> bv64) returns (k: bv64)
    requires |key| == 16 && ExpansionBy(next, key, ks) && GivesKeys(next)
    ensures ExpansionBy(next, key, ks + [k])
  {
    k := NextRoundKey(|ks| - 2, ks[|ks| - 1], ks[|ks| - 2], next);
    ExpansionGrows(next, key, ks, k);
  }

  /** The setup reads the S-box off the eighth table. */
  method SboxLookup(x: bv8) returns (b: bv8)
    ensures b == Sbox(x)
  {
    b := (T7(x) & 0xff) as bv8;
    Table7(x);
  }

  method InverseRoundKey(k: bv64) returns (w: bv64)
    ensures w == Diffuse()(k)
  {
    var s0 := SboxLookup(B0(k));
    var s1 := SboxLookup(B1(k));
    var s2 := SboxLookup(B2(k));
    var s3 := SboxLookup(B3(k));
    var s4 := SboxLookup(B4(k));
    var s5 := SboxLookup(B5(k));
    var s6 := SboxLookup(B6(k));
    var s7 := SboxLookup(B7(k));
    var upper := UpperLookups(s0, s1, s2, s3);
    var lower := LowerLookups(s4, s5, s6, s7);
    w := upper ^ lower;
    SboxInvolution(B0(k));
    SboxInvolution(B1(k));
    SboxInvolution(B2(k));
    SboxInvolution(B3(k));
    SboxInvolution(B4(k));
    SboxInvolution(B5(k));
    SboxInvolution(B6(k));
    SboxInvolution(B7(k));
    Xor64Is(upper, lower);
    DiffuseOnBytes(k);
  }

  /** The two schedules a key is expanded into. */
  datatype ScheduledKey = ScheduledKey(enc: seq<bv64>, dec: seq<bv64>)

  ghost predicate Scheduled(key: seq<Byte>, skey: ScheduledKey)
    requires |key| == 16
  {
    && |skey.enc| == |skey.dec| == ROUNDS + 1
    && Expansion(key, [LoadBlock(key[..8]), LoadBlock(key[8..])] + skey.enc)
    && InverseSchedule(Diffuse(), skey.enc, skey.dec)
  }

  method Setup(key: seq<Byte>, numRounds: int) returns (status: Status, skey: ScheduledKey)
    ensures status ==
      if |key| != 16 then InvalidKeySize else if numRounds != 8 && numRounds != 0 then InvalidRounds else Ok
    ensures status == Ok ==> Scheduled(key, skey)
  {
    skey := ScheduledKey([], []);
    if |key| != 16 {
      return InvalidKeySize, skey;
    }
    if numRounds != 8 && numRounds != 0 {
      return InvalidRounds, skey;
    }
    NextKeyGivesKeys();
    var enc := EncryptionKeys(key, NextKey);
    var dec := DecryptionKeys(enc, Diffuse());
    skey := ScheduledKey(enc, dec);
    status := Ok;
  }

  method EncryptionKeys(key: seq<Byte>, ghost next: (nat, bv64, bv64) -> bv64) returns (enc: seq<bv64>)
    requires |key| == 16 && GivesKeys(next)
    ensures |enc| == ROUNDS + 1 && ExpansionBy(next, key, [LoadBlock(key[..8]), LoadBlock(key[8..])] + enc)
  {
    var ks := [LoadBlock(key[..8]), LoadBlock(key[8..])];
    while |ks| < ROUNDS + 3
      invariant 2 <= |ks| <= ROUNDS + 3 && ExpansionBy(next, key, ks)
    {
      var k := ScheduleRound(key, ks, next);
      ks := ks + [k];
    }
    enc := ks[2..];
    assert [LoadBlock(key[..8]), LoadBlock(key[8..])] + enc == ks;
  }

  method NextInverseKey(enc: seq<bv64>, dec: seq<bv64>, ghost theta: bv64 -> bv64) returns (k: bv64)
    requires theta == Diffuse() && InverseSoFar(theta, enc, dec) && |dec| < |enc| - 1
    ensures InverseSoFar(theta, enc, dec + [k])
  {
    k := InverseRoundKey(enc[|enc| - 1 - |dec|]);
    InverseGrows(theta, enc, dec, k);
  }

  method DecryptionKeys(enc: seq<bv64>, ghost theta: bv64 -> bv64) returns (dec: seq<bv64>)
    requires |enc| == ROUNDS + 1 && theta == Diffuse()
    ensures InverseSchedule(theta, enc, dec)
  {
    var ks := [enc[ROUNDS]];
    while |ks| < ROUNDS
      invariant InverseSoFar(theta, enc, ks)
    {
      var k := NextInverseKey(enc, ks, theta);
      ks := ks + [k];
    }
    dec := ks + [enc[0]];
    InverseCompletes(theta, enc, ks);
  }

  /* ---- Encryption and decryption ---- */

  method EcbEncrypt(pt: seq<Byte>, skey: ScheduledKey) returns (ct: seq<Byte>)
    requires |pt| == 8 && |skey.enc| == ROUNDS + 1
    ensures ct == CryptBlock(skey.enc, pt)
  {
    ct := KhazadCrypt(pt, skey.enc);
  }

  method EcbDecrypt(ct: seq<Byte>, skey: ScheduledKey) returns (pt: seq<Byte>)
    requires |ct| == 8 && |skey.dec| == ROUNDS + 1
    ensures pt == CryptBlock(skey.dec, ct)
  {
    pt := KhazadCrypt(ct, skey.dec);
  }

  /** Decryption inverts encryption for every key and every block. */
  lemma DecryptInvertsEncrypt(key: seq<Byte>, skey: ScheduledKey, pt: seq<Byte>)
    requires |key| == 16 && Scheduled(key, skey) && |pt| == 8
    ensures CryptBlock(skey.dec, CryptBlock(skey.enc, pt)) == pt
  {
    LayersAreInvolutions();
    CryptInverts(Substitute(), Diffuse(), Xor64, skey.enc, skey.dec, LoadBlock(pt));
    LoadStoreBlock(Crypt(Substitute(), Diffuse(), Xor64, skey.enc, LoadBlock(pt)), pt);
  }
}

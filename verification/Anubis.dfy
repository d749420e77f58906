/**
  The original Anubis (`NXTservices/anubis.c`): 16-byte blocks as four 32-bit words, keys of
  4 to 10 words, 8 plus that many rounds.  The tables fuse the S-box with one column of a
  4 x 4 Hadamard matrix; reading byte i of every word also transposes the state.
 */
module Anubis {
  import opened Words
  import opened Hadamard
  import opened Gf256
  import opened InvolutionalCipher
  import opened Diffusion
  import opened AnubisTables

  /* ---- Bytes of words, the most significant first ---- */

  function B0(w: bv32): bv8 { ((w >> 24) & 0xff) as bv8 }
  function B1(w: bv32): bv8 { ((w >> 16) & 0xff) as bv8 }
  function B2(w: bv32): bv8 { ((w >> 8) & 0xff) as bv8 }
  function B3(w: bv32): bv8 { (w & 0xff) as bv8 }

  function Word(a: bv8, b: bv8, c: bv8, d: bv8): bv32 {
    ((a as bv32) << 24) ^ ((b as bv32) << 16) ^ ((c as bv32) << 8) ^ (d as bv32)
  }

  lemma WordOfBytes(w: bv32)
    ensures Word(B0(w), B1(w), B2(w), B3(w)) == w
  {
  }

  lemma BytesOfWord(a: bv8, b: bv8, c: bv8, d: bv8)
    ensures var w := Word(a, b, c, d); B0(w) == a && B1(w) == b && B2(w) == c && B3(w) == d
  {
  }

  lemma WordXor(a: bv8, b: bv8, c: bv8, d: bv8, a': bv8, b': bv8, c': bv8, d': bv8)
    ensures Word(Xor(a, a'), Xor(b, b'), Xor(c, c'), Xor(d, d')) == Xor32(Word(a, b, c, d), Word(a', b', c', d'))
  {
  }

  /* ---- Words as rows of bytes ---- */

  function Unpack(w: bv32): Row<bv8> {
    Row4(B0(w), B1(w), B2(w), B3(w))
  }

  function Pack(r: Row<bv8>): bv32 {
    match r
    case Two(Two(One(a), One(b)), Two(One(c), One(d))) => Word(a, b, c, d)
    case _ => 0
  }

  lemma UnpackIs(w: bv32)
    ensures Unpack(w) == Row4(B0(w), B1(w), B2(w), B3(w))
  {
  }

  lemma PackRow(a: bv8, b: bv8, c: bv8, d: bv8)
    ensures Pack(Row4(a, b, c, d)) == Word(a, b, c, d)
  {
  }

  lemma PackUnpack(w: bv32)
    ensures Shape(2, Unpack(w)) && Pack(Unpack(w)) == w
  {
    WordOfBytes(w);
    FourAndEight(B0(w), B1(w), B2(w), B3(w), 0, 0, 0, 0);
  }

  lemma UnpackPack(r: Row<bv8>)
    requires Shape(2, r)
    ensures Unpack(Pack(r)) == r
  {
    var a, b, c, d := RowsOfFour(r);
    BytesOfWord(a, b, c, d);
  }

  lemma AddByteRows(a: bv8, b: bv8, c: bv8, d: bv8, a': bv8, b': bv8, c': bv8, d': bv8)
    ensures AddRows(Bytes(), Row4(a, b, c, d), Row4(a', b', c', d'))
         == Row4(Xor(a, a'), Xor(b, b'), Xor(c, c'), Xor(d, d'))
  {
    AddRows4(Bytes(), a, b, c, d, a', b', c', d');
  }

  lemma PackXor(r: Row<bv8>, q: Row<bv8>)
    requires Shape(2, r) && Shape(2, q)
    ensures Pack(AddRows(Bytes(), r, q)) == Xor32(Pack(r), Pack(q))
  {
    var a, b, c, d := RowsOfFour(r);
    var a', b', c', d' := RowsOfFour(q);
    PackRow(a, b, c, d);
    PackRow(a', b', c', d');
    PackRow(Xor(a, a'), Xor(b, b'), Xor(c, c'), Xor(d, d'));
    AddByteRows(a, b, c, d, a', b', c', d');
    WordXor(a, b, c, d, a', b', c', d');
  }

  function Words32(): Coding<bv8, bv32> {
    Coding(Pack, Unpack, Xor32)
  }

  lemma Words32Faithful()
    ensures Faithful(Bytes(), 2, Words32())
  {
    forall w {
      PackUnpack(w);
    }
    forall r | Shape(2, r) {
      UnpackPack(r);
    }
    forall r, q | Shape(2, r) && Shape(2, q) {
      PackXor(r, q);
    }
  }

  /* ---- The tables ---- */

  /** had(1, 2, 4, 6). */
  function MatrixRow(): Row<Poly> {
    Row4(ONE, TWO, FOUR, SIX)
  }

  /* Every entry of the tables; each quarter of a table is decided by itself. */

  lemma Table0(x: bv8)
    ensures var (b, b2, b4) := (Sbox(x), Xtime(Sbox(x)), Xtime(Xtime(Sbox(x))));
      T0(x) == Word(b, b2, b4, Xor(b2, b4))
  {
    if x & 0x80 == 0 {
      if x & 0x40 == 0 {
      } else {
      }
    } else if x & 0x40 == 0 {
    } else {
    }
  }

  lemma Table1(x: bv8)
    ensures var (b, b2, b4) := (Sbox(x), Xtime(Sbox(x)), Xtime(Xtime(Sbox(x))));
      T1(x) == Word(b2, b, Xor(b2, b4), b4)
  {
    if x & 0x80 == 0 {
      if x & 0x40 == 0 {
      } else {
      }
    } else if x & 0x40 == 0 {
    } else {
    }
  }

  lemma Table2(x: bv8)
    ensures var (b, b2, b4) := (Sbox(x), Xtime(Sbox(x)), Xtime(Xtime(Sbox(x))));
      T2(x) == Word(b4, Xor(b2, b4), b, b2)
  {
    if x & 0x80 == 0 {
      if x & 0x40 == 0 {
      } else {
      }
    } else if x & 0x40 == 0 {
    } else {
    }
  }

  lemma Table3(x: bv8)
    ensures var (b, b2, b4) := (Sbox(x), Xtime(Sbox(x)), Xtime(Xtime(Sbox(x))));
      T3(x) == Word(Xor(b2, b4), b4, b2, b)
  {
    if x & 0x80 == 0 {
      if x & 0x40 == 0 {
      } else {
      }
    } else if x & 0x40 == 0 {
    } else {
    }
  }

  lemma Table4(x: bv8)
    ensures T4(x) == Word(Sbox(x), Sbox(x), Sbox(x), Sbox(x))
  {
    if x & 0x80 == 0 {
      if x & 0x40 == 0 {
      } else {
      }
    } else if x & 0x40 == 0 {
    } else {
    }
  }

  lemma Table5(x: bv8)
    ensures var (x2, x4, x8) := (Xtime(x), Xtime(Xtime(x)), Xtime(Xtime(Xtime(x))));
      T5(x) == Word(x, x2, Xor(x2, x4), x8)
  {
  }

  lemma SboxInvolution(x: bv8)
    ensures Sbox(Sbox(x)) == x
  {
  }

  lemma Column0(x: bv8)
    ensures T0(x) == Pack(Column4(Bytes(), ONE, TWO, FOUR, SIX, Sbox(x)))
  {
    var b := Sbox(x);
    Table0(x);
    ByteConstants(b);
    PackRow(Times(Bytes(), ONE, b), Times(Bytes(), TWO, b), Times(Bytes(), FOUR, b), Times(Bytes(), SIX, b));
  }

  lemma Column1(x: bv8)
    ensures T1(x) == Pack(Column4(Bytes(), TWO, ONE, SIX, FOUR, Sbox(x)))
  {
    var b := Sbox(x);
    Table1(x);
    ByteConstants(b);
    PackRow(Times(Bytes(), TWO, b), Times(Bytes(), ONE, b), Times(Bytes(), SIX, b), Times(Bytes(), FOUR, b));
  }

  lemma Column2(x: bv8)
    ensures T2(x) == Pack(Column4(Bytes(), FOUR, SIX, ONE, TWO, Sbox(x)))
  {
    var b := Sbox(x);
    Table2(x);
    ByteConstants(b);
    PackRow(Times(Bytes(), FOUR, b), Times(Bytes(), SIX, b), Times(Bytes(), ONE, b), Times(Bytes(), TWO, b));
  }

  lemma Column3(x: bv8)
    ensures T3(x) == Pack(Column4(Bytes(), SIX, FOUR, TWO, ONE, Sbox(x)))
  {
    var b := Sbox(x);
    Table3(x);
    ByteConstants(b);
    PackRow(Times(Bytes(), SIX, b), Times(Bytes(), FOUR, b), Times(Bytes(), TWO, b), Times(Bytes(), ONE, b));
  }

  /* ---- The layers on one word ---- */

  /** The matrix applied to the bytes of a word. */
  function Mix(): bv32 -> bv32 {
    Theta(Bytes(), Words32(), MatrixRow())
  }

  lemma RowTotalIsOne()
    ensures Shape(2, MatrixRow()) && UnitTotal(Bytes(), MatrixRow())
  {
    FourAndEight(ONE, TWO, FOUR, SIX, ONE, TWO, FOUR, SIX);
    assert Total(MatrixRow()) == Plus(Plus(ONE, TWO), Plus(FOUR, SIX)) == ONE;
    forall b ensures Times(Bytes(), ONE, b) == b {
      ByteConstants(b);
    }
  }

  lemma MixLaws()
    ensures Involution(Mix()) && Linear(Mix(), Xor32)
  {
    Words32Faithful();
    BytesAreBinarySpace();
    RowTotalIsOne();
    ThetaInvolution(Bytes(), 2, Words32(), MatrixRow());
    ThetaLinear(Bytes(), 2, Words32(), MatrixRow());
  }

  lemma MixIs(w: bv32)
    ensures Mix()(w) == Pack(Multiply(Bytes(), MatrixRow(), Unpack(w)))
  {
  }

  lemma ColumnsOfMix(b0: bv8, b1: bv8, b2: bv8, b3: bv8)
    ensures Pack(Multiply(Bytes(), MatrixRow(), Row4(b0, b1, b2, b3)))
         == Tree(Xor32, Pack(Column4(Bytes(), ONE, TWO, FOUR, SIX, b0)), Pack(Column4(Bytes(), TWO, ONE, SIX, FOUR, b1)),
                        Pack(Column4(Bytes(), FOUR, SIX, ONE, TWO, b2)), Pack(Column4(Bytes(), SIX, FOUR, TWO, ONE, b3)))
  {
    Words32Faithful();
    FourTables(Bytes(), Words32(), ONE, TWO, FOUR, SIX, b0, b1, b2, b3);
  }

  lemma MixOnBytes(b0: bv8, b1: bv8, b2: bv8, b3: bv8)
    ensures Mix()(Word(b0, b1, b2, b3))
         == Tree(Xor32, Pack(Column4(Bytes(), ONE, TWO, FOUR, SIX, b0)), Pack(Column4(Bytes(), TWO, ONE, SIX, FOUR, b1)),
                        Pack(Column4(Bytes(), FOUR, SIX, ONE, TWO, b2)), Pack(Column4(Bytes(), SIX, FOUR, TWO, ONE, b3)))
  {
    MixIs(Word(b0, b1, b2, b3));
    UnpackIs(Word(b0, b1, b2, b3));
    BytesOfWord(b0, b1, b2, b3);
    ColumnsOfMix(b0, b1, b2, b3);
  }

  lemma XorTree(a: bv32, b: bv32, c: bv32, d: bv32)
    ensures Tree(Xor32, a, b, c, d) == a ^ b ^ c ^ d
  {
    Xor32Is(a, b);
    Xor32Is(c, d);
    assert Xor32(a ^ b, c ^ d) == a ^ b ^ c ^ d;
  }

  /** One lookup in each of the first four tables: the S-box on four bytes, then the matrix. */
  method MixLookups(x0: bv8, x1: bv8, x2: bv8, x3: bv8) returns (w: bv32)
    ensures w == Mix()(Word(Sbox(x0), Sbox(x1), Sbox(x2), Sbox(x3)))
  {
    w := T0(x0) ^ T1(x1) ^ T2(x2) ^ T3(x3);
    Column0(x0);
    Column1(x1);
    Column2(x2);
    Column3(x3);
    XorTree(T0(x0), T1(x1), T2(x2), T3(x3));
    MixOnBytes(Sbox(x0), Sbox(x1), Sbox(x2), Sbox(x3));
  }

  /** The masks of the last round keep the entry 1 of each column: the S-box alone. */
  method MaskedLookup0(x: bv8) returns (w: bv32)
    ensures w == Word(Sbox(x), 0, 0, 0)
  {
    w := T0(x) & 0xff000000;
    Table0(x);
  }

  method MaskedLookup1(x: bv8) returns (w: bv32)
    ensures w == Word(0, Sbox(x), 0, 0)
  {
    w := T1(x) & 0x00ff0000;
    Table1(x);
  }

  method MaskedLookup2(x: bv8) returns (w: bv32)
    ensures w == Word(0, 0, Sbox(x), 0)
  {
    w := T2(x) & 0x0000ff00;
    Table2(x);
  }

  method MaskedLookup3(x: bv8) returns (w: bv32)
    ensures w == Word(0, 0, 0, Sbox(x))
  {
    w := T3(x) & 0x000000ff;
    Table3(x);
  }

  lemma WordParts(a: bv8, b: bv8, c: bv8, d: bv8)
    ensures Word(a, 0, 0, 0) ^ Word(0, b, 0, 0) ^ Word(0, 0, c, 0) ^ Word(0, 0, 0, d) == Word(a, b, c, d)
  {
  }

  method SboxLookups(x0: bv8, x1: bv8, x2: bv8, x3: bv8) returns (w: bv32)
    ensures w == Word(Sbox(x0), Sbox(x1), Sbox(x2), Sbox(x3))
  {
    var w0 := MaskedLookup0(x0);
    var w1 := MaskedLookup1(x1);
    var w2 := MaskedLookup2(x2);
    var w3 := MaskedLookup3(x3);
    w := w0 ^ w1 ^ w2 ^ w3;
    WordParts(Sbox(x0), Sbox(x1), Sbox(x2), Sbox(x3));
  }

  /* ---- The layers on the whole state ---- */

  function Substitute(): Quad<bv32> -> Quad<bv32> {
    SubstituteTranspose(Word, B0, B1, B2, B3, Sbox)
  }

  function Diffuse(): Quad<bv32> -> Quad<bv32> {
    Each(Mix())
  }

  function AddKey(): (Quad<bv32>, Quad<bv32>) -> Quad<bv32> {
    Pairwise(Xor32)
  }

  lemma Xor32Cancels()
    ensures Cancels(Xor32)
  {
    forall x: bv32, k ensures Xor32(Xor32(x, k), k) == x {
      Xor32Is(x, k);
      assert Xor32(x ^ k, k) == x;
    }
  }

  lemma SubstituteInvolution(f: bv8 -> bv8)
    requires Involution(f)
    ensures Involution(SubstituteTranspose(Word, B0, B1, B2, B3, f))
  {
    forall w: bv32 ensures Word(B0(w), B1(w), B2(w), B3(w)) == w {
      WordOfBytes(w);
    }
    forall a, b, c, d
      ensures B0(Word(a, b, c, d)) == a && B1(Word(a, b, c, d)) == b &&
              B2(Word(a, b, c, d)) == c && B3(Word(a, b, c, d)) == d
    {
      BytesOfWord(a, b, c, d);
    }
    SubstituteTransposeInvolution(Word, B0, B1, B2, B3, f);
  }

  /** The laws the generic inversion theorem asks for. */
  lemma LayersAreInvolutions()
    ensures Involution(Substitute()) && Involution(Diffuse())
    ensures Linear(Diffuse(), AddKey()) && Cancels(AddKey())
  {
    forall x: bv8 ensures Sbox(Sbox(x)) == x {
      SboxInvolution(x);
    }
    SubstituteInvolution(Sbox);
    MixLaws();
    Xor32Cancels();
    EachLaws(Mix(), Xor32);
  }

  lemma SubstituteIs(q: Quad<bv32>)
    ensures Substitute()(q) ==
      Quad(Word(Sbox(B0(q.a)), Sbox(B0(q.b)), Sbox(B0(q.c)), Sbox(B0(q.d))),
           Word(Sbox(B1(q.a)), Sbox(B1(q.b)), Sbox(B1(q.c)), Sbox(B1(q.d))),
           Word(Sbox(B2(q.a)), Sbox(B2(q.b)), Sbox(B2(q.c)), Sbox(B2(q.d))),
           Word(Sbox(B3(q.a)), Sbox(B3(q.b)), Sbox(B3(q.c)), Sbox(B3(q.d))))
  {
    SubstituteTransposeIs(Word, B0, B1, B2, B3, Sbox, q);
  }

  lemma DiffuseIs(a: bv32, b: bv32, c: bv32, d: bv32)
    ensures Diffuse()(Quad(a, b, c, d)) == Quad(Mix()(a), Mix()(b), Mix()(c), Mix()(d))
  {
    EachIs(Mix(), Xor32, Quad(a, b, c, d), Quad(a, b, c, d));
  }

  lemma AddKeyIs(p: Quad<bv32>, q: Quad<bv32>)
    ensures AddKey()(p, q) == Quad(p.a ^ q.a, p.b ^ q.b, p.c ^ q.c, p.d ^ q.d)
  {
    EachIs(Mix(), Xor32, p, q);
    Xor32Is(p.a, q.a);
    Xor32Is(p.b, q.b);
    Xor32Is(p.c, q.c);
    Xor32Is(p.d, q.d);
  }

  method AddKeys(p: Quad<bv32>, q: Quad<bv32>) returns (r: Quad<bv32>)
    ensures r == AddKey()(p, q)
  {
    r := Quad(p.a ^ q.a, p.b ^ q.b, p.c ^ q.c, p.d ^ q.d);
    AddKeyIs(p, q);
  }

  method MixAll(s: Quad<bv32>) returns (inter: Quad<bv32>)
    ensures inter == Diffuse()(Substitute()(s))
  {
    var w0 := MixLookups(B0(s.a), B0(s.b), B0(s.c), B0(s.d));
    var w1 := MixLookups(B1(s.a), B1(s.b), B1(s.c), B1(s.d));
    var w2 := MixLookups(B2(s.a), B2(s.b), B2(s.c), B2(s.d));
    var w3 := MixLookups(B3(s.a), B3(s.b), B3(s.c), B3(s.d));
    inter := Quad(w0, w1, w2, w3);
    SubstituteIs(s);
    DiffuseIs(Word(Sbox(B0(s.a)), Sbox(B0(s.b)), Sbox(B0(s.c)), Sbox(B0(s.d))),
              Word(Sbox(B1(s.a)), Sbox(B1(s.b)), Sbox(B1(s.c)), Sbox(B1(s.d))),
              Word(Sbox(B2(s.a)), Sbox(B2(s.b)), Sbox(B2(s.c)), Sbox(B2(s.d))),
              Word(Sbox(B3(s.a)), Sbox(B3(s.b)), Sbox(B3(s.c)), Sbox(B3(s.d))));
  }

  method SubstituteAll(s: Quad<bv32>) returns (inter: Quad<bv32>)
    ensures inter == Substitute()(s)
  {
    var w0 := SboxLookups(B0(s.a), B0(s.b), B0(s.c), B0(s.d));
    var w1 := SboxLookups(B1(s.a), B1(s.b), B1(s.c), B1(s.d));
    var w2 := SboxLookups(B2(s.a), B2(s.b), B2(s.c), B2(s.d));
    var w3 := SboxLookups(B3(s.a), B3(s.b), B3(s.c), B3(s.d));
    inter := Quad(w0, w1, w2, w3);
    SubstituteIs(s);
  }

  method FullRound(s: Quad<bv32>, k: Quad<bv32>) returns (next: Quad<bv32>)
    ensures next == AddKey()(Diffuse()(Substitute()(s)), k)
  {
    var inter := MixAll(s);
    next := AddKeys(inter, k);
  }

  method LastRound(s: Quad<bv32>, k: Quad<bv32>) returns (next: Quad<bv32>)
    ensures next == AddKey()(Substitute()(s), k)
  {
    var inter := SubstituteAll(s);
    next := AddKeys(inter, k);
  }

  /** `state` is the state in which round `r` starts; round 1 is the first after the initial key addition. */
  ghost predicate InRound(w: Quad<bv32>, roundKey: seq<Quad<bv32>>, r: nat, state: Quad<bv32>) {
    1 <= r <= |roundKey| && state == FullRounds(Substitute(), Diffuse(), AddKey(), roundKey, r - 1, w)
  }

  method FirstKey(w: Quad<bv32>, roundKey: seq<Quad<bv32>>) returns (state: Quad<bv32>)
    requires |roundKey| >= 2
    ensures InRound(w, roundKey, 1, state)
  {
    state := AddKeys(w, roundKey[0]);
    RoundByRound(Substitute(), Diffuse(), AddKey(), roundKey, 0, w);
  }

  method Round(w: Quad<bv32>, roundKey: seq<Quad<bv32>>, r: nat, state: Quad<bv32>) returns (next: Quad<bv32>)
    requires 1 <= r < |roundKey| - 1 && InRound(w, roundKey, r, state)
    ensures InRound(w, roundKey, r + 1, next)
  {
    RoundByRound(Substitute(), Diffuse(), AddKey(), roundKey, r, w);
    next := FullRound(state, roundKey[r]);
  }

  method FinalRound(w: Quad<bv32>, roundKey: seq<Quad<bv32>>, state: Quad<bv32>) returns (last: Quad<bv32>)
    requires |roundKey| >= 2 && InRound(w, roundKey, |roundKey| - 1, state)
    ensures last == Crypt(Substitute(), Diffuse(), AddKey(), roundKey, w)
  {
    last := LastRound(state, roundKey[|roundKey| - 1]);
    CryptIs(Substitute(), Diffuse(), AddKey(), roundKey, w);
  }

  /** The block transformation under a given list of round keys. */
  function CryptBlock(keys: seq<Quad<bv32>>, p: seq<Byte>): (q: seq<Byte>)
    requires |keys| >= 2 && |p| == 16
    ensures |q| == 16
  {
    StoreQuad(Store32H, Crypt(Substitute(), Diffuse(), AddKey(), keys, LoadQuad(Load32H, p)))
  }

  method AnubisCrypt(p: seq<Byte>, roundKey: seq<Quad<bv32>>) returns (q: seq<Byte>)
    requires |p| == 16 && |roundKey| >= 2
    ensures q == CryptBlock(roundKey, p)
  {
    var w := LoadQuad(Load32H, p);
    var state := FirstKey(w, roundKey);
    var rounds := |roundKey| - 1;
    for r := 1 to rounds
      invariant InRound(w, roundKey, r, state)
    {
      state := Round(w, roundKey, r, state);
    }
    state := FinalRound(w, roundKey, state);
    q := StoreQuad(Store32H, state);
  }

  /* ---- The key schedule ---- */

  /** The S-box image of one byte of a word. */
  function S0(w: bv32): bv8 { Sbox(B0(w)) }
  function S1(w: bv32): bv8 { Sbox(B1(w)) }
  function S2(w: bv32): bv8 { Sbox(B2(w)) }
  function S3(w: bv32): bv8 { Sbox(B3(w)) }

  /** Four evaluations of the polynomial with coefficients f(c[0]), f(c[1]), ..., at 1, 2, 6 and 8. */
  function Evaluations(f: bv32 -> bv8, c: seq<bv32>): bv32 {
    Word(PowerSum(Bytes(), ONE, f, c, 0), PowerSum(Bytes(), TWO, f, c, 0),
         PowerSum(Bytes(), SIX, f, c, 0), PowerSum(Bytes(), EIGHT, f, c, 0))
  }

  /** The round key drawn from a key state: a Vandermonde matrix times the substituted, transposed state. */
  function Selection(kappa: seq<bv32>): Quad<bv32> {
    Quad(Evaluations(S0, kappa), Evaluations(S1, kappa), Evaluations(S2, kappa), Evaluations(S3, kappa))
  }

  /** The same four values as the code computes them, by Horner's rule. */
  function HornerWord(f: bv32 -> bv8, c: seq<bv32>): bv32
    requires c != []
  {
    Word(Horner(Bytes(), ONE, f, c), Horner(Bytes(), TWO, f, c), Horner(Bytes(), SIX, f, c), Horner(Bytes(), EIGHT, f, c))
  }

  function HornerQuad(kappa: seq<bv32>): Quad<bv32>
    requires kappa != []
  {
    Quad(HornerWord(S0, kappa), HornerWord(S1, kappa), HornerWord(S2, kappa), HornerWord(S3, kappa))
  }

  lemma HornerWordIs(f: bv32 -> bv8, c: seq<bv32>)
    requires c != []
    ensures HornerWord(f, c) == Evaluations(f, c)
  {
    BytesAreBinarySpace();
    HornerIsPowerSum(Bytes(), ONE, f, c);
    HornerIsPowerSum(Bytes(), TWO, f, c);
    HornerIsPowerSum(Bytes(), SIX, f, c);
    HornerIsPowerSum(Bytes(), EIGHT, f, c);
  }

  lemma HornerQuadIs(kappa: seq<bv32>)
    requires kappa != []
    ensures HornerQuad(kappa) == Selection(kappa)
  {
    HornerWordIs(S0, kappa);
    HornerWordIs(S1, kappa);
    HornerWordIs(S2, kappa);
    HornerWordIs(S3, kappa);
  }

  /** The masked lookups in T5: the bytes of a word times 1, 2, 6 and 8. */
  method ScaledLookup0(x: bv8) returns (w: bv32)
    ensures w == Word(Times(Bytes(), ONE, x), 0, 0, 0)
  {
    w := T5(x) & 0xff000000;
    Table5(x);
    ByteConstants(x);
  }

  method ScaledLookup1(x: bv8) returns (w: bv32)
    ensures w == Word(0, Times(Bytes(), TWO, x), 0, 0)
  {
    w := T5(x) & 0x00ff0000;
    Table5(x);
    ByteConstants(x);
  }

  method ScaledLookup2(x: bv8) returns (w: bv32)
    ensures w == Word(0, 0, Times(Bytes(), SIX, x), 0)
  {
    w := T5(x) & 0x0000ff00;
    Table5(x);
    ByteConstants(x);
  }

  method ScaledLookup3(x: bv8) returns (w: bv32)
    ensures w == Word(0, 0, 0, Times(Bytes(), EIGHT, x))
  {
    w := T5(x) & 0x000000ff;
    Table5(x);
    ByteConstants(x);
  }

  method ReplicatedLookup(x: bv8) returns (w: bv32)
    ensures w == Word(Sbox(x), Sbox(x), Sbox(x), Sbox(x))
  {
    w := T4(x);
    Table4(x);
  }

  lemma HornerWordStep(f: bv32 -> bv8, w: bv32, c: seq<bv32>)
    ensures HornerWord(f, [w]) == Word(f(w), f(w), f(w), f(w))
    ensures c != [] ==> var k := HornerWord(f, c);
      HornerWord(f, [w] + c) ==
      Word(Xor(f(w), Times(Bytes(), ONE, B0(k))), Xor(f(w), Times(Bytes(), TWO, B1(k))),
           Xor(f(w), Times(Bytes(), SIX, B2(k))), Xor(f(w), Times(Bytes(), EIGHT, B3(k))))
  {
    HornerStep(Bytes(), ONE, f, w, c);
    HornerStep(Bytes(), TWO, f, w, c);
    HornerStep(Bytes(), SIX, f, w, c);
    HornerStep(Bytes(), EIGHT, f, w, c);
    if c != [] {
      BytesOfWord(Horner(Bytes(), ONE, f, c), Horner(Bytes(), TWO, f, c), Horner(Bytes(), SIX, f, c), Horner(Bytes(), EIGHT, f, c));
    }
  }

  method ScaledWord(k: bv32) returns (w: bv32)
    ensures w == Word(Times(Bytes(), ONE, B0(k)), Times(Bytes(), TWO, B1(k)), Times(Bytes(), SIX, B2(k)), Times(Bytes(), EIGHT, B3(k)))
  {
    var k0 := ScaledLookup0(B0(k));
    var k1 := ScaledLookup1(B1(k));
    var k2 := ScaledLookup2(B2(k));
    var k3 := ScaledLookup3(B3(k));
    w := k0 ^ k1 ^ k2 ^ k3;
    WordParts(Times(Bytes(), ONE, B0(k)), Times(Bytes(), TWO, B1(k)), Times(Bytes(), SIX, B2(k)), Times(Bytes(), EIGHT, B3(k)));
  }

  /** One step of Horner's rule on one word of the round key. */
  method HornerStepOf(x: bv8, k: bv32) returns (next: bv32)
    ensures next ==
      Word(Xor(Sbox(x), Times(Bytes(), ONE, B0(k))), Xor(Sbox(x), Times(Bytes(), TWO, B1(k))),
           Xor(Sbox(x), Times(Bytes(), SIX, B2(k))), Xor(Sbox(x), Times(Bytes(), EIGHT, B3(k))))
  {
    var t := ReplicatedLookup(x);
    var scaled := ScaledWord(k);
    next := t ^ scaled;
    Xor32Is(t, scaled);
    WordXor(Sbox(x), Sbox(x), Sbox(x), Sbox(x),
            Times(Bytes(), ONE, B0(k)), Times(Bytes(), TWO, B1(k)), Times(Bytes(), SIX, B2(k)), Times(Bytes(), EIGHT, B3(k)));
  }

  method SelectFirst(w: bv32) returns (k: Quad<bv32>)
    ensures k == HornerQuad([w])
  {
    var k0 := ReplicatedLookup(B0(w));
    var k1 := ReplicatedLookup(B1(w));
    var k2 := ReplicatedLookup(B2(w));
    var k3 := ReplicatedLookup(B3(w));
    k := Quad(k0, k1, k2, k3);
    HornerWordStep(S0, w, []);
    HornerWordStep(S1, w, []);
    HornerWordStep(S2, w, []);
    HornerWordStep(S3, w, []);
  }

  method SelectNext(w: bv32, k: Quad<bv32>, ghost c: seq<bv32>) returns (next: Quad<bv32>)
    requires c != [] && k == HornerQuad(c)
    ensures next == HornerQuad([w] + c)
  {
    var k0 := HornerStepOf(B0(w), k.a);
    var k1 := HornerStepOf(B1(w), k.b);
    var k2 := HornerStepOf(B2(w), k.c);
    var k3 := HornerStepOf(B3(w), k.d);
    next := Quad(k0, k1, k2, k3);
    HornerWordStep(S0, w, c);
    HornerWordStep(S1, w, c);
    HornerWordStep(S2, w, c);
    HornerWordStep(S3, w, c);
  }

  lemma DropOneFewer<T>(c: seq<T>, i: nat)
    requires 0 < i <= |c|
    ensures c[i - 1..] == [c[i - 1]] + c[i..]
  {
  }

  method SelectKey(kappa: seq<bv32>) returns (k: Quad<bv32>)
    requires kappa != []
    ensures k == Selection(kappa)
  {
    var i := |kappa| - 1;
    k := SelectFirst(kappa[i]);
    ghost var c := [kappa[i]];
    while i > 0
      invariant 0 <= i < |kappa| && c == kappa[i..] && c != []
      invariant k == HornerQuad(c)
    {
      k := SelectNext(kappa[i - 1], k, c);
      DropOneFewer(kappa, i);
      c := [kappa[i - 1]] + c;
      i := i - 1;
    }
    HornerQuadIs(c);
  }

  /* ---- Evolution of the key state ---- */

  /** The index k places before i on a ring of n. */
  function Back(i: nat, k: nat, n: nat): nat
    requires i < n && k < n
  {
    if i >= k then i - k else i + n - k
  }

  /** Word i of the next key state: S-box, a cyclic shift of column k by k places, and the matrix. */
  function EvolvedWord(kappa: seq<bv32>, i: nat): bv32
    requires |kappa| >= 4 && i < |kappa|
  {
    Mix()(Word(S0(kappa[i]), S1(kappa[Back(i, 1, |kappa|)]), S2(kappa[Back(i, 2, |kappa|)]), S3(kappa[Back(i, 3, |kappa|)])))
  }

  function EvolvedWords(kappa: seq<bv32>): (next: seq<bv32>)
    requires |kappa| >= 4
    ensures |next| == |kappa|
  {
    seq(|kappa|, i requires 0 <= i < |kappa| => EvolvedWord(kappa, i))
  }

  /** The next key state: every word evolved, and a round constant added to the first. */
  function Evolve(kappa: seq<bv32>, c: bv32): (next: seq<bv32>)
    requires |kappa| >= 4
    ensures |next| == |kappa|
  {
    AddToFirst(EvolvedWords(kappa), c)
  }

  function AddToFirst(inter: seq<bv32>, c: bv32): (next: seq<bv32>)
    requires inter != []
    ensures |next| == |inter|
  {
    [inter[0] ^ c] + inter[1..]
  }

  method StepBack(j: nat, n: nat) returns (next: nat)
    requires j < n && n > 1
    ensures next == Back(j, 1, n)
  {
    var k: int := j - 1;
    if k < 0 {
      k := n - 1;
    }
    next := k;
  }

  lemma BackTwice(i: nat, n: nat)
    requires i < n && n >= 4
    ensures Back(Back(i, 1, n), 1, n) == Back(i, 2, n) && Back(Back(i, 2, n), 1, n) == Back(i, 3, n)
  {
  }

  method EvolveWord(kappa: seq<bv32>, i: nat) returns (w: bv32)
    requires |kappa| >= 4 && i < |kappa|
    ensures w == EvolvedWord(kappa, i)
  {
    var j1 := StepBack(i, |kappa|);
    var j2 := StepBack(j1, |kappa|);
    var j3 := StepBack(j2, |kappa|);
    BackTwice(i, |kappa|);
    w := MixLookups(B0(kappa[i]), B1(kappa[j1]), B2(kappa[j2]), B3(kappa[j3]));
  }

  function EvolvedAt(kappa: seq<bv32>): nat -> bv32
    requires |kappa| >= 4
  {
    (i: nat) => if i < |kappa| then EvolvedWord(kappa, i) else 0
  }

  method EvolveNext(kappa: seq<bv32>, inter: seq<bv32>, ghost f: nat -> bv32) returns (w: bv32)
    requires |kappa| >= 4 && f == EvolvedAt(kappa) && Tabulates(f, inter) && |inter| < |kappa|
    ensures Tabulates(f, inter + [w])
  {
    w := EvolveWord(kappa, |inter|);
    TabulatesGrows(f, inter, w);
  }

  lemma EvolvedAll(kappa: seq<bv32>, inter: seq<bv32>)
    requires |kappa| >= 4 && Tabulates(EvolvedAt(kappa), inter) && |inter| == |kappa|
    ensures inter == EvolvedWords(kappa)
  {
  }

  method EvolveWords(kappa: seq<bv32>, ghost f: nat -> bv32) returns (inter: seq<bv32>)
    requires |kappa| >= 4 && f == EvolvedAt(kappa)
    ensures inter == EvolvedWords(kappa)
  {
    inter := [];
    for i := 0 to |kappa|
      invariant |inter| == i && Tabulates(f, inter)
    {
      var w := EvolveNext(kappa, inter, f);
      inter := inter + [w];
    }
    EvolvedAll(kappa, inter);
  }

  method EvolveKey(kappa: seq<bv32>, c: bv32) returns (next: seq<bv32>)
    requires |kappa| >= 4
    ensures next == Evolve(kappa, c)
  {
    var inter := EvolveWords(kappa, EvolvedAt(kappa));
    next := AddToFirst(inter, c);
  }

  /** The round constants. */
  function RoundConstant(r: nat): bv32 {
    if r == 0 then 0xa7d3e671
    else if r == 1 then 0xd0ac4d79
    else if r == 2 then 0x3ac991fc
    else if r == 3 then 0x1e4754bd
    else if r == 4 then 0x8ca57afb
    else if r == 5 then 0x63b8ddd4
    else if r == 6 then 0xe5b3c5be
    else if r == 7 then 0xa9880ca2
    else if r == 8 then 0x39df29da
    else if r == 9 then 0x2ba8cb4c
    else if r == 10 then 0x4b22aa24
    else if r == 11 then 0x4170a6f9
    else if r == 12 then 0x5ae2b036
    else if r == 13 then 0x7de433ff
    else if r == 14 then 0x6020088b
    else if r == 15 then 0x5eab7f78
    else if r == 16 then 0x7c2c57d2
    else if r == 17 then 0xdc6d7e0d
    else 0x5394c328
  }

  /** They are the S-box read off in order, four bytes to a constant. */
  lemma RoundConstantsFromSbox()
    ensures RoundConstant(0) == Word(Sbox(0), Sbox(1), Sbox(2), Sbox(3))
    ensures RoundConstant(1) == Word(Sbox(4), Sbox(5), Sbox(6), Sbox(7))
    ensures RoundConstant(2) == Word(Sbox(8), Sbox(9), Sbox(10), Sbox(11))
    ensures RoundConstant(3) == Word(Sbox(12), Sbox(13), Sbox(14), Sbox(15))
    ensures RoundConstant(4) == Word(Sbox(16), Sbox(17), Sbox(18), Sbox(19))
    ensures RoundConstant(5) == Word(Sbox(20), Sbox(21), Sbox(22), Sbox(23))
    ensures RoundConstant(6) == Word(Sbox(24), Sbox(25), Sbox(26), Sbox(27))
    ensures RoundConstant(7) == Word(Sbox(28), Sbox(29), Sbox(30), Sbox(31))
    ensures RoundConstant(8) == Word(Sbox(32), Sbox(33), Sbox(34), Sbox(35))
  {
  }

  lemma MoreRoundConstantsFromSbox()
    ensures RoundConstant(9) == Word(Sbox(36), Sbox(37), Sbox(38), Sbox(39))
    ensures RoundConstant(10) == Word(Sbox(40), Sbox(41), Sbox(42), Sbox(43))
    ensures RoundConstant(11) == Word(Sbox(44), Sbox(45), Sbox(46), Sbox(47))
    ensures RoundConstant(12) == Word(Sbox(48), Sbox(49), Sbox(50), Sbox(51))
    ensures RoundConstant(13) == Word(Sbox(52), Sbox(53), Sbox(54), Sbox(55))
  {
  }

  lemma LastRoundConstantsFromSbox()
    ensures RoundConstant(14) == Word(Sbox(56), Sbox(57), Sbox(58), Sbox(59))
    ensures RoundConstant(15) == Word(Sbox(60), Sbox(61), Sbox(62), Sbox(63))
    ensures RoundConstant(16) == Word(Sbox(64), Sbox(65), Sbox(66), Sbox(67))
  {
  }

  lemma FinalRoundConstantsFromSbox()
    ensures RoundConstant(17) == Word(Sbox(68), Sbox(69), Sbox(70), Sbox(71))
    ensures RoundConstant(18) == Word(Sbox(72), Sbox(73), Sbox(74), Sbox(75))
  {
  }

  /* ---- Setup ---- */

  /** Valid keys have 4 to 10 words. */
  predicate ValidKeyLength(n: nat) {
    n % 4 == 0 && 16 <= n <= 40
  }

  function KeyWords(key: seq<Byte>): (kappa: seq<bv32>)
    requires ValidKeyLength(|key|)
    ensures |kappa| == |key| / 4
  {
    seq(|key| / 4, i requires 0 <= i < |key| / 4 => Load32H(key[4 * i..4 * i + 4]))
  }

  /** The key state from which round key r is drawn. */
  function KeyState(key: seq<Byte>, r: nat): (kappa: seq<bv32>)
    requires ValidKeyLength(|key|)
    ensures |kappa| == |key| / 4
  {
    if r == 0 then KeyWords(key) else Evolve(KeyState(key, r - 1), RoundConstant(r - 1))
  }

  method NextState(key: seq<Byte>, r: nat, kappa: seq<bv32>) returns (next: seq<bv32>)
    requires ValidKeyLength(|key|) && kappa == KeyState(key, r)
    ensures next == KeyState(key, r + 1)
  {
    next := EvolveKey(kappa, RoundConstant(r));
  }

  /** Round key r. */
  function RoundKey(key: seq<Byte>): nat -> Quad<bv32>
    requires ValidKeyLength(|key|)
  {
    (r: nat) => Selection(KeyState(key, r))
  }

  ghost predicate KeysSoFar(key: seq<Byte>, enc: seq<Quad<bv32>>, kappa: seq<bv32>)
    requires ValidKeyLength(|key|)
  {
    Tabulates(RoundKey(key), enc) && kappa == KeyState(key, |enc|)
  }

  method NextKey(key: seq<Byte>, enc: seq<Quad<bv32>>, kappa: seq<bv32>) returns (k: Quad<bv32>)
    requires ValidKeyLength(|key|) && KeysSoFar(key, enc, kappa)
    ensures Tabulates(RoundKey(key), enc + [k])
  {
    k := SelectKey(kappa);
    TabulatesGrows(RoundKey(key), enc, k);
  }

  method NextKeyAndState(key: seq<Byte>, enc: seq<Quad<bv32>>, kappa: seq<bv32>)
    returns (enc': seq<Quad<bv32>>, kappa': seq<bv32>)
    requires ValidKeyLength(|key|) && KeysSoFar(key, enc, kappa)
    ensures KeysSoFar(key, enc', kappa') && |enc'| == |enc| + 1
  {
    var k := NextKey(key, enc, kappa);
    enc' := enc + [k];
    kappa' := NextState(key, |enc|, kappa);
  }

  method EncryptionKeys(key: seq<Byte>) returns (enc: seq<Quad<bv32>>)
    requires ValidKeyLength(|key|)
    ensures |enc| == |key| / 4 + 9 && Tabulates(RoundKey(key), enc)
  {
    var kappa := KeyWords(key);
    enc := [];
    var rounds := |key| / 4 + 8;
    for r := 0 to rounds
      invariant |enc| == r && KeysSoFar(key, enc, kappa)
    {
      enc, kappa := NextKeyAndState(key, enc, kappa);
    }
    var k := NextKey(key, enc, kappa);
    enc := enc + [k];
  }

  method SboxLookup(x: bv8) returns (b: bv8)
    ensures b == Sbox(x)
  {
    b := (T4(x) & 0xff) as bv8;
    Table4(x);
  }

  method InverseWord(v: bv32) returns (w: bv32)
    ensures w == Mix()(v)
  {
    var s0 := SboxLookup(B0(v));
    var s1 := SboxLookup(B1(v));
    var s2 := SboxLookup(B2(v));
    var s3 := SboxLookup(B3(v));
    w := MixLookups(s0, s1, s2, s3);
    SboxInvolution(B0(v));
    SboxInvolution(B1(v));
    SboxInvolution(B2(v));
    SboxInvolution(B3(v));
    WordOfBytes(v);
  }

  method InverseKey(k: Quad<bv32>) returns (d: Quad<bv32>)
    ensures d == Diffuse()(k)
  {
    var w0 := InverseWord(k.a);
    var w1 := InverseWord(k.b);
    var w2 := InverseWord(k.c);
    var w3 := InverseWord(k.d);
    d := Quad(w0, w1, w2, w3);
    DiffuseIs(k.a, k.b, k.c, k.d);
  }

  method NextInverseKey(enc: seq<Quad<bv32>>, dec: seq<Quad<bv32>>, ghost theta: Quad<bv32> -> Quad<bv32>) returns (k: Quad<bv32>)
    requires theta == Diffuse() && InverseSoFar(theta, enc, dec) && |dec| < |enc| - 1
    ensures InverseSoFar(theta, enc, dec + [k])
  {
    k := InverseKey(enc[|enc| - 1 - |dec|]);
    InverseGrows(theta, enc, dec, k);
  }

  method DecryptionKeys(enc: seq<Quad<bv32>>, ghost theta: Quad<bv32> -> Quad<bv32>) returns (dec: seq<Quad<bv32>>)
    requires |enc| >= 2 && theta == Diffuse()
    ensures InverseSchedule(theta, enc, dec)
  {
    var ks := [enc[|enc| - 1]];
    for r := 1 to |enc| - 1
      invariant |ks| == r && InverseSoFar(theta, enc, ks)
    {
      var k := NextInverseKey(enc, ks, theta);
      ks := ks + [k];
    }
    dec := ks + [enc[0]];
    InverseCompletes(theta, enc, ks);
  }

  /** The two schedules a key is expanded into; the number of rounds is one less than their length. */
  datatype ScheduledKey = ScheduledKey(enc: seq<Quad<bv32>>, dec: seq<Quad<bv32>>)

  ghost predicate Scheduled(key: seq<Byte>, skey: ScheduledKey)
    requires ValidKeyLength(|key|)
  {
    |skey.enc| == |key| / 4 + 9 && Tabulates(RoundKey(key), skey.enc) && InverseSchedule(Diffuse(), skey.enc, skey.dec)
  }

  method Setup(key: seq<Byte>, numRounds: int) returns (status: Status, skey: ScheduledKey)
    ensures status ==
      if !ValidKeyLength(|key|) then InvalidKeySize
      else if numRounds != 0 && numRounds != 8 + |key| / 4 then InvalidRounds
      else Ok
    ensures status == Ok ==> Scheduled(key, skey)
  {
    skey := ScheduledKey([], []);
    if |key| % 4 != 0 || |key| < 16 || |key| > 40 {
      return InvalidKeySize, skey;
    }
    if numRounds != 0 && numRounds != 8 + |key| / 4 {
      return InvalidRounds, skey;
    }
    var enc := EncryptionKeys(key);
    var dec := DecryptionKeys(enc, Diffuse());
    skey := ScheduledKey(enc, dec);
    status := Ok;
  }

  /* ---- Encryption and decryption ---- */

  method EcbEncrypt(pt: seq<Byte>, skey: ScheduledKey) returns (ct: seq<Byte>)
    requires |pt| == 16 && |skey.enc| >= 2
    ensures ct == CryptBlock(skey.enc, pt)
  {
    ct := AnubisCrypt(pt, skey.enc);
  }

  method EcbDecrypt(ct: seq<Byte>, skey: ScheduledKey) returns (pt: seq<Byte>)
    requires |ct| == 16 && |skey.dec| >= 2
    ensures pt == CryptBlock(skey.dec, ct)
  {
    pt := AnubisCrypt(ct, skey.dec);
  }

  /** Decryption inverts encryption for every key of every valid length and every block. */
  lemma DecryptInvertsEncrypt(key: seq<Byte>, skey: ScheduledKey, pt: seq<Byte>)
    requires ValidKeyLength(|key|) && Scheduled(key, skey) && |pt| == 16
    ensures CryptBlock(skey.dec, CryptBlock(skey.enc, pt)) == pt
  {
    LayersAreInvolutions();
    CryptInverts(Substitute(), Diffuse(), AddKey(), skey.enc, skey.dec, LoadQuad(Load32H, pt));
    BothByteOrders();
    QuadBlocks(Load32H, Store32H, Crypt(Substitute(), Diffuse(), AddKey(), skey.enc, LoadQuad(Load32H, pt)), pt);
  }
}

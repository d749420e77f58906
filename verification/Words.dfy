/**
  Bytes, machine words and the load, store and rotate macros every cipher uses
  (`plugins/includes/libtom/tomcrypt_macros.h`).  A rotation takes its amount
  modulo the word width, so a rotation by a data word is total.
 */
module Words {

  type Byte = bv8

  /** What the setup and mode routines return beside `CRYPT_OK`. */
  datatype Status = Ok | InvalidKeySize | InvalidRounds | InvalidArg | InvalidCipher

  /** The two registers of an 8-byte block, two halves of anything, and the four registers of a 16-byte block. */
  datatype Pair = Pair(a: bv32, b: bv32)
  datatype Halves<W> = Halves(l: W, r: W)
  datatype Quad<W> = Quad(a: W, b: W, c: W, d: W)

  function Or(x: bv32, y: bv32): bv32 {
    x | y
  }

  function ShiftLeft(x: bv32, k: bv32): bv32
    requires k <= 32
  {
    x << k
  }

  function ShiftRight(x: bv32, k: bv32): bv32
    requires k <= 32
  {
    x >> k
  }

  function RolBy(x: bv32, k: bv32): bv32
    requires k < 32
  {
    Or(ShiftLeft(x, k), ShiftRight(x, 32 - k))
  }

  function RorBy(x: bv32, k: bv32): bv32
    requires k < 32
  {
    Or(ShiftRight(x, k), ShiftLeft(x, 32 - k))
  }

  function Rol(x: bv32, n: bv32): bv32 {
    RolBy(x, n & 31)
  }

  function Ror(x: bv32, n: bv32): bv32 {
    RorBy(x, n & 31)
  }

  /* Each half of a rotated word shifted back, and the two put together again. */

  lemma RightOfRolBy(x: bv32, k: bv32)
    requires k < 32
    ensures ShiftRight(RolBy(x, k), k) == (x << k) >> k
  {
  }

  lemma LeftOfRolBy(x: bv32, k: bv32)
    requires k < 32
    ensures ShiftLeft(RolBy(x, k), 32 - k) == (x >> (32 - k)) << (32 - k)
  {
  }

  lemma LowAndHigh(x: bv32, k: bv32)
    requires k < 32
    ensures ((x << k) >> k) | ((x >> (32 - k)) << (32 - k)) == x
  {
  }

  lemma RorByRolBy(x: bv32, k: bv32)
    requires k < 32
    ensures RorBy(RolBy(x, k), k) == x
  {
    RightOfRolBy(x, k);
    LeftOfRolBy(x, k);
    LowAndHigh(x, k);
  }

  lemma LeftOfRorBy(x: bv32, k: bv32)
    requires k < 32
    ensures ShiftLeft(RorBy(x, k), k) == (x >> k) << k
  {
  }

  lemma RightOfRorBy(x: bv32, k: bv32)
    requires k < 32
    ensures ShiftRight(RorBy(x, k), 32 - k) == (x << (32 - k)) >> (32 - k)
  {
  }

  lemma HighAndLow(x: bv32, k: bv32)
    requires k < 32
    ensures ((x >> k) << k) | ((x << (32 - k)) >> (32 - k)) == x
  {
  }

  lemma RolByRorBy(x: bv32, k: bv32)
    requires k < 32
    ensures RolBy(RorBy(x, k), k) == x
  {
    LeftOfRorBy(x, k);
    RightOfRorBy(x, k);
    HighAndLow(x, k);
  }

  lemma RorRol(x: bv32, n: bv32)
    ensures Ror(Rol(x, n), n) == x
  {
    RorByRolBy(x, n & 31);
  }

  lemma RolRor(x: bv32, n: bv32)
    ensures Rol(Ror(x, n), n) == x
  {
    RolByRorBy(x, n & 31);
  }

  /*
    The word operations as functions: a law is then used by congruence, and the solver
    never has to compare two 32-bit carry chains.
   */

  function Add(x: bv32, y: bv32): bv32 {
    x + y
  }

  function Sub(x: bv32, y: bv32): bv32 {
    x - y
  }

  function Xor32(x: bv32, y: bv32): bv32 {
    x ^ y
  }

  lemma Xor32Is(a: bv32, b: bv32)
    ensures Xor32(a, b) == a ^ b
  {
  }

  lemma SubSum(x: bv32, y: bv32)
    ensures Sub(Add(x, y), y) == x
  {
    assert Sub(x + y, y) == x;
  }

  lemma XorTwice(x: bv32, y: bv32)
    ensures Xor32(Xor32(x, y), y) == x
  {
    assert Xor32(x ^ y, y) == x;
  }

  /** Each operation with the one that takes it back. */
  datatype Operations<!W> = Operations(add: (W, W) -> W, sub: (W, W) -> W, xor: (W, W) -> W, rol: (W, W) -> W, ror: (W, W) -> W)

  ghost predicate Reversible<W(!new)>(o: Operations<W>) {
    && (forall x, y :: o.sub(o.add(x, y), y) == x)
    && (forall x, y :: o.xor(o.xor(x, y), y) == x)
    && (forall x, y :: o.ror(o.rol(x, y), y) == x)
  }

  function Operations32(): Operations<bv32> {
    Operations(Add, Sub, Xor32, Rol, Ror)
  }

  lemma Reversible32()
    ensures Reversible(Operations32())
  {
    forall x: bv32, y: bv32 {
      SubSum(x, y);
    }
    forall x: bv32, y: bv32 {
      XorTwice(x, y);
    }
    forall x: bv32, y: bv32 {
      RorRol(x, y);
    }
  }

  /** Reverses the four bytes of a word. */
  function Bswap(x: bv32): bv32 {
    ((x >> 24) & 0x000000FF) | ((x << 24) & 0xFF000000) | ((x >> 8) & 0x0000FF00) | ((x << 8) & 0x00FF0000)
  }

  /** Four consecutive bytes of a buffer. */
  type Bytes4 = p: seq<Byte> | |p| == 4 witness [0, 0, 0, 0]

  /** Four bytes as a word, the first the most significant. */
  function Join4(a: Byte, b: Byte, c: Byte, d: Byte): bv32 {
    ((a as bv32) << 24) | ((b as bv32) << 16) | ((c as bv32) << 8) | (d as bv32)
  }

  function ByteAt(x: bv32, shift: bv32): Byte
    requires shift <= 24
  {
    ((x >> shift) & 255) as bv8
  }

  function Load32H(p: Bytes4): bv32 {
    Join4(p[0], p[1], p[2], p[3])
  }

  function Load32L(p: Bytes4): bv32 {
    Join4(p[3], p[2], p[1], p[0])
  }

  function Store32H(x: bv32): Bytes4 {
    [ByteAt(x, 24), ByteAt(x, 16), ByteAt(x, 8), ByteAt(x, 0)]
  }

  function Store32L(x: bv32): Bytes4 {
    [ByteAt(x, 0), ByteAt(x, 8), ByteAt(x, 16), ByteAt(x, 24)]
  }

  lemma BytesOfJoined(a: Byte, b: Byte, c: Byte, d: Byte)
    ensures ByteAt(Join4(a, b, c, d), 24) == a
    ensures ByteAt(Join4(a, b, c, d), 16) == b
    ensures ByteAt(Join4(a, b, c, d), 8) == c
    ensures ByteAt(Join4(a, b, c, d), 0) == d
  {
  }

  lemma JoinedBytes(x: bv32)
    ensures Join4(ByteAt(x, 24), ByteAt(x, 16), ByteAt(x, 8), ByteAt(x, 0)) == x
  {
  }

  /** `load` and `store` are inverse to each other; true of both byte orders. */
  ghost predicate ByteOrder(load: Bytes4 -> bv32, store: bv32 -> Bytes4) {
    (forall x :: load(store(x)) == x) && (forall p :: store(load(p)) == p)
  }

  lemma LoadStore(x: bv32)
    ensures Load32H(Store32H(x)) == x && Load32L(Store32L(x)) == x
  {
    JoinedBytes(x);
  }

  lemma StoreLoad(p: Bytes4)
    ensures Store32H(Load32H(p)) == p && Store32L(Load32L(p)) == p
  {
    BytesOfJoined(p[0], p[1], p[2], p[3]);
    BytesOfJoined(p[3], p[2], p[1], p[0]);
  }

  lemma BothByteOrders()
    ensures ByteOrder(Load32H, Store32H) && ByteOrder(Load32L, Store32L)
  {
    forall x: bv32 {
      LoadStore(x);
    }
    forall p: Bytes4 {
      StoreLoad(p);
    }
  }

  /* ---- Whole blocks, in either byte order ---- */

  function LoadPair(load: Bytes4 -> bv32, p: seq<Byte>): Pair
    requires |p| == 8
  {
    Pair(load(p[0..4]), load(p[4..8]))
  }

  function StorePair(store: bv32 -> Bytes4, s: Pair): (p: seq<Byte>)
    ensures |p| == 8
  {
    store(s.a) + store(s.b)
  }

  function LoadQuad(load: Bytes4 -> bv32, p: seq<Byte>): Quad<bv32>
    requires |p| == 16
  {
    Quad(load(p[0..4]), load(p[4..8]), load(p[8..12]), load(p[12..16]))
  }

  function StoreQuad(store: bv32 -> Bytes4, s: Quad<bv32>): (p: seq<Byte>)
    ensures |p| == 16
  {
    store(s.a) + store(s.b) + store(s.c) + store(s.d)
  }

  /** Loading and storing a block are inverse to each other, in both directions. */
  lemma PairBlocks(load: Bytes4 -> bv32, store: bv32 -> Bytes4, s: Pair, p: seq<Byte>)
    requires ByteOrder(load, store) && |p| == 8
    ensures LoadPair(load, StorePair(store, s)) == s && StorePair(store, LoadPair(load, p)) == p
  {
    var q := StorePair(store, s);
    assert q[0..4] == store(s.a) && q[4..8] == store(s.b);
  }

  lemma QuadBlocks(load: Bytes4 -> bv32, store: bv32 -> Bytes4, s: Quad<bv32>, p: seq<Byte>)
    requires ByteOrder(load, store) && |p| == 16
    ensures LoadQuad(load, StoreQuad(store, s)) == s && StoreQuad(store, LoadQuad(load, p)) == p
  {
    var q := StoreQuad(store, s);
    match s
    case Quad(a, b, c, d) =>
    assert q[0..4] == store(s.a) && q[4..8] == store(s.b) && q[8..12] == store(s.c) && q[12..16] == store(s.d);
    assert p == p[0..4] + p[4..8] + p[8..12] + p[12..16];
    var r := LoadQuad(load, p);
    assert r.a == load(p[0..4]) && r.b == load(p[4..8]) && r.c == load(p[8..12]) && r.d == load(p[12..16]);
  }
}

/** RC6 with 20 rounds (`NXTservices/rc6.c`). */
module Rc6 {
  import opened Words
  import opened RivestKeys

  const ROUNDS := 20
  const KEYWORDS := 44

  type Schedule = k: seq<bv32> | |k| == KEYWORDS witness seq(KEYWORDS, _ => 0)

  /** x * (2x + 1), rotated by five places: the amount by which the other words rotate. */
  function Quadratic(x: bv32): bv32 {
    Rol(x * (x + x + 1), 5)
  }

  /* ---- The textbook cipher: a round, then (A, B, C, D) := (B, C, D, A) ---- */

  type Keyed = (bv32, bv32, bv32, bv32) -> bv32

  function Round(q: bv32 -> bv32, e: Keyed, k0: bv32, k1: bv32, s: Quad<bv32>): Quad<bv32> {
    var t, u := q(s.b), q(s.d);
    Quad(s.b, e(s.c, u, t, k1), s.d, e(s.a, t, u, k0))
  }

  function Unround(q: bv32 -> bv32, d: Keyed, k0: bv32, k1: bv32, s: Quad<bv32>): Quad<bv32> {
    var t, u := q(s.a), q(s.c);
    Quad(d(s.d, t, u, k0), s.a, d(s.b, u, t, k1), s.c)
  }

  function Rounds(q: bv32 -> bv32, e: Keyed, k: Schedule, r: nat, s: Quad<bv32>): Quad<bv32>
    requires r <= ROUNDS
  {
    if r == 0 then s else Round(q, e, k[2 * r], k[2 * r + 1], Rounds(q, e, k, r - 1, s))
  }

  function Unrounds(q: bv32 -> bv32, d: Keyed, k: Schedule, r: nat, s: Quad<bv32>): Quad<bv32>
    requires r <= ROUNDS
  {
    if r == 0 then s else Unrounds(q, d, k, r - 1, Unround(q, d, k[2 * r], k[2 * r + 1], s))
  }

  lemma {:induction false} RoundsInverse(q: bv32 -> bv32, e: Keyed, d: Keyed, k: Schedule, r: nat, s: Quad<bv32>)
    requires r <= ROUNDS && forall x, t, u, w :: d(e(x, t, u, w), t, u, w) == x
    ensures Unrounds(q, d, k, r, Rounds(q, e, k, r, s)) == s
  {
    if r > 0 {
      RoundsInverse(q, e, d, k, r - 1, s);
    }
  }

  /** Addition of two key words to two registers, and its removal. */
  function AddOuter(s: Quad<bv32>, x: bv32, y: bv32): Quad<bv32> {
    Quad(Add(s.a, x), s.b, Add(s.c, y), s.d)
  }
  function AddInner(s: Quad<bv32>, x: bv32, y: bv32): Quad<bv32> {
    Quad(s.a, Add(s.b, x), s.c, Add(s.d, y))
  }
  function SubOuter(s: Quad<bv32>, x: bv32, y: bv32): Quad<bv32> {
    Quad(Sub(s.a, x), s.b, Sub(s.c, y), s.d)
  }
  function SubInner(s: Quad<bv32>, x: bv32, y: bv32): Quad<bv32> {
    Quad(s.a, Sub(s.b, x), s.c, Sub(s.d, y))
  }

  lemma AddSub(s: Quad<bv32>, x: bv32, y: bv32)
    ensures SubOuter(AddOuter(s, x, y), x, y) == s
    ensures SubInner(AddInner(s, x, y), x, y) == s
  {
    SubSum(s.a, x);
    SubSum(s.b, x);
    SubSum(s.c, y);
    SubSum(s.d, y);
  }

  function Encrypted(k: Schedule, s: Quad<bv32>): Quad<bv32> {
    AddOuter(Rounds(Quadratic, Stir, k, ROUNDS, AddInner(s, k[0], k[1])), k[42], k[43])
  }

  function Decrypted(k: Schedule, s: Quad<bv32>): Quad<bv32> {
    SubInner(Unrounds(Quadratic, Unstir, k, ROUNDS, SubOuter(s, k[42], k[43])), k[0], k[1])
  }

  lemma DecryptedEncrypted(k: Schedule, s: Quad<bv32>)
    ensures Decrypted(k, Encrypted(k, s)) == s
  {
    var s0 := AddInner(s, k[0], k[1]);
    AddSub(Rounds(Quadratic, Stir, k, ROUNDS, s0), k[42], k[43]);
    forall x, t, u, w ensures Unstir(Stir(x, t, u, w), t, u, w) == x {
      UnstirStir(x, t, u, w);
    }
    RoundsInverse(Quadratic, Stir, Unstir, k, ROUNDS, s0);
    AddSub(s, k[0], k[1]);
  }

  /* ---- The unrolled cipher: the registers are renamed instead of moved ---- */

  /** Four textbook rounds bring every register back to its own place. */
  lemma FourRounds(q: bv32 -> bv32, e: Keyed, k: Schedule, r: nat, s0: Quad<bv32>, s: Quad<bv32>)
    requires r + 4 <= ROUNDS && s == Rounds(q, e, k, r, s0)
    ensures
      var (a, b, c, d) := (s.a, s.b, s.c, s.d);
      var (a1, c1) := (e(a, q(b), q(d), k[2 * r + 2]), e(c, q(d), q(b), k[2 * r + 3]));
      var (b1, d1) := (e(b, q(c1), q(a1), k[2 * r + 4]), e(d, q(a1), q(c1), k[2 * r + 5]));
      var (c2, a2) := (e(c1, q(d1), q(b1), k[2 * r + 6]), e(a1, q(b1), q(d1), k[2 * r + 7]));
      var (d2, b2) := (e(d1, q(a2), q(c2), k[2 * r + 8]), e(b1, q(c2), q(a2), k[2 * r + 9]));
      Rounds(q, e, k, r + 4, s0) == Quad(a2, b2, c2, d2)
  {
    assert Rounds(q, e, k, r + 1, s0) == Round(q, e, k[2 * r + 2], k[2 * r + 3], s);
    assert Rounds(q, e, k, r + 2, s0) == Round(q, e, k[2 * r + 4], k[2 * r + 5], Rounds(q, e, k, r + 1, s0));
    assert Rounds(q, e, k, r + 3, s0) == Round(q, e, k[2 * r + 6], k[2 * r + 7], Rounds(q, e, k, r + 2, s0));
  }

  /** The same for the way back, from round r + 4 to round r. */
  lemma FourUnrounds(q: bv32 -> bv32, e: Keyed, k: Schedule, r: nat, s: Quad<bv32>)
    requires r + 4 <= ROUNDS
    ensures
      var (a, b, c, d) := (s.a, s.b, s.c, s.d);
      var (b1, d1) := (e(b, q(c), q(a), k[2 * r + 9]), e(d, q(a), q(c), k[2 * r + 8]));
      var (a1, c1) := (e(a, q(b1), q(d1), k[2 * r + 7]), e(c, q(d1), q(b1), k[2 * r + 6]));
      var (d2, b2) := (e(d1, q(a1), q(c1), k[2 * r + 5]), e(b1, q(c1), q(a1), k[2 * r + 4]));
      var (c2, a2) := (e(c1, q(d2), q(b2), k[2 * r + 3]), e(a1, q(b2), q(d2), k[2 * r + 2]));
      Unrounds(q, e, k, r + 4, s) == Unrounds(q, e, k, r, Quad(a2, b2, c2, d2))
  {
    var s3 := Unround(q, e, k[2 * r + 8], k[2 * r + 9], s);
    var s2 := Unround(q, e, k[2 * r + 6], k[2 * r + 7], s3);
    var s1 := Unround(q, e, k[2 * r + 4], k[2 * r + 5], s2);
    assert Unrounds(q, e, k, r + 4, s) == Unrounds(q, e, k, r + 3, s3);
    assert Unrounds(q, e, k, r + 3, s3) == Unrounds(q, e, k, r + 2, s2);
    assert Unrounds(q, e, k, r + 2, s2) == Unrounds(q, e, k, r + 1, s1);
  }

  method EncryptRound(a: bv32, b: bv32, c: bv32, d: bv32, k0: bv32, k1: bv32) returns (a': bv32, c': bv32)
    ensures a' == Stir(a, Quadratic(b), Quadratic(d), k0) && c' == Stir(c, Quadratic(d), Quadratic(b), k1)
  {
    var t := b * (b + b + 1);
    t := Rol(t, 5);
    var u := d * (d + d + 1);
    u := Rol(u, 5);
    a' := Stir(a, t, u, k0);
    c' := Stir(c, u, t, k1);
  }

  method DecryptRound(a: bv32, b: bv32, c: bv32, d: bv32, k0: bv32, k1: bv32) returns (a': bv32, c': bv32)
    ensures a' == Unstir(a, Quadratic(b), Quadratic(d), k0) && c' == Unstir(c, Quadratic(d), Quadratic(b), k1)
  {
    var t := b * (b + b + 1);
    t := Rol(t, 5);
    var u := d * (d + d + 1);
    u := Rol(u, 5);
    c' := Unstir(c, u, t, k1);
    a' := Unstir(a, t, u, k0);
  }

  /** The block transformations. */
  function EncryptBlock(k: Schedule, pt: seq<Byte>): (ct: seq<Byte>)
    requires |pt| == 16
    ensures |ct| == 16
  {
    StoreQuad(Store32L, Encrypted(k, LoadQuad(Load32L, pt)))
  }

  function DecryptBlock(k: Schedule, ct: seq<Byte>): (pt: seq<Byte>)
    requires |ct| == 16
    ensures |pt| == 16
  {
    StoreQuad(Store32L, Decrypted(k, LoadQuad(Load32L, ct)))
  }

  /** The state after `r` rounds, and the property of a state that `r` rounds are still to be undone. */
  ghost predicate Forward(k: Schedule, s0: Quad<bv32>, r: nat, s: Quad<bv32>) {
    r <= ROUNDS && s == Rounds(Quadratic, Stir, k, r, s0)
  }

  ghost predicate Backward(k: Schedule, s0: Quad<bv32>, r: nat, s: Quad<bv32>) {
    r <= ROUNDS && Unrounds(Quadratic, Unstir, k, r, s) == Unrounds(Quadratic, Unstir, k, ROUNDS, s0)
  }

  method FourEncryptRounds(k: Schedule, r: nat, ghost s0: Quad<bv32>, s: Quad<bv32>) returns (s': Quad<bv32>)
    requires r + 4 <= ROUNDS && Forward(k, s0, r, s)
    ensures Forward(k, s0, r + 4, s')
  {
    var a, b, c, d := s.a, s.b, s.c, s.d;
    a, c := EncryptRound(a, b, c, d, k[2 * r + 2], k[2 * r + 3]);
    b, d := EncryptRound(b, c, d, a, k[2 * r + 4], k[2 * r + 5]);
    c, a := EncryptRound(c, d, a, b, k[2 * r + 6], k[2 * r + 7]);
    d, b := EncryptRound(d, a, b, c, k[2 * r + 8], k[2 * r + 9]);
    s' := Quad(a, b, c, d);
    FourRounds(Quadratic, Stir, k, r, s0, s);
  }

  method FourDecryptRounds(k: Schedule, r: nat, ghost s0: Quad<bv32>, s: Quad<bv32>) returns (s': Quad<bv32>)
    requires r + 4 <= ROUNDS && Backward(k, s0, r + 4, s)
    ensures Backward(k, s0, r, s')
  {
    var a, b, c, d := s.a, s.b, s.c, s.d;
    d, b := DecryptRound(d, a, b, c, k[2 * r + 8], k[2 * r + 9]);
    c, a := DecryptRound(c, d, a, b, k[2 * r + 6], k[2 * r + 7]);
    b, d := DecryptRound(b, c, d, a, k[2 * r + 4], k[2 * r + 5]);
    a, c := DecryptRound(a, b, c, d, k[2 * r + 2], k[2 * r + 3]);
    s' := Quad(a, b, c, d);
    FourUnrounds(Quadratic, Unstir, k, r, s);
  }

  method EncryptRounds(k: Schedule, s0: Quad<bv32>) returns (s: Quad<bv32>)
    ensures Forward(k, s0, ROUNDS, s)
  {
    s := s0;
    var r := 0;
    while r < 20
      invariant r % 4 == 0 && r <= 20
      invariant Forward(k, s0, r, s)
    {
      s := FourEncryptRounds(k, r, s0, s);
      r := r + 4;
    }
  }

  method DecryptRounds(k: Schedule, s0: Quad<bv32>) returns (s: Quad<bv32>)
    ensures Backward(k, s0, 0, s)
  {
    s := s0;
    var r := 20;
    while r > 0
      invariant r % 4 == 0 && 0 <= r <= 20
      invariant Backward(k, s0, r, s)
    {
      s := FourDecryptRounds(k, r - 4, s0, s);
      r := r - 4;
    }
  }

  method EcbEncrypt(pt: seq<Byte>, k: Schedule) returns (ct: seq<Byte>)
    requires |pt| == 16
    ensures ct == EncryptBlock(k, pt)
  {
    var s := EncryptRounds(k, AddInner(LoadQuad(Load32L, pt), k[0], k[1]));
    ct := StoreQuad(Store32L, AddOuter(s, k[42], k[43]));
  }

  method EcbDecrypt(ct: seq<Byte>, k: Schedule) returns (pt: seq<Byte>)
    requires |ct| == 16
    ensures pt == DecryptBlock(k, ct)
  {
    var s := DecryptRounds(k, SubOuter(LoadQuad(Load32L, ct), k[42], k[43]));
    pt := StoreQuad(Store32L, SubInner(s, k[0], k[1]));
  }

  method Setup(key: seq<Byte>, numRounds: int, skey: array<bv32>) returns (status: Status)
    requires skey.Length == KEYWORDS
    modifies skey
    ensures status ==
      if numRounds != 0 && numRounds != 20 then InvalidRounds
      else if |key| < 8 || |key| > 128 then InvalidKeySize
      else Ok
    ensures skey[..] == if status == Ok then Expanded(key, KEYWORDS) else old(skey[..])
  {
    if numRounds != 0 && numRounds != 20 {
      return InvalidRounds;
    }
    if |key| < 8 || |key| > 128 {
      return InvalidKeySize;
    }
    var s := Expand(key, KEYWORDS);
    forall i | 0 <= i < KEYWORDS {
      skey[i] := s[i];
    }
    assert skey[..] == s[..];
    status := Ok;
  }

  /** Decryption inverts encryption for every schedule, whatever the rotation amounts come out as. */
  lemma DecryptInvertsEncrypt(k: Schedule, pt: seq<Byte>)
    requires |pt| == 16
    ensures DecryptBlock(k, EncryptBlock(k, pt)) == pt
  {
    var s := LoadQuad(Load32L, pt);
    BothByteOrders();
    QuadBlocks(Load32L, Store32L, Encrypted(k, s), pt);
    DecryptedEncrypted(k, s);
  }
}

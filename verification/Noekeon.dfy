/** Noekeon in direct-key mode (`NXTservices/noekeon.c`): 16-byte blocks and keys, 16 rounds. */
module Noekeon {
  import opened Words
  import opened Hadamard
  import opened InvolutionalCipher
  import opened Diffusion

  const ROUNDS := 16

  /* ---- The rounds, over any state ---- */

  /** `theta` followed by the non-linear layer `n`, with a round constant added first. */
  function Rounds<S>(theta: S -> S, n: S -> S, rc: (nat, S) -> S, r: nat, s: S): S
    decreases r, s
  {
    if r == 0 then s else n(theta(rc(r - 1, Rounds(theta, n, rc, r - 1, s))))
  }

  function Encrypted<S>(theta: S -> S, n: S -> S, rc: (nat, S) -> S, r: nat, s: S): S {
    theta(rc(r, Rounds(theta, n, rc, r, s)))
  }

  /** The decryption loop, from round r down to 1: here the constant is added after `theta`. */
  function Unrounds<S>(theta: S -> S, n: S -> S, rc: (nat, S) -> S, r: nat, s: S): S
    decreases r, s
  {
    if r == 0 then s else Unrounds(theta, n, rc, r - 1, n(rc(r, theta(s))))
  }

  function Decrypted<S>(theta: S -> S, n: S -> S, rc: (nat, S) -> S, r: nat, s: S): S {
    rc(0, theta(Unrounds(theta, n, rc, r, s)))
  }

  /** `d` takes back `e`. */
  ghost predicate Undoes<S(!new)>(d: S -> S, e: S -> S) {
    forall s :: d(e(s)) == s
  }

  ghost predicate SelfInverse<S(!new)>(rc: (nat, S) -> S) {
    forall i, s :: rc(i, rc(i, s)) == s
  }

  /** The placement of the constants in the two loops fits together. */
  lemma {:induction false} DecryptedEncrypted<S(!new)>(e: S -> S, d: S -> S, n: S -> S, rc: (nat, S) -> S, r: nat, s: S)
    requires Undoes(d, e) && Involution(n) && SelfInverse(rc)
    ensures Decrypted(d, n, rc, r, Encrypted(e, n, rc, r, s)) == s
  {
    if r > 0 {
      var x := Rounds(e, n, rc, r, s);
      assert x == n(Encrypted(e, n, rc, r - 1, s));
      assert d(Encrypted(e, n, rc, r, s)) == rc(r, x);
      assert n(rc(r, rc(r, x))) == Encrypted(e, n, rc, r - 1, s);
      DecryptedEncrypted(e, d, n, rc, r - 1, s);
    }
  }

  /* ---- Theta ---- */

  /** Adds f(a + c) to b and d; and f(b + d) to a and c. */
  function SpreadOut<V>(s: Space<V>): Quad<V> -> Quad<V> {
    (q: Quad<V>) => var t := s.mx(s.add(q.a, q.c));
      Quad(q.a, s.add(q.b, t), q.c, s.add(q.d, t))
  }

  function SpreadIn<V>(s: Space<V>): Quad<V> -> Quad<V> {
    (q: Quad<V>) => var u := s.mx(s.add(q.b, q.d));
      Quad(s.add(q.a, u), q.b, s.add(q.c, u), q.d)
  }

  lemma Associative<V(!new)>(s: Space<V>, a: V, b: V, c: V)
    requires BinarySpace(s)
    ensures s.add(a, s.add(b, c)) == s.add(s.add(a, b), c) && s.add(s.add(a, b), b) == a
    ensures s.add(s.add(a, b), s.add(c, b)) == s.add(a, c)
  {
    assert s.add(s.add(a, s.zero), s.add(b, c)) == s.add(s.add(a, b), s.add(s.zero, c));
    assert s.add(s.add(a, b), s.add(s.zero, b)) == s.add(s.add(a, s.zero), s.add(b, b));
    assert s.add(s.add(a, b), s.add(c, b)) == s.add(s.add(a, c), s.add(b, b));
  }

  lemma SpreadIs<V>(s: Space<V>, q: Quad<V>)
    ensures SpreadOut(s)(q)
         == Quad(q.a, s.add(q.b, s.mx(s.add(q.a, q.c))), q.c, s.add(q.d, s.mx(s.add(q.a, q.c))))
    ensures SpreadIn(s)(q)
         == Quad(s.add(q.a, s.mx(s.add(q.b, q.d))), q.b, s.add(q.c, s.mx(s.add(q.b, q.d))), q.d)
  {
  }

  /** Each of the two maps is an involution, and they commute. */
  lemma SpreadInvolutions<V(!new)>(s: Space<V>, q: Quad<V>)
    requires BinarySpace(s)
    ensures SpreadOut(s)(SpreadOut(s)(q)) == q && SpreadIn(s)(SpreadIn(s)(q)) == q
    ensures SpreadIn(s)(SpreadOut(s)(q)) == SpreadOut(s)(SpreadIn(s)(q))
  {
    var t, u := s.mx(s.add(q.a, q.c)), s.mx(s.add(q.b, q.d));
    SpreadIs(s, q);
    SpreadIs(s, SpreadOut(s)(q));
    SpreadIs(s, SpreadIn(s)(q));
    Associative(s, q.a, u, q.c);
    Associative(s, q.b, t, q.d);
    Associative(s, q.c, u, q.a);
    Associative(s, q.d, t, q.b);
  }

  lemma SpreadLinear<V(!new)>(s: Space<V>, p: Quad<V>, q: Quad<V>)
    requires BinarySpace(s)
    ensures SpreadOut(s)(Pairwise(s.add)(p, q)) == Pairwise(s.add)(SpreadOut(s)(p), SpreadOut(s)(q))
    ensures SpreadIn(s)(Pairwise(s.add)(p, q)) == Pairwise(s.add)(SpreadIn(s)(p), SpreadIn(s)(q))
  {
    SpreadIs(s, p);
    SpreadIs(s, q);
    SpreadIs(s, Pairwise(s.add)(p, q));
    assert s.add(s.add(p.a, q.a), s.add(p.c, q.c)) == s.add(s.add(p.a, p.c), s.add(q.a, q.c));
    assert s.add(s.add(p.b, q.b), s.add(p.d, q.d)) == s.add(s.add(p.b, p.d), s.add(q.b, q.d));
  }

  /** The two maps with the key added in between. */
  function Theta<V>(s: Space<V>, k: Quad<V>): Quad<V> -> Quad<V> {
    (q: Quad<V>) => SpreadIn(s)(Pairwise(s.add)(SpreadOut(s)(q), k))
  }

  /** The same without a key; it gives the decryption key. */
  function KeyTheta<V>(s: Space<V>, k: Quad<V>): Quad<V> {
    SpreadIn(s)(SpreadOut(s)(k))
  }

  /** Theta under the transformed key takes back theta. */
  lemma ThetaUndone<V(!new)>(s: Space<V>, k: Quad<V>)
    requires BinarySpace(s)
    ensures Undoes(Theta(s, KeyTheta(s, k)), Theta(s, k))
  {
    forall q: Quad<V> ensures Theta(s, KeyTheta(s, k))(Theta(s, k)(q)) == q {
      var x := Pairwise(s.add)(SpreadOut(s)(q), k);
      SpreadInvolutions(s, x);
      SpreadLinear(s, SpreadOut(s)(SpreadIn(s)(x)), SpreadIn(s)(SpreadOut(s)(k)));
      SpreadInvolutions(s, SpreadOut(s)(x));
      SpreadInvolutions(s, SpreadOut(s)(k));
      SpreadLinear(s, x, k);
      PairwiseCancels(s, SpreadOut(s)(q), k);
      SpreadInvolutions(s, q);
    }
  }

  lemma PairwiseCancels<V(!new)>(s: Space<V>, p: Quad<V>, q: Quad<V>)
    requires BinarySpace(s)
    ensures Pairwise(s.add)(Pairwise(s.add)(p, q), q) == p
  {
    EachIs(s.mx, s.add, p, q);
    EachIs(s.mx, s.add, Pairwise(s.add)(p, q), q);
    Associative(s, p.a, q.a, p.a);
    Associative(s, p.b, q.b, p.b);
    Associative(s, p.c, q.c, p.c);
    Associative(s, p.d, q.d, p.d);
  }

  /* ---- Gamma ---- */

  datatype Logic<!W> = Logic(xor: (W, W) -> W, and: (W, W) -> W, nor: (W, W) -> W, sum: (W, W, W) -> W)

  ghost predicate Boolean<W(!new)>(l: Logic<W>) {
    && (forall a, b :: l.xor(l.xor(a, b), b) == a)
    && (forall b, c, d :: l.and(c, l.xor(b, l.nor(d, c))) == l.and(c, b))
    && (forall a, b, c :: l.sum(a, b, c) == l.sum(c, b, a))
  }

  function Gamma<W>(l: Logic<W>, q: Quad<W>): Quad<W> {
    var b1 := l.xor(q.b, l.nor(q.d, q.c));
    var a1 := l.xor(q.a, l.and(q.c, b1));
    var c1 := l.xor(q.c, l.sum(q.d, b1, a1));
    var b2 := l.xor(b1, l.nor(a1, c1));
    Quad(l.xor(q.d, l.and(c1, b2)), b2, c1, a1)
  }

  lemma GammaTwice<W(!new)>(l: Logic<W>, q: Quad<W>)
    requires Boolean(l)
    ensures Gamma(l, Gamma(l, q)) == q
  {
    var b1 := l.xor(q.b, l.nor(q.d, q.c));
    var a1 := l.xor(q.a, l.and(q.c, b1));
    var c1 := l.xor(q.c, l.sum(q.d, b1, a1));
    var b2 := l.xor(b1, l.nor(a1, c1));
    var p := Gamma(l, q);
    assert l.xor(p.b, l.nor(p.d, p.c)) == b1;
    assert l.and(c1, b2) == l.and(c1, b1);
    assert l.xor(p.a, l.and(p.c, b1)) == q.d;
    assert l.xor(p.c, l.sum(p.d, b1, q.d)) == q.c;
    assert l.and(q.c, b1) == l.and(q.c, q.b);
  }

  /** Gamma between rotations that cancel. */
  function Conjugated<S>(p: S -> S, g: S -> S, q: S -> S): S -> S {
    (s: S) => q(g(p(s)))
  }

  lemma ConjugatedIs<S>(p: S -> S, g: S -> S, q: S -> S, s: S)
    ensures Conjugated(p, g, q)(s) == q(g(p(s)))
  {
  }

  lemma ConjugatedTwice<S>(p: S -> S, g: S -> S, q: S -> S, s: S)
    requires p(q(g(p(s)))) == g(p(s)) && g(g(p(s))) == p(s) && q(p(s)) == s
    ensures Conjugated(p, g, q)(Conjugated(p, g, q)(s)) == s
  {
    ConjugatedIs(p, g, q, s);
    ConjugatedIs(p, g, q, q(g(p(s))));
  }

  lemma ConjugatedInvolution<S(!new)>(p: S -> S, g: S -> S, q: S -> S)
    requires Involution(g) && Undoes(p, q) && Undoes(q, p)
    ensures Involution(Conjugated(p, g, q))
  {
    forall s {
      ConjugatedTwice(p, g, q, s);
    }
  }

  /* ---- The instance: 32-bit words ---- */

  function And32(x: bv32, y: bv32): bv32 {
    x & y
  }

  function Nor32(x: bv32, y: bv32): bv32 {
    !(x | y)
  }

  function Sum32(x: bv32, y: bv32, z: bv32): bv32 {
    Xor32(Xor32(x, y), z)
  }

  function Blend(x: bv32): bv32 {
    Sum32(x, Rol(x, 8), Ror(x, 8))
  }

  function Space32(): Space<bv32> {
    Space(Xor32, 0, Blend)
  }

  function Logic32(): Logic<bv32> {
    Logic(Xor32, And32, Nor32, Sum32)
  }

  lemma RotationsOfXor(x: bv32, y: bv32)
    ensures Rol(x ^ y, 8) == Rol(x, 8) ^ Rol(y, 8)
    ensures Ror(x ^ y, 8) == Ror(x, 8) ^ Ror(y, 8)
  {
  }

  lemma RotationsAdditive(x: bv32, y: bv32)
    ensures Rol(Xor32(x, y), 8) == Xor32(Rol(x, 8), Rol(y, 8))
    ensures Ror(Xor32(x, y), 8) == Xor32(Ror(x, 8), Ror(y, 8))
  {
    RotationsOfXor(x, y);
    Xor32Is(x, y);
    Xor32Is(Rol(x, 8), Rol(y, 8));
    Xor32Is(Ror(x, 8), Ror(y, 8));
  }

  lemma XorOfXors(a: bv32, b: bv32, c: bv32, d: bv32)
    ensures Xor32(a ^ b, c ^ d) == Xor32(a ^ c, b ^ d)
  {
  }

  lemma XorMedial(a: bv32, b: bv32, c: bv32, d: bv32)
    ensures Xor32(Xor32(a, b), Xor32(c, d)) == Xor32(Xor32(a, c), Xor32(b, d))
  {
    XorOfXors(a, b, c, d);
    Xor32Is(a, b);
    Xor32Is(c, d);
    Xor32Is(a, c);
    Xor32Is(b, d);
  }

  lemma BlendAdditive(x: bv32, y: bv32)
    ensures Blend(Xor32(x, y)) == Xor32(Blend(x), Blend(y))
  {
    RotationsAdditive(x, y);
    XorMedial(x, y, Rol(x, 8), Rol(y, 8));
    XorMedial(Xor32(x, Rol(x, 8)), Xor32(y, Rol(y, 8)), Ror(x, 8), Ror(y, 8));
  }

  lemma XorZero(a: bv32)
    ensures Xor32(a, 0) == a && Xor32(0, a) == a && Xor32(a, a) == 0
  {
  }

  lemma AndOfXorNor(b: bv32, c: bv32, d: bv32)
    ensures And32(c, b ^ !(d | c)) == And32(c, b)
  {
  }

  lemma AndNor(b: bv32, c: bv32, d: bv32)
    ensures And32(c, Xor32(b, Nor32(d, c))) == And32(c, b)
  {
    AndOfXorNor(b, c, d);
    Xor32Is(b, Nor32(d, c));
    NorIs(d, c);
  }

  lemma NorIs(d: bv32, c: bv32)
    ensures Nor32(d, c) == !(d | c)
  {
  }

  lemma XorReversed(a: bv32, b: bv32, c: bv32)
    ensures Xor32(a ^ b, c) == Xor32(c ^ b, a)
  {
  }

  lemma SumReversed(a: bv32, b: bv32, c: bv32)
    ensures Sum32(a, b, c) == Sum32(c, b, a)
  {
    XorReversed(a, b, c);
    Xor32Is(a, b);
    Xor32Is(c, b);
  }

  lemma SpaceLaws()
    ensures BinarySpace(Space32())
  {
    forall a: bv32 {
      XorZero(a);
    }
    forall a: bv32, b: bv32, c: bv32, d: bv32 {
      XorMedial(a, b, c, d);
    }
    forall a: bv32, b: bv32 {
      BlendAdditive(a, b);
    }
  }

  lemma LogicLaws()
    ensures Boolean(Logic32())
  {
    forall a: bv32, b: bv32 {
      XorTwice(a, b);
    }
    forall b: bv32, c: bv32, d: bv32 {
      AndNor(b, c, d);
    }
    forall a: bv32, b: bv32, c: bv32 {
      SumReversed(a, b, c);
    }
  }

  /* ---- The macros ---- */

  /** a + (u + k) == (a + k) + u == (a + u) + k. */
  lemma AddTwo<V(!new)>(s: Space<V>, a: V, u: V, k: V)
    requires BinarySpace(s)
    ensures s.add(a, s.add(u, k)) == s.add(s.add(a, k), u) == s.add(s.add(a, u), k)
  {
    Shuffle(s, a, s.zero, u, k);
    assert s.add(s.add(a, s.zero), s.add(u, k)) == s.add(s.add(a, u), s.add(s.zero, k));
  }

  lemma ThetaByMacro<V(!new)>(s: Space<V>, k: Quad<V>, q: Quad<V>)
    requires BinarySpace(s)
    ensures
      var t := s.mx(s.add(q.a, q.c));
      var b, d := s.add(q.b, s.add(t, k.b)), s.add(q.d, s.add(t, k.d));
      var u := s.mx(s.add(b, d));
      Theta(s, k)(q) == Quad(s.add(q.a, s.add(u, k.a)), b, s.add(q.c, s.add(u, k.c)), d)
  {
    var t := s.mx(s.add(q.a, q.c));
    var b, d := s.add(q.b, s.add(t, k.b)), s.add(q.d, s.add(t, k.d));
    var u := s.mx(s.add(b, d));
    AddTwo(s, q.b, t, k.b);
    AddTwo(s, q.d, t, k.d);
    AddTwo(s, q.a, u, k.a);
    AddTwo(s, q.c, u, k.c);
    SpreadIs(s, q);
    SpreadIs(s, Pairwise(s.add)(SpreadOut(s)(q), k));
    EachIs(s.mx, s.add, SpreadOut(s)(q), k);
  }

  method KTheta(q: Quad<bv32>) returns (r: Quad<bv32>)
    ensures r == KeyTheta(Space32(), q)
  {
    var a, b, c, d := q.a, q.b, q.c, q.d;
    var temp := Blend(Xor32(a, c));
    b := Xor32(b, temp);
    d := Xor32(d, temp);
    temp := Blend(Xor32(b, d));
    a := Xor32(a, temp);
    c := Xor32(c, temp);
    r := Quad(a, b, c, d);
    SpreadIs(Space32(), q);
    SpreadIs(Space32(), SpreadOut(Space32())(q));
  }

  method ThetaMacro(k: Quad<bv32>, q: Quad<bv32>) returns (r: Quad<bv32>)
    ensures r == Theta(Space32(), k)(q)
  {
    var a, b, c, d := q.a, q.b, q.c, q.d;
    var temp := Blend(Xor32(a, c));
    b := Xor32(b, Xor32(temp, k.b));
    d := Xor32(d, Xor32(temp, k.d));
    temp := Blend(Xor32(b, d));
    a := Xor32(a, Xor32(temp, k.a));
    c := Xor32(c, Xor32(temp, k.c));
    r := Quad(a, b, c, d);
    SpaceLaws();
    ThetaByMacro(Space32(), k, q);
  }

  method GammaMacro(q: Quad<bv32>) returns (r: Quad<bv32>)
    ensures r == Gamma(Logic32(), q)
  {
    var a, b, c, d := q.a, q.b, q.c, q.d;
    b := Xor32(b, Nor32(d, c));
    a := Xor32(a, And32(c, b));
    var temp := d;
    d := a;
    a := temp;
    c := Xor32(c, Sum32(a, b, d));
    b := Xor32(b, Nor32(d, c));
    a := Xor32(a, And32(c, b));
    r := Quad(a, b, c, d);
  }

  type State = Quad<bv32>

  function Pi1(q: State): State {
    Quad(Rol(q.a, 1), q.b, Rol(q.c, 5), Rol(q.d, 2))
  }

  function Pi2(q: State): State {
    Quad(Ror(q.a, 1), q.b, Ror(q.c, 5), Ror(q.d, 2))
  }

  function Gamma32(q: State): State {
    Gamma(Logic32(), q)
  }

  function NonLinear(): State -> State {
    Conjugated(Pi1, Gamma32, Pi2)
  }

  lemma PiInverse(q: State)
    ensures Pi2(Pi1(q)) == q && Pi1(Pi2(q)) == q
  {
    RorRol(q.a, 1);
    RorRol(q.c, 5);
    RorRol(q.d, 2);
    RolRor(q.a, 1);
    RolRor(q.c, 5);
    RolRor(q.d, 2);
  }

  lemma NonLinearInvolution()
    ensures Involution(NonLinear())
  {
    LogicLaws();
    forall q: State ensures Gamma32(Gamma32(q)) == q {
      GammaTwice(Logic32(), q);
    }
    forall q: State ensures Pi1(Pi2(q)) == q {
      PiInverse(q);
    }
    forall q: State ensures Pi2(Pi1(q)) == q {
      PiInverse(q);
    }
    ConjugatedInvolution(Pi1, Gamma32, Pi2);
  }

  /* ---- Round constants ---- */

  function RoundConstant(r: nat): bv32 {
    if r == 0 then 0x00000080 else if r == 1 then 0x0000001b else if r == 2 then 0x00000036
    else if r == 3 then 0x0000006c else if r == 4 then 0x000000d8 else if r == 5 then 0x000000ab
    else if r == 6 then 0x0000004d else if r == 7 then 0x0000009a else if r == 8 then 0x0000002f
    else if r == 9 then 0x0000005e else if r == 10 then 0x000000bc else if r == 11 then 0x00000063
    else if r == 12 then 0x000000c6 else if r == 13 then 0x00000097 else if r == 14 then 0x00000035
    else if r == 15 then 0x0000006a else 0x000000d4
  }

  /** Multiplication by x modulo x^8 + x^4 + x^3 + x + 1. */
  function Doubled(x: bv32): bv32 {
    if x & 0x80 == 0 then x << 1 else (x << 1) ^ 0x11b
  }

  /** Every constant is the double of the one before. */
  lemma RoundConstantsDouble(r: nat)
    requires r < 16
    ensures RoundConstant(r + 1) == Doubled(RoundConstant(r))
  {
  }

  function AddConstant(r: nat, q: State): State {
    Quad(Xor32(q.a, RoundConstant(r)), q.b, q.c, q.d)
  }

  lemma AddConstantTwice(r: nat, q: State)
    ensures AddConstant(r, AddConstant(r, q)) == q
  {
    XorTwice(q.a, RoundConstant(r));
  }

  /* ---- The cipher ---- */

  /** The direct key, and its image under theta. */
  datatype ScheduledKey = ScheduledKey(k: State, dk: State)

  ghost predicate Scheduled(key: seq<Byte>, skey: ScheduledKey)
    requires |key| == 16
  {
    skey.k == LoadQuad(Load32H, key) && skey.dk == KeyTheta(Space32(), skey.k)
  }

  method Setup(key: seq<Byte>, numRounds: int) returns (status: Status, skey: ScheduledKey)
    ensures status ==
      if |key| != 16 then InvalidKeySize else if numRounds != 16 && numRounds != 0 then InvalidRounds else Ok
    ensures status == Ok ==> Scheduled(key, skey)
  {
    skey := ScheduledKey(Quad(0, 0, 0, 0), Quad(0, 0, 0, 0));
    if |key| != 16 {
      return InvalidKeySize, skey;
    }
    if numRounds != 16 && numRounds != 0 {
      return InvalidRounds, skey;
    }
    var k := LoadQuad(Load32H, key);
    var dk := KTheta(k);
    skey := ScheduledKey(k, dk);
    status := Ok;
  }

  method PiGammaPi(q: State) returns (r: State)
    ensures r == NonLinear()(q)
  {
    var g := GammaMacro(Pi1(q));
    r := Pi2(g);
    ConjugatedIs(Pi1, Gamma32, Pi2, q);
  }

  /* ---- The loops ---- */

  /*
    What the loops keep.  Both are stated of every state equal to the given one, so that the recursion is unfolded
    in the rounds, which name it, and not in the loops.
   */

  /** `s` is `s0` after rounds 0 to r - 1. */
  ghost predicate Applied(k: State, r: nat, s0: State, s: State) {
    forall q: State | q == s0 :: s == Rounds(Theta(Space32(), k), NonLinear(), AddConstant, r, q)
  }

  /** Undoing rounds r down to 1 from `s` gives `goal`. */
  ghost predicate Undoing(dk: State, r: nat, s: State, goal: State) {
    forall q: State | q == s :: Unrounds(Theta(Space32(), dk), NonLinear(), AddConstant, r, q) == goal
  }

  lemma RoundApplied(k: State, r: nat, s0: State, s: State)
    requires Applied(k, r, s0, s)
    ensures Applied(k, r + 1, s0, NonLinear()(Theta(Space32(), k)(AddConstant(r, s))))
  {
    assert s == Rounds(Theta(Space32(), k), NonLinear(), AddConstant, r, s0);
  }

  lemma RoundUndone(dk: State, r: nat, s: State, goal: State)
    requires r > 0 && Undoing(dk, r, s, goal)
    ensures Undoing(dk, r - 1, NonLinear()(AddConstant(r, Theta(Space32(), dk)(s))), goal)
  {
    assert Unrounds(Theta(Space32(), dk), NonLinear(), AddConstant, r, s) == goal;
  }

  method EncryptRound(k: State, r: nat, s: State, ghost s0: State) returns (s': State)
    requires Applied(k, r, s0, s)
    ensures Applied(k, r + 1, s0, s')
  {
    var t := ThetaMacro(k, AddConstant(r, s));
    s' := PiGammaPi(t);
    RoundApplied(k, r, s0, s);
  }

  method DecryptRound(dk: State, r: nat, s: State, ghost goal: State) returns (s': State)
    requires r > 0 && Undoing(dk, r, s, goal)
    ensures Undoing(dk, r - 1, s', goal)
  {
    var t := ThetaMacro(dk, s);
    s' := PiGammaPi(AddConstant(r, t));
    RoundUndone(dk, r, s, goal);
  }

  lemma LastTheta(k: State, r: nat, s0: State, s: State)
    requires Applied(k, r, s0, s)
    ensures Theta(Space32(), k)(AddConstant(r, s)) == Encrypted(Theta(Space32(), k), NonLinear(), AddConstant, r, s0)
  {
    assert s == Rounds(Theta(Space32(), k), NonLinear(), AddConstant, r, s0);
  }

  lemma LastConstant(dk: State, r: nat, s0: State, s: State)
    requires Undoing(dk, 0, s, Unrounds(Theta(Space32(), dk), NonLinear(), AddConstant, r, s0))
    ensures AddConstant(0, Theta(Space32(), dk)(s)) == Decrypted(Theta(Space32(), dk), NonLinear(), AddConstant, r, s0)
  {
    assert s == Unrounds(Theta(Space32(), dk), NonLinear(), AddConstant, 0, s);
  }

  method EncryptRounds(k: State, s0: State) returns (s: State)
    ensures s == Encrypted(Theta(Space32(), k), NonLinear(), AddConstant, ROUNDS, s0)
  {
    s := s0;
    for r := 0 to 16
      invariant Applied(k, r, s0, s)
    {
      s := EncryptRound(k, r, s, s0);
    }
    LastTheta(k, 16, s0, s);
    s := ThetaMacro(k, AddConstant(16, s));
  }

  method DecryptRounds(dk: State, s0: State) returns (s: State)
    ensures s == Decrypted(Theta(Space32(), dk), NonLinear(), AddConstant, ROUNDS, s0)
  {
    ghost var goal := Unrounds(Theta(Space32(), dk), NonLinear(), AddConstant, ROUNDS, s0);
    s := s0;
    for r := 16 downto 0
      invariant Undoing(dk, r, s, goal)
    {
      s := DecryptRound(dk, r + 1, s, goal);
    }
    LastConstant(dk, ROUNDS, s0, s);
    var t := ThetaMacro(dk, s);
    s := AddConstant(0, t);
  }

  function EncryptState(skey: ScheduledKey, rounds: nat, s: State): State {
    Encrypted(Theta(Space32(), skey.k), NonLinear(), AddConstant, rounds, s)
  }

  function DecryptState(skey: ScheduledKey, rounds: nat, s: State): State {
    Decrypted(Theta(Space32(), skey.dk), NonLinear(), AddConstant, rounds, s)
  }

  lemma Theta32Undone(k: State)
    ensures Undoes(Theta(Space32(), KeyTheta(Space32(), k)), Theta(Space32(), k))
  {
    SpaceLaws();
    ThetaUndone(Space32(), k);
  }

  lemma ConstantsSelfInverse()
    ensures SelfInverse(AddConstant)
  {
    forall r: nat, q: State ensures AddConstant(r, AddConstant(r, q)) == q {
      AddConstantTwice(r, q);
    }
  }

  lemma DecryptStateInverts(skey: ScheduledKey, rounds: nat, s: State)
    requires skey.dk == KeyTheta(Space32(), skey.k)
    ensures DecryptState(skey, rounds, EncryptState(skey, rounds, s)) == s
  {
    Theta32Undone(skey.k);
    NonLinearInvolution();
    ConstantsSelfInverse();
    DecryptedEncrypted(Theta(Space32(), skey.k), Theta(Space32(), skey.dk), NonLinear(), AddConstant, rounds, s);
  }

  function EncryptBlock(skey: ScheduledKey, pt: seq<Byte>): (ct: seq<Byte>)
    requires |pt| == 16
    ensures |ct| == 16
  {
    StoreQuad(Store32H, EncryptState(skey, ROUNDS, LoadQuad(Load32H, pt)))
  }

  function DecryptBlock(skey: ScheduledKey, ct: seq<Byte>): (pt: seq<Byte>)
    requires |ct| == 16
    ensures |pt| == 16
  {
    StoreQuad(Store32H, DecryptState(skey, ROUNDS, LoadQuad(Load32H, ct)))
  }

  method EcbEncrypt(pt: seq<Byte>, skey: ScheduledKey) returns (ct: seq<Byte>)
    requires |pt| == 16
    ensures ct == EncryptBlock(skey, pt)
  {
    var s := EncryptRounds(skey.k, LoadQuad(Load32H, pt));
    ct := StoreQuad(Store32H, s);
  }

  method EcbDecrypt(ct: seq<Byte>, skey: ScheduledKey) returns (pt: seq<Byte>)
    requires |ct| == 16
    ensures pt == DecryptBlock(skey, ct)
  {
    var s := DecryptRounds(skey.dk, LoadQuad(Load32H, ct));
    pt := StoreQuad(Store32H, s);
  }

  /** Decryption inverts encryption for every key and block. */
  lemma DecryptInvertsEncrypt(key: seq<Byte>, skey: ScheduledKey, pt: seq<Byte>)
    requires |key| == 16 && Scheduled(key, skey) && |pt| == 16
    ensures DecryptBlock(skey, EncryptBlock(skey, pt)) == pt
  {
    var s := LoadQuad(Load32H, pt);
    BothByteOrders();
    QuadBlocks(Load32H, Store32H, EncryptState(skey, ROUNDS, s), pt);
    DecryptStateInverts(skey, ROUNDS, s);
  }
}

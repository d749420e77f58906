/** Skipjack (`NXTservices/skipjack.c`): 8-byte blocks, 10-byte keys, 32 stepping rules. */
module Skipjack {
  import opened Words
  import opened SkipjackTables

  const STEPS := 32

  /* ---- The key cursor ---- */

  const KEYSTEP: seq<nat> := [1, 2, 3, 4, 5, 6, 7, 8, 9, 0]
  const IKEYSTEP: seq<nat> := [9, 0, 1, 2, 3, 4, 5, 6, 7, 8]

  type Cursor = k: nat | k < 10

  function Next(k: Cursor): Cursor {
    if k == 9 then 0 else k + 1
  }

  function Previous(k: Cursor): Cursor {
    if k == 0 then 9 else k - 1
  }

  /** The two tables of the source are the two steps. */
  lemma StepTables(k: Cursor)
    ensures KEYSTEP[k] == Next(k) && IKEYSTEP[k] == Previous(k)
  {
  }

  lemma CursorSteps(k: Cursor)
    ensures Next(k) == (k + 1) % 10 && Previous(Next(k)) == k && Next(Previous(k)) == k
  {
  }

  function Next4(k: Cursor): Cursor {
    Next(Next(Next(Next(k))))
  }

  function Previous4(k: Cursor): Cursor {
    Previous(Previous(Previous(Previous(k))))
  }

  lemma FourSteps(k: Cursor)
    ensures Previous4(Next4(k)) == k && Next4(k) == (k + 4) % 10
  {
    CursorSteps(k);
    CursorSteps(Next(k));
    CursorSteps(Next(Next(k)));
    CursorSteps(Next(Next(Next(k))));
  }

  /* ---- The G permutation: a four-round Feistel network on two bytes ---- */

  /** `f` is the keyed byte function, `xor` the exclusive or of bytes. */
  function G<V>(xor: (V, V) -> V, f: (Cursor, V) -> V, k: Cursor, h: Halves<V>): Halves<V> {
    var g1 := xor(h.l, f(k, h.r));
    var g2 := xor(h.r, f(Next(k), g1));
    var g1' := xor(g1, f(Next(Next(k)), g2));
    var g2' := xor(g2, f(Next(Next(Next(k))), g1'));
    Halves(g1', g2')
  }

  function IG<V>(xor: (V, V) -> V, f: (Cursor, V) -> V, k: Cursor, h: Halves<V>): Halves<V> {
    var g2 := xor(h.r, f(Previous(k), h.l));
    var g1 := xor(h.l, f(Previous(Previous(k)), g2));
    var g2' := xor(g2, f(Previous(Previous(Previous(k))), g1));
    var g1' := xor(g1, f(Previous4(k), g2'));
    Halves(g1', g2')
  }

  lemma IGofG<V(!new)>(xor: (V, V) -> V, f: (Cursor, V) -> V, k: Cursor, h: Halves<V>)
    requires forall x, y :: xor(xor(x, y), y) == x
    ensures IG(xor, f, Next4(k), G(xor, f, k, h)) == h
  {
    CursorSteps(k);
    CursorSteps(Next(k));
    CursorSteps(Next(Next(k)));
    CursorSteps(Next(Next(Next(k))));
  }

  /* ---- The stepping rules ---- */

  /** The word operations the rules use: exclusive or, G and its inverse, and the step number as a word. */
  datatype Parts<!W> = Parts(xor: (W, W) -> W, g: (Cursor, W) -> W, ig: (Cursor, W) -> W, counter: nat -> W)

  ghost predicate Lawful<W(!new)>(o: Parts<W>) {
    && (forall k, w :: o.ig(Next4(k), o.g(k, w)) == w)
    && (forall t, d, x :: o.xor(o.xor(o.xor(o.xor(t, d), x), t), x) == d)
    && (forall a, b, x :: o.xor(o.xor(a, o.xor(o.xor(a, b), x)), x) == b)
  }

  function RuleA<W>(o: Parts<W>, x: nat, k: Cursor, w: Quad<W>): Quad<W> {
    var t := o.g(k, w.a);
    Quad(o.xor(o.xor(t, w.d), o.counter(x)), t, w.b, w.c)
  }

  function RuleB<W>(o: Parts<W>, x: nat, k: Cursor, w: Quad<W>): Quad<W> {
    Quad(w.d, o.g(k, w.a), o.xor(o.xor(w.a, w.b), o.counter(x)), w.c)
  }

  function RuleA1<W>(o: Parts<W>, x: nat, k: Cursor, w: Quad<W>): Quad<W> {
    Quad(o.ig(k, w.b), w.c, w.d, o.xor(o.xor(w.a, w.b), o.counter(x)))
  }

  function RuleB1<W>(o: Parts<W>, x: nat, k: Cursor, w: Quad<W>): Quad<W> {
    var t := o.ig(k, w.b);
    Quad(t, o.xor(o.xor(t, w.c), o.counter(x)), w.d, w.a)
  }

  lemma RulesUndone<W(!new)>(o: Parts<W>, x: nat, k: Cursor, w: Quad<W>)
    requires Lawful(o)
    ensures RuleA1(o, x, Next4(k), RuleA(o, x, k, w)) == w
    ensures RuleB1(o, x, Next4(k), RuleB(o, x, k, w)) == w
  {
    var t := o.g(k, w.a);
    assert o.ig(Next4(k), t) == w.a;
    assert o.xor(o.xor(o.xor(o.xor(t, w.d), o.counter(x)), t), o.counter(x)) == w.d;
    assert o.xor(o.xor(w.a, o.xor(o.xor(w.a, w.b), o.counter(x))), o.counter(x)) == w.b;
  }

  /** The registers and the key cursor. */
  datatype State<W> = State(w: Quad<W>, k: Cursor)

  /** Rule A for steps 1 to 8 and 17 to 24, rule B for the others. */
  predicate UsesA(x: nat) {
    x <= 8 || 17 <= x <= 24
  }

  function Step<W>(o: Parts<W>, x: nat, s: State<W>): State<W> {
    State(if UsesA(x) then RuleA(o, x, s.k, s.w) else RuleB(o, x, s.k, s.w), Next4(s.k))
  }

  function Unstep<W>(o: Parts<W>, x: nat, s: State<W>): State<W> {
    State(if UsesA(x) then RuleA1(o, x, s.k, s.w) else RuleB1(o, x, s.k, s.w), Previous4(s.k))
  }

  function Forward<W>(o: Parts<W>, n: nat, s: State<W>): State<W> {
    if n == 0 then s else Step(o, n, Forward(o, n - 1, s))
  }

  function Backward<W>(o: Parts<W>, n: nat, s: State<W>): State<W> {
    if n == 0 then s else Backward(o, n - 1, Unstep(o, n, s))
  }

  /** Undoing the steps restores the registers and brings the cursor back. */
  lemma {:induction false} BackwardForward<W(!new)>(o: Parts<W>, n: nat, s: State<W>)
    requires Lawful(o)
    ensures Backward(o, n, Forward(o, n, s)) == s
  {
    if n > 0 {
      var t := Forward(o, n - 1, s);
      RulesUndone(o, n, t.k, t.w);
      FourSteps(t.k);
      BackwardForward(o, n - 1, s);
    }
  }

  /** The cursor moves on by four at every step. */
  lemma {:induction false} CursorAfter<W>(o: Parts<W>, n: nat, s: State<W>)
    ensures Forward(o, n, s).k == (s.k + 4 * n) % 10
  {
    if n > 0 {
      CursorAfter(o, n - 1, s);
      FourMore(Forward(o, n - 1, s).k, s.k + 4 * (n - 1));
    }
  }

  lemma FourMore(k: Cursor, a: nat)
    requires k == a % 10
    ensures Next4(k) == (a + 4) % 10
  {
    FourSteps(k);
    FourFurther(a);
  }

  lemma FourFurther(a: nat)
    ensures (a % 10 + 4) % 10 == (a + 4) % 10
  {
  }

  /* ---- The instance: 16-bit words, and the key-dependent byte function ---- */

  function Hi(w: bv16): bv8 {
    ((w >> 8) & 255) as bv8
  }

  function Lo(w: bv16): bv8 {
    (w & 255) as bv8
  }

  function Join(hi: bv8, lo: bv8): bv16 {
    ((hi as bv16) << 8) | (lo as bv16)
  }

  function XorByte(x: bv8, y: bv8): bv8 {
    x ^ y
  }

  function XorWord(x: bv16, y: bv16): bv16 {
    x ^ y
  }

  lemma JoinSplit(w: bv16, hi: bv8, lo: bv8)
    ensures Join(Hi(w), Lo(w)) == w
    ensures Hi(Join(hi, lo)) == hi && Lo(Join(hi, lo)) == lo
  {
  }

  lemma XorByteTwice(x: bv8, y: bv8)
    ensures XorByte(XorByte(x, y), y) == x
  {
  }

  lemma XorGroups(x: bv16, y: bv16, z: bv16)
    ensures XorWord(XorWord(x, y), z) == XorWord(x, XorWord(y, z))
  {
  }

  lemma XorCancels(x: bv16, y: bv16)
    ensures XorWord(XorWord(x, y), x) == y
    ensures XorWord(XorWord(y, x), x) == y
    ensures XorWord(x, XorWord(x, y)) == y
  {
  }

  lemma RuleALaw(t: bv16, d: bv16, x: bv16)
    ensures XorWord(XorWord(XorWord(XorWord(t, d), x), t), x) == d
  {
    XorGroups(t, d, x);
    XorCancels(t, XorWord(d, x));
    XorCancels(x, d);
  }

  lemma RuleBLaw(a: bv16, b: bv16, x: bv16)
    ensures XorWord(XorWord(a, XorWord(XorWord(a, b), x)), x) == b
  {
    XorGroups(a, b, x);
    XorCancels(a, XorWord(b, x));
    XorCancels(x, b);
  }

  type Key = k: seq<Byte> | |k| == 10 witness seq(10, _ => 0)

  function KeyedByte(key: Key): (Cursor, bv8) -> bv8 {
    (k: Cursor, b: bv8) => Sbox(XorByte(b, key[k]))
  }

  function GWord(key: Key): (Cursor, bv16) -> bv16 {
    (k: Cursor, w: bv16) => var h := G(XorByte, KeyedByte(key), k, Halves(Hi(w), Lo(w)));
      Join(h.l, h.r)
  }

  function IGWord(key: Key): (Cursor, bv16) -> bv16 {
    (k: Cursor, w: bv16) => var h := IG(XorByte, KeyedByte(key), k, Halves(Hi(w), Lo(w)));
      Join(h.l, h.r)
  }

  /** The step number as a word. */
  function Counter(x: nat): bv16 {
    if x < 65536 then x as bv16 else 0
  }

  function PartsOf(key: Key): Parts<bv16> {
    Parts(XorWord, GWord(key), IGWord(key), Counter)
  }

  lemma PartsLawful(key: Key)
    ensures Lawful(PartsOf(key))
  {
    forall k: Cursor, w: bv16 ensures IGWord(key)(Next4(k), GWord(key)(k, w)) == w {
      GWordUndone(key, k, w);
    }
    forall t: bv16, d: bv16, x: bv16 {
      RuleALaw(t, d, x);
    }
    forall a: bv16, b: bv16, x: bv16 {
      RuleBLaw(a, b, x);
    }
  }

  lemma GWordIs(key: Key, k: Cursor, w: bv16)
    ensures var h := G(XorByte, KeyedByte(key), k, Halves(Hi(w), Lo(w)));
      GWord(key)(k, w) == Join(h.l, h.r)
    ensures var h := IG(XorByte, KeyedByte(key), k, Halves(Hi(w), Lo(w)));
      IGWord(key)(k, w) == Join(h.l, h.r)
  {
  }

  lemma GUndone(key: Key, k: Cursor, h: Halves<bv8>)
    ensures IG(XorByte, KeyedByte(key), Next4(k), G(XorByte, KeyedByte(key), k, h)) == h
  {
    forall x: bv8, y: bv8 {
      XorByteTwice(x, y);
    }
    IGofG(XorByte, KeyedByte(key), k, h);
  }

  /** G is a permutation of the words, whatever the table holds. */
  lemma GWordUndone(key: Key, k: Cursor, w: bv16)
    ensures IGWord(key)(Next4(k), GWord(key)(k, w)) == w
  {
    var h := G(XorByte, KeyedByte(key), k, Halves(Hi(w), Lo(w)));
    GWordIs(key, k, w);
    GWordIs(key, Next4(k), Join(h.l, h.r));
    JoinSplit(w, h.l, h.r);
    GUndone(key, k, Halves(Hi(w), Lo(w)));
  }

  /* ---- The loops ---- */

  method FByte(key: Key, k: Cursor, b: bv8) returns (r: bv8, k': Cursor)
    ensures r == KeyedByte(key)(k, b) && k' == Next(k)
  {
    r := Sbox(XorByte(b, key[k]));
    StepTables(k);
    k' := KEYSTEP[k];
  }

  method IFByte(key: Key, k: Cursor, b: bv8) returns (r: bv8, k': Cursor)
    ensures k' == Previous(k) && r == KeyedByte(key)(k', b)
  {
    StepTables(k);
    k' := IKEYSTEP[k];
    r := Sbox(XorByte(b, key[k']));
  }

  method GFunc(key: Key, k: Cursor, w: bv16) returns (r: bv16, k': Cursor)
    ensures r == GWord(key)(k, w) && k' == Next4(k)
  {
    var g1, g2 := Hi(w), Lo(w);
    var f1, k1 := FByte(key, k, g2);
    g1 := XorByte(g1, f1);
    var f2, k2 := FByte(key, k1, g1);
    g2 := XorByte(g2, f2);
    var f3, k3 := FByte(key, k2, g2);
    g1 := XorByte(g1, f3);
    var f4, k4 := FByte(key, k3, g1);
    g2 := XorByte(g2, f4);
    r, k' := Join(g1, g2), k4;
    GWordIs(key, k, w);
  }

  method IGFunc(key: Key, k: Cursor, w: bv16) returns (r: bv16, k': Cursor)
    ensures r == IGWord(key)(k, w) && k' == Previous4(k)
  {
    var g1, g2 := Hi(w), Lo(w);
    var f1, k1 := IFByte(key, k, g1);
    g2 := XorByte(g2, f1);
    var f2, k2 := IFByte(key, k1, g2);
    g1 := XorByte(g1, f2);
    var f3, k3 := IFByte(key, k2, g1);
    g2 := XorByte(g2, f3);
    var f4, k4 := IFByte(key, k3, g2);
    g1 := XorByte(g1, f4);
    r, k' := Join(g1, g2), k4;
    GWordIs(key, k, w);
  }

  /*
    What the loops keep.  Both are stated of every state equal to the given one, so that the recursion is unfolded
    in the steps, which name it, and not in the loops.
   */

  /** `s` is the state after `n` steps. */
  ghost predicate Done(key: Key, n: nat, s0: State<bv16>, s: State<bv16>) {
    forall q | q == s0 :: s == Forward(PartsOf(key), n, q)
  }

  /** Undoing steps n down to 1 from `s` gives `goal`. */
  ghost predicate Undoing(key: Key, n: nat, s: State<bv16>, goal: State<bv16>) {
    forall q | q == s :: Backward(PartsOf(key), n, q) == goal
  }

  lemma StepDone(key: Key, x: nat, s0: State<bv16>, s: State<bv16>)
    requires x > 0 && Done(key, x - 1, s0, s)
    ensures Done(key, x, s0, Step(PartsOf(key), x, s))
  {
    assert s == Forward(PartsOf(key), x - 1, s0);
  }

  lemma StepUndone(key: Key, x: nat, s: State<bv16>, goal: State<bv16>)
    requires x > 0 && Undoing(key, x, s, goal)
    ensures Undoing(key, x - 1, Unstep(PartsOf(key), x, s), goal)
  {
    assert Backward(PartsOf(key), x, s) == goal;
  }

  lemma AllUndone(key: Key, s: State<bv16>, goal: State<bv16>)
    requires Undoing(key, 0, s, goal)
    ensures s == goal
  {
    assert Backward(PartsOf(key), 0, s) == goal;
  }

  method ApplyA(key: Key, x: nat, s: State<bv16>, ghost s0: State<bv16>) returns (t: State<bv16>)
    requires x > 0 && UsesA(x) && Done(key, x - 1, s0, s)
    ensures Done(key, x, s0, t)
  {
    var tmp, k := GFunc(key, s.k, s.w.a);
    t := State(Quad(XorWord(XorWord(tmp, s.w.d), Counter(x)), tmp, s.w.b, s.w.c), k);
    StepDone(key, x, s0, s);
  }

  method ApplyB(key: Key, x: nat, s: State<bv16>, ghost s0: State<bv16>) returns (t: State<bv16>)
    requires x > 0 && !UsesA(x) && Done(key, x - 1, s0, s)
    ensures Done(key, x, s0, t)
  {
    var tmp, k := GFunc(key, s.k, s.w.a);
    t := State(Quad(s.w.d, tmp, XorWord(XorWord(s.w.a, s.w.b), Counter(x)), s.w.c), k);
    StepDone(key, x, s0, s);
  }

  method ApplyA1(key: Key, x: nat, s: State<bv16>, ghost goal: State<bv16>) returns (t: State<bv16>)
    requires x > 0 && UsesA(x) && Undoing(key, x, s, goal)
    ensures Undoing(key, x - 1, t, goal)
  {
    var tmp := XorWord(XorWord(s.w.a, s.w.b), Counter(x));
    var w1, k := IGFunc(key, s.k, s.w.b);
    t := State(Quad(w1, s.w.c, s.w.d, tmp), k);
    StepUndone(key, x, s, goal);
  }

  method ApplyB1(key: Key, x: nat, s: State<bv16>, ghost goal: State<bv16>) returns (t: State<bv16>)
    requires x > 0 && !UsesA(x) && Undoing(key, x, s, goal)
    ensures Undoing(key, x - 1, t, goal)
  {
    var tmp, k := IGFunc(key, s.k, s.w.b);
    t := State(Quad(tmp, XorWord(XorWord(tmp, s.w.c), Counter(x)), s.w.d, s.w.a), k);
    StepUndone(key, x, s, goal);
  }

  method EncryptWords(key: Key, s0: State<bv16>) returns (s: State<bv16>)
    ensures Done(key, STEPS, s0, s)
  {
    s := s0;
    for x := 0 to 8
      invariant Done(key, x, s0, s)
    {
      s := ApplyA(key, x + 1, s, s0);
    }
    for x := 8 to 16
      invariant Done(key, x, s0, s)
    {
      s := ApplyB(key, x + 1, s, s0);
    }
    for x := 16 to 24
      invariant Done(key, x, s0, s)
    {
      s := ApplyA(key, x + 1, s, s0);
    }
    for x := 24 to 32
      invariant Done(key, x, s0, s)
    {
      s := ApplyB(key, x + 1, s, s0);
    }
  }

  method DecryptWords(key: Key, s0: State<bv16>, ghost goal: State<bv16>) returns (s: State<bv16>)
    requires Undoing(key, STEPS, s0, goal)
    ensures s == goal
  {
    s := s0;
    for x := 32 downto 24
      invariant Undoing(key, x, s, goal)
    {
      s := ApplyB1(key, x + 1, s, goal);
    }
    for x := 24 downto 16
      invariant Undoing(key, x, s, goal)
    {
      s := ApplyA1(key, x + 1, s, goal);
    }
    for x := 16 downto 8
      invariant Undoing(key, x, s, goal)
    {
      s := ApplyB1(key, x + 1, s, goal);
    }
    for x := 8 downto 0
      invariant Undoing(key, x, s, goal)
    {
      s := ApplyA1(key, x + 1, s, goal);
    }
    AllUndone(key, s, goal);
  }

  /* ---- Blocks ---- */

  function LoadBlock(p: seq<Byte>): Quad<bv16>
    requires |p| == 8
  {
    Quad(Join(p[0], p[1]), Join(p[2], p[3]), Join(p[4], p[5]), Join(p[6], p[7]))
  }

  function StoreBlock(w: Quad<bv16>): (p: seq<Byte>)
    ensures |p| == 8
  {
    [Hi(w.a), Lo(w.a), Hi(w.b), Lo(w.b), Hi(w.c), Lo(w.c), Hi(w.d), Lo(w.d)]
  }

  lemma LoadStoreBlock(w: Quad<bv16>, p: seq<Byte>)
    requires |p| == 8
    ensures LoadBlock(StoreBlock(w)) == w && StoreBlock(LoadBlock(p)) == p
  {
    JoinSplit(w.a, p[0], p[1]);
    JoinSplit(w.b, p[2], p[3]);
    JoinSplit(w.c, p[4], p[5]);
    JoinSplit(w.d, p[6], p[7]);
    assert StoreBlock(LoadBlock(p)) == [p[0], p[1], p[2], p[3], p[4], p[5], p[6], p[7]];
  }

  method Setup(key: seq<Byte>, numRounds: int) returns (status: Status, skey: Key)
    ensures status ==
      if |key| != 10 then InvalidKeySize else if numRounds != 32 && numRounds != 0 then InvalidRounds else Ok
    ensures status == Ok ==> skey == key
  {
    skey := [0, 0, 0, 0, 0, 0, 0, 0, 0, 0];
    if |key| != 10 {
      return InvalidKeySize, skey;
    }
    if numRounds != 32 && numRounds != 0 {
      return InvalidRounds, skey;
    }
    skey := key;
    status := Ok;
  }

  /** Encryption starts with the cursor at 0, decryption with the cursor at 8. */
  function EncryptState(key: Key, steps: nat, w: Quad<bv16>): State<bv16> {
    Forward(PartsOf(key), steps, State(w, 0))
  }

  function DecryptState(key: Key, steps: nat, w: Quad<bv16>): State<bv16> {
    Backward(PartsOf(key), steps, State(w, 8))
  }

  function EncryptBlock(key: Key, pt: seq<Byte>): (ct: seq<Byte>)
    requires |pt| == 8
    ensures |ct| == 8
  {
    StoreBlock(EncryptState(key, STEPS, LoadBlock(pt)).w)
  }

  function DecryptBlock(key: Key, ct: seq<Byte>): (pt: seq<Byte>)
    requires |ct| == 8
    ensures |pt| == 8
  {
    StoreBlock(DecryptState(key, STEPS, LoadBlock(ct)).w)
  }

  method EcbEncrypt(pt: seq<Byte>, key: Key) returns (ct: seq<Byte>)
    requires |pt| == 8
    ensures ct == EncryptBlock(key, pt)
  {
    var s := EncryptWords(key, State(LoadBlock(pt), 0));
    ct := StoreBlock(s.w);
  }

  method EcbDecrypt(ct: seq<Byte>, key: Key) returns (pt: seq<Byte>)
    requires |ct| == 8
    ensures pt == DecryptBlock(key, ct)
  {
    var s := DecryptWords(key, State(LoadBlock(ct), 8), DecryptState(key, STEPS, LoadBlock(ct)));
    pt := StoreBlock(s.w);
  }

  /** The 32 steps end with the cursor at 8, where decryption starts; undoing them brings it back to 0. */
  lemma CursorReturns<W(!new)>(o: Parts<W>, steps: nat, w: Quad<W>)
    requires Lawful(o) && steps == STEPS
    ensures Forward(o, steps, State(w, 0)).k == 8
    ensures Backward(o, steps, State(Forward(o, steps, State(w, 0)).w, 8)) == State(w, 0)
  {
    CursorAfter(o, steps, State(w, 0));
    BackwardForward(o, steps, State(w, 0));
    var s := Forward(o, steps, State(w, 0));
    assert s == State(s.w, 8);
  }

  lemma DecryptStateInverts(key: Key, steps: nat, w: Quad<bv16>)
    requires steps == STEPS
    ensures DecryptState(key, steps, EncryptState(key, steps, w).w) == State(w, 0)
  {
    PartsLawful(key);
    CursorReturns(PartsOf(key), steps, w);
  }

  /** Decryption inverts encryption for every key and block. */
  lemma DecryptInvertsEncrypt(key: Key, pt: seq<Byte>)
    requires |pt| == 8
    ensures DecryptBlock(key, EncryptBlock(key, pt)) == pt
  {
    var w := LoadBlock(pt);
    LoadStoreBlock(EncryptState(key, STEPS, w).w, pt);
    DecryptStateInverts(key, STEPS, w);
  }
}

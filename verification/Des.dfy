/**
  DES and triple DES (`NXTservices/des.c`, the LTC_SMALL_CODE branches; FIPS 46-3): the
  initial and final permutations as exchanges of bits between the halves, and a key
  schedule built once in either order.
 */
module Des {
  import opened Words
  import opened DesTables

  const ROUNDS := 16

  /* ---- The Feistel network, over any words and keys ---- */

  function Swapped<W>(s: Halves<W>): Halves<W> {
    Halves(s.r, s.l)
  }

  /** One enciphering step of the standard. */
  function Round<K, W>(xor: (W, W) -> W, f: (K, W) -> W, k: K, s: Halves<W>): Halves<W> {
    Halves(s.r, xor(s.l, f(k, s.r)))
  }

  function Rounds<K, W>(xor: (W, W) -> W, f: (K, W) -> W, ks: seq<K>, s: Halves<W>): Halves<W> {
    if ks == [] then s else Rounds(xor, f, ks[1..], Round(xor, f, ks[0], s))
  }

  function Reversed<K>(ks: seq<K>): (r: seq<K>)
    ensures |r| == |ks|
  {
    if ks == [] then [] else Reversed(ks[1..]) + [ks[0]]
  }

  lemma {:induction false} ReversedAt<K>(ks: seq<K>, i: nat)
    requires i < |ks|
    ensures Reversed(ks)[i] == ks[|ks| - 1 - i]
  {
    if i < |ks| - 1 {
      ReversedAt(ks[1..], i);
    }
  }

  lemma IsReversed<K>(ks: seq<K>, rs: seq<K>)
    requires |rs| == |ks| && forall j | 0 <= j < |ks| :: rs[j] == ks[|ks| - 1 - j]
    ensures rs == Reversed(ks)
  {
    forall j | 0 <= j < |ks| ensures rs[j] == Reversed(ks)[j] {
      ReversedAt(ks, j);
    }
  }

  lemma {:induction false} LastRound<K, W>(xor: (W, W) -> W, f: (K, W) -> W, ks: seq<K>, k: K, s: Halves<W>)
    ensures Rounds(xor, f, ks + [k], s) == Round(xor, f, k, Rounds(xor, f, ks, s))
  {
    if ks == [] {
      assert [k][1..] == [];
    } else {
      assert (ks + [k])[1..] == ks[1..] + [k];
      LastRound(xor, f, ks[1..], k, Round(xor, f, ks[0], s));
    }
  }

  /** Running the same rounds with the keys reversed, on exchanged halves, takes them back; for any f. */
  lemma {:induction false} ReversedRoundsInvert<K, W(!new)>(xor: (W, W) -> W, f: (K, W) -> W, ks: seq<K>, s: Halves<W>)
    requires forall x, y :: xor(xor(x, y), y) == x
    ensures Rounds(xor, f, Reversed(ks), Swapped(Rounds(xor, f, ks, s))) == Swapped(s)
  {
    if ks != [] {
      var t := Round(xor, f, ks[0], s);
      ReversedRoundsInvert(xor, f, ks[1..], t);
      LastRound(xor, f, Reversed(ks[1..]), ks[0], Swapped(Rounds(xor, f, ks[1..], t)));
    }
  }

  /** Two steps of the standard leave the halves where the unrolled loop keeps them. */
  lemma TwoRounds<K, W>(xor: (W, W) -> W, f: (K, W) -> W, ks: seq<K>, s: Halves<W>)
    requires |ks| >= 2
    ensures
      var l := xor(s.l, f(ks[0], s.r));
      Rounds(xor, f, ks, s) == Rounds(xor, f, ks[2..], Halves(l, xor(s.r, f(ks[1], l))))
  {
    assert ks[1..][1..] == ks[2..];
    assert Rounds(xor, f, ks, s) == Rounds(xor, f, ks[1..], Round(xor, f, ks[0], s));
  }

  /* ---- The whole transformation: permutation, sixteen rounds, exchange, inverse permutation ---- */

  function Transformed<K, W>(ip: Halves<W> -> Halves<W>, inv: Halves<W> -> Halves<W>,
                             xor: (W, W) -> W, f: (K, W) -> W, ks: seq<K>, s: Halves<W>): Halves<W> {
    inv(Swapped(Rounds(xor, f, ks, ip(s))))
  }

  ghost predicate MutuallyInverse<S(!new)>(g: S -> S, h: S -> S) {
    forall s :: h(g(s)) == s && g(h(s)) == s
  }

  lemma ReversedKeysInvert<K, W(!new)>(ip: Halves<W> -> Halves<W>, inv: Halves<W> -> Halves<W>,
                                       xor: (W, W) -> W, f: (K, W) -> W, ks: seq<K>, s: Halves<W>)
    requires MutuallyInverse(ip, inv) && forall x, y :: xor(xor(x, y), y) == x
    ensures Transformed(ip, inv, xor, f, Reversed(ks), Transformed(ip, inv, xor, f, ks, s)) == s
  {
    ReversedRoundsInvert(xor, f, ks, ip(s));
  }

  lemma {:induction false} ReversedTwice<K>(ks: seq<K>)
    ensures Reversed(Reversed(ks)) == ks
  {
    forall i | 0 <= i < |ks| ensures Reversed(Reversed(ks))[i] == ks[i] {
      ReversedAt(Reversed(ks), i);
      ReversedAt(ks, |ks| - 1 - i);
    }
  }

  /* ---- The key schedule, over any bits and words ---- */

  /** The permutation tables, the total rotation of each round, and how 24 bits become a word and two words a key. */
  datatype KeyFrame<!W> = KeyFrame(
    pc1: nat -> nat, rotation: nat -> nat, pc2: nat -> nat, zero: W, mark: (W, nat) -> W, cook: (W, W) -> Halves<W>)

  ghost predicate InRange<W>(t: KeyFrame<W>) {
    && (forall j: nat :: t.pc1(j) < 64)
    && (forall j: nat :: t.rotation(j) <= 28)
    && (forall j: nat :: t.pc2(j) < 56)
  }

  function Selected<W>(t: KeyFrame<W>, bit: nat -> bool): (s: seq<bool>)
    ensures |s| == 56
  {
    seq(56, j requires 0 <= j < 56 => bit(t.pc1(j)))
  }

  /** Where bit j comes from when both 28-bit halves rotate left by r. */
  function RotatedIndex(j: nat, r: nat): (l: nat)
    requires j < 56 && r <= 28
    ensures l < 56
  {
    if j < 28 then (if j + r < 28 then j + r else j + r - 28) else if j + r < 56 then j + r else j + r - 28
  }

  function Rotated(s: seq<bool>, r: nat): (s': seq<bool>)
    requires |s| == 56 && r <= 28
    ensures |s'| == 56
  {
    seq(56, j requires 0 <= j < 56 => s[RotatedIndex(j, r)])
  }

  /** Rotations add up. */
  lemma RotatedTwice(s: seq<bool>, a: nat, b: nat)
    requires |s| == 56 && a + b <= 28
    ensures Rotated(Rotated(s, a), b) == Rotated(s, a + b)
  {
    forall j | 0 <= j < 56 ensures Rotated(Rotated(s, a), b)[j] == Rotated(s, a + b)[j] {
      assert RotatedIndex(RotatedIndex(j, b), a) == RotatedIndex(j, a + b);
    }
  }

  /** The first `n` of the 24 bits selected from index `from` on, gathered in a word. */
  function Packed<W>(t: KeyFrame<W>, s: seq<bool>, from: nat, n: nat): W
    requires |s| == 56 && InRange(t)
  {
    if n == 0 then t.zero
    else
      var w := Packed(t, s, from, n - 1);
      if s[t.pc2(from + n - 1)] then t.mark(w, n - 1) else w
  }

  /** The two words of a round key. */
  function KeyOf<W>(t: KeyFrame<W>, s: seq<bool>): Halves<W>
    requires |s| == 56 && InRange(t)
  {
    t.cook(Packed(t, s, 0, 24), Packed(t, s, 24, 24))
  }

  /** Round key i as the source computes it, by one rotation from the permuted key. */
  function RoundKey<W>(t: KeyFrame<W>, bit: nat -> bool, i: nat): Halves<W>
    requires InRange(t)
  {
    KeyOf(t, Rotated(Selected(t, bit), t.rotation(i)))
  }

  function Schedule<W>(t: KeyFrame<W>, bit: nat -> bool): (ks: seq<Halves<W>>)
    requires InRange(t)
    ensures |ks| == ROUNDS
  {
    seq(ROUNDS, i requires 0 <= i < ROUNDS => RoundKey(t, bit, i))
  }

  /** The bits of the standard's registers C and D, rotated by `shift(i)` before round i. */
  function Registers<W>(t: KeyFrame<W>, shift: nat -> nat, bit: nat -> bool, i: nat): (s: seq<bool>)
    requires forall j :: shift(j) <= 28
    ensures |s| == 56
  {
    if i == 0 then Selected(t, bit) else Rotated(Registers(t, shift, bit, i - 1), shift(i - 1))
  }

  /** Rotating once by the total equals rotating round by round. */
  lemma {:induction false} RegistersAre<W>(t: KeyFrame<W>, shift: nat -> nat, bit: nat -> bool, i: nat)
    requires InRange(t) && forall j :: shift(j) <= 28
    requires i < 16 && t.rotation(0) == shift(0)
    requires forall j: nat | j < 15 :: t.rotation(j + 1) == t.rotation(j) + shift(j + 1)
    ensures Registers(t, shift, bit, i + 1) == Rotated(Selected(t, bit), t.rotation(i))
  {
    if i == 0 {
      assert Registers(t, shift, bit, 0) == Selected(t, bit);
    } else {
      RegistersAre(t, shift, bit, i - 1);
      assert t.rotation((i - 1) + 1) == t.rotation(i - 1) + shift((i - 1) + 1);
      RotatedTwice(Selected(t, bit), t.rotation(i - 1), shift(i));
    }
  }

  method SelectBits<W>(t: KeyFrame<W>, bit: nat -> bool) returns (pc1m: array<bool>)
    ensures fresh(pc1m) && pc1m.Length == 56 && pc1m[..] == Selected(t, bit)
  {
    pc1m := new bool[56];
    for j := 0 to 56
      invariant pc1m[..j] == Selected(t, bit)[..j]
    {
      pc1m[j] := bit(t.pc1(j));
    }
    assert pc1m[..] == pc1m[..56] && Selected(t, bit) == Selected(t, bit)[..56];
  }

  method RotateBits(pc1m: array<bool>, r: nat, pcr: array<bool>)
    requires pc1m != pcr && pc1m.Length == pcr.Length == 56 && r <= 28
    modifies pcr
    ensures pcr[..] == Rotated(pc1m[..], r)
  {
    for j := 0 to 28
      invariant forall i | 0 <= i < j :: pcr[i] == pc1m[RotatedIndex(i, r)]
    {
      var l := j + r;
      if l < 28 {
        pcr[j] := pc1m[l];
      } else {
        pcr[j] := pc1m[l - 28];
      }
    }
    for j := 28 to 56
      invariant forall i | 0 <= i < j :: pcr[i] == pc1m[RotatedIndex(i, r)]
    {
      var l := j + r;
      if l < 56 {
        pcr[j] := pc1m[l];
      } else {
        pcr[j] := pc1m[l - 28];
      }
    }
  }

  method PackBits<W>(t: KeyFrame<W>, pcr: array<bool>) returns (m: W, n: W)
    requires InRange(t) && pcr.Length == 56
    ensures m == Packed(t, pcr[..], 0, 24) && n == Packed(t, pcr[..], 24, 24)
  {
    m, n := t.zero, t.zero;
    for j := 0 to 24
      invariant m == Packed(t, pcr[..], 0, j) && n == Packed(t, pcr[..], 24, j)
    {
      if pcr[t.pc2(j)] {
        m := t.mark(m, j);
      }
      if pcr[t.pc2(j + 24)] {
        n := t.mark(n, j);
      }
      assert t.pc2(24 + j) == t.pc2(j + 24);
    }
  }

  /** The place of round i in the schedule: in order for enciphering, from the end for deciphering. */
  function Place(decipher: bool, i: nat): nat
    requires i < ROUNDS
  {
    if decipher then 15 - i else i
  }

  /** The two raw words of round r stand at its place. */
  ghost predicate Placed<W>(t: KeyFrame<W>, bit: nat -> bool, decipher: bool, kn: seq<W>, r: nat)
    requires InRange(t) && |kn| == 32 && r < ROUNDS
  {
    var s := Rotated(Selected(t, bit), t.rotation(r));
    var m := 2 * Place(decipher, r);
    kn[m] == Packed(t, s, 0, 24) && kn[m + 1] == Packed(t, s, 24, 24)
  }

  ghost predicate PlacedUpTo<W>(t: KeyFrame<W>, bit: nat -> bool, decipher: bool, kn: seq<W>, n: nat)
    requires InRange(t)
  {
    |kn| == 32 && n <= ROUNDS && forall r: nat | r < n :: Placed(t, bit, decipher, kn, r)
  }

  lemma PlaceNext<W>(t: KeyFrame<W>, bit: nat -> bool, decipher: bool, kn: seq<W>, i: nat, x: W, y: W)
    requires InRange(t) && i < ROUNDS && PlacedUpTo(t, bit, decipher, kn, i)
    requires var s := Rotated(Selected(t, bit), t.rotation(i)); x == Packed(t, s, 0, 24) && y == Packed(t, s, 24, 24)
    ensures var m := 2 * Place(decipher, i); PlacedUpTo(t, bit, decipher, kn[m := x][m + 1 := y], i + 1)
  {
    var m := 2 * Place(decipher, i);
    var kn' := kn[m := x][m + 1 := y];
    forall r: nat | r < i + 1 ensures Placed(t, bit, decipher, kn', r) {
      assert r < i ==> Placed(t, bit, decipher, kn, r) && Place(decipher, r) != Place(decipher, i);
    }
  }

  method DesKey<W(0)>(t: KeyFrame<W>, bit: nat -> bool, decipher: bool) returns (ks: seq<Halves<W>>)
    requires InRange(t)
    ensures ks == if decipher then Reversed(Schedule(t, bit)) else Schedule(t, bit)
  {
    var pc1m := SelectBits(t, bit);
    var pcr := new bool[56];
    var kn := new W[32];
    for i := 0 to 16
      invariant pc1m[..] == Selected(t, bit) && fresh(pcr) && fresh(kn)
      invariant PlacedUpTo(t, bit, decipher, kn[..], i)
    {
      var m := 2 * Place(decipher, i);
      RotateBits(pc1m, t.rotation(i), pcr);
      var x, y := PackBits(t, pcr);
      PlaceNext(t, bit, decipher, kn[..], i, x, y);
      kn[m], kn[m + 1] := x, y;
    }
    ks := CooKey(t, kn[..]);
    AllPlaced(t, bit, decipher, kn[..], ks);
    ScheduleInOrder(t, bit, decipher, ks);
  }

  lemma AllPlaced<W>(t: KeyFrame<W>, bit: nat -> bool, decipher: bool, kn: seq<W>, ks: seq<Halves<W>>)
    requires InRange(t) && PlacedUpTo(t, bit, decipher, kn, 16)
    requires |ks| == 16 && forall j: nat | j < 16 :: ks[j] == t.cook(kn[2 * j], kn[2 * j + 1])
    ensures forall j: nat | j < 16 :: ks[j] == RoundKey(t, bit, Place(decipher, j))
  {
    forall j: nat | j < 16 ensures ks[j] == RoundKey(t, bit, Place(decipher, j)) {
      assert Placed(t, bit, decipher, kn, Place(decipher, j));
      assert Place(decipher, Place(decipher, j)) == j;
    }
  }

  lemma ScheduleInOrder<W>(t: KeyFrame<W>, bit: nat -> bool, decipher: bool, ks: seq<Halves<W>>)
    requires InRange(t) && |ks| == 16 && forall j: nat | j < 16 :: ks[j] == RoundKey(t, bit, Place(decipher, j))
    ensures ks == if decipher then Reversed(Schedule(t, bit)) else Schedule(t, bit)
  {
    if decipher {
      IsReversed(Schedule(t, bit), ks);
    }
  }

  method CooKey<W>(t: KeyFrame<W>, raw: seq<W>) returns (ks: seq<Halves<W>>)
    requires |raw| == 32
    ensures |ks| == 16 && forall j: nat | j < 16 :: ks[j] == t.cook(raw[2 * j], raw[2 * j + 1])
  {
    ks := [];
    for i := 0 to 16
      invariant |ks| == i && forall j: nat | j < i :: ks[j] == t.cook(raw[2 * j], raw[2 * j + 1])
    {
      ks := ks + [t.cook(raw[2 * i], raw[2 * i + 1])];
    }
  }

  /* ---- The initial and final permutations ---- */

  type Block = Halves<bv32>

  function Work4(l: bv32, r: bv32): bv32 {
    ((l >> 4) ^ r) & 0x0f0f0f0f
  }

  function Up4(l: bv32, w: bv32): bv32 {
    l ^ (w << 4)
  }

  function Work16(l: bv32, r: bv32): bv32 {
    ((l >> 16) ^ r) & 0x0000ffff
  }

  function Up16(l: bv32, w: bv32): bv32 {
    l ^ (w << 16)
  }

  function Work2(l: bv32, r: bv32): bv32 {
    ((l >> 2) ^ r) & 0x33333333
  }

  function Up2(l: bv32, w: bv32): bv32 {
    l ^ (w << 2)
  }

  function Work8(l: bv32, r: bv32): bv32 {
    ((l >> 8) ^ r) & 0x00ff00ff
  }

  function Up8(l: bv32, w: bv32): bv32 {
    l ^ (w << 8)
  }

  function WorkOdd(l: bv32, r: bv32): bv32 {
    (l ^ r) & 0xaaaaaaaa
  }

  /** `work` finds the bits in which two halves differ at matching places; `up` and `xor` exchange them. */
  function Exchange<W>(work: (W, W) -> W, up: (W, W) -> W, xor: (W, W) -> W, b: Halves<W>): Halves<W> {
    var w := work(b.l, b.r);
    Halves(up(b.l, w), xor(b.r, w))
  }

  ghost predicate Exchanging<W(!new)>(work: (W, W) -> W, up: (W, W) -> W, xor: (W, W) -> W) {
    && (forall l, r :: work(up(l, work(l, r)), xor(r, work(l, r))) == work(l, r))
    && (forall l, w :: up(up(l, w), w) == l)
    && (forall r, w :: xor(xor(r, w), w) == r)
  }

  lemma ExchangeTwice<W(!new)>(work: (W, W) -> W, up: (W, W) -> W, xor: (W, W) -> W, b: Halves<W>)
    requires Exchanging(work, up, xor)
    ensures Exchange(work, up, xor, Exchange(work, up, xor, b)) == b
  {
  }

  lemma Exchanging4()
    ensures Exchanging(Work4, Up4, Xor32)
  {
    forall l: bv32, r: bv32 ensures Work4(Up4(l, Work4(l, r)), Xor32(r, Work4(l, r))) == Work4(l, r) {
      WorkAgain4(l, r);
    }
    forall l: bv32, w: bv32 ensures Up4(Up4(l, w), w) == l {
      UpTwice4(l, w);
    }
    forall l: bv32, w: bv32 {
      XorTwice(l, w);
    }
  }

  lemma WorkAgain4(l: bv32, r: bv32)
    ensures Work4(Up4(l, Work4(l, r)), Xor32(r, Work4(l, r))) == Work4(l, r)
  {
  }

  lemma UpTwice4(l: bv32, w: bv32)
    ensures Up4(Up4(l, w), w) == l
  {
  }

  lemma Exchanging16()
    ensures Exchanging(Work16, Up16, Xor32)
  {
    forall l: bv32, r: bv32 ensures Work16(Up16(l, Work16(l, r)), Xor32(r, Work16(l, r))) == Work16(l, r) {
      WorkAgain16(l, r);
    }
    forall l: bv32, w: bv32 ensures Up16(Up16(l, w), w) == l {
      UpTwice16(l, w);
    }
    forall l: bv32, w: bv32 {
      XorTwice(l, w);
    }
  }

  lemma WorkAgain16(l: bv32, r: bv32)
    ensures Work16(Up16(l, Work16(l, r)), Xor32(r, Work16(l, r))) == Work16(l, r)
  {
  }

  lemma UpTwice16(l: bv32, w: bv32)
    ensures Up16(Up16(l, w), w) == l
  {
  }

  lemma Exchanging2()
    ensures Exchanging(Work2, Up2, Xor32)
  {
    forall l: bv32, r: bv32 ensures Work2(Up2(l, Work2(l, r)), Xor32(r, Work2(l, r))) == Work2(l, r) {
      WorkAgain2(l, r);
    }
    forall l: bv32, w: bv32 ensures Up2(Up2(l, w), w) == l {
      UpTwice2(l, w);
    }
    forall l: bv32, w: bv32 {
      XorTwice(l, w);
    }
  }

  lemma WorkAgain2(l: bv32, r: bv32)
    ensures Work2(Up2(l, Work2(l, r)), Xor32(r, Work2(l, r))) == Work2(l, r)
  {
  }

  lemma UpTwice2(l: bv32, w: bv32)
    ensures Up2(Up2(l, w), w) == l
  {
  }

  lemma Exchanging8()
    ensures Exchanging(Work8, Up8, Xor32)
  {
    forall l: bv32, r: bv32 ensures Work8(Up8(l, Work8(l, r)), Xor32(r, Work8(l, r))) == Work8(l, r) {
      WorkAgain8(l, r);
    }
    forall l: bv32, w: bv32 ensures Up8(Up8(l, w), w) == l {
      UpTwice8(l, w);
    }
    forall l: bv32, w: bv32 {
      XorTwice(l, w);
    }
  }

  lemma WorkAgain8(l: bv32, r: bv32)
    ensures Work8(Up8(l, Work8(l, r)), Xor32(r, Work8(l, r))) == Work8(l, r)
  {
  }

  lemma UpTwice8(l: bv32, w: bv32)
    ensures Up8(Up8(l, w), w) == l
  {
  }

  lemma ExchangingOdd()
    ensures Exchanging(WorkOdd, Xor32, Xor32)
  {
    forall l: bv32, r: bv32 ensures WorkOdd(Xor32(l, WorkOdd(l, r)), Xor32(r, WorkOdd(l, r))) == WorkOdd(l, r) {
      WorkAgainOdd(l, r);
    }
    forall l: bv32, w: bv32 {
      XorTwice(l, w);
    }
  }

  lemma WorkAgainOdd(l: bv32, r: bv32)
    ensures WorkOdd(Xor32(l, WorkOdd(l, r)), Xor32(r, WorkOdd(l, r))) == WorkOdd(l, r)
  {
  }

  function Exchange4(b: Block): Block {
    Exchange(Work4, Up4, Xor32, b)
  }

  function Exchange16(b: Block): Block {
    Exchange(Work16, Up16, Xor32, b)
  }

  /** These two act with the halves in each other's place. */
  function Exchange2(b: Block): Block {
    Swapped(Exchange(Work2, Up2, Xor32, Swapped(b)))
  }

  function Exchange8(b: Block): Block {
    Swapped(Exchange(Work8, Up8, Xor32, Swapped(b)))
  }

  function ExchangeOdd(b: Block): Block {
    Exchange(WorkOdd, Xor32, Xor32, b)
  }

  lemma ExchangesCancel(b: Block)
    ensures Exchange4(Exchange4(b)) == b && Exchange16(Exchange16(b)) == b
    ensures Exchange2(Exchange2(b)) == b && Exchange8(Exchange8(b)) == b
    ensures ExchangeOdd(ExchangeOdd(b)) == b
  {
    Exchanging4();
    Exchanging16();
    Exchanging2();
    Exchanging8();
    ExchangingOdd();
    ExchangeTwice(Work4, Up4, Xor32, b);
    ExchangeTwice(Work16, Up16, Xor32, b);
    ExchangeTwice(Work2, Up2, Xor32, Swapped(b));
    ExchangeTwice(Work8, Up8, Xor32, Swapped(b));
    ExchangeTwice(WorkOdd, Xor32, Xor32, b);
  }

  function RotateRight(b: Block): Block {
    Halves(b.l, Rol(b.r, 1))
  }

  function RotateLeft(b: Block): Block {
    Halves(Rol(b.l, 1), b.r)
  }

  function UnrotateRight(b: Block): Block {
    Halves(b.l, Ror(b.r, 1))
  }

  function UnrotateLeft(b: Block): Block {
    Halves(Ror(b.l, 1), b.r)
  }

  lemma RotationsCancel(b: Block)
    ensures UnrotateRight(RotateRight(b)) == b && RotateRight(UnrotateRight(b)) == b
    ensures UnrotateLeft(RotateLeft(b)) == b && RotateLeft(UnrotateLeft(b)) == b
  {
    RorRol(b.l, 1);
    RolRor(b.l, 1);
    RorRol(b.r, 1);
    RolRor(b.r, 1);
  }

  /** Five involutions and two rotations, and the way back. */
  function Composed<S>(a: S -> S, b: S -> S, c: S -> S, d: S -> S, e: S -> S, f: S -> S, g: S -> S): S -> S {
    (s: S) => g(f(e(d(c(b(a(s)))))))
  }

  lemma ComposedInverse<S(!new)>(a: S -> S, b: S -> S, c: S -> S, d: S -> S, e: S -> S, e': S -> S, f: S -> S, g: S -> S, g': S -> S)
    requires MutuallyInverse(a, a) && MutuallyInverse(b, b) && MutuallyInverse(c, c) && MutuallyInverse(d, d)
    requires MutuallyInverse(e, e') && MutuallyInverse(f, f) && MutuallyInverse(g, g')
    ensures MutuallyInverse(Composed(a, b, c, d, e, f, g), Composed(g', f, e', d, c, b, a))
  {
    forall s ensures Composed(g', f, e', d, c, b, a)(Composed(a, b, c, d, e, f, g)(s)) == s {
      ComposedIs(a, b, c, d, e, f, g, s);
      ComposedIs(g', f, e', d, c, b, a, g(f(e(d(c(b(a(s))))))));
    }
    forall s ensures Composed(a, b, c, d, e, f, g)(Composed(g', f, e', d, c, b, a)(s)) == s {
      ComposedIs(g', f, e', d, c, b, a, s);
      ComposedIs(a, b, c, d, e, f, g, a(b(c(d(e'(f(g'(s))))))));
    }
  }

  lemma ComposedIs<S>(a: S -> S, b: S -> S, c: S -> S, d: S -> S, e: S -> S, f: S -> S, g: S -> S, s: S)
    ensures Composed(a, b, c, d, e, f, g)(s) == g(f(e(d(c(b(a(s)))))))
  {
  }

  function Initial(): Block -> Block {
    Composed(Exchange4, Exchange16, Exchange2, Exchange8, RotateRight, ExchangeOdd, RotateLeft)
  }

  function InverseInitial(): Block -> Block {
    Composed(UnrotateLeft, ExchangeOdd, UnrotateRight, Exchange8, Exchange2, Exchange16, Exchange4)
  }

  lemma PermutationsInverse()
    ensures MutuallyInverse(Initial(), InverseInitial())
  {
    forall b: Block ensures Exchange4(Exchange4(b)) == b && Exchange16(Exchange16(b)) == b {
      ExchangesCancel(b);
    }
    forall b: Block ensures Exchange2(Exchange2(b)) == b && Exchange8(Exchange8(b)) == b {
      ExchangesCancel(b);
    }
    forall b: Block ensures ExchangeOdd(ExchangeOdd(b)) == b {
      ExchangesCancel(b);
    }
    forall b: Block ensures UnrotateRight(RotateRight(b)) == b && RotateRight(UnrotateRight(b)) == b {
      RotationsCancel(b);
    }
    forall b: Block ensures UnrotateLeft(RotateLeft(b)) == b && RotateLeft(UnrotateLeft(b)) == b {
      RotationsCancel(b);
    }
    ComposedInverse(Exchange4, Exchange16, Exchange2, Exchange8, RotateRight, UnrotateRight, ExchangeOdd, RotateLeft, UnrotateLeft);
  }

  /* ---- The initial permutation is that of FIPS 46-3 ---- */

  /**
    The bits in place n of the eight bytes of a block, from the last byte to the first; place 0 is the last
    of a byte, so that place 6 gives the bits numbered 58, 50, 42, ..., 2.
   */
  function Column(b: Block, n: bv32): bv32
    requires n <= 7
  {
    (((b.r >> n) & 1) << 7) | (((b.r >> (n + 8)) & 1) << 6) | (((b.r >> (n + 16)) & 1) << 5) | (((b.r >> (n + 24)) & 1) << 4)
    | (((b.l >> n) & 1) << 3) | (((b.l >> (n + 8)) & 1) << 2) | (((b.l >> (n + 16)) & 1) << 1) | ((b.l >> (n + 24)) & 1)
  }

  /** The two halves of the permutation table IP: its rows begin with bits 58, 60, 62, 64 and 57, 59, 61, 63. */
  function NumberedLeft(b: Block): bv32 {
    (Column(b, 6) << 24) | (Column(b, 4) << 16) | (Column(b, 2) << 8) | Column(b, 0)
  }

  function NumberedRight(b: Block): bv32 {
    (Column(b, 7) << 24) | (Column(b, 5) << 16) | (Column(b, 3) << 8) | Column(b, 1)
  }

  function Written4(b: Block): Block {
    var w := ((b.l >> 4) ^ b.r) & 0x0f0f0f0f;
    Halves(b.l ^ (w << 4), b.r ^ w)
  }

  function Written16(b: Block): Block {
    var w := ((b.l >> 16) ^ b.r) & 0x0000ffff;
    Halves(b.l ^ (w << 16), b.r ^ w)
  }

  function Written2(b: Block): Block {
    var w := ((b.r >> 2) ^ b.l) & 0x33333333;
    Halves(b.l ^ w, b.r ^ (w << 2))
  }

  function Written8(b: Block): Block {
    var w := ((b.r >> 8) ^ b.l) & 0x00ff00ff;
    Halves(b.l ^ w, b.r ^ (w << 8))
  }

  function WrittenRight(b: Block): Block {
    Halves(b.l, (b.r << 1) | (b.r >> 31))
  }

  function WrittenOdd(b: Block): Block {
    var w := (b.l ^ b.r) & 0xaaaaaaaa;
    Halves(b.l ^ w, b.r ^ w)
  }

  lemma Exchange4Is(b: Block)
    ensures Exchange4(b) == Written4(b)
  {
  }

  lemma Exchange16Is(b: Block)
    ensures Exchange16(b) == Written16(b)
  {
  }

  lemma Exchange2Is(b: Block)
    ensures Exchange2(b) == Written2(b)
  {
  }

  lemma Exchange8Is(b: Block)
    ensures Exchange8(b) == Written8(b)
  {
  }

  lemma RotateRightIs(b: Block)
    ensures RotateRight(b) == WrittenRight(b)
  {
  }

  lemma ExchangeOddIs(b: Block)
    ensures ExchangeOdd(b) == WrittenOdd(b)
  {
  }

  lemma WrittenIsNumbered(b: Block)
    ensures WrittenOdd(WrittenRight(Written8(Written2(Written16(Written4(b)))))) == Halves(NumberedLeft(b), Rol(NumberedRight(b), 1))
  {
  }

  /** The swap-moves compute the permutation IP, with both halves rotated left by one for the round function. */
  lemma InitialIsNumbered(b: Block)
    ensures Initial()(b) == Halves(Rol(NumberedLeft(b), 1), Rol(NumberedRight(b), 1))
  {
    ComposedIs(Exchange4, Exchange16, Exchange2, Exchange8, RotateRight, ExchangeOdd, RotateLeft, b);
    var b1 := Exchange4(b);
    var b2 := Exchange16(b1);
    var b3 := Exchange2(b2);
    var b4 := Exchange8(b3);
    Exchange4Is(b);
    Exchange16Is(b1);
    Exchange2Is(b2);
    Exchange8Is(b3);
    RotateRightIs(b4);
    ExchangeOddIs(RotateRight(b4));
    WrittenIsNumbered(b);
  }

  lemma WorkOddSymmetric(l: bv32, r: bv32)
    ensures WorkOdd(l, r) == WorkOdd(r, l)
  {
  }

  method InitialPermutation(block: Block) returns (b: Block)
    ensures b == Initial()(block)
  {
    var leftt, right := block.l, block.r;
    var work := Work4(leftt, right);
    right := Xor32(right, work);
    leftt := Up4(leftt, work);
    work := Work16(leftt, right);
    right := Xor32(right, work);
    leftt := Up16(leftt, work);
    work := Work2(right, leftt);
    leftt := Xor32(leftt, work);
    right := Up2(right, work);
    work := Work8(right, leftt);
    leftt := Xor32(leftt, work);
    right := Up8(right, work);
    right := Rol(right, 1);
    work := WorkOdd(leftt, right);
    leftt := Xor32(leftt, work);
    right := Xor32(right, work);
    leftt := Rol(leftt, 1);
    b := Halves(leftt, right);
    ComposedIs(Exchange4, Exchange16, Exchange2, Exchange8, RotateRight, ExchangeOdd, RotateLeft, block);
  }

  /** Leaves the halves exchanged. */
  method FinalPermutation(leftt0: bv32, right0: bv32) returns (b: Block)
    ensures b == InverseInitial()(Halves(right0, leftt0))
  {
    var leftt, right := leftt0, right0;
    right := Ror(right, 1);
    var work := WorkOdd(leftt, right);
    WorkOddSymmetric(leftt, right);
    leftt := Xor32(leftt, work);
    right := Xor32(right, work);
    leftt := Ror(leftt, 1);
    work := Work8(leftt, right);
    right := Xor32(right, work);
    leftt := Up8(leftt, work);
    work := Work2(leftt, right);
    right := Xor32(right, work);
    leftt := Up2(leftt, work);
    work := Work16(right, leftt);
    leftt := Xor32(leftt, work);
    right := Up16(right, work);
    work := Work4(right, leftt);
    leftt := Xor32(leftt, work);
    right := Up4(right, work);
    b := Halves(right, leftt);
    ComposedIs(UnrotateLeft, ExchangeOdd, UnrotateRight, Exchange8, Exchange2, Exchange16, Exchange4, Halves(right0, leftt0));
  }

  /* ---- The round function ---- */

  function SixBits(w: bv32): bv8 {
    (w & 0x3f) as bv8
  }

  function Chunk(w: bv32, n: bv32): bv8
    requires n <= 24
  {
    SixBits(w >> n)
  }

  function Xor4(a: bv32, b: bv32, c: bv32, d: bv32): bv32 {
    Xor32(Xor32(Xor32(a, b), c), d)
  }

  /** The substitutions the even-numbered and odd-numbered boxes make. */
  function OddBoxes(w: bv32): bv32 {
    Xor4(SP7(Chunk(w, 0)), SP5(Chunk(w, 8)), SP3(Chunk(w, 16)), SP1(Chunk(w, 24)))
  }

  function EvenBoxes(w: bv32): bv32 {
    Xor4(SP8(Chunk(w, 0)), SP6(Chunk(w, 8)), SP4(Chunk(w, 16)), SP2(Chunk(w, 24)))
  }

  function F(k: Halves<bv32>, x: bv32): bv32 {
    Xor32(OddBoxes(Xor32(Ror(x, 4), k.l)), EvenBoxes(Xor32(x, k.r)))
  }

  lemma RawAssociative(x: bv32, y: bv32, z: bv32)
    ensures Xor32(x ^ y, z) == Xor32(x, y ^ z)
  {
  }

  lemma Associative(x: bv32, y: bv32, z: bv32)
    ensures Xor32(Xor32(x, y), z) == Xor32(x, Xor32(y, z))
  {
    RawAssociative(x, y, z);
    Xor32Is(x, y);
    Xor32Is(y, z);
  }

  method HalfRound(k: Halves<bv32>, x: bv32, y: bv32) returns (r: bv32)
    ensures r == Xor32(x, F(k, y))
  {
    var work := Xor32(Ror(y, 4), k.l);
    r := Xor32(x, OddBoxes(work));
    work := Xor32(y, k.r);
    r := Xor32(r, EvenBoxes(work));
    Associative(x, OddBoxes(Xor32(Ror(y, 4), k.l)), EvenBoxes(Xor32(y, k.r)));
  }

  /**
    The rounds under the keys from the `i`-th on take `s` to `goal`.  Stated of every block equal to `s`, so that the
    recursion is unfolded in the step, which names it, and not in the loop.
   */
  ghost predicate Remaining(ks: seq<Halves<bv32>>, i: nat, s: Block, goal: Block) {
    i <= |ks| && forall q: Block | q == s :: Rounds(Xor32, F, ks[i..], q) == goal
  }

  lemma NoneDone(ks: seq<Halves<bv32>>, s: Block)
    ensures Remaining(ks, 0, s, Rounds(Xor32, F, ks, s))
  {
    assert ks[0..] == ks;
  }

  lemma TwoDone(ks: seq<Halves<bv32>>, i: nat, s: Block, goal: Block)
    requires i + 2 <= |ks| && Remaining(ks, i, s, goal)
    ensures
      var l := Xor32(s.l, F(ks[i], s.r));
      Remaining(ks, i + 2, Halves(l, Xor32(s.r, F(ks[i + 1], l))), goal)
  {
    assert Rounds(Xor32, F, ks[i..], s) == goal;
    assert ks[i..][2..] == ks[i + 2..];
    TwoRounds(Xor32, F, ks[i..], s);
  }

  lemma AllDone(ks: seq<Halves<bv32>>, s: Block, goal: Block)
    requires Remaining(ks, |ks|, s, goal)
    ensures s == goal
  {
    assert Rounds(Xor32, F, ks[|ks|..], s) == goal;
  }

  method DoubleRound(ks: seq<Halves<bv32>>, i: nat, s: Block, ghost goal: Block) returns (t: Block)
    requires i + 2 <= |ks| && Remaining(ks, i, s, goal)
    ensures Remaining(ks, i + 2, t, goal)
  {
    TwoDone(ks, i, s, goal);
    var leftt := HalfRound(ks[i], s.l, s.r);
    var right := HalfRound(ks[i + 1], s.r, leftt);
    t := Halves(leftt, right);
  }

  /** Sixteen rounds, two to a turn of the loop. */
  method SixteenRounds(ks: seq<Halves<bv32>>, s: Block, ghost goal: Block) returns (t: Block)
    requires |ks| == ROUNDS && Remaining(ks, 0, s, goal)
    ensures t == goal
  {
    t := s;
    for i := 0 to 8
      invariant Remaining(ks, 2 * i, t, goal)
    {
      t := DoubleRound(ks, 2 * i, t, goal);
    }
    AllDone(ks, t, goal);
  }

  /** The transformation of a block under sixteen round keys. */
  function Enciphered(ks: seq<Halves<bv32>>, b: Block): Block {
    Transformed(Initial(), InverseInitial(), Xor32, F, ks, b)
  }

  method DesFunc(block: Block, ks: seq<Halves<bv32>>) returns (b: Block)
    requires |ks| == ROUNDS
    ensures b == Enciphered(ks, block)
  {
    var s := InitialPermutation(block);
    NoneDone(ks, s);
    s := SixteenRounds(ks, s, Rounds(Xor32, F, ks, s));
    b := FinalPermutation(s.l, s.r);
  }

  lemma ReversedKeysDecipher(ks: seq<Halves<bv32>>, b: Block)
    ensures Enciphered(Reversed(ks), Enciphered(ks, b)) == b
    ensures Enciphered(ks, Enciphered(Reversed(ks), b)) == b
  {
    PermutationsInverse();
    forall x: bv32, y: bv32 ensures Xor32(Xor32(x, y), y) == x {
      XorTwice(x, y);
    }
    ReversedKeysInvert(Initial(), InverseInitial(), Xor32, F, ks, b);
    ReversedKeysInvert(Initial(), InverseInitial(), Xor32, F, Reversed(ks), b);
    ReversedTwice(ks);
  }

  /* ---- The key schedule of the standard ---- */

  function Pc1(j: nat): nat {
    if j < 7 then (if j < 3 then (if j < 1 then 56 else (if j < 2 then 48 else 40)) else (if j < 5 then (if j < 4 then 32 else 24) else (if j < 6 then 16 else 8)))
    else if j < 14 then (if j < 10 then (if j < 8 then 0 else (if j < 9 then 57 else 49)) else (if j < 12 then (if j < 11 then 41 else 33) else (if j < 13 then 25 else 17)))
    else if j < 21 then (if j < 17 then (if j < 15 then 9 else (if j < 16 then 1 else 58)) else (if j < 19 then (if j < 18 then 50 else 42) else (if j < 20 then 34 else 26)))
    else if j < 28 then (if j < 24 then (if j < 22 then 18 else (if j < 23 then 10 else 2)) else (if j < 26 then (if j < 25 then 59 else 51) else (if j < 27 then 43 else 35)))
    else if j < 35 then (if j < 31 then (if j < 29 then 62 else (if j < 30 then 54 else 46)) else (if j < 33 then (if j < 32 then 38 else 30) else (if j < 34 then 22 else 14)))
    else if j < 42 then (if j < 38 then (if j < 36 then 6 else (if j < 37 then 61 else 53)) else (if j < 40 then (if j < 39 then 45 else 37) else (if j < 41 then 29 else 21)))
    else if j < 49 then (if j < 45 then (if j < 43 then 13 else (if j < 44 then 5 else 60)) else (if j < 47 then (if j < 46 then 52 else 44) else (if j < 48 then 36 else 28)))
    else (if j < 52 then (if j < 50 then 20 else (if j < 51 then 12 else 4)) else (if j < 54 then (if j < 53 then 27 else 19) else (if j < 55 then 11 else 3)))
  }

  function TotalRotation(j: nat): nat {
    if j < 8 then (if j < 4 then (if j < 2 then (if j < 1 then 1 else 2) else (if j < 3 then 4 else 6)) else (if j < 6 then (if j < 5 then 8 else 10) else (if j < 7 then 12 else 14)))
    else (if j < 12 then (if j < 10 then (if j < 9 then 15 else 17) else (if j < 11 then 19 else 21)) else (if j < 14 then (if j < 13 then 23 else 25) else (if j < 15 then 27 else 28)))
  }

  function Pc2(j: nat): nat {
    if j < 6 then (if j < 3 then (if j < 1 then 13 else (if j < 2 then 16 else 10)) else (if j < 4 then 23 else (if j < 5 then 0 else 4)))
    else if j < 12 then (if j < 9 then (if j < 7 then 2 else (if j < 8 then 27 else 14)) else (if j < 10 then 5 else (if j < 11 then 20 else 9)))
    else if j < 18 then (if j < 15 then (if j < 13 then 22 else (if j < 14 then 18 else 11)) else (if j < 16 then 3 else (if j < 17 then 25 else 7)))
    else if j < 24 then (if j < 21 then (if j < 19 then 15 else (if j < 20 then 6 else 26)) else (if j < 22 then 19 else (if j < 23 then 12 else 1)))
    else if j < 30 then (if j < 27 then (if j < 25 then 40 else (if j < 26 then 51 else 30)) else (if j < 28 then 36 else (if j < 29 then 46 else 54)))
    else if j < 36 then (if j < 33 then (if j < 31 then 29 else (if j < 32 then 39 else 50)) else (if j < 34 then 44 else (if j < 35 then 32 else 47)))
    else if j < 42 then (if j < 39 then (if j < 37 then 43 else (if j < 38 then 48 else 38)) else (if j < 40 then 55 else (if j < 41 then 33 else 52)))
    else (if j < 45 then (if j < 43 then 45 else (if j < 44 then 41 else 49)) else (if j < 46 then 35 else (if j < 47 then 28 else 31)))
  }

  /** The left shifts of the standard's schedule of iterations. */
  function Shift(i: nat): nat {
    if i == 0 || i == 1 || i == 8 || i >= 15 then 1 else 2
  }

  function MarkBit(w: bv32, j: nat): bv32 {
    w | BigByte(j)
  }

  /** The bits of a 24-bit word, the highest first. */
  function BigByte(j: nat): bv32 {
    if j == 0 then 0x800000 else BigByte(j - 1) >> 1
  }

  function Cook(raw0: bv32, raw1: bv32): Halves<bv32> {
    Halves(((raw0 & 0x00fc0000) << 6) | ((raw0 & 0x00000fc0) << 10) | ((raw1 & 0x00fc0000) >> 10) | ((raw1 & 0x00000fc0) >> 6),
           ((raw0 & 0x0003f000) << 12) | ((raw0 & 0x0000003f) << 16) | ((raw1 & 0x0003f000) >> 4) | (raw1 & 0x0000003f))
  }

  function Frame(): KeyFrame<bv32> {
    KeyFrame(Pc1, TotalRotation, Pc2, 0, MarkBit, Cook)
  }

  lemma FrameInRange()
    ensures InRange(Frame())
  {
  }

  /** Bit m of a byte, counted from the highest. */
  function BitOf(b: Byte, m: nat): bool {
    if m == 0 then b & 0x80 == 0x80 else if m == 1 then b & 0x40 == 0x40
    else if m == 2 then b & 0x20 == 0x20 else if m == 3 then b & 0x10 == 0x10
    else if m == 4 then b & 0x08 == 0x08 else if m == 5 then b & 0x04 == 0x04
    else if m == 6 then b & 0x02 == 0x02 else b & 0x01 == 0x01
  }

  function KeyBit(key: seq<Byte>): nat -> bool
    requires |key| == 8
  {
    (l: nat) => l < 64 && BitOf(key[l / 8], l % 8)
  }

  /** The rotations of the source are those of the standard's two registers, taken together. */
  lemma RotationsOfTheStandard(key: seq<Byte>, i: nat)
    requires |key| == 8 && i < ROUNDS
    ensures InRange(Frame())
    ensures Registers(Frame(), Shift, KeyBit(key), i + 1) == Rotated(Selected(Frame(), KeyBit(key)), TotalRotation(i))
  {
    FrameInRange();
    RegistersAre(Frame(), Shift, KeyBit(key), i);
  }

  /* ---- DES ---- */

  type Keys = seq<Halves<bv32>>

  datatype ScheduledKey = ScheduledKey(ek: Keys, dk: Keys)

  function KeySchedule(key: seq<Byte>): (ks: Keys)
    requires |key| == 8
    ensures |ks| == ROUNDS
  {
    FrameInRange();
    Schedule(Frame(), KeyBit(key))
  }

  /** The deciphering keys are the enciphering keys from the end. */
  ghost predicate Scheduled(key: seq<Byte>, skey: ScheduledKey)
    requires |key| == 8
  {
    skey.ek == KeySchedule(key) && skey.dk == Reversed(KeySchedule(key))
  }

  method MakeKeys(key: seq<Byte>, decipher: bool) returns (ks: Keys)
    requires |key| == 8
    ensures ks == if decipher then Reversed(KeySchedule(key)) else KeySchedule(key)
  {
    FrameInRange();
    ks := DesKey(Frame(), KeyBit(key), decipher);
  }

  method DesSetup(key: seq<Byte>, numRounds: int) returns (status: Status, skey: ScheduledKey)
    ensures status ==
      if numRounds != 0 && numRounds != 16 then InvalidRounds else if |key| != 8 then InvalidKeySize else Ok
    ensures status == Ok ==> Scheduled(key, skey)
  {
    skey := ScheduledKey([], []);
    if numRounds != 0 && numRounds != 16 {
      return InvalidRounds, skey;
    }
    if |key| != 8 {
      return InvalidKeySize, skey;
    }
    var ek := MakeKeys(key, false);
    var dk := MakeKeys(key, true);
    skey := ScheduledKey(ek, dk);
    status := Ok;
  }

  function LoadBlock(p: seq<Byte>): Block
    requires |p| == 8
  {
    Halves(Load32H(p[0..4]), Load32H(p[4..8]))
  }

  function StoreBlock(b: Block): (p: seq<Byte>)
    ensures |p| == 8
  {
    Store32H(b.l) + Store32H(b.r)
  }

  lemma LoadStoreBlock(b: Block, p: seq<Byte>)
    requires |p| == 8
    ensures LoadBlock(StoreBlock(b)) == b && StoreBlock(LoadBlock(p)) == p
  {
    BothByteOrders();
    PairBlocks(Load32H, Store32H, Pair(b.l, b.r), p);
    assert StoreBlock(b) == StorePair(Store32H, Pair(b.l, b.r));
  }

  function DesBlock(ks: Keys, p: seq<Byte>): (q: seq<Byte>)
    requires |p| == 8
    ensures |q| == 8
  {
    StoreBlock(Enciphered(ks, LoadBlock(p)))
  }

  method DesEcbEncrypt(pt: seq<Byte>, skey: ScheduledKey) returns (ct: seq<Byte>)
    requires |pt| == 8 && |skey.ek| == ROUNDS
    ensures ct == DesBlock(skey.ek, pt)
  {
    var work := DesFunc(LoadBlock(pt), skey.ek);
    ct := StoreBlock(work);
  }

  method DesEcbDecrypt(ct: seq<Byte>, skey: ScheduledKey) returns (pt: seq<Byte>)
    requires |ct| == 8 && |skey.dk| == ROUNDS
    ensures pt == DesBlock(skey.dk, ct)
  {
    var work := DesFunc(LoadBlock(ct), skey.dk);
    pt := StoreBlock(work);
  }

  /** DES decryption inverts encryption for every key and block. */
  lemma DesDecryptInvertsEncrypt(key: seq<Byte>, skey: ScheduledKey, pt: seq<Byte>)
    requires |key| == 8 && Scheduled(key, skey) && |pt| == 8
    ensures DesBlock(skey.dk, DesBlock(skey.ek, pt)) == pt
  {
    var b := LoadBlock(pt);
    LoadStoreBlock(Enciphered(skey.ek, b), pt);
    ReversedKeysDecipher(KeySchedule(key), b);
  }

  /* ---- Triple DES: encipher, decipher, encipher ---- */

  datatype TripleKey = TripleKey(ek: seq<Keys>, dk: seq<Keys>)

  ghost predicate TripleScheduled(key: seq<Byte>, skey: TripleKey)
    requires |key| == 24
  {
    var k1, k2, k3 := KeySchedule(key[..8]), KeySchedule(key[8..16]), KeySchedule(key[16..]);
    skey.ek == [k1, Reversed(k2), k3] && skey.dk == [Reversed(k3), k2, Reversed(k1)]
  }

  method Des3Setup(key: seq<Byte>, numRounds: int) returns (status: Status, skey: TripleKey)
    ensures status ==
      if numRounds != 0 && numRounds != 16 then InvalidRounds else if |key| != 24 then InvalidKeySize else Ok
    ensures status == Ok ==> TripleScheduled(key, skey)
  {
    skey := TripleKey([], []);
    if numRounds != 0 && numRounds != 16 {
      return InvalidRounds, skey;
    }
    if |key| != 24 {
      return InvalidKeySize, skey;
    }
    var ek0 := MakeKeys(key[..8], false);
    var ek1 := MakeKeys(key[8..16], true);
    var ek2 := MakeKeys(key[16..], false);
    var dk2 := MakeKeys(key[..8], true);
    var dk1 := MakeKeys(key[8..16], false);
    var dk0 := MakeKeys(key[16..], true);
    skey := TripleKey([ek0, ek1, ek2], [dk0, dk1, dk2]);
    status := Ok;
  }

  function ThreeTimes(kss: seq<Keys>, b: Block): Block
    requires |kss| == 3
  {
    Enciphered(kss[2], Enciphered(kss[1], Enciphered(kss[0], b)))
  }

  function Des3Block(kss: seq<Keys>, p: seq<Byte>): (q: seq<Byte>)
    requires |kss| == 3 && |p| == 8
    ensures |q| == 8
  {
    StoreBlock(ThreeTimes(kss, LoadBlock(p)))
  }

  method Des3Ecb(p: seq<Byte>, kss: seq<Keys>) returns (q: seq<Byte>)
    requires |p| == 8 && |kss| == 3 && |kss[0]| == |kss[1]| == |kss[2]| == ROUNDS
    ensures q == Des3Block(kss, p)
  {
    var work := DesFunc(LoadBlock(p), kss[0]);
    work := DesFunc(work, kss[1]);
    work := DesFunc(work, kss[2]);
    q := StoreBlock(work);
  }

  /** EDE decryption inverts EDE encryption for every key and block. */
  lemma Des3DecryptInvertsEncrypt(key: seq<Byte>, skey: TripleKey, pt: seq<Byte>)
    requires |key| == 24 && TripleScheduled(key, skey) && |pt| == 8
    ensures Des3Block(skey.dk, Des3Block(skey.ek, pt)) == pt
  {
    var k1, k2, k3 := KeySchedule(key[..8]), KeySchedule(key[8..16]), KeySchedule(key[16..]);
    var b := LoadBlock(pt);
    var b1 := Enciphered(k1, b);
    var b2 := Enciphered(Reversed(k2), b1);
    LoadStoreBlock(Enciphered(k3, b2), pt);
    ReversedKeysDecipher(k1, b);
    ReversedKeysDecipher(k2, b1);
    ReversedKeysDecipher(k3, b2);
  }
}

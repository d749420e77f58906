/** MULTI2 (`NXTservices/multi2.c`): 8-byte blocks and any positive number of rounds. */
module Multi2 {
  import opened Words

  /* ---- The four elementary involutions ---- */

  function F2(y: bv32, k: Quad<bv32>): bv32 {
    var t := y + k.a;
    var t := Rol(t, 1) + t - 1;
    Rol(t, 4) ^ t
  }

  function F3(x: bv32, k: Quad<bv32>): bv32 {
    var t := x + k.b;
    var t := Rol(t, 2) + t + 1;
    var t := Rol(t, 8) ^ t;
    var t := t + k.c;
    var t := Rol(t, 1) - t;
    Rol(t, 16) ^ (x | t)
  }

  function F4(y: bv32, k: Quad<bv32>): bv32 {
    var t := y + k.d;
    Rol(t, 2) + t + 1
  }

  function Pi1(p: Pair): Pair {
    Pair(p.a, Xor32(p.b, p.a))
  }

  function Pi2(p: Pair, k: Quad<bv32>): Pair {
    Pair(Xor32(p.a, F2(p.b, k)), p.b)
  }

  function Pi3(p: Pair, k: Quad<bv32>): Pair {
    Pair(p.a, Xor32(p.b, F3(p.a, k)))
  }

  function Pi4(p: Pair, k: Quad<bv32>): Pair {
    Pair(Xor32(p.a, F4(p.b, k)), p.b)
  }

  /* ---- The frame: four involutions in turn, under two half-keys in turn ---- */

  /** The four elementary steps; all but the first take a half of the key. */
  datatype Steps<!K, !P> = Steps(one: P -> P, two: (P, K) -> P, three: (P, K) -> P, four: (P, K) -> P)

  ghost predicate SelfInverse<K(!new), P(!new)>(o: Steps<K, P>) {
    && (forall p :: o.one(o.one(p)) == p)
    && (forall p, k :: o.two(o.two(p, k), k) == p)
    && (forall p, k :: o.three(o.three(p, k), k) == p)
    && (forall p, k :: o.four(o.four(p, k), k) == p)
  }

  function Group<K, P>(o: Steps<K, P>): (K, P) -> P {
    (k: K, p: P) => o.four(o.three(o.two(o.one(p), k), k), k)
  }

  function Ungroup<K, P>(o: Steps<K, P>): (K, P) -> P {
    (k: K, p: P) => o.one(o.two(o.three(o.four(p, k), k), k))
  }

  /** The first `n` rounds of a group. */
  function Partial<K, P>(o: Steps<K, P>, n: nat, k: K, p: P): P
    requires n < 4
  {
    if n == 0 then p else if n == 1 then o.one(p)
    else if n == 2 then o.two(o.one(p), k) else o.three(o.two(o.one(p), k), k)
  }

  /** `j` applications of `g` under two keys in turn, beginning with `k`. */
  function Alternate<K, P>(g: (K, P) -> P, j: nat, k: K, k': K, p: P): P {
    if j == 0 then p else Alternate(g, j - 1, k', k, g(k, p))
  }

  /** The two halves of the working key. */
  datatype Key<K> = Key(first: K, second: K)

  /** The half in use after `j` groups. */
  function HalfAfter<K>(uk: Key<K>, j: nat): K {
    if j % 2 == 0 then uk.first else uk.second
  }

  /** `n` rounds: whole groups, then the first rounds of one more. */
  function Encrypted<K, P>(o: Steps<K, P>, n: nat, uk: Key<K>, p: P): P {
    Partial(o, n % 4, HalfAfter(uk, n / 4), Alternate(Group(o), n / 4, uk.first, uk.second, p))
  }

  /** Undoing the whole groups among `n` rounds, beginning with the half `k`. */
  function Undone<K, P>(o: Steps<K, P>, n: nat, k: K, k': K, p: P): P {
    Alternate(Ungroup(o), n / 4, k, k', p)
  }

  /**
    What the decryption loop does: it undoes whole groups only, and chooses the half it
    begins with by the parity of the number of rounds.
   */
  function Decrypted<K, P>(o: Steps<K, P>, n: nat, uk: Key<K>, p: P): P {
    if n % 2 == 1 then Undone(o, n, uk.first, uk.second, p) else Undone(o, n, uk.second, uk.first, p)
  }

  lemma GroupIs<K, P>(o: Steps<K, P>, k: K, p: P)
    ensures Group(o)(k, p) == o.four(o.three(o.two(o.one(p), k), k), k)
    ensures Ungroup(o)(k, p) == o.one(o.two(o.three(o.four(p, k), k), k))
  {
  }

  /* ---- Decryption inverts encryption exactly when the number of rounds is a multiple of 8 ---- */

  ghost predicate Inverses<K(!new), P(!new)>(g: (K, P) -> P, h: (K, P) -> P) {
    forall k, p :: h(k, g(k, p)) == p && g(k, h(k, p)) == p
  }

  lemma {:induction false} LastTwo<K, P>(g: (K, P) -> P, m: nat, k: K, k': K, p: P)
    ensures Alternate(g, 2 * m + 2, k, k', p) == g(k', g(k, Alternate(g, 2 * m, k, k', p)))
  {
    assert Alternate(g, 2 * m + 2, k, k', p) == Alternate(g, 2 * m, k, k', g(k', g(k, p)));
    if m > 0 {
      LastTwo(g, m - 1, k, k', g(k', g(k, p)));
      assert Alternate(g, 2 * m, k, k', p) == Alternate(g, 2 * m - 2, k, k', g(k', g(k, p)));
    }
  }

  lemma {:induction false} EvenAlternation<K(!new), P(!new)>(g: (K, P) -> P, h: (K, P) -> P, m: nat, k: K, k': K, p: P)
    requires Inverses(g, h)
    ensures Alternate(h, 2 * m, k', k, Alternate(g, 2 * m, k, k', p)) == p
  {
    if m > 0 {
      LastTwo(g, m - 1, k, k', p);
      EvenAlternation(g, h, m - 1, k, k', p);
    }
  }

  lemma GroupsInverse<K(!new), P(!new)>(o: Steps<K, P>)
    requires SelfInverse(o)
    ensures Inverses(Group(o), Ungroup(o))
  {
    forall k, p ensures Ungroup(o)(k, Group(o)(k, p)) == p && Group(o)(k, Ungroup(o)(k, p)) == p {
      GroupIs(o, k, p);
      GroupIs(o, k, Group(o)(k, p));
      GroupIs(o, k, Ungroup(o)(k, p));
    }
  }

  lemma InvertsAtMultiplesOf8<K(!new), P(!new)>(o: Steps<K, P>, n: nat, uk: Key<K>, p: P)
    requires SelfInverse(o) && n % 8 == 0
    ensures Decrypted(o, n, uk, Encrypted(o, n, uk, p)) == p
  {
    var m := n / 8;
    assert n / 4 == 2 * m && n % 4 == 0 && n % 2 == 0;
    GroupsInverse(o);
    EvenAlternation(Group(o), Ungroup(o), m, uk.first, uk.second, p);
  }

  lemma {:induction false} FixedThroughout<K(!new), P(!new)>(g: (K, P) -> P, h: (K, P) -> P, j: nat, k: K, s: P, y: P)
    requires Inverses(g, h) && g(k, s) == s
    ensures Alternate(g, j, k, k, s) == s
    ensures Alternate(h, j, k, k, y) == s ==> y == s
  {
    if j > 0 {
      FixedThroughout(g, h, j - 1, k, s, h(k, y));
    }
  }

  /** Whether `j` steps exchange the two states, when the first key exchanges them iff x and the second iff x'. */
  function Flips(j: nat, x: bool, x': bool): bool {
    if j == 0 then false else x != Flips(j - 1, x', x)
  }

  /** Under `k` the two states are exchanged, or fixed, as `x` says. */
  ghost predicate Exchanges<K, P>(g: (K, P) -> P, st: bool -> P, k: K, x: bool) {
    forall c: bool :: g(k, st(c)) == st(c != x)
  }

  lemma {:induction false} FlipsOf<K, P>(g: (K, P) -> P, st: bool -> P, j: nat, k: K, x: bool, k': K, x': bool, b: bool)
    requires Exchanges(g, st, k, x) && Exchanges(g, st, k', x')
    ensures Alternate(g, j, k, k', st(b)) == st(b != Flips(j, x, x'))
  {
    if j > 0 {
      FlipsOf(g, st, j - 1, k', x', k, x, b != x);
    }
  }

  lemma {:induction false} OddFlips(j: nat)
    requires j % 2 == 1
    ensures Flips(j, false, true) != Flips(j, true, false)
  {
    if j > 1 {
      OddFlips(j - 2);
      assert Flips(j, false, true) == !Flips(j - 2, false, true);
      assert Flips(j, true, false) == !Flips(j - 2, true, false);
    }
  }

  lemma OddAlternation<K(!new), P(!new)>(g: (K, P) -> P, h: (K, P) -> P, j: nat, fix: K, swap: K, st: bool -> P)
    requires Inverses(g, h) && j % 2 == 1 && Exchanges(g, st, fix, false) && Exchanges(g, st, swap, true)
    ensures Alternate(h, j, swap, fix, Alternate(g, j, fix, swap, st(false))) == st(true)
  {
    forall c: bool ensures h(fix, st(c)) == st(c) && h(swap, st(c)) == st(!c) {
      assert g(fix, st(c)) == st(c) && g(swap, st(!c)) == st(c);
    }
    FlipsOf(g, st, j, fix, false, swap, true, false);
    FlipsOf(h, st, j, swap, true, fix, false, Flips(j, false, true));
    OddFlips(j);
  }

  /** With an odd number of whole groups, decryption begins with the wrong half. */
  lemma OddGroupsFail<K(!new), P(!new)>(o: Steps<K, P>, n: nat, uk: Key<K>, st: bool -> P)
    requires SelfInverse(o) && n % 8 == 4
    requires Exchanges(Group(o), st, uk.first, false) && Exchanges(Group(o), st, uk.second, true)
    ensures Decrypted(o, n, uk, Encrypted(o, n, uk, st(false))) == st(true)
  {
    assert n % 4 == 0 && n % 2 == 0;
    GroupsInverse(o);
    OddAlternation(Group(o), Ungroup(o), n / 4, uk.first, uk.second, st);
  }

  /** With rounds left over, decryption leaves them in place. */
  lemma LeftoverRoundsFail<K(!new), P(!new)>(o: Steps<K, P>, n: nat, k: K, s: P)
    requires SelfInverse(o) && n % 4 != 0 && Group(o)(k, s) == s && Partial(o, n % 4, k, s) != s
    ensures Decrypted(o, n, Key(k, k), Encrypted(o, n, Key(k, k), s)) != s
  {
    GroupsInverse(o);
    FixedThroughout(Group(o), Ungroup(o), n / 4, k, s, Partial(o, n % 4, k, s));
  }

  /* ---- Round by round, and group by group ---- */

  lemma AlternateStep<K, P>(g: (K, P) -> P, j: nat, k: K, k': K, p: P)
    ensures Alternate(g, j + 1, k, k', p) == Alternate(g, j, k', k, g(k, p))
  {
  }

  lemma {:induction false} LastStep<K, P>(g: (K, P) -> P, j: nat, k: K, k': K, p: P)
    ensures Alternate(g, j + 1, k, k', p) == g(if j % 2 == 0 then k else k', Alternate(g, j, k, k', p))
  {
    AlternateStep(g, j, k, k', p);
    if j > 0 {
      LastStep(g, j - 1, k', k, g(k, p));
      AlternateStep(g, j - 1, k, k', p);
    }
  }

  lemma PeelGroup<K, P>(o: Steps<K, P>, m: nat, k: K, k': K, p: P)
    requires m >= 4
    ensures Encrypted(o, m, Key(k, k'), p) == Encrypted(o, m - 4, Key(k', k), Group(o)(k, p))
  {
    var j := m / 4 - 1;
    assert (m - 4) / 4 == j && (m - 4) % 4 == m % 4;
    assert HalfAfter(Key(k, k'), j + 1) == HalfAfter(Key(k', k), j);
    AlternateStep(Group(o), j, k, k', p);
  }

  lemma LastRounds<K, P>(o: Steps<K, P>, m: nat, uk: Key<K>, p: P)
    requires m < 4
    ensures Encrypted(o, m, uk, p) == Partial(o, m, uk.first, p)
  {
    assert m / 4 == 0 && m % 4 == m;
  }

  lemma UndoGroup<K, P>(o: Steps<K, P>, n: nat, k: K, k': K, p: P)
    ensures n >= 4 ==> Undone(o, n, k, k', p) == Undone(o, n - 4, k', k, Ungroup(o)(k, p))
    ensures n < 4 ==> Undone(o, n, k, k', p) == p
  {
    if n >= 4 {
      assert (n - 4) / 4 == n / 4 - 1;
      AlternateStep(Ungroup(o), n / 4 - 1, k, k', p);
    }
  }

  lemma InGroup<K, P>(o: Steps<K, P>, n: nat, j: nat, r: nat, uk: Key<K>, p: P)
    requires r < 4 && n == 4 * j + r
    ensures Encrypted(o, n, uk, p) == Partial(o, r, HalfAfter(uk, j), Alternate(Group(o), j, uk.first, uk.second, p))
  {
    assert n / 4 == j && n % 4 == r;
  }

  lemma PartialSteps<K, P>(o: Steps<K, P>, h: K, q: P)
    ensures Partial(o, 0, h, q) == q && Partial(o, 1, h, q) == o.one(q)
    ensures Partial(o, 2, h, q) == o.two(o.one(q), h) && Partial(o, 3, h, q) == o.three(o.two(o.one(q), h), h)
    ensures Group(o)(h, q) == o.four(o.three(o.two(o.one(q), h), h), h)
  {
  }

  /** One round more, in each of the four positions of a group. */
  lemma NextRounds<K, P>(o: Steps<K, P>, j: nat, uk: Key<K>, p: P)
    ensures Encrypted(o, 4 * j + 1, uk, p) == o.one(Encrypted(o, 4 * j, uk, p))
    ensures Encrypted(o, 4 * j + 2, uk, p) == o.two(Encrypted(o, 4 * j + 1, uk, p), HalfAfter(uk, j))
    ensures Encrypted(o, 4 * j + 3, uk, p) == o.three(Encrypted(o, 4 * j + 2, uk, p), HalfAfter(uk, j))
    ensures Encrypted(o, 4 * j + 4, uk, p) == o.four(Encrypted(o, 4 * j + 3, uk, p), HalfAfter(uk, j))
  {
    InGroup(o, 4 * j, j, 0, uk, p);
    InGroup(o, 4 * j + 1, j, 1, uk, p);
    InGroup(o, 4 * j + 2, j, 2, uk, p);
    InGroup(o, 4 * j + 3, j, 3, uk, p);
    GroupEnd(o, j, uk, p);
    PartialSteps(o, HalfAfter(uk, j), Alternate(Group(o), j, uk.first, uk.second, p));
  }

  lemma GroupEnd<K, P>(o: Steps<K, P>, j: nat, uk: Key<K>, p: P)
    ensures Encrypted(o, 4 * j + 4, uk, p) == Group(o)(HalfAfter(uk, j), Alternate(Group(o), j, uk.first, uk.second, p))
  {
    InGroup(o, 4 * j + 4, j + 1, 0, uk, p);
    LastStep(Group(o), j, uk.first, uk.second, p);
    PartialSteps(o, HalfAfter(uk, j + 1), Alternate(Group(o), j + 1, uk.first, uk.second, p));
  }

  /* ---- The instance ---- */

  type Half = Quad<bv32>

  function Pis(): Steps<Half, Pair> {
    Steps(Pi1, Pi2, Pi3, Pi4)
  }

  lemma PiTwice(p: Pair, k: Half)
    ensures Pi1(Pi1(p)) == p && Pi2(Pi2(p, k), k) == p && Pi3(Pi3(p, k), k) == p && Pi4(Pi4(p, k), k) == p
  {
    XorTwice(p.b, p.a);
    XorTwice(p.a, F2(p.b, k));
    XorTwice(p.b, F3(p.a, k));
    XorTwice(p.a, F4(p.b, k));
  }

  lemma PisSelfInverse()
    ensures SelfInverse(Pis())
  {
    forall p: Pair ensures Pi1(Pi1(p)) == p {
      PiTwice(p, Quad(0, 0, 0, 0));
    }
    forall p: Pair, k: Half ensures Pi2(Pi2(p, k), k) == p {
      PiTwice(p, k);
    }
    forall p: Pair, k: Half ensures Pi3(Pi3(p, k), k) == p {
      PiTwice(p, k);
    }
    forall p: Pair, k: Half ensures Pi4(Pi4(p, k), k) == p {
      PiTwice(p, k);
    }
  }

  /* ---- The loops ---- */

  /** The four words of the working key from index `t` on. */
  function HalfAt(uk: seq<bv32>, t: nat): Half
    requires t + 4 <= |uk|
  {
    Quad(uk[t], uk[t + 1], uk[t + 2], uk[t + 3])
  }

  /** The key as seen from index `t`: the half there comes first. */
  function KeyFrom(uk: seq<bv32>, t: nat): Key<Half>
    requires |uk| == 8 && (t == 0 || t == 4)
  {
    Key(HalfAt(uk, t), HalfAt(uk, 4 - t))
  }

  /** Up to four rounds; stops when `left` have been done. */
  method EncryptGroup(o: Steps<Half, Pair>, p: Pair, k: Half, left: nat) returns (q: Pair)
    requires left > 0
    ensures q == if left < 4 then Partial(o, left, k, p) else Group(o)(k, p)
  {
    q := o.one(p);
    if left == 1 {
      return;
    }
    q := o.two(q, k);
    if left == 2 {
      return;
    }
    q := o.three(q, k);
    if left == 3 {
      return;
    }
    q := o.four(q, k);
  }

  /*
    What the loops keep.  Both are stated of every state equal to the given one, so that the rounds are unfolded
    in the lemmas, which name them, and not in the loops.
   */

  /** The last `left` rounds, beginning with the first half of `k`, take `p` to `goal`. */
  ghost predicate Remaining(o: Steps<Half, Pair>, left: nat, k: Key<Half>, p: Pair, goal: Pair) {
    forall q: Pair | q == p :: Encrypted(o, left, k, q) == goal
  }

  /** Undoing the groups among `left` rounds, beginning with the first half of `k`, takes `p` to `goal`. */
  ghost predicate Undoing(o: Steps<Half, Pair>, left: nat, k: Key<Half>, p: Pair, goal: Pair) {
    forall q: Pair | q == p :: Undone(o, left, k.first, k.second, q) == goal
  }

  lemma GroupDone(o: Steps<Half, Pair>, left: nat, k: Key<Half>, p: Pair, goal: Pair)
    requires Remaining(o, left, k, p, goal)
    ensures left < 4 ==> Partial(o, left, k.first, p) == goal
    ensures left >= 4 ==> Remaining(o, left - 4, Key(k.second, k.first), Group(o)(k.first, p), goal)
  {
    assert Encrypted(o, left, k, p) == goal;
    if left < 4 {
      LastRounds(o, left, k, p);
    } else {
      PeelGroup(o, left, k.first, k.second, p);
    }
  }

  lemma GroupUndone(o: Steps<Half, Pair>, left: nat, k: Key<Half>, p: Pair, goal: Pair)
    requires Undoing(o, left, k, p, goal)
    ensures left < 4 ==> p == goal
    ensures left >= 4 ==> Undoing(o, left - 4, Key(k.second, k.first), Ungroup(o)(k.first, p), goal)
  {
    assert Undone(o, left, k.first, k.second, p) == goal;
    UndoGroup(o, left, k.first, k.second, p);
  }

  method EncryptWords(o: Steps<Half, Pair>, p0: Pair, rounds: nat, uk: seq<bv32>) returns (p: Pair)
    requires |uk| == 8 && rounds > 0
    ensures p == Encrypted(o, rounds, KeyFrom(uk, 0), p0)
  {
    ghost var goal := Encrypted(o, rounds, KeyFrom(uk, 0), p0);
    p := p0;
    var n, t := 0, 0;
    while n < rounds
      invariant n <= rounds && (t == 0 || t == 4) && Remaining(o, rounds - n, KeyFrom(uk, t), p, goal)
    {
      GroupDone(o, rounds - n, KeyFrom(uk, t), p, goal);
      p := EncryptGroup(o, p, HalfAt(uk, t), rounds - n);
      if rounds - n < 4 {
        return;
      }
      n := n + 4;
      t := 4 - t;
    }
    GroupDone(o, 0, KeyFrom(uk, t), p, goal);
  }

  lemma UndoFrom(o: Steps<Half, Pair>, p0: Pair, rounds: nat, uk: seq<bv32>)
    requires |uk| == 8
    ensures Undoing(o, rounds, KeyFrom(uk, if rounds % 2 == 1 then 0 else 4), p0, Decrypted(o, rounds, KeyFrom(uk, 0), p0))
  {
  }

  method DecryptWords(o: Steps<Half, Pair>, p0: Pair, rounds: nat, uk: seq<bv32>) returns (p: Pair)
    requires |uk| == 8 && rounds > 0
    ensures p == Decrypted(o, rounds, KeyFrom(uk, 0), p0)
  {
    p := p0;
    var n, t := rounds, if rounds % 2 == 1 then 0 else 4;
    ghost var goal := Decrypted(o, rounds, KeyFrom(uk, 0), p0);
    UndoFrom(o, p0, rounds, uk);
    while n >= 4
      invariant (t == 0 || t == 4) && Undoing(o, n, KeyFrom(uk, t), p, goal)
    {
      var k := HalfAt(uk, t);
      GroupUndone(o, n, KeyFrom(uk, t), p, goal);
      GroupIs(o, k, p);
      p := o.one(o.two(o.three(o.four(p, k), k), k));
      n := n - 4;
      t := 4 - t;
    }
    GroupUndone(o, n, KeyFrom(uk, t), p, goal);
  }

  /* ---- Setup: the working key is read off the cipher run on the data key under the system key ---- */

  /** The state after n rounds under the system key. */
  function Stage(o: Steps<Half, Pair>, sk: Key<Half>, dk: Pair, n: nat): Pair {
    Encrypted(o, n, sk, dk)
  }

  /** Each word of the working key is the word that one of the rounds two to nine has just changed. */
  function WorkingKey(o: Steps<Half, Pair>, sk: Key<Half>, dk: Pair): (uk: seq<bv32>)
    ensures |uk| == 8
  {
    [Stage(o, sk, dk, 2).a, Stage(o, sk, dk, 3).b, Stage(o, sk, dk, 4).a, Stage(o, sk, dk, 5).b,
     Stage(o, sk, dk, 6).a, Stage(o, sk, dk, 7).b, Stage(o, sk, dk, 8).a, Stage(o, sk, dk, 9).b]
  }

  /** The states after two to nine rounds. */
  lemma NineRounds(o: Steps<Half, Pair>, sk: Key<Half>, dk: Pair)
    ensures Encrypted(o, 2, sk, dk) == o.two(o.one(dk), sk.first)
    ensures Encrypted(o, 3, sk, dk) == o.three(Encrypted(o, 2, sk, dk), sk.first)
    ensures Encrypted(o, 4, sk, dk) == o.four(Encrypted(o, 3, sk, dk), sk.first)
    ensures Encrypted(o, 5, sk, dk) == o.one(Encrypted(o, 4, sk, dk))
    ensures Encrypted(o, 6, sk, dk) == o.two(Encrypted(o, 5, sk, dk), sk.second)
    ensures Encrypted(o, 7, sk, dk) == o.three(Encrypted(o, 6, sk, dk), sk.second)
    ensures Encrypted(o, 8, sk, dk) == o.four(Encrypted(o, 7, sk, dk), sk.second)
    ensures Encrypted(o, 9, sk, dk) == o.one(Encrypted(o, 8, sk, dk))
  {
    NextRounds(o, 0, sk, dk);
    NextRounds(o, 1, sk, dk);
    NextRounds(o, 2, sk, dk);
    LastRounds(o, 0, sk, dk);
  }

  method MakeKey(o: Steps<Half, Pair>, dk: Pair, sk: Key<Half>) returns (uk: seq<bv32>)
    ensures uk == WorkingKey(o, sk, dk)
  {
    NineRounds(o, sk, dk);
    var p2 := o.two(o.one(dk), sk.first);
    var p3 := o.three(p2, sk.first);
    var p4 := o.four(p3, sk.first);
    var p5 := o.one(p4);
    var p6 := o.two(p5, sk.second);
    var p7 := o.three(p6, sk.second);
    var p8 := o.four(p7, sk.second);
    var p9 := o.one(p8);
    uk := [p2.a, p3.b, p4.a, p5.b, p6.a, p7.b, p8.a, p9.b];
  }

  function SystemKey(key: seq<Byte>): (sk: seq<bv32>)
    requires |key| == 40
    ensures |sk| == 8
  {
    seq(8, i requires 0 <= i < 8 => Load32H(key[4 * i..4 * i + 4]))
  }

  function DataKey(key: seq<Byte>): Pair
    requires |key| == 40
  {
    LoadPair(Load32H, key[32..40])
  }

  datatype ScheduledKey = ScheduledKey(rounds: int, uk: seq<bv32>)

  ghost predicate Scheduled(key: seq<Byte>, uk: seq<bv32>)
    requires |key| == 40
  {
    uk == WorkingKey(Pis(), KeyFrom(SystemKey(key), 0), DataKey(key))
  }

  method Setup(key: seq<Byte>, numRounds: int) returns (status: Status, skey: ScheduledKey)
    ensures status == if |key| != 40 then InvalidKeySize else Ok
    ensures status == Ok ==> skey.rounds == (if numRounds == 0 then 128 else numRounds) && Scheduled(key, skey.uk)
  {
    skey := ScheduledKey(0, []);
    if |key| != 40 {
      return InvalidKeySize, skey;
    }
    var uk := MakeKey(Pis(), DataKey(key), KeyFrom(SystemKey(key), 0));
    skey := ScheduledKey(if numRounds == 0 then 128 else numRounds, uk);
    status := Ok;
  }

  /* ---- Encryption and decryption ---- */

  predicate Usable(skey: ScheduledKey) {
    skey.rounds > 0 && |skey.uk| == 8
  }

  /** How words are read from bytes and written to them. */
  datatype Codec = Codec(load: Bytes4 -> bv32, store: bv32 -> Bytes4)

  function EncryptWith(o: Steps<Half, Pair>, c: Codec, skey: ScheduledKey, pt: seq<Byte>): (ct: seq<Byte>)
    requires Usable(skey) && |pt| == 8
    ensures |ct| == 8
  {
    StorePair(c.store, Encrypted(o, skey.rounds, KeyFrom(skey.uk, 0), LoadPair(c.load, pt)))
  }

  function DecryptWith(o: Steps<Half, Pair>, c: Codec, skey: ScheduledKey, ct: seq<Byte>): (pt: seq<Byte>)
    requires Usable(skey) && |ct| == 8
    ensures |pt| == 8
  {
    StorePair(c.store, Decrypted(o, skey.rounds, KeyFrom(skey.uk, 0), LoadPair(c.load, ct)))
  }

  function EncryptBlock(skey: ScheduledKey, pt: seq<Byte>): (ct: seq<Byte>)
    requires Usable(skey) && |pt| == 8
    ensures |ct| == 8
  {
    EncryptWith(Pis(), Codec(Load32H, Store32H), skey, pt)
  }

  function DecryptBlock(skey: ScheduledKey, ct: seq<Byte>): (pt: seq<Byte>)
    requires Usable(skey) && |ct| == 8
    ensures |pt| == 8
  {
    DecryptWith(Pis(), Codec(Load32H, Store32H), skey, ct)
  }

  method EcbEncrypt(pt: seq<Byte>, skey: ScheduledKey) returns (ct: seq<Byte>)
    requires Usable(skey) && |pt| == 8
    ensures ct == EncryptBlock(skey, pt)
  {
    var p := EncryptWords(Pis(), LoadPair(Load32H, pt), skey.rounds, skey.uk);
    ct := StorePair(Store32H, p);
  }

  method EcbDecrypt(ct: seq<Byte>, skey: ScheduledKey) returns (pt: seq<Byte>)
    requires Usable(skey) && |ct| == 8
    ensures pt == DecryptBlock(skey, ct)
  {
    var p := DecryptWords(Pis(), LoadPair(Load32H, ct), skey.rounds, skey.uk);
    pt := StorePair(Store32H, p);
  }

  lemma DecryptInvertsEncrypt(skey: ScheduledKey, pt: seq<Byte>)
    requires Usable(skey) && skey.rounds % 8 == 0 && |pt| == 8
    ensures DecryptBlock(skey, EncryptBlock(skey, pt)) == pt
  {
    BothByteOrders();
    PisSelfInverse();
    MultipleOf8Inverts(Pis(), Codec(Load32H, Store32H), skey.rounds, skey.uk, pt);
  }

  /* ---- Keys from given words ---- */

  /** The 40-byte key with given system-key words and data key. */
  function KeyBytes(sk: Key<Half>, dk: Pair): (key: seq<Byte>)
    ensures |key| == 40
  {
    StoreQuad(Store32H, sk.first) + StoreQuad(Store32H, sk.second) + StorePair(Store32H, dk)
  }

  lemma Subslice(key: seq<Byte>, at: nat, p: seq<Byte>, i: nat)
    requires at + 16 <= |key| && p == key[at..at + 16] && i + 4 <= 16
    ensures p[i..i + 4] == key[at + i..at + i + 4]
  {
    var l, r := p[i..i + 4], key[at + i..at + i + 4];
    assert |l| == |r| && forall j | 0 <= j < 4 :: l[j] == r[j];
  }

  lemma QuadFromBytes(key: seq<Byte>, at: nat, q: Quad<bv32>)
    requires at + 16 <= |key| && key[at..at + 16] == StoreQuad(Store32H, q)
    ensures Load32H(key[at..at + 4]) == q.a && Load32H(key[at + 4..at + 8]) == q.b
    ensures Load32H(key[at + 8..at + 12]) == q.c && Load32H(key[at + 12..at + 16]) == q.d
  {
    var p := key[at..at + 16];
    Subslice(key, at, p, 0);
    Subslice(key, at, p, 4);
    Subslice(key, at, p, 8);
    Subslice(key, at, p, 12);
    BothByteOrders();
    QuadBlocks(Load32H, Store32H, q, p);
  }

  lemma KeyParts(sk: Key<Half>, dk: Pair)
    ensures var key := KeyBytes(sk, dk);
      && key[0..16] == StoreQuad(Store32H, sk.first) && key[16..32] == StoreQuad(Store32H, sk.second)
      && key[32..40] == StorePair(Store32H, dk)
  {
  }

  lemma SystemKeyHalves(key: seq<Byte>)
    requires |key| == 40
    ensures KeyFrom(SystemKey(key), 0).first
         == Quad(Load32H(key[0..4]), Load32H(key[4..8]), Load32H(key[8..12]), Load32H(key[12..16]))
    ensures KeyFrom(SystemKey(key), 0).second
         == Quad(Load32H(key[16..20]), Load32H(key[20..24]), Load32H(key[24..28]), Load32H(key[28..32]))
  {
  }

  lemma DataKeyOfWords(sk: Key<Half>, dk: Pair)
    ensures DataKey(KeyBytes(sk, dk)) == dk
  {
    KeyParts(sk, dk);
    BothByteOrders();
    PairBlocks(Load32H, Store32H, dk, KeyBytes(sk, dk)[32..40]);
  }

  /** Every system key and data key is that of some key. */
  lemma KeyOfWords(sk: Key<Half>, dk: Pair)
    ensures KeyFrom(SystemKey(KeyBytes(sk, dk)), 0) == sk && DataKey(KeyBytes(sk, dk)) == dk
  {
    var key := KeyBytes(sk, dk);
    KeyParts(sk, dk);
    QuadFromBytes(key, 0, sk.first);
    QuadFromBytes(key, 16, sk.second);
    SystemKeyHalves(key);
    DataKeyOfWords(sk, dk);
  }

  function Words8(uk: Key<Half>): seq<bv32> {
    [uk.first.a, uk.first.b, uk.first.c, uk.first.d, uk.second.a, uk.second.b, uk.second.c, uk.second.d]
  }

  /** Rounds two to five of the setup leave behind the first half of `uk`. */
  predicate LeavesFirst(o: Steps<Half, Pair>, sk: Key<Half>, dk: Pair, uk: Key<Half>) {
    && o.two(o.one(dk), sk.first) == Pair(uk.first.a, o.one(dk).b)
    && o.three(Pair(uk.first.a, o.one(dk).b), sk.first) == Pair(uk.first.a, uk.first.b)
    && o.four(Pair(uk.first.a, uk.first.b), sk.first) == Pair(uk.first.c, uk.first.b)
    && o.one(Pair(uk.first.c, uk.first.b)) == Pair(uk.first.c, uk.first.d)
  }

  /** Rounds six to nine leave behind the second half. */
  predicate LeavesSecond(o: Steps<Half, Pair>, sk: Key<Half>, uk: Key<Half>) {
    && o.two(Pair(uk.first.c, uk.first.d), sk.second) == Pair(uk.second.a, uk.first.d)
    && o.three(Pair(uk.second.a, uk.first.d), sk.second) == Pair(uk.second.a, uk.second.b)
    && o.four(Pair(uk.second.a, uk.second.b), sk.second) == Pair(uk.second.c, uk.second.b)
    && o.one(Pair(uk.second.c, uk.second.b)) == Pair(uk.second.c, uk.second.d)
  }

  lemma LeavesWorkingKey(o: Steps<Half, Pair>, sk: Key<Half>, dk: Pair, uk: Key<Half>)
    requires LeavesFirst(o, sk, dk, uk) && LeavesSecond(o, sk, uk)
    ensures WorkingKey(o, sk, dk) == Words8(uk)
  {
    NineRounds(o, sk, dk);
  }

  /** `uk` is the working key that the setup makes of the 40-byte key with these words. */
  ghost predicate Makes(sk: Key<Half>, dk: Pair, uk: Key<Half>) {
    Scheduled(KeyBytes(sk, dk), Words8(uk)) && KeyFrom(Words8(uk), 0) == uk
  }

  lemma WorkingKeyFrom(sk: Key<Half>, dk: Pair, uk: Key<Half>)
    requires LeavesFirst(Pis(), sk, dk, uk) && LeavesSecond(Pis(), sk, uk)
    ensures Makes(sk, dk, uk)
  {
    LeavesWorkingKey(Pis(), sk, dk, uk);
    KeyOfWords(sk, dk);
  }

  /* ---- Round counts that are not multiples of 8 ---- */

  function PiGroup(k: Half, p: Pair): Pair {
    Pi4(Pi3(Pi2(Pi1(p), k), k), k)
  }

  lemma PiGroupIs(k: Half, p: Pair)
    ensures Group(Pis())(k, p) == PiGroup(k, p)
  {
    GroupIs(Pis(), k, p);
  }

  /** A key of which the first half of the working key fixes two states, and the second half exchanges them. */
  function OddSystem(): Key<Half> {
    Key(Quad(0, 0, 0, 0x37c461ac), Quad(0xd3b063bf, 0, 0xd5702fc8, 0xa6f84c4d))
  }

  function OddData(): Pair {
    Pair(0x181356d0, 0x262409e7)
  }

  function OddWorking(): Key<Half> {
    Key(Fixing(), Swapping())
  }

  function Fixing(): Half {
    Quad(0x08d4913f, 0xded3aef8, 0x782cc20a, 0xa6ff6cf2)
  }

  function Swapping(): Half {
    Quad(0x08d4913f, 0x57d3156c, 0xf12c799e, 0xa6ff6cf2)
  }

  function State(b: bool): Pair {
    Pair(0x3fbcf7fc, if b then 0x33333333 else 0)
  }

  lemma OddFirstHalf()
    ensures LeavesFirst(Pis(), OddSystem(), OddData(), OddWorking())
  {
  }

  lemma OddSecondHalf()
    ensures LeavesSecond(Pis(), OddSystem(), OddWorking())
  {
  }

  lemma FixingFixes(b: bool)
    ensures PiGroup(Fixing(), State(b)) == State(b)
  {
  }

  lemma SwappingSwaps(b: bool)
    ensures PiGroup(Swapping(), State(b)) == State(!b)
  {
  }

  lemma StatesExchanged()
    ensures Exchanges(Group(Pis()), State, Fixing(), false) && Exchanges(Group(Pis()), State, Swapping(), true)
    ensures State(true) != State(false)
  {
    forall c: bool ensures Group(Pis())(Fixing(), State(c)) == State(c) {
      FixingFixes(c);
      PiGroupIs(Fixing(), State(c));
    }
    forall c: bool ensures Group(Pis())(Swapping(), State(c)) == State(!c) {
      SwappingSwaps(c);
      PiGroupIs(Swapping(), State(c));
    }
  }

  /** A key both halves of whose working key fix one state, which one, two or three rounds do not. */
  function WholeSystem(): Key<Half> {
    Key(Quad(0, 0, 0, 0x3c0f4f88), Quad(0x939e9663, 0, 0xb963ae96, 0x3c0f4f88))
  }

  function WholeData(): Pair {
    Pair(0x22864e02, 0x914ef934)
  }

  function Whole(): Half {
    Quad(0x8c7e3181, 0, 0xa032bc28, 0xa032bc28)
  }

  function Resting(): Pair {
    Pair(0x9fbacabb, 0x5bb742f4)
  }

  function WholeWorking(): Key<Half> {
    Key(Whole(), Whole())
  }

  lemma WholeFirstHalf()
    ensures LeavesFirst(Pis(), WholeSystem(), WholeData(), WholeWorking())
  {
  }

  lemma WholeSecondHalf()
    ensures LeavesSecond(Pis(), WholeSystem(), WholeWorking())
  {
  }

  lemma WholeFixes()
    ensures PiGroup(Whole(), Resting()) == Resting()
  {
  }

  lemma PartialMoves(r: nat)
    requires 1 <= r < 4
    ensures Partial(Pis(), r, Whole(), Resting()) != Resting()
  {
  }

  /* What follows is about any steps, byte order and setup. */

  /** The keys and the working keys that a setup makes of them. */
  type Made = (seq<Byte>, seq<bv32>) -> bool

  ghost predicate InvertsWith(made: Made, o: Steps<Half, Pair>, c: Codec, n: nat)
    requires n > 0
  {
    forall key: seq<Byte>, uk: seq<bv32>, pt: seq<Byte> | made(key, uk) && |uk| == 8 && |pt| == 8 ::
      DecryptWith(o, c, ScheduledKey(n, uk), EncryptWith(o, c, ScheduledKey(n, uk), pt)) == pt
  }

  /** A pair of words that does not come back is a block that does not come back. */
  lemma BlockFails(o: Steps<Half, Pair>, c: Codec, n: nat, uk: seq<bv32>, s: Pair)
    requires ByteOrder(c.load, c.store) && n > 0 && |uk| == 8
    requires Decrypted(o, n, KeyFrom(uk, 0), Encrypted(o, n, KeyFrom(uk, 0), s)) != s
    ensures var skey, pt := ScheduledKey(n, uk), StorePair(c.store, s);
      DecryptWith(o, c, skey, EncryptWith(o, c, skey, pt)) != pt
  {
    var e := Encrypted(o, n, KeyFrom(uk, 0), s);
    var d := Decrypted(o, n, KeyFrom(uk, 0), e);
    PairBlocks(c.load, c.store, s, StorePair(c.store, s));
    PairBlocks(c.load, c.store, e, StorePair(c.store, e));
    PairBlocks(c.load, c.store, d, StorePair(c.store, d));
  }

  /** Under the working key two states are fixed by the first half and exchanged by the second. */
  ghost predicate OddKey(o: Steps<Half, Pair>, uk: seq<bv32>, st: bool -> Pair) {
    && |uk| == 8 && st(true) != st(false)
    && Exchanges(Group(o), st, HalfAt(uk, 0), false) && Exchanges(Group(o), st, HalfAt(uk, 4), true)
  }

  /** Both halves of the working key fix one state, which one, two or three rounds do not. */
  ghost predicate WholeKey(o: Steps<Half, Pair>, uk: seq<bv32>, s: Pair) {
    |uk| == 8 && HalfAt(uk, 0) == HalfAt(uk, 4) && Group(o)(HalfAt(uk, 0), s) == s && Moved(o, HalfAt(uk, 0), s)
  }

  ghost predicate Moved(o: Steps<Half, Pair>, k: Half, s: Pair) {
    forall r: nat | 1 <= r < 4 :: Partial(o, r, k, s) != s
  }

  lemma WholeKeyFrom(o: Steps<Half, Pair>, k: Half, s: Pair)
    requires Group(o)(k, s) == s && Moved(o, k, s)
    ensures WholeKey(o, Words8(Key(k, k)), s)
  {
    assert HalfAt(Words8(Key(k, k)), 0) == HalfAt(Words8(Key(k, k)), 4) == k;
  }

  /** With an odd number of whole groups such a key fails, whatever their number. */
  lemma OddGroupsFailFor(o: Steps<Half, Pair>, c: Codec, n: nat, uk: seq<bv32>, st: bool -> Pair)
    requires SelfInverse(o) && ByteOrder(c.load, c.store) && OddKey(o, uk, st) && n % 8 == 4
    ensures var skey, pt := ScheduledKey(n, uk), StorePair(c.store, st(false));
      DecryptWith(o, c, skey, EncryptWith(o, c, skey, pt)) != pt
  {
    OddGroupsFail(o, n, KeyFrom(uk, 0), st);
    BlockFails(o, c, n, uk, st(false));
  }

  /** With rounds left over such a key fails, whatever the number of whole groups. */
  lemma LeftoverRoundsFailFor(o: Steps<Half, Pair>, c: Codec, n: nat, uk: seq<bv32>, s: Pair)
    requires SelfInverse(o) && ByteOrder(c.load, c.store) && WholeKey(o, uk, s) && n % 4 != 0
    ensures var skey, pt := ScheduledKey(n, uk), StorePair(c.store, s);
      DecryptWith(o, c, skey, EncryptWith(o, c, skey, pt)) != pt
  {
    LeftoverRoundsFail(o, n, HalfAt(uk, 0), s);
    BlockFails(o, c, n, uk, s);
  }

  lemma MultipleOf8Inverts(o: Steps<Half, Pair>, c: Codec, n: nat, uk: seq<bv32>, pt: seq<Byte>)
    requires SelfInverse(o) && ByteOrder(c.load, c.store) && n > 0 && n % 8 == 0 && |uk| == 8 && |pt| == 8
    ensures DecryptWith(o, c, ScheduledKey(n, uk), EncryptWith(o, c, ScheduledKey(n, uk), pt)) == pt
  {
    var s := LoadPair(c.load, pt);
    PairBlocks(c.load, c.store, Encrypted(o, n, KeyFrom(uk, 0), s), pt);
    InvertsAtMultiplesOf8(o, n, KeyFrom(uk, 0), s);
  }

  lemma ExactlyAtMultiplesOf8(made: Made, o: Steps<Half, Pair>, c: Codec, n: nat,
                              odd: seq<Byte>, uk: seq<bv32>, st: bool -> Pair, whole: seq<Byte>, wk: seq<bv32>, s: Pair)
    requires SelfInverse(o) && ByteOrder(c.load, c.store) && n > 0
    requires made(odd, uk) && OddKey(o, uk, st) && made(whole, wk) && WholeKey(o, wk, s)
    ensures InvertsWith(made, o, c, n) <==> n % 8 == 0
  {
    if n % 8 == 0 {
      forall key: seq<Byte>, uk: seq<bv32>, pt: seq<Byte> | made(key, uk) && |uk| == 8 && |pt| == 8
        ensures DecryptWith(o, c, ScheduledKey(n, uk), EncryptWith(o, c, ScheduledKey(n, uk), pt)) == pt
      {
        MultipleOf8Inverts(o, c, n, uk, pt);
      }
    } else if n % 8 == 4 {
      OddGroupsFailFor(o, c, n, uk, st);
    } else {
      LeftoverRoundsFailFor(o, c, n, wk, s);
    }
  }

  /* The keys from above. */

  ghost function MadeBySetup(): Made {
    (key, uk) => |key| == 40 && Scheduled(key, uk)
  }

  lemma OddKeyMade() returns (key: seq<Byte>, uk: seq<bv32>, st: bool -> Pair)
    ensures MadeBySetup()(key, uk) && OddKey(Pis(), uk, st)
  {
    OddFirstHalf();
    OddSecondHalf();
    WorkingKeyFrom(OddSystem(), OddData(), OddWorking());
    StatesExchanged();
    key, uk, st := KeyBytes(OddSystem(), OddData()), Words8(OddWorking()), State;
  }

  lemma WholeMoves()
    ensures Moved(Pis(), Whole(), Resting())
  {
    forall r: nat | 1 <= r < 4 ensures Partial(Pis(), r, Whole(), Resting()) != Resting() {
      PartialMoves(r);
    }
  }

  lemma WholeIsWhole()
    ensures WholeKey(Pis(), Words8(WholeWorking()), Resting())
  {
    WholeFixes();
    PiGroupIs(Whole(), Resting());
    WholeMoves();
    WholeKeyFrom(Pis(), Whole(), Resting());
  }

  lemma WholeIsMade()
    ensures MadeBySetup()(KeyBytes(WholeSystem(), WholeData()), Words8(WholeWorking()))
  {
    WholeFirstHalf();
    WholeSecondHalf();
    WorkingKeyFrom(WholeSystem(), WholeData(), WholeWorking());
  }

  lemma WholeKeyMade() returns (key: seq<Byte>, uk: seq<bv32>, s: Pair)
    ensures MadeBySetup()(key, uk) && WholeKey(Pis(), uk, s)
  {
    WholeIsMade();
    WholeIsWhole();
    key, uk, s := KeyBytes(WholeSystem(), WholeData()), Words8(WholeWorking()), Resting();
  }

  /** Decryption gives back every block under every key that the setup can make. */
  ghost predicate Inverts(n: nat)
    requires n > 0
  {
    InvertsWith(MadeBySetup(), Pis(), Codec(Load32H, Store32H), n)
  }

  /** Decryption inverts encryption for all 40-byte keys and all blocks if and only if the number of rounds is a multiple of 8. */
  lemma InvertsExactlyAtMultiplesOf8(n: nat)
    requires n > 0
    ensures Inverts(n) <==> n % 8 == 0
  {
    PisSelfInverse();
    BothByteOrders();
    var odd, uk, st := OddKeyMade();
    var whole, wk, s := WholeKeyMade();
    ExactlyAtMultiplesOf8(MadeBySetup(), Pis(), Codec(Load32H, Store32H), n, odd, uk, st, whole, wk, s);
  }

  /** Spelled out for one key. */
  lemma InvertsFor(n: nat, key: seq<Byte>, uk: seq<bv32>, pt: seq<Byte>)
    requires n > 0 && Inverts(n) && |key| == 40 && Scheduled(key, uk) && |pt| == 8
    ensures DecryptBlock(ScheduledKey(n, uk), EncryptBlock(ScheduledKey(n, uk), pt)) == pt
  {
    assert MadeBySetup()(key, uk);
  }
}

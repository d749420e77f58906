/** RC5 with 32-bit words and 12 to 24 rounds (`NXTservices/rc5.c`; RFC 2040 sections 5 and 6). */
module Rc5 {
  import opened Words
  import opened RivestKeys

  const DEFAULT_ROUNDS := 12

  datatype ScheduledKey = ScheduledKey(rounds: nat, k: seq<bv32>)

  predicate Usable(skey: ScheduledKey) {
    |skey.k| == 2 * (skey.rounds + 1)
  }

  /* ---- The textbook cipher ---- */

  type Keyed = (bv32, bv32, bv32, bv32) -> bv32

  function Round(e: Keyed, k0: bv32, k1: bv32, s: Pair): Pair {
    var a := e(s.a, s.b, s.b, k0);
    Pair(a, e(s.b, a, a, k1))
  }

  function Unround(d: Keyed, k0: bv32, k1: bv32, s: Pair): Pair {
    var b := d(s.b, s.a, s.a, k1);
    Pair(d(s.a, b, b, k0), b)
  }

  function Rounds(e: Keyed, k: seq<bv32>, r: nat, s: Pair): Pair
    requires 2 * r + 2 <= |k|
  {
    if r == 0 then s else Round(e, k[2 * r], k[2 * r + 1], Rounds(e, k, r - 1, s))
  }

  function Unrounds(d: Keyed, k: seq<bv32>, r: nat, s: Pair): Pair
    requires 2 * r + 2 <= |k|
  {
    if r == 0 then s else Unrounds(d, k, r - 1, Unround(d, k[2 * r], k[2 * r + 1], s))
  }

  lemma {:induction false} RoundsInverse(e: Keyed, d: Keyed, k: seq<bv32>, r: nat, s: Pair)
    requires 2 * r + 2 <= |k| && forall x, t, u, w :: d(e(x, t, u, w), t, u, w) == x
    ensures Unrounds(d, k, r, Rounds(e, k, r, s)) == s
  {
    if r > 0 {
      RoundsInverse(e, d, k, r - 1, s);
    }
  }

  function AddKeys(s: Pair, x: bv32, y: bv32): Pair {
    Pair(Add(s.a, x), Add(s.b, y))
  }

  function SubKeys(s: Pair, x: bv32, y: bv32): Pair {
    Pair(Sub(s.a, x), Sub(s.b, y))
  }

  function Encrypted(skey: ScheduledKey, s: Pair): Pair
    requires Usable(skey)
  {
    Rounds(Stir, skey.k, skey.rounds, AddKeys(s, skey.k[0], skey.k[1]))
  }

  function Decrypted(skey: ScheduledKey, s: Pair): Pair
    requires Usable(skey)
  {
    SubKeys(Unrounds(Unstir, skey.k, skey.rounds, s), skey.k[0], skey.k[1])
  }

  lemma DecryptedEncrypted(skey: ScheduledKey, s: Pair)
    requires Usable(skey)
    ensures Decrypted(skey, Encrypted(skey, s)) == s
  {
    var s0 := AddKeys(s, skey.k[0], skey.k[1]);
    forall x, t, u, w ensures Unstir(Stir(x, t, u, w), t, u, w) == x {
      UnstirStir(x, t, u, w);
    }
    RoundsInverse(Stir, Unstir, skey.k, skey.rounds, s0);
    SubSum(s.a, skey.k[0]);
    SubSum(s.b, skey.k[1]);
  }

  /* ---- The loops: two rounds a turn when the count is even, one when it is odd ---- */

  /*
    What the loops keep.  Both are stated of every state equal to the given one, so that the recursion is unfolded
    in the rounds, which name it, and not in the loops.
   */

  /** `s` is the state after `r` rounds. */
  ghost predicate Forward(skey: ScheduledKey, s0: Pair, r: nat, s: Pair) {
    Usable(skey) && r <= skey.rounds && forall q: Pair | q == s0 :: s == Rounds(Stir, skey.k, r, q)
  }

  /** `r` rounds are still to be undone in `s` to reach `goal`. */
  ghost predicate Backward(skey: ScheduledKey, goal: Pair, r: nat, s: Pair) {
    Usable(skey) && r <= skey.rounds && forall q: Pair | q == s :: Unrounds(Unstir, skey.k, r, q) == goal
  }

  lemma RoundForward(skey: ScheduledKey, s0: Pair, r: nat, s: Pair)
    requires r < skey.rounds && Forward(skey, s0, r, s)
    ensures Forward(skey, s0, r + 1, Round(Stir, skey.k[2 * r + 2], skey.k[2 * r + 3], s))
  {
    assert s == Rounds(Stir, skey.k, r, s0);
  }

  lemma RoundBackward(skey: ScheduledKey, goal: Pair, r: nat, s: Pair)
    requires r < skey.rounds && Backward(skey, goal, r + 1, s)
    ensures Backward(skey, goal, r, Unround(Unstir, skey.k[2 * r + 2], skey.k[2 * r + 3], s))
  {
    assert Unrounds(Unstir, skey.k, r + 1, s) == goal;
  }

  method EncryptRound(skey: ScheduledKey, r: nat, ghost s0: Pair, s: Pair) returns (s': Pair)
    requires r < skey.rounds && Forward(skey, s0, r, s)
    ensures Forward(skey, s0, r + 1, s')
  {
    var a := Stir(s.a, s.b, s.b, skey.k[2 * r + 2]);
    var b := Stir(s.b, a, a, skey.k[2 * r + 3]);
    s' := Pair(a, b);
    RoundForward(skey, s0, r, s);
  }

  method DecryptRound(skey: ScheduledKey, r: nat, ghost goal: Pair, s: Pair) returns (s': Pair)
    requires r < skey.rounds && Backward(skey, goal, r + 1, s)
    ensures Backward(skey, goal, r, s')
  {
    var b := Unstir(s.b, s.a, s.a, skey.k[2 * r + 3]);
    var a := Unstir(s.a, b, b, skey.k[2 * r + 2]);
    s' := Pair(a, b);
    RoundBackward(skey, goal, r, s);
  }

  method EncryptRounds(skey: ScheduledKey, s0: Pair) returns (s: Pair)
    requires Usable(skey)
    ensures Forward(skey, s0, skey.rounds, s)
  {
    s := s0;
    var r := 0;
    if skey.rounds % 2 == 0 {
      while r < skey.rounds
        invariant r <= skey.rounds && r % 2 == 0 && Forward(skey, s0, r, s)
      {
        s := EncryptRound(skey, r, s0, s);
        s := EncryptRound(skey, r + 1, s0, s);
        r := r + 2;
      }
    } else {
      while r < skey.rounds
        invariant r <= skey.rounds && Forward(skey, s0, r, s)
      {
        s := EncryptRound(skey, r, s0, s);
        r := r + 1;
      }
    }
  }

  lemma AllBackward(skey: ScheduledKey, goal: Pair, s: Pair)
    requires Backward(skey, goal, 0, s)
    ensures s == goal
  {
    assert Unrounds(Unstir, skey.k, 0, s) == goal;
  }

  method DecryptRounds(skey: ScheduledKey, s0: Pair, ghost goal: Pair) returns (s: Pair)
    requires Backward(skey, goal, skey.rounds, s0)
    ensures s == goal
  {
    s := s0;
    var r := skey.rounds - 1;
    if skey.rounds % 2 == 0 {
      while r >= 0
        invariant -1 <= r < skey.rounds && r % 2 == 1 && Backward(skey, goal, r + 1, s)
      {
        s := DecryptRound(skey, r, goal, s);
        s := DecryptRound(skey, r - 1, goal, s);
        r := r - 2;
      }
    } else {
      while r >= 0
        invariant -1 <= r < skey.rounds && Backward(skey, goal, r + 1, s)
      {
        s := DecryptRound(skey, r, goal, s);
        r := r - 1;
      }
    }
    AllBackward(skey, goal, s);
  }

  function EncryptBlock(skey: ScheduledKey, pt: seq<Byte>): (ct: seq<Byte>)
    requires Usable(skey) && |pt| == 8
    ensures |ct| == 8
  {
    StorePair(Store32L, Encrypted(skey, LoadPair(Load32L, pt)))
  }

  function DecryptBlock(skey: ScheduledKey, ct: seq<Byte>): (pt: seq<Byte>)
    requires Usable(skey) && |ct| == 8
    ensures |pt| == 8
  {
    StorePair(Store32L, Decrypted(skey, LoadPair(Load32L, ct)))
  }

  method EcbEncrypt(pt: seq<Byte>, skey: ScheduledKey) returns (ct: seq<Byte>)
    requires Usable(skey) && |pt| == 8
    ensures ct == EncryptBlock(skey, pt)
  {
    var s := EncryptRounds(skey, AddKeys(LoadPair(Load32L, pt), skey.k[0], skey.k[1]));
    ct := StorePair(Store32L, s);
  }

  method EcbDecrypt(ct: seq<Byte>, skey: ScheduledKey) returns (pt: seq<Byte>)
    requires Usable(skey) && |ct| == 8
    ensures pt == DecryptBlock(skey, ct)
  {
    var s0 := LoadPair(Load32L, ct);
    var s := DecryptRounds(skey, s0, Unrounds(Unstir, skey.k, skey.rounds, s0));
    pt := StorePair(Store32L, SubKeys(s, skey.k[0], skey.k[1]));
  }

  method Setup(key: seq<Byte>, numRounds: int) returns (status: Status, skey: ScheduledKey)
    ensures var rounds := if numRounds == 0 then DEFAULT_ROUNDS else numRounds;
      if rounds < 12 || rounds > 24 then status == InvalidRounds
      else if |key| < 8 || |key| > 128 then status == InvalidKeySize
      else status == Ok && skey == ScheduledKey(rounds, Expanded(key, 2 * (rounds + 1)))
    ensures status == Ok ==> Usable(skey)
  {
    skey := ScheduledKey(0, []);
    var rounds := numRounds;
    if rounds == 0 {
      rounds := DEFAULT_ROUNDS;
    }
    if rounds < 12 || rounds > 24 {
      return InvalidRounds, skey;
    }
    if |key| < 8 || |key| > 128 {
      return InvalidKeySize, skey;
    }
    var k := Expand(key, 2 * (rounds + 1));
    skey := ScheduledKey(rounds, k[..]);
    status := Ok;
  }

  /** Decryption inverts encryption for every number of rounds, every schedule and every block. */
  lemma DecryptInvertsEncrypt(skey: ScheduledKey, pt: seq<Byte>)
    requires Usable(skey) && |pt| == 8
    ensures DecryptBlock(skey, EncryptBlock(skey, pt)) == pt
  {
    var s := LoadPair(Load32L, pt);
    BothByteOrders();
    PairBlocks(Load32L, Store32L, Encrypted(skey, s), pt);
    DecryptedEncrypted(skey, s);
  }
}

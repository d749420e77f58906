/**
  XTEA (`NXTservices/xtea.c`).  The source keeps 32-bit quantities in `unsigned long`,
  here 64 bits wide, and masks after every step; it also replaces the running sum of the
  published cipher by two precomputed schedules.
 */
module Xtea {
  import opened Words

  const ROUNDS := 32

  /* ---- The published cipher, on 32-bit words with a running sum ---- */

  function Mixed(z: bv32, k: bv32): bv32 {
    (((z << 4) ^ (z >> 5)) + z) ^ k
  }

  function Select(k: Quad<bv32>, i: bv32): bv32 {
    if i == 0 then k.a else if i == 1 then k.b else if i == 2 then k.c else k.d
  }

  function FirstIndex(sum: bv32): bv32 {
    sum & 3
  }

  function SecondIndex(sum: bv32): bv32 {
    (sum >> 11) & 3
  }

  /** The words that enter the two half-rounds at a given sum. */
  function FirstKey(k: Quad<bv32>, sum: bv32): bv32 {
    Add(sum, Select(k, FirstIndex(sum)))
  }

  function SecondKey(k: Quad<bv32>, sum: bv32): bv32 {
    Add(sum, Select(k, SecondIndex(sum)))
  }

  /** The sum's increment, and a multiple of it. */
  function PlusDelta(sum: bv32): bv32 {
    sum + 0x9E3779B9
  }

  function TimesDelta(c: bv32): bv32 {
    c * 0x9E3779B9
  }

  datatype Run = Run(p: Pair, sum: bv32)

  /** A half-round: one word changed by the other under a key word; and its inverse. */
  function Up(y: bv32, z: bv32, k: bv32): bv32 {
    Add(y, Mixed(z, k))
  }

  function Down(y: bv32, z: bv32, k: bv32): bv32 {
    Sub(y, Mixed(z, k))
  }

  type HalfRound = (bv32, bv32, bv32) -> bv32

  function Round(up: HalfRound, a: bv32, b: bv32, p: Pair): Pair {
    var y := up(p.a, p.b, a);
    Pair(y, up(p.b, y, b))
  }

  function Unround(down: HalfRound, a: bv32, b: bv32, p: Pair): Pair {
    var z := down(p.b, p.a, b);
    Pair(down(p.a, z, a), z)
  }

  /** `r` rounds of the published cipher. */
  function Reference(k: Quad<bv32>, r: nat, p: Pair): Run {
    if r == 0 then Run(p, 0)
    else
      var s := Reference(k, r - 1, p);
      var sum := PlusDelta(s.sum);
      Run(Round(Up, FirstKey(k, s.sum), SecondKey(k, sum), s.p), sum)
  }

  lemma DownUp(y: bv32, z: bv32, k: bv32)
    ensures Down(Up(y, z, k), z, k) == y
  {
    SubSum(y, Mixed(z, k));
  }

  /* ---- The precomputed schedules ---- */

  /** The sum after x steps. */
  function SumAfter(x: nat): bv32 {
    if x == 0 then 0 else PlusDelta(SumAfter(x - 1))
  }

  /** x as a 32-bit counter. */
  function Counter(x: nat): bv32 {
    if x == 0 then 0 else Counter(x - 1) + 1
  }

  lemma DeltaDistributes(c: bv32)
    ensures TimesDelta(c + 1) == PlusDelta(c * 0x9E3779B9)
  {
  }

  lemma DeltaTimesZero()
    ensures TimesDelta(0) == 0
  {
  }

  lemma TimesNext(c: bv32)
    ensures TimesDelta(c + 1) == PlusDelta(TimesDelta(c))
  {
    DeltaDistributes(c);
  }

  /** The sum after x steps is x times the increment, modulo 2^32. */
  lemma {:induction false} SumIsMultiple(x: nat)
    ensures SumAfter(x) == TimesDelta(Counter(x))
  {
    if x == 0 {
      DeltaTimesZero();
    } else {
      SumIsMultiple(x - 1);
      TimesNext(Counter(x - 1));
    }
  }

  type Schedule = nat -> bv32

  function A(k: Quad<bv32>): Schedule {
    (x: nat) => FirstKey(k, SumAfter(x))
  }

  function B(k: Quad<bv32>): Schedule {
    (x: nat) => SecondKey(k, SumAfter(x + 1))
  }

  function Rounds(up: HalfRound, a: Schedule, b: Schedule, r: nat, p: Pair): Pair {
    if r == 0 then p else Round(up, a(r - 1), b(r - 1), Rounds(up, a, b, r - 1, p))
  }

  function Unrounds(down: HalfRound, a: Schedule, b: Schedule, r: nat, p: Pair): Pair {
    if r == 0 then p else Unrounds(down, a, b, r - 1, Unround(down, a(r - 1), b(r - 1), p))
  }

  /** Precomputing the schedules leaves the published cipher unchanged. */
  lemma {:induction false} RoundsAreReference(k: Quad<bv32>, r: nat, p: Pair)
    ensures Reference(k, r, p) == Run(Rounds(Up, A(k), B(k), r, p), SumAfter(r))
  {
    if r > 0 {
      RoundsAreReference(k, r - 1, p);
      KeysAre(k, r - 1);
    }
  }

  lemma KeysAre(k: Quad<bv32>, x: nat)
    ensures A(k)(x) == FirstKey(k, SumAfter(x)) && B(k)(x) == SecondKey(k, SumAfter(x + 1))
  {
  }

  lemma {:induction false} UnroundsRounds(up: HalfRound, down: HalfRound, a: Schedule, b: Schedule, r: nat, p: Pair)
    requires forall y, z, k :: down(up(y, z, k), z, k) == y
    ensures Unrounds(down, a, b, r, Rounds(up, a, b, r, p)) == p
  {
    if r > 0 {
      UnroundsRounds(up, down, a, b, r - 1, p);
    }
  }

  /* ---- Wide arithmetic ---- */

  function Wide(x: bv32): bv64 {
    x as bv64
  }

  function WideAdd(y: bv64, z: bv64, k: bv64): bv64 {
    (y + ((((z << 4) ^ (z >> 5)) + z) ^ k)) & 0xFFFFFFFF
  }

  function WideSub(y: bv64, z: bv64, k: bv64): bv64 {
    (y - ((((z << 4) ^ (z >> 5)) + z) ^ k)) & 0xFFFFFFFF
  }

  lemma WideIs(x: bv32)
    ensures Wide(x) == x as bv64
  {
  }

  lemma RawAdd(y: bv32, z: bv32, k: bv32)
    ensures WideAdd(y as bv64, z as bv64, k as bv64) == (y + ((((z << 4) ^ (z >> 5)) + z) ^ k)) as bv64
    ensures Add(y, (((z << 4) ^ (z >> 5)) + z) ^ k) == y + ((((z << 4) ^ (z >> 5)) + z) ^ k)
  {
  }

  lemma RawSub(y: bv32, z: bv32, k: bv32)
    ensures WideSub(y as bv64, z as bv64, k as bv64) == (y - ((((z << 4) ^ (z >> 5)) + z) ^ k)) as bv64
    ensures Sub(y, (((z << 4) ^ (z >> 5)) + z) ^ k) == y - ((((z << 4) ^ (z >> 5)) + z) ^ k)
  {
  }

  lemma WideRawAdd(y: bv32, z: bv32, k: bv32)
    ensures WideAdd(y as bv64, z as bv64, k as bv64) == Wide(y + ((((z << 4) ^ (z >> 5)) + z) ^ k))
  {
    RawAdd(y, z, k);
    WideIs(y + ((((z << 4) ^ (z >> 5)) + z) ^ k));
  }

  lemma WideRawSub(y: bv32, z: bv32, k: bv32)
    ensures WideSub(y as bv64, z as bv64, k as bv64) == Wide(y - ((((z << 4) ^ (z >> 5)) + z) ^ k))
  {
    RawSub(y, z, k);
    WideIs(y - ((((z << 4) ^ (z >> 5)) + z) ^ k));
  }

  lemma MixedIs(z: bv32, k: bv32)
    ensures Mixed(z, k) == (((z << 4) ^ (z >> 5)) + z) ^ k
  {
  }

  lemma AddMixedIs(y: bv32, z: bv32, k: bv32)
    ensures Up(y, z, k) == y + ((((z << 4) ^ (z >> 5)) + z) ^ k)
  {
    RawAdd(y, z, k);
    MixedIs(z, k);
  }

  lemma SubMixedIs(y: bv32, z: bv32, k: bv32)
    ensures Down(y, z, k) == y - ((((z << 4) ^ (z >> 5)) + z) ^ k)
  {
    RawSub(y, z, k);
    MixedIs(z, k);
  }

  /** Masked wide arithmetic is 32-bit arithmetic. */
  lemma WideAddIs(y: bv32, z: bv32, k: bv32)
    ensures WideAdd(Wide(y), Wide(z), Wide(k)) == Wide(Up(y, z, k))
  {
    WideIs(y);
    WideIs(z);
    WideIs(k);
    WideRawAdd(y, z, k);
    AddMixedIs(y, z, k);
  }

  lemma WideSubIs(y: bv32, z: bv32, k: bv32)
    ensures WideSub(Wide(y), Wide(z), Wide(k)) == Wide(Down(y, z, k))
  {
    WideIs(y);
    WideIs(z);
    WideIs(k);
    WideRawSub(y, z, k);
    SubMixedIs(y, z, k);
  }

  /* ---- The setup, in wide arithmetic ---- */

  function WideSelect(k: Quad<bv64>, i: bv64): bv64 {
    if i == 0 then k.a else if i == 1 then k.b else if i == 2 then k.c else k.d
  }

  function WideQuad(k: Quad<bv32>): Quad<bv64> {
    Quad(Wide(k.a), Wide(k.b), Wide(k.c), Wide(k.d))
  }

  function WideSum(x: bv64, y: bv64): bv64 {
    (x + y) & 0xFFFFFFFF
  }

  function WideFirstIndex(sum: bv64): bv64 {
    sum & 3
  }

  function WideSecondIndex(sum: bv64): bv64 {
    (sum >> 11) & 3
  }

  lemma WideSumIs(x: bv32, y: bv32)
    ensures WideSum(Wide(x), Wide(y)) == Wide(Add(x, y))
  {
    WideIs(x);
    WideIs(y);
    WideRawSum(x, y);
    WideIs(x + y);
  }

  lemma WideRawSum(x: bv32, y: bv32)
    ensures WideSum(x as bv64, y as bv64) == (x + y) as bv64 && Add(x, y) == x + y
  {
  }

  lemma WideDeltaIs(sum: bv32)
    ensures WideSum(Wide(sum), 0x9E3779B9) == Wide(PlusDelta(sum))
  {
  }

  lemma WideIndexIs(sum: bv32)
    ensures WideFirstIndex(Wide(sum)) == Wide(FirstIndex(sum))
    ensures WideSecondIndex(Wide(sum)) == Wide(SecondIndex(sum))
  {
  }

  lemma WideSelectIs(k: Quad<bv32>, i: bv32)
    ensures WideSelect(WideQuad(k), Wide(i)) == Wide(Select(k, i))
  {
  }

  lemma WideKeysAre(k: Quad<bv32>, sum: bv32)
    ensures WideSum(Wide(sum), WideSelect(WideQuad(k), WideFirstIndex(Wide(sum)))) == Wide(FirstKey(k, sum))
    ensures WideSum(Wide(sum), WideSelect(WideQuad(k), WideSecondIndex(Wide(sum)))) == Wide(SecondKey(k, sum))
  {
    WideIndexIs(sum);
    WideSelectIs(k, FirstIndex(sum));
    WideSelectIs(k, SecondIndex(sum));
    WideSumIs(sum, Select(k, FirstIndex(sum)));
    WideSumIs(sum, Select(k, SecondIndex(sum)));
  }

  function KeyQuad(key: seq<Byte>): Quad<bv32>
    requires |key| == 16
  {
    LoadQuad(Load32L, key)
  }

  ghost predicate ScheduledAt(a: Schedule, b: Schedule, ax: bv64, bx: bv64, x: nat) {
    ax == Wide(a(x)) && bx == Wide(b(x))
  }

  /** The first `n` entries of both schedules are in place. */
  ghost predicate Scheduled(a: Schedule, b: Schedule, ax: seq<bv64>, bx: seq<bv64>, n: nat) {
    n <= |ax| && n <= |bx| && forall x | 0 <= x < n :: ScheduledAt(a, b, ax[x], bx[x], x)
  }

  method ScheduleStep(k: Quad<bv32>, x: nat, sum: bv64) returns (ax: bv64, bx: bv64, next: bv64)
    requires sum == Wide(SumAfter(x))
    ensures ScheduledAt(A(k), B(k), ax, bx, x) && next == Wide(SumAfter(x + 1))
  {
    var wide := WideQuad(k);
    ax := WideSum(sum, WideSelect(wide, WideFirstIndex(sum)));
    next := WideSum(sum, 0x9E3779B9);
    bx := WideSum(next, WideSelect(wide, WideSecondIndex(next)));
    WideKeysAre(k, SumAfter(x));
    WideDeltaIs(SumAfter(x));
    WideKeysAre(k, SumAfter(x + 1));
    KeysAre(k, x);
  }

  method Setup(key: seq<Byte>, numRounds: int, ax: array<bv64>, bx: array<bv64>) returns (status: Status)
    requires ax != bx && ax.Length == bx.Length == ROUNDS
    modifies ax, bx
    ensures status ==
      if |key| != 16 then InvalidKeySize else if numRounds != 0 && numRounds != 32 then InvalidRounds else Ok
    ensures status == Ok ==> Scheduled(A(KeyQuad(key)), B(KeyQuad(key)), ax[..], bx[..], ROUNDS)
    ensures status != Ok ==> ax[..] == old(ax[..]) && bx[..] == old(bx[..])
  {
    if |key| != 16 {
      return InvalidKeySize;
    }
    if numRounds != 0 && numRounds != 32 {
      return InvalidRounds;
    }
    var sum := Wide(0);
    for x := 0 to 32
      invariant sum == Wide(SumAfter(x))
      invariant Scheduled(A(KeyQuad(key)), B(KeyQuad(key)), ax[..], bx[..], x)
    {
      ax[x], bx[x], sum := ScheduleStep(KeyQuad(key), x, sum);
    }
    status := Ok;
  }

  /* ---- Encryption and decryption ---- */

  ghost predicate Holds(y: bv64, z: bv64, p: Pair) {
    y == Wide(p.a) && z == Wide(p.b)
  }

  /*
    What the loops keep.  Both are stated of every state equal to the given one, so that the recursion is unfolded
    in the rounds, which name it, and not in the loops.
   */

  /** y and z hold the state after `r` rounds. */
  ghost predicate Done(y: bv64, z: bv64, a: Schedule, b: Schedule, r: nat, p0: Pair) {
    forall q: Pair | q == p0 :: Holds(y, z, Rounds(Up, a, b, r, q))
  }

  /** Undoing `r` more rounds from the state y and z hold gives `goal`. */
  ghost predicate Undoing(y: bv64, z: bv64, a: Schedule, b: Schedule, r: nat, p: Pair, goal: Pair) {
    Holds(y, z, p) && forall q: Pair | q == p :: Unrounds(Down, a, b, r, q) == goal
  }

  lemma WideUpIs(up: HalfRound, y: bv32, z: bv32, k: bv32)
    requires up == Up
    ensures WideAdd(Wide(y), Wide(z), Wide(k)) == Wide(up(y, z, k))
  {
    WideAddIs(y, z, k);
  }

  lemma WideDownIs(down: HalfRound, y: bv32, z: bv32, k: bv32)
    requires down == Down
    ensures WideSub(Wide(y), Wide(z), Wide(k)) == Wide(down(y, z, k))
  {
    WideSubIs(y, z, k);
  }

  lemma RoundsGrow(up: HalfRound, a: Schedule, b: Schedule, r: nat, p0: Pair)
    ensures var p := Rounds(up, a, b, r, p0);
      var y := up(p.a, p.b, a(r));
      Rounds(up, a, b, r + 1, p0) == Pair(y, up(p.b, y, b(r)))
  {
  }

  lemma RoundDone(y: bv64, z: bv64, ax: bv64, bx: bv64, up: HalfRound, a: Schedule, b: Schedule, r: nat, p0: Pair)
    requires up == Up && Done(y, z, a, b, r, p0) && ScheduledAt(a, b, ax, bx, r)
    ensures var y' := WideAdd(y, z, ax); Done(y', WideAdd(z, y', bx), a, b, r + 1, p0)
  {
    var p := Rounds(up, a, b, r, p0);
    assert Holds(y, z, p);
    WideUpIs(up, p.a, p.b, a(r));
    WideUpIs(up, p.b, up(p.a, p.b, a(r)), b(r));
    RoundsGrow(up, a, b, r, p0);
  }

  method EncryptRound(y: bv64, z: bv64, ax: bv64, bx: bv64, ghost a: Schedule, ghost b: Schedule, ghost r: nat, ghost p0: Pair)
    returns (y': bv64, z': bv64)
    requires Done(y, z, a, b, r, p0) && ScheduledAt(a, b, ax, bx, r)
    ensures Done(y', z', a, b, r + 1, p0)
  {
    y' := WideAdd(y, z, ax);
    z' := WideAdd(z, y', bx);
    RoundDone(y, z, ax, bx, Up, a, b, r, p0);
  }

  lemma RoundUndone(y: bv64, z: bv64, ax: bv64, bx: bv64, down: HalfRound, a: Schedule, b: Schedule, r: nat, p: Pair, goal: Pair)
    requires down == Down && Undoing(y, z, a, b, r + 1, p, goal) && ScheduledAt(a, b, ax, bx, r)
    ensures var z' := WideSub(z, y, bx);
      Undoing(WideSub(y, z', ax), z', a, b, r, Unround(down, a(r), b(r), p), goal)
  {
    assert Unrounds(down, a, b, r + 1, p) == goal;
    WideDownIs(down, p.b, p.a, b(r));
    WideDownIs(down, p.a, down(p.b, p.a, b(r)), a(r));
  }

  method DecryptRound(y: bv64, z: bv64, ax: bv64, bx: bv64,
                      ghost a: Schedule, ghost b: Schedule, ghost r: nat, ghost p: Pair, ghost goal: Pair)
    returns (y': bv64, z': bv64, ghost p': Pair)
    requires Undoing(y, z, a, b, r + 1, p, goal) && ScheduledAt(a, b, ax, bx, r)
    ensures Undoing(y', z', a, b, r, p', goal)
  {
    z' := WideSub(z, y, bx);
    y' := WideSub(y, z', ax);
    RoundUndone(y, z, ax, bx, Down, a, b, r, p, goal);
    p' := Unround(Down, a(r), b(r), p);
  }

  function Narrow(x: bv64): bv32 {
    (x & 0xFFFFFFFF) as bv32
  }

  lemma NarrowWide(x: bv32)
    ensures Narrow(Wide(x)) == x
  {
  }

  function EncryptBlock(k: Quad<bv32>, pt: seq<Byte>): (ct: seq<Byte>)
    requires |pt| == 8
    ensures |ct| == 8
  {
    StorePair(Store32L, Reference(k, ROUNDS, LoadPair(Load32L, pt)).p)
  }

  function DecryptBlock(k: Quad<bv32>, ct: seq<Byte>): (pt: seq<Byte>)
    requires |ct| == 8
    ensures |pt| == 8
  {
    StorePair(Store32L, Unrounds(Down, A(k), B(k), ROUNDS, LoadPair(Load32L, ct)))
  }

  /** Four rounds by the schedule arrays. */
  method FourEncryptRounds(y: bv64, z: bv64, ax: array<bv64>, bx: array<bv64>, r: nat,
                           ghost a: Schedule, ghost b: Schedule, ghost p0: Pair)
    returns (y': bv64, z': bv64)
    requires ax.Length == bx.Length == ROUNDS && Scheduled(a, b, ax[..], bx[..], ROUNDS)
    requires r + 4 <= ROUNDS && Done(y, z, a, b, r, p0)
    ensures Done(y', z', a, b, r + 4, p0)
  {
    y', z' := EncryptRound(y, z, ax[r], bx[r], a, b, r, p0);
    y', z' := EncryptRound(y', z', ax[r + 1], bx[r + 1], a, b, r + 1, p0);
    y', z' := EncryptRound(y', z', ax[r + 2], bx[r + 2], a, b, r + 2, p0);
    y', z' := EncryptRound(y', z', ax[r + 3], bx[r + 3], a, b, r + 3, p0);
  }

  method FourDecryptRounds(y: bv64, z: bv64, ax: array<bv64>, bx: array<bv64>, r: nat,
                           ghost a: Schedule, ghost b: Schedule, ghost p: Pair, ghost goal: Pair)
    returns (y': bv64, z': bv64, ghost p': Pair)
    requires ax.Length == bx.Length == ROUNDS && Scheduled(a, b, ax[..], bx[..], ROUNDS)
    requires 3 <= r < ROUNDS && Undoing(y, z, a, b, r + 1, p, goal)
    ensures Undoing(y', z', a, b, r - 3, p', goal)
  {
    y', z', p' := DecryptRound(y, z, ax[r], bx[r], a, b, r, p, goal);
    y', z', p' := DecryptRound(y', z', ax[r - 1], bx[r - 1], a, b, r - 1, p', goal);
    y', z', p' := DecryptRound(y', z', ax[r - 2], bx[r - 2], a, b, r - 2, p', goal);
    y', z', p' := DecryptRound(y', z', ax[r - 3], bx[r - 3], a, b, r - 3, p', goal);
  }

  method EncryptRounds(y0: bv64, z0: bv64, ax: array<bv64>, bx: array<bv64>, ghost a: Schedule, ghost b: Schedule, ghost p0: Pair)
    returns (y: bv64, z: bv64)
    requires ax.Length == bx.Length == ROUNDS && Scheduled(a, b, ax[..], bx[..], ROUNDS)
    requires Done(y0, z0, a, b, 0, p0)
    ensures Done(y, z, a, b, ROUNDS, p0)
  {
    y, z := y0, z0;
    var r := 0;
    while r < 32
      invariant r % 4 == 0 && r <= 32
      invariant Done(y, z, a, b, r, p0)
    {
      y, z := FourEncryptRounds(y, z, ax, bx, r, a, b, p0);
      r := r + 4;
    }
  }

  lemma AllUndone(y: bv64, z: bv64, a: Schedule, b: Schedule, p: Pair, goal: Pair)
    requires Undoing(y, z, a, b, 0, p, goal)
    ensures Holds(y, z, goal)
  {
    assert Unrounds(Down, a, b, 0, p) == goal;
  }

  method DecryptRounds(y0: bv64, z0: bv64, ax: array<bv64>, bx: array<bv64>,
                       ghost a: Schedule, ghost b: Schedule, ghost p0: Pair, ghost goal: Pair)
    returns (y: bv64, z: bv64)
    requires ax.Length == bx.Length == ROUNDS && Scheduled(a, b, ax[..], bx[..], ROUNDS)
    requires Undoing(y0, z0, a, b, ROUNDS, p0, goal)
    ensures Holds(y, z, goal)
  {
    y, z := y0, z0;
    ghost var p := p0;
    var r := 31;
    while r >= 0
      invariant r % 4 == 3 && -1 <= r <= 31
      invariant Undoing(y, z, a, b, r + 1, p, goal)
    {
      y, z, p := FourDecryptRounds(y, z, ax, bx, r, a, b, p, goal);
      r := r - 4;
    }
    AllUndone(y, z, a, b, p, goal);
  }

  method EcbEncrypt(pt: seq<Byte>, ax: array<bv64>, bx: array<bv64>, ghost k: Quad<bv32>) returns (ct: seq<Byte>)
    requires |pt| == 8 && ax.Length == bx.Length == ROUNDS && Scheduled(A(k), B(k), ax[..], bx[..], ROUNDS)
    ensures ct == EncryptBlock(k, pt)
  {
    var p := LoadPair(Load32L, pt);
    var y, z := EncryptRounds(Wide(p.a), Wide(p.b), ax, bx, A(k), B(k), p);
    ct := Store32L(Narrow(y)) + Store32L(Narrow(z));
    ghost var q := Rounds(Up, A(k), B(k), ROUNDS, p);
    assert Holds(y, z, q);
    NarrowWide(q.a);
    NarrowWide(q.b);
    RoundsAreReference(k, ROUNDS, p);
  }

  method EcbDecrypt(ct: seq<Byte>, ax: array<bv64>, bx: array<bv64>, ghost k: Quad<bv32>) returns (pt: seq<Byte>)
    requires |ct| == 8 && ax.Length == bx.Length == ROUNDS && Scheduled(A(k), B(k), ax[..], bx[..], ROUNDS)
    ensures pt == DecryptBlock(k, ct)
  {
    var p := LoadPair(Load32L, ct);
    ghost var q := Unrounds(Down, A(k), B(k), ROUNDS, p);
    var y, z := DecryptRounds(Wide(p.a), Wide(p.b), ax, bx, A(k), B(k), p, q);
    pt := Store32L(Narrow(y)) + Store32L(Narrow(z));
    NarrowWide(q.a);
    NarrowWide(q.b);
  }

  /** Decryption inverts encryption for every key and block. */
  lemma DecryptInvertsEncrypt(k: Quad<bv32>, pt: seq<Byte>)
    requires |pt| == 8
    ensures DecryptBlock(k, EncryptBlock(k, pt)) == pt
  {
    var p := LoadPair(Load32L, pt);
    BothByteOrders();
    RoundsAreReference(k, ROUNDS, p);
    PairBlocks(Load32L, Store32L, Rounds(Up, A(k), B(k), ROUNDS, p), pt);
    forall y, z, w ensures Down(Up(y, z, w), z, w) == y {
      DownUp(y, z, w);
    }
    UnroundsRounds(Up, Down, A(k), B(k), ROUNDS, p);
  }
}

/**
  The denomination splitter (`NXTservices/telepods.h:553-581`): an amount is cut greedily
  into multiples of the coin's minimum, and whatever is left at the end is a last piece.
 */
module Telepods {
  import opened Division

  const KINDS: nat := 10

  /** The minimum times the standard denominations, largest first. */
  function Coin(m: nat, i: nat): nat {
    if i == 0 then m * 10000 else if i == 1 then m * 5000 else if i == 2 then m * 1000 else if i == 3 then m * 500
    else if i == 4 then m * 100 else if i == 5 then m * 50 else if i == 6 then m * 20 else if i == 7 then m * 10
    else if i == 8 then m * 5 else m
  }

  /** In 64-bit arithmetic the product wraps. */
  function Increment(m: nat, i: nat): nat {
    Coin(m, i) % TWO64
  }

  /** The first increment, from number i on, that is less than the amount; or else the whole amount. */
  function PieceFrom(s: nat, m: nat, i: nat): nat
    decreases KINDS - i
  {
    if i >= KINDS then s else if s > Increment(m, i) then Increment(m, i) else PieceFrom(s, m, i + 1)
  }

  function Piece(s: nat, m: nat): nat {
    PieceFrom(s, m, 0)
  }

  lemma {:induction false} PieceAtMost(s: nat, m: nat, i: nat)
    ensures PieceFrom(s, m, i) <= s
    decreases KINDS - i
  {
    if i < KINDS && s <= Increment(m, i) {
      PieceAtMost(s, m, i + 1);
    }
  }

  /** No increment is 0 in 64-bit arithmetic. */
  predicate NoZeroIncrement(m: nat) {
    forall j | 0 <= j < KINDS :: Increment(m, j) > 0
  }

  lemma {:induction false} NoZeroPiece(s: nat, m: nat, i: nat)
    requires s > 0 && NoZeroIncrement(m)
    ensures PieceFrom(s, m, i) > 0
    decreases KINDS - i
  {
    if i < KINDS && s <= Increment(m, i) {
      NoZeroPiece(s, m, i + 1);
    }
  }

  lemma {:induction false} ZeroPiece(m: nat, i: nat, j: nat)
    requires i <= j < KINDS && Increment(m, j) == 0
    ensures PieceFrom(1, m, i) == 0
    decreases KINDS - i
  {
    if Increment(m, i) != 0 {
      ZeroPiece(m, i + 1, j);
    }
  }

  /** The loop always makes progress if and only if no increment is 0 in 64-bit arithmetic. */
  lemma ProgressExactly(m: nat)
    ensures (forall s: nat | s > 0 :: Piece(s, m) > 0) <==> NoZeroIncrement(m)
  {
    if NoZeroIncrement(m) {
      forall s: nat | s > 0 ensures Piece(s, m) > 0 {
        NoZeroPiece(s, m, 0);
      }
    } else {
      var j :| 0 <= j < KINDS && Increment(m, j) <= 0;
      ZeroPiece(m, 0, j);
      assert Piece(1, m) == 0;
    }
  }

  /** What is left of an amount after some rounds of the loop. */
  function Left(s: nat, m: nat, rounds: nat): nat {
    if rounds == 0 then s
    else
      PieceAtMost(s, m, 0);
      Left(s - Piece(s, m), m, rounds - 1)
  }

  lemma {:induction false} PieceLeavesSome(s: nat, m: nat, i: nat, j: nat)
    requires s > 0 && i <= j < KINDS && Increment(m, j) == 0
    ensures PieceFrom(s, m, i) < s
    decreases KINDS - i
  {
    if s <= Increment(m, i) {
      PieceLeavesSome(s, m, i + 1, j);
    }
  }

  /** If an increment is 0, something is always left. */
  lemma {:induction false} SomeAlwaysLeft(s: nat, m: nat, rounds: nat)
    requires s > 0 && !NoZeroIncrement(m)
    ensures Left(s, m, rounds) > 0
    decreases rounds
  {
    if rounds > 0 {
      var j :| 0 <= j < KINDS && Increment(m, j) <= 0;
      PieceLeavesSome(s, m, 0, j);
      SomeAlwaysLeft(s - Piece(s, m), m, rounds - 1);
    }
  }

  lemma {:induction false} NothingLeftAfter(s: nat, m: nat)
    requires NoZeroIncrement(m)
    ensures Left(s, m, s) == 0
    decreases s
  {
    if s > 0 {
      PieceAtMost(s, m, 0);
      NoZeroPiece(s, m, 0);
      NothingLeftAfter(s - Piece(s, m), m);
      StaysEmpty(s - Piece(s, m), m, s - Piece(s, m), s - 1);
    }
  }

  lemma {:induction false} StaysEmpty(s: nat, m: nat, rounds: nat, more: nat)
    requires Left(s, m, rounds) == 0 && rounds <= more
    ensures Left(s, m, more) == 0
    decreases more
  {
    if more > 0 {
      PieceAtMost(s, m, 0);
      if rounds > 0 {
        StaysEmpty(s - Piece(s, m), m, rounds - 1, more - 1);
      } else {
        StaysEmpty(s - Piece(s, m), m, 0, more - 1);
      }
    }
  }

  /** For every amount the loop ends if and only if no increment is 0 in 64-bit arithmetic. */
  lemma EndsExactly(s: nat, m: nat)
    requires s > 0
    ensures (exists rounds :: Left(s, m, rounds) == 0) <==> NoZeroIncrement(m)
  {
    if NoZeroIncrement(m) {
      NothingLeftAfter(s, m);
    } else {
      forall rounds: nat ensures Left(s, m, rounds) != 0 {
        SomeAlwaysLeft(s, m, rounds);
      }
    }
  }

  /** So with a minimum of 0 the loop does not end. */
  lemma ZeroMinimumSticks(s: nat, rounds: nat)
    requires s > 0
    ensures Piece(s, 0) == 0 && Left(s, 0, rounds) > 0
  {
    assert Increment(0, 0) <= 0;
    SomeAlwaysLeft(s, 0, rounds);
  }

  /** No product exceeds 64 bits; the loop then makes progress. */
  predicate Sensible(m: nat) {
    m > 0 && m * 10000 < TWO64
  }

  lemma SensibleIncrement(m: nat, i: nat)
    requires Sensible(m)
    ensures Increment(m, i) == Coin(m, i) > 0
  {
  }

  lemma SensibleProgresses(m: nat)
    requires Sensible(m)
    ensures NoZeroIncrement(m)
  {
    forall j | 0 <= j < KINDS ensures Increment(m, j) > 0 {
      SensibleIncrement(m, j);
    }
  }

  lemma PieceShrinks(s: nat, m: nat)
    requires NoZeroIncrement(m) && s > 0
    ensures 0 < Piece(s, m) <= s
  {
    NoZeroPiece(s, m, 0);
    PieceAtMost(s, m, 0);
  }

  /** The piece cut from s is number i, when s exceeds increment i and none before it. */
  lemma {:induction false} PieceIs(s: nat, m: nat, i: nat, from: nat)
    requires Sensible(m) && from <= i < KINDS && s > Coin(m, i)
    requires forall j | 0 <= j < i :: s <= Coin(m, j)
    ensures PieceFrom(s, m, from) == Coin(m, i)
    decreases KINDS - from
  {
    SensibleIncrement(m, from);
    if from < i {
      PieceIs(s, m, i, from + 1);
    }
  }

  lemma {:induction false} LastPiece(s: nat, m: nat, from: nat)
    requires Sensible(m) && s <= m
    ensures PieceFrom(s, m, from) == s
    decreases KINDS - from
  {
    if from < KINDS {
      SensibleIncrement(m, from);
      LastPiece(s, m, from + 1);
    }
  }

  /** The piece the splitter cuts, as a function of the amount. */
  type Cutter = nat -> nat

  function Splitter(m: nat): Cutter {
    (s: nat) => Piece(s, m)
  }

  ghost predicate Shrinks(c: Cutter) {
    forall s: nat | s > 0 :: 0 < c(s) <= s
  }

  /** The pieces of a full run. */
  ghost function Pieces(c: Cutter, s: nat): seq<nat>
    requires Shrinks(c)
  {
    if s == 0 then [] else [c(s)] + Pieces(c, s - c(s))
  }

  lemma ProgressShrinks(m: nat)
    requires NoZeroIncrement(m)
    ensures Shrinks(Splitter(m))
  {
    forall s: nat | s > 0 ensures 0 < Splitter(m)(s) <= s {
      PieceShrinks(s, m);
    }
  }

  lemma SplitterShrinks(m: nat)
    requires Sensible(m)
    ensures Shrinks(Splitter(m))
  {
    SensibleProgresses(m);
    ProgressShrinks(m);
  }

  function Sum(p: seq<nat>): nat {
    if p == [] then 0 else p[0] + Sum(p[1..])
  }

  /** Nothing is lost: the pieces add up to the amount. */
  lemma {:induction false} PiecesAddUp(c: Cutter, s: nat)
    requires Shrinks(c)
    ensures Sum(Pieces(c, s)) == s
  {
    if s > 0 {
      PiecesAddUp(c, s - c(s));
      assert Pieces(c, s)[1..] == Pieces(c, s - c(s));
    }
  }

  /* ---- The shape of a run ---- */

  lemma {:induction false} PieceMonotone(t: nat, s: nat, m: nat, i: nat)
    requires t <= s
    ensures PieceFrom(t, m, i) <= PieceFrom(s, m, i)
    decreases KINDS - i
  {
    PieceAtMost(t, m, i);
    if i < KINDS {
      PieceMonotone(t, s, m, i + 1);
      PieceAtMost(t, m, i + 1);
    }
  }

  ghost predicate NonIncreasing(p: seq<nat>) {
    forall k | 0 <= k < |p| - 1 :: p[k + 1] <= p[k]
  }

  lemma {:induction false} PiecesNonIncreasing(c: Cutter, s: nat)
    requires Shrinks(c) && forall t: nat, s: nat | t <= s :: c(t) <= c(s)
    ensures NonIncreasing(Pieces(c, s))
  {
    if s > 0 {
      var p := Pieces(c, s - c(s));
      PiecesNonIncreasing(c, s - c(s));
      assert p != [] ==> p[0] == c(s - c(s));
    }
  }

  lemma SplitterNonIncreasing(s: nat, m: nat)
    requires Sensible(m)
    ensures Shrinks(Splitter(m)) && NonIncreasing(Pieces(Splitter(m), s))
  {
    SplitterShrinks(m);
    forall t: nat, s: nat | t <= s ensures Splitter(m)(t) <= Splitter(m)(s) {
      PieceMonotone(t, s, m, 0);
    }
    PiecesNonIncreasing(Splitter(m), s);
  }

  ghost predicate Standard(a: nat, m: nat) {
    exists i | 0 <= i < KINDS :: a == Coin(m, i)
  }

  /** A cutter that takes all of a small amount and a standard piece of a larger one. */
  ghost predicate Standardised(c: Cutter, m: nat) {
    && (forall s: nat | s <= m :: c(s) == s)
    && (forall s: nat | s > m :: c(s) < s && Standard(c(s), m))
  }

  lemma {:induction false} LargePiece(s: nat, m: nat, i: nat)
    requires Sensible(m) && s > m && i < KINDS
    ensures PieceFrom(s, m, i) < s && Standard(PieceFrom(s, m, i), m)
    decreases KINDS - i
  {
    SensibleIncrement(m, i);
    if s > Increment(m, i) {
      assert PieceFrom(s, m, i) == Coin(m, i);
    } else {
      assert i < KINDS - 1;
      LargePiece(s, m, i + 1);
    }
  }

  ghost predicate AllButLastStandard(p: seq<nat>, m: nat) {
    p != [] && p[|p| - 1] <= m && forall k | 0 <= k < |p| - 1 :: Standard(p[k], m)
  }

  lemma PrependStandard(a: nat, p: seq<nat>, m: nat)
    requires Standard(a, m) && AllButLastStandard(p, m)
    ensures AllButLastStandard([a] + p, m)
  {
    var q := [a] + p;
    forall k | 0 <= k < |q| - 1 ensures Standard(q[k], m) {
      assert k > 0 ==> q[k] == p[k - 1];
    }
  }

  lemma {:induction false} CutterStandard(c: Cutter, s: nat, m: nat)
    requires Shrinks(c) && Standardised(c, m) && s > 0
    ensures AllButLastStandard(Pieces(c, s), m)
  {
    if s <= m {
      assert Pieces(c, s) == [s] + Pieces(c, 0);
    } else {
      CutterStandard(c, s - c(s), m);
      PrependStandard(c(s), Pieces(c, s - c(s)), m);
    }
  }

  /** All pieces but the last are the minimum times a standard denomination; the last is at most the minimum. */
  lemma PiecesStandard(s: nat, m: nat)
    requires Sensible(m) && s > 0
    ensures Shrinks(Splitter(m)) && AllButLastStandard(Pieces(Splitter(m), s), m)
  {
    SplitterShrinks(m);
    forall r: nat | r <= m ensures Splitter(m)(r) == r {
      LastPiece(r, m, 0);
    }
    forall r: nat | r > m ensures Splitter(m)(r) < r && Standard(Splitter(m)(r), m) {
      LargePiece(r, m, 0);
    }
    CutterStandard(Splitter(m), s, m);
  }

  /* ---- The number of pieces ---- */

  /** What the splitter cuts: the whole of a small amount, and the largest coin below a larger one. */
  ghost predicate Greedy(c: Cutter, m: nat) {
    && m > 0 && Shrinks(c)
    && (forall r: nat | r <= m :: c(r) == r)
    && (forall r: nat | r > Coin(m, 0) :: c(r) == Coin(m, 0))
    && (forall r: nat, i: nat | i < KINDS - 1 && Coin(m, i + 1) < r <= Coin(m, i) :: c(r) == Coin(m, i + 1))
  }

  lemma SplitterGreedy(m: nat)
    requires Sensible(m)
    ensures Greedy(Splitter(m), m)
  {
    SplitterShrinks(m);
    forall r: nat | r <= m ensures Splitter(m)(r) == r {
      LastPiece(r, m, 0);
    }
    forall r: nat | r > Coin(m, 0) ensures Splitter(m)(r) == Coin(m, 0) {
      PieceIs(r, m, 0, 0);
    }
    forall r: nat, i: nat | i < KINDS - 1 && Coin(m, i + 1) < r <= Coin(m, i)
      ensures Splitter(m)(r) == Coin(m, i + 1)
    {
      forall j | 0 <= j < i + 1 ensures r <= Coin(m, j) {
        Coins(m, i, j);
      }
      PieceIs(r, m, i + 1, 0);
    }
  }

  /** The most pieces an amount up to denomination i takes. */
  function Most(i: nat): nat {
    if i == 0 then 19 else if i == 1 then 18 else if i == 2 then 14 else if i == 3 then 13
    else if i == 4 then 9 else if i == 5 then 8 else if i == 6 then 7 else if i == 7 then 6
    else if i == 8 then 5 else 1
  }

  /** How often the next smaller denomination fits into denomination i, rounded up. */
  function Ratio(i: nat): nat {
    if i == 1 || i == 3 || i == 8 then 5 else if i == 5 then 3 else 2
  }

  lemma Coins(m: nat, i: nat, j: nat)
    requires j <= i < KINDS
    ensures Coin(m, i) <= Coin(m, j)
  {
  }

  /** Between two denominations the smaller one is cut off. */
  lemma Cut(c: Cutter, r: nat, m: nat, i: nat)
    requires Greedy(c, m) && i + 1 < KINDS && Coin(m, i + 1) < r <= Coin(m, i)
    ensures |Pieces(c, r)| == 1 + |Pieces(c, r - Coin(m, i + 1))|
  {
    assert c(r) == Coin(m, i + 1);
  }

  lemma Whole(c: Cutter, r: nat, m: nat)
    requires Greedy(c, m) && 0 < r <= m
    ensures |Pieces(c, r)| == 1
  {
    assert c(r) == r;
    assert Pieces(c, 0) == [];
  }

  lemma AtMost(c: Cutter, r: nat, m: nat, i: nat)
    requires Greedy(c, m) && i < KINDS && 0 < r <= Coin(m, i)
    ensures |Pieces(c, r)| <= Most(i)
    decreases KINDS - i, 1, 0
  {
    if i == 9 {
      Whole(c, r, m);
    } else if i == 5 {
      FiftyToTwenty(c, r, m);
    } else {
      CutsAtMost(c, r, m, i, Coin(m, i + 1), Ratio(i));
    }
  }

  /** An amount of at most k of the next coins, u. */
  lemma {:induction false} CutsAtMost(c: Cutter, r: nat, m: nat, i: nat, u: nat, k: nat)
    requires Greedy(c, m) && i + 1 < KINDS && u == Coin(m, i + 1) && 0 < r <= Coin(m, i) && 0 < k <= 5 && AtMostTimes(r, u, k)
    ensures |Pieces(c, r)| <= k - 1 + Most(i + 1)
    decreases KINDS - i, 0, k
  {
    if r <= u {
      AtMost(c, r, m, i + 1);
    } else {
      Cut(c, r, m, i);
      OneLess(r, u, k);
      CutsAtMost(c, r - u, m, i, u, k - 1);
    }
  }

  lemma OneLess(r: nat, u: nat, k: nat)
    requires r > u && 0 < k <= 5 && AtMostTimes(r, u, k)
    ensures k > 1 && AtMostTimes(r - u, u, k - 1)
  {
  }

  /** r <= k * u, for k up to 5. */
  predicate AtMostTimes(r: nat, u: nat, k: nat) {
    if k == 1 then r <= u else if k == 2 then r <= 2 * u else if k == 3 then r <= 3 * u
    else if k == 4 then r <= 4 * u else r <= 5 * u
  }

  /** Two twenties leave at most a ten. */
  lemma FiftyToTwenty(c: Cutter, r: nat, m: nat)
    requires Greedy(c, m) && 0 < r <= Coin(m, 5)
    ensures |Pieces(c, r)| <= Most(5)
    decreases KINDS - 5, 0, 1
  {
    if r <= Coin(m, 6) {
      AtMost(c, r, m, 6);
    } else {
      Cut(c, r, m, 5);
      AfterTwenty(c, r - Coin(m, 6), m);
    }
  }

  lemma AfterTwenty(c: Cutter, r: nat, m: nat)
    requires Greedy(c, m) && 0 < r <= m * 30
    ensures |Pieces(c, r)| <= 7
    decreases KINDS - 5, 0, 0
  {
    if r <= Coin(m, 6) {
      AtMost(c, r, m, 6);
    } else {
      Cut(c, r, m, 5);
      AtMost(c, r - Coin(m, 6), m, 7);
    }
  }

  /** Amounts above u lose u at a time; the others take at most n pieces. */
  ghost predicate CutsOff(c: Cutter, u: nat, n: nat) {
    && Shrinks(c)
    && (forall r: nat | r > u :: c(r) == u)
    && (forall r: nat | 0 < r <= u :: |Pieces(c, r)| <= n)
  }

  lemma {:induction false} PieceCount(c: Cutter, s: nat, u: nat, n: nat, k: nat)
    requires CutsOff(c, u, n) && k * u < s <= k * u + u
    ensures |Pieces(c, s)| <= k + n
    decreases k
  {
    if k > 0 {
      OneCut(s, u, k);
      PieceCount(c, s - u, u, n, k - 1);
    }
  }

  lemma OneCut(s: nat, u: nat, k: nat)
    requires 0 < k && k * u < s <= k * u + u
    ensures s > u && (k - 1) * u < s - u <= (k - 1) * u + u
  {
    Distributes(k - 1, 1, u);
  }

  lemma GreedyCutsOff(c: Cutter, m: nat)
    requires Greedy(c, m)
    ensures CutsOff(c, m * 10000, 19)
  {
    forall r: nat | 0 < r <= m * 10000 ensures |Pieces(c, r)| <= 19 {
      AtMost(c, r, m, 0);
    }
  }

  lemma PieceCountBy(c: Cutter, s: nat, u: nat, n: nat)
    requires u > 0 && s > 0 && CutsOff(c, u, n)
    ensures |Pieces(c, s)| <= (s - 1) / u + n
  {
    QuotientBounds(s - 1, u);
    PieceCount(c, s, u, n, (s - 1) / u);
  }

  /** A full run makes at most (s - 1) / (10000 m) + 19 pieces. */
  lemma RunLength(s: nat, m: nat)
    requires Sensible(m) && s > 0
    ensures Shrinks(Splitter(m)) && |Pieces(Splitter(m), s)| <= (s - 1) / (m * 10000) + 19
  {
    SplitterGreedy(m);
    GreedyCutsOff(Splitter(m), m);
    PieceCountBy(Splitter(m), s, m * 10000, 19);
  }

  function Times(k: nat, u: nat): nat {
    if k == 1 then u else if k == 2 then 2 * u else if k == 3 then 3 * u else if k == 4 then 4 * u else 5 * u
  }

  lemma CoinRatio(m: nat, i: nat, k: nat)
    requires m > 0 && i + 1 < KINDS && i != 5 && 0 < k <= Ratio(i)
    ensures var u := Coin(m, i + 1);
      && Coin(m, i) == Times(Ratio(i), u) && Times(1, u) == u && Times(k, u) <= Coin(m, i)
      && (k > 1 ==> u < Times(k, u) && Times(k, u) - u == Times(k - 1, u))
  {
  }

  lemma CutOne(c: Cutter, r: nat, m: nat, i: nat, u: nat, k: nat)
    requires Greedy(c, m) && i + 1 < KINDS && i != 5 && 1 < k <= Ratio(i) && u == Coin(m, i + 1) && r == Times(k, u)
    ensures r > u && r - u == Times(k - 1, u) && |Pieces(c, r)| == 1 + |Pieces(c, r - u)|
  {
    CoinRatio(m, i, k);
    Cut(c, r, m, i);
  }

  lemma {:induction false} CutsExactly(c: Cutter, r: nat, m: nat, i: nat, u: nat, k: nat, n: nat)
    requires Greedy(c, m) && i + 1 < KINDS && i != 5 && 0 < k <= Ratio(i) && u == Coin(m, i + 1) && r == Times(k, u)
    requires |Pieces(c, u)| == n
    ensures |Pieces(c, r)| == k - 1 + n
    decreases k
  {
    if k > 1 {
      CutOne(c, r, m, i, u, k);
      CutsExactly(c, r - u, m, i, u, k - 1, n);
    }
  }

  lemma FiftyExactly(c: Cutter, r: nat, t: nat, m: nat)
    requires Greedy(c, m) && r == m * 50 && t == m * 10
    ensures |Pieces(c, r)| == 2 + |Pieces(c, t)|
  {
    Cut(c, r, m, 5);
    Cut(c, r - m * 20, m, 5);
    assert r - m * 20 - m * 20 == t;
  }

  /** The bound is attained: by every denomination, so by the largest. */
  lemma {:induction false} BoundAttained(c: Cutter, m: nat, i: nat)
    requires Greedy(c, m) && i < KINDS
    ensures |Pieces(c, Coin(m, i))| == Most(i)
    decreases KINDS - i
  {
    if i == 9 {
      Whole(c, m, m);
    } else if i == 5 {
      BoundAttained(c, m, 7);
      FiftyExactly(c, Coin(m, 5), Coin(m, 7), m);
    } else {
      BoundAttained(c, m, i + 1);
      CoinRatio(m, i, Ratio(i));
      CutsExactly(c, Coin(m, i), m, i, Coin(m, i + 1), Ratio(i), Most(i + 1));
    }
  }

  /** The bound cannot be improved: the largest denomination itself takes 19 pieces. */
  lemma RunLengthAttained(m: nat)
    requires Sensible(m)
    ensures Shrinks(Splitter(m)) && |Pieces(Splitter(m), m * 10000)| == 19
  {
    SplitterGreedy(m);
    BoundAttained(Splitter(m), m, 0);
  }

  /* ---- The loop ---- */

  method ChooseAmount(satoshis: nat, minimum: nat) returns (amount: nat)
    ensures amount == Piece(satoshis, minimum)
  {
    amount := satoshis;
    for i := 0 to KINDS
      invariant amount == satoshis
      invariant Piece(satoshis, minimum) == PieceFrom(satoshis, minimum, i)
    {
      var incr := Coin(minimum, i) % TWO64;
      if satoshis > incr {
        amount := incr;
        return;
      }
    }
  }

  /** The state of a run: what has been cut so far, and what is left to cut. */
  ghost predicate PartWay(c: Cutter, s: nat, pieces: seq<nat>, left: nat)
    requires Shrinks(c)
  {
    Sum(pieces) + left == s && Pieces(c, s) == pieces + Pieces(c, left)
  }

  lemma Starts(c: Cutter, s: nat)
    requires Shrinks(c)
    ensures PartWay(c, s, [], s)
  {
  }

  lemma Steps(c: Cutter, s: nat, pieces: seq<nat>, left: nat)
    requires Shrinks(c) && left > 0 && PartWay(c, s, pieces, left)
    ensures c(left) <= left && PartWay(c, s, pieces + [c(left)], left - c(left))
  {
    SumAppend(pieces, c(left));
    AppendMoves(pieces, c(left), Pieces(c, left - c(left)));
  }

  lemma Ends(c: Cutter, s: nat, pieces: seq<nat>, left: nat)
    requires Shrinks(c) && PartWay(c, s, pieces, left)
    ensures pieces <= Pieces(c, s)
    ensures left == 0 <==> pieces == Pieces(c, s)
  {
    assert left > 0 ==> |Pieces(c, left)| > 0;
  }

  lemma AppendMoves(p: seq<nat>, a: nat, q: seq<nat>)
    ensures p + ([a] + q) == (p + [a]) + q
  {
  }

  lemma {:induction false} SumAppend(p: seq<nat>, a: nat)
    ensures Sum(p + [a]) == Sum(p) + a
  {
    if p != [] {
      assert (p + [a])[1..] == p[1..] + [a];
      SumAppend(p[1..], a);
    }
  }

  /**
    `made(k)` says whether telepod k can be created; the first failure ends the run.
    Returns the number created, which pieces, and what is left. The loop ends for every minimum
    whose increments are not 0, even where a product wraps.
   */
  method MakeTraceableTelepods(satoshis: nat, minimum: nat, made: nat -> bool)
    returns (n: nat, pieces: seq<nat>, left: nat)
    requires NoZeroIncrement(minimum)
    ensures Shrinks(Splitter(minimum))
    ensures n == |pieces| && pieces <= Pieces(Splitter(minimum), satoshis)
    ensures Sum(pieces) + left == satoshis
    ensures left == 0 <==> pieces == Pieces(Splitter(minimum), satoshis)
    ensures (forall k | 0 <= k < n :: made(k)) && (left > 0 ==> !made(n))
  {
    ProgressShrinks(minimum);
    ghost var c := Splitter(minimum);
    n, pieces, left := 0, [], satoshis;
    Starts(c, satoshis);
    while left > 0
      invariant n == |pieces| && PartWay(c, satoshis, pieces, left)
      invariant forall k | 0 <= k < n :: made(k)
    {
      var amount := ChooseAmount(left, minimum);
      if !made(n) {
        break;
      }
      Steps(c, satoshis, pieces, left);
      left := left - amount;
      pieces := pieces + [amount];
      n := n + 1;
    }
    Ends(c, satoshis, pieces, left);
  }
}

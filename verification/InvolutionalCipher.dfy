/**
  The frame Khazad and Anubis share: R rounds of a non-linear layer `gamma`, a
  diffusion layer `theta` (absent from the last round) and a key addition `add`.
  When both layers are involutions and `theta` is linear, the same routine run under
  transformed round keys is its own inverse.
 */
module InvolutionalCipher {

  ghost predicate Involution<S(!new)>(f: S -> S) {
    forall x :: f(f(x)) == x
  }

  ghost predicate Linear<S(!new)>(f: S -> S, add: (S, S) -> S) {
    forall x, y :: f(add(x, y)) == add(f(x), f(y))
  }

  ghost predicate Cancels<S(!new)>(add: (S, S) -> S) {
    forall x, k :: add(add(x, k), k) == x
  }

  /** The state after the initial key addition and `n` full rounds. */
  function FullRounds<S>(gamma: S -> S, theta: S -> S, add: (S, S) -> S, keys: seq<S>, n: nat, x: S): S
    requires n < |keys|
  {
    if n == 0 then add(x, keys[0])
    else add(theta(gamma(FullRounds(gamma, theta, add, keys, n - 1, x))), keys[n])
  }

  function Crypt<S>(gamma: S -> S, theta: S -> S, add: (S, S) -> S, keys: seq<S>, x: S): S
    requires |keys| >= 2
  {
    var last := |keys| - 1;
    add(gamma(FullRounds(gamma, theta, add, keys, last - 1, x)), keys[last])
  }

  lemma RoundByRound<S>(gamma: S -> S, theta: S -> S, add: (S, S) -> S, keys: seq<S>, n: nat, x: S)
    requires n < |keys|
    ensures FullRounds(gamma, theta, add, keys, 0, x) == add(x, keys[0])
    ensures n > 0 ==>
      FullRounds(gamma, theta, add, keys, n, x) == add(theta(gamma(FullRounds(gamma, theta, add, keys, n - 1, x))), keys[n])
  {
  }

  lemma CryptIs<S>(gamma: S -> S, theta: S -> S, add: (S, S) -> S, keys: seq<S>, x: S)
    requires |keys| >= 2
    ensures Crypt(gamma, theta, add, keys, x)
         == add(gamma(FullRounds(gamma, theta, add, keys, |keys| - 2, x)), keys[|keys| - 1])
  {
  }

  /** `dec` is the inverse schedule of `enc`: reversed, with `theta` applied to all but the outer two keys. */
  ghost predicate InverseSchedule<S>(theta: S -> S, enc: seq<S>, dec: seq<S>) {
    && |enc| == |dec| >= 2
    && dec[0] == enc[|enc| - 1]
    && dec[|enc| - 1] == enc[0]
    && forall r :: 1 <= r < |enc| - 1 ==> dec[r] == theta(enc[|enc| - 1 - r])
  }

  /** The keys of an inverse schedule known so far; all but the last can be. */
  ghost predicate InverseSoFar<S>(theta: S -> S, enc: seq<S>, dec: seq<S>) {
    && 1 <= |dec| < |enc|
    && dec[0] == enc[|enc| - 1]
    && forall i | 1 <= i < |dec| :: dec[i] == theta(enc[|enc| - 1 - i])
  }

  lemma InverseGrows<S>(theta: S -> S, enc: seq<S>, dec: seq<S>, k: S)
    requires InverseSoFar(theta, enc, dec) && |dec| < |enc| - 1 && k == theta(enc[|enc| - 1 - |dec|])
    ensures InverseSoFar(theta, enc, dec + [k])
  {
  }

  lemma InverseCompletes<S>(theta: S -> S, enc: seq<S>, dec: seq<S>)
    requires InverseSoFar(theta, enc, dec) && |dec| == |enc| - 1
    ensures InverseSchedule(theta, enc, dec + [enc[0]])
  {
  }

  /** A round under the transformed key takes back the linear part of the round before. */
  lemma PeelOff<S(!new)>(gamma: S -> S, theta: S -> S, add: (S, S) -> S, k: S, y: S)
    requires Involution(gamma) && Involution(theta) && Linear(theta, add) && Cancels(add)
    ensures add(theta(gamma(gamma(add(theta(gamma(y)), k)))), theta(k)) == gamma(y)
  {
    var z := add(theta(gamma(y)), k);
    assert gamma(gamma(z)) == z;
    assert add(theta(z), theta(k)) == theta(add(z, k));
    assert add(z, k) == theta(gamma(y));
  }

  lemma FirstPeel<S(!new)>(gamma: S -> S, theta: S -> S, add: (S, S) -> S, enc: seq<S>, dec: seq<S>, x: S)
    requires Cancels(add) && InverseSchedule(theta, enc, dec)
    ensures FullRounds(gamma, theta, add, dec, 0, Crypt(gamma, theta, add, enc, x))
         == gamma(FullRounds(gamma, theta, add, enc, |enc| - 2, x))
  {
  }

  lemma NextPeel<S(!new)>(
    gamma: S -> S, theta: S -> S, add: (S, S) -> S, enc: seq<S>, dec: seq<S>, n: nat, m: nat, x: S, c: S)
    requires Involution(gamma) && Involution(theta) && Linear(theta, add) && Cancels(add)
    requires InverseSchedule(theta, enc, dec) && 0 < n && 0 < m && n + m + 1 == |enc|
    requires FullRounds(gamma, theta, add, dec, n - 1, c) == gamma(FullRounds(gamma, theta, add, enc, m, x))
    ensures FullRounds(gamma, theta, add, dec, n, c) == gamma(FullRounds(gamma, theta, add, enc, m - 1, x))
  {
    RoundByRound(gamma, theta, add, dec, n, c);
    RoundByRound(gamma, theta, add, enc, m, x);
    PeelOff(gamma, theta, add, enc[m], FullRounds(gamma, theta, add, enc, m - 1, x));
  }

  /** `n` rounds under the inverse keys take the ciphertext back through `n` rounds. */
  lemma {:induction false} RoundsPeelOff<S(!new)>(
    gamma: S -> S, theta: S -> S, add: (S, S) -> S, enc: seq<S>, dec: seq<S>, n: nat, x: S)
    requires Involution(gamma) && Involution(theta) && Linear(theta, add) && Cancels(add)
    requires InverseSchedule(theta, enc, dec) && n + 1 < |enc|
    ensures FullRounds(gamma, theta, add, dec, n, Crypt(gamma, theta, add, enc, x))
         == gamma(FullRounds(gamma, theta, add, enc, |enc| - 2 - n, x))
  {
    if n == 0 {
      FirstPeel(gamma, theta, add, enc, dec, x);
    } else {
      RoundsPeelOff(gamma, theta, add, enc, dec, n - 1, x);
      NextPeel(gamma, theta, add, enc, dec, n, |enc| - 1 - n, x, Crypt(gamma, theta, add, enc, x));
    }
  }

  lemma CryptInverts<S(!new)>(
    gamma: S -> S, theta: S -> S, add: (S, S) -> S, enc: seq<S>, dec: seq<S>, x: S)
    requires Involution(gamma) && Involution(theta) && Linear(theta, add) && Cancels(add)
    requires InverseSchedule(theta, enc, dec)
    ensures Crypt(gamma, theta, add, dec, Crypt(gamma, theta, add, enc, x)) == x
  {
    RoundsPeelOff(gamma, theta, add, enc, dec, |enc| - 2, x);
  }

  /* ---- Key schedules in which two keys determine the next ---- */

  ghost predicate Recurrence<S>(next: (nat, S, S) -> S, ks: seq<S>) {
    forall r | 0 <= r < |ks| - 2 :: FollowsFrom(next, ks, r)
  }

  ghost predicate FollowsFrom<S>(next: (nat, S, S) -> S, ks: seq<S>, r: nat)
    requires r + 2 < |ks|
  {
    ks[r + 2] == next(r, ks[r + 1], ks[r])
  }

  lemma RecurrenceGrows<S>(next: (nat, S, S) -> S, ks: seq<S>, k: S)
    requires |ks| >= 2 && Recurrence(next, ks) && k == next(|ks| - 2, ks[|ks| - 1], ks[|ks| - 2])
    ensures Recurrence(next, ks + [k])
  {
    forall r | 0 <= r < |ks| - 1
      ensures FollowsFrom(next, ks + [k], r)
    {
      if r < |ks| - 2 {
        assert FollowsFrom(next, ks, r);
      }
    }
  }

  /** The sequence lists the values f(0), f(1), .... */
  ghost predicate Tabulates<S>(f: nat -> S, ks: seq<S>) {
    forall r | 0 <= r < |ks| :: ks[r] == f(r)
  }

  lemma TabulatesGrows<S>(f: nat -> S, ks: seq<S>, k: S)
    requires Tabulates(f, ks) && k == f(|ks|)
    ensures Tabulates(f, ks + [k])
  {
  }
}

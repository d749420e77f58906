/** Quantities of assets as sums of postings: what the ledger's tables mean. */
module Postings {
  import opened Division
  import opened Sequences

  const TWO63: nat := 0x8000_0000_0000_0000

  /** Unsigned and signed 64-bit arithmetic. */
  function Wrap(x: int): nat {
    x % TWO64
  }

  function Signed(x: int): int {
    (x + TWO63) % TWO64 - TWO63
  }

  lemma WrapAdd(x: int, d: int)
    ensures Wrap(Wrap(x) + d) == Wrap(x + d)
  {
  }

  lemma SignedAdd(x: int, d: int)
    ensures Signed(Signed(x) + d) == Signed(x + d)
  {
  }

  lemma SignedWrap(x: int)
    ensures Signed(Wrap(x)) == Signed(x)
  {
  }

  lemma SignedExactly(x: int, y: int)
    ensures Signed(x) == Signed(y) <==> Wrap(y) == Wrap(x)
  {
    if Wrap(x) == Wrap(y) {
      WrapBoth(x, y, TWO63);
    }
    if Signed(x) == Signed(y) {
      WrapBoth(x + TWO63, y + TWO63, 0 - TWO63);
    }
  }

  lemma WrapBoth(x: int, y: int, d: int)
    requires Wrap(x) == Wrap(y)
    ensures Wrap(x + d) == Wrap(y + d)
  {
  }

  lemma WrapStays(x: int, y: int, d: int)
    requires Wrap(x) == Wrap(y)
    ensures Wrap(x) == Wrap(y + d) <==> Wrap(d) == 0
  {
  }

  lemma WrapNegative(q: int)
    ensures Wrap(q) == 0 <==> Wrap(-q) == 0
  {
  }

  /** A change of one account's holding of one asset, made for a transaction. */
  datatype Posting = Posting(id: nat, asset: nat, delta: int, tx: nat)

  function Net(p: seq<Posting>, id: nat, asset: nat): int {
    if p == [] then 0
    else
      var q := p[|p| - 1];
      Net(p[..|p| - 1], id, asset) + if q.id == id && q.asset == asset then q.delta else 0
  }

  /** The transactions of an account for an asset, in the order of posting. */
  function Listing(p: seq<Posting>, id: nat, asset: nat): seq<nat> {
    if p == [] then []
    else
      var q := p[|p| - 1];
      Listing(p[..|p| - 1], id, asset) + if q.id == id && q.asset == asset then [q.tx] else []
  }

  lemma PostMore(p: seq<Posting>, q: Posting, id: nat, asset: nat)
    ensures Net(p + [q], id, asset) == Net(p, id, asset) + if q.id == id && q.asset == asset then q.delta else 0
    ensures Listing(p + [q], id, asset) == Listing(p, id, asset) + if q.id == id && q.asset == asset then [q.tx] else []
  {
    assert (p + [q])[..|p|] == p;
  }

  predicate Absent(p: seq<Posting>, id: nat) {
    forall k | 0 <= k < |p| :: p[k].id != id
  }

  lemma {:induction false} AbsentIsZero(p: seq<Posting>, id: nat, asset: nat)
    requires Absent(p, id)
    ensures Net(p, id, asset) == 0 && Listing(p, id, asset) == []
  {
    if p != [] {
      AbsentIsZero(p[..|p| - 1], id, asset);
    }
  }

  /** A quantity of an asset moves from one account to another. */
  datatype Move = Move(asset: nat, from: nat, to: nat, quantity: nat, tx: nat)

  function Debit(m: Move): Posting {
    Posting(m.from, m.asset, 0 - m.quantity, m.tx)
  }

  function Credit(m: Move): Posting {
    Posting(m.to, m.asset, m.quantity, m.tx)
  }

  function Posted(ms: seq<Move>): seq<Posting> {
    if ms == [] then [] else Posted(ms[..|ms| - 1]) + [Debit(ms[|ms| - 1])] + [Credit(ms[|ms| - 1])]
  }

  /**
    `p` is what was posted for some moves.  Stated of every sequence equal to `ms`, so that the recursion is
    unfolded only where a proof names it.
   */
  ghost predicate ArePosted(ms: seq<Move>, p: seq<Posting>) {
    forall s: seq<Move> | s == ms :: p == Posted(s)
  }

  lemma ArePostedMore(ms: seq<Move>, m: Move, p: seq<Posting>)
    requires ArePosted(ms, p)
    ensures ArePosted(ms + [m], p + [Debit(m)] + [Credit(m)])
  {
    assert p == Posted(ms);
    PostedMore(ms, m);
  }

  lemma PostedMore(ms: seq<Move>, m: Move)
    ensures Posted(ms + [m]) == Posted(ms) + [Debit(m)] + [Credit(m)]
  {
    assert (ms + [m])[..|ms|] == ms;
  }

  /** The net effect of one move on one account's holding of one asset. */
  function Flow(m: Move, id: nat, asset: nat): int {
    if m.asset != asset then 0
    else (if m.to == id then m.quantity else 0) - (if m.from == id then m.quantity else 0)
  }

  lemma NetOfMove(ms: seq<Move>, m: Move, id: nat, asset: nat)
    ensures Net(Posted(ms + [m]), id, asset) == Net(Posted(ms), id, asset) + Flow(m, id, asset)
  {
    PostedMore(ms, m);
    PostMore(Posted(ms), Debit(m), id, asset);
    PostMore(Posted(ms) + [Debit(m)], Credit(m), id, asset);
  }

  /* ---- Conservation ---- */

  /** The sum of f over some accounts. */
  ghost function Total(ids: set<nat>, f: nat -> int): int {
    if ids == {} then 0
    else
      var x :| x in ids;
      f(x) + Total(ids - {x}, f)
  }

  lemma {:induction false} TotalPick(ids: set<nat>, f: nat -> int, y: nat)
    requires y in ids
    ensures Total(ids, f) == f(y) + Total(ids - {y}, f)
    decreases |ids|
  {
    var x :| x in ids && Total(ids, f) == f(x) + Total(ids - {x}, f);
    if x != y {
      TotalPick(ids - {x}, f, y);
      TotalPick(ids - {y}, f, x);
      assert ids - {x} - {y} == ids - {y} - {x};
    }
  }

  lemma {:induction false} TotalZero(ids: set<nat>, f: nat -> int)
    requires forall x | x in ids :: f(x) == 0
    ensures Total(ids, f) == 0
    decreases |ids|
  {
    if ids != {} {
      var x :| x in ids && Total(ids, f) == f(x) + Total(ids - {x}, f);
      TotalZero(ids - {x}, f);
    }
  }

  lemma {:induction false} TotalAdds(ids: set<nat>, f: nat -> int, g: nat -> int, h: nat -> int)
    requires forall x | x in ids :: h(x) == f(x) + g(x)
    ensures Total(ids, h) == Total(ids, f) + Total(ids, g)
    decreases |ids|
  {
    if ids != {} {
      var x :| x in ids;
      TotalPick(ids, f, x);
      TotalPick(ids, g, x);
      TotalPick(ids, h, x);
      TotalAdds(ids - {x}, f, g, h);
    }
  }

  /** Sums modulo 2^64 may be taken over wrapped summands. */
  lemma {:induction false} TotalWraps(ids: set<nat>, f: nat -> int, g: nat -> int)
    requires forall x | x in ids :: g(x) == Wrap(f(x))
    ensures Wrap(Total(ids, g)) == Wrap(Total(ids, f))
    decreases |ids|
  {
    if ids != {} {
      var x :| x in ids;
      TotalPick(ids, f, x);
      TotalPick(ids, g, x);
      TotalWraps(ids - {x}, f, g);
      WrapSum(f(x), Total(ids - {x}, f), Total(ids - {x}, g));
    }
  }

  lemma WrapSum(a: int, b: int, c: int)
    requires Wrap(b) == Wrap(c)
    ensures Wrap(Wrap(a) + c) == Wrap(a + b)
  {
  }

  predicate Involves(ids: set<nat>, ms: seq<Move>) {
    forall k | 0 <= k < |ms| :: ms[k].from in ids && ms[k].to in ids
  }

  lemma InvolvesMore(ids: set<nat>, ms: seq<Move>, m: Move)
    requires Involves(ids, ms)
    ensures Involves(ids + {m.from, m.to}, ms + [m])
  {
  }

  lemma InvolvesWider(ids: set<nat>, wider: set<nat>, ms: seq<Move>)
    requires Involves(ids, ms) && ids <= wider
    ensures Involves(wider, ms)
  {
  }

  function FlowOf(m: Move, asset: nat): nat -> int {
    (id: nat) => Flow(m, id, asset)
  }

  function NetOf(ms: seq<Move>, asset: nat): nat -> int {
    (id: nat) => Net(Posted(ms), id, asset)
  }

  lemma FlowSumsToZero(ids: set<nat>, m: Move, asset: nat)
    requires m.from in ids && m.to in ids
    ensures Total(ids, FlowOf(m, asset)) == 0
  {
    var f := FlowOf(m, asset);
    TotalPick(ids, f, m.from);
    if m.from == m.to {
      TotalZero(ids - {m.from}, f);
    } else {
      TotalPick(ids - {m.from}, f, m.to);
      TotalZero(ids - {m.from} - {m.to}, f);
    }
  }

  /** Whatever is moved, self-transfers included, the net flows of an asset add up to 0. */
  lemma {:induction false} FlowsSumToZero(ids: set<nat>, ms: seq<Move>, asset: nat)
    requires Involves(ids, ms)
    ensures Total(ids, NetOf(ms, asset)) == 0
    decreases |ms|
  {
    if ms == [] {
      TotalZero(ids, NetOf(ms, asset));
    } else {
      var front, m := ms[..|ms| - 1], ms[|ms| - 1];
      assert ms == front + [m];
      FlowsSumToZero(ids, front, asset);
      FlowSumsToZero(ids, m, asset);
      forall id | id in ids ensures NetOf(ms, asset)(id) == NetOf(front, asset)(id) + FlowOf(m, asset)(id) {
        NetOfMove(front, m, id, asset);
      }
      TotalAdds(ids, NetOf(front, asset), FlowOf(m, asset), NetOf(ms, asset));
    }
  }

  /** So quantities that are the net flows modulo 2^64 add up to 0 modulo 2^64. */
  lemma QuantitiesSumToZero(ids: set<nat>, ms: seq<Move>, asset: nat, quantity: nat -> int)
    requires Involves(ids, ms) && forall id | id in ids :: quantity(id) == Wrap(Net(Posted(ms), id, asset))
    ensures Wrap(Total(ids, quantity)) == 0
  {
    FlowsSumToZero(ids, ms, asset);
    TotalWraps(ids, NetOf(ms, asset), quantity);
  }

  /* ---- Order does not matter ---- */

  function Only(ms: seq<Move>, asset: nat): seq<Move> {
    if ms == [] then []
    else
      var m := ms[|ms| - 1];
      Only(ms[..|ms| - 1], asset) + if m.asset == asset then [m] else []
  }

  lemma OnlyMore(ms: seq<Move>, m: Move, asset: nat)
    ensures Only(ms + [m], asset) == Only(ms, asset) + if m.asset == asset then [m] else []
  {
    assert (ms + [m])[..|ms|] == ms;
  }

  /** The sum of the flows of some moves, in any order. */
  function Flows(ms: seq<Move>, id: nat, asset: nat): int {
    if ms == [] then 0 else Flows(ms[..|ms| - 1], id, asset) + Flow(ms[|ms| - 1], id, asset)
  }

  lemma FlowsMore(ms: seq<Move>, m: Move, id: nat, asset: nat)
    ensures Flows(ms + [m], id, asset) == Flows(ms, id, asset) + Flow(m, id, asset)
  {
    assert (ms + [m])[..|ms|] == ms;
  }

  lemma {:induction false} FlowsOfOnly(ms: seq<Move>, id: nat, asset: nat)
    ensures Flows(Only(ms, asset), id, asset) == Flows(ms, id, asset)
    decreases |ms|
  {
    if ms != [] {
      var front, m := ms[..|ms| - 1], ms[|ms| - 1];
      FlowsOfOnly(front, id, asset);
      if m.asset == asset {
        FlowsMore(Only(front, asset), m, id, asset);
      } else {
        assert Only(ms, asset) == Only(front, asset);
      }
    }
  }

  lemma {:induction false} NetIsFlows(ms: seq<Move>, id: nat, asset: nat)
    ensures Net(Posted(ms), id, asset) == Flows(ms, id, asset)
    decreases |ms|
  {
    if ms != [] {
      var front, m := ms[..|ms| - 1], ms[|ms| - 1];
      assert ms == front + [m];
      NetIsFlows(front, id, asset);
      NetOfMove(front, m, id, asset);
    }
  }

  lemma {:induction false} FlowsTakeOut(ms: seq<Move>, k: nat, id: nat, asset: nat)
    requires k < |ms|
    ensures Flows(ms, id, asset) == Flows(ms[..k] + ms[k + 1..], id, asset) + Flow(ms[k], id, asset)
    decreases |ms|
  {
    var n := |ms| - 1;
    if k == n {
      assert ms[..k] + ms[k + 1..] == ms[..n];
    } else {
      FlowsTakeOut(ms[..n], k, id, asset);
      TakeOutEarlier(ms, k);
      FlowsMore(ms[..n][..k] + ms[..n][k + 1..], ms[n], id, asset);
    }
  }

  lemma {:induction false} FlowsPermute(xs: seq<Move>, ys: seq<Move>, id: nat, asset: nat)
    requires multiset(xs) == multiset(ys)
    ensures Flows(xs, id, asset) == Flows(ys, id, asset)
    decreases |xs|
  {
    if xs == [] {
      assert |multiset(ys)| == 0;
    } else {
      var front, m := xs[..|xs| - 1], xs[|xs| - 1];
      assert xs == front + [m];
      assert m in multiset(ys);
      var k :| 0 <= k < |ys| && ys[k] == m;
      assert ys == ys[..k] + [m] + ys[k + 1..];
      FlowsTakeOut(ys, k, id, asset);
      SameWithout(front, ys[..k], m, ys[k + 1..]);
      FlowsPermute(front, ys[..k] + ys[k + 1..], id, asset);
    }
  }
}

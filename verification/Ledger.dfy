/**
  The asset ledger (`NXTservices/NXTservices.c:314-352, 628-685, 754-797` and
  `NXTservices/utils/NXTutils.h:1112-1180`): an incremental table of holdings, and the replay of an
  asset's logged transactions that is compared with it.
 */
module Ledger {
  import opened Postings
  import opened Sequences

  /** The names that stand for NXT itself and for an illegal coin. */
  const COIN_NAMES: set<nat> := {0, 666}
  const FOREVER: int := 0x4000_0000

  datatype Option<T> = None | Some(value: T)

  /* ---- What an account holds, asset by asset ---- */

  /** Parallel lists: the assets of an account, their quantities and their transactions. */
  datatype Book = Book(assets: seq<nat>, quantities: seq<nat>, txlists: seq<seq<nat>>)

  function Index(assets: seq<nat>, a: nat): (r: nat)
    ensures r <= |assets|
    ensures r < |assets| ==> assets[r] == a
    ensures forall k | 0 <= k < r :: assets[k] != a
  {
    IndexFrom(assets, a, 0)
  }

  function IndexFrom(assets: seq<nat>, a: nat, i: nat): (r: nat)
    requires i <= |assets|
    ensures i <= r <= |assets|
    ensures r < |assets| ==> assets[r] == a
    ensures forall k | i <= k < r :: assets[k] != a
    decreases |assets| - i
  {
    if i == |assets| || assets[i] == a then i else IndexFrom(assets, a, i + 1)
  }

  predicate Shape(b: Book) {
    |b.assets| == |b.quantities| == |b.txlists| && Distinct(b.assets)
  }

  function Held(b: Book, a: nat): nat
    requires Shape(b)
  {
    var i := Index(b.assets, a);
    if i < |b.assets| then b.quantities[i] else 0
  }

  function Listed(b: Book, a: nat): seq<nat>
    requires Shape(b)
  {
    var i := Index(b.assets, a);
    if i < |b.assets| then b.txlists[i] else []
  }

  function Grown(b: Book, a: nat): Book {
    Book(b.assets + [a], b.quantities + [0], b.txlists + [[]])
  }

  function Adjusted(b: Book, i: nat, delta: int, tx: nat): Book
    requires Shape(b) && i < |b.assets|
  {
    b.(quantities := b.quantities[i := Wrap(b.quantities[i] + delta)], txlists := b.txlists[i := b.txlists[i] + [tx]])
  }

  lemma IndexUnique(assets: seq<nat>, i: nat)
    requires Distinct(assets) && i < |assets|
    ensures Index(assets, assets[i]) == i
  {
  }

  lemma GrownHolds(b: Book, a: nat, x: nat)
    requires Shape(b) && a !in b.assets
    ensures Shape(Grown(b, a)) && Held(Grown(b, a), x) == Held(b, x) && Listed(Grown(b, a), x) == Listed(b, x)
  {
    var g := Grown(b, a);
    var i, j := Index(b.assets, x), Index(g.assets, x);
    if i < |b.assets| {
      assert g.assets[i] == x;
      IndexUnique(g.assets, i);
    } else {
      assert x !in b.assets && j >= |b.assets|;
    }
  }

  lemma AdjustedHolds(b: Book, i: nat, delta: int, tx: nat, x: nat)
    requires Shape(b) && i < |b.assets|
    ensures var c := Adjusted(b, i, delta, tx);
      && Shape(c)
      && Held(c, x) == (if x == b.assets[i] then Wrap(Held(b, x) + delta) else Held(b, x))
      && Listed(c, x) == (if x == b.assets[i] then Listed(b, x) + [tx] else Listed(b, x))
  {
    IndexUnique(b.assets, i);
  }

  ghost predicate AgreesAt(b: Book, id: nat, p: seq<Posting>, a: nat)
    requires Shape(b)
  {
    Held(b, a) == Wrap(Net(p, id, a)) && Listed(b, a) == Listing(p, id, a)
  }

  /** The book of an account is what has been posted to it, quantities modulo 2^64. */
  ghost predicate Agrees(b: Book, id: nat, p: seq<Posting>) {
    Shape(b) && forall a: nat :: AgreesAt(b, id, p, a)
  }

  lemma EmptyAgrees(id: nat, p: seq<Posting>)
    requires Absent(p, id)
    ensures Agrees(Book([], [], []), id, p)
  {
    forall a: nat ensures AgreesAt(Book([], [], []), id, p, a) {
      AbsentIsZero(p, id, a);
    }
  }

  lemma GrownAgrees(b: Book, a: nat, id: nat, p: seq<Posting>)
    requires Agrees(b, id, p) && a !in b.assets
    ensures Agrees(Grown(b, a), id, p)
  {
    GrownHolds(b, a, a);
    forall x: nat ensures AgreesAt(Grown(b, a), id, p, x) {
      assert AgreesAt(b, id, p, x);
      GrownHolds(b, a, x);
    }
  }

  lemma AdjustedAt(b: Book, i: nat, id: nat, p: seq<Posting>, q: Posting, x: nat)
    requires Shape(b) && AgreesAt(b, id, p, x)
    requires i < |b.assets| && q.id == id && q.asset == b.assets[i]
    ensures var c := Adjusted(b, i, q.delta, q.tx); Shape(c) && AgreesAt(c, id, p + [q], x)
  {
    AdjustedHolds(b, i, q.delta, q.tx, x);
    PostMore(p, q, id, x);
    WrapAdd(Net(p, id, x), q.delta);
  }

  lemma AdjustedAgrees(b: Book, i: nat, id: nat, p: seq<Posting>, q: Posting)
    requires Agrees(b, id, p) && i < |b.assets| && q.id == id && q.asset == b.assets[i]
    ensures Agrees(Adjusted(b, i, q.delta, q.tx), id, p + [q])
  {
    var c := Adjusted(b, i, q.delta, q.tx);
    AdjustedHolds(b, i, q.delta, q.tx, q.asset);
    forall x: nat ensures AgreesAt(c, id, p + [q], x) {
      assert AgreesAt(b, id, p, x);
      AdjustedAt(b, i, id, p, q, x);
    }
  }

  lemma OtherAgrees(b: Book, id: nat, p: seq<Posting>, q: Posting)
    requires Agrees(b, id, p) && q.id != id
    ensures Agrees(b, id, p + [q])
  {
    forall x: nat ensures AgreesAt(b, id, p + [q], x) {
      assert AgreesAt(b, id, p, x);
      PostMore(p, q, id, x);
    }
  }

  class Account {
    const id: nat
    var assets: seq<nat>
    var quantities: seq<nat>
    var txlists: seq<seq<nat>>
    /** The signed working quantity of a replay. */
    var quantity: int

    constructor (id: nat)
      ensures this.id == id && Holdings() == Book([], [], []) && quantity == 0
    {
      this.id := id;
      assets, quantities, txlists, quantity := [], [], [], 0;
    }

    ghost function Holdings(): Book
      reads this`assets, this`quantities, this`txlists
    {
      Book(assets, quantities, txlists)
    }

    method SetQuantity(q: int)
      modifies this`quantity
      ensures quantity == q
    {
      quantity := q;
    }

    method GetAsset(asset: nat, create: bool) returns (ind: int)
      requires Shape(Holdings())
      modifies this
      ensures quantity == old(quantity)
      ensures Holdings() == if asset in old(assets) || !create then old(Holdings()) else Grown(old(Holdings()), asset)
      ensures if asset in old(assets) || create then 0 <= ind < |assets| && assets[ind] == asset else ind == -1
    {
      for i := 0 to |assets|
        invariant asset !in assets[..i] && Holdings() == old(Holdings()) && quantity == old(quantity)
      {
        if assets[i] == asset {
          return i;
        }
      }
      if create {
        ind := |assets|;
        assets, quantities, txlists := assets + [asset], quantities + [0], txlists + [[]];
      } else {
        ind := -1;
      }
    }

    method Adjust(ind: nat, delta: int, tx: nat)
      requires Shape(Holdings()) && ind < |assets|
      modifies this
      ensures Holdings() == Adjusted(old(Holdings()), ind, delta, tx) && quantity == old(quantity)
    {
      quantities := quantities[ind := Wrap(quantities[ind] + delta)];
      txlists := txlists[ind := txlists[ind] + [tx]];
    }
  }

  /* ---- The replay ---- */

  /** A logged transaction of an asset. */
  datatype Tx = Tx(txid: nat, timestamp: int, sender: nat, receiver: nat, quantity: nat)

  function MoveOf(tx: Tx, asset: nat): Move {
    Move(asset, tx.sender, tx.receiver, tx.quantity, tx.txid)
  }

  /** The moves logged up to a time. */
  function Upto(txs: seq<Tx>, asset: nat, time: int): seq<Move> {
    if txs == [] then []
    else
      var tx := txs[|txs| - 1];
      Upto(txs[..|txs| - 1], asset, time) + if tx.timestamp <= time then [MoveOf(tx, asset)] else []
  }

  lemma UptoMore(txs: seq<Tx>, i: nat, asset: nat, time: int)
    requires i < |txs|
    ensures Upto(txs[..i + 1], asset, time)
         == Upto(txs[..i], asset, time) + if txs[i].timestamp <= time then [MoveOf(txs[i], asset)] else []
  {
    assert txs[..i + 1][..i] == txs[..i];
  }

  /** All the moves logged. */
  function Logged(txs: seq<Tx>, asset: nat): (ms: seq<Move>)
    ensures |ms| == |txs|
  {
    if txs == [] then [] else Logged(txs[..|txs| - 1], asset) + [MoveOf(txs[|txs| - 1], asset)]
  }

  lemma LoggedMore(txs: seq<Tx>, tx: Tx, asset: nat)
    ensures Logged(txs + [tx], asset) == Logged(txs, asset) + [MoveOf(tx, asset)]
  {
    assert (txs + [tx])[..|txs|] == txs;
  }

  /** A time after the last transaction cuts nothing off. */
  lemma {:induction false} UptoTheEnd(txs: seq<Tx>, asset: nat, time: int)
    requires forall k | 0 <= k < |txs| :: txs[k].timestamp <= time
    ensures Upto(txs, asset, time) == Logged(txs, asset)
  {
    if txs != [] {
      UptoTheEnd(txs[..|txs| - 1], asset, time);
    }
  }

  /** What has been transferred of an asset is what has been logged for it, each transaction once. */
  predicate InStep(ms: seq<Move>, txs: seq<Tx>, asset: nat) {
    multiset(Only(ms, asset)) == multiset(Logged(txs, asset))
  }

  /** Logging and transferring the same transaction keeps an asset in step. */
  lemma BothInStep(ms: seq<Move>, txs: seq<Tx>, tx: Tx, asset: nat)
    requires InStep(ms, txs, asset)
    ensures InStep(ms + [MoveOf(tx, asset)], txs + [tx], asset)
  {
    LoggedMore(txs, tx, asset);
    OnlyMore(ms, MoveOf(tx, asset), asset);
  }

  /** Logging alone, as happens for an empty address, puts it out of step. */
  lemma LogAloneOutOfStep(ms: seq<Move>, txs: seq<Tx>, tx: Tx, asset: nat)
    requires InStep(ms, txs, asset)
    ensures !InStep(ms, txs + [tx], asset)
  {
    LoggedMore(txs, tx, asset);
    assert |multiset(Logged(txs + [tx], asset))| == |multiset(Logged(txs, asset))| + 1;
  }

  lemma OthersInStep(ms: seq<Move>, txs: seq<Tx>, m: Move, asset: nat)
    requires m.asset != asset
    ensures InStep(ms + [m], txs, asset) <==> InStep(ms, txs, asset)
  {
    OnlyMore(ms, m, asset);
    assert Only(ms, asset) + [] == Only(ms, asset);
  }

  /** Replaying the log of an asset gives every account what the transfers gave it, modulo 2^64. */
  ghost predicate Matches(ms: seq<Move>, txs: seq<Tx>, asset: nat) {
    forall id: nat :: SameFlow(ms, Logged(txs, asset), id, asset)
  }

  predicate SameFlow(ms: seq<Move>, log: seq<Move>, id: nat, asset: nat) {
    Wrap(Flows(ms, id, asset)) == Wrap(Flows(log, id, asset))
  }

  /** In step, in whatever order, they match. */
  lemma InStepMatches(ms: seq<Move>, txs: seq<Tx>, asset: nat)
    requires InStep(ms, txs, asset)
    ensures Matches(ms, txs, asset)
  {
    forall id: nat ensures SameFlow(ms, Logged(txs, asset), id, asset) {
      FlowsOfOnly(ms, id, asset);
      FlowsPermute(Only(ms, asset), Logged(txs, asset), id, asset);
    }
  }

  lemma BothMatch(ms: seq<Move>, txs: seq<Tx>, tx: Tx, asset: nat)
    requires Matches(ms, txs, asset)
    ensures Matches(ms + [MoveOf(tx, asset)], txs + [tx], asset)
  {
    LoggedMore(txs, tx, asset);
    forall id: nat ensures SameFlow(ms + [MoveOf(tx, asset)], Logged(txs + [tx], asset), id, asset) {
      assert SameFlow(ms, Logged(txs, asset), id, asset);
      FlowsMore(ms, MoveOf(tx, asset), id, asset);
      FlowsMore(Logged(txs, asset), MoveOf(tx, asset), id, asset);
      WrapBoth(Flows(ms, id, asset), Flows(Logged(txs, asset), id, asset), Flow(MoveOf(tx, asset), id, asset));
    }
  }

  lemma OthersMatch(ms: seq<Move>, txs: seq<Tx>, m: Move, asset: nat)
    requires m.asset != asset && Matches(ms, txs, asset)
    ensures Matches(ms + [m], txs, asset)
  {
    forall id: nat ensures SameFlow(ms + [m], Logged(txs, asset), id, asset) {
      assert SameFlow(ms, Logged(txs, asset), id, asset);
      FlowsMore(ms, m, id, asset);
    }
  }

  /** A transaction that moves nothing: a multiple of 2^64, or from an account to itself. */
  predicate MovesNothing(tx: Tx) {
    Wrap(tx.quantity) == 0 || tx.sender == tx.receiver
  }

  /** Logged without being transferred, a transaction leaves them matching if and only if it moves nothing. */
  lemma LogAloneMatchesExactly(ms: seq<Move>, txs: seq<Tx>, tx: Tx, asset: nat)
    requires Matches(ms, txs, asset)
    ensures Matches(ms, txs + [tx], asset) <==> MovesNothing(tx)
    ensures !MovesNothing(tx) ==>
      Mentioned(Logged(txs + [tx], asset), tx.receiver) && !SameFlow(ms, Logged(txs + [tx], asset), tx.receiver, asset)
  {
    var m := MoveOf(tx, asset);
    LoggedMore(txs, tx, asset);
    forall id: nat
      ensures SameFlow(ms, Logged(txs + [tx], asset), id, asset) <==> Wrap(Flow(m, id, asset)) == 0
    {
      assert SameFlow(ms, Logged(txs, asset), id, asset);
      FlowsMore(Logged(txs, asset), m, id, asset);
      WrapStays(Flows(ms, id, asset), Flows(Logged(txs, asset), id, asset), Flow(m, id, asset));
    }
    if MovesNothing(tx) {
      forall id: nat ensures Wrap(Flow(m, id, asset)) == 0 {
        WrapNegative(m.quantity);
      }
    } else {
      MentionedMore(Logged(txs, asset), m, tx.receiver);
      assert !SameFlow(ms, Logged(txs + [tx], asset), tx.receiver, asset);
    }
  }

  function LogIn(logged: map<nat, seq<Tx>>, asset: nat): seq<Tx> {
    if asset in logged then logged[asset] else []
  }

  /** What recording a transaction of an asset does to a log and to the transfers, for that asset. */
  lemma RecordedSame(ms: seq<Move>, txs: seq<Tx>, tx: Tx, asset: nat, both: bool)
    ensures var ms' := if both then ms + [MoveOf(tx, asset)] else ms;
      && (InStep(ms, txs, asset) ==> (InStep(ms', txs + [tx], asset) <==> both))
      && (Matches(ms, txs, asset) ==> (Matches(ms', txs + [tx], asset) <==> both || MovesNothing(tx)))
  {
    if InStep(ms, txs, asset) {
      if both {
        BothInStep(ms, txs, tx, asset);
      } else {
        LogAloneOutOfStep(ms, txs, tx, asset);
      }
    }
    if Matches(ms, txs, asset) {
      if both {
        BothMatch(ms, txs, tx, asset);
      } else {
        LogAloneMatchesExactly(ms, txs, tx, asset);
      }
    }
  }

  /** Every other asset that was in step, or matched, still is. */
  ghost predicate OthersKept(ms: seq<Move>, logs: map<nat, seq<Tx>>, ms': seq<Move>, logs': map<nat, seq<Tx>>, asset: nat) {
    forall a: nat | a != asset ::
      && (InStep(ms, LogIn(logs, a), a) ==> InStep(ms', LogIn(logs', a), a))
      && (Matches(ms, LogIn(logs, a), a) ==> Matches(ms', LogIn(logs', a), a))
  }

  lemma RecordedOthers(ms: seq<Move>, logs: map<nat, seq<Tx>>, ms': seq<Move>, logs': map<nat, seq<Tx>>, asset: nat, tx: Tx, moved: bool)
    requires ms' == if moved then ms + [MoveOf(tx, asset)] else ms
    requires forall a: nat | a != asset :: LogIn(logs', a) == LogIn(logs, a)
    ensures OthersKept(ms, logs, ms', logs', asset)
  {
    forall a: nat | a != asset
      ensures InStep(ms, LogIn(logs, a), a) ==> InStep(ms', LogIn(logs', a), a)
      ensures Matches(ms, LogIn(logs, a), a) ==> Matches(ms', LogIn(logs', a), a)
    {
      OthersInStep(ms, LogIn(logs, a), MoveOf(tx, asset), a);
      if Matches(ms, LogIn(logs, a), a) {
        OthersMatch(ms, LogIn(logs, a), MoveOf(tx, asset), a);
      }
    }
  }

  function AddOnce(ids: seq<nat>, id: nat): seq<nat> {
    if id in ids then ids else ids + [id]
  }

  /** The accounts of some moves in the order in which they first appear. */
  function FirstSeen(ms: seq<Move>): seq<nat> {
    if ms == [] then []
    else
      var m := ms[|ms| - 1];
      AddOnce(AddOnce(FirstSeen(ms[..|ms| - 1]), m.from), m.to)
  }

  lemma FirstSeenMore(ms: seq<Move>, m: Move)
    ensures FirstSeen(ms + [m]) == AddOnce(AddOnce(FirstSeen(ms), m.from), m.to)
  {
    assert (ms + [m])[..|ms|] == ms;
  }

  predicate Mentioned(ms: seq<Move>, id: nat) {
    exists k | 0 <= k < |ms| :: ms[k].from == id || ms[k].to == id
  }

  lemma AddOnceKeeps(ids: seq<nat>, x: nat, id: nat)
    requires Distinct(ids)
    ensures Distinct(AddOnce(ids, x)) && (id in AddOnce(ids, x) <==> id in ids || id == x)
  {
  }

  lemma MentionedMore(ms: seq<Move>, m: Move, id: nat)
    ensures Mentioned(ms + [m], id) <==> Mentioned(ms, id) || id == m.from || id == m.to
  {
    var more := ms + [m];
    assert more[|ms|] == m;
    if Mentioned(ms, id) {
      var k :| 0 <= k < |ms| && (ms[k].from == id || ms[k].to == id);
      assert more[k].from == id || more[k].to == id;
    }
    if Mentioned(more, id) {
      var k :| 0 <= k < |more| && (more[k].from == id || more[k].to == id);
      assert k < |ms| ==> ms[k].from == id || ms[k].to == id;
    }
  }

  /** Every account that is involved appears exactly once. */
  lemma {:induction false} FirstSeenExactly(ms: seq<Move>, id: nat)
    ensures Distinct(FirstSeen(ms)) && (id in FirstSeen(ms) <==> Mentioned(ms, id))
  {
    if ms != [] {
      var front, m := ms[..|ms| - 1], ms[|ms| - 1];
      assert ms == front + [m];
      FirstSeenExactly(front, id);
      AddOnceKeeps(FirstSeen(front), m.from, id);
      AddOnceKeeps(AddOnce(FirstSeen(front), m.from), m.to, id);
      MentionedMore(front, m, id);
    }
  }

  /* ---- The tables ---- */

  class Ledger {
    /** The accounts by address, and the transactions logged for each asset. */
    var accounts: map<nat, Account>
    var logged: map<nat, seq<Tx>>
    var txids: set<nat>
    /** Everything that has been transferred. */
    ghost var moves: seq<Move>
    ghost var posted: seq<Posting>
    ghost var objects: set<Account>

    ghost predicate Consistent()
      reads this`accounts, this`objects, this`posted, objects`assets, objects`quantities, objects`txlists
    {
      && (forall id | id in accounts :: accounts[id] in objects && accounts[id].id == id)
      && (forall id | id in accounts :: Agrees(accounts[id].Holdings(), id, posted))
      && (forall k | 0 <= k < |posted| :: posted[k].id in accounts)
    }

    ghost predicate Valid()
      reads this`accounts, this`objects, this`posted, this`moves, objects`assets, objects`quantities, objects`txlists
    {
      Consistent() && ArePosted(moves, posted) && Involves(accounts.Keys, moves)
    }

    constructor ()
      ensures Valid() && moves == [] && accounts == map[] && logged == map[] && txids == {} && objects == {}
    {
      accounts, logged, txids, moves, posted, objects := map[], map[], {}, [], [], {};
    }

    ghost function Balance(id: nat, asset: nat): nat
      requires Consistent()
      reads this, objects
    {
      if id in accounts then Held(accounts[id].Holdings(), asset) else 0
    }

    /** The account with an address, made if there is none. */
    method GetAccount(id: nat) returns (acct: Account)
      requires Consistent()
      modifies this`accounts, this`objects
      ensures Consistent() && id in accounts && acct == accounts[id]
      ensures accounts == old(accounts)[id := acct]
      ensures id in old(accounts) ==> accounts == old(accounts)
      ensures objects == old(objects) + {acct} && fresh(objects - old(objects))
    {
      if id in accounts {
        acct := accounts[id];
      } else {
        acct := new Account(id);
        EmptyAgrees(id, posted);
        accounts, objects := accounts[id := acct], objects + {acct};
      }
    }

    /** The account with an address, and its row for an asset. */
    method GetRow(id: nat, asset: nat) returns (acct: Account, ind: nat)
      requires Consistent()
      modifies this`accounts, this`objects, objects
      ensures Consistent() && id in accounts && acct == accounts[id] && accounts == old(accounts)[id := acct]
      ensures objects == old(objects) + {acct} && fresh(objects - old(objects))
      ensures id in old(accounts) ==> accounts == old(accounts)
      ensures ind < |acct.assets| && acct.assets[ind] == asset
      ensures forall a | a in old(objects) :: old(a.assets) <= a.assets
    {
      acct := GetAccount(id);
      ghost var before := acct.Holdings();
      ind := acct.GetAsset(asset, true);
      if asset !in before.assets {
        GrownAgrees(before, asset, id, posted);
      }
    }

    /** Adds to one row, and remembers the transaction there. */
    method Post(ghost id: nat, acct: Account, ind: nat, delta: int, tx: nat)
      requires Consistent() && id in accounts && acct == accounts[id] && ind < |acct.assets|
      modifies acct, this`posted
      ensures Consistent() && posted == old(posted) + [Posting(id, old(acct.assets[ind]), delta, tx)]
      ensures acct.assets == old(acct.assets)
    {
      ghost var q, was := Posting(id, acct.assets[ind], delta, tx), posted;
      AdjustedAgrees(acct.Holdings(), ind, id, posted, q);
      acct.Adjust(ind, delta, tx);
      posted := posted + [q];
      forall other | other in accounts ensures Agrees(accounts[other].Holdings(), other, posted) {
        if other != id {
          OtherAgrees(accounts[other].Holdings(), other, was, q);
        }
      }
    }

    method GetRows(from: nat, to: nat, asset: nat) returns (src: Account, srcind: nat, dest: Account, destind: nat)
      requires Consistent()
      modifies this`accounts, this`objects, objects
      ensures Consistent() && accounts.Keys == old(accounts.Keys) + {from, to}
      ensures src == accounts[from] && srcind < |src.assets| && src.assets[srcind] == asset
      ensures dest == accounts[to] && destind < |dest.assets| && dest.assets[destind] == asset
      ensures objects == old(objects) + {src, dest} && fresh(objects - old(objects))
    {
      src, srcind := GetRow(from, asset);
      dest, destind := GetRow(to, asset);
    }

    method PostBoth(ghost m: Move, src: Account, srcind: nat, dest: Account, destind: nat, quantity: nat, tx: nat)
      requires Consistent() && m.from in accounts && m.to in accounts && quantity == m.quantity && tx == m.tx
      requires src == accounts[m.from] && srcind < |src.assets| && src.assets[srcind] == m.asset
      requires dest == accounts[m.to] && destind < |dest.assets| && dest.assets[destind] == m.asset
      modifies src, dest, this`posted
      ensures Consistent() && posted == old(posted) + [Debit(m)] + [Credit(m)]
    {
      Post(m.from, src, srcind, 0 - quantity, tx);
      Post(m.to, dest, destind, quantity, tx);
    }

    /** An empty address, on either side, transfers nothing. */
    method Transfer(tx: nat, asset: nat, sender: Option<nat>, receiver: Option<nat>, quantity: nat)
      requires Valid()
      modifies this`accounts, this`moves, this`posted, this`objects, objects
      ensures Valid()
      ensures moves == if sender == None || receiver == None then old(moves)
                       else old(moves) + [Move(asset, sender.value, receiver.value, quantity, tx)]
      ensures accounts.Keys == if sender == None || receiver == None then old(accounts.Keys)
                               else old(accounts.Keys) + {sender.value, receiver.value}
      ensures fresh(objects - old(objects))
    {
      if sender == None || receiver == None {
        return;
      }
      TransferBetween(Move(asset, sender.value, receiver.value, quantity, tx));
    }

    method PostMove(m: Move)
      requires Consistent()
      modifies this`accounts, this`posted, this`objects, objects
      ensures Consistent() && posted == old(posted) + [Debit(m)] + [Credit(m)]
      ensures accounts.Keys == old(accounts.Keys) + {m.from, m.to} && fresh(objects - old(objects))
    {
      var src, srcind, dest, destind := GetRows(m.from, m.to, m.asset);
      PostBoth(m, src, srcind, dest, destind, m.quantity, m.tx);
    }

    method TransferBetween(m: Move)
      requires Valid()
      modifies this`accounts, this`moves, this`posted, this`objects, objects
      ensures Valid() && moves == old(moves) + [m] && accounts.Keys == old(accounts.Keys) + {m.from, m.to}
      ensures fresh(objects - old(objects))
    {
      ghost var ids, ms := accounts.Keys, moves;
      ArePostedMore(ms, m, posted);
      PostMove(m);
      InvolvesMore(ids, ms, m);
      moves := moves + [m];
    }

    /** The quantities of an asset over all accounts add up to 0 modulo 2^64. */
    lemma QuantitiesConserved(asset: nat, quantity: nat -> int)
      requires Valid() && forall id | id in accounts :: quantity(id) == Balance(id, asset)
      ensures Wrap(Total(accounts.Keys, quantity)) == 0
    {
      assert posted == Posted(moves);
      forall id | id in accounts ensures quantity(id) == Wrap(Net(Posted(moves), id, asset)) {
        assert AgreesAt(accounts[id].Holdings(), id, posted, asset);
      }
      QuantitiesSumToZero(accounts.Keys, moves, asset, quantity);
    }

    /* ---- Logging ---- */

    function LogOf(asset: nat): seq<Tx>
      reads this`logged
    {
      LogIn(logged, asset)
    }

    ghost predicate LogInStep(asset: nat)
      reads this`moves, this`logged
    {
      InStep(moves, LogOf(asset), asset)
    }

    ghost predicate LogMatches(asset: nat)
      reads this`moves, this`logged
    {
      Matches(moves, LogOf(asset), asset)
    }

    /** A transaction is logged once. */
    method LogTx(asset: nat, tx: Tx) returns (added: bool)
      modifies this`logged, this`txids
      ensures added <==> tx.txid !in old(txids)
      ensures txids == old(txids) + {tx.txid}
      ensures logged == old(logged)[asset := if added then old(LogOf(asset)) + [tx] else old(LogOf(asset))]
    {
      added := tx.txid !in txids;
      txids := txids + {tx.txid};
      logged := logged[asset := if added then LogOf(asset) + [tx] else LogOf(asset)];
    }

    /**
      Logs a transaction and, if it is new, transfers its quantity. An asset whose log was transferred, each
      transaction once, stays so exactly if both addresses are there; and one whose log gives every account what
      the table has stays so exactly if both are there or the transaction moves nothing.
     */
    method Record(asset: nat, tx: Tx, sender: Option<nat>, receiver: Option<nat>) returns (added: bool)
      requires Valid()
      requires tx.sender == (if sender == None then 0 else sender.value)
      requires tx.receiver == (if receiver == None then 0 else receiver.value)
      modifies this, objects
      ensures Valid() && fresh(objects - old(objects))
      ensures (added <==> tx.txid !in old(txids)) && txids == old(txids) + {tx.txid}
      ensures logged == old(logged)[asset := if added then old(LogOf(asset)) + [tx] else old(LogOf(asset))]
      ensures moves == if added && sender != None && receiver != None then old(moves) + [MoveOf(tx, asset)] else old(moves)
      ensures old(LogInStep(asset)) ==> (LogInStep(asset) <==> !added || (sender != None && receiver != None))
      ensures old(LogMatches(asset)) ==>
        (LogMatches(asset) <==> !added || (sender != None && receiver != None) || MovesNothing(tx))
      ensures OthersKept(old(moves), old(logged), moves, logged, asset)
    {
      ghost var ms, logs := moves, logged;
      added := RecordOnce(asset, tx, sender, receiver);
      RecordedSame(ms, LogIn(logs, asset), tx, asset, sender != None && receiver != None);
      RecordedOthers(ms, logs, moves, logged, asset, tx, added && sender != None && receiver != None);
    }

    method RecordOnce(asset: nat, tx: Tx, sender: Option<nat>, receiver: Option<nat>) returns (added: bool)
      requires Valid()
      requires tx.sender == (if sender == None then 0 else sender.value)
      requires tx.receiver == (if receiver == None then 0 else receiver.value)
      modifies this, objects
      ensures Valid() && fresh(objects - old(objects))
      ensures (added <==> tx.txid !in old(txids)) && txids == old(txids) + {tx.txid}
      ensures logged == old(logged)[asset := if added then old(LogOf(asset)) + [tx] else old(LogOf(asset))]
      ensures moves == if added && sender != None && receiver != None then old(moves) + [MoveOf(tx, asset)] else old(moves)
    {
      added := LogTx(asset, tx);
      assert Valid();
      if added {
        Transfer(tx.txid, asset, sender, receiver, tx.quantity);
      }
    }

    /** Reads one row of the table. */
    method QuantityOf(acct: Account, asset: nat) returns (q: nat)
      requires Consistent() && acct.id in accounts && acct == accounts[acct.id]
      ensures q == Balance(acct.id, asset)
    {
      var i := Index(acct.assets, asset);
      assert Agrees(acct.Holdings(), acct.id, posted);
      q := if i < |acct.assets| then acct.quantities[i] else 0;
    }

    /* ---- The replay of an asset ---- */

    /** A list of accounts, by address. */
    ghost predicate Lists(accts: seq<Account>, ids: seq<nat>)
      reads this`accounts
    {
      |accts| == |ids| && forall k | 0 <= k < |ids| :: ids[k] in accounts && accts[k] == accounts[ids[k]]
    }

    ghost predicate Cleared(accts: seq<Account>, ids: seq<nat>)
      reads this`accounts, accts`quantity
    {
      Lists(accts, ids) && forall k | 0 <= k < |accts| :: accts[k].quantity == 0
    }

    /** The working quantity of every listed account is the signed net of some postings. */
    ghost predicate Working(accts: seq<Account>, ids: seq<nat>, p: seq<Posting>, asset: nat)
      reads this`accounts, accts`quantity
    {
      Lists(accts, ids) && forall k | 0 <= k < |accts| :: accts[k].quantity == Signed(Net(p, ids[k], asset))
    }

    lemma ListsOnce(accts: seq<Account>, ids: seq<nat>, id: nat)
      requires Consistent() && Lists(accts, ids) && id in accounts
      ensures Lists(AddPointer(accts, accounts[id]), AddOnce(ids, id))
    {
      if accounts[id] in accts {
        var k :| 0 <= k < |accts| && accts[k] == accounts[id];
        assert accounts[ids[k]].id == ids[k];
      }
    }

    lemma ClearedOnce(accts: seq<Account>, ids: seq<nat>, id: nat)
      requires Consistent() && Cleared(accts, ids) && id in accounts && accounts[id].quantity == 0
      ensures Cleared(AddPointer(accts, accounts[id]), AddOnce(ids, id))
    {
      ListsOnce(accts, ids, id);
    }

    method ClearAccount(ghost accts: seq<Account>, id: nat, ghost ids: seq<nat>) returns (acct: Account)
      requires Consistent() && Cleared(accts, ids)
      modifies this`accounts, this`objects, objects`quantity
      ensures Consistent() && Cleared(accts, ids) && id in accounts && acct == accounts[id] && acct.quantity == 0
      ensures objects == old(objects) + {acct} && fresh(objects - old(objects)) && accounts.Keys == old(accounts.Keys) + {id}
    {
      acct := GetAccount(id);
      acct.SetQuantity(0);
    }

    /** One account starts at 0 and is listed once. */
    method ClearOne(accts: seq<Account>, id: nat, ghost ids: seq<nat>) returns (r: seq<Account>)
      requires Consistent() && Cleared(accts, ids)
      modifies this`accounts, this`objects, objects`quantity
      ensures Consistent() && Cleared(r, AddOnce(ids, id))
      ensures objects >= old(objects) && fresh(objects - old(objects)) && accounts.Keys == old(accounts.Keys) + {id}
    {
      var acct := ClearAccount(accts, id, ids);
      ClearedOnce(accts, ids, id);
      r := AddToList(accts, acct);
    }

    /** First pass, one transaction. */
    method ClearWorkingVars(accts: seq<Account>, from: nat, to: nat, ghost ids: seq<nat>) returns (r: seq<Account>)
      requires Consistent() && Cleared(accts, ids)
      modifies this`accounts, this`objects, objects`quantity
      ensures Consistent() && Cleared(r, AddOnce(AddOnce(ids, from), to))
      ensures objects >= old(objects) && fresh(objects - old(objects)) && accounts.Keys == old(accounts.Keys) + {from, to}
    {
      r := ClearOne(accts, from, ids);
      r := ClearOne(r, to, AddOnce(ids, from));
    }

    method AddWorking(acct: Account, delta: int, ghost q: Posting, ghost accts: seq<Account>, ghost ids: seq<nat>, ghost p: seq<Posting>)
      requires Consistent() && Working(accts, ids, p, q.asset)
      requires q.id in accounts && acct == accounts[q.id] && delta == q.delta
      modifies acct`quantity
      ensures Consistent() && Working(accts, ids, p + [q], q.asset)
    {
      acct.SetQuantity(Signed(acct.quantity + delta));
      forall k | 0 <= k < |accts| ensures accts[k].quantity == Signed(Net(p + [q], ids[k], q.asset)) {
        assert accounts[ids[k]].id == ids[k];
        PostMore(p, q, ids[k], q.asset);
        SignedAdd(Net(p, ids[k], q.asset), delta);
      }
    }

    /** Second pass, one transaction. */
    method UpdateWorkingVars(seller: Account, buyer: Account, m: Move, ghost accts: seq<Account>, ghost ids: seq<nat>, ghost p: seq<Posting>)
      requires Consistent() && Working(accts, ids, p, m.asset)
      requires m.from in accounts && seller == accounts[m.from] && m.to in accounts && buyer == accounts[m.to]
      modifies seller`quantity, buyer`quantity
      ensures Consistent() && Working(accts, ids, p + [Debit(m)] + [Credit(m)], m.asset)
    {
      AddWorking(seller, 0 - m.quantity, Debit(m), accts, ids, p);
      AddWorking(buyer, m.quantity, Credit(m), accts, ids, p + [Debit(m)]);
    }

    ghost predicate FirstDone(txs: seq<Tx>, i: nat, asset: nat, time: int, accts: seq<Account>)
      requires i <= |txs|
      reads this`accounts, accts`quantity
    {
      Cleared(accts, FirstSeen(Upto(txs[..i], asset, time)))
    }

    method FirstStep(txs: seq<Tx>, i: nat, ghost asset: nat, time: int, accts: seq<Account>) returns (r: seq<Account>)
      requires Consistent() && i < |txs| && FirstDone(txs, i, asset, time, accts)
      modifies this`accounts, this`objects, objects`quantity
      ensures Consistent() && FirstDone(txs, i + 1, asset, time, r)
      ensures objects >= old(objects) && fresh(objects - old(objects)) && accounts.Keys >= old(accounts.Keys)
    {
      UptoMore(txs, i, asset, time);
      ghost var ms := Upto(txs[..i], asset, time);
      if txs[i].timestamp <= time {
        FirstSeenMore(ms, MoveOf(txs[i], asset));
        r := ClearWorkingVars(accts, txs[i].sender, txs[i].receiver, FirstSeen(ms));
      } else {
        assert Upto(txs[..i + 1], asset, time) == ms;
        r := accts;
      }
    }

    method FirstPass(txs: seq<Tx>, ghost asset: nat, time: int) returns (accts: seq<Account>)
      requires Consistent()
      modifies this`accounts, this`objects, objects`quantity
      ensures Consistent() && FirstDone(txs, |txs|, asset, time, accts)
      ensures objects >= old(objects) && fresh(objects - old(objects)) && accounts.Keys >= old(accounts.Keys)
    {
      accts := [];
      for i := 0 to |txs|
        invariant Consistent() && FirstDone(txs, i, asset, time, accts)
        invariant objects >= old(objects) && fresh(objects - old(objects)) && accounts.Keys >= old(accounts.Keys)
      {
        accts := FirstStep(txs, i, asset, time, accts);
      }
    }

    /** The working quantities after the first i transactions, and their postings `p`; `ids` are the listed accounts. */
    ghost predicate SecondDone(txs: seq<Tx>, i: nat, asset: nat, time: int, accts: seq<Account>, ids: seq<nat>, p: seq<Posting>)
      requires i <= |txs|
      reads this`accounts, accts`quantity
    {
      ArePosted(Upto(txs[..i], asset, time), p) && Working(accts, ids, p, asset)
    }

    /** Looking up an account changes no working quantity. */
    method LookUp(id: nat, ghost accts: seq<Account>, ghost ids: seq<nat>, ghost p: seq<Posting>, ghost asset: nat) returns (acct: Account)
      requires Consistent() && Working(accts, ids, p, asset)
      modifies this`accounts, this`objects
      ensures Consistent() && Working(accts, ids, p, asset)
      ensures id in accounts && acct == accounts[id] && accounts == old(accounts)[id := acct]
      ensures id in old(accounts) ==> accounts == old(accounts)
      ensures objects == old(objects) + {acct} && fresh(objects - old(objects))
    {
      acct := GetAccount(id);
    }

    method GetPair(from: nat, to: nat, ghost accts: seq<Account>, ghost ids: seq<nat>, ghost p: seq<Posting>, ghost asset: nat)
      returns (seller: Account, buyer: Account)
      requires Consistent() && Working(accts, ids, p, asset)
      modifies this`accounts, this`objects
      ensures Consistent() && Working(accts, ids, p, asset)
      ensures from in accounts && seller == accounts[from] && to in accounts && buyer == accounts[to]
      ensures objects == old(objects) + {seller, buyer} && fresh(objects - old(objects)) && accounts.Keys >= old(accounts.Keys)
    {
      seller := LookUp(from, accts, ids, p, asset);
      buyer := LookUp(to, accts, ids, p, asset);
    }

    method SecondStep(txs: seq<Tx>, i: nat, asset: nat, time: int, ghost accts: seq<Account>, ghost ids: seq<nat>, ghost p: seq<Posting>)
      returns (ghost p': seq<Posting>)
      requires Consistent() && i < |txs| && SecondDone(txs, i, asset, time, accts, ids, p)
      modifies this`accounts, this`objects, objects`quantity
      ensures Consistent() && SecondDone(txs, i + 1, asset, time, accts, ids, p')
      ensures objects >= old(objects) && fresh(objects - old(objects)) && accounts.Keys >= old(accounts.Keys)
    {
      UptoMore(txs, i, asset, time);
      ghost var ms := Upto(txs[..i], asset, time);
      if txs[i].timestamp <= time {
        var m := MoveOf(txs[i], asset);
        var seller, buyer := GetPair(m.from, m.to, accts, ids, p, asset);
        UpdateWorkingVars(seller, buyer, m, accts, ids, p);
        ArePostedMore(ms, m, p);
        p' := p + [Debit(m)] + [Credit(m)];
      } else {
        assert Upto(txs[..i + 1], asset, time) == ms;
        p' := p;
      }
    }

    method SecondPass(txs: seq<Tx>, asset: nat, time: int, ghost accts: seq<Account>, ghost ids: seq<nat>)
      returns (ghost p: seq<Posting>)
      requires Consistent() && SecondDone(txs, 0, asset, time, accts, ids, [])
      modifies this`accounts, this`objects, objects`quantity
      ensures Consistent() && SecondDone(txs, |txs|, asset, time, accts, ids, p)
      ensures objects >= old(objects) && fresh(objects - old(objects)) && accounts.Keys >= old(accounts.Keys)
    {
      p := [];
      for i := 0 to |txs|
        invariant Consistent() && SecondDone(txs, i, asset, time, accts, ids, p)
        invariant objects >= old(objects) && fresh(objects - old(objects)) && accounts.Keys >= old(accounts.Keys)
      {
        p := SecondStep(txs, i, asset, time, accts, ids, p);
      }
    }

    lemma ClearedWorks(txs: seq<Tx>, asset: nat, time: int, accts: seq<Account>)
      requires FirstDone(txs, |txs|, asset, time, accts)
      ensures SecondDone(txs, 0, asset, time, accts, FirstSeen(Upto(txs, asset, time)), [])
    {
      assert txs[..|txs|] == txs;
    }

    /** The accounts involved in some moves, each listed once, hold the signed net flows as working quantities. */
    ghost predicate Replayed(accts: seq<Account>, ms: seq<Move>, asset: nat)
      reads this`accounts, accts`quantity
    {
      Working(accts, FirstSeen(ms), Posted(ms), asset)
    }

    lemma SecondReplays(txs: seq<Tx>, asset: nat, time: int, accts: seq<Account>, p: seq<Posting>)
      requires SecondDone(txs, |txs|, asset, time, accts, FirstSeen(Upto(txs, asset, time)), p)
      ensures Replayed(accts, Upto(txs, asset, time), asset)
    {
      assert txs[..|txs|] == txs;
      assert p == Posted(Upto(txs, asset, time));
    }

    method Replay(txs: seq<Tx>, asset: nat, time: int) returns (accts: seq<Account>)
      requires Consistent()
      modifies this`accounts, this`objects, objects`quantity
      ensures Consistent() && Replayed(accts, Upto(txs, asset, time), asset) && accounts.Keys >= old(accounts.Keys)
      ensures objects >= old(objects) && fresh(objects - old(objects))
    {
      accts := FirstPass(txs, asset, time);
      ClearedWorks(txs, asset, time, accts);
      ghost var p := SecondPass(txs, asset, time, accts, FirstSeen(Upto(txs, asset, time)));
      SecondReplays(txs, asset, time, accts, p);
    }

    /**
      The owners of an asset at a time, by replaying its log; a time of 0 or less means no cutoff.
      There is no list for a missing name, for one of the two coin names, or for an asset that is not known.
     */
    method GetAssetAccts(name: Option<nat>, maxtimestamp: int) returns (accts: seq<Account>)
      requires Valid()
      modifies this`accounts, this`objects, objects`quantity
      ensures Valid()
      ensures if name == None || name.value in COIN_NAMES || name.value !in logged then accts == []
              else Replayed(accts, Upto(logged[name.value], name.value, if maxtimestamp <= 0 then FOREVER else maxtimestamp), name.value)
      ensures name != None && maxtimestamp <= 0 && (LogInStep(name.value) || LogMatches(name.value))
          && (forall j | 0 <= j < |LogOf(name.value)| :: LogOf(name.value)[j].timestamp <= FOREVER)
        ==> forall k | 0 <= k < |accts| :: accts[k].quantity == Signed(Balance(accts[k].id, name.value))
    {
      if name == None || name.value in COIN_NAMES || name.value !in logged {
        return [];
      }
      ghost var ids := accounts.Keys;
      accts := Replay(logged[name.value], name.value, if maxtimestamp <= 0 then FOREVER else maxtimestamp);
      InvolvesWider(ids, accounts.Keys, moves);
      if maxtimestamp <= 0 {
        NoCutoff(accts, name.value);
      }
    }

    lemma NoCutoff(accts: seq<Account>, asset: nat)
      requires Valid() && Replayed(accts, Upto(LogOf(asset), asset, FOREVER), asset)
      ensures (LogInStep(asset) || LogMatches(asset))
          && (forall j | 0 <= j < |LogOf(asset)| :: LogOf(asset)[j].timestamp <= FOREVER)
        ==> forall k | 0 <= k < |accts| :: accts[k].quantity == Signed(Balance(accts[k].id, asset))
    {
      if (LogInStep(asset) || LogMatches(asset)) && forall j | 0 <= j < |LogOf(asset)| :: LogOf(asset)[j].timestamp <= FOREVER {
        forall k | 0 <= k < |accts| ensures accts[k].quantity == Signed(Balance(accts[k].id, asset)) {
          ReplayAgreesWithTable(accts, asset, FOREVER, k);
        }
      }
    }

    /** The replay lists exactly the accounts involved, each once. */
    lemma ReplayListsInvolved(accts: seq<Account>, ms: seq<Move>, asset: nat, id: nat)
      requires Consistent() && Replayed(accts, ms, asset)
      ensures Distinct(accts)
      ensures Mentioned(ms, id) <==> id in accounts && accounts[id] in accts
    {
      var ids := FirstSeen(ms);
      FirstSeenExactly(ms, id);
      forall i, j | 0 <= i < j < |accts| ensures accts[i] != accts[j] {
        assert accounts[ids[i]].id == ids[i] && accounts[ids[j]].id == ids[j];
      }
      if Mentioned(ms, id) {
        var k :| 0 <= k < |ids| && ids[k] == id;
        assert accts[k] == accounts[id];
      }
      if id in accounts && accounts[id] in accts {
        var k :| 0 <= k < |accts| && accts[k] == accounts[id];
        assert accounts[ids[k]].id == ids[k];
      }
    }

    lemma ReplayedQuantity(accts: seq<Account>, ms: seq<Move>, asset: nat, k: nat)
      requires Valid() && Replayed(accts, ms, asset) && k < |accts|
      ensures k < |FirstSeen(ms)| && accts[k].id == FirstSeen(ms)[k]
      ensures accts[k].quantity == Signed(Balance(accts[k].id, asset)) <==> SameFlow(moves, ms, accts[k].id, asset)
    {
      var id := FirstSeen(ms)[k];
      assert posted == Posted(moves);
      assert accounts[id].id == id && AgreesAt(accounts[id].Holdings(), id, posted, asset);
      NetIsFlows(moves, id, asset);
      NetIsFlows(ms, id, asset);
      SignedWrap(Flows(moves, id, asset));
      SignedExactly(Flows(ms, id, asset), Flows(moves, id, asset));
    }

    lemma FirstReplayed(accts: seq<Account>, ms: seq<Move>, asset: nat, id: nat)
      requires Consistent() && Replayed(accts, ms, asset) && FirstSeen(ms) != [] && FirstSeen(ms)[0] == id
      ensures accts != [] && id in accounts && accts[0] == accounts[id] && accts[0].id == id
      ensures accts[0].quantity == Signed(Net(Posted(ms), id, asset))
    {
    }

    lemma NothingMoved(id: nat, asset: nat)
      requires Valid() && moves == []
      ensures Balance(id, asset) == 0
    {
      assert posted == Posted(moves);
      if id in accounts {
        assert AgreesAt(accounts[id].Holdings(), id, posted, asset);
      }
    }

    /** The replay gives every account it lists the holding of the table if and only if they have the same net flows. */
    lemma ReplayAgreesExactly(accts: seq<Account>, ms: seq<Move>, asset: nat)
      requires Valid() && Replayed(accts, ms, asset)
      ensures (forall k | 0 <= k < |accts| :: accts[k].quantity == Signed(Balance(accts[k].id, asset)))
         <==> forall id: nat | Mentioned(ms, id) :: SameFlow(moves, ms, id, asset)
    {
      var ids := FirstSeen(ms);
      forall k | 0 <= k < |accts|
        ensures accts[k].quantity == Signed(Balance(accts[k].id, asset)) <==> SameFlow(moves, ms, ids[k], asset)
      {
        ReplayedQuantity(accts, ms, asset, k);
      }
      forall id: nat | Mentioned(ms, id) ensures exists k | 0 <= k < |ids| :: ids[k] == id {
        FirstSeenExactly(ms, id);
      }
      forall k | 0 <= k < |ids| ensures Mentioned(ms, ids[k]) {
        FirstSeenExactly(ms, ids[k]);
      }
    }

    /**
      Where the replay agreed with the table before a new transaction was recorded, it agrees after it if and only
      if both addresses were there or the transaction moves nothing.
     */
    lemma ReplayAfterRecord(accts: seq<Account>, ms: seq<Move>, txs: seq<Tx>, tx: Tx, asset: nat, both: bool)
      requires Valid() && Matches(ms, txs, asset) && moves == if both then ms + [MoveOf(tx, asset)] else ms
      requires Replayed(accts, Logged(txs + [tx], asset), asset)
      ensures (forall k | 0 <= k < |accts| :: accts[k].quantity == Signed(Balance(accts[k].id, asset)))
         <==> both || MovesNothing(tx)
    {
      ReplayAgreesExactly(accts, Logged(txs + [tx], asset), asset);
      RecordedSame(ms, txs, tx, asset, both);
      if !both {
        LogAloneMatchesExactly(ms, txs, tx, asset);
      }
    }

    /**
      Without a cutoff, if the asset's log was transferred, each transaction once and in whatever order, the
      replay gives every listed account the holding of the table.
     */
    lemma ReplayAgreesWithTable(accts: seq<Account>, asset: nat, time: int, k: nat)
      requires Valid() && Replayed(accts, Upto(LogOf(asset), asset, time), asset) && k < |accts|
      requires LogInStep(asset) || LogMatches(asset)
      requires forall j | 0 <= j < |LogOf(asset)| :: LogOf(asset)[j].timestamp <= time
      ensures accts[k].quantity == Signed(Balance(accts[k].id, asset))
    {
      UptoTheEnd(LogOf(asset), asset, time);
      if LogInStep(asset) {
        InStepMatches(moves, LogOf(asset), asset);
      }
      ReplayedQuantity(accts, Upto(LogOf(asset), asset, time), asset, k);
      assert SameFlow(moves, Logged(LogOf(asset), asset), accts[k].id, asset);
    }
  }

  function AddPointer(list: seq<Account>, p: Account): seq<Account> {
    if p in list then list else list + [p]
  }

  method AddToList(list: seq<Account>, p: Account) returns (r: seq<Account>)
    ensures r == AddPointer(list, p)
  {
    for i := 0 to |list|
      invariant p !in list[..i]
    {
      if list[i] == p {
        return list;
      }
    }
    r := list + [p];
  }

  lemma OneMove(tx: Tx, asset: nat, time: int)
    requires tx.timestamp <= time
    ensures Upto([tx], asset, time) == [MoveOf(tx, asset)]
  {
    UptoMore([tx], 0, asset, time);
    assert [tx][..1] == [tx] && [tx][..0] == [];
  }

  lemma FirstSeenOfOne(m: Move)
    requires m.from != m.to
    ensures FirstSeen([m]) == [m.from, m.to]
  {
    FirstSeenMore([], m);
    assert [] + [m] == [m];
  }

  lemma NetOfOne(m: Move, id: nat, asset: nat)
    ensures Net(Posted([m]), id, asset) == Flow(m, id, asset)
  {
    NetOfMove([], m, id, asset);
    assert [] + [m] == [m];
  }

  lemma OneLogged(tx: Tx, asset: nat, time: int)
    requires tx.timestamp <= time && tx.sender != tx.receiver
    ensures var ms := Upto([tx], asset, time);
      FirstSeen(ms) == [tx.sender, tx.receiver] && Net(Posted(ms), tx.sender, asset) == 0 - tx.quantity
  {
    OneMove(tx, asset, time);
    FirstSeenOfOne(MoveOf(tx, asset));
    NetOfOne(MoveOf(tx, asset), tx.sender, asset);
  }

  method OnlyLogged(asset: nat, tx: Tx) returns (ledger: Ledger)
    requires tx.receiver == 0
    ensures fresh(ledger) && fresh(ledger.objects) && ledger.Valid()
    ensures ledger.moves == [] && asset in ledger.logged && ledger.logged[asset] == [tx]
  {
    ledger := new Ledger();
    var _ := ledger.RecordOnce(asset, tx, Some(tx.sender), None);
  }

  /** What the replay says of the sender. */
  method ReplaySender(ledger: Ledger, asset: nat, tx: Tx) returns (acct: Account)
    requires ledger.Valid() && asset in ledger.logged && ledger.logged[asset] == [tx]
    requires asset !in COIN_NAMES && tx.timestamp <= FOREVER && tx.sender != tx.receiver
    modifies ledger`accounts, ledger`objects, ledger.objects`quantity
    ensures ledger.Valid() && tx.sender in ledger.accounts && acct == ledger.accounts[tx.sender] && acct.id == tx.sender
    ensures acct.quantity == Signed(0 - tx.quantity)
  {
    var accts := ledger.GetAssetAccts(Some(asset), 0);
    OneLogged(tx, asset, FOREVER);
    ledger.FirstReplayed(accts, Upto([tx], asset, FOREVER), asset, tx.sender);
    acct := accts[0];
  }

  /** An empty receiver: the replay takes the quantity from the sender, the table does not. */
  method EmptyReceiver(asset: nat, tx: Tx) returns (replayed: int, held: nat)
    requires asset !in COIN_NAMES && tx.timestamp <= FOREVER && tx.receiver == 0 && tx.sender != 0
    ensures replayed == Signed(0 - tx.quantity) && held == 0
  {
    var ledger := OnlyLogged(asset, tx);
    var acct := ReplaySender(ledger, asset, tx);
    replayed := acct.quantity;
    held := ledger.QuantityOf(acct, asset);
    ledger.NothingMoved(tx.sender, asset);
  }
}

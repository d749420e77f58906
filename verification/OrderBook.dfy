/**
  The order books (`NXTservices/orders.h:141-148, 183-297, 332-454, 456-485, 816-858`): raw orders kept
  by book id, the bids and asks drawn from them for either polarity, and the form in which a quote is shown.
 */
module OrderBook {
  import opened Sequences

  /** The id of an asset, an account or a book. */
  datatype Id = Id(bits: bv64)

  predicate Less(a: Id, b: Id) {
    a.bits < b.bits
  }

  const ORDERBOOK_SIG: nat := 0x83746783
  const ORDERBOOK_SIZE: nat := 56

  /** Orders are told apart by where they are stored. */
  class OrderTx {
    const sig: nat
    const kind: nat
    const nxt: Id
    const baseid: Id
    const relid: Id
    const baseamount: nat
    const relamount: nat
    var txid: Id

    constructor (sig: nat, kind: nat, nxt: Id, baseid: Id, relid: Id, baseamount: nat, relamount: nat)
      ensures this.sig == sig && this.kind == kind && this.nxt == nxt && this.baseid == baseid && this.relid == relid
      ensures this.baseamount == baseamount && this.relamount == relamount
    {
      this.sig, this.kind, this.nxt, this.baseid, this.relid := sig, kind, nxt, baseid, relid;
      this.baseamount, this.relamount, this.txid := baseamount, relamount, Id(0);
    }
  }

  /** The id of the book for a pair of assets. */
  function BookId(a: Id, b: Id): Id {
    Id(a.bits ^ b.bits)
  }

  function IsOrderbookTx(tx: OrderTx, size: nat): Id {
    if size == ORDERBOOK_SIZE && tx.sig == ORDERBOOK_SIG && tx.baseid != tx.relid then BookId(tx.baseid, tx.relid) else Id(0)
  }

  /** The order trades the two assets of a book, in either direction. */
  predicate Fits(a: Id, b: Id, tx: OrderTx) {
    (a == tx.baseid && b == tx.relid) || (a == tx.relid && b == tx.baseid)
  }

  /* ---- The books as values ---- */

  datatype Book = Book(assetA: Id, assetB: Id, live: set<OrderTx>)

  ghost function NewBook(tx: OrderTx): Book {
    if Less(tx.baseid, tx.relid) then Book(tx.baseid, tx.relid, {}) else Book(tx.relid, tx.baseid, {})
  }

  /** One update: direction 1 adds an order, -1 takes it out; the result tells whether it was accepted. */
  ghost function Updated(m: map<Id, Book>, dir: int, id: Id, tx: OrderTx): (map<Id, Book>, int) {
    var book := BookFor(m, id, tx);
    var made := m[id := book];
    if !Fits(book.assetA, book.assetB, tx) then (m, -1)
    else if dir > 0 then
      if tx in book.live then (made, -1) else (m[id := book.(live := book.live + {tx})], 0)
    else if dir < 0 then
      if tx in book.live then (m[id := book.(live := book.live - {tx})], 0) else (made, -1)
    else (made, if tx.baseamount == tx.relamount == 0 then 0 else -2)
  }

  ghost function BookFor(m: map<Id, Book>, id: Id, tx: OrderTx): Book {
    if id in m then m[id] else NewBook(tx)
  }

  lemma UpdatedWith(m: map<Id, Book>, dir: int, id: Id, tx: OrderTx, b: Book, r: map<Id, Book>)
    requires b == BookFor(m, id, tx) && Fits(b.assetA, b.assetB, tx) && dir != 0
    requires r == m[id := b][id := b.(live := if dir > 0 then b.live + {tx} else b.live - {tx})]
    ensures Updated(m, dir, id, tx).0 == r
  {
    if dir > 0 && tx in b.live {
      assert b.live + {tx} == b.live;
    }
    if dir < 0 && tx !in b.live {
      assert b.live - {tx} == b.live;
    }
  }

  datatype Call = Call(dir: int, id: Id, tx: OrderTx)

  ghost function Run(calls: seq<Call>): map<Id, Book> {
    if calls == [] then map[]
    else
      var c := calls[|calls| - 1];
      Updated(Run(calls[..|calls| - 1]), c.dir, c.id, c.tx).0
  }

  lemma RunMore(calls: seq<Call>, c: Call)
    ensures Run(calls + [c]) == Updated(Run(calls), c.dir, c.id, c.tx).0
  {
    assert (calls + [c])[..|calls|] == calls;
  }

  /** The first call for a book, or the number of calls if there is none. */
  ghost function First(calls: seq<Call>, id: Id): (k: nat)
    ensures k <= |calls|
    ensures k < |calls| ==> calls[k].id == id
    ensures forall j | 0 <= j < k :: calls[j].id != id
  {
    if calls == [] then 0
    else
      var n := |calls| - 1;
      var k := First(calls[..n], id);
      if k < n || calls[n].id == id then k else n + 1
  }

  /** The last direction, other than 0, in which a book was called for an order; 0 if there is none. */
  ghost function LastDirection(calls: seq<Call>, id: Id, tx: OrderTx): int {
    if calls == [] then 0
    else
      var c := calls[|calls| - 1];
      if c.id == id && c.tx == tx && c.dir != 0 then c.dir else LastDirection(calls[..|calls| - 1], id, tx)
  }

  /** Both orders trade the same two assets. */
  predicate SamePair(s: OrderTx, t: OrderTx) {
    Fits(s.baseid, s.relid, t)
  }

  lemma FirstMore(calls: seq<Call>, id: Id)
    requires calls != []
    ensures var n := |calls| - 1; var k := First(calls[..n], id);
      First(calls, id) == if k < n || calls[n].id == id then k else n + 1
  {
  }

  /** The assets of a book, and who is in it. */
  ghost predicate Trades(m: map<Id, Book>, id: Id, a: Id, b: Id) {
    id in m && m[id].assetA == a && m[id].assetB == b
  }

  ghost predicate Live(m: map<Id, Book>, id: Id, tx: OrderTx) {
    id in m && tx in m[id].live
  }

  lemma UpdatedOpens(m: map<Id, Book>, c: Call, id: Id)
    ensures var r := Updated(m, c.dir, c.id, c.tx).0;
      && (id in r <==> id in m || id == c.id)
      && (id in m ==> Trades(r, id, m[id].assetA, m[id].assetB))
      && (id !in m && id == c.id ==> Trades(r, id, NewBook(c.tx).assetA, NewBook(c.tx).assetB))
  {
  }

  lemma UpdatedLive(m: map<Id, Book>, c: Call, id: Id, tx: OrderTx)
    ensures var book := BookFor(m, id, c.tx);
      Live(Updated(m, c.dir, c.id, c.tx).0, id, tx) <==>
        if c.id == id && c.tx == tx && c.dir != 0 && Fits(book.assetA, book.assetB, tx) then c.dir > 0 else Live(m, id, tx)
  {
  }

  /** A book is there once it has been called, with the pair of the order that it was first called with. */
  lemma {:induction false} BookOpened(calls: seq<Call>, id: Id)
    ensures id in Run(calls) <==> First(calls, id) < |calls|
    ensures id in Run(calls) ==>
      var b := NewBook(calls[First(calls, id)].tx); Trades(Run(calls), id, b.assetA, b.assetB)
    decreases |calls|
  {
    if calls != [] {
      var front, c := calls[..|calls| - 1], calls[|calls| - 1];
      BookOpened(front, id);
      FirstMore(calls, id);
      UpdatedOpens(Run(front), c, id);
    }
  }

  lemma OpenedFits(s: OrderTx, tx: OrderTx)
    ensures Fits(NewBook(s).assetA, NewBook(s).assetB, tx) <==> SamePair(s, tx)
  {
  }

  /**
    After any calls a book holds exactly the orders that were added last, and not taken out since, and that
    trade the assets of the order the book was opened with.
   */
  lemma {:induction false} LiveExactly(calls: seq<Call>, id: Id, tx: OrderTx)
    ensures Live(Run(calls), id, tx)
       <==> First(calls, id) < |calls| && SamePair(calls[First(calls, id)].tx, tx) && LastDirection(calls, id, tx) > 0
    decreases |calls|
  {
    if calls != [] {
      var front, c := calls[..|calls| - 1], calls[|calls| - 1];
      LiveExactly(front, id, tx);
      BookOpened(front, id);
      FirstMore(calls, id);
      UpdatedLive(Run(front), c, id, tx);
      if First(front, id) < |front| {
        OpenedFits(front[First(front, id)].tx, tx);
      } else {
        OpenedFits(c.tx, tx);
        NeverCalled(front, id, tx);
      }
    }
  }

  lemma {:induction false} NeverCalled(calls: seq<Call>, id: Id, tx: OrderTx)
    requires First(calls, id) == |calls|
    ensures LastDirection(calls, id, tx) == 0
    decreases |calls|
  {
    if calls != [] {
      FirstMore(calls, id);
      NeverCalled(calls[..|calls| - 1], id, tx);
    }
  }

  /** All orders of a book trade its two assets, whatever ids they were called with. */
  lemma LiveFits(calls: seq<Call>, id: Id, tx: OrderTx)
    requires Live(Run(calls), id, tx)
    ensures Fits(Run(calls)[id].assetA, Run(calls)[id].assetB, tx)
  {
    LiveExactly(calls, id, tx);
    BookOpened(calls, id);
    OpenedFits(calls[First(calls, id)].tx, tx);
  }

  /** If every call names the book of its order's pair, the id of every book is that of its pair. */
  lemma BooksKeyed(calls: seq<Call>, id: Id)
    requires id in Run(calls) && forall k | 0 <= k < |calls| :: calls[k].id == BookId(calls[k].tx.baseid, calls[k].tx.relid)
    ensures id == BookId(Run(calls)[id].assetA, Run(calls)[id].assetB)
  {
    BookOpened(calls, id);
    var tx := calls[First(calls, id)].tx;
    BookIdSymmetric(tx.baseid, tx.relid);
  }

  lemma BookIdSymmetric(a: Id, b: Id)
    ensures BookId(a, b) == BookId(b, a)
  {
  }

  /** Different pairs can have the same id: for any pair and any third asset there is a fourth. */
  lemma IdsCollide(a: Id, b: Id, c: Id)
    ensures BookId(c, BookId(BookId(a, b), c)) == BookId(a, b)
  {
  }

  /** An order of another pair, even one with the same id, is refused, and nothing changes. */
  lemma OtherPairRefused(calls: seq<Call>, dir: int, id: Id, tx: OrderTx)
    requires First(calls, id) < |calls| && !SamePair(calls[First(calls, id)].tx, tx)
    ensures Updated(Run(calls), dir, id, tx) == (Run(calls), -1)
  {
    BookOpened(calls, id);
    OpenedFits(calls[First(calls, id)].tx, tx);
  }

  /* ---- The books in place ---- */

  class RawOrders {
    const obookid: Id
    const assetA: Id
    const assetB: Id
    var orders: seq<OrderTx>

    ghost predicate Valid()
      reads this
    {
      Distinct(orders)
    }

    ghost function Value(): Book
      reads this
    {
      Book(assetA, assetB, set tx | tx in orders)
    }

    /** Opens a book for the pair of an order, the smaller asset first. */
    constructor (obookid: Id, tx: OrderTx)
      ensures Valid() && this.obookid == obookid && Value() == NewBook(tx)
    {
      this.obookid, orders := obookid, [];
      if Less(tx.baseid, tx.relid) {
        assetA, assetB := tx.baseid, tx.relid;
      } else {
        assetA, assetB := tx.relid, tx.baseid;
      }
    }

    method Find(tx: OrderTx) returns (ind: int)
      ensures if tx in orders then 0 <= ind < |orders| && orders[ind] == tx else ind == -1
    {
      for i := 0 to |orders|
        invariant tx !in orders[..i]
      {
        if orders[i] == tx {
          return i;
        }
      }
      ind := -1;
    }

    /** The last order takes the place of the deleted one. */
    method Delete(tx: OrderTx) returns (r: int)
      requires Valid()
      modifies this
      ensures Valid() && r == if tx in old(orders) then 0 else -1
      ensures Value() == old(Value()).(live := old(Value()).live - {tx})
      ensures |orders| == if r == 0 then |old(orders)| - 1 else |old(orders)|
    {
      var ind := Find(tx);
      if ind >= 0 {
        var n := |orders| - 1;
        SwapDeletes(orders, ind);
        orders := orders[ind := orders[n]][..n];
        r := 0;
      } else {
        r := -1;
      }
    }

    method Append(tx: OrderTx) returns (r: int)
      requires Valid()
      modifies this
      ensures Valid() && r == if tx in old(orders) then -1 else 0
      ensures Value() == old(Value()).(live := old(Value()).live + {tx})
      ensures orders == if r == 0 then old(orders) + [tx] else old(orders)
    {
      var ind := Find(tx);
      if ind < 0 {
        orders := orders + [tx];
        r := 0;
      } else {
        r := -1;
      }
    }

    method Change(dir: int, tx: OrderTx) returns (r: int)
      requires Valid() && dir != 0
      modifies this
      ensures Valid()
      ensures var b := old(Value());
        && Value() == b.(live := if dir > 0 then b.live + {tx} else b.live - {tx})
        && r == if tx in b.live then (if dir > 0 then -1 else 0) else (if dir > 0 then 0 else -1)
    {
      if dir > 0 {
        r := Append(tx);
      } else {
        r := Delete(tx);
      }
    }
  }

  lemma SwapDeletes(s: seq<OrderTx>, i: nat)
    requires Distinct(s) && i < |s|
    ensures var n := |s| - 1; var t := s[i := s[n]][..n];
      Distinct(t) && forall x :: x in t <==> x in s && x != s[i]
  {
    var n := |s| - 1;
    var t := s[i := s[n]][..n];
    forall x | x in s && x != s[i] ensures x in t {
      var k :| 0 <= k < |s| && s[k] == x;
      assert t[if k == n then i else k] == x;
    }
  }

  /** All the books. */
  class Market {
    var books: seq<RawOrders>
    ghost var calls: seq<Call>
    ghost var value: map<Id, Book>
    /** Where the book of an id is. */
    ghost var place: map<Id, nat>

    ghost predicate Mirrors()
      reads this`books, this`place, this`value, books
    {
      && place.Keys == value.Keys
      && (forall id | id in place :: place[id] < |books| && books[place[id]].obookid == id)
      && (forall k | 0 <= k < |books| ::
            && books[k].obookid in place && place[books[k].obookid] == k
            && books[k].Valid() && books[k].Value() == value[books[k].obookid])
    }

    ghost predicate Valid()
      reads this, books
    {
      Mirrors() && value == Run(calls)
    }

    constructor ()
      ensures Valid() && books == [] && calls == []
    {
      books, calls, value, place := [], [], map[], map[];
    }

    method FindRawOrders(id: Id) returns (i: nat)
      requires Mirrors()
      ensures if id in value then i < |books| && books[i].obookid == id else i == |books|
    {
      i := 0;
      while i < |books|
        invariant i <= |books| && (id in value ==> i <= place[id])
      {
        if books[i].obookid == id {
          return;
        }
        i := i + 1;
      }
    }

    method AddBook(id: Id, tx: OrderTx) returns (raw: RawOrders)
      requires Mirrors() && id !in value
      modifies this`books, this`value, this`place
      ensures Mirrors() && value == old(value)[id := NewBook(tx)]
      ensures fresh(raw) && books == old(books) + [raw] && raw.obookid == id
    {
      raw := new RawOrders(id, tx);
      value, place := value[id := NewBook(tx)], place[id := |books|];
      books := books + [raw];
    }

    method Change(raw: RawOrders, i: nat, dir: int, tx: OrderTx) returns (r: int)
      requires Mirrors() && i < |books| && raw == books[i] && dir != 0
      modifies raw, this`value
      ensures Mirrors() && books == old(books)
      ensures var b := old(raw.Value());
        && value == old(value)[raw.obookid := b.(live := if dir > 0 then b.live + {tx} else b.live - {tx})]
        && r == if tx in b.live then (if dir > 0 then -1 else 0) else (if dir > 0 then 0 else -1)
    {
      r := raw.Change(dir, tx);
      value := value[raw.obookid := raw.Value()];
    }

    /** The place of the book of an id, opened for the order if there is none; its pair may not fit the order. */
    method Open(id: Id, tx: OrderTx) returns (i: nat, fits: bool)
      requires Mirrors()
      modifies this`books, this`value, this`place
      ensures Mirrors() && i < |books| && books[i].obookid == id && (books[i] in old(books) || fresh(books[i]))
      ensures var b := BookFor(old(value), id, tx);
        fits == Fits(b.assetA, b.assetB, tx) && value == if fits then old(value)[id := b] else old(value)
      ensures old(books) <= books && forall b | b in books :: b in old(books) || fresh(b)
    {
      i := FindRawOrders(id);
      if i == |books| {
        var raw := AddBook(id, tx);
        fits := true;
      } else {
        fits := Fits(books[i].assetA, books[i].assetB, tx);
        assert value[id := value[id]] == value;
      }
    }

    method Apply(dir: int, id: Id, tx: OrderTx) returns (r: int)
      requires Mirrors()
      modifies this`books, this`value, this`place, books
      ensures Mirrors() && (value, r) == Updated(old(value), dir, id, tx)
      ensures old(books) <= books && forall b | b in books :: b in old(books) || fresh(b)
    {
      var i, fits := Open(id, tx);
      if !fits {
        return -1;
      }
      if dir != 0 {
        ghost var b := BookFor(old(value), id, tx);
        r := Change(books[i], i, dir, tx);
        UpdatedWith(old(value), dir, id, tx, b, value);
      } else {
        r := if tx.baseamount == 0 && tx.relamount == 0 then 0 else -2;
      }
    }

    method Update(dir: int, id: Id, tx: OrderTx) returns (r: int)
      requires Valid()
      modifies this, books
      ensures Valid() && calls == old(calls) + [Call(dir, id, tx)]
      ensures (value, r) == Updated(old(value), dir, id, tx)
      ensures old(books) <= books && forall b | b in books :: b in old(books) || fresh(b)
    {
      RunMore(calls, Call(dir, id, tx));
      r := Apply(dir, id, tx);
      calls := calls + [Call(dir, id, tx)];
    }

    /** A new order goes to the book of its pair, and remembers its transaction if it is accepted. */
    method AddTx(tx: OrderTx, size: nat, txid: Id)
      requires Valid()
      modifies this, books, tx`txid
      ensures var id := IsOrderbookTx(tx, size);
        if id == Id(0) then calls == old(calls) && tx.txid == old(tx.txid)
        else calls == old(calls) + [Call(1, id, tx)] && tx.txid == if Updated(old(value), 1, id, tx).1 == 0 then txid else old(tx.txid)
      ensures Valid()
    {
      var id := IsOrderbookTx(tx, size);
      if id != Id(0) {
        var r := Update(1, id, tx);
        if r == 0 {
          tx.txid := txid;
        }
      }
    }

    method RemoveTx(tx: OrderTx, size: nat)
      requires Valid()
      modifies this, books
      ensures var id := IsOrderbookTx(tx, size); calls == if id == Id(0) then old(calls) else old(calls) + [Call(-1, id, tx)]
      ensures Valid()
    {
      var id := IsOrderbookTx(tx, size);
      if id != Id(0) {
        var _ := Update(-1, id, tx);
      }
    }

    /** No two books have the same id, no book holds an order twice, and all its orders trade its two assets. */
    lemma BooksSeparate(i: nat, j: nat)
      requires Valid() && i < |books| && j < |books|
      ensures i != j ==> books[i].obookid != books[j].obookid
      ensures Distinct(books[i].orders)
      ensures forall tx | tx in books[i].orders :: Fits(books[i].assetA, books[i].assetB, tx)
    {
      forall tx | tx in books[i].orders ensures Fits(books[i].assetA, books[i].assetB, tx) {
        assert tx in books[i].Value().live;
        LiveFits(calls, books[i].obookid, tx);
      }
    }
  }
}

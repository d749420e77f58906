/**
  Bids and asks (`NXTservices/orders.h:332-454, 456-485`): the orders of a book, seen with a polarity, as two
  sorted lists of quotes, and the form in which a quote is shown. Prices are exact ratios.
 */
module Quotes {
  import opened OrderBook
  import opened Sequences

  /** A price, as the ratio of two amounts. */
  datatype Ratio = Ratio(num: nat, den: nat)

  predicate Positive(r: Ratio) {
    r.num > 0 && r.den > 0
  }

  predicate AtMost(p: Ratio, q: Ratio) {
    p.num * q.den <= q.num * p.den
  }

  function Inverse(r: Ratio): Ratio {
    Ratio(r.den, r.num)
  }

  lemma InverseReverses(p: Ratio, q: Ratio)
    ensures AtMost(Inverse(p), Inverse(q)) <==> AtMost(q, p)
  {
  }

  lemma ScaleUp(a: nat, b: nat, n: nat)
    requires a <= b
    ensures a * n <= b * n
  {
  }

  lemma ScaleUpStrictly(a: nat, b: nat, n: nat)
    requires a < b && n > 0
    ensures a * n < b * n
  {
    ScaleUp(a + 1, b, n);
  }

  lemma AtMostTransitive(p: Ratio, q: Ratio, r: Ratio)
    requires Positive(q) && AtMost(p, q) && AtMost(q, r)
    ensures AtMost(p, r)
  {
    ScaleUp(p.num * q.den, q.num * p.den, r.den);
    ScaleUp(q.num * r.den, r.num * q.den, p.den);
    assert (p.num * r.den) * q.den == (p.num * q.den) * r.den;
    assert (r.num * p.den) * q.den == (r.num * q.den) * p.den;
    assert (q.num * p.den) * r.den == (q.num * r.den) * p.den;
    if r.num * p.den < p.num * r.den {
      ScaleUpStrictly(r.num * p.den, p.num * r.den, q.den);
    }
  }

  datatype Quote = Quote(price: Ratio, kind: nat, nxt: Id, baseamount: nat, relamount: nat)

  /** What is shown of a quote. */
  datatype Shown = Nothing | Shown(price: Ratio, volume: nat, kind: nat, nxt: Id)

  /** With a polarity that is not positive the two amounts change places. */
  function Show(q: Quote, polarity: int): Shown {
    var base := if polarity > 0 then q.baseamount else q.relamount;
    var rel := if polarity > 0 then q.relamount else q.baseamount;
    if base != 0 && rel != 0 then Shown(Ratio(rel, base), base, q.kind, q.nxt) else Nothing
  }

  /** 1 for a bid, -1 for an ask, 0 for neither. */
  function Direction(a: Id, b: Id, tx: OrderTx): int {
    if a == tx.baseid && b == tx.relid then 1 else if a == tx.relid && b == tx.baseid then -1 else 0
  }

  predicate Filled(tx: OrderTx?) {
    tx != null && tx.baseamount != 0 && tx.relamount != 0
  }

  function MakeQuote(tx: OrderTx, base: nat, rel: nat): Quote {
    Quote(Ratio(rel, base), tx.kind, tx.nxt, base, rel)
  }

  /** The bids among some orders, in their order; the asks are those with the polarity turned. */
  function Bids(polarity: int, a: Id, b: Id, orders: seq<OrderTx?>): seq<Quote> {
    if orders == [] then []
    else
      var tx, rest := orders[|orders| - 1], Bids(polarity, a, b, orders[..|orders| - 1]);
      if Filled(tx) && Direction(a, b, tx) * polarity > 0 then rest + [MakeQuote(tx, tx.baseamount, tx.relamount)] else rest
  }

  function Asks(polarity: int, a: Id, b: Id, orders: seq<OrderTx?>): seq<Quote> {
    if orders == [] then []
    else
      var tx, rest := orders[|orders| - 1], Asks(polarity, a, b, orders[..|orders| - 1]);
      if Filled(tx) && Direction(a, b, tx) * polarity < 0 then rest + [MakeQuote(tx, tx.relamount, tx.baseamount)] else rest
  }

  /* ---- Sorting ---- */

  /** The order in which a side is kept: falling prices for a positive polarity, else rising ones. */
  predicate Before(polarity: int, p: Quote, q: Quote) {
    if polarity > 0 then AtMost(q.price, p.price) else AtMost(p.price, q.price)
  }

  predicate Ordered(polarity: int, s: seq<Quote>) {
    forall i, j | 0 <= i < j < |s| :: Before(polarity, s[i], s[j])
  }

  /** A possible result of sorting: the order of quotes with equal prices is left open. */
  predicate Sorts(polarity: int, s: seq<Quote>, r: seq<Quote>) {
    multiset(r) == multiset(s) && Ordered(polarity, r)
  }

  /** Neither amount of a quote is 0, and its price is their ratio. */
  predicate Proper(q: Quote) {
    Positive(q.price) && q.price == Ratio(q.relamount, q.baseamount)
  }

  predicate AllProper(s: seq<Quote>) {
    forall k | 0 <= k < |s| :: Proper(s[k])
  }

  lemma BeforeTransitive(polarity: int, p: Quote, q: Quote, r: Quote)
    requires Proper(q) && Before(polarity, p, q) && Before(polarity, q, r)
    ensures Before(polarity, p, r)
  {
    if polarity > 0 {
      AtMostTransitive(r.price, q.price, p.price);
    } else {
      AtMostTransitive(p.price, q.price, r.price);
    }
  }

  lemma BeforeTotal(polarity: int, p: Quote, q: Quote)
    ensures Before(polarity, p, q) || Before(polarity, q, p)
  {
  }

  /** Putting a quote between those before it and those after it. */
  lemma InsertedOrdered(polarity: int, s: seq<Quote>, k: nat, q: Quote)
    requires Ordered(polarity, s) && k <= |s| && AllProper(s) && Proper(q)
    requires k > 0 ==> Before(polarity, s[k - 1], q)
    requires k < |s| ==> Before(polarity, q, s[k])
    ensures Ordered(polarity, s[..k] + [q] + s[k..])
  {
    forall i | 0 <= i < k ensures Before(polarity, s[i], q) {
      if i < k - 1 {
        BeforeTransitive(polarity, s[i], s[k - 1], q);
      }
    }
    forall j | k <= j < |s| ensures Before(polarity, q, s[j]) {
      if k < j {
        BeforeTransitive(polarity, q, s[k], s[j]);
      }
    }
  }

  lemma InsertedQuotes(s: seq<Quote>, k: nat, q: Quote)
    requires k <= |s|
    ensures multiset(s[..k] + [q] + s[k..]) == multiset(s) + multiset{q}
  {
    assert s == s[..k] + s[k..];
  }

  lemma InsertedProper(s: seq<Quote>, k: nat, q: Quote)
    requires k <= |s| && AllProper(s) && Proper(q)
    ensures AllProper(s[..k] + [q] + s[k..])
  {
  }

  method Insert(polarity: int, s: seq<Quote>, q: Quote) returns (r: seq<Quote>)
    requires Ordered(polarity, s) && AllProper(s) && Proper(q)
    ensures Ordered(polarity, r) && AllProper(r) && multiset(r) == multiset(s) + multiset{q}
  {
    var k := |s|;
    while k > 0 && !(if polarity > 0 then AtMost(q.price, s[k - 1].price) else AtMost(s[k - 1].price, q.price))
      invariant 0 <= k <= |s| && (k < |s| ==> Before(polarity, q, s[k]))
    {
      BeforeTotal(polarity, s[k - 1], q);
      k := k - 1;
    }
    InsertedOrdered(polarity, s, k, q);
    InsertedQuotes(s, k, q);
    InsertedProper(s, k, q);
    r := s[..k] + [q] + s[k..];
  }

  /** Stands for the library's sort, which may leave quotes of equal price in any order. */
  method Sort(polarity: int, s: seq<Quote>) returns (r: seq<Quote>)
    requires AllProper(s)
    ensures Sorts(polarity, s, r)
  {
    r := [];
    for i := 0 to |s|
      invariant Ordered(polarity, r) && AllProper(r) && multiset(r) == multiset(s[..i])
    {
      assert s[..i + 1] == s[..i] + [s[i]];
      r := Insert(polarity, r, s[i]);
    }
    assert s[..|s|] == s;
  }

  lemma {:induction false} SidesProper(polarity: int, a: Id, b: Id, orders: seq<OrderTx?>)
    ensures AllProper(Bids(polarity, a, b, orders)) && AllProper(Asks(polarity, a, b, orders))
  {
    if orders != [] {
      SidesProper(polarity, a, b, orders[..|orders| - 1]);
    }
  }

  /** Splits the orders into bids and asks, and sorts the two sides the opposite way. */
  method SortOrderbook(polarity: int, a: Id, b: Id, orders: seq<OrderTx?>) returns (bids: seq<Quote>, asks: seq<Quote>)
    ensures Sorts(polarity, Bids(polarity, a, b, orders), bids)
    ensures Sorts(-polarity, Asks(polarity, a, b, orders), asks)
  {
    bids, asks := [], [];
    for i := 0 to |orders|
      invariant bids == Bids(polarity, a, b, orders[..i]) && asks == Asks(polarity, a, b, orders[..i])
    {
      assert orders[..i + 1][..i] == orders[..i];
      var tx := orders[i];
      if tx != null && tx.baseamount != 0 && tx.relamount != 0 {
        var dir := Direction(a, b, tx) * polarity;
        if dir > 0 {
          bids := bids + [MakeQuote(tx, tx.baseamount, tx.relamount)];
        } else if dir < 0 {
          asks := asks + [MakeQuote(tx, tx.relamount, tx.baseamount)];
        }
      }
    }
    assert orders[..|orders|] == orders;
    SidesProper(polarity, a, b, orders);
    bids := Sort(polarity, bids);
    asks := Sort(-polarity, asks);
  }

  /* ---- What is shown ---- */

  lemma SortsProper(polarity: int, s: seq<Quote>, r: seq<Quote>)
    requires AllProper(s) && Sorts(polarity, s, r)
    ensures AllProper(r)
  {
    forall k | 0 <= k < |r| ensures Proper(r[k]) {
      assert r[k] in multiset(s);
    }
  }

  /** The first quote is shown with a price that is at least that of the second. */
  predicate ShownFalling(p: Quote, q: Quote, polarity: int) {
    var x, y := Show(p, polarity), Show(q, polarity);
    x.Shown? && y.Shown? && AtMost(y.price, x.price)
  }

  lemma BeforeShown(polarity: int, p: Quote, q: Quote)
    requires Proper(p) && Proper(q)
    ensures Before(polarity, p, q) <==> ShownFalling(p, q, polarity)
    ensures Before(-polarity, p, q) && polarity != 0 ==> ShownFalling(q, p, polarity)
  {
    InverseReverses(p.price, q.price);
    InverseReverses(q.price, p.price);
  }

  /** Whatever the polarity, the bids are shown with prices that never rise and the asks with prices that never fall. */
  lemma SidesShownInOrder(polarity: int, a: Id, b: Id, orders: seq<OrderTx?>, bids: seq<Quote>, asks: seq<Quote>)
    requires Sorts(polarity, Bids(polarity, a, b, orders), bids) && Sorts(-polarity, Asks(polarity, a, b, orders), asks)
    ensures forall i, j | 0 <= i < j < |bids| :: ShownFalling(bids[i], bids[j], polarity)
    ensures polarity != 0 ==> forall i, j | 0 <= i < j < |asks| :: ShownFalling(asks[j], asks[i], polarity)
  {
    SidesProper(polarity, a, b, orders);
    SortsProper(polarity, Bids(polarity, a, b, orders), bids);
    SortsProper(-polarity, Asks(polarity, a, b, orders), asks);
    forall i, j | 0 <= i < j < |bids| ensures ShownFalling(bids[i], bids[j], polarity) {
      BeforeShown(polarity, bids[i], bids[j]);
    }
    forall i, j | polarity != 0 && 0 <= i < j < |asks| ensures ShownFalling(asks[j], asks[i], polarity) {
      BeforeShown(polarity, asks[i], asks[j]);
    }
  }

  /** An order as amounts of the two assets of its book: so many of the first, at so many of the second for each. */
  function Face(a: Id, b: Id, tx: OrderTx): Shown {
    var (of, for1) := if Direction(a, b, tx) >= 0 then (tx.baseamount, tx.relamount) else (tx.relamount, tx.baseamount);
    Shown(Ratio(for1, of), of, tx.kind, tx.nxt)
  }

  /** The orders of a direction, as they are shown. */
  function Faces(dir: int, a: Id, b: Id, orders: seq<OrderTx?>): multiset<Shown> {
    if orders == [] then multiset{}
    else
      var tx, rest := orders[|orders| - 1], Faces(dir, a, b, orders[..|orders| - 1]);
      if Filled(tx) && Direction(a, b, tx) == dir then rest + multiset{Face(a, b, tx)} else rest
  }

  /** What is shown of some quotes, in any order. */
  function ShowAll(s: seq<Quote>, polarity: int): multiset<Shown> {
    if s == [] then multiset{} else ShowAll(s[..|s| - 1], polarity) + multiset{Show(s[|s| - 1], polarity)}
  }

  function Sign(x: int): int {
    if x > 0 then 1 else if x < 0 then -1 else 0
  }

  lemma ShowMore(s: seq<Quote>, q: Quote, polarity: int)
    ensures ShowAll(s + [q], polarity) == ShowAll(s, polarity) + multiset{Show(q, polarity)}
  {
    assert (s + [q])[..|s|] == s;
  }

  /** The side an order is on follows from its direction and the polarity; how it is shown does not depend on them. */
  lemma OneShown(polarity: int, a: Id, b: Id, tx: OrderTx)
    requires polarity != 0 && Filled(tx)
    ensures Direction(a, b, tx) * polarity > 0 <==> Direction(a, b, tx) == Sign(polarity)
    ensures Direction(a, b, tx) * polarity < 0 <==> Direction(a, b, tx) == -Sign(polarity)
    ensures Direction(a, b, tx) == Sign(polarity) ==>
      Show(MakeQuote(tx, tx.baseamount, tx.relamount), polarity) == Face(a, b, tx)
    ensures Direction(a, b, tx) == -Sign(polarity) ==>
      Show(MakeQuote(tx, tx.relamount, tx.baseamount), polarity) == Face(a, b, tx)
  {
  }

  lemma {:induction false} SidesShowFaces(polarity: int, a: Id, b: Id, orders: seq<OrderTx?>)
    requires polarity != 0
    ensures ShowAll(Bids(polarity, a, b, orders), polarity) == Faces(Sign(polarity), a, b, orders)
    ensures ShowAll(Asks(polarity, a, b, orders), polarity) == Faces(-Sign(polarity), a, b, orders)
  {
    if orders != [] {
      var front, tx := orders[..|orders| - 1], orders[|orders| - 1];
      SidesShowFaces(polarity, a, b, front);
      if Filled(tx) {
        OneShown(polarity, a, b, tx);
        ShowMore(Bids(polarity, a, b, front), MakeQuote(tx, tx.baseamount, tx.relamount), polarity);
        ShowMore(Asks(polarity, a, b, front), MakeQuote(tx, tx.relamount, tx.baseamount), polarity);
      }
    }
  }

  lemma {:induction false} ShowAllTakeOut(s: seq<Quote>, k: nat, polarity: int)
    requires k < |s|
    ensures ShowAll(s, polarity) == ShowAll(s[..k] + s[k + 1..], polarity) + multiset{Show(s[k], polarity)}
    decreases |s|
  {
    var n := |s| - 1;
    if k == n {
      assert s[..k] + s[k + 1..] == s[..n];
    } else {
      ShowAllTakeOut(s[..n], k, polarity);
      TakeOutEarlier(s, k);
      ShowMore(s[..n][..k] + s[..n][k + 1..], s[n], polarity);
    }
  }

  lemma {:induction false} ShowAllPermutes(s: seq<Quote>, r: seq<Quote>, polarity: int)
    requires multiset(s) == multiset(r)
    ensures ShowAll(s, polarity) == ShowAll(r, polarity)
    decreases |s|
  {
    if s == [] {
      assert |multiset(r)| == 0;
    } else {
      var front, q := s[..|s| - 1], s[|s| - 1];
      assert s == front + [q];
      assert q in multiset(r);
      var k :| 0 <= k < |r| && r[k] == q;
      assert r == r[..k] + [q] + r[k + 1..];
      ShowAllTakeOut(r, k, polarity);
      SameWithout(front, r[..k], q, r[k + 1..]);
      ShowAllPermutes(front, r[..k] + r[k + 1..], polarity);
    }
  }

  /**
    The two sides show exactly the orders of their direction, each once and with the amounts of the two assets,
    however the quotes of equal price are sorted.
   */
  lemma SidesShowOrders(polarity: int, a: Id, b: Id, orders: seq<OrderTx?>, bids: seq<Quote>, asks: seq<Quote>)
    requires polarity != 0
    requires Sorts(polarity, Bids(polarity, a, b, orders), bids) && Sorts(-polarity, Asks(polarity, a, b, orders), asks)
    ensures ShowAll(bids, polarity) == Faces(Sign(polarity), a, b, orders)
    ensures ShowAll(asks, polarity) == Faces(-Sign(polarity), a, b, orders)
  {
    SidesShowFaces(polarity, a, b, orders);
    ShowAllPermutes(bids, Bids(polarity, a, b, orders), polarity);
    ShowAllPermutes(asks, Asks(polarity, a, b, orders), polarity);
  }

  /** Turning the polarity swaps the two sides, quote by quote as shown. */
  lemma PolaritySwapsSides(polarity: int, a: Id, b: Id, orders: seq<OrderTx?>,
                           bids: seq<Quote>, asks: seq<Quote>, bids': seq<Quote>, asks': seq<Quote>)
    requires polarity != 0
    requires Sorts(polarity, Bids(polarity, a, b, orders), bids) && Sorts(-polarity, Asks(polarity, a, b, orders), asks)
    requires Sorts(-polarity, Bids(-polarity, a, b, orders), bids') && Sorts(polarity, Asks(-polarity, a, b, orders), asks')
    ensures ShowAll(bids, polarity) == ShowAll(asks', -polarity)
    ensures ShowAll(asks, polarity) == ShowAll(bids', -polarity)
  {
    SidesShowOrders(polarity, a, b, orders, bids, asks);
    SidesShowOrders(-polarity, a, b, orders, bids', asks');
  }

  /** Without a polarity there is nothing on either side. */
  lemma {:induction false} NoPolarityNoSides(a: Id, b: Id, orders: seq<OrderTx?>)
    ensures Bids(0, a, b, orders) == [] && Asks(0, a, b, orders) == []
  {
    if orders != [] {
      NoPolarityNoSides(a, b, orders[..|orders| - 1]);
    }
  }

  /* ---- Making orders, and viewing a book ---- */

  /**
    An order of a side of a book, with the amounts as they will be shown; without the book an order of
    nothing.
   */
  method InitOrderbookTx(market: Market, polarity: int, kind: nat, nxt: Id, id: Id, baseamount: nat, relamount: nat)
    returns (tx: OrderTx, r: int)
    requires market.Valid()
    ensures r == if id in market.value then 0 else -1
    ensures fresh(tx) && tx.sig == ORDERBOOK_SIG && tx.kind == kind && tx.nxt == nxt
    ensures r == -1 ==> tx.baseid == tx.relid == Id(0) && tx.baseamount == tx.relamount == 0
    ensures r == 0 ==>
      var b := market.value[id];
      && (Direction(b.assetA, b.assetB, tx) == (if polarity > 0 then 1 else -1) <==> polarity > 0 || b.assetA != b.assetB)
      && (polarity > 0 || b.assetA != b.assetB ==>
            Face(b.assetA, b.assetB, tx) == Shown(Ratio(relamount, baseamount), baseamount, kind, nxt))
  {
    var i := market.FindRawOrders(id);
    if i == |market.books| {
      tx := new OrderTx(ORDERBOOK_SIG, kind, nxt, Id(0), Id(0), 0, 0);
      return tx, -1;
    }
    var raw := market.books[i];
    if polarity > 0 {
      tx := new OrderTx(ORDERBOOK_SIG, kind, nxt, raw.assetA, raw.assetB, baseamount, relamount);
    } else {
      tx := new OrderTx(ORDERBOOK_SIG, kind, nxt, raw.assetB, raw.assetA, relamount, baseamount);
    }
    r := 0;
  }

  method CreateOrderbook(market: Market, id: Id, polarity: int, feed: seq<OrderTx?>)
    returns (made: bool, bids: seq<Quote>, asks: seq<Quote>)
    requires market.Valid()
    ensures made ==> id in market.value
    ensures made ==>
      exists k | 0 <= k < |market.books| ::
        var b := market.value[id];
        && market.books[k].obookid == id && market.books[k].orders + feed != []
        && Sorts(polarity, Bids(polarity, b.assetA, b.assetB, market.books[k].orders + feed), bids)
        && Sorts(-polarity, Asks(polarity, b.assetA, b.assetB, market.books[k].orders + feed), asks)
    ensures !made && id in market.value ==> market.value[id].live == {} && feed == []
  {
    made, bids, asks := false, [], [];
    var i := market.FindRawOrders(id);
    if i < |market.books| {
      var raw := market.books[i];
      var orders := raw.orders + feed;
      if orders != [] {
        made := true;
        bids, asks := SortOrderbook(polarity, raw.assetA, raw.assetB, orders);
      }
    }
  }
}

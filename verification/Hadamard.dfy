/**
  Hadamard matrices over a binary field, the source of the diffusion layers of Khazad
  and Anubis.

  A field element acts as a polynomial in the operator "multiply by x".  The laws below
  use only that this operator is additive, so they are stated for any vector space over
  GF(2) with such an operator; GF(2^8) acting on bytes is one instance.
 */
module Hadamard {

  /** Vectors, their addition (exclusive or), and multiplication by x. */
  datatype Space<!V> = Space(add: (V, V) -> V, zero: V, mx: V -> V)

  ghost predicate BinarySpace<V(!new)>(s: Space<V>) {
    && (forall a :: s.add(a, s.zero) == a)
    && (forall a :: s.add(s.zero, a) == a)
    && (forall a :: s.add(a, a) == s.zero)
    && (forall a, b, c, d :: s.add(s.add(a, b), s.add(c, d)) == s.add(s.add(a, c), s.add(b, d)))
    && (forall a, b :: s.mx(s.add(a, b)) == s.add(s.mx(a), s.mx(b)))
  }

  /* ---- Field elements ---- */

  /** Coefficients, lowest power first. */
  datatype Poly = Zero | Term(low: bool, high: Poly)

  /** The product of a field element and a vector. */
  function Times<V>(s: Space<V>, h: Poly, b: V): V {
    match h
    case Zero => s.zero
    case Term(low, high) => s.add(if low then b else s.zero, Times(s, high, s.mx(b)))
  }

  function Plus(h: Poly, k: Poly): Poly {
    match (h, k)
    case (Zero, _) => k
    case (_, Zero) => h
    case (Term(a, h'), Term(b, k')) => Term(a != b, Plus(h', k'))
  }

  lemma {:induction false} TimesAdditive<V(!new)>(s: Space<V>, h: Poly, a: V, b: V)
    requires BinarySpace(s)
    ensures Times(s, h, s.add(a, b)) == s.add(Times(s, h, a), Times(s, h, b))
  {
    if h.Term? {
      TimesAdditive(s, h.high, s.mx(a), s.mx(b));
    }
  }

  lemma {:induction false} TimesPlus<V(!new)>(s: Space<V>, h: Poly, k: Poly, b: V)
    requires BinarySpace(s)
    ensures Times(s, Plus(h, k), b) == s.add(Times(s, h, b), Times(s, k, b))
  {
    if h.Term? && k.Term? {
      TimesPlus(s, h.high, k.high, s.mx(b));
    }
  }

  lemma {:induction false} TimesMx<V(!new)>(s: Space<V>, h: Poly, b: V)
    requires BinarySpace(s)
    ensures Times(s, h, s.mx(b)) == s.mx(Times(s, h, b))
    ensures Times(s, h, s.zero) == s.zero
  {
    assert s.mx(s.add(s.zero, s.zero)) == s.add(s.mx(s.zero), s.mx(s.zero));
    if h.Term? {
      TimesMx(s, h.high, s.mx(b));
      TimesMx(s, h.high, s.zero);
    }
  }

  /** Field elements commute as operators. */
  lemma {:induction false} TimesCommutes<V(!new)>(s: Space<V>, h: Poly, k: Poly, b: V)
    requires BinarySpace(s)
    ensures Times(s, h, Times(s, k, b)) == Times(s, k, Times(s, h, b))
  {
    TimesMx(s, k, b);
    if h.Term? {
      TimesCommutes(s, h.high, k, s.mx(b));
      TimesAdditive(s, k, if h.low then b else s.zero, Times(s, h.high, s.mx(b)));
    }
  }

  /** In characteristic 2 squaring is additive. */
  lemma SquarePlus<V(!new)>(s: Space<V>, h: Poly, k: Poly, b: V)
    requires BinarySpace(s)
    ensures Times(s, Plus(h, k), Times(s, Plus(h, k), b))
         == s.add(Times(s, h, Times(s, h, b)), Times(s, k, Times(s, k, b)))
  {
    var x, y := Times(s, h, b), Times(s, k, b);
    TimesPlus(s, h, k, b);
    TimesPlus(s, h, k, s.add(x, y));
    TimesAdditive(s, h, x, y);
    TimesAdditive(s, k, x, y);
    TimesCommutes(s, h, k, b);
    Shuffle(s, Times(s, h, x), Times(s, h, y), Times(s, k, y), Times(s, k, x));
  }

  /** Four summands rearranged, and equal ones cancelled. */
  lemma Shuffle<V(!new)>(s: Space<V>, a: V, b: V, c: V, d: V)
    requires BinarySpace(s)
    ensures s.add(s.add(a, b), s.add(c, d)) == s.add(s.add(a, d), s.add(c, b)) == s.add(s.add(c, b), s.add(a, d))
    ensures s.add(s.add(a, b), s.add(c, b)) == s.add(a, c) == s.add(s.add(b, c), s.add(b, a))
  {
    assert forall x, y :: s.add(x, y) == s.add(y, x) by {
      forall x, y ensures s.add(x, y) == s.add(y, x) {
        assert s.add(s.add(s.zero, x), s.add(y, s.zero)) == s.add(s.add(s.zero, y), s.add(x, s.zero));
      }
    }
    assert s.add(s.add(a, c), s.add(d, b)) == s.add(s.add(a, d), s.add(c, b));
    assert s.add(s.add(a, c), s.add(b, d)) == s.add(s.add(a, b), s.add(c, d));
    assert s.add(s.add(a, c), s.add(b, b)) == s.add(s.add(a, b), s.add(c, b));
  }

  /** The field element with the four given low coefficients. */
  function Bits(c0: bool, c1: bool, c2: bool, c3: bool): Poly {
    Term(c0, Term(c1, Term(c2, Term(c3, Zero))))
  }

  const ONE := Bits(true, false, false, false)
  const TWO := Bits(false, true, false, false)
  const THREE := Bits(true, true, false, false)
  const FOUR := Bits(false, false, true, false)
  const FIVE := Bits(true, false, true, false)
  const SIX := Bits(false, true, true, false)
  const SEVEN := Bits(true, true, true, false)
  const EIGHT := Bits(false, false, false, true)
  const ELEVEN := Bits(true, true, false, true)

  lemma TimesBits<V(!new)>(s: Space<V>, c0: bool, c1: bool, c2: bool, c3: bool, b: V)
    requires BinarySpace(s)
    ensures var (b2, b4, b8) := (s.mx(b), s.mx(s.mx(b)), s.mx(s.mx(s.mx(b))));
      Times(s, Bits(c0, c1, c2, c3), b)
      == s.add(if c0 then b else s.zero, s.add(if c1 then b2 else s.zero,
           s.add(if c2 then b4 else s.zero, if c3 then b8 else s.zero)))
  {
    var (b2, b4, b8) := (s.mx(b), s.mx(s.mx(b)), s.mx(s.mx(s.mx(b))));
    assert Times(s, Term(c3, Zero), b8) == if c3 then b8 else s.zero;
    assert Times(s, Term(c2, Term(c3, Zero)), b4) == s.add(if c2 then b4 else s.zero, if c3 then b8 else s.zero);
  }

  /** The products by the constants that occur in matrix rows. */
  lemma TimesConstants<V(!new)>(s: Space<V>, b: V)
    requires BinarySpace(s)
    ensures var (b2, b4, b8) := (s.mx(b), s.mx(s.mx(b)), s.mx(s.mx(s.mx(b))));
      && Times(s, ONE, b) == b && Times(s, TWO, b) == b2 && Times(s, THREE, b) == s.add(b, b2)
      && Times(s, FOUR, b) == b4 && Times(s, FIVE, b) == s.add(b, b4) && Times(s, SIX, b) == s.add(b2, b4)
      && Times(s, SEVEN, b) == s.add(b, s.add(b2, b4)) && Times(s, EIGHT, b) == b8
      && Times(s, ELEVEN, b) == s.add(b, s.add(b2, b8))
  {
    TimesBits(s, true, false, false, false, b);
    TimesBits(s, false, true, false, false, b);
    TimesBits(s, true, true, false, false, b);
    TimesBits(s, false, false, true, false, b);
    TimesBits(s, true, false, true, false, b);
    TimesBits(s, false, true, true, false, b);
    TimesBits(s, true, true, true, false, b);
    TimesBits(s, false, false, false, true, b);
    TimesBits(s, true, true, false, true, b);
  }

  /* ---- Polynomial evaluation ---- */

  /** Multiplies `e` times by `h`. */
  function Power<V>(s: Space<V>, h: Poly, e: nat, b: V): V {
    if e == 0 then b else Times(s, h, Power(s, h, e - 1, b))
  }

  /** The sum over i of h^(e + i) * f(c[i]). */
  function PowerSum<V, W>(s: Space<V>, h: Poly, f: W -> V, c: seq<W>, e: nat): V {
    if c == [] then s.zero else s.add(Power(s, h, e, f(c[0])), PowerSum(s, h, f, c[1..], e + 1))
  }

  /** The same polynomial by Horner's rule. */
  function Horner<V, W>(s: Space<V>, h: Poly, f: W -> V, c: seq<W>): V
    requires c != []
  {
    if |c| == 1 then f(c[0]) else s.add(f(c[0]), Times(s, h, Horner(s, h, f, c[1..])))
  }

  lemma {:induction false} TimesPowerSum<V(!new), W>(s: Space<V>, h: Poly, f: W -> V, c: seq<W>, e: nat)
    requires BinarySpace(s)
    ensures Times(s, h, PowerSum(s, h, f, c, e)) == PowerSum(s, h, f, c, e + 1)
  {
    if c == [] {
      TimesMx(s, h, s.zero);
    } else {
      TimesPowerSum(s, h, f, c[1..], e + 1);
      TimesAdditive(s, h, Power(s, h, e, f(c[0])), PowerSum(s, h, f, c[1..], e + 1));
    }
  }

  lemma HornerUnfolds<V, W>(s: Space<V>, h: Poly, f: W -> V, c: seq<W>)
    requires c != []
    ensures PowerSum(s, h, f, c, 0) == s.add(f(c[0]), PowerSum(s, h, f, c[1..], 1))
    ensures Horner(s, h, f, c)
         == if c[1..] == [] then f(c[0]) else s.add(f(c[0]), Times(s, h, Horner(s, h, f, c[1..])))
  {
    assert Power(s, h, 0, f(c[0])) == f(c[0]);
  }

  lemma PowerSumOfNone<V, W>(s: Space<V>, h: Poly, f: W -> V, e: nat)
    ensures PowerSum(s, h, f, [], e) == s.zero
  {
  }

  lemma {:induction false} HornerIsPowerSum<V(!new), W>(s: Space<V>, h: Poly, f: W -> V, c: seq<W>)
    requires BinarySpace(s) && c != []
    ensures Horner(s, h, f, c) == PowerSum(s, h, f, c, 0)
  {
    HornerUnfolds(s, h, f, c);
    if c[1..] == [] {
      PowerSumOfNone(s, h, f, 1);
      assert s.add(f(c[0]), s.zero) == f(c[0]);
    } else {
      HornerIsPowerSum(s, h, f, c[1..]);
      TimesPowerSum(s, h, f, c[1..], 0);
    }
  }

  lemma HornerStep<V, W>(s: Space<V>, h: Poly, f: W -> V, w: W, c: seq<W>)
    ensures Horner(s, h, f, [w]) == f(w)
    ensures c != [] ==> Horner(s, h, f, [w] + c) == s.add(f(w), Times(s, h, Horner(s, h, f, c)))
  {
    assert ([w] + c)[1..] == c;
  }

  /* ---- Matrices ---- */

  /** A row of 2^n entries, halved down to single entries. */
  datatype Row<T> = One(entry: T) | Two(left: Row<T>, right: Row<T>)

  ghost predicate Shape<T>(n: nat, x: Row<T>) {
    if n == 0 then x.One? else x.Two? && Shape(n - 1, x.left) && Shape(n - 1, x.right)
  }

  function AddRows<V>(s: Space<V>, x: Row<V>, y: Row<V>): Row<V> {
    match (x, y)
    case (One(a), One(b)) => One(s.add(a, b))
    case (Two(a, b), Two(c, d)) => Two(AddRows(s, a, c), AddRows(s, b, d))
    case _ => x
  }

  /** Entry i of the result is the sum over j of h[i xor j] * x[j]. */
  function Multiply<V>(s: Space<V>, h: Row<Poly>, x: Row<V>): Row<V> {
    match (h, x)
    case (One(c), One(b)) => One(Times(s, c, b))
    case (Two(u, v), Two(y, z)) =>
      Two(AddRows(s, Multiply(s, u, y), Multiply(s, v, z)), AddRows(s, Multiply(s, v, y), Multiply(s, u, z)))
    case _ => x
  }

  /** One half of a product. */
  function Cross<V>(s: Space<V>, u: Row<Poly>, y: Row<V>, v: Row<Poly>, z: Row<V>): Row<V> {
    AddRows(s, Multiply(s, u, y), Multiply(s, v, z))
  }

  function Scale<V>(s: Space<V>, c: Poly, x: Row<V>): Row<V> {
    match x
    case One(b) => One(Times(s, c, b))
    case Two(y, z) => Two(Scale(s, c, y), Scale(s, c, z))
  }

  /** The sum of all entries of a row. */
  function Total(h: Row<Poly>): Poly {
    match h
    case One(c) => c
    case Two(u, v) => Plus(Total(u), Total(v))
  }

  lemma {:induction false} AddRowsShape<V(!new)>(s: Space<V>, n: nat, x: Row<V>, y: Row<V>)
    requires Shape(n, x) && Shape(n, y)
    ensures Shape(n, AddRows(s, x, y))
  {
    if n > 0 {
      AddRowsShape(s, n - 1, x.left, y.left);
      AddRowsShape(s, n - 1, x.right, y.right);
    }
  }

  lemma {:induction false} MultiplyShape<V(!new)>(s: Space<V>, n: nat, h: Row<Poly>, x: Row<V>)
    requires Shape(n, h) && Shape(n, x)
    ensures Shape(n, Multiply(s, h, x))
    decreases n, 0
  {
    if n > 0 {
      CrossShape(s, n - 1, h.left, x.left, h.right, x.right);
      CrossShape(s, n - 1, h.right, x.left, h.left, x.right);
    }
  }

  lemma {:induction false} CrossShape<V(!new)>(s: Space<V>, n: nat, u: Row<Poly>, y: Row<V>, v: Row<Poly>, z: Row<V>)
    requires Shape(n, u) && Shape(n, y) && Shape(n, v) && Shape(n, z)
    ensures Shape(n, Multiply(s, u, y)) && Shape(n, Multiply(s, v, z)) && Shape(n, Cross(s, u, y, v, z))
    decreases n, 1
  {
    MultiplyShape(s, n, u, y);
    MultiplyShape(s, n, v, z);
    AddRowsShape(s, n, Multiply(s, u, y), Multiply(s, v, z));
  }

  lemma {:induction false} RowMedial<V(!new)>(s: Space<V>, n: nat, a: Row<V>, b: Row<V>, c: Row<V>, d: Row<V>)
    requires BinarySpace(s) && Shape(n, a) && Shape(n, b) && Shape(n, c) && Shape(n, d)
    ensures AddRows(s, AddRows(s, a, b), AddRows(s, c, d)) == AddRows(s, AddRows(s, a, c), AddRows(s, b, d))
  {
    if n > 0 {
      RowMedial(s, n - 1, a.left, b.left, c.left, d.left);
      RowMedial(s, n - 1, a.right, b.right, c.right, d.right);
    }
  }

  lemma {:induction false} RowSwap<V(!new)>(s: Space<V>, n: nat, a: Row<V>, b: Row<V>, c: Row<V>, d: Row<V>)
    requires BinarySpace(s) && Shape(n, a) && Shape(n, b) && Shape(n, c) && Shape(n, d)
    ensures AddRows(s, AddRows(s, a, b), AddRows(s, c, d)) == AddRows(s, AddRows(s, a, d), AddRows(s, c, b))
    ensures AddRows(s, AddRows(s, a, b), AddRows(s, c, d)) == AddRows(s, AddRows(s, c, b), AddRows(s, a, d))
  {
    if n == 0 {
      Shuffle(s, a.entry, b.entry, c.entry, d.entry);
    } else {
      RowSwap(s, n - 1, a.left, b.left, c.left, d.left);
      RowSwap(s, n - 1, a.right, b.right, c.right, d.right);
    }
  }

  lemma {:induction false} RowCancel<V(!new)>(s: Space<V>, n: nat, a: Row<V>, b: Row<V>, c: Row<V>)
    requires BinarySpace(s) && Shape(n, a) && Shape(n, b) && Shape(n, c)
    ensures AddRows(s, AddRows(s, a, b), AddRows(s, c, b)) == AddRows(s, a, c)
  {
    if n == 0 {
      Shuffle(s, a.entry, b.entry, c.entry, c.entry);
    } else {
      RowCancel(s, n - 1, a.left, b.left, c.left);
      RowCancel(s, n - 1, a.right, b.right, c.right);
    }
  }

  lemma {:induction false} RowCancelFront<V(!new)>(s: Space<V>, n: nat, a: Row<V>, b: Row<V>, c: Row<V>)
    requires BinarySpace(s) && Shape(n, a) && Shape(n, b) && Shape(n, c)
    ensures AddRows(s, AddRows(s, b, c), AddRows(s, b, a)) == AddRows(s, a, c)
  {
    if n == 0 {
      Shuffle(s, a.entry, b.entry, c.entry, c.entry);
    } else {
      RowCancelFront(s, n - 1, a.left, b.left, c.left);
      RowCancelFront(s, n - 1, a.right, b.right, c.right);
    }
  }

  lemma {:induction false} MultiplyAdditive<V(!new)>(s: Space<V>, n: nat, h: Row<Poly>, x: Row<V>, y: Row<V>)
    requires BinarySpace(s) && Shape(n, h) && Shape(n, x) && Shape(n, y)
    ensures Multiply(s, h, AddRows(s, x, y)) == AddRows(s, Multiply(s, h, x), Multiply(s, h, y))
    decreases n, 0
  {
    if n == 0 {
      TimesAdditive(s, h.entry, x.entry, y.entry);
    } else {
      CrossAdditive(s, n - 1, h.left, x.left, y.left, h.right, x.right, y.right);
      CrossAdditive(s, n - 1, h.right, x.left, y.left, h.left, x.right, y.right);
    }
  }

  lemma {:induction false} CrossAdditive<V(!new)>(
    s: Space<V>, n: nat, u: Row<Poly>, y: Row<V>, y': Row<V>, v: Row<Poly>, z: Row<V>, z': Row<V>)
    requires BinarySpace(s) && Shape(n, u) && Shape(n, v)
    requires Shape(n, y) && Shape(n, y') && Shape(n, z) && Shape(n, z')
    ensures Cross(s, u, AddRows(s, y, y'), v, AddRows(s, z, z'))
         == AddRows(s, Cross(s, u, y, v, z), Cross(s, u, y', v, z'))
    decreases n, 1
  {
    MultiplyAdditive(s, n, u, y, y');
    MultiplyAdditive(s, n, v, z, z');
    CrossShape(s, n, u, y, v, z);
    CrossShape(s, n, u, y', v, z');
    RowMedial(s, n, Multiply(s, u, y), Multiply(s, u, y'), Multiply(s, v, z), Multiply(s, v, z'));
  }

  /** One half of a product of two halved matrices, multiplied out. */
  lemma CrossCross<V(!new)>(s: Space<V>, n: nat, u: Row<Poly>, v: Row<Poly>, u': Row<Poly>, v': Row<Poly>, y: Row<V>, z: Row<V>)
    requires BinarySpace(s) && Shape(n, u) && Shape(n, v) && Shape(n, u') && Shape(n, v') && Shape(n, y) && Shape(n, z)
    ensures Cross(s, u, Cross(s, u', y, v', z), v, Cross(s, v', y, u', z))
         == AddRows(s, Cross(s, u, Multiply(s, u', y), u, Multiply(s, v', z)),
                       Cross(s, v, Multiply(s, v', y), v, Multiply(s, u', z)))
  {
    CrossShape(s, n, u', y, v', z);
    CrossShape(s, n, v', y, u', z);
    MultiplyAdditive(s, n, u, Multiply(s, u', y), Multiply(s, v', z));
    MultiplyAdditive(s, n, v, Multiply(s, v', y), Multiply(s, u', z));
  }

  lemma {:induction false} MultiplyCommutes<V(!new)>(s: Space<V>, n: nat, h: Row<Poly>, k: Row<Poly>, x: Row<V>)
    requires BinarySpace(s) && Shape(n, h) && Shape(n, k) && Shape(n, x)
    ensures Multiply(s, h, Multiply(s, k, x)) == Multiply(s, k, Multiply(s, h, x))
    decreases n, 0
  {
    if n == 0 {
      TimesCommutes(s, h.entry, k.entry, x.entry);
    } else {
      CrossCommutes(s, n - 1, h.left, h.right, k.left, k.right, x.left, x.right);
    }
  }

  lemma {:induction false} CrossCommutes<V(!new)>(
    s: Space<V>, n: nat, u: Row<Poly>, v: Row<Poly>, u': Row<Poly>, v': Row<Poly>, y: Row<V>, z: Row<V>)
    requires BinarySpace(s) && Shape(n, u) && Shape(n, v) && Shape(n, u') && Shape(n, v') && Shape(n, y) && Shape(n, z)
    ensures Cross(s, u, Cross(s, u', y, v', z), v, Cross(s, v', y, u', z))
         == Cross(s, u', Cross(s, u, y, v, z), v', Cross(s, v, y, u, z))
    ensures Cross(s, v, Cross(s, u', y, v', z), u, Cross(s, v', y, u', z))
         == Cross(s, v', Cross(s, u, y, v, z), u', Cross(s, v, y, u, z))
    decreases n, 1
  {
    CrossCross(s, n, u, v, u', v', y, z);
    CrossCross(s, n, v, u, u', v', y, z);
    CrossCross(s, n, u', v', u, v, y, z);
    CrossCross(s, n, v', u', u, v, y, z);
    forall a, b, w | a in {u, v} && b in {u', v'} && w in {y, z}
      ensures Multiply(s, a, Multiply(s, b, w)) == Multiply(s, b, Multiply(s, a, w))
      ensures Shape(n, Multiply(s, a, Multiply(s, b, w)))
    {
      MultiplyCommutes(s, n, a, b, w);
      MultiplyShape(s, n, b, w);
      MultiplyShape(s, n, a, Multiply(s, b, w));
    }
    RowSwap(s, n, Multiply(s, u, Multiply(s, u', y)), Multiply(s, u, Multiply(s, v', z)),
            Multiply(s, v, Multiply(s, v', y)), Multiply(s, v, Multiply(s, u', z)));
    RowSwap(s, n, Multiply(s, v, Multiply(s, u', y)), Multiply(s, v, Multiply(s, v', z)),
            Multiply(s, u, Multiply(s, v', y)), Multiply(s, u, Multiply(s, u', z)));
  }

  lemma {:induction false} ScaleSquare<V(!new)>(s: Space<V>, n: nat, c: Poly, d: Poly, x: Row<V>)
    requires BinarySpace(s) && Shape(n, x)
    ensures Scale(s, Plus(c, d), Scale(s, Plus(c, d), x))
         == AddRows(s, Scale(s, c, Scale(s, c, x)), Scale(s, d, Scale(s, d, x)))
  {
    if n == 0 {
      SquarePlus(s, c, d, x.entry);
    } else {
      ScaleSquare(s, n - 1, c, d, x.left);
      ScaleSquare(s, n - 1, c, d, x.right);
    }
  }

  /** A Hadamard matrix of any size squares to the square of its row's total, times the identity. */
  lemma {:induction false} Squares<V(!new)>(s: Space<V>, n: nat, h: Row<Poly>, x: Row<V>)
    requires BinarySpace(s) && Shape(n, h) && Shape(n, x)
    ensures Multiply(s, h, Multiply(s, h, x)) == Scale(s, Total(h), Scale(s, Total(h), x))
    decreases n, 0
  {
    if n > 0 {
      CrossSquareLeft(s, n - 1, h.left, h.right, x.left, x.right);
      CrossSquareRight(s, n - 1, h.left, h.right, x.left, x.right);
    }
  }

  lemma {:induction false} CrossSquareLeft<V(!new)>(
    s: Space<V>, n: nat, u: Row<Poly>, v: Row<Poly>, y: Row<V>, z: Row<V>)
    requires BinarySpace(s) && Shape(n, u) && Shape(n, v) && Shape(n, y) && Shape(n, z)
    ensures var t := Plus(Total(u), Total(v));
      Cross(s, u, Cross(s, u, y, v, z), v, Cross(s, v, y, u, z)) == Scale(s, t, Scale(s, t, y))
    decreases n, 1
  {
    CrossCross(s, n, u, v, u, v, y, z);
    Squares(s, n, u, y);
    Squares(s, n, v, y);
    MultiplyCommutes(s, n, u, v, z);
    ScaleSquare(s, n, Total(u), Total(v), y);
    CrossShape(s, n, u, y, v, z);
    CrossShape(s, n, v, y, u, z);
    CrossShape(s, n, u, Multiply(s, u, y), v, Multiply(s, v, y));
    MultiplyShape(s, n, u, Multiply(s, v, z));
    RowCancel(s, n, Multiply(s, u, Multiply(s, u, y)), Multiply(s, u, Multiply(s, v, z)),
              Multiply(s, v, Multiply(s, v, y)));
  }

  lemma {:induction false} CrossSquareRight<V(!new)>(
    s: Space<V>, n: nat, u: Row<Poly>, v: Row<Poly>, y: Row<V>, z: Row<V>)
    requires BinarySpace(s) && Shape(n, u) && Shape(n, v) && Shape(n, y) && Shape(n, z)
    ensures var t := Plus(Total(u), Total(v));
      Cross(s, v, Cross(s, u, y, v, z), u, Cross(s, v, y, u, z)) == Scale(s, t, Scale(s, t, z))
    decreases n, 1
  {
    CrossCross(s, n, v, u, u, v, y, z);
    Squares(s, n, u, z);
    Squares(s, n, v, z);
    MultiplyCommutes(s, n, u, v, y);
    ScaleSquare(s, n, Total(u), Total(v), z);
    CrossShape(s, n, u, z, v, y);
    CrossShape(s, n, v, z, u, y);
    CrossShape(s, n, u, Multiply(s, u, z), v, Multiply(s, v, z));
    MultiplyShape(s, n, u, Multiply(s, v, y));
    RowCancelFront(s, n, Multiply(s, u, Multiply(s, u, z)), Multiply(s, u, Multiply(s, v, y)),
                   Multiply(s, v, Multiply(s, v, z)));
  }

  /* ---- Rows of four and of eight, and products as sums of columns ---- */

  function Row4<T>(a: T, b: T, c: T, d: T): Row<T> {
    Two(Two(One(a), One(b)), Two(One(c), One(d)))
  }

  function Row8<T>(a: T, b: T, c: T, d: T, e: T, f: T, g: T, h: T): Row<T> {
    Two(Row4(a, b, c, d), Row4(e, f, g, h))
  }

  lemma RowsOfFour<T>(r: Row<T>) returns (a: T, b: T, c: T, d: T)
    requires Shape(2, r)
    ensures r == Row4(a, b, c, d)
  {
    assert Shape(1, r.left) && Shape(1, r.right);
    assert Shape(0, r.left.left) && Shape(0, r.left.right) && Shape(0, r.right.left) && Shape(0, r.right.right);
    a, b, c, d := r.left.left.entry, r.left.right.entry, r.right.left.entry, r.right.right.entry;
  }

  lemma RowsOfEight<T>(r: Row<T>) returns (a: T, b: T, c: T, d: T, e: T, f: T, g: T, h: T)
    requires Shape(3, r)
    ensures r == Row8(a, b, c, d, e, f, g, h)
  {
    a, b, c, d := RowsOfFour(r.left);
    e, f, g, h := RowsOfFour(r.right);
  }

  lemma FourAndEight<T>(a: T, b: T, c: T, d: T, e: T, f: T, g: T, h: T)
    ensures Shape(2, Row4(a, b, c, d)) && Shape(3, Row8(a, b, c, d, e, f, g, h))
  {
    assert Shape(0, One(a)) && Shape(0, One(b)) && Shape(0, One(c)) && Shape(0, One(d));
    assert Shape(0, One(e)) && Shape(0, One(f)) && Shape(0, One(g)) && Shape(0, One(h));
    assert Shape(1, Two(One(a), One(b))) && Shape(1, Two(One(c), One(d)));
    assert Shape(1, Two(One(e), One(f))) && Shape(1, Two(One(g), One(h)));
  }

  /** Column of the matrix with row (a, b, c, d), scaled by `x`; column i starts with entry i. */
  function Column4<V>(s: Space<V>, a: Poly, b: Poly, c: Poly, d: Poly, x: V): Row<V> {
    Row4(Times(s, a, x), Times(s, b, x), Times(s, c, x), Times(s, d, x))
  }

  lemma Columns4<V(!new)>(s: Space<V>, a: Poly, b: Poly, c: Poly, d: Poly, w: V, x: V, y: V, z: V)
    ensures Multiply(s, Row4(a, b, c, d), Row4(w, x, y, z))
         == AddRows(s, AddRows(s, Column4(s, a, b, c, d, w), Column4(s, b, a, d, c, x)),
                       AddRows(s, Column4(s, c, d, a, b, y), Column4(s, d, c, b, a, z)))
  {
    assert Multiply(s, Two(One(a), One(b)), Two(One(w), One(x)))
        == Two(One(s.add(Times(s, a, w), Times(s, b, x))), One(s.add(Times(s, b, w), Times(s, a, x))));
    assert Multiply(s, Two(One(c), One(d)), Two(One(y), One(z)))
        == Two(One(s.add(Times(s, c, y), Times(s, d, z))), One(s.add(Times(s, d, y), Times(s, c, z))));
    assert Multiply(s, Two(One(c), One(d)), Two(One(w), One(x)))
        == Two(One(s.add(Times(s, c, w), Times(s, d, x))), One(s.add(Times(s, d, w), Times(s, c, x))));
    assert Multiply(s, Two(One(a), One(b)), Two(One(y), One(z)))
        == Two(One(s.add(Times(s, a, y), Times(s, b, z))), One(s.add(Times(s, b, y), Times(s, a, z))));
    AddRows4(s, Times(s, a, w), Times(s, b, w), Times(s, c, w), Times(s, d, w),
             Times(s, b, x), Times(s, a, x), Times(s, d, x), Times(s, c, x));
    AddRows4(s, Times(s, c, y), Times(s, d, y), Times(s, a, y), Times(s, b, y),
             Times(s, d, z), Times(s, c, z), Times(s, b, z), Times(s, a, z));
  }

  lemma AddRows4<V>(s: Space<V>, a: V, b: V, c: V, d: V, a': V, b': V, c': V, d': V)
    ensures AddRows(s, Row4(a, b, c, d), Row4(a', b', c', d'))
         == Row4(s.add(a, a'), s.add(b, b'), s.add(c, c'), s.add(d, d'))
  {
    assert AddRows(s, Two(One(a), One(b)), Two(One(a'), One(b'))) == Two(One(s.add(a, a')), One(s.add(b, b')));
    assert AddRows(s, Two(One(c), One(d)), Two(One(c'), One(d'))) == Two(One(s.add(c, c')), One(s.add(d, d')));
  }

  function Column8<V>(s: Space<V>, a: Poly, b: Poly, c: Poly, d: Poly, e: Poly, f: Poly, g: Poly, h: Poly, x: V): Row<V> {
    Two(Column4(s, a, b, c, d, x), Column4(s, e, f, g, h, x))
  }

  /** The product with a row of eight is the sum of eight columns, in the order of the entries. */
  lemma Columns8<V(!new)>(
    s: Space<V>, a: Poly, b: Poly, c: Poly, d: Poly, e: Poly, f: Poly, g: Poly, h: Poly,
    x0: V, x1: V, x2: V, x3: V, x4: V, x5: V, x6: V, x7: V)
    ensures Multiply(s, Row8(a, b, c, d, e, f, g, h), Row8(x0, x1, x2, x3, x4, x5, x6, x7))
         == AddRows(s,
              AddRows(s, AddRows(s, Column8(s, a, b, c, d, e, f, g, h, x0), Column8(s, b, a, d, c, f, e, h, g, x1)),
                         AddRows(s, Column8(s, c, d, a, b, g, h, e, f, x2), Column8(s, d, c, b, a, h, g, f, e, x3))),
              AddRows(s, AddRows(s, Column8(s, e, f, g, h, a, b, c, d, x4), Column8(s, f, e, h, g, b, a, d, c, x5)),
                         AddRows(s, Column8(s, g, h, e, f, c, d, a, b, x6), Column8(s, h, g, f, e, d, c, b, a, x7))))
  {
    Columns4(s, a, b, c, d, x0, x1, x2, x3);
    Columns4(s, e, f, g, h, x4, x5, x6, x7);
    Columns4(s, e, f, g, h, x0, x1, x2, x3);
    Columns4(s, a, b, c, d, x4, x5, x6, x7);
  }
}

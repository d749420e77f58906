/**
  Layers of a block cipher acting on words.  A word codes a row of 2^n bytes; the linear
  layer multiplies the row by a Hadamard matrix, the non-linear layer applies an S-box to
  every byte.  Both are involutions when the S-box is one and the matrix row has total 1.
 */
module Diffusion {
  import opened Hadamard
  import opened InvolutionalCipher
  import opened Words

  /** How words represent rows, and the exclusive or of words. */
  datatype Coding<!V, !W> = Coding(pack: Row<V> -> W, unpack: W -> Row<V>, xor: (W, W) -> W)

  ghost predicate Faithful<V(!new), W(!new)>(s: Space<V>, n: nat, c: Coding<V, W>) {
    && (forall w :: Shape(n, c.unpack(w)) && c.pack(c.unpack(w)) == w)
    && (forall r | Shape(n, r) :: c.unpack(c.pack(r)) == r)
    && (forall r, q | Shape(n, r) && Shape(n, q) :: c.pack(AddRows(s, r, q)) == c.xor(c.pack(r), c.pack(q)))
  }

  function MapRow<V>(f: V -> V, r: Row<V>): Row<V> {
    match r
    case One(b) => One(f(b))
    case Two(y, z) => Two(MapRow(f, y), MapRow(f, z))
  }

  /** The S-box on every byte of a word. */
  function Gamma<V, W>(c: Coding<V, W>, sbox: V -> V): W -> W {
    w => c.pack(MapRow(sbox, c.unpack(w)))
  }

  /** The Hadamard matrix with row `h` applied to the bytes of a word. */
  function Theta<V, W>(s: Space<V>, c: Coding<V, W>, h: Row<Poly>): W -> W {
    w => c.pack(Multiply(s, h, c.unpack(w)))
  }

  lemma {:induction false} MapRowShape<V>(n: nat, f: V -> V, r: Row<V>)
    requires Shape(n, r)
    ensures Shape(n, MapRow(f, r))
  {
    if n > 0 {
      MapRowShape(n - 1, f, r.left);
      MapRowShape(n - 1, f, r.right);
    }
  }

  lemma {:induction false} MapRowTwice<V(!new)>(f: V -> V, r: Row<V>)
    requires Involution(f)
    ensures MapRow(f, MapRow(f, r)) == r
  {
    if r.Two? {
      MapRowTwice(f, r.left);
      MapRowTwice(f, r.right);
    }
  }

  lemma MapRow8<V>(f: V -> V, a: V, b: V, c: V, d: V, e: V, f': V, g: V, h: V)
    ensures MapRow(f, Row8(a, b, c, d, e, f', g, h)) == Row8(f(a), f(b), f(c), f(d), f(e), f(f'), f(g), f(h))
  {
    MapRow4(f, a, b, c, d);
    MapRow4(f, e, f', g, h);
  }

  lemma MapRow4<V>(f: V -> V, a: V, b: V, c: V, d: V)
    ensures MapRow(f, Row4(a, b, c, d)) == Row4(f(a), f(b), f(c), f(d))
  {
    assert MapRow(f, Two(One(a), One(b))) == Two(One(f(a)), One(f(b)));
    assert MapRow(f, Two(One(c), One(d))) == Two(One(f(c)), One(f(d)));
  }

  lemma GammaInvolution<V(!new), W(!new)>(s: Space<V>, n: nat, c: Coding<V, W>, sbox: V -> V)
    requires Faithful(s, n, c) && Involution(sbox)
    ensures Involution(Gamma(c, sbox))
  {
    forall w
      ensures Gamma(c, sbox)(Gamma(c, sbox)(w)) == w
    {
      MapRowShape(n, sbox, c.unpack(w));
      MapRowTwice(sbox, c.unpack(w));
    }
  }

  /** The row total acts as 1. */
  ghost predicate UnitTotal<V(!new)>(s: Space<V>, h: Row<Poly>) {
    forall b :: Times(s, Total(h), b) == b
  }

  lemma {:induction false} ScaleByUnit<V(!new)>(s: Space<V>, t: Poly, x: Row<V>)
    requires forall b :: Times(s, t, b) == b
    ensures Scale(s, t, x) == x
  {
    if x.Two? {
      ScaleByUnit(s, t, x.left);
      ScaleByUnit(s, t, x.right);
    }
  }

  lemma ThetaInvolution<V(!new), W(!new)>(s: Space<V>, n: nat, c: Coding<V, W>, h: Row<Poly>)
    requires BinarySpace(s) && Faithful(s, n, c) && Shape(n, h) && UnitTotal(s, h)
    ensures Involution(Theta(s, c, h))
  {
    forall w
      ensures Theta(s, c, h)(Theta(s, c, h)(w)) == w
    {
      var x := c.unpack(w);
      MultiplyShape(s, n, h, x);
      Squares(s, n, h, x);
      ScaleByUnit(s, Total(h), x);
    }
  }

  lemma ThetaLinear<V(!new), W(!new)>(s: Space<V>, n: nat, c: Coding<V, W>, h: Row<Poly>)
    requires BinarySpace(s) && Faithful(s, n, c) && Shape(n, h)
    ensures Linear(Theta(s, c, h), c.xor)
  {
    forall v, w
      ensures Theta(s, c, h)(c.xor(v, w)) == c.xor(Theta(s, c, h)(v), Theta(s, c, h)(w))
    {
      var (x, y) := (c.unpack(v), c.unpack(w));
      AddRowsShape(s, n, x, y);
      assert c.unpack(c.xor(v, w)) == AddRows(s, x, y);
      MultiplyShape(s, n, h, x);
      MultiplyShape(s, n, h, y);
      MultiplyAdditive(s, n, h, x, y);
    }
  }

  /* ---- Tables that fuse the S-box with a column of the matrix ---- */

  function Tree<W>(xor: (W, W) -> W, w: W, x: W, y: W, z: W): W {
    xor(xor(w, x), xor(y, z))
  }

  /** Four tables, looked up and summed, apply S-box and matrix to a row of four. */
  lemma FourTables<V(!new), W(!new)>(
    s: Space<V>, c: Coding<V, W>, a: Poly, b: Poly, d: Poly, e: Poly, w: V, x: V, y: V, z: V)
    requires Faithful(s, 2, c)
    ensures c.pack(Multiply(s, Row4(a, b, d, e), Row4(w, x, y, z)))
         == Tree(c.xor, c.pack(Column4(s, a, b, d, e, w)), c.pack(Column4(s, b, a, e, d, x)),
                        c.pack(Column4(s, d, e, a, b, y)), c.pack(Column4(s, e, d, b, a, z)))
  {
    Columns4(s, a, b, d, e, w, x, y, z);
    PackSum4(s, 2, c, Column4(s, a, b, d, e, w), Column4(s, b, a, e, d, x),
             Column4(s, d, e, a, b, y), Column4(s, e, d, b, a, z));
  }

  lemma PackSum4<V(!new), W(!new)>(s: Space<V>, n: nat, c: Coding<V, W>, p: Row<V>, q: Row<V>, r: Row<V>, t: Row<V>)
    requires Faithful(s, n, c) && Shape(n, p) && Shape(n, q) && Shape(n, r) && Shape(n, t)
    ensures Shape(n, AddRows(s, AddRows(s, p, q), AddRows(s, r, t)))
    ensures c.pack(AddRows(s, AddRows(s, p, q), AddRows(s, r, t))) == Tree(c.xor, c.pack(p), c.pack(q), c.pack(r), c.pack(t))
  {
    AddRowsShape(s, n, p, q);
    AddRowsShape(s, n, r, t);
    AddRowsShape(s, n, AddRows(s, p, q), AddRows(s, r, t));
  }

  lemma EightTables<V(!new), W(!new)>(
    s: Space<V>, k: Coding<V, W>, a: Poly, b: Poly, c: Poly, d: Poly, e: Poly, f: Poly, g: Poly, h: Poly,
    x0: V, x1: V, x2: V, x3: V, x4: V, x5: V, x6: V, x7: V)
    requires Faithful(s, 3, k)
    ensures k.pack(Multiply(s, Row8(a, b, c, d, e, f, g, h), Row8(x0, x1, x2, x3, x4, x5, x6, x7)))
         == k.xor(
              Tree(k.xor, k.pack(Column8(s, a, b, c, d, e, f, g, h, x0)), k.pack(Column8(s, b, a, d, c, f, e, h, g, x1)),
                          k.pack(Column8(s, c, d, a, b, g, h, e, f, x2)), k.pack(Column8(s, d, c, b, a, h, g, f, e, x3))),
              Tree(k.xor, k.pack(Column8(s, e, f, g, h, a, b, c, d, x4)), k.pack(Column8(s, f, e, h, g, b, a, d, c, x5)),
                          k.pack(Column8(s, g, h, e, f, c, d, a, b, x6)), k.pack(Column8(s, h, g, f, e, d, c, b, a, x7))))
  {
    Columns8(s, a, b, c, d, e, f, g, h, x0, x1, x2, x3, x4, x5, x6, x7);
    Column8Shape(s, a, b, c, d, e, f, g, h, x0);
    Column8Shape(s, b, a, d, c, f, e, h, g, x1);
    Column8Shape(s, c, d, a, b, g, h, e, f, x2);
    Column8Shape(s, d, c, b, a, h, g, f, e, x3);
    Column8Shape(s, e, f, g, h, a, b, c, d, x4);
    Column8Shape(s, f, e, h, g, b, a, d, c, x5);
    Column8Shape(s, g, h, e, f, c, d, a, b, x6);
    Column8Shape(s, h, g, f, e, d, c, b, a, x7);
    PackSum8(s, 3, k, Column8(s, a, b, c, d, e, f, g, h, x0), Column8(s, b, a, d, c, f, e, h, g, x1),
             Column8(s, c, d, a, b, g, h, e, f, x2), Column8(s, d, c, b, a, h, g, f, e, x3),
             Column8(s, e, f, g, h, a, b, c, d, x4), Column8(s, f, e, h, g, b, a, d, c, x5),
             Column8(s, g, h, e, f, c, d, a, b, x6), Column8(s, h, g, f, e, d, c, b, a, x7));
  }

  lemma Column8Shape<V(!new)>(
    s: Space<V>, a: Poly, b: Poly, c: Poly, d: Poly, e: Poly, f: Poly, g: Poly, h: Poly, x: V)
    ensures Shape(3, Column8(s, a, b, c, d, e, f, g, h, x))
  {
    FourAndEight(Times(s, a, x), Times(s, b, x), Times(s, c, x), Times(s, d, x),
                 Times(s, e, x), Times(s, f, x), Times(s, g, x), Times(s, h, x));
  }

  lemma PackSum8<V(!new), W(!new)>(
    s: Space<V>, n: nat, k: Coding<V, W>,
    a: Row<V>, b: Row<V>, c: Row<V>, d: Row<V>, e: Row<V>, f: Row<V>, g: Row<V>, h: Row<V>)
    requires Faithful(s, n, k) && Shape(n, a) && Shape(n, b) && Shape(n, c) && Shape(n, d)
    requires Shape(n, e) && Shape(n, f) && Shape(n, g) && Shape(n, h)
    ensures k.pack(AddRows(s, AddRows(s, AddRows(s, a, b), AddRows(s, c, d)), AddRows(s, AddRows(s, e, f), AddRows(s, g, h))))
         == k.xor(Tree(k.xor, k.pack(a), k.pack(b), k.pack(c), k.pack(d)),
                  Tree(k.xor, k.pack(e), k.pack(f), k.pack(g), k.pack(h)))
  {
    PackSum4(s, n, k, a, b, c, d);
    PackSum4(s, n, k, e, f, g, h);
  }

  /* ---- Four words at a time ---- */

  function Each<W>(f: W -> W): Quad<W> -> Quad<W> {
    (q: Quad<W>) => Quad(f(q.a), f(q.b), f(q.c), f(q.d))
  }

  function Pairwise<W>(g: (W, W) -> W): (Quad<W>, Quad<W>) -> Quad<W> {
    (p: Quad<W>, q: Quad<W>) => Quad(g(p.a, q.a), g(p.b, q.b), g(p.c, q.c), g(p.d, q.d))
  }

  lemma EachIs<W>(f: W -> W, g: (W, W) -> W, p: Quad<W>, q: Quad<W>)
    ensures Each(f)(q) == Quad(f(q.a), f(q.b), f(q.c), f(q.d))
    ensures Pairwise(g)(p, q) == Quad(g(p.a, q.a), g(p.b, q.b), g(p.c, q.c), g(p.d, q.d))
  {
  }

  lemma EachLaws<W(!new)>(f: W -> W, g: (W, W) -> W)
    requires Involution(f) && Linear(f, g) && Cancels(g)
    ensures Involution(Each(f)) && Linear(Each(f), Pairwise(g)) && Cancels(Pairwise(g))
  {
    forall q: Quad<W> ensures Each(f)(Each(f)(q)) == q {
      EachIs(f, g, q, q);
      EachIs(f, g, q, Each(f)(q));
    }
    forall p: Quad<W>, q: Quad<W> ensures Each(f)(Pairwise(g)(p, q)) == Pairwise(g)(Each(f)(p), Each(f)(q)) {
      EachIs(f, g, p, q);
      EachIs(f, g, q, p);
      EachIs(f, g, q, Pairwise(g)(p, q));
      EachIs(f, g, Each(f)(p), Each(f)(q));
    }
    forall p: Quad<W>, q: Quad<W> ensures Pairwise(g)(Pairwise(g)(p, q), q) == p {
      EachIs(f, g, p, q);
      EachIs(f, g, Pairwise(g)(p, q), q);
    }
  }

  /** The S-box on sixteen bytes and the transposition of the 4 x 4 square they form. */
  function SubstituteTranspose<V, W>(
    word: (V, V, V, V) -> W, b0: W -> V, b1: W -> V, b2: W -> V, b3: W -> V, f: V -> V): Quad<W> -> Quad<W>
  {
    (q: Quad<W>) =>
      Quad(word(f(b0(q.a)), f(b0(q.b)), f(b0(q.c)), f(b0(q.d))),
           word(f(b1(q.a)), f(b1(q.b)), f(b1(q.c)), f(b1(q.d))),
           word(f(b2(q.a)), f(b2(q.b)), f(b2(q.c)), f(b2(q.d))),
           word(f(b3(q.a)), f(b3(q.b)), f(b3(q.c)), f(b3(q.d))))
  }

  lemma SubstituteTransposeIs<V, W>(
    word: (V, V, V, V) -> W, b0: W -> V, b1: W -> V, b2: W -> V, b3: W -> V, f: V -> V, q: Quad<W>)
    ensures SubstituteTranspose(word, b0, b1, b2, b3, f)(q)
         == Quad(word(f(b0(q.a)), f(b0(q.b)), f(b0(q.c)), f(b0(q.d))),
                 word(f(b1(q.a)), f(b1(q.b)), f(b1(q.c)), f(b1(q.d))),
                 word(f(b2(q.a)), f(b2(q.b)), f(b2(q.c)), f(b2(q.d))),
                 word(f(b3(q.a)), f(b3(q.b)), f(b3(q.c)), f(b3(q.d))))
  {
  }

  /** Transposing twice and substituting twice restore the square. */
  lemma SubstituteTransposeInvolution<V(!new), W(!new)>(
    word: (V, V, V, V) -> W, b0: W -> V, b1: W -> V, b2: W -> V, b3: W -> V, f: V -> V)
    requires Involution(f)
    requires forall w :: word(b0(w), b1(w), b2(w), b3(w)) == w
    requires forall a, b, c, d :: b0(word(a, b, c, d)) == a && b1(word(a, b, c, d)) == b &&
                                  b2(word(a, b, c, d)) == c && b3(word(a, b, c, d)) == d
    ensures Involution(SubstituteTranspose(word, b0, b1, b2, b3, f))
  {
    forall q: Quad<W>
      ensures SubstituteTranspose(word, b0, b1, b2, b3, f)(SubstituteTranspose(word, b0, b1, b2, b3, f)(q)) == q
    {
      var r := SubstituteTranspose(word, b0, b1, b2, b3, f)(q);
      SubstituteTransposeIs(word, b0, b1, b2, b3, f, q);
      SubstituteTransposeIs(word, b0, b1, b2, b3, f, r);
      assert word(f(b0(r.a)), f(b0(r.b)), f(b0(r.c)), f(b0(r.d))) == q.a;
      assert word(f(b1(r.a)), f(b1(r.b)), f(b1(r.c)), f(b1(r.d))) == q.b;
      assert word(f(b2(r.a)), f(b2(r.b)), f(b2(r.c)), f(b2(r.d))) == q.c;
      assert word(f(b3(r.a)), f(b3(r.b)), f(b3(r.c)), f(b3(r.d))) == q.d;
    }
  }
}

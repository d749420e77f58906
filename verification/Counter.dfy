/**
  Counter fields of a counter-mode block (`NXTservices/ciphers.h:307-327`, `:365-386`;
  NIST SP 800-38A, Appendix B.1): the carry loops in both byte orders.
 */
module Counter {
  import opened Division
  import opened Words

  function Value(b: Byte): nat {
    b as nat
  }

  function Incremented(b: Byte): Byte {
    b + 1
  }

  lemma ByteIncrement(b: Byte)
    ensures Value(Incremented(b)) == if Incremented(b) == 0 then 0 else Value(b) + 1
    ensures Incremented(b) == 0 <==> Value(b) == 255
    ensures Value(b) < 256
  {
  }

  lemma ValueInjective(b: Byte, c: Byte)
    requires Value(b) == Value(c)
    ensures b == c
  {
  }

  function Pow256(n: nat): (p: nat)
    ensures p > 0
  {
    if n == 0 then 1 else 256 * Pow256(n - 1)
  }

  /** The number that bytes denote, the least significant byte first. */
  function LittleValue(s: seq<Byte>): nat {
    if s == [] then 0 else Value(s[0]) + 256 * LittleValue(s[1..])
  }

  /** And the least significant byte last. */
  function BigValue(s: seq<Byte>): nat {
    if s == [] then 0 else 256 * BigValue(s[..|s| - 1]) + Value(s[|s| - 1])
  }

  /** The carry loop: bytes are incremented until one does not wrap. */
  function NextLittle(s: seq<Byte>): (t: seq<Byte>)
    ensures |t| == |s|
  {
    if s == [] then []
    else if Incremented(s[0]) == 0 then [0] + NextLittle(s[1..])
    else [Incremented(s[0])] + s[1..]
  }

  function NextBig(s: seq<Byte>): (t: seq<Byte>)
    ensures |t| == |s|
  {
    if s == [] then []
    else
      var last := |s| - 1;
      if Incremented(s[last]) == 0 then NextBig(s[..last]) + [0] else s[..last] + [Incremented(s[last])]
  }

  lemma {:induction false} LittleBound(s: seq<Byte>)
    ensures LittleValue(s) < Pow256(|s|)
  {
    if s != [] {
      LittleBound(s[1..]);
      ByteIncrement(s[0]);
    }
  }

  lemma {:induction false} BigBound(s: seq<Byte>)
    ensures BigValue(s) < Pow256(|s|)
  {
    if s != [] {
      BigBound(s[..|s| - 1]);
      ByteIncrement(s[|s| - 1]);
    }
  }

  /** x + 1 modulo n, for x below n. */
  function Successor(x: nat, n: nat): nat {
    if x + 1 == n then 0 else x + 1
  }

  /** The carry loop adds exactly 1 modulo 256^n. */
  lemma {:induction false} NextLittleAddsOne(s: seq<Byte>)
    ensures LittleValue(NextLittle(s)) == Successor(LittleValue(s), Pow256(|s|))
  {
    if s != [] {
      var t := NextLittle(s);
      ByteIncrement(s[0]);
      LittleBound(s[1..]);
      if Incremented(s[0]) == 0 {
        NextLittleAddsOne(s[1..]);
        ByteIncrement(0);
        assert t[1..] == NextLittle(s[1..]);
      } else {
        assert t[1..] == s[1..];
      }
    }
  }

  lemma {:induction false} NextBigAddsOne(s: seq<Byte>)
    ensures BigValue(NextBig(s)) == Successor(BigValue(s), Pow256(|s|))
  {
    if s != [] {
      var t, last := NextBig(s), |s| - 1;
      ByteIncrement(s[last]);
      BigBound(s[..last]);
      if Incremented(s[last]) == 0 {
        NextBigAddsOne(s[..last]);
        ByteIncrement(0);
        assert t[..last] == NextBig(s[..last]);
      } else {
        assert t[..last] == s[..last];
      }
    }
  }

  lemma Digits(x: nat, a: nat, y: nat, b: nat)
    requires 256 * x + a == 256 * y + b && a < 256 && b < 256
    ensures x == y && a == b
  {
  }

  /** The bytes of a field of given width are determined by its value. */
  lemma {:induction false} LittleInjective(s: seq<Byte>, t: seq<Byte>)
    requires |s| == |t| && LittleValue(s) == LittleValue(t)
    ensures s == t
  {
    if s != [] {
      ByteIncrement(s[0]);
      ByteIncrement(t[0]);
      Digits(LittleValue(s[1..]), Value(s[0]), LittleValue(t[1..]), Value(t[0]));
      ValueInjective(s[0], t[0]);
      LittleInjective(s[1..], t[1..]);
      FirstAndRest(s);
      FirstAndRest(t);
    }
  }

  lemma {:induction false} BigInjective(s: seq<Byte>, t: seq<Byte>)
    requires |s| == |t| && BigValue(s) == BigValue(t)
    ensures s == t
  {
    if s != [] {
      var last := |s| - 1;
      ByteIncrement(s[last]);
      ByteIncrement(t[last]);
      Digits(BigValue(s[..last]), Value(s[last]), BigValue(t[..last]), Value(t[last]));
      ValueInjective(s[last], t[last]);
      BigInjective(s[..last], t[..last]);
      FirstAndRest(s);
      FirstAndRest(t);
    }
  }

  lemma FirstAndRest<T>(s: seq<T>)
    requires s != []
    ensures s == [s[0]] + s[1..] == s[..|s| - 1] + [s[|s| - 1]]
  {
  }

  /* ---- Counter blocks ---- */

  /**
    Where the counter field stands in a block.  In little-endian mode it is the first `mark`
    bytes, in big-endian mode the bytes from `mark` on.
   */
  datatype Layout = Layout(big: bool, mark: nat)

  function Field(l: Layout, c: seq<Byte>): seq<Byte>
    requires l.mark <= |c|
  {
    if l.big then c[l.mark..] else c[..l.mark]
  }

  /** The other bytes of the block. */
  function Rest(l: Layout, c: seq<Byte>): seq<Byte>
    requires l.mark <= |c|
  {
    if l.big then c[..l.mark] else c[l.mark..]
  }

  function FieldValue(l: Layout, c: seq<Byte>): nat
    requires l.mark <= |c|
  {
    if l.big then BigValue(Field(l, c)) else LittleValue(Field(l, c))
  }

  function Next(l: Layout, c: seq<Byte>): (c': seq<Byte>)
    requires l.mark <= |c|
    ensures |c'| == |c|
  {
    if l.big then c[..l.mark] + NextBig(c[l.mark..]) else NextLittle(c[..l.mark]) + c[l.mark..]
  }

  function Advance(l: Layout, c: seq<Byte>, j: nat): (c': seq<Byte>)
    requires l.mark <= |c|
    ensures |c'| == |c|
  {
    if j == 0 then c else Next(l, Advance(l, c, j - 1))
  }

  lemma NextAddsOne(l: Layout, c: seq<Byte>)
    requires l.mark <= |c|
    ensures FieldValue(l, Next(l, c)) == Successor(FieldValue(l, c), Pow256(|Field(l, c)|))
    ensures Rest(l, Next(l, c)) == Rest(l, c)
    ensures FieldValue(l, c) < Pow256(|Field(l, c)|)
  {
    if l.big {
      NextBigAddsOne(c[l.mark..]);
      BigBound(c[l.mark..]);
      assert Field(l, Next(l, c)) == NextBig(c[l.mark..]);
    } else {
      NextLittleAddsOne(c[..l.mark]);
      LittleBound(c[..l.mark]);
      assert Field(l, Next(l, c)) == NextLittle(c[..l.mark]);
    }
  }

  lemma SuccessorAdds(x: nat, j: nat, n: nat, v: nat)
    requires n > 0 && v == (x + j) % n
    ensures Successor(v, n) == (x + (j + 1)) % n
  {
    NextMod(x + j, n);
    assert x + j + 1 == x + (j + 1);
  }

  /** Advancing j times adds j to the counter field, modulo 256^width, and leaves all other bytes alone. */
  lemma {:induction false} AdvanceAdds(l: Layout, c: seq<Byte>, j: nat)
    requires l.mark <= |c|
    ensures FieldValue(l, Advance(l, c, j)) == (FieldValue(l, c) + j) % Pow256(|Field(l, c)|)
    ensures Rest(l, Advance(l, c, j)) == Rest(l, c)
  {
    var n := Pow256(|Field(l, c)|);
    NextAddsOne(l, c);
    if j == 0 {
      SmallMod(FieldValue(l, c), n);
    } else {
      AdvanceAdds(l, c, j - 1);
      NextAddsOne(l, Advance(l, c, j - 1));
      SuccessorAdds(FieldValue(l, c), j - 1, n, FieldValue(l, Advance(l, c, j - 1)));
    }
  }

  lemma SmallMod(x: nat, n: nat)
    requires x < n
    ensures x % n == x
  {
  }

  /** These two facts leave only one possible block. */
  lemma BlockDetermined(l: Layout, c: seq<Byte>, d: seq<Byte>)
    requires l.mark <= |c| == |d| && FieldValue(l, c) == FieldValue(l, d) && Rest(l, c) == Rest(l, d)
    ensures c == d
  {
    if l.big {
      BigInjective(c[l.mark..], d[l.mark..]);
    } else {
      LittleInjective(c[..l.mark], d[..l.mark]);
    }
    assert c == c[..l.mark] + c[l.mark..] && d == d[..l.mark] + d[l.mark..];
  }

  /** Counter blocks do not repeat before all 256^width of them have been used, and then repeat in the same order. */
  lemma RepeatsExactly(l: Layout, c: seq<Byte>, i: nat, d: nat)
    requires l.mark <= |c|
    ensures Advance(l, c, i) == Advance(l, c, i + d) <==> d % Pow256(|Field(l, c)|) == 0
  {
    AdvanceAdds(l, c, i);
    AdvanceAdds(l, c, i + d);
    SameResidue(FieldValue(l, c) + i, d, Pow256(|Field(l, c)|));
    if d % Pow256(|Field(l, c)|) == 0 {
      BlockDetermined(l, Advance(l, c, i), Advance(l, c, i + d));
    }
  }

  /* ---- The carry loops ---- */

  /** The first k bytes wrap, the next one does not, the others stay. */
  ghost predicate CarriedUp(s: seq<Byte>, k: nat, t: seq<Byte>) {
    && k <= |s| == |t|
    && (forall i | 0 <= i < k :: Incremented(s[i]) == 0 && t[i] == 0)
    && (k < |s| ==> t[k] == Incremented(s[k]) != 0)
    && (forall i | k < i < |s| :: t[i] == s[i])
  }

  lemma {:induction false} CarriedUpIsNext(s: seq<Byte>, k: nat, t: seq<Byte>)
    requires CarriedUp(s, k, t)
    ensures t == NextLittle(s)
  {
    if s != [] {
      if k > 0 {
        CarriedUpIsNext(s[1..], k - 1, t[1..]);
      }
      FirstAndRest(t);
    }
  }

  /** The same from the other end. */
  ghost predicate CarriedDown(s: seq<Byte>, k: nat, t: seq<Byte>) {
    && k <= |s| == |t|
    && (forall i | |s| - k <= i < |s| :: Incremented(s[i]) == 0 && t[i] == 0)
    && (k < |s| ==> t[|s| - 1 - k] == Incremented(s[|s| - 1 - k]) != 0)
    && (forall i | 0 <= i < |s| - 1 - k :: t[i] == s[i])
  }

  lemma {:induction false} CarriedDownIsNext(s: seq<Byte>, k: nat, t: seq<Byte>)
    requires CarriedDown(s, k, t)
    ensures t == NextBig(s)
  {
    if s != [] {
      if k > 0 {
        CarriedDownIsNext(s[..|s| - 1], k - 1, t[..|s| - 1]);
      }
      FirstAndRest(t);
    }
  }

  method IncrementLittle(a: array<Byte>, n: nat)
    requires n <= a.Length
    modifies a
    ensures a[..n] == NextLittle(old(a[..n])) && a[n..] == old(a[n..])
  {
    var x := 0;
    while x < n
      invariant x <= n
      invariant forall i | 0 <= i < x :: Incremented(old(a[i])) == 0 && a[i] == 0
      invariant forall i | x <= i < a.Length :: a[i] == old(a[i])
    {
      a[x] := Incremented(a[x]);
      if a[x] != 0 {
        break;
      }
      x := x + 1;
    }
    CarriedUpIsNext(old(a[..n]), x, a[..n]);
  }

  method IncrementBig(a: array<Byte>, mark: nat, blocklen: nat)
    requires mark <= blocklen <= a.Length
    modifies a
    ensures a[mark..blocklen] == NextBig(old(a[mark..blocklen]))
    ensures a[..mark] == old(a[..mark]) && a[blocklen..] == old(a[blocklen..])
  {
    var x := blocklen - 1;
    while x >= mark
      invariant mark - 1 <= x < blocklen
      invariant forall i | x < i < blocklen :: Incremented(old(a[i])) == 0 && a[i] == 0
      invariant forall i | 0 <= i <= x :: a[i] == old(a[i])
      invariant a[..mark] == old(a[..mark]) && a[blocklen..] == old(a[blocklen..])
    {
      a[x] := Incremented(a[x]);
      if a[x] != 0 {
        break;
      }
      x := x - 1;
    }
    CarriedDownIsNext(old(a[mark..blocklen]), blocklen - 1 - x, a[mark..blocklen]);
  }
}

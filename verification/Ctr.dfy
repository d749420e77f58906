/**
  Counter mode over any block cipher (`NXTservices/ciphers.h:266-419`; NIST SP 800-38A,
  section 6.5).  The keystream is kept in a pad that is refilled only when a byte is
  needed, so the state after n bytes has two shapes when n is a multiple of the block.
 */
module Ctr {
  import opened Counter
  import opened Division
  import opened Gf256
  import opened Words
  import opened WideWords

  const MAXBLOCKSIZE := 128

  /** The size of a word in the fast path, in bytes. */
  const FAST := 8

  lemma XorTwice(a: Byte, b: Byte)
    ensures Xor(Xor(a, b), b) == a
  {
  }

  /* ---- The closed form ---- */

  type Cipher = seq<Byte> -> seq<Byte>

  ghost predicate KeepsLength(e: Cipher, n: nat) {
    forall p | |p| == n :: |e(p)| == n
  }

  /** Byte k of the keystream that starts at counter block `c`. */
  ghost function Stream(e: Cipher, l: Layout, c: seq<Byte>, k: nat): Byte
    requires c != [] && l.mark <= |c| && KeepsLength(e, |c|)
  {
    e(Advance(l, c, k / |c|))[k % |c|]
  }

  /** The number of times the counter has been incremented after n bytes. */
  function Refills(n: nat, blocklen: nat): nat
    requires blocklen > 0
  {
    if n == 0 then 0 else (n - 1) / blocklen
  }

  /** The context n bytes after counter block `c`. */
  ghost predicate At(e: Cipher, l: Layout, c: seq<Byte>, n: nat, ctr: seq<Byte>, pad: seq<Byte>, padlen: nat) {
    && c != [] && l.mark <= |c|
    && ctr == Advance(l, c, Refills(n, |c|))
    && padlen == n - Refills(n, |c|) * |c|
    && pad == e(ctr)
  }

  /** The context when the pad holds the byte needed next. */
  ghost predicate Ready(e: Cipher, l: Layout, c: seq<Byte>, n: nat, ctr: seq<Byte>, pad: seq<Byte>, padlen: nat) {
    && c != [] && l.mark <= |c|
    && ctr == Advance(l, c, n / |c|)
    && padlen == n % |c|
    && pad == e(ctr)
  }

  lemma PadLength(n: nat, b: nat)
    requires b > 0
    ensures Refills(n, b) * b <= n <= Refills(n, b) * b + b
    ensures n - Refills(n, b) * b < b ==> n / b == Refills(n, b) && n % b == n - Refills(n, b) * b
    ensures n - Refills(n, b) * b == b ==> n / b == Refills(n, b) + 1 && n % b == 0
  {
    var q := Refills(n, b);
    if n > 0 {
      assert n - 1 == q * b + (n - 1) % b;
    }
    var r := n - q * b;
    if r < b {
      ModOf(q, b, r);
    } else {
      assert n == (q + 1) * b;
      ModOf(q + 1, b, 0);
    }
  }

  lemma NoRefill(n: nat, b: nat)
    requires n <= b && b > 0
    ensures Refills(n, b) == 0
  {
    if n > 0 {
      ModOf(0, b, n - 1);
    }
  }

  lemma MoreBytes(n: nat, b: nat, m: nat)
    requires b > 0 && m > 0 && n % b + m <= b
    ensures Refills(n + m, b) == n / b && n + m - Refills(n + m, b) * b == n % b + m
  {
    var q := n / b;
    assert n + m - 1 == q * b + (n % b + m - 1);
    ModOf(q, b, n % b + m - 1);
  }

  lemma SameBlock(n: nat, b: nat, x: nat)
    requires b > 0 && n % b + x < b
    ensures (n + x) / b == n / b && (n + x) % b == n % b + x
  {
    var q := n / b;
    assert n + x == q * b + (n % b + x);
    ModOf(q, b, n % b + x);
  }

  lemma CountedFrom(n: nat, b: nat, k: nat)
    requires b > 0
    ensures var p := n - Refills(n, b) * b;
      p >= 0 && (n + k) / b == Refills(n, b) + (p + k) / b && (n + k) % b == (p + k) % b
  {
    PadLength(n, b);
    var p := n - Refills(n, b) * b;
    ShiftedBy(Refills(n, b), b, p + k);
  }

  lemma StillReady(e: Cipher, l: Layout, c: seq<Byte>, n: nat, ctr: seq<Byte>, pad: seq<Byte>, padlen: nat)
    requires At(e, l, c, n, ctr, pad, padlen) && padlen != |c|
    ensures Ready(e, l, c, n, ctr, pad, padlen)
  {
    PadLength(n, |c|);
  }

  lemma RefillReady(e: Cipher, l: Layout, c: seq<Byte>, n: nat, ctr: seq<Byte>, pad: seq<Byte>, padlen: nat)
    requires At(e, l, c, n, ctr, pad, padlen) && padlen == |c|
    ensures Ready(e, l, c, n, Next(l, ctr), e(Next(l, ctr)), 0)
  {
    PadLength(n, |c|);
  }

  /** From a ready context, m more bytes stay within the pad. */
  lemma WithinPad(e: Cipher, l: Layout, c: seq<Byte>, n: nat, m: nat, ctr: seq<Byte>, pad: seq<Byte>, padlen: nat)
    requires Ready(e, l, c, n, ctr, pad, padlen) && 0 < m && padlen + m <= |c|
    ensures At(e, l, c, n + m, ctr, pad, padlen + m)
  {
    MoreBytes(n, |c|, m);
  }

  lemma StreamFromPad(e: Cipher, l: Layout, c: seq<Byte>, n: nat, x: nat, ctr: seq<Byte>, pad: seq<Byte>, padlen: nat)
    requires Ready(e, l, c, n, ctr, pad, padlen) && padlen + x < |c| && KeepsLength(e, |c|)
    ensures |pad| == |c| && pad[padlen + x] == Stream(e, l, c, n + x)
  {
    SameBlock(n, |c|, x);
  }

  /* ---- Consequences of the closed form ---- */

  /** `out` is `text` under the keystream from position n on. */
  ghost predicate Enciphers(e: Cipher, l: Layout, c: seq<Byte>, n: nat, text: seq<Byte>, out: seq<Byte>)
    requires c != [] && l.mark <= |c| && KeepsLength(e, |c|)
  {
    |out| == |text| && forall k | 0 <= k < |text| :: out[k] == Xor(text[k], Stream(e, l, c, n + k))
  }

  /** Only one output satisfies the closed form. */
  lemma EnciphersUnique(e: Cipher, l: Layout, c: seq<Byte>, n: nat, text: seq<Byte>, out: seq<Byte>, out': seq<Byte>)
    requires c != [] && l.mark <= |c| && KeepsLength(e, |c|)
    requires Enciphers(e, l, c, n, text, out) && Enciphers(e, l, c, n, text, out')
    ensures out == out'
  {
  }

  /** Enciphering twice from the same position gives the text back. */
  lemma EnciphersTwice(e: Cipher, l: Layout, c: seq<Byte>, n: nat, text: seq<Byte>, out: seq<Byte>, back: seq<Byte>)
    requires c != [] && l.mark <= |c| && KeepsLength(e, |c|)
    requires Enciphers(e, l, c, n, text, out) && Enciphers(e, l, c, n, out, back)
    ensures back == text
  {
    forall k | 0 <= k < |text| ensures back[k] == text[k] {
      XorTwice(text[k], Stream(e, l, c, n + k));
    }
  }

  /** Two calls in a row give the bytes of one call on the joined text. */
  lemma EnciphersInPieces(e: Cipher, l: Layout, c: seq<Byte>, n: nat, x: seq<Byte>, y: seq<Byte>,
                          outx: seq<Byte>, outy: seq<Byte>, out: seq<Byte>)
    requires c != [] && l.mark <= |c| && KeepsLength(e, |c|)
    requires Enciphers(e, l, c, n, x, outx) && Enciphers(e, l, c, n + |x|, y, outy)
    requires Enciphers(e, l, c, n, x + y, out)
    ensures out == outx + outy
  {
    forall k | 0 <= k < |x + y| ensures out[k] == (outx + outy)[k] {
      if k >= |x| {
        assert n + k == n + |x| + (k - |x|);
      }
    }
  }

  /** And the same final context: the position determines the context. */
  lemma ContextDetermined(e: Cipher, l: Layout, c: seq<Byte>, n: nat, ctr: seq<Byte>, pad: seq<Byte>, padlen: nat,
                          ctr': seq<Byte>, pad': seq<Byte>, padlen': nat)
    requires At(e, l, c, n, ctr, pad, padlen) && At(e, l, c, n, ctr', pad', padlen')
    ensures ctr == ctr' && pad == pad' && padlen == padlen'
  {
  }

  /** Positions add up: n bytes from `c`, then m bytes counted from the block reached there. */
  lemma {:induction false} AdvanceTwice(l: Layout, c: seq<Byte>, i: nat, j: nat)
    requires l.mark <= |c|
    ensures Advance(l, Advance(l, c, i), j) == Advance(l, c, i + j)
  {
    if j > 0 {
      AdvanceTwice(l, c, i, j - 1);
    }
  }

  lemma Rebase(e: Cipher, l: Layout, c: seq<Byte>, n: nat, ctr: seq<Byte>, pad: seq<Byte>, padlen: nat, k: nat)
    requires At(e, l, c, n, ctr, pad, padlen) && KeepsLength(e, |c|)
    ensures Stream(e, l, ctr, padlen + k) == Stream(e, l, c, n + k)
  {
    CountedFrom(n, |c|, k);
    AdvanceTwice(l, c, Refills(n, |c|), (padlen + k) / |c|);
  }

  lemma RefillsCounted(n: nat, b: nat, m: nat)
    requires b > 0
    ensures var p := n - Refills(n, b) * b;
      p >= 0 && Refills(n + m, b) == Refills(n, b) + Refills(p + m, b) &&
      n + m - Refills(n + m, b) * b == p + m - Refills(p + m, b) * b
  {
    PadLength(n, b);
    var i, p := Refills(n, b), n - Refills(n, b) * b;
    if m > 0 {
      CountedFrom(n, b, m - 1);
    } else if p > 0 {
      ModOf(0, b, p - 1);
    }
    Distributes(i, Refills(p + m, b), b);
  }

  lemma AtRebased(e: Cipher, l: Layout, c: seq<Byte>, n: nat, ctr: seq<Byte>, pad: seq<Byte>, padlen: nat,
                  m: nat, ctr': seq<Byte>, pad': seq<Byte>, padlen': nat)
    requires At(e, l, c, n, ctr, pad, padlen) && At(e, l, ctr, padlen + m, ctr', pad', padlen')
    ensures At(e, l, c, n + m, ctr', pad', padlen')
  {
    RefillsCounted(n, |c|, m);
    AdvanceTwice(l, c, Refills(n, |c|), Refills(padlen + m, |c|));
  }

  lemma EnciphersRebased(e: Cipher, l: Layout, c: seq<Byte>, n: nat, ctr: seq<Byte>, pad: seq<Byte>, padlen: nat,
                         text: seq<Byte>, out: seq<Byte>)
    requires At(e, l, c, n, ctr, pad, padlen) && KeepsLength(e, |c|) && Enciphers(e, l, ctr, padlen, text, out)
    ensures Enciphers(e, l, c, n, text, out)
  {
    forall k | 0 <= k < |text| ensures out[k] == Xor(text[k], Stream(e, l, c, n + k)) {
      Rebase(e, l, c, n, ctr, pad, padlen, k);
    }
  }

  /** A context's visible state. */
  datatype Context = Context(ctr: seq<Byte>, pad: seq<Byte>, padlen: nat)

  /** What one call does: the closed form for the bytes, and the new context. */
  ghost predicate Call(e: Cipher, l: Layout, s: Context, text: seq<Byte>, out: seq<Byte>, t: Context) {
    && s.ctr != [] && l.mark <= |s.ctr| && KeepsLength(e, |s.ctr|) && s.pad == e(s.ctr) && s.padlen <= |s.ctr|
    && Enciphers(e, l, s.ctr, s.padlen, text, out)
    && At(e, l, s.ctr, s.padlen + |text|, t.ctr, t.pad, t.padlen)
  }

  /** Splitting a message into two calls changes neither the bytes nor the final context; for every split. */
  lemma CallsCompose(e: Cipher, l: Layout, s: Context, x: seq<Byte>, y: seq<Byte>,
                     outx: seq<Byte>, t: Context, outy: seq<Byte>, u: Context, out: seq<Byte>, v: Context)
    requires Call(e, l, s, x, outx, t) && Call(e, l, t, y, outy, u) && Call(e, l, s, x + y, out, v)
    ensures out == outx + outy && u == v
  {
    BytesCompose(e, l, s, x, y, outx, t, outy, out);
    ContextsCompose(e, l, s, x, y, t, u, v);
  }

  lemma BytesCompose(e: Cipher, l: Layout, s: Context, x: seq<Byte>, y: seq<Byte>,
                     outx: seq<Byte>, t: Context, outy: seq<Byte>, out: seq<Byte>)
    requires s.ctr != [] && l.mark <= |s.ctr| && KeepsLength(e, |s.ctr|)
    requires Enciphers(e, l, s.ctr, s.padlen, x, outx) && Enciphers(e, l, s.ctr, s.padlen, x + y, out)
    requires At(e, l, s.ctr, s.padlen + |x|, t.ctr, t.pad, t.padlen) && Enciphers(e, l, t.ctr, t.padlen, y, outy)
    ensures out == outx + outy
  {
    EnciphersRebased(e, l, s.ctr, s.padlen + |x|, t.ctr, t.pad, t.padlen, y, outy);
    EnciphersInPieces(e, l, s.ctr, s.padlen, x, y, outx, outy, out);
  }

  lemma ContextsCompose(e: Cipher, l: Layout, s: Context, x: seq<Byte>, y: seq<Byte>, t: Context, u: Context, v: Context)
    requires At(e, l, s.ctr, s.padlen + |x|, t.ctr, t.pad, t.padlen)
    requires At(e, l, t.ctr, t.padlen + |y|, u.ctr, u.pad, u.padlen)
    requires At(e, l, s.ctr, s.padlen + |x + y|, v.ctr, v.pad, v.padlen)
    ensures u == v
  {
    var n, m := s.padlen + |x|, |y|;
    assert s.padlen + |x + y| == n + m;
    SameContext(e, l, s.ctr, n, m, t, u, v);
  }

  lemma SameContext(e: Cipher, l: Layout, c: seq<Byte>, n: nat, m: nat, t: Context, u: Context, v: Context)
    requires At(e, l, c, n, t.ctr, t.pad, t.padlen) && At(e, l, t.ctr, t.padlen + m, u.ctr, u.pad, u.padlen)
    requires At(e, l, c, n + m, v.ctr, v.pad, v.padlen)
    ensures u == v
  {
    AtRebased(e, l, c, n, t.ctr, t.pad, t.padlen, m, u.ctr, u.pad, u.padlen);
  }

  /** Two calls that differ only in how they combine bytes, by words or singly, agree. */
  lemma CallDetermined(e: Cipher, l: Layout, s: Context, text: seq<Byte>, out: seq<Byte>, t: Context, out': seq<Byte>, t': Context)
    requires Call(e, l, s, text, out, t) && Call(e, l, s, text, out', t')
    ensures out == out' && t == t'
  {
    EnciphersUnique(e, l, s.ctr, s.padlen, text, out, out');
    ContextDetermined(e, l, s.ctr, s.padlen + |text|, t.ctr, t.pad, t.padlen, t'.ctr, t'.pad, t'.padlen);
  }

  /** Decrypting from an equal context returns the text, and ends in an equal context. */
  lemma CallInverts(e: Cipher, l: Layout, s: Context, text: seq<Byte>, out: seq<Byte>, t: Context, back: seq<Byte>, t': Context)
    requires Call(e, l, s, text, out, t) && Call(e, l, s, out, back, t')
    ensures back == text && t == t'
  {
    EnciphersTwice(e, l, s.ctr, s.padlen, text, out, back);
  }

  /* ---- The two ways to combine text and pad ---- */

  function Xored(a: seq<Byte>, b: seq<Byte>): (c: seq<Byte>)
    requires |a| <= |b|
    ensures |c| == |a|
  {
    seq(|a|, k requires 0 <= k < |a| => Xor(a[k], b[k]))
  }

  lemma XoredAppend(a: seq<Byte>, b: seq<Byte>, x: nat, y: nat)
    requires x <= y <= |a| <= |b|
    ensures Xored(a[..y], b) == Xored(a[..x], b) + Xored(a[x..y], b[x..])
  {
  }

  lemma Eight<T>(s: seq<T>)
    requires |s| == 8
    ensures s == [s[0], s[1], s[2], s[3], s[4], s[5], s[6], s[7]]
  {
  }

  /** Eight bytes loaded, combined and stored as one word. */
  method XorWord(a: seq<Byte>, b: seq<Byte>) returns (c: seq<Byte>)
    requires |a| == 8 && |b| >= 8
    ensures c == Xored(a, b)
  {
    var w := Xor64(Word(a[0], a[1], a[2], a[3], a[4], a[5], a[6], a[7]), Word(b[0], b[1], b[2], b[3], b[4], b[5], b[6], b[7]));
    WordXor(a[0], a[1], a[2], a[3], a[4], a[5], a[6], a[7], b[0], b[1], b[2], b[3], b[4], b[5], b[6], b[7]);
    BytesOfWord(Xor(a[0], b[0]), Xor(a[1], b[1]), Xor(a[2], b[2]), Xor(a[3], b[3]),
                Xor(a[4], b[4]), Xor(a[5], b[5]), Xor(a[6], b[6]), Xor(a[7], b[7]));
    c := [B0(w), B1(w), B2(w), B3(w), B4(w), B5(w), B6(w), B7(w)];
    Eight(Xored(a, b));
  }

  method Store(ct: array<Byte>, i: nat, c: seq<Byte>)
    requires i + |c| <= ct.Length
    modifies ct
    ensures ct[..] == old(ct[..i]) + c + old(ct[i + |c|..])
  {
    for k := 0 to |c|
      invariant ct[..i] == old(ct[..i]) && ct[i..i + k] == c[..k] && ct[i + |c|..] == old(ct[i + |c|..])
    {
      ct[i + k] := c[k];
    }
    assert ct[..] == ct[..i] + ct[i..i + |c|] + ct[i + |c|..];
  }

  /** `x` of the `b` bytes from `i` on are combined; the rest of the text and of the output is as before. */
  ghost predicate BlockDone(x: nat, b: nat, i: nat, text: seq<Byte>, pad: seq<Byte>, before: seq<Byte>, ct: seq<Byte>, pt: seq<Byte>) {
    && x <= b == |text| == |pad| && i + b <= |ct| == |before| && i + b <= |pt|
    && ct == before[..i] + Xored(text[..x], pad) + before[i + x..]
    && pt[i + x..i + b] == text[x..]
  }

  lemma BlockStep(x: nat, b: nat, i: nat, text: seq<Byte>, pad: seq<Byte>, before: seq<Byte>,
                  ct: seq<Byte>, pt: seq<Byte>, ct': seq<Byte>, pt': seq<Byte>)
    requires BlockDone(x, b, i, text, pad, before, ct, pt) && x + 8 <= b
    requires ct' == ct[..i + x] + Xored(text[x..x + 8], pad[x..]) + ct[i + x + 8..]
    requires pt' == pt || (pt == ct && pt' == ct')
    ensures BlockDone(x + 8, b, i, text, pad, before, ct', pt')
  {
    XoredAppend(text, pad, x, x + 8);
    assert ct[..i + x] == before[..i] + Xored(text[..x], pad);
    assert ct[i + x + 8..] == before[i + (x + 8)..];
    assert pt'[i + (x + 8)..i + b] == pt[i + x..i + b][8..] == text[x + 8..];
  }

  lemma NextText(x: nat, b: nat, i: nat, text: seq<Byte>, pad: seq<Byte>, before: seq<Byte>, ct: seq<Byte>, pt: seq<Byte>)
    requires BlockDone(x, b, i, text, pad, before, ct, pt) && x + 8 <= b
    ensures pt[i + x..i + x + 8] == text[x..x + 8]
  {
    assert pt[i + x..i + x + 8] == pt[i + x..i + b][..8];
  }

  lemma BlockEnd(b: nat, i: nat, text: seq<Byte>, pad: seq<Byte>, before: seq<Byte>, ct: seq<Byte>, pt: seq<Byte>)
    requires BlockDone(b, b, i, text, pad, before, ct, pt)
    ensures ct == before[..i] + Xored(text, pad) + before[i + b..]
  {
    assert text[..b] == text;
  }

  lemma NothingDone(b: nat, i: nat, text: seq<Byte>, pad: seq<Byte>, ct: seq<Byte>, pt: seq<Byte>)
    requires b == |text| == |pad| && i + b <= |ct| && i + b <= |pt| && text == pt[i..i + b]
    ensures BlockDone(0, b, i, text, pad, ct, ct, pt)
  {
    assert ct == ct[..i] + [] + ct[i..];
  }

  method XorNextWord(pt: array<Byte>, i: nat, x: nat, pad: array<Byte>, b: nat, ct: array<Byte>,
                     ghost text: seq<Byte>, ghost before: seq<Byte>)
    requires i + b <= pt.Length && i + b <= ct.Length && b <= pad.Length && pad != ct && x + 8 <= b
    requires BlockDone(x, b, i, text, pad[..b], before, ct[..], pt[..])
    modifies ct
    ensures BlockDone(x + 8, b, i, text, pad[..b], before, ct[..], pt[..])
  {
    ghost var ct0, pt0 := ct[..], pt[..];
    NextText(x, b, i, text, pad[..b], before, ct0, pt0);
    var c := XorWord(pt[i + x..i + x + 8], pad[x..b]);
    assert pad[x..b] == pad[..b][x..];
    Store(ct, i + x, c);
    BlockStep(x, b, i, text, pad[..b], before, ct0, pt0, ct[..], pt[..]);
  }

  /** A whole block of `b` bytes by words; the text and the output may be the same buffer. */
  method XorBlock(pt: array<Byte>, i: nat, pad: array<Byte>, b: nat, ct: array<Byte>)
    requires b % FAST == 0 && i + b <= pt.Length && i + b <= ct.Length && b <= pad.Length && pad != ct
    modifies ct
    ensures ct[..] == old(ct[..i]) + Xored(old(pt[i..i + b]), pad[..b]) + old(ct[i + b..])
  {
    ghost var text, before, words, j := pt[i..i + b], ct[..], b / 8, 0;
    var x := 0;
    NothingDone(b, i, text, pad[..b], ct[..], pt[..]);
    while x < b
      invariant x == 8 * j && j <= words
      invariant BlockDone(x, b, i, text, pad[..b], before, ct[..], pt[..])
    {
      XorNextWord(pt, i, x, pad, b, ct, text, before);
      x := x + 8;
      j := j + 1;
    }
    BlockEnd(b, i, text, pad[..b], before, ct[..], pt[..]);
  }

  /* ---- The progress of a call ---- */

  /** `out` has been written; the rest of the text and of the output buffer is as before. */
  ghost predicate Progress(text: seq<Byte>, before: seq<Byte>, out: seq<Byte>, ct: seq<Byte>, pt: seq<Byte>) {
    && |out| <= |text| <= |ct| == |before| && |text| <= |pt|
    && ct == out + before[|out|..]
    && pt[|out|..|text|] == text[|out|..]
  }

  lemma ProgressStep(text: seq<Byte>, before: seq<Byte>, out: seq<Byte>, ct: seq<Byte>, pt: seq<Byte>,
                     z: seq<Byte>, ct': seq<Byte>, pt': seq<Byte>)
    requires Progress(text, before, out, ct, pt) && |out| + |z| <= |text|
    requires ct' == ct[..|out|] + z + ct[|out| + |z|..]
    requires pt' == pt || (pt == ct && pt' == ct')
    ensures Progress(text, before, out + z, ct', pt')
  {
    var p, m := |out|, |z|;
    assert ct[..p] == out && ct[p + m..] == before[p + m..];
    assert pt'[p + m..|text|] == pt[p..|text|][m..] == text[p + m..];
  }

  lemma ProgressEnd(text: seq<Byte>, before: seq<Byte>, out: seq<Byte>, ct: seq<Byte>, pt: seq<Byte>)
    requires Progress(text, before, out, ct, pt) && |out| == |text|
    ensures ct[..|text|] == out && ct[|text|..] == before[|text|..]
  {
  }

  lemma SameText(text: seq<Byte>, pt: seq<Byte>, p: nat, m: nat)
    requires p + m <= |text| <= |pt| && pt[p..|text|] == text[p..]
    ensures pt[p..p + m] == text[p..p + m]
  {
    assert pt[p..p + m] == pt[p..|text|][..m];
  }

  lemma Slices<T>(s: seq<T>, i: nat, j: nat)
    requires i <= j <= |s|
    ensures s[i..j] == s[i..][..j - i] == s[..j][i..] && s[..j][..i] == s[..i] && s[..j] == s[..i] + s[i..j]
  {
  }

  /** Bytes combined with a ready pad are enciphered. */
  lemma PadEnciphers(e: Cipher, l: Layout, c: seq<Byte>, n: nat, t: seq<Byte>, ctr: seq<Byte>, pad: seq<Byte>, padlen: nat)
    requires Ready(e, l, c, n, ctr, pad, padlen) && padlen + |t| <= |c| == |pad| && KeepsLength(e, |c|)
    ensures Enciphers(e, l, c, n, t, Xored(t, pad[padlen..]))
  {
    forall k | 0 <= k < |t| ensures Xored(t, pad[padlen..])[k] == Xor(t[k], Stream(e, l, c, n + k)) {
      StreamFromPad(e, l, c, n, k, ctr, pad, padlen);
    }
  }

  lemma EnciphersMore(e: Cipher, l: Layout, c: seq<Byte>, n: nat, text: seq<Byte>, out: seq<Byte>, z: seq<Byte>)
    requires c != [] && l.mark <= |c| && KeepsLength(e, |c|) && |out| + |z| <= |text|
    requires Enciphers(e, l, c, n, text[..|out|], out)
    requires Enciphers(e, l, c, n + |out|, text[|out|..|out| + |z|], z)
    ensures Enciphers(e, l, c, n, text[..|out| + |z|], out + z)
  {
    forall k | 0 <= k < |out| + |z| ensures (out + z)[k] == Xor(text[..|out| + |z|][k], Stream(e, l, c, n + k)) {
      if k >= |out| {
        assert n + k == n + |out| + (k - |out|);
      } else {
        assert out[k] == Xor(text[..|out|][k], Stream(e, l, c, n + k));
      }
    }
  }

  /* ---- The context ---- */

  datatype Setup<K> = Setup(status: Status, key: K)

  /** An entry of the cipher table. */
  datatype Descriptor<!K> = Descriptor(
    blockLength: nat, setup: (seq<Byte>, int) -> Setup<K>, encrypt: (K, seq<Byte>) -> seq<Byte>)

  ghost predicate Usable<K(!new)>(d: Descriptor<K>) {
    && 1 <= d.blockLength <= MAXBLOCKSIZE
    && forall k, p | |p| == d.blockLength :: |d.encrypt(k, p)| == d.blockLength
  }

  ghost predicate TableUsable<K(!new)>(table: map<int, Descriptor<K>>) {
    forall i | i in table :: Usable(table[i])
  }

  lemma EntryUsable<K(!new)>(table: map<int, Descriptor<K>>, i: int, k: K, p: seq<Byte>)
    requires TableUsable(table) && i in table
    ensures 1 <= table[i].blockLength <= MAXBLOCKSIZE
    ensures |p| == table[i].blockLength ==> |Keyed(table[i], k)(p)| == |table[i].encrypt(k, p)| == table[i].blockLength
  {
    assert Usable(table[i]);
  }

  lemma KeyedKeepsLength<K(!new)>(table: map<int, Descriptor<K>>, i: int, k: K)
    requires TableUsable(table) && i in table
    ensures KeepsLength(Keyed(table[i], k), table[i].blockLength)
  {
    forall p | |p| == table[i].blockLength ensures |Keyed(table[i], k)(p)| == table[i].blockLength {
      EntryUsable(table, i, k, p);
    }
  }

  function Keyed<K>(d: Descriptor<K>, k: K): Cipher {
    (p: seq<Byte>) => d.encrypt(k, p)
  }

  class SymmetricCtr<K(0, !new)> {
    const table: map<int, Descriptor<K>>
    var cipher: int
    var blocklen: int
    var padlen: int
    var big: bool
    var ctrlen: int
    const ctr: array<Byte>
    const pad: array<Byte>
    var key: K

    ghost predicate Sound()
      reads this
    {
      && ctr != pad && ctr.Length == pad.Length == MAXBLOCKSIZE
      && TableUsable(table)
    }

    /** The pad holds the encrypted counter, of which `padlen` bytes are used up. */
    ghost predicate Valid()
      reads this, ctr, pad
    {
      && Sound()
      && cipher in table && blocklen == table[cipher].blockLength
      && 1 <= blocklen <= MAXBLOCKSIZE && 0 <= padlen <= blocklen && 0 <= ctrlen <= blocklen
      && pad[..blocklen] == Keyed(table[cipher], key)(ctr[..blocklen])
    }

    ghost function E(): Cipher
      requires cipher in table
      reads this
    {
      Keyed(table[cipher], key)
    }

    ghost function Shape(): Layout
      requires ctrlen >= 0
      reads this
    {
      Layout(big, ctrlen)
    }

    ghost function Now(): Context
      requires Valid()
      reads this, ctr, pad
    {
      Context(ctr[..blocklen], pad[..blocklen], padlen)
    }

    constructor (table: map<int, Descriptor<K>>)
      requires TableUsable(table)
      ensures Sound() && this.table == table && fresh(ctr) && fresh(pad)
    {
      this.table := table;
      cipher, blocklen, padlen, big, ctrlen := -1, 0, 0, false, 0;
      ctr := new Byte[MAXBLOCKSIZE];
      pad := new Byte[MAXBLOCKSIZE];
      key := *;
    }

    /** Adds one to the counter field. */
    method Increment()
      requires Sound() && 0 <= ctrlen <= blocklen <= MAXBLOCKSIZE
      modifies ctr
      ensures ctr[..blocklen] == Next(Shape(), old(ctr[..blocklen]))
    {
      Slices(ctr[..], ctrlen, blocklen);
      if !big {
        IncrementLittle(ctr, ctrlen);
      } else {
        IncrementBig(ctr, ctrlen, blocklen);
      }
      Slices(ctr[..], ctrlen, blocklen);
    }

    /** Encrypts the counter into the pad. */
    method FillPad()
      requires Sound() && cipher in table && blocklen == table[cipher].blockLength && 1 <= blocklen <= MAXBLOCKSIZE
      requires 0 <= ctrlen <= blocklen
      modifies pad, this`padlen
      ensures Valid() && padlen == 0
    {
      EntryUsable(table, cipher, key, ctr[..blocklen]);
      var block := table[cipher].encrypt(key, ctr[..blocklen]);
      for i := 0 to blocklen
        invariant pad[..i] == block[..i]
        modifies pad
      {
        pad[i] := block[i];
      }
      padlen := 0;
      assert block == block[..blocklen];
    }

    method LoadCounter(iv: seq<Byte>)
      requires Sound() && 0 <= blocklen <= MAXBLOCKSIZE && blocklen <= |iv|
      modifies ctr
      ensures ctr[..blocklen] == iv[..blocklen]
    {
      for x := 0 to blocklen
        invariant ctr[..x] == iv[..x]
      {
        ctr[x] := iv[x];
      }
    }

    /** The counter width asked for: all of the block unless the low byte of the mode says otherwise. */
    static function Width(ctrMode: nat, blockLength: nat): nat {
      if ctrMode % 256 != 0 then ctrMode % 256 else blockLength
    }

    static predicate BigEndian(ctrMode: nat) {
      ctrMode / 0x1000 % 2 == 1
    }

    static predicate Rfc3686(ctrMode: nat) {
      ctrMode / 0x2000 % 2 == 1
    }

    /** The fields, the counter (incremented once where RFC 3686 asks for it), and the first pad. */
    method Begin(index: int, iv: seq<Byte>, bigEndian: bool, rfc3686: bool)
      requires Sound() && index in table && |iv| >= table[index].blockLength && 0 <= ctrlen <= table[index].blockLength
      modifies this`blocklen, this`cipher, this`padlen, this`big, ctr, pad
      ensures Valid() && cipher == index && padlen == 0 && big == bigEndian && blocklen == table[index].blockLength
      ensures ctr[..blocklen] == if rfc3686 then Next(Shape(), iv[..blocklen]) else iv[..blocklen]
    {
      EntryUsable(table, index, key, []);
      blocklen := table[index].blockLength;
      cipher := index;
      padlen := 0;
      big := bigEndian;
      LoadCounter(iv);
      if rfc3686 {
        Increment();
      }
      FillPad();
    }

    method Start(index: int, iv: seq<Byte>, keyBytes: seq<Byte>, numRounds: int, ctrMode: nat) returns (status: Status)
      requires Sound() && (index in table ==> |iv| >= table[index].blockLength)
      modifies this, ctr, pad
      ensures status ==
        if index !in table then InvalidCipher
        else if Width(ctrMode, table[index].blockLength) > table[index].blockLength then InvalidArg
        else table[index].setup(keyBytes, numRounds).status
      ensures status == Ok ==>
        var b, w := table[index].blockLength, Width(ctrMode, table[index].blockLength);
        && Valid() && cipher == index && blocklen == b && padlen == 0
        && key == table[index].setup(keyBytes, numRounds).key
        && big == BigEndian(ctrMode) && ctrlen == (if BigEndian(ctrMode) then b - w else w)
        && ctr[..b] == if Rfc3686(ctrMode) then Next(Shape(), iv[..b]) else iv[..b]
    {
      if index !in table {
        return InvalidCipher;
      }
      var d := table[index];
      EntryUsable(table, index, key, []);
      ctrlen := Width(ctrMode, d.blockLength);
      if ctrlen > d.blockLength {
        return InvalidArg;
      }
      if BigEndian(ctrMode) {
        ctrlen := d.blockLength - ctrlen;
      }
      var r := d.setup(keyBytes, numRounds);
      key := r.key;
      if r.status != Ok {
        return r.status;
      }
      Begin(index, iv, BigEndian(ctrMode), Rfc3686(ctrMode));
      status := Ok;
    }

    /** Whether the checks at the head of the routine pass. */
    predicate Accepted(fast: bool)
      reads this
    {
      && cipher in table
      && 1 <= blocklen <= MAXBLOCKSIZE && 0 <= padlen <= MAXBLOCKSIZE
      && (fast ==> blocklen % FAST == 0)
    }

    /** The context's cipher and counter layout are these; no call changes them. */
    ghost predicate Uses(e: Cipher, l: Layout)
      reads this
    {
      cipher in table && ctrlen >= 0 && e == E() && l == Shape()
    }

    /** Increments the counter and refills the pad when it is used up. */
    method MakeReady(ghost e: Cipher, ghost l: Layout, ghost c: seq<Byte>, ghost n: nat)
      requires Valid() && Uses(e, l) && |c| == blocklen
      requires At(e, l, c, n, ctr[..blocklen], pad[..blocklen], padlen)
      modifies ctr, pad, this`padlen
      ensures Valid() && Uses(e, l) && padlen < blocklen
      ensures Ready(e, l, c, n, ctr[..blocklen], pad[..blocklen], padlen)
    {
      if padlen == blocklen {
        RefillReady(e, l, c, n, ctr[..blocklen], pad[..blocklen], padlen);
        Increment();
        FillPad();
      } else {
        StillReady(e, l, c, n, ctr[..blocklen], pad[..blocklen], padlen);
      }
    }

    /** Combines text with the pad: a block by words, or one byte. */
    method Combine(pt: array<Byte>, ct: array<Byte>, p: nat, len: nat, fast: bool) returns (m: nat)
      requires Valid() && 0 <= padlen < blocklen && (fast ==> blocklen % FAST == 0)
      requires ct != ctr && ct != pad && p < len <= pt.Length && len <= ct.Length
      modifies ct
      ensures 0 < m <= len - p && padlen + m <= blocklen
      ensures ct[..] == old(ct[..p]) + Xored(old(pt[p..p + m]), pad[..blocklen][padlen..]) + old(ct[p + m..])
    {
      if fast && padlen == 0 && len - p >= blocklen {
        m := blocklen;
        assert pad[..blocklen][0..] == pad[..blocklen];
        XorBlock(pt, p, pad, blocklen, ct);
      } else {
        m := 1;
        ghost var before, z := ct[..], Xored(pt[p..p + 1], pad[..blocklen][padlen..]);
        ct[p] := Xor(pt[p], pad[padlen]);
        assert z == [ct[p]];
        assert ct[..] == before[..p] + [ct[p]] + before[p + 1..];
      }
    }

    /** Enciphers some bytes from the pad. */
    method EncryptSome(pt: array<Byte>, ct: array<Byte>, p: nat, len: nat, fast: bool, ghost e: Cipher, ghost l: Layout,
                       ghost c: seq<Byte>, ghost n: nat, ghost text: seq<Byte>, ghost before: seq<Byte>, ghost out: seq<Byte>)
      returns (m: nat, ghost z: seq<Byte>)
      requires Valid() && Uses(e, l) && |c| == blocklen && 0 <= padlen < blocklen && (fast ==> blocklen % FAST == 0)
      requires ct != ctr && ct != pad && p < len == |text| && |out| == p
      requires Progress(text, before, out, ct[..], pt[..])
      requires Ready(e, l, c, n, ctr[..blocklen], pad[..blocklen], padlen)
      modifies ct, this`padlen
      ensures 0 < m == |z| <= len - p && Valid() && Uses(e, l)
      ensures Progress(text, before, out + z, ct[..], pt[..])
      ensures KeepsLength(e, |c|) && Enciphers(e, l, c, n, text[p..p + m], z)
      ensures At(e, l, c, n + m, ctr[..blocklen], pad[..blocklen], padlen)
    {
      ghost var ct0, pt0, pad0 := ct[..], pt[..], pad[..blocklen];
      m := Combine(pt, ct, p, len, fast);
      z := Xored(text[p..p + m], pad0[padlen..]);
      SameText(text, pt0, p, m);
      ProgressStep(text, before, out, ct0, pt0, z, ct[..], pt[..]);
      KeyedKeepsLength(table, cipher, key);
      PadEnciphers(e, l, c, n, text[p..p + m], ctr[..blocklen], pad0, padlen);
      WithinPad(e, l, c, n, m, ctr[..blocklen], pad0, padlen);
      padlen := padlen + m;
    }

    /** `out` enciphers the first bytes of the text, and the context stands behind them. */
    ghost predicate Reached(e: Cipher, l: Layout, c: seq<Byte>, n: nat, text: seq<Byte>, out: seq<Byte>)
      reads this, ctr, pad
    {
      && Valid() && Uses(e, l) && |c| == blocklen && l.mark <= |c| && KeepsLength(e, |c|)
      && |out| <= |text| && Enciphers(e, l, c, n, text[..|out|], out)
      && At(e, l, c, n + |out|, ctr[..blocklen], pad[..blocklen], padlen)
    }

    method MakeReadyAt(ghost e: Cipher, ghost l: Layout, ghost c: seq<Byte>, ghost n: nat, ghost text: seq<Byte>, ghost out: seq<Byte>)
      requires Reached(e, l, c, n, text, out)
      modifies ctr, pad, this`padlen
      ensures Valid() && Uses(e, l) && |c| == blocklen && 0 <= padlen < blocklen && l.mark <= |c| && KeepsLength(e, |c|)
      ensures |out| <= |text| && Enciphers(e, l, c, n, text[..|out|], out)
      ensures Ready(e, l, c, n + |out|, ctr[..blocklen], pad[..blocklen], padlen)
    {
      MakeReady(e, l, c, n + |out|);
    }

    method EncryptNext(pt: array<Byte>, ct: array<Byte>, p: nat, len: nat, fast: bool, ghost e: Cipher, ghost l: Layout,
                       ghost c: seq<Byte>, ghost n: nat, ghost text: seq<Byte>, ghost before: seq<Byte>, ghost out: seq<Byte>)
      returns (p': nat, ghost out': seq<Byte>)
      requires (fast ==> blocklen % FAST == 0) && ct != ctr && ct != pad && pt != ctr && pt != pad
      requires p < len == |text| && |out| == p
      requires Progress(text, before, out, ct[..], pt[..]) && Reached(e, l, c, n, text, out)
      modifies ct, ctr, pad, this`padlen
      ensures p < p' == |out'| <= len
      ensures Progress(text, before, out', ct[..], pt[..]) && Reached(e, l, c, n, text, out')
    {
      MakeReadyAt(e, l, c, n, text, out);
      var m, z := EncryptSome(pt, ct, p, len, fast, e, l, c, n + p, text, before, out);
      ReachedMore(e, l, c, n, text, out, z);
      p', out' := p + m, out + z;
    }

    lemma ReachedMore(e: Cipher, l: Layout, c: seq<Byte>, n: nat, text: seq<Byte>, out: seq<Byte>, z: seq<Byte>)
      requires Valid() && Uses(e, l) && |c| == blocklen && l.mark <= |c| && KeepsLength(e, |c|)
      requires |out| + |z| <= |text| && Enciphers(e, l, c, n, text[..|out|], out)
      requires Enciphers(e, l, c, n + |out|, text[|out|..|out| + |z|], z)
      requires At(e, l, c, n + |out| + |z|, ctr[..blocklen], pad[..blocklen], padlen)
      ensures Reached(e, l, c, n, text, out + z)
    {
      EnciphersMore(e, l, c, n, text, out, z);
    }

    lemma StartsReached(text: seq<Byte>)
      requires Valid()
      ensures Reached(E(), Shape(), ctr[..blocklen], padlen, text, [])
      ensures Now().pad == E()(Now().ctr)
    {
      KeyedKeepsLength(table, cipher, key);
      NoRefill(padlen, blocklen);
    }

    lemma EndsReached(e: Cipher, l: Layout, s: Context, text: seq<Byte>, out: seq<Byte>)
      requires Reached(e, l, s.ctr, s.padlen, text, out) && |out| == |text|
      requires s.padlen <= |s.ctr| && s.pad == e(s.ctr)
      ensures Call(e, l, s, text, out, Now())
    {
      assert text[..|out|] == text;
    }

    method EncryptAll(pt: array<Byte>, ct: array<Byte>, len: nat, fast: bool)
      requires Valid() && (fast ==> blocklen % FAST == 0)
      requires len <= pt.Length && len <= ct.Length && ct != ctr && ct != pad && pt != ctr && pt != pad
      modifies ct, ctr, pad, this`padlen
      ensures Valid() && Call(E(), Shape(), old(Now()), old(pt[..len]), ct[..len], Now())
      ensures ct[len..] == old(ct[len..])
    {
      ghost var s, text, before, out, e, l := Now(), pt[..len], ct[..], [], E(), Shape();
      StartsReached(text);
      var p := 0;
      while p < len
        invariant |out| == p <= len
        invariant Progress(text, before, out, ct[..], pt[..]) && Reached(e, l, s.ctr, s.padlen, text, out)
      {
        p, out := EncryptNext(pt, ct, p, len, fast, e, l, s.ctr, s.padlen, text, before, out);
      }
      ProgressEnd(text, before, out, ct[..], pt[..]);
      EndsReached(e, l, s, text, out);
    }

    method Encrypt(pt: array<Byte>, ct: array<Byte>, len: nat, fast: bool) returns (status: Status)
      requires len <= pt.Length && len <= ct.Length && ct != ctr && ct != pad && pt != ctr && pt != pad
      requires Valid() || !Accepted(fast)
      modifies ct, ctr, pad, this`padlen
      ensures status ==
        if cipher !in table then InvalidCipher else if !old(Accepted(fast)) then InvalidArg else Ok
      ensures status == Ok ==> Valid() && Call(E(), Shape(), old(Now()), old(pt[..len]), ct[..len], Now())
      ensures status == Ok ==> ct[len..] == old(ct[len..])
      ensures status != Ok ==> ct[..] == old(ct[..]) && ctr[..] == old(ctr[..]) && pad[..] == old(pad[..]) && padlen == old(padlen)
    {
      if cipher !in table {
        return InvalidCipher;
      }
      if blocklen < 1 || blocklen > MAXBLOCKSIZE || padlen < 0 || padlen > MAXBLOCKSIZE {
        return InvalidArg;
      }
      if fast && blocklen % FAST != 0 {
        return InvalidArg;
      }
      EncryptAll(pt, ct, len, fast);
      status := Ok;
    }

    method Decrypt(ct: array<Byte>, pt: array<Byte>, len: nat, fast: bool) returns (status: Status)
      requires len <= pt.Length && len <= ct.Length && ct != ctr && ct != pad && pt != ctr && pt != pad
      requires Valid() || !Accepted(fast)
      modifies pt, ctr, pad, this`padlen
      ensures status ==
        if cipher !in table then InvalidCipher else if !old(Accepted(fast)) then InvalidArg else Ok
      ensures status == Ok ==> Valid() && Call(E(), Shape(), old(Now()), old(ct[..len]), pt[..len], Now())
      ensures status == Ok ==> pt[len..] == old(pt[len..])
      ensures status != Ok ==> pt[..] == old(pt[..]) && ctr[..] == old(ctr[..]) && pad[..] == old(pad[..]) && padlen == old(padlen)
    {
      status := Encrypt(ct, pt, len, fast);
    }
  }
}

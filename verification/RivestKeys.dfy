/**
  The key expansion RC5 and RC6 share (`NXTservices/rc5.c`, `NXTservices/rc6.c`; RFC 2040
  section 6): the key loaded as little-endian words, a table of magic constants, and a
  mixing pass that runs round both arrays at their own pace.
 */
module RivestKeys {
  import opened Division
  import opened Words

  const P32: bv32 := 0xb7e15163
  const Q32: bv32 := 0x9E3779B9

  /* ---- The table of constants ---- */

  function PlusQ(x: bv32): bv32 {
    x + Q32
  }

  /** Every entry is the successor of the one before. */
  ghost predicate Progression<W>(next: W -> W, s: seq<W>) {
    forall i | 0 <= i < |s| - 1 :: s[i + 1] == next(s[i])
  }

  function Stab0(): seq<bv32> {
    [0xb7e15163, 0x5618cb1c, 0xf45044d5, 0x9287be8e, 0x30bf3847, 0xcef6b200, 0x6d2e2bb9, 0x0b65a572, 0xa99d1f2b, 0x47d498e4]
  }

  function Stab1(): seq<bv32> {
    [0xe60c129d, 0x84438c56, 0x227b060f, 0xc0b27fc8, 0x5ee9f981, 0xfd21733a, 0x9b58ecf3, 0x399066ac, 0xd7c7e065, 0x75ff5a1e]
  }

  function Stab2(): seq<bv32> {
    [0x1436d3d7, 0xb26e4d90, 0x50a5c749, 0xeedd4102, 0x8d14babb, 0x2b4c3474, 0xc983ae2d, 0x67bb27e6, 0x05f2a19f, 0xa42a1b58]
  }

  function Stab3(): seq<bv32> {
    [0x42619511, 0xe0990eca, 0x7ed08883, 0x1d08023c, 0xbb3f7bf5, 0x5976f5ae, 0xf7ae6f67, 0x95e5e920, 0x341d62d9, 0xd254dc92]
  }

  function Stab4(): seq<bv32> {
    [0x708c564b, 0x0ec3d004, 0xacfb49bd, 0x4b32c376, 0xe96a3d2f, 0x87a1b6e8, 0x25d930a1, 0xc410aa5a, 0x62482413, 0x007f9dcc]
  }

  function Stab(): (s: seq<bv32>)
    ensures |s| == 50
  {
    Stab0() + Stab1() + Stab2() + Stab3() + Stab4()
  }

  lemma Stab0Runs()
    ensures Stab0()[0] == P32 && Progression(PlusQ, Stab0())
  {
  }

  lemma Stab1Runs()
    ensures Stab1()[0] == PlusQ(Stab0()[9]) && Progression(PlusQ, Stab1())
  {
  }

  lemma Stab2Runs()
    ensures Stab2()[0] == PlusQ(Stab1()[9]) && Progression(PlusQ, Stab2())
  {
  }

  lemma Stab3Runs()
    ensures Stab3()[0] == PlusQ(Stab2()[9]) && Progression(PlusQ, Stab3())
  {
  }

  lemma Stab4Runs()
    ensures Stab4()[0] == PlusQ(Stab3()[9]) && Progression(PlusQ, Stab4())
  {
  }

  lemma ProgressionJoins<W>(next: W -> W, s: seq<W>, t: seq<W>)
    requires Progression(next, s) && Progression(next, t) && s != [] && t != [] && t[0] == next(s[|s| - 1])
    ensures Progression(next, s + t)
  {
  }

  /** The table is the arithmetic progression from P32 in steps of Q32. */
  lemma StabIsProgression()
    ensures Stab()[0] == P32 && Progression(PlusQ, Stab())
  {
    Stab0Runs();
    Stab1Runs();
    Stab2Runs();
    Stab3Runs();
    Stab4Runs();
    ProgressionJoins(PlusQ, Stab0(), Stab1());
    ProgressionJoins(PlusQ, Stab0() + Stab1(), Stab2());
    ProgressionJoins(PlusQ, Stab0() + Stab1() + Stab2(), Stab3());
    ProgressionJoins(PlusQ, Stab0() + Stab1() + Stab2() + Stab3(), Stab4());
  }

  /* ---- Loading the key ---- */

  function Shifted(a: bv32, b: Byte): bv32 {
    (a << 8) | (b as bv32)
  }

  /** What the loop has gathered after the bytes `p`, the first of them highest. */
  function Gathered(p: seq<Byte>): bv32 {
    if p == [] then 0 else Shifted(Gathered(p[..|p| - 1]), p[|p| - 1])
  }

  /** Moves the `n` bytes gathered to the top of the word: a shift by 8 * (4 - n). */
  function Raised(a: bv32, n: nat): bv32
    requires 1 <= n <= 3
  {
    if n == 1 then a << 24 else if n == 2 then a << 16 else a << 8
  }

  /** Word m of the key: four bytes, lowest first, with zeros past the end. */
  function KeyWord(key: seq<Byte>, m: nat): bv32 {
    Load32L([At(key, 4 * m), At(key, 4 * m + 1), At(key, 4 * m + 2), At(key, 4 * m + 3)])
  }

  function At(key: seq<Byte>, i: nat): Byte {
    if i < |key| then key[i] else 0
  }

  /** The word of four bytes, the first of them highest. */
  function Four(a: Byte, b: Byte, c: Byte, d: Byte): bv32 {
    ((a as bv32) << 24) | ((b as bv32) << 16) | ((c as bv32) << 8) | (d as bv32)
  }

  lemma ShiftedFour(x: Byte, a: Byte, b: Byte, c: Byte, d: Byte)
    ensures Shifted(Four(x, a, b, c), d) == Four(a, b, c, d)
    ensures Four(0, 0, 0, 0) == 0
  {
  }

  lemma RaisedOne(c: Byte)
    ensures Raised(Four(0, 0, 0, c), 1) == Four(c, 0, 0, 0)
  {
  }

  lemma RaisedTwo(b: Byte, c: Byte)
    ensures Raised(Four(0, 0, b, c), 2) == Four(b, c, 0, 0)
  {
  }

  lemma RaisedThree(a: Byte, b: Byte, c: Byte)
    ensures Raised(Four(0, a, b, c), 3) == Four(a, b, c, 0)
  {
  }

  lemma SwappedFour(a: Byte, b: Byte, c: Byte, d: Byte)
    ensures Bswap(Four(a, b, c, d)) == Four(d, c, b, a) == Load32L([a, b, c, d])
  {
  }

  lemma {:induction false} GatheredFour(p: seq<Byte>)
    requires |p| <= 4
    ensures Gathered(p) == Four(Back(p, 4), Back(p, 3), Back(p, 2), Back(p, 1))
  {
    if p == [] {
      ShiftedFour(0, 0, 0, 0, 0);
    } else {
      var q := p[..|p| - 1];
      GatheredFour(q);
      assert Back(p, 2) == Back(q, 1) && Back(p, 3) == Back(q, 2) && Back(p, 4) == Back(q, 3);
      ShiftedFour(Back(q, 4), Back(q, 3), Back(q, 2), Back(q, 1), Back(p, 1));
    }
  }

  /** Byte k from the end, or zero. */
  function Back(p: seq<Byte>, k: nat): Byte
    requires k > 0
  {
    if k <= |p| then p[|p| - k] else 0
  }

  lemma FullWord(key: seq<Byte>, m: nat)
    requires 4 * m + 4 <= |key|
    ensures Bswap(Gathered(key[4 * m..4 * m + 4])) == KeyWord(key, m)
  {
    GatheredFour(key[4 * m..4 * m + 4]);
    SwappedFour(key[4 * m], key[4 * m + 1], key[4 * m + 2], key[4 * m + 3]);
  }

  lemma PartialWord(key: seq<Byte>, m: nat)
    requires 4 * m < |key| < 4 * m + 4
    ensures Bswap(Raised(Gathered(key[4 * m..]), |key| - 4 * m)) == KeyWord(key, m)
  {
    var p := key[4 * m..];
    GatheredFour(p);
    RaisedOne(Back(p, 1));
    RaisedTwo(Back(p, 2), Back(p, 1));
    RaisedThree(Back(p, 3), Back(p, 2), Back(p, 1));
    SwappedFour(At(key, 4 * m), At(key, 4 * m + 1), At(key, 4 * m + 2), At(key, 4 * m + 3));
  }

  function WordCount(n: nat): nat {
    (n + 3) / 4
  }

  /** The first `j` words of the key are in place. */
  ghost predicate Loaded(key: seq<Byte>, l: seq<bv32>, j: nat) {
    j <= |l| && forall m | 0 <= m < j :: l[m] == KeyWord(key, m)
  }

  lemma NothingGathered(key: seq<Byte>, i: nat)
    requires i <= |key|
    ensures Gathered(key[i..i]) == 0
  {
  }

  method GatherByte(key: seq<Byte>, j: nat, i: nat, a: bv32) returns (next: bv32)
    requires 4 * j <= i < |key| && a == Gathered(key[4 * j..i])
    ensures next == Gathered(key[4 * j..i + 1])
  {
    assert key[4 * j..i + 1][..i - 4 * j] == key[4 * j..i];
    next := Shifted(a, key[i]);
  }

  method StoreFullWord(key: seq<Byte>, j: nat, a: bv32, l: array<bv32>)
    requires 4 * j + 4 <= |key| && a == Gathered(key[4 * j..4 * j + 4]) && j < l.Length && Loaded(key, l[..], j)
    modifies l
    ensures Loaded(key, l[..], j + 1)
  {
    FullWord(key, j);
    l[j] := Bswap(a);
  }

  method StorePartialWord(key: seq<Byte>, j: nat, a: bv32, l: array<bv32>)
    requires 4 * j < |key| < 4 * j + 4 && a == Gathered(key[4 * j..]) && j < l.Length && Loaded(key, l[..], j)
    modifies l
    ensures Loaded(key, l[..], j + 1)
  {
    PartialWord(key, j);
    l[j] := Bswap(Raised(a, |key| - 4 * j));
  }

  method LoadKey(key: seq<Byte>, l: array<bv32>) returns (j: nat)
    requires 8 <= |key| <= 128 && l.Length == 64
    modifies l
    ensures j == WordCount(|key|) && Loaded(key, l[..], j)
  {
    var a: bv32 := 0;
    var i := 0;
    j := 0;
    NothingGathered(key, 0);
    while i < |key|
      invariant i <= |key| && 4 * j <= i < 4 * j + 4
      invariant a == Gathered(key[4 * j..i])
      invariant Loaded(key, l[..], j)
    {
      a := GatherByte(key, j, i, a);
      i := i + 1;
      if i % 4 == 0 {
        StoreFullWord(key, j, a, l);
        j := j + 1;
        a := 0;
        NothingGathered(key, i);
      }
    }
    if |key| % 4 != 0 {
      assert key[4 * j..i] == key[4 * j..];
      StorePartialWord(key, j, a, l);
      j := j + 1;
    }
  }

  /* ---- Mixing ---- */

  /** The two arrays and the two running words. */
  datatype Mixer = Mixer(s: seq<bv32>, l: seq<bv32>, a: bv32, b: bv32)

  function NewA(x: bv32, a: bv32, b: bv32): bv32 {
    Rol(x + a + b, 3)
  }

  function NewB(x: bv32, a: bv32, b: bv32): bv32 {
    Rol(x + a + b, a + b)
  }

  /** Mixes word i of one array and word j of the other. */
  function MixAt(m: Mixer, i: nat, j: nat): (m': Mixer)
    requires i < |m.s| && j < |m.l|
    ensures |m'.s| == |m.s| && |m'.l| == |m.l|
  {
    var a := NewA(m.s[i], m.a, m.b);
    var b := NewB(m.l[j], a, m.b);
    Mixer(m.s[i := a], m.l[j := b], a, b)
  }

  /** `v` steps, each array taken cyclically. */
  function Mixed(m: Mixer, v: nat): (m': Mixer)
    requires m.s != [] && m.l != []
    ensures |m'.s| == |m.s| && |m'.l| == |m.l|
  {
    if v == 0 then m else MixAt(Mixed(m, v - 1), (v - 1) % |m.s|, (v - 1) % |m.l|)
  }

  /** Step v + 1 mixes word i of the first array. */
  predicate MixesFirst(m: Mixer, v: nat, i: nat)
    requires m.s != [] && m.l != []
  {
    i < |m.s| && Mixed(m, v + 1) == MixAt(Mixed(m, v), i, v % |m.l|)
  }

  predicate MixesSecond(m: Mixer, v: nat, j: nat)
    requires m.s != [] && m.l != []
  {
    j < |m.l| && Mixed(m, v + 1) == MixAt(Mixed(m, v), v % |m.s|, j)
  }

  lemma MixesBoth(m: Mixer, v: nat)
    requires m.s != [] && m.l != []
    ensures MixesFirst(m, v, v % |m.s|) && MixesSecond(m, v, v % |m.l|)
  {
  }

  /** Among the 3 * max(t, c) steps every word of the first array is mixed three times, once in each pass over it. */
  lemma EveryWordThrice(m: Mixer, pass: nat, i: nat, v: nat)
    requires m.s != [] && m.l != [] && pass < 3 && i < |m.s| && v == pass * |m.s| + i
    ensures v < 3 * Max(|m.s|, |m.l|) && MixesFirst(m, v, i)
  {
    StepOfPass(pass, |m.s|, i, Max(|m.s|, |m.l|));
    MixesBoth(m, v);
  }

  /** And so is every word of the second. */
  lemma EveryKeyWordThrice(m: Mixer, pass: nat, j: nat, v: nat)
    requires m.s != [] && m.l != [] && pass < 3 && j < |m.l| && v == pass * |m.l| + j
    ensures v < 3 * Max(|m.s|, |m.l|) && MixesSecond(m, v, j)
  {
    StepOfPass(pass, |m.l|, j, Max(|m.s|, |m.l|));
    MixesBoth(m, v);
  }

  lemma StepOfPass(pass: nat, t: nat, i: nat, most: nat)
    requires i < t <= most && pass < 3
    ensures pass * t + i < 3 * most && (pass * t + i) % t == i
  {
    ModOf(pass, t, i);
    Monotone(pass, 2, t);
  }

  function Max(a: nat, b: nat): nat {
    if a > b then a else b
  }

  method Mix(s: array<bv32>, l: array<bv32>, c: nat)
    requires s != l && s.Length > 0 && 0 < c <= l.Length
    modifies s, l
    ensures s[..] == Mixed(Mixer(old(s[..]), old(l[..c]), 0, 0), 3 * Max(s.Length, c)).s
  {
    var a, b := 0, 0;
    var i, j := 0, 0;
    ghost var m := Mixer(s[..], l[..c], 0, 0);
    var steps := 3 * Max(s.Length, c);
    for v := 0 to steps
      invariant i == v % s.Length && j == v % c
      invariant Mixer(s[..], l[..c], a, b) == Mixed(m, v)
    {
      a := NewA(s[i], a, b);
      b := NewB(l[j], a, b);
      s[i] := a;
      l[j] := b;
      NextMod(v, s.Length);
      NextMod(v, c);
      i := i + 1;
      if i == s.Length {
        i := 0;
      }
      j := j + 1;
      if j == c {
        j := 0;
      }
    }
  }

  /** The key as zero-padded little-endian words. */
  function KeyWords(key: seq<Byte>): (l: seq<bv32>)
    ensures |l| == WordCount(|key|)
  {
    seq(WordCount(|key|), m requires 0 <= m < WordCount(|key|) => KeyWord(key, m))
  }

  /** The round keys of a cipher that uses `t` of them. */
  function Expanded(key: seq<Byte>, t: nat): (k: seq<bv32>)
    requires 0 < |key| && 0 < t <= 50
    ensures |k| == t
  {
    Mixed(Mixer(Stab()[..t], KeyWords(key), 0, 0), 3 * Max(t, WordCount(|key|))).s
  }

  method Expand(key: seq<Byte>, t: nat) returns (k: array<bv32>)
    requires 8 <= |key| <= 128 && 0 < t <= 50
    ensures fresh(k) && k[..] == Expanded(key, t)
  {
    var l := new bv32[64];
    var c := LoadKey(key, l);
    k := CopyStab(t);
    LoadedAll(key, l[..], c);
    Mix(k, l, c);
  }

  lemma LoadedAll(key: seq<Byte>, l: seq<bv32>, c: nat)
    requires c == WordCount(|key|) && Loaded(key, l, c)
    ensures l[..c] == KeyWords(key)
  {
  }

  method CopyStab(t: nat) returns (s: array<bv32>)
    requires 0 < t <= 50
    ensures fresh(s) && s[..] == Stab()[..t]
  {
    var stab := Stab();
    s := new bv32[t](i requires 0 <= i < t => stab[i]);
  }

  /* ---- The step both ciphers are made of ---- */

  /** A word is masked, rotated by a data-dependent amount and given a key word; and the way back. */
  function Stir(x: bv32, t: bv32, u: bv32, k: bv32): bv32 {
    Add(Rol(Xor32(x, t), u), k)
  }

  function Unstir(y: bv32, t: bv32, u: bv32, k: bv32): bv32 {
    Xor32(Ror(Sub(y, k), u), t)
  }

  function StirBy<W>(o: Operations<W>, x: W, t: W, u: W, k: W): W {
    o.add(o.rol(o.xor(x, t), u), k)
  }

  function UnstirBy<W>(o: Operations<W>, y: W, t: W, u: W, k: W): W {
    o.xor(o.ror(o.sub(y, k), u), t)
  }

  lemma StirReversible<W(!new)>(o: Operations<W>, x: W, t: W, u: W, k: W)
    requires Reversible(o)
    ensures UnstirBy(o, StirBy(o, x, t, u, k), t, u, k) == x
  {
  }

  lemma StirIs(x: bv32, t: bv32, u: bv32, k: bv32)
    ensures Stir(x, t, u, k) == StirBy(Operations32(), x, t, u, k)
    ensures Unstir(x, t, u, k) == UnstirBy(Operations32(), x, t, u, k)
  {
  }

  lemma UnstirStir(x: bv32, t: bv32, u: bv32, k: bv32)
    ensures Unstir(Stir(x, t, u, k), t, u, k) == x
  {
    Reversible32();
    StirReversible(Operations32(), x, t, u, k);
    StirIs(x, t, u, k);
    StirIs(Stir(x, t, u, k), t, u, k);
  }
}

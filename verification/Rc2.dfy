/**
  RC2 (`NXTservices/rc2.c`; RFC 2268).  The source keeps the four 16-bit words of a block
  in 32-bit registers and masks only before a rotation, so that after it garbage stands
  above bit 16.
 */
module Rc2 {
  import opened Words
  import opened Rc2Tables

  const ROUNDS := 16

  /* ---- RFC 2268 sections 3 and 4, over any words ---- */

  /**
    `mixed(y, z, w, k)` is what a word is increased by; `up(s, x, t)` adds and rotates left
    by s places, `down` takes that back; `pick(K, x)` is the key word selected by x.
   */
  datatype Algebra<!W> = Algebra(
    mixed: (W, W, W, W) -> W, up: (nat, W, W) -> W, down: (nat, W, W) -> W,
    add: (W, W) -> W, sub: (W, W) -> W, pick: (seq<W>, W) -> W)

  predicate Shift(s: nat) {
    s == 1 || s == 2 || s == 3 || s == 5
  }

  ghost predicate Reversing<W(!new)>(o: Algebra<W>) {
    && (forall s, x, t | Shift(s) :: o.down(s, o.up(s, x, t), t) == x)
    && (forall x, y :: o.sub(o.add(x, y), y) == x)
  }

  function Mix<W>(o: Algebra<W>, k: Quad<W>, q: Quad<W>): Quad<W> {
    var a := o.up(1, q.a, o.mixed(q.b, q.c, q.d, k.a));
    var b := o.up(2, q.b, o.mixed(q.c, q.d, a, k.b));
    var c := o.up(3, q.c, o.mixed(q.d, a, b, k.c));
    Quad(a, b, c, o.up(5, q.d, o.mixed(a, b, c, k.d)))
  }

  function Unmix<W>(o: Algebra<W>, k: Quad<W>, q: Quad<W>): Quad<W> {
    var d := o.down(5, q.d, o.mixed(q.a, q.b, q.c, k.d));
    var c := o.down(3, q.c, o.mixed(d, q.a, q.b, k.c));
    var b := o.down(2, q.b, o.mixed(c, d, q.a, k.b));
    Quad(o.down(1, q.a, o.mixed(b, c, d, k.a)), b, c, d)
  }

  function Mash<W>(o: Algebra<W>, ks: seq<W>, q: Quad<W>): Quad<W> {
    var a := o.add(q.a, o.pick(ks, q.d));
    var b := o.add(q.b, o.pick(ks, a));
    var c := o.add(q.c, o.pick(ks, b));
    Quad(a, b, c, o.add(q.d, o.pick(ks, c)))
  }

  function Unmash<W>(o: Algebra<W>, ks: seq<W>, q: Quad<W>): Quad<W> {
    var d := o.sub(q.d, o.pick(ks, q.c));
    var c := o.sub(q.c, o.pick(ks, q.b));
    var b := o.sub(q.b, o.pick(ks, q.a));
    Quad(o.sub(q.a, o.pick(ks, d)), b, c, d)
  }

  /** The four key words of round i. */
  function RoundKey<W>(ks: seq<W>, i: nat): Quad<W>
    requires 4 * i + 4 <= |ks|
  {
    Quad(ks[4 * i], ks[4 * i + 1], ks[4 * i + 2], ks[4 * i + 3])
  }

  /** Mixing rounds i to j - 1. */
  function Mixes<W>(o: Algebra<W>, ks: seq<W>, i: nat, j: nat, q: Quad<W>): Quad<W>
    requires i <= j && 4 * j <= |ks|
    decreases j - i
  {
    if i == j then q else Mix(o, RoundKey(ks, j - 1), Mixes(o, ks, i, j - 1, q))
  }

  /** Five mixing rounds, a mashing round, six mixing rounds, a mashing round, five mixing rounds. */
  function Rfc<W>(o: Algebra<W>, ks: seq<W>, q: Quad<W>): Quad<W>
    requires |ks| == 64
  {
    Mixes(o, ks, 11, 16, Mash(o, ks, Mixes(o, ks, 5, 11, Mash(o, ks, Mixes(o, ks, 0, 5, q)))))
  }

  /** The loop of the source: mash at the end of rounds 4 and 10. */
  function Rounds<W>(o: Algebra<W>, ks: seq<W>, n: nat, q: Quad<W>): Quad<W>
    requires 4 * n <= |ks|
  {
    if n == 0 then q else Round(o, ks, n - 1, Rounds(o, ks, n - 1, q))
  }

  function Round<W>(o: Algebra<W>, ks: seq<W>, i: nat, q: Quad<W>): Quad<W>
    requires 4 * i + 4 <= |ks|
  {
    var m := Mix(o, RoundKey(ks, i), q);
    if i == 4 || i == 10 then Mash(o, ks, m) else m
  }

  function Unround<W>(o: Algebra<W>, ks: seq<W>, i: nat, q: Quad<W>): Quad<W>
    requires 4 * i + 4 <= |ks|
  {
    Unmix(o, RoundKey(ks, i), if i == 4 || i == 10 then Unmash(o, ks, q) else q)
  }

  function Unrounds<W>(o: Algebra<W>, ks: seq<W>, n: nat, q: Quad<W>): Quad<W>
    requires 4 * n <= |ks|
  {
    if n == 0 then q else Unrounds(o, ks, n - 1, Unround(o, ks, n - 1, q))
  }

  /** Between mashing rounds the loop only mixes. */
  lemma {:induction false} RoundsAreMixes<W>(o: Algebra<W>, ks: seq<W>, i: nat, j: nat, q: Quad<W>)
    requires i <= j && 4 * j <= |ks| && !(i <= 4 < j) && !(i <= 10 < j)
    ensures Rounds(o, ks, j, q) == Mixes(o, ks, i, j, Rounds(o, ks, i, q))
    decreases j - i
  {
    if i < j {
      RoundsAreMixes(o, ks, i, j - 1, q);
    }
  }

  lemma MixThenMash<W>(o: Algebra<W>, ks: seq<W>, i: nat, j: nat, q: Quad<W>)
    requires i <= j && 4 * j + 4 <= |ks| && (j == 4 || j == 10) && !(i <= 4 < j) && !(i <= 10 < j)
    ensures Rounds(o, ks, j + 1, q) == Mash(o, ks, Mixes(o, ks, i, j + 1, Rounds(o, ks, i, q)))
  {
    RoundsAreMixes(o, ks, i, j, q);
  }

  lemma RoundsAreRfc<W>(o: Algebra<W>, ks: seq<W>, n: nat, q: Quad<W>)
    requires |ks| == 64 && n == ROUNDS
    ensures Rounds(o, ks, n, q) == Rfc(o, ks, q)
  {
    MixThenMash(o, ks, 0, 4, q);
    MixThenMash(o, ks, 5, 10, q);
    RoundsAreMixes(o, ks, 11, n, q);
  }

  lemma UnmixMix<W(!new)>(o: Algebra<W>, ks: seq<W>, k: Quad<W>, q: Quad<W>)
    requires Reversing(o)
    ensures Unmix(o, k, Mix(o, k, q)) == q && Unmash(o, ks, Mash(o, ks, q)) == q
  {
    assert Shift(1) && Shift(2) && Shift(3) && Shift(5);
  }

  lemma {:induction false} UnroundsRounds<W(!new)>(o: Algebra<W>, ks: seq<W>, n: nat, q: Quad<W>)
    requires Reversing(o) && 4 * n <= |ks|
    ensures Unrounds(o, ks, n, Rounds(o, ks, n, q)) == q
  {
    if n > 0 {
      var p := Rounds(o, ks, n - 1, q);
      UnmixMix(o, ks, RoundKey(ks, n - 1), p);
      UnmixMix(o, ks, RoundKey(ks, n - 1), Mix(o, RoundKey(ks, n - 1), p));
      UnroundsRounds(o, ks, n - 1, q);
    }
  }

  /* ---- The instance: 16-bit words ---- */

  function Mixed16(y: bv16, z: bv16, w: bv16, k: bv16): bv16 {
    (y & !w) + (z & w) + k
  }

  function Rol16(s: nat, x: bv16): bv16 {
    if s == 1 then (x << 1) | (x >> 15) else if s == 2 then (x << 2) | (x >> 14)
    else if s == 3 then (x << 3) | (x >> 13) else (x << 5) | (x >> 11)
  }

  function Ror16(s: nat, x: bv16): bv16 {
    if s == 1 then (x << 15) | (x >> 1) else if s == 2 then (x << 14) | (x >> 2)
    else if s == 3 then (x << 13) | (x >> 3) else (x << 11) | (x >> 5)
  }

  function Add16(x: bv16, y: bv16): bv16 {
    x + y
  }

  function Sub16(x: bv16, y: bv16): bv16 {
    x - y
  }

  function Up16(s: nat, x: bv16, t: bv16): bv16 {
    Rol16(s, Add16(x, t))
  }

  function Down16(s: nat, x: bv16, t: bv16): bv16 {
    Sub16(Ror16(s, x), t)
  }

  /** The number the six low bits of a byte denote. */
  function LowSix(b: bv8): (i: nat)
    ensures i < 64
  {
    (if b & 1 == 0 then 0 else 1) + (if b & 2 == 0 then 0 else 2) + (if b & 4 == 0 then 0 else 4) +
    (if b & 8 == 0 then 0 else 8) + (if b & 16 == 0 then 0 else 16) + (if b & 32 == 0 then 0 else 32)
  }

  function Index16(x: bv16): bv8 {
    (x & 63) as bv8
  }

  function Pick16(ks: seq<bv16>, x: bv16): bv16 {
    if |ks| == 64 then ks[LowSix(Index16(x))] else 0
  }

  function Words16(): Algebra<bv16> {
    Algebra(Mixed16, Up16, Down16, Add16, Sub16, Pick16)
  }

  lemma RotationsCancel(x: bv16)
    ensures Ror16(1, (x << 1) | (x >> 15)) == x && Ror16(2, (x << 2) | (x >> 14)) == x
    ensures Ror16(3, (x << 3) | (x >> 13)) == x && Ror16(5, (x << 5) | (x >> 11)) == x
  {
  }

  lemma Ror16Rol16(s: nat, x: bv16)
    requires Shift(s)
    ensures Ror16(s, Rol16(s, x)) == x
  {
    RotationsCancel(x);
  }

  lemma Sub16Add16(x: bv16, y: bv16)
    ensures Sub16(Add16(x, y), y) == x
  {
    assert Sub16(x + y, y) == x;
  }

  lemma DownUp(s: nat, x: bv16, t: bv16)
    requires Shift(s)
    ensures Down16(s, Up16(s, x, t), t) == x
  {
    Ror16Rol16(s, Add16(x, t));
    Sub16Add16(x, t);
  }

  lemma Words16Reversing()
    ensures Reversing(Words16())
  {
    forall s: nat, x: bv16, t: bv16 | Shift(s) {
      DownUp(s, x, t);
    }
    forall x: bv16, y: bv16 {
      Sub16Add16(x, y);
    }
  }

  /* ---- 32-bit registers ---- */

  /** The 16 bits of a register that count. */
  function Low(x: bv32): bv16 {
    (x & 0xFFFF) as bv16
  }

  function Wide(x: bv16): bv32 {
    x as bv32
  }

  function Masked(x: bv32): bv32 {
    x & 0xFFFF
  }

  function WideSum(x: bv32, y: bv32, z: bv32, w: bv32, k: bv32): bv32 {
    x + (y & !w) + (z & w) + k
  }

  function WideDifference(x: bv32, y: bv32, z: bv32, w: bv32, k: bv32): bv32 {
    x - ((y & !w) + (z & w) + k)
  }

  function WideRol(s: nat, x: bv32): bv32 {
    if s == 1 then (x << 1) | (x >> 15) else if s == 2 then (x << 2) | (x >> 14)
    else if s == 3 then (x << 3) | (x >> 13) else (x << 5) | (x >> 11)
  }

  function WideRor(s: nat, x: bv32): bv32 {
    if s == 1 then (x << 15) | (x >> 1) else if s == 2 then (x << 14) | (x >> 2)
    else if s == 3 then (x << 13) | (x >> 3) else (x << 11) | (x >> 5)
  }

  function WideIndex(x: bv32): bv8 {
    (x & 63) as bv8
  }

  lemma LowIs(x: bv32)
    ensures Low(x) == (x & 0xFFFF) as bv16
  {
  }

  lemma LowMasked(x: bv32)
    ensures Masked(x) == Wide(Low(x)) && Low(Wide(Low(x))) == Low(x)
  {
  }

  lemma LowWide(x: bv16)
    ensures Low(Wide(x)) == x
  {
  }

  function AddMixed(x: bv16, y: bv16, z: bv16, w: bv16, k: bv16): bv16 {
    x + ((y & !w) + (z & w) + k)
  }

  function SubMixed(x: bv16, y: bv16, z: bv16, w: bv16, k: bv16): bv16 {
    x - ((y & !w) + (z & w) + k)
  }

  lemma RawAdd(x: bv16, y: bv16, z: bv16, w: bv16, k: bv16)
    ensures Add16(x, (y & !w) + (z & w) + k) == AddMixed(x, y, z, w, k)
  {
  }

  lemma RawSub(x: bv16, y: bv16, z: bv16, w: bv16, k: bv16)
    ensures Sub16(x, (y & !w) + (z & w) + k) == SubMixed(x, y, z, w, k)
  {
  }

  lemma RawMixed(y: bv16, z: bv16, w: bv16, k: bv16)
    ensures Mixed16(y, z, w, k) == (y & !w) + (z & w) + k
  {
  }

  lemma MixedIs(x: bv16, y: bv16, z: bv16, w: bv16, k: bv16)
    ensures Add16(x, Mixed16(y, z, w, k)) == AddMixed(x, y, z, w, k)
    ensures Sub16(x, Mixed16(y, z, w, k)) == SubMixed(x, y, z, w, k)
  {
    RawAdd(x, y, z, w, k);
    RawSub(x, y, z, w, k);
    RawMixed(y, z, w, k);
  }

  lemma RawSum(x: bv32, y: bv32, z: bv32, w: bv32, k: bv32)
    ensures Low(x + (y & !w) + (z & w) + k)
         == AddMixed((x & 0xFFFF) as bv16, (y & 0xFFFF) as bv16, (z & 0xFFFF) as bv16, (w & 0xFFFF) as bv16, (k & 0xFFFF) as bv16)
  {
  }

  lemma RawDifference(x: bv32, y: bv32, z: bv32, w: bv32, k: bv32)
    ensures Low(x - ((y & !w) + (z & w) + k))
         == SubMixed((x & 0xFFFF) as bv16, (y & 0xFFFF) as bv16, (z & 0xFFFF) as bv16, (w & 0xFFFF) as bv16, (k & 0xFFFF) as bv16)
  {
  }

  lemma WideSumIs(x: bv32, y: bv32, z: bv32, w: bv32, k: bv32)
    ensures WideSum(x, y, z, w, k) == x + (y & !w) + (z & w) + k
    ensures WideDifference(x, y, z, w, k) == x - ((y & !w) + (z & w) + k)
  {
  }

  /** The low halves of sums depend on the low halves of the summands only. */
  lemma LowSums(x: bv32, y: bv32, z: bv32, w: bv32, k: bv32)
    ensures Low(WideSum(x, y, z, w, k)) == Add16(Low(x), Mixed16(Low(y), Low(z), Low(w), Low(k)))
    ensures Low(WideDifference(x, y, z, w, k)) == Sub16(Low(x), Mixed16(Low(y), Low(z), Low(w), Low(k)))
  {
    RawSum(x, y, z, w, k);
    RawDifference(x, y, z, w, k);
    WideSumIs(x, y, z, w, k);
    LowIs(x);
    LowIs(y);
    LowIs(z);
    LowIs(w);
    LowIs(k);
    MixedIs(Low(x), Low(y), Low(z), Low(w), Low(k));
  }

  lemma RotationsBy1(x: bv16)
    ensures Low(WideRol(1, x as bv32)) == Rol16(1, x) && Low(WideRor(1, x as bv32)) == Ror16(1, x)
  {
  }

  lemma RotationsBy2(x: bv16)
    ensures Low(WideRol(2, x as bv32)) == Rol16(2, x) && Low(WideRor(2, x as bv32)) == Ror16(2, x)
  {
  }

  lemma RotationsBy3(x: bv16)
    ensures Low(WideRol(3, x as bv32)) == Rol16(3, x) && Low(WideRor(3, x as bv32)) == Ror16(3, x)
  {
  }

  lemma RotationsBy5(x: bv16)
    ensures Low(WideRol(5, x as bv32)) == Rol16(5, x) && Low(WideRor(5, x as bv32)) == Ror16(5, x)
  {
  }

  lemma WideIs(x: bv16)
    ensures Wide(x) == x as bv32
  {
  }

  lemma LowRotations(s: nat, x: bv16)
    requires Shift(s)
    ensures Low(WideRol(s, Wide(x))) == Rol16(s, x) && Low(WideRor(s, Wide(x))) == Ror16(s, x)
  {
    RotationsBy1(x);
    RotationsBy2(x);
    RotationsBy3(x);
    RotationsBy5(x);
    WideIs(x);
  }

  /** One step on a register: the garbage it leaves does not reach the low half of any later value. */
  function WideUp(s: nat, x: bv32, y: bv32, z: bv32, w: bv32, k: bv32): bv32 {
    WideRol(s, Masked(WideSum(x, y, z, w, k)))
  }

  function WideDown(s: nat, x: bv32, y: bv32, z: bv32, w: bv32, k: bv32): bv32 {
    Masked(WideDifference(WideRor(s, x), y, z, w, k))
  }

  lemma LowUp(s: nat, x: bv32, y: bv32, z: bv32, w: bv32, k: bv32)
    requires Shift(s)
    ensures Low(WideUp(s, x, y, z, w, k)) == Up16(s, Low(x), Mixed16(Low(y), Low(z), Low(w), Low(k)))
  {
    var sum := WideSum(x, y, z, w, k);
    LowSums(x, y, z, w, k);
    LowMasked(sum);
    LowRotations(s, Low(sum));
  }

  lemma LowDown(s: nat, x: bv16, y: bv32, z: bv32, w: bv32, k: bv32)
    requires Shift(s)
    ensures WideDown(s, Wide(x), y, z, w, k) == Wide(Down16(s, x, Mixed16(Low(y), Low(z), Low(w), Low(k))))
  {
    var r := WideRor(s, Wide(x));
    LowSums(r, y, z, w, k);
    LowMasked(WideDifference(r, y, z, w, k));
    LowRotations(s, x);
  }

  function WideAdd(x: bv32, y: bv32): bv32 {
    Masked(x + y)
  }

  function WideSub(x: bv32, y: bv32): bv32 {
    Masked(x - y)
  }

  lemma RawLowAdd(x: bv32, y: bv32)
    ensures Low(x + y) == Add16((x & 0xFFFF) as bv16, (y & 0xFFFF) as bv16)
  {
  }

  lemma RawLowSub(x: bv32, y: bv32)
    ensures Low(x - y) == Sub16((x & 0xFFFF) as bv16, (y & 0xFFFF) as bv16)
  {
  }

  lemma LowAddSub(x: bv32, y: bv32)
    ensures WideAdd(x, y) == Wide(Add16(Low(x), Low(y)))
    ensures WideSub(x, y) == Wide(Sub16(Low(x), Low(y)))
  {
    RawLowAdd(x, y);
    RawLowSub(x, y);
    LowIs(x);
    LowIs(y);
    LowMasked(x + y);
    LowMasked(x - y);
  }

  lemma IndexIs(x: bv32)
    ensures WideIndex(x) == Index16((x & 0xFFFF) as bv16)
  {
  }

  /** The garbage does not reach the index of a lookup either. */
  lemma IndexOfLow(x: bv32)
    ensures WideIndex(x) == Index16(Low(x))
  {
    IndexIs(x);
    LowIs(x);
  }

  function LowQuad(v: Quad<bv32>): Quad<bv16> {
    Quad(Low(v.a), Low(v.b), Low(v.c), Low(v.d))
  }

  function WideQuad(q: Quad<bv16>): Quad<bv32> {
    Quad(Wide(q.a), Wide(q.b), Wide(q.c), Wide(q.d))
  }

  function LowKeys(xkey: seq<bv32>): (ks: seq<bv16>)
    ensures |ks| == |xkey|
  {
    seq(|xkey|, i requires 0 <= i < |xkey| => Low(xkey[i]))
  }

  lemma LowRoundKey(xkey: seq<bv32>, i: nat)
    requires 4 * i + 4 <= |xkey|
    ensures RoundKey(LowKeys(xkey), i) == LowQuad(RoundKey(xkey, i))
  {
  }

  /** `xkey[x & 63]`. */
  method Lookup(xkey: seq<bv32>, x: bv32, ghost o: Algebra<bv16>) returns (k: bv32)
    requires |xkey| == 64 && o == Words16()
    ensures Low(k) == o.pick(LowKeys(xkey), Low(x))
  {
    k := xkey[LowSix(WideIndex(x))];
    IndexOfLow(x);
    PickIs(LowKeys(xkey), Low(x));
  }

  lemma PickIs(ks: seq<bv16>, x: bv16)
    requires |ks| == 64
    ensures Pick16(ks, x) == ks[LowSix(Index16(x))]
  {
  }

  method MixRegisters(v: Quad<bv32>, k: Quad<bv32>, ghost o: Algebra<bv16>) returns (u: Quad<bv32>)
    requires o == Words16()
    ensures LowQuad(u) == Mix(o, LowQuad(k), LowQuad(v))
  {
    var x10 := StepUp(1, v.a, v.b, v.c, v.d, k.a, o);
    var x32 := StepUp(2, v.b, v.c, v.d, x10, k.b, o);
    var x54 := StepUp(3, v.c, v.d, x10, x32, k.c, o);
    var x76 := StepUp(5, v.d, x10, x32, x54, k.d, o);
    u := Quad(x10, x32, x54, x76);
  }

  method StepUp(s: nat, x: bv32, y: bv32, z: bv32, w: bv32, k: bv32, ghost o: Algebra<bv16>) returns (r: bv32)
    requires Shift(s) && o == Words16()
    ensures Low(r) == o.up(s, Low(x), o.mixed(Low(y), Low(z), Low(w), Low(k)))
  {
    r := WideUp(s, x, y, z, w, k);
    LowUp(s, x, y, z, w, k);
  }

  method StepDown(s: nat, x: bv32, y: bv32, z: bv32, w: bv32, k: bv32, ghost x16: bv16, ghost o: Algebra<bv16>) returns (r: bv32)
    requires Shift(s) && o == Words16() && x == Wide(x16)
    ensures r == Wide(o.down(s, x16, o.mixed(Low(y), Low(z), Low(w), Low(k))))
  {
    r := WideDown(s, x, y, z, w, k);
    LowDown(s, x16, y, z, w, k);
  }

  method MashRegisters(v: Quad<bv32>, xkey: seq<bv32>, ghost o: Algebra<bv16>) returns (u: Quad<bv32>)
    requires |xkey| == 64 && o == Words16()
    ensures LowQuad(u) == Mash(o, LowKeys(xkey), LowQuad(v))
  {
    var x10 := StepAdd(v.a, v.d, xkey, o);
    var x32 := StepAdd(v.b, x10, xkey, o);
    var x54 := StepAdd(v.c, x32, xkey, o);
    var x76 := StepAdd(v.d, x54, xkey, o);
    u := Quad(x10, x32, x54, x76);
  }

  method StepAdd(x: bv32, y: bv32, xkey: seq<bv32>, ghost o: Algebra<bv16>) returns (r: bv32)
    requires |xkey| == 64 && o == Words16()
    ensures Low(r) == o.add(Low(x), o.pick(LowKeys(xkey), Low(y)))
  {
    var k := Lookup(xkey, y, o);
    r := WideAdd(x, k);
    LowAddSub(x, k);
    LowWide(Add16(Low(x), Low(k)));
  }

  method StepSub(x: bv32, y: bv32, xkey: seq<bv32>, ghost o: Algebra<bv16>) returns (r: bv32)
    requires |xkey| == 64 && o == Words16()
    ensures r == Wide(o.sub(Low(x), o.pick(LowKeys(xkey), Low(y))))
  {
    var k := Lookup(xkey, y, o);
    r := WideSub(x, k);
    LowAddSub(x, k);
  }

  lemma LowWideQuad(q: Quad<bv16>)
    ensures LowQuad(WideQuad(q)) == q
  {
    LowWide(q.a);
    LowWide(q.b);
    LowWide(q.c);
    LowWide(q.d);
  }

  method UnmixRegisters(v: Quad<bv32>, k: Quad<bv32>, ghost q: Quad<bv16>, ghost o: Algebra<bv16>) returns (u: Quad<bv32>)
    requires o == Words16() && v == WideQuad(q)
    ensures u == WideQuad(Unmix(o, LowQuad(k), q))
  {
    LowWideQuad(q);
    var x76 := StepDown(5, v.d, v.a, v.b, v.c, k.d, q.d, o);
    ghost var p := Unmix(o, LowQuad(k), q);
    LowWide(p.d);
    var x54 := StepDown(3, v.c, x76, v.a, v.b, k.c, q.c, o);
    LowWide(p.c);
    var x32 := StepDown(2, v.b, x54, x76, v.a, k.b, q.b, o);
    LowWide(p.b);
    var x10 := StepDown(1, v.a, x32, x54, x76, k.a, q.a, o);
    u := Quad(x10, x32, x54, x76);
  }

  method UnmashRegisters(v: Quad<bv32>, xkey: seq<bv32>, ghost q: Quad<bv16>, ghost o: Algebra<bv16>) returns (u: Quad<bv32>)
    requires |xkey| == 64 && o == Words16() && v == WideQuad(q)
    ensures u == WideQuad(Unmash(o, LowKeys(xkey), q))
  {
    LowWideQuad(q);
    var x76 := StepSub(v.d, v.c, xkey, o);
    var x54 := StepSub(v.c, v.b, xkey, o);
    var x32 := StepSub(v.b, v.a, xkey, o);
    LowWide(o.sub(q.d, o.pick(LowKeys(xkey), q.c)));
    var x10 := StepSub(v.a, x76, xkey, o);
    u := Quad(x10, x32, x54, x76);
  }

  /* ---- The loops ---- */

  /*
    What the loops keep.  Both are stated of every state equal to the given one, so that the recursion is unfolded
    in the rounds, which name it, and not in the loops.
   */

  /** The low halves of the registers are the state after `n` rounds. */
  ghost predicate Done(o: Algebra<bv16>, ks: seq<bv16>, n: nat, q0: Quad<bv16>, v: Quad<bv32>) {
    4 * n <= |ks| && forall q: Quad<bv16> | q == q0 :: LowQuad(v) == Rounds(o, ks, n, q)
  }

  /** Undoing rounds n - 1 down to 0 from `q` gives `goal`. */
  ghost predicate Undoing(o: Algebra<bv16>, ks: seq<bv16>, n: nat, q: Quad<bv16>, goal: Quad<bv16>) {
    4 * n <= |ks| && forall p: Quad<bv16> | p == q :: Unrounds(o, ks, n, p) == goal
  }

  lemma RoundDone(o: Algebra<bv16>, ks: seq<bv16>, i: nat, q0: Quad<bv16>, v: Quad<bv32>, u: Quad<bv32>)
    requires 4 * i + 4 <= |ks| && Done(o, ks, i, q0, v) && LowQuad(u) == Round(o, ks, i, LowQuad(v))
    ensures Done(o, ks, i + 1, q0, u)
  {
    assert LowQuad(v) == Rounds(o, ks, i, q0);
  }

  lemma RoundUndone(o: Algebra<bv16>, ks: seq<bv16>, i: nat, q: Quad<bv16>, goal: Quad<bv16>)
    requires Undoing(o, ks, i + 1, q, goal)
    ensures Undoing(o, ks, i, Unround(o, ks, i, q), goal)
  {
    assert Unrounds(o, ks, i + 1, q) == goal;
  }

  lemma NothingDone(o: Algebra<bv16>, ks: seq<bv16>, v: Quad<bv32>)
    ensures Done(o, ks, 0, LowQuad(v), v)
  {
  }

  method EncryptRound(v: Quad<bv32>, xkey: seq<bv32>, i: nat, ghost q0: Quad<bv16>, ghost o: Algebra<bv16>)
    returns (u: Quad<bv32>)
    requires |xkey| == 64 && i < ROUNDS && o == Words16() && Done(o, LowKeys(xkey), i, q0, v)
    ensures Done(o, LowKeys(xkey), i + 1, q0, u)
  {
    u := MixRegisters(v, RoundKey(xkey, i), o);
    LowRoundKey(xkey, i);
    if i == 4 || i == 10 {
      u := MashRegisters(u, xkey, o);
    }
    RoundDone(o, LowKeys(xkey), i, q0, v, u);
  }

  method DecryptRound(v: Quad<bv32>, xkey: seq<bv32>, i: nat, ghost q: Quad<bv16>, ghost goal: Quad<bv16>, ghost o: Algebra<bv16>)
    returns (u: Quad<bv32>, ghost p: Quad<bv16>)
    requires |xkey| == 64 && i < ROUNDS && o == Words16()
    requires v == WideQuad(q) && Undoing(o, LowKeys(xkey), i + 1, q, goal)
    ensures u == WideQuad(p) && Undoing(o, LowKeys(xkey), i, p, goal)
  {
    u, p := v, q;
    if i == 4 || i == 10 {
      u := UnmashRegisters(v, xkey, q, o);
      p := Unmash(o, LowKeys(xkey), q);
    }
    u := UnmixRegisters(u, RoundKey(xkey, i), p, o);
    LowRoundKey(xkey, i);
    p := Unmix(o, LowQuad(RoundKey(xkey, i)), p);
    RoundUndone(o, LowKeys(xkey), i, q, goal);
  }

  method EncryptRegisters(v0: Quad<bv32>, xkey: seq<bv32>) returns (v: Quad<bv32>)
    requires |xkey| == 64
    ensures Done(Words16(), LowKeys(xkey), ROUNDS, LowQuad(v0), v)
  {
    v := v0;
    NothingDone(Words16(), LowKeys(xkey), v);
    for i := 0 to 16
      invariant Done(Words16(), LowKeys(xkey), i, LowQuad(v0), v)
    {
      v := EncryptRound(v, xkey, i, LowQuad(v0), Words16());
    }
  }

  lemma NothingToUndo(o: Algebra<bv16>, ks: seq<bv16>, q: Quad<bv16>, goal: Quad<bv16>)
    requires Undoing(o, ks, 0, q, goal)
    ensures q == goal
  {
    assert Unrounds(o, ks, 0, q) == goal;
  }

  method DecryptRegisters(v0: Quad<bv32>, xkey: seq<bv32>, ghost q0: Quad<bv16>, ghost goal: Quad<bv16>)
    returns (v: Quad<bv32>)
    requires |xkey| == 64
    requires v0 == WideQuad(q0) && Undoing(Words16(), LowKeys(xkey), ROUNDS, q0, goal)
    ensures v == WideQuad(goal)
  {
    v := v0;
    ghost var q := q0;
    for i := 16 downto 0
      invariant v == WideQuad(q) && Undoing(Words16(), LowKeys(xkey), i, q, goal)
    {
      v, q := DecryptRound(v, xkey, i, q, goal, Words16());
    }
    NothingToUndo(Words16(), LowKeys(xkey), q, goal);
  }

  /* ---- Blocks ---- */

  /** Two bytes as a word, the first of them low. */
  function Join16(lo: Byte, hi: Byte): bv16 {
    ((hi as bv16) << 8) | (lo as bv16)
  }

  function LoByte(x: bv16): Byte {
    (x & 255) as bv8
  }

  function HiByte(x: bv16): Byte {
    ((x >> 8) & 255) as bv8
  }

  lemma SplitJoin(x: bv16, lo: Byte, hi: Byte)
    ensures Join16(LoByte(x), HiByte(x)) == x
    ensures LoByte(Join16(lo, hi)) == lo && HiByte(Join16(lo, hi)) == hi
  {
  }

  function LoadBlock(p: seq<Byte>): Quad<bv16>
    requires |p| == 8
  {
    Quad(Join16(p[0], p[1]), Join16(p[2], p[3]), Join16(p[4], p[5]), Join16(p[6], p[7]))
  }

  function StoreBlock(q: Quad<bv16>): (p: seq<Byte>)
    ensures |p| == 8
  {
    [LoByte(q.a), HiByte(q.a), LoByte(q.b), HiByte(q.b), LoByte(q.c), HiByte(q.c), LoByte(q.d), HiByte(q.d)]
  }

  lemma LoadStoreBlock(q: Quad<bv16>, p: seq<Byte>)
    requires |p| == 8
    ensures LoadBlock(StoreBlock(q)) == q && StoreBlock(LoadBlock(p)) == p
  {
    SplitJoin(q.a, p[0], p[1]);
    SplitJoin(q.b, p[2], p[3]);
    SplitJoin(q.c, p[4], p[5]);
    SplitJoin(q.d, p[6], p[7]);
    assert StoreBlock(LoadBlock(p)) == [p[0], p[1], p[2], p[3], p[4], p[5], p[6], p[7]];
  }

  function EncryptBlock(ks: seq<bv16>, pt: seq<Byte>): (ct: seq<Byte>)
    requires |ks| == 64 && |pt| == 8
    ensures |ct| == 8
  {
    StoreBlock(Rfc(Words16(), ks, LoadBlock(pt)))
  }

  function DecryptWords(ks: seq<bv16>, rounds: nat, q: Quad<bv16>): Quad<bv16>
    requires |ks| == 64 && rounds <= ROUNDS
  {
    Unrounds(Words16(), ks, rounds, q)
  }

  function DecryptBlock(ks: seq<bv16>, ct: seq<Byte>): (pt: seq<Byte>)
    requires |ks| == 64 && |ct| == 8
    ensures |pt| == 8
  {
    StoreBlock(DecryptWords(ks, ROUNDS, LoadBlock(ct)))
  }

  method EcbEncrypt(pt: seq<Byte>, xkey: seq<bv32>) returns (ct: seq<Byte>)
    requires |pt| == 8 && |xkey| == 64
    ensures ct == EncryptBlock(LowKeys(xkey), pt)
  {
    var q := LoadBlock(pt);
    LowWideQuad(q);
    var v := EncryptRegisters(WideQuad(q), xkey);
    RoundsAreRfc(Words16(), LowKeys(xkey), ROUNDS, q);
    ct := StoreBlock(LowQuad(v));
  }

  method EcbDecrypt(ct: seq<Byte>, xkey: seq<bv32>) returns (pt: seq<Byte>)
    requires |ct| == 8 && |xkey| == 64
    ensures pt == DecryptBlock(LowKeys(xkey), ct)
  {
    var q := LoadBlock(ct);
    ghost var goal := DecryptWords(LowKeys(xkey), ROUNDS, q);
    var v := DecryptRegisters(WideQuad(q), xkey, q, goal);
    LowWideQuad(goal);
    pt := StoreBlock(LowQuad(v));
  }

  lemma DecryptWordsInverts(ks: seq<bv16>, rounds: nat, q: Quad<bv16>)
    requires |ks| == 64 && rounds == ROUNDS
    ensures DecryptWords(ks, rounds, Rfc(Words16(), ks, q)) == q
  {
    Words16Reversing();
    RoundsAreRfc(Words16(), ks, rounds, q);
    UnroundsRounds(Words16(), ks, rounds, q);
  }

  /** Decryption inverts encryption for every schedule and block. */
  lemma DecryptInvertsEncrypt(ks: seq<bv16>, pt: seq<Byte>)
    requires |ks| == 64 && |pt| == 8
    ensures DecryptBlock(ks, EncryptBlock(ks, pt)) == pt
  {
    var q := LoadBlock(pt);
    LoadStoreBlock(Rfc(Words16(), ks, q), pt);
    DecryptWordsInverts(ks, ROUNDS, q);
  }

  /* ---- RFC 2268 section 2: key expansion, over any bytes ---- */

  /** How a byte follows from two before it, how the pivot is reduced, and how a byte follows from two after it. */
  datatype Expansion<!B> = Expansion(next: (B, B) -> B, pivot: B -> B, back: (B, B) -> B)

  predicate NextAt<B(==)>(o: Expansion<B>, l: seq<B>, k: nat, i: nat)
    requires 0 < k <= i < |l|
  {
    l[i] == o.next(l[i - 1], l[i - k])
  }

  predicate BackAt<B(==)>(o: Expansion<B>, r: seq<B>, t: nat, i: nat)
    requires 0 < t && i + t < |r|
  {
    r[i] == o.back(r[i + 1], r[i + t])
  }

  /** The key continued to 128 bytes. */
  ghost predicate Stretched<B>(o: Expansion<B>, key: seq<B>, l: seq<B>, n: nat) {
    && 0 < |key| <= n <= |l| == 128
    && l[..|key|] == key
    && forall i | |key| <= i < n :: NextAt(o, l, |key|, i)
  }

  /** The bytes from m on, after those below the last `t` have been recomputed from the top down. */
  ghost predicate Reduced<B>(o: Expansion<B>, l: seq<B>, r: seq<B>, t: nat, m: nat) {
    && |l| == |r| == 128 && 0 < t <= 128 && m <= 128 - t
    && r[128 - t + 1..] == l[128 - t + 1..]
    && r[128 - t] == o.pivot(l[128 - t])
    && (forall i | m <= i < 128 - t :: BackAt(o, r, t, i))
    && r[..m] == l[..m]
  }

  /** Both descriptions leave only one possible result. */
  lemma {:induction false} StretchedUnique<B>(o: Expansion<B>, key: seq<B>, l: seq<B>, l': seq<B>, n: nat, i: nat)
    requires Stretched(o, key, l, n) && Stretched(o, key, l', n) && i < n
    ensures l[i] == l'[i]
    decreases i
  {
    if i < |key| {
      assert l[..|key|][i] == l'[..|key|][i];
    } else {
      assert NextAt(o, l, |key|, i) && NextAt(o, l', |key|, i);
      StretchedUnique(o, key, l, l', n, i - 1);
      StretchedUnique(o, key, l, l', n, i - |key|);
    }
  }

  lemma {:induction false} ReducedUnique<B>(o: Expansion<B>, l: seq<B>, r: seq<B>, r': seq<B>, t: nat, i: nat)
    requires Reduced(o, l, r, t, 0) && Reduced(o, l, r', t, 0) && i < 128
    ensures r[i] == r'[i]
    decreases 128 - i
  {
    if i < 128 - t {
      assert BackAt(o, r, t, i) && BackAt(o, r', t, i);
      ReducedUnique(o, l, r, r', t, i + 1);
      ReducedUnique(o, l, r, r', t, i + t);
    } else if i > 128 - t {
      assert r[128 - t + 1..][i - (128 - t + 1)] == r'[128 - t + 1..][i - (128 - t + 1)];
    }
  }

  lemma StretchedNext<B>(o: Expansion<B>, key: seq<B>, l: seq<B>, i: nat)
    requires Stretched(o, key, l, i) && i < 128
    ensures Stretched(o, key, l[i := o.next(l[i - 1], l[i - |key|])], i + 1)
  {
    var l' := l[i := o.next(l[i - 1], l[i - |key|])];
    assert l'[..|key|] == l[..|key|];
    forall j | |key| <= j < i + 1 ensures NextAt(o, l', |key|, j) {
      assert j < i ==> NextAt(o, l, |key|, j);
    }
  }

  lemma ReducedNext<B>(o: Expansion<B>, l: seq<B>, r: seq<B>, t: nat, i: nat)
    requires Reduced(o, l, r, t, i + 1)
    ensures Reduced(o, l, r[i := o.back(r[i + 1], r[i + t])], t, i)
  {
    var r' := r[i := o.back(r[i + 1], r[i + t])];
    assert r'[128 - t + 1..] == r[128 - t + 1..];
    assert r'[..i] == r[..i + 1][..i] == l[..i];
    forall j | i <= j < 128 - t ensures BackAt(o, r', t, j) {
      assert i < j ==> BackAt(o, r, t, j);
    }
  }

  lemma ReducedStart<B>(o: Expansion<B>, l: seq<B>, t: nat)
    requires |l| == 128 && 0 < t <= 128
    ensures Reduced(o, l, l[128 - t := o.pivot(l[128 - t])], t, 128 - t)
  {
  }

  method Stretch<B>(o: Expansion<B>, key: seq<B>, tmp: array<B>)
    requires 0 < |key| <= 128 && tmp.Length == 128
    modifies tmp
    ensures Stretched(o, key, tmp[..], 128)
  {
    for i := 0 to |key|
      invariant tmp[..i] == key[..i]
    {
      tmp[i] := key[i];
    }
    assert key[..|key|] == key;
    for i := |key| to 128
      invariant Stretched(o, key, tmp[..], i)
    {
      StretchedNext(o, key, tmp[..], i);
      ghost var l := tmp[..];
      tmp[i] := o.next(tmp[i - 1], tmp[i - |key|]);
      assert tmp[..] == l[i := o.next(l[i - 1], l[i - |key|])];
    }
  }

  method Reduce<B>(o: Expansion<B>, t: nat, tmp: array<B>)
    requires 0 < t <= 128 && tmp.Length == 128
    modifies tmp
    ensures Reduced(o, old(tmp[..]), tmp[..], t, 0)
  {
    ghost var l := tmp[..];
    ReducedStart(o, l, t);
    tmp[128 - t] := o.pivot(tmp[128 - t]);
    assert tmp[..] == l[128 - t := o.pivot(l[128 - t])];
    for i := 128 - t downto 0
      invariant Reduced(o, l, tmp[..], t, i)
    {
      ghost var r := tmp[..];
      ReducedNext(o, l, r, t, i);
      tmp[i] := o.back(tmp[i + 1], tmp[i + t]);
      assert tmp[..] == r[i := o.back(r[i + 1], r[i + t])];
    }
  }

  /* ---- The instance: the byte permutation ---- */

  function NextByte(a: bv8, b: bv8): bv8 {
    Permute(a + b)
  }

  function PivotByte(a: bv8): bv8 {
    Permute(a & 255)
  }

  function BackByte(a: bv8, b: bv8): bv8 {
    Permute(a ^ b)
  }

  function ByteExpansion(): Expansion<bv8> {
    Expansion(NextByte, PivotByte, BackByte)
  }

  /** 2 to the power e. */
  function Power2(e: nat): nat {
    if e == 0 then 1 else 2 * Power2(e - 1)
  }

  /** With 8 * n effective bits the reduced part is the whole key and the pivot loses no bits. */
  lemma EffectiveBits(n: nat)
    ensures var bits := 8 * n;
      (bits + 7) / 8 == n && (-bits) % 8 == 0 && 255 % Power2(8 + bits - 8 * ((bits + 7) / 8)) == 255 / Power2((-bits) % 8) == 255
  {
    assert (-(8 * n)) % 8 == 0;
    assert Power2(8) == 256;
  }

  /** The 64 key words: the expanded and reduced bytes in pairs, the first of a pair low. */
  ghost predicate Scheduled(key: seq<Byte>, ks: seq<bv16>)
    requires 0 < |key| <= 128
  {
    exists l, r :: Stretched(ByteExpansion(), key, l, 128) && Reduced(ByteExpansion(), l, r, |key|, 0) && ks == Pairs(r)
  }

  function Pairs(r: seq<Byte>): (ks: seq<bv16>)
    requires |r| == 128
    ensures |ks| == 64
  {
    seq(64, i requires 0 <= i < 64 => Join16(r[2 * i], r[2 * i + 1]))
  }

  /** A key has only one schedule. */
  lemma ScheduleUnique(key: seq<Byte>, ks: seq<bv16>, ks': seq<bv16>)
    requires 0 < |key| <= 128 && Scheduled(key, ks) && Scheduled(key, ks')
    ensures ks == ks'
  {
    var l, r :| Stretched(ByteExpansion(), key, l, 128) && Reduced(ByteExpansion(), l, r, |key|, 0) && ks == Pairs(r);
    var l', r' :| Stretched(ByteExpansion(), key, l', 128) && Reduced(ByteExpansion(), l', r', |key|, 0) && ks' == Pairs(r');
    forall i: nat | i < 128 ensures l[i] == l'[i] {
      StretchedUnique(ByteExpansion(), key, l, l', 128, i);
    }
    assert l == l';
    forall i: nat | i < 128 ensures r[i] == r'[i] {
      ReducedUnique(ByteExpansion(), l, r, r', |key|, i);
    }
    assert r == r';
  }

  function WideJoin(lo: Byte, hi: Byte): bv32 {
    (lo as bv32) + ((hi as bv32) << 8)
  }

  lemma LowJoin(lo: Byte, hi: Byte)
    ensures Low(WideJoin(lo, hi)) == Join16(lo, hi)
  {
  }

  method Setup(key: seq<Byte>, numRounds: int, xkey: array<bv32>) returns (status: Status)
    requires xkey.Length == 64
    modifies xkey
    ensures status ==
      if |key| < 8 || |key| > 128 then InvalidKeySize else if numRounds != 0 && numRounds != 16 then InvalidRounds else Ok
    ensures status == Ok ==> Scheduled(key, LowKeys(xkey[..]))
    ensures status != Ok ==> xkey[..] == old(xkey[..])
  {
    if |key| < 8 || |key| > 128 {
      return InvalidKeySize;
    }
    if numRounds != 0 && numRounds != 16 {
      return InvalidRounds;
    }
    var tmp := new Byte[128];
    Stretch(ByteExpansion(), key, tmp);
    ghost var l := tmp[..];
    var bits := 8 * |key|;
    EffectiveBits(|key|);
    Reduce(ByteExpansion(), (bits + 7) / 8, tmp);
    CopyPairs(tmp[..], xkey);
    assert Scheduled(key, LowKeys(xkey[..]));
    status := Ok;
  }

  method CopyPairs(r: seq<Byte>, xkey: array<bv32>)
    requires |r| == 128 && xkey.Length == 64
    modifies xkey
    ensures LowKeys(xkey[..]) == Pairs(r)
  {
    for i := 0 to 64
      invariant forall j | 0 <= j < i :: Low(xkey[j]) == Join16(r[2 * j], r[2 * j + 1])
    {
      xkey[i] := WideJoin(r[2 * i], r[2 * i + 1]);
      LowJoin(r[2 * i], r[2 * i + 1]);
    }
  }
}

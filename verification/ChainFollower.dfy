/**
  The chain follower (`NXTservices/NXTservices.c:1204-1234, 1298-1374, 1432-1497`).

  A producer thread records block ids by height and, after every new block, walks back over the
  recent ones to catch reorganisations; a consumer thread processes a block once it is deep enough.
  The threads share the handler's fields without a lock. A run is any sequence of moves of the two
  threads, each with any reply of the server; between two moves every shared field has one value.
 */
module ChainFollower {

  const SIZE: nat := 1000 * 365 * 10

  /** The shared fields; a block id of 0 means that none is known. */
  datatype Handler = Handler(
    blocks: seq<nat>, timestamps: seq<int>, numblocks: int, height: int, nxtHeight: int,
    extraconfirms: int, maxpopdepth: int, maxpopheight: int, lastchanged: int, glefu: int, loaded: bool)

  predicate Arrays(mp: Handler) {
    |mp.blocks| == |mp.timestamps|
  }

  /* ---- Recording one block: ensure_NXT_blocks ---- */

  function Raised(mp: Handler, h: int, timestamp: int): (r: Handler)
    requires Arrays(mp) && h < |mp.blocks| && (h >= 0 || timestamp == 0)
    ensures Arrays(r) && r.blocks == mp.blocks
  {
    mp.(numblocks := if h + 1 > mp.numblocks then h + 1 else mp.numblocks,
        timestamps := if timestamp != 0 then mp.timestamps[h := timestamp] else mp.timestamps,
        height := if h > mp.height then h else mp.height)
  }

  predicate Changes(mp: Handler, h: int, block: nat)
    requires 0 <= h < |mp.blocks|
  {
    block != 0 && mp.blocks[h] != 0 && mp.blocks[h] != block
  }

  /** A change at or below the processed height is counted. */
  function Counted(mp: Handler, h: int): Handler {
    mp.(glefu := if mp.nxtHeight != 0 && h <= mp.nxtHeight then mp.glefu + 1 else mp.glefu)
  }

  function Stored(mp: Handler, h: int, block: nat): (r: Handler)
    requires 0 <= h < |mp.blocks|
    ensures |r.blocks| == |mp.blocks|
  {
    mp.(blocks := if block != 0 then mp.blocks[h := block] else mp.blocks)
  }

  /** Recording one block without interference, and what is reported to the caller. */
  function Ensured(mp: Handler, h: int, block: nat, timestamp: int): (r: (Handler, int))
    requires Arrays(mp) && (h >= 0 || block == timestamp == 0)
    ensures Arrays(r.0) && |r.0.blocks| == |mp.blocks|
  {
    if h >= |mp.blocks| then (mp, -1)
    else
      var up := Raised(mp, h, timestamp);
      if block == 0 then (up, 0)
      else if Changes(up, h, block) then (Stored(Counted(up, h), h, block), 1)
      else (Stored(up, h, block), 0)
  }

  /** A change is reported exactly when a known block id is replaced by another. */
  lemma ChangeReported(mp: Handler, h: int, block: nat, timestamp: int)
    requires Arrays(mp) && (h >= 0 || block == timestamp == 0)
    ensures var (r, changed) := Ensured(mp, h, block, timestamp);
      && (changed == 1 <==> exists k | 0 <= k < |mp.blocks| :: mp.blocks[k] != 0 && r.blocks[k] != mp.blocks[k])
      && (changed == -1 <==> h >= |mp.blocks|) && (changed == -1 ==> r == mp)
  {
    if 0 <= h < |mp.blocks| && Changes(mp, h, block) {
      assert Ensured(mp, h, block, timestamp).0.blocks[h] != mp.blocks[h];
    }
  }

  class NxtHandler {
    const blocks: array<nat>
    const timestamps: array<int>
    var numblocks: int
    var height: int
    var nxtHeight: int
    var extraconfirms: int
    var maxpopdepth: int
    var maxpopheight: int
    var lastchanged: int
    var glefu: int
    var loaded: bool

    ghost predicate Valid() {
      blocks.Length == timestamps.Length
    }

    ghost function Now(): Handler
      reads this, blocks, timestamps
    {
      Handler(blocks[..], timestamps[..], numblocks, height, nxtHeight,
              extraconfirms, maxpopdepth, maxpopheight, lastchanged, glefu, loaded)
    }

    constructor (n: nat)
      ensures Valid() && fresh(blocks) && fresh(timestamps) && blocks.Length == n
      ensures Now() == Handler(seq(n, _ => 0), seq(n, _ => 0), 0, 0, 0, 0, 0, 0, 0, 0, false)
    {
      blocks := new nat[n](_ => 0);
      timestamps := new int[n](_ => 0);
      numblocks, height, nxtHeight, extraconfirms, maxpopdepth := 0, 0, 0, 0, 0;
      maxpopheight, lastchanged, glefu, loaded := 0, 0, 0, false;
    }

    method EnsureBlocks(h: int, blockid: nat, timestamp: int) returns (changed: int)
      requires Valid() && (h >= 0 || blockid == timestamp == 0)
      modifies this, blocks, timestamps
      ensures (Now(), changed) == Ensured(old(Now()), h, blockid, timestamp)
    {
      changed := 0;
      if h >= blocks.Length {
        return -1;
      }
      Raise(h, timestamp);
      if blockid != 0 {
        if blocks[h] != 0 && blocks[h] != blockid {
          changed := 1;
          if nxtHeight != 0 && h <= nxtHeight {
            glefu := glefu + 1;
          }
        }
        blocks[h] := blockid;
      }
    }

    /** The first half: the number of blocks, the timestamp and the height. */
    method Raise(h: int, timestamp: int)
      requires Valid() && h < blocks.Length && (h >= 0 || timestamp == 0)
      modifies this, timestamps
      ensures Now() == Raised(old(Now()), h, timestamp)
    {
      if h + 1 > numblocks {
        numblocks := h + 1;
      }
      if timestamp != 0 {
        timestamps[h] := timestamp;
      }
      if h > height {
        height := h;
      }
    }
  }

  /* ---- The threads ---- */

  /** A reply of the server; `more` says whether another block (or any state at all) is named. */
  datatype Reply = Reply(height: int, timestamp: int, block: nat, more: bool)

  /** The block looked at in round i of a walk-back. */
  datatype Visit = Visit(numblocks: int, i: int, h: int, block: nat, timestamp: int)

  datatype Producer =
    | Loading(next: int)
    | Waiting
    | Walking(numblocks: int, i: int)
    | Raising(v: Visit)
    | Comparing(v: Visit)
    | Storing(v: Visit, changed: bool)
    | Popping(v: Visit)
    | Deepening(v: Visit)
    | Marking(v: Visit)
    | Checking(v: Visit)

  datatype Consumer =
    | Genesis
    | Starting
    | Awaiting(height: int)
    | Guarding(height: int, confirms: int)
    | Sleeping(height: int)
    | Reading(height: int, confirms: int, above: int)
    | Processing(height: int, confirms: int, above: int, block: nat)
    | Publishing(height: int, confirms: int, above: int, block: nat)

  /**
    One processed block: the id that was read and processed, the id the array held when the height was
    published, the confirmations asked for, and the chain height the depth test saw.
   */
  datatype Entry = Entry(height: int, block: nat, held: nat, confirms: int, above: int)

  datatype State =
    | Running(mp: Handler, p: Producer, c: Consumer, log: seq<Entry>)
    | Exited

  datatype Event = Produce(reply: Reply) | Consume(reply: Reply)

  function Load(s: State, r: Reply): State
    requires s.Running? && Arrays(s.mp) && s.p.Loading?
  {
    var end := s.(mp := s.mp.(loaded := true), p := Waiting);
    if r.height > 0 && r.timestamp > 0 && r.more then
      var mp := Ensured(s.mp, r.height, r.block, r.timestamp).0;
      if s.p.next == 0 || r.height == s.p.next then s.(mp := mp, p := Loading(r.height + 1))
      else end.(mp := mp.(loaded := true))
    else end
  }

  function Await(s: State, r: Reply): State
    requires s.Running?
  {
    if r.more then s.(mp := s.mp.(height := r.height - 1), p := Walking(r.height, 1)) else s
  }

  function Walk(min: int, s: State, r: Reply): State
    requires s.Running? && s.p.Walking?
  {
    if s.p.i >= 3 * (min + s.mp.extraconfirms) then s.(p := Waiting)
    else if 0 < r.height < s.p.numblocks && r.timestamp > 0 && r.more then
      s.(p := Raising(Visit(s.p.numblocks, s.p.i, r.height, r.block, r.timestamp)))
    else Exited
  }

  function Continue(v: Visit): Producer {
    Walking(v.numblocks, v.i + 1)
  }

  /** The moves within one round of the walk-back. */
  function Visiting(s: State, v: Visit): State
    requires s.Running? && Arrays(s.mp) && v.h > 0
    requires !s.p.Loading? && !s.p.Waiting? && !s.p.Walking?
    requires s.p.Comparing? || s.p.Storing? ==> v.h < |s.mp.blocks|
  {
    match s.p
    case Raising(_) =>
      if v.h >= |s.mp.blocks| then s.(p := Popping(v)) else s.(mp := Raised(s.mp, v.h, v.timestamp), p := Comparing(v))
    case Comparing(_) =>
      if Changes(s.mp, v.h, v.block) then s.(mp := Counted(s.mp, v.h), p := Storing(v, true))
      else s.(p := Storing(v, false))
    case Storing(_, changed) =>
      s.(mp := Stored(s.mp, v.h, v.block), p := if changed then Popping(v) else Continue(v))
    case Popping(_) =>
      if v.i > s.mp.maxpopdepth then s.(mp := s.mp.(maxpopdepth := v.i, maxpopheight := v.h), p := Deepening(v))
      else s.(p := Marking(v))
    case Deepening(_) =>
      s.(mp := s.mp.(extraconfirms := if v.i > s.mp.extraconfirms then v.i else s.mp.extraconfirms), p := Marking(v))
    case Marking(_) => s.(mp := s.mp.(lastchanged := v.h, height := v.h), p := Checking(v))
    case Checking(_) => if s.mp.nxtHeight >= s.mp.lastchanged then Exited else s.(p := Continue(v))
  }

  predicate InVisit(p: Producer) {
    !p.Loading? && !p.Waiting? && !p.Walking?
  }

  predicate Sound(s: State) {
    s.Running? ==>
      && Arrays(s.mp)
      && (InVisit(s.p) ==> s.p.v.h > 0)
      && (s.p.Comparing? || s.p.Storing? ==> s.p.v.h < |s.mp.blocks|)
  }

  function Produced(min: int, s: State, r: Reply): State
    requires s.Running? && Sound(s)
  {
    if s.p.Loading? then Load(s, r) else if s.p.Waiting? then Await(s, r)
    else if s.p.Walking? then Walk(min, s, r) else Visiting(s, s.p.v)
  }

  /** What the array holds for a height; past its ends memory may hold anything. */
  function Held(mp: Handler, h: int, any: nat): nat {
    if 0 <= h < |mp.blocks| then mp.blocks[h] else any
  }

  function Consumed(min: int, s: State, r: Reply): State
    requires s.Running?
  {
    match s.c
    case Genesis => if r.height != 0 then Exited else s.(c := Starting)
    case Starting => s.(c := Awaiting(r.height))
    case Awaiting(h) => if s.mp.loaded then s.(c := Guarding(h, min)) else s
    case Guarding(h, n) => s.(c := if h >= s.mp.height - n then Sleeping(h) else Reading(h, n, s.mp.height))
    case Sleeping(h) => s.(c := Guarding(h, min + s.mp.extraconfirms))
    case Reading(h, n, a) =>
      var block := Held(s.mp, h, r.block);
      s.(c := if block != 0 then Processing(h, n, a, block) else Guarding(h, n))
    case Processing(h, n, a, block) => s.(c := if r.height == h then Publishing(h, n, a, block) else Guarding(h, n))
    case Publishing(h, n, a, block) =>
      s.(mp := s.mp.(nxtHeight := h), c := Guarding(h + 1, n),
         log := s.log + [Entry(h, block, Held(s.mp, h, block), n, a)])
  }

  function Step(min: int, s: State, e: Event): (t: State)
    requires Sound(s)
    ensures Sound(t)
  {
    if s.Exited? then s else if e.Produce? then Produced(min, s, e.reply) else Consumed(min, s, e.reply)
  }

  function Run(min: int, s: State, es: seq<Event>): (t: State)
    requires Sound(s)
    ensures Sound(t)
    decreases |es|
  {
    if es == [] then s else Step(min, Run(min, s, es[..|es| - 1]), es[|es| - 1])
  }

  /** The state when the threads start; n is the number of blocks the server reports. */
  function Initial(n: int): (s: State)
    ensures Sound(s)
  {
    var mp := Handler(seq(SIZE, _ => 0), seq(SIZE, _ => 0), 0, n - 1, 0, 0, 0, 0, 0, 0, false);
    Running(Ensured(mp, n, 0, 0).0, Loading(0), Genesis, [])
  }

  /* ---- Depth of the deepest reorganisation ---- */

  /** The depth to ask for follows the deepest reorganisation seen, but for the instant between the two writes. */
  predicate Depths(s: State) {
    s.Running? ==>
      && 0 <= s.mp.extraconfirms
      && (if s.p.Deepening? then s.mp.extraconfirms < s.mp.maxpopdepth == s.p.v.i
          else s.mp.extraconfirms == s.mp.maxpopdepth)
  }

  lemma DepthsKept(min: int, s: State, e: Event)
    requires Sound(s) && Depths(s)
    ensures Depths(Step(min, s, e))
    ensures s.Running? && Step(min, s, e).Running? ==> s.mp.extraconfirms <= Step(min, s, e).mp.extraconfirms
  {
  }

  /* ---- The consumer's heights ---- */

  predicate Consecutive(log: seq<Entry>) {
    forall k | 0 <= k < |log| :: log[k].height == log[0].height + k
  }

  predicate Deep(min: int, s: State, confirms: int) {
    s.Running? && min <= confirms <= min + s.mp.extraconfirms
  }

  /** Every block was processed after a depth test that saw more than `min` blocks above it. */
  predicate Confirmed(min: int, log: seq<Entry>) {
    forall k | 0 <= k < |log| :: min <= log[k].confirms < log[k].above - log[k].height && log[k].block != 0
  }

  function Last(s: State): int
    requires s.Running?
  {
    if s.log == [] then 0 else s.log[|s.log| - 1].height
  }

  predicate Heights(min: int, s: State) {
    s.Running? ==>
      && Consecutive(s.log) && Confirmed(min, s.log) && s.mp.nxtHeight == Last(s)
      && (s.log != [] ==> s.mp.loaded && !s.c.Genesis? && !s.c.Starting? && !s.c.Awaiting? && s.c.height == Last(s) + 1)
      && (!s.c.Genesis? && !s.c.Starting? && !s.c.Awaiting? ==> s.mp.loaded)
      && (s.c.Guarding? || s.c.Reading? || s.c.Processing? || s.c.Publishing? ==> Deep(min, s, s.c.confirms))
      && (s.c.Reading? || s.c.Processing? || s.c.Publishing? ==> s.c.confirms < s.c.above - s.c.height)
      && (s.c.Processing? || s.c.Publishing? ==> s.c.block != 0)
      && (s.mp.loaded <==> !s.p.Loading?)
  }

  lemma ProducerKeepsHeights(min: int, s: State, r: Reply)
    requires s.Running? && Sound(s) && Depths(s) && Heights(min, s)
    ensures Heights(min, Produced(min, s, r))
  {
    DepthsKept(min, s, Produce(r));
  }

  lemma ConsumerKeepsHeights(min: int, s: State, r: Reply)
    requires s.Running? && Sound(s) && Depths(s) && Heights(min, s)
    ensures Heights(min, Consumed(min, s, r))
  {
  }

  lemma HeightsKept(min: int, s: State, e: Event)
    requires Sound(s) && Depths(s) && Heights(min, s)
    ensures Heights(min, Step(min, s, e))
  {
    if s.Running? {
      if e.Produce? {
        ProducerKeepsHeights(min, s, e.reply);
      } else {
        ConsumerKeepsHeights(min, s, e.reply);
      }
    }
  }

  lemma {:induction false} RunHeights(min: int, n: int, es: seq<Event>)
    ensures Depths(Run(min, Initial(n), es)) && Heights(min, Run(min, Initial(n), es))
    decreases |es|
  {
    if es != [] {
      RunHeights(min, n, es[..|es| - 1]);
      HeightsKept(min, Run(min, Initial(n), es[..|es| - 1]), es[|es| - 1]);
      DepthsKept(min, Run(min, Initial(n), es[..|es| - 1]), es[|es| - 1]);
    }
  }

  /* ---- What has been reached stays ---- */

  /** The producer has replaced the block at height h and has not yet compared h with the processed height. */
  predicate Replacing(p: Producer, h: int) {
    (p.Popping? || p.Deepening? || p.Marking? || p.Checking?) && p.v.h == h
  }

  /** Nothing has been replaced in this round of the walk-back. */
  predicate Settled(p: Producer) {
    !p.Popping? && !p.Deepening? && !p.Marking? && !p.Checking?
  }

  /** What is about to be stored was compared with what the array holds. */
  predicate Compared(s: State)
    requires Sound(s)
  {
    s.Running? && s.p.Storing? ==> s.p.changed == Changes(s.mp, s.p.v.h, s.p.v.block)
  }

  predicate Marked(s: State) {
    s.Running? && s.p.Checking? ==> s.mp.lastchanged == s.p.v.h
  }

  predicate Good(min: int, s: State) {
    Sound(s) && Depths(s) && Heights(min, s) && Compared(s) && Marked(s)
  }

  lemma GoodKept(min: int, s: State, e: Event)
    requires Good(min, s)
    ensures Good(min, Step(min, s, e))
  {
    DepthsKept(min, s, e);
    HeightsKept(min, s, e);
    ComparedKept(min, s, e);
  }

  lemma ComparedKept(min: int, s: State, e: Event)
    requires Sound(s) && Compared(s) && Marked(s)
    ensures Compared(Step(min, s, e)) && Marked(Step(min, s, e))
  {
  }

  lemma {:induction false} RunGood(min: int, s: State, es: seq<Event>)
    requires Good(min, s)
    ensures Good(min, Run(min, s, es))
    decreases |es|
  {
    if es != [] {
      RunGood(min, s, es[..|es| - 1]);
      GoodKept(min, Run(min, s, es[..|es| - 1]), es[|es| - 1]);
    }
  }

  lemma InitialGood(min: int, n: int)
    ensures Good(min, Initial(n))
  {
  }

  /** Height h has been reached with block b, and either b is still there or the walk-back is about to notice. */
  predicate Holds(s: State, h: int, b: nat) {
    s.Running? ==>
      && 0 < h < |s.mp.blocks| && h <= s.mp.nxtHeight && b != 0
      && (s.mp.blocks[h] == b || Replacing(s.p, h))
  }

  lemma ProducerHolds(min: int, s: State, r: Reply, h: int, b: nat)
    requires s.Running? && Good(min, s) && Holds(s, h, b)
    ensures Holds(Produced(min, s, r), h, b)
  {
  }

  lemma ConsumerHolds(min: int, s: State, r: Reply, h: int, b: nat)
    requires s.Running? && Good(min, s) && Holds(s, h, b)
    ensures Holds(Consumed(min, s, r), h, b)
  {
  }

  lemma {:induction false} RunHolds(min: int, s: State, es: seq<Event>, h: int, b: nat)
    requires Good(min, s) && Holds(s, h, b)
    ensures Holds(Run(min, s, es), h, b)
    decreases |es|
  {
    if es != [] {
      var t, e := Run(min, s, es[..|es| - 1]), es[|es| - 1];
      RunHolds(min, s, es[..|es| - 1], h, b);
      RunGood(min, s, es[..|es| - 1]);
      if t.Running? {
        if e.Produce? {
          ProducerHolds(min, t, e.reply, h, b);
        } else {
          ConsumerHolds(min, t, e.reply, h, b);
        }
      }
    }
  }

  /**
    Once the processed height has reached h, the block recorded for h never changes to a different one
    in a run that survives the round of the walk-back it is in.
   */
  lemma ReachedStays(min: int, n: int, es: seq<Event>, later: seq<Event>, h: int)
    requires var s := Run(min, Initial(n), es);
      s.Running? && 0 < h < |s.mp.blocks| && h <= s.mp.nxtHeight && s.mp.blocks[h] != 0
    ensures var s, t := Run(min, Initial(n), es), Run(min, Run(min, Initial(n), es), later);
      t.Running? && Settled(t.p) ==> h < |t.mp.blocks| && t.mp.blocks[h] == s.mp.blocks[h]
  {
    var s := Run(min, Initial(n), es);
    InitialGood(min, n);
    RunGood(min, Initial(n), es);
    RunHolds(min, s, later, h, s.mp.blocks[h]);
  }

  /** A height that has been reached, from the first one on, has a block. */
  predicate Known(s: State) {
    s.Running? ==>
      && (forall k | 0 <= k < |s.log| && 0 < s.log[k].height < |s.mp.blocks| :: s.log[k].held != 0)
      && ((s.c.Processing? || s.c.Publishing?) && 0 < s.c.height < |s.mp.blocks| ==> s.mp.blocks[s.c.height] != 0)
  }

  /** Recording a block never forgets one. */
  lemma ProducerKeepsKnown(min: int, s: State, r: Reply)
    requires s.Running? && Sound(s)
    ensures var t := Produced(min, s, r);
      t.Running? ==>
        && t.log == s.log && t.c == s.c && |t.mp.blocks| == |s.mp.blocks|
        && forall h | 0 <= h < |s.mp.blocks| :: s.mp.blocks[h] != 0 ==> t.mp.blocks[h] != 0
  {
  }

  lemma KnownKept(min: int, s: State, e: Event)
    requires Sound(s) && Known(s)
    ensures Known(Step(min, s, e))
  {
    if s.Running? && e.Produce? {
      ProducerKeepsKnown(min, s, e.reply);
    }
  }

  /** The array holds, for every processed height, what it held when that height was published. */
  predicate LogHolds(s: State) {
    s.Running? ==> forall k | 0 <= k < |s.log| && 0 < s.log[k].height < |s.mp.blocks| :: Holds(s, s.log[k].height, s.log[k].held)
  }

  lemma LogHoldsKept(min: int, s: State, e: Event)
    requires Good(min, s) && Known(s) && LogHolds(s)
    ensures LogHolds(Step(min, s, e))
  {
    var t := Step(min, s, e);
    GoodKept(min, s, e);
    if s.Running? && t.Running? {
      forall k | 0 <= k < |t.log| && 0 < t.log[k].height < |t.mp.blocks|
        ensures Holds(t, t.log[k].height, t.log[k].held)
      {
        if k < |s.log| {
          assert t.log[k] == s.log[k] && |t.mp.blocks| == |s.mp.blocks|;
          if e.Produce? {
            ProducerHolds(min, s, e.reply, s.log[k].height, s.log[k].held);
          } else {
            ConsumerHolds(min, s, e.reply, s.log[k].height, s.log[k].held);
          }
        }
      }
    }
  }

  lemma {:induction false} RunLogHolds(min: int, n: int, es: seq<Event>)
    ensures var s := Run(min, Initial(n), es); Good(min, s) && Known(s) && LogHolds(s)
    decreases |es|
  {
    if es == [] {
      InitialGood(min, n);
    } else {
      var s, e := Run(min, Initial(n), es[..|es| - 1]), es[|es| - 1];
      RunLogHolds(min, n, es[..|es| - 1]);
      GoodKept(min, s, e);
      KnownKept(min, s, e);
      LogHoldsKept(min, s, e);
    }
  }

  /**
    The block that was processed for a height is the one recorded for it exactly if the array still held
    that block when the height was published.
   */
  lemma ProcessedIsRecordedExactly(min: int, n: int, es: seq<Event>, k: nat)
    requires var s := Run(min, Initial(n), es);
      s.Running? && Settled(s.p) && k < |s.log| && 0 < s.log[k].height < |s.mp.blocks|
    ensures var s := Run(min, Initial(n), es); var e := s.log[k];
      s.mp.blocks[e.height] == e.block <==> e.held == e.block
  {
    RunLogHolds(min, n, es);
    var s := Run(min, Initial(n), es);
    assert Holds(s, s.log[k].height, s.log[k].held);
  }

  /* ---- Changes below the processed height ---- */

  /** A change at or below the processed height is counted only on the way to the exit. */
  predicate Uncounted(s: State) {
    s.Running? ==>
      s.mp.glefu == 0 || (((s.p.Storing? && s.p.changed) || !Settled(s.p)) && s.p.v.h <= s.mp.nxtHeight)
  }

  lemma UncountedKept(min: int, s: State, e: Event)
    requires Good(min, s) && Uncounted(s)
    ensures Uncounted(Step(min, s, e))
  {
  }

  lemma {:induction false} NothingCounted(min: int, n: int, es: seq<Event>)
    ensures var s := Run(min, Initial(n), es);
      Good(min, s) && Uncounted(s) && (s.Running? && (s.p.Waiting? || s.p.Walking?) ==> s.mp.glefu == 0)
    decreases |es|
  {
    if es == [] {
      InitialGood(min, n);
    } else {
      NothingCounted(min, n, es[..|es| - 1]);
      GoodKept(min, Run(min, Initial(n), es[..|es| - 1]), es[|es| - 1]);
      UncountedKept(min, Run(min, Initial(n), es[..|es| - 1]), es[|es| - 1]);
    }
  }

  /** The depth to ask for never decreases. */
  lemma {:induction false} DepthNeverDecreases(min: int, s: State, es: seq<Event>)
    requires Good(min, s)
    ensures var t := Run(min, s, es); s.Running? && t.Running? ==> s.mp.extraconfirms <= t.mp.extraconfirms
    decreases |es|
  {
    if es != [] {
      RunGood(min, s, es[..|es| - 1]);
      DepthNeverDecreases(min, s, es[..|es| - 1]);
      DepthsKept(min, Run(min, s, es[..|es| - 1]), es[|es| - 1]);
    }
  }

  /* ---- Runs of given moves ---- */

  lemma RunMore(min: int, s: State, es: seq<Event>, e: Event)
    requires Sound(s)
    ensures Run(min, s, es + [e]) == Step(min, Run(min, s, es), e)
  {
    assert (es + [e])[..|es|] == es;
  }

  lemma RunOne(min: int, s: State, e: Event)
    requires Sound(s)
    ensures Run(min, s, [e]) == Step(min, s, e)
  {
    RunMore(min, s, [], e);
    assert [] + [e] == [e];
  }

  lemma RunThree(min: int, s: State, e: Event)
    requires Sound(s)
    ensures Run(min, s, [e, e, e]) == Step(min, Step(min, Step(min, s, e), e), e)
  {
    RunOne(min, s, e);
    RunMore(min, s, [e], e);
    RunMore(min, s, [e, e], e);
    assert [e] + [e] == [e, e] && [e, e] + [e] == [e, e, e];
  }

  /** How a round goes on once its block has been recorded. */
  function Recorded(s: State, v: Visit): State
    requires s.Running? && Arrays(s.mp) && v.h > 0
  {
    var (mp, changed) := Ensured(s.mp, v.h, v.block, v.timestamp);
    s.(mp := mp, p := if changed != 0 then Popping(v) else Continue(v))
  }

  lemma RecordedInThree(min: int, s: State, e: Event)
    requires Sound(s) && s.Running? && s.p.Raising? && s.p.v.h < |s.mp.blocks| && e.Produce?
    ensures Step(min, Step(min, Step(min, s, e), e), e) == Recorded(s, s.p.v)
  {
  }

  /** Uninterrupted, the moves of a round record the block as `Ensured` says. */
  lemma EnsureUninterrupted(min: int, s: State, r: Reply)
    requires Sound(s) && s.Running? && s.p.Raising?
    ensures s.p.v.h >= |s.mp.blocks| ==> Run(min, s, [Produce(r)]) == Recorded(s, s.p.v)
    ensures s.p.v.h < |s.mp.blocks| ==> Run(min, s, [Produce(r), Produce(r), Produce(r)]) == Recorded(s, s.p.v)
  {
    RunOne(min, s, Produce(r));
    RunThree(min, s, Produce(r));
    if s.p.v.h < |s.mp.blocks| {
      RecordedInThree(min, s, Produce(r));
    }
  }

  /* ---- The window between reading a block and publishing its height ---- */

  ghost predicate Reaches(min: int, s: State, t: State)
    requires Sound(s)
  {
    exists es :: Run(min, s, es) == t
  }

  lemma Stay(min: int, s: State)
    requires Sound(s)
    ensures Reaches(min, s, s)
  {
    assert Run(min, s, []) == s;
  }

  lemma Go(min: int, s: State, t: State, e: Event)
    requires Sound(s) && Sound(t) && Reaches(min, s, t)
    ensures Reaches(min, s, Step(min, t, e))
  {
    var es :| Run(min, s, es) == t;
    RunMore(min, s, es, e);
    assert Run(min, s, es + [e]) == Step(min, t, e);
  }

  /** The consumer has read a block it has not published, and the walk-back can still replace that block. */
  predicate Window(min: int, s: State) {
    && s.Running? && s.c.Processing? && s.p.Walking? && s.p.i < 3 * (min + s.mp.extraconfirms)
    && 0 < s.c.height < |s.mp.blocks| && s.c.height < s.p.numblocks && s.mp.nxtHeight < s.c.height
    && s.mp.blocks[s.c.height] != 0
  }

  lemma StoreInWindow(min: int, s: State, u: State, b: nat) returns (t: State)
    requires Good(min, s) && Sound(u) && Reaches(min, u, s)
    requires Window(min, s) && b != 0 && b != s.mp.blocks[s.c.height]
    ensures Good(min, t) && Reaches(min, u, t) && t.Running? && t.p.Popping? && t.p.v.h == s.c.height
    ensures t.c == s.c && t.c.Processing? && t.log == s.log && t.mp.nxtHeight == s.mp.nxtHeight
    ensures |t.mp.blocks| == |s.mp.blocks| && t.mp.blocks[t.c.height] == b
  {
    var e := Produce(Reply(s.c.height, 1, b, true));
    t := s;
    for k := 0 to 4
      invariant Good(min, t) && Reaches(min, u, t) && t.Running?
      invariant t.c == s.c && t.log == s.log && t.mp.nxtHeight == s.mp.nxtHeight && |t.mp.blocks| == |s.mp.blocks|
      invariant k < 4 ==> t.mp.blocks == s.mp.blocks
      invariant k == 0 ==> t == s
      invariant k == 1 ==> t.p.Raising? && t.p.v.h == s.c.height && t.p.v.block == b
      invariant k == 2 ==> t.p.Comparing? && t.p.v.h == s.c.height && t.p.v.block == b
      invariant k == 3 ==> t.p.Storing? && t.p.changed && t.p.v.h == s.c.height && t.p.v.block == b
      invariant k == 4 ==> t.p.Popping? && t.p.v.h == s.c.height && t.mp.blocks[s.c.height] == b
    {
      Go(min, u, t, e);
      GoodKept(min, t, e);
      t := Step(min, t, e);
    }
  }

  lemma FinishRound(min: int, s: State, u: State) returns (t: State)
    requires Good(min, s) && Sound(u) && Reaches(min, u, s)
    requires s.Running? && s.p.Popping? && s.p.v.h > s.mp.nxtHeight
    ensures Good(min, t) && Reaches(min, u, t) && t.Running? && t.p.Walking?
    ensures t.c == s.c && t.log == s.log && t.mp.blocks == s.mp.blocks
  {
    var e := Produce(Reply(0, 0, 0, false));
    t := s;
    while !t.p.Walking?
      invariant Good(min, t) && Reaches(min, u, t) && t.Running?
      invariant t.c == s.c && t.log == s.log && t.mp.blocks == s.mp.blocks && t.mp.nxtHeight == s.mp.nxtHeight
      invariant t.p.Walking? || (Replacing(t.p, s.p.v.h) && s.p.v.h > t.mp.nxtHeight)
      decreases if t.p.Popping? then 4 else if t.p.Deepening? then 3 else if t.p.Marking? then 2 else if t.p.Checking? then 1 else 0
    {
      Go(min, u, t, e);
      GoodKept(min, t, e);
      t := Step(min, t, e);
    }
  }

  /**
    In every such window, and for every other block b, the run can go on so that it survives, the block
    that was read is published as processed, and b is the one recorded.
   */
  lemma WindowIsOpen(min: int, s: State, b: nat) returns (t: State)
    requires Good(min, s) && Window(min, s) && b != 0 && b != s.mp.blocks[s.c.height]
    ensures Reaches(min, s, t) && t.Running? && Settled(t.p)
    ensures t.log == s.log + [Entry(s.c.height, s.c.block, b, s.c.confirms, s.c.above)]
    ensures s.c.height < |t.mp.blocks| && t.mp.blocks[s.c.height] == b
  {
    Stay(min, s);
    t := StoreInWindow(min, s, s, b);
    t := FinishRound(min, t, s);
    var e := Consume(Reply(s.c.height, 0, 0, false));
    Go(min, s, t, e);
    t := Step(min, t, e);
    Go(min, s, t, e);
    t := Step(min, t, e);
  }

  /** Heights above the one in flight are still unknown, down to where the walk-back has come. */
  predicate Descending(min: int, n: int, i: int, t: State) {
    && 1 <= i && n < SIZE && t.Running? && t.log == [] && |t.mp.blocks| == SIZE && t.mp.extraconfirms == t.mp.nxtHeight == 0
    && t.p == Walking(n, i) && t.c.Processing? && t.c.height == 1 && t.c.block == t.mp.blocks[1] == 7
    && forall h | 2 <= h <= n - i :: t.mp.blocks[h] == 0
  }

  /** One round of the walk-back finds the expected height and records a new block. */
  lemma FreshRound(min: int, s: State, u: State, n: int, i: int) returns (t: State)
    requires Good(min, s) && Sound(u) && Reaches(min, u, s)
    requires Descending(min, n, i, s) && 1 <= i < 3 * min && 2 <= n - i && n < SIZE
    ensures Good(min, t) && Reaches(min, u, t) && Descending(min, n, i + 1, t)
  {
    var h := n - i;
    var e := Produce(Reply(h, 1, 9, true));
    t := s;
    for k := 0 to 4
      invariant Good(min, t) && Reaches(min, u, t) && t.Running? && t.c == s.c && t.log == []
      invariant |t.mp.blocks| == SIZE && t.mp.extraconfirms == t.mp.nxtHeight == 0
      invariant k < 4 ==> t.mp.blocks == s.mp.blocks
      invariant k == 0 ==> t.p == Walking(n, i)
      invariant k == 1 ==> t.p == Raising(Visit(n, i, h, 9, 1))
      invariant k == 2 ==> t.p == Comparing(Visit(n, i, h, 9, 1))
      invariant k == 3 ==> t.p == Storing(Visit(n, i, h, 9, 1), false)
      invariant k == 4 ==> t.p == Walking(n, i + 1) && t.mp.blocks == s.mp.blocks[h := 9]
    {
      Go(min, u, t, e);
      GoodKept(min, t, e);
      t := Step(min, t, e);
    }
  }

  /** Loading block 1 of a chain of n blocks, testing its depth and reading it, while the walk-back begins. */
  lemma ReadsFirstBlock(min: int, n: int) returns (t: State)
    requires min >= 1 && n == min + 2 < SIZE
    ensures Reaches(min, Initial(n), t) && Good(min, t) && Descending(min, n, 1, t)
  {
    var s := Initial(n);
    InitialGood(min, n);
    Stay(min, s);
    var load, end, genesis, orig := Produce(Reply(1, 1, 7, true)), Produce(Reply(0, 0, 0, false)),
                                    Consume(Reply(0, 0, 0, false)), Consume(Reply(1, 0, 0, false));
    var again := Produce(Reply(n, 0, 0, true));
    var es := [load, end, genesis, orig, orig, orig, orig, again];
    t := s;
    for k := 0 to |es|
      invariant Good(min, t) && Reaches(min, s, t) && t.Running? && |t.mp.blocks| == SIZE && t.log == []
      invariant t.mp.extraconfirms == t.mp.nxtHeight == 0 && (k < 8 ==> t.mp.height == n)
      invariant forall h | 2 <= h < SIZE :: t.mp.blocks[h] == 0
      invariant k == 0 ==> t.p == Loading(0) && t.c == Genesis
      invariant k >= 1 ==> t.mp.blocks[1] == 7
      invariant k == 1 ==> t.p == Loading(2) && t.c == Genesis
      invariant 2 <= k < 8 ==> t.p == Waiting
      invariant k == 2 ==> t.c == Genesis
      invariant k == 3 ==> t.c == Starting
      invariant k == 4 ==> t.c == Awaiting(1)
      invariant k == 5 ==> t.c == Guarding(1, min)
      invariant k == 6 ==> t.c == Reading(1, min, n)
      invariant k >= 7 ==> t.c == Processing(1, min, n, 7)
      invariant k == 8 ==> t.p == Walking(n, 1)
    {
      Go(min, s, t, es[k]);
      GoodKept(min, t, es[k]);
      t := Step(min, t, es[k]);
    }
  }

  /** The walk-back comes down, one height a round, to the block that has been read. */
  lemma ReachesInitialWindow(min: int, n: int) returns (t: State)
    requires min >= 1 && n == min + 2 < SIZE
    ensures Reaches(min, Initial(n), t) && Good(min, t) && Window(min, t)
    ensures t.c.height == 1 && t.c.block == t.mp.blocks[1] == 7 && t.p == Walking(n, n - 1)
  {
    t := ReadsFirstBlock(min, n);
    for i := 1 to n - 1
      invariant Good(min, t) && Reaches(min, Initial(n), t) && Descending(min, n, i, t)
    {
      t := FreshRound(min, t, Initial(n), n, i);
    }
  }

  lemma Chain(min: int, s: State, t: State, u: State)
    requires Sound(s) && Sound(t) && Reaches(min, s, t) && Reaches(min, t, u)
    ensures Reaches(min, s, u)
  {
    var es :| Run(min, s, es) == t;
    var more :| Run(min, t, more) == u;
    RunOn(min, s, es, more);
    assert Run(min, s, es + more) == u;
  }

  lemma {:induction false} RunOn(min: int, s: State, es: seq<Event>, more: seq<Event>)
    requires Sound(s)
    ensures Run(min, s, es + more) == Run(min, Run(min, s, es), more)
    decreases |more|
  {
    if more == [] {
      assert es + more == es;
    } else {
      var front, e := more[..|more| - 1], more[|more| - 1];
      RunOn(min, s, es, front);
      RunMore(min, s, es + front, e);
      assert es + front + [e] == es + more;
    }
  }

  /** A surviving state in which some processed block is not the recorded one. */
  predicate Differs(s: State) {
    && s.Running? && Settled(s.p)
    && exists k | 0 <= k < |s.log| ::
         0 < s.log[k].height < |s.mp.blocks| && s.mp.blocks[s.log[k].height] != s.log[k].block
  }

  /** Such a state can be reached, whatever number of confirmations is configured. */
  lemma ProcessedMayDiffer(min: int) returns (es: seq<Event>)
    requires 1 <= min < SIZE - 2
    ensures Differs(Run(min, Initial(min + 2), es))
  {
    var s := ReachesInitialWindow(min, min + 2);
    var t := WindowIsOpen(min, s, 8);
    assert t.log[|t.log| - 1].height == 1;
    Chain(min, Initial(min + 2), s, t);
    es :| Run(min, Initial(min + 2), es) == t;
  }
}

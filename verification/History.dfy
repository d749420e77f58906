/**
  Whole histories of the asset ledger (`NXTservices/NXTservices.c:314-352, 628-685, 754-797`): any sequence of
  recorded transactions, from the empty ledger.  What sets the replay of an asset apart from the table is
  exactly its stranded transactions, those that were logged but lacked an address to transfer from or to.
 */
module History {
  import opened Postings
  import opened Ledger

  /** One call of the recording: the transaction, and the addresses found for its two sides. */
  datatype Entry = Entry(asset: nat, tx: Tx, sender: Option<nat>, receiver: Option<nat>)

  /** An address that is not there is logged as 0. */
  predicate Proper(e: Entry) {
    && e.tx.sender == (if e.sender == None then 0 else e.sender.value)
    && e.tx.receiver == (if e.receiver == None then 0 else e.receiver.value)
  }

  predicate Whole(e: Entry) {
    e.sender != None && e.receiver != None
  }

  /** What the recording keeps: the transactions seen, the logs, and everything transferred. */
  datatype State = State(ids: set<nat>, logs: map<nat, seq<Tx>>, moves: seq<Move>)

  function Recorded(s: State, e: Entry): State {
    var added := e.tx.txid !in s.ids;
    State(s.ids + {e.tx.txid},
          s.logs[e.asset := if added then LogIn(s.logs, e.asset) + [e.tx] else LogIn(s.logs, e.asset)],
          if added && Whole(e) then s.moves + [MoveOf(e.tx, e.asset)] else s.moves)
  }

  function After(es: seq<Entry>): State {
    if es == [] then State({}, map[], []) else Recorded(After(es[..|es| - 1]), es[|es| - 1])
  }

  /** The moves of an asset that were logged when first recorded, and never transferred. */
  function Stranded(es: seq<Entry>, asset: nat): seq<Move> {
    if es == [] then []
    else
      var front, e := es[..|es| - 1], es[|es| - 1];
      Stranded(front, asset)
        + if e.asset == asset && e.tx.txid !in After(front).ids && !Whole(e) then [MoveOf(e.tx, asset)] else []
  }

  function LogAfter(es: seq<Entry>, asset: nat): seq<Tx> {
    LogIn(After(es).logs, asset)
  }

  lemma AfterMore(es: seq<Entry>, e: Entry)
    ensures After(es + [e]) == Recorded(After(es), e)
  {
    assert (es + [e])[..|es|] == es;
  }

  /** Whether the last call adds to the log of an asset, and to its transfers. */
  predicate Adds(s: State, e: Entry, asset: nat) {
    e.asset == asset && e.tx.txid !in s.ids
  }

  lemma LogGrows(s: State, e: Entry, asset: nat)
    ensures var log := LogIn(s.logs, asset);
      LogIn(Recorded(s, e).logs, asset) == if Adds(s, e, asset) then log + [e.tx] else log
  {
  }

  lemma MovesGrow(s: State, e: Entry, asset: nat)
    ensures Only(Recorded(s, e).moves, asset)
         == Only(s.moves, asset) + if Adds(s, e, asset) && Whole(e) then [MoveOf(e.tx, asset)] else []
  {
    OnlyMore(s.moves, MoveOf(e.tx, e.asset), asset);
  }

  /** The log of an asset is what was transferred of it and what was stranded. */
  lemma {:induction false} LogSplits(es: seq<Entry>, asset: nat)
    ensures multiset(Logged(LogAfter(es, asset), asset))
         == multiset(Only(After(es).moves, asset)) + multiset(Stranded(es, asset))
  {
    if es != [] {
      var front, e := es[..|es| - 1], es[|es| - 1];
      LogSplits(front, asset);
      LogGrows(After(front), e, asset);
      MovesGrow(After(front), e, asset);
      LoggedMore(LogAfter(front, asset), e.tx, asset);
    }
  }

  /** An asset is in step after a history if and only if none of its transactions was stranded. */
  lemma InStepExactly(es: seq<Entry>, asset: nat)
    ensures InStep(After(es).moves, LogAfter(es, asset), asset) <==> Stranded(es, asset) == []
  {
    LogSplits(es, asset);
    if InStep(After(es).moves, LogAfter(es, asset), asset) {
      var all := multiset(Logged(LogAfter(es, asset), asset));
      assert |all| == |all| + |multiset(Stranded(es, asset))|;
    }
  }

  /** In a history of whole transactions every asset is in step. */
  lemma {:induction false} WholeStrandsNothing(es: seq<Entry>, asset: nat)
    requires forall i | 0 <= i < |es| :: Whole(es[i])
    ensures Stranded(es, asset) == []
  {
    if es != [] {
      WholeStrandsNothing(es[..|es| - 1], asset);
    }
  }

  /** The transactions seen are those of the calls. */
  lemma {:induction false} SeenExactly(es: seq<Entry>, id: nat)
    ensures id in After(es).ids <==> exists i | 0 <= i < |es| :: es[i].tx.txid == id
  {
    if es != [] {
      SeenExactly(es[..|es| - 1], id);
      assert es[|es| - 1].tx.txid == id ==> exists i | 0 <= i < |es| :: es[i].tx.txid == id;
    }
  }

  /** A call that strands its transaction: the first with its id, and without both addresses. */
  predicate Strands(es: seq<Entry>, i: nat, asset: nat)
    requires i < |es|
  {
    es[i].asset == asset && !Whole(es[i]) && forall j | 0 <= j < i :: es[j].tx.txid != es[i].tx.txid
  }

  /** Something is stranded if and only if some call strands its transaction. */
  lemma {:induction false} StrandedExactly(es: seq<Entry>, asset: nat)
    ensures Stranded(es, asset) != [] <==> exists i | 0 <= i < |es| :: Strands(es, i, asset)
  {
    if es != [] {
      var n := |es| - 1;
      var front, e := es[..n], es[n];
      StrandedExactly(front, asset);
      SeenExactly(front, e.tx.txid);
      forall i | 0 <= i < n ensures Strands(front, i, asset) <==> Strands(es, i, asset) {
      }
      assert Strands(es, n, asset) <==> e.asset == asset && !Whole(e) && e.tx.txid !in After(front).ids by {
        if exists i | 0 <= i < n :: front[i].tx.txid == e.tx.txid {
          var i :| 0 <= i < n && front[i].tx.txid == e.tx.txid;
          assert es[i].tx.txid == e.tx.txid;
        } else {
          forall j | 0 <= j < n ensures es[j].tx.txid != e.tx.txid {
            assert front[j].tx.txid != e.tx.txid;
          }
        }
      }
    }
  }

  /** One more entry gives an account the same by the log as by the transfers and what is stranded. */
  lemma EntryFlows(s: State, e: Entry, left: seq<Move>, asset: nat, id: nat)
    requires Flows(Logged(LogIn(s.logs, asset), asset), id, asset) == Flows(s.moves, id, asset) + Flows(left, id, asset)
    ensures var left' := left + if Adds(s, e, asset) && !Whole(e) then [MoveOf(e.tx, asset)] else [];
      Flows(Logged(LogIn(Recorded(s, e).logs, asset), asset), id, asset)
        == Flows(Recorded(s, e).moves, id, asset) + Flows(left', id, asset)
  {
    var m := MoveOf(e.tx, e.asset);
    LogGrows(s, e, asset);
    LoggedMore(LogIn(s.logs, asset), e.tx, asset);
    FlowsMore(Logged(LogIn(s.logs, asset), asset), m, id, asset);
    FlowsMore(s.moves, m, id, asset);
    FlowsMore(left, m, id, asset);
    assert left + [] == left;
  }

  /** The log gives an account what was transferred to it and what was stranded. */
  lemma {:induction false} LogFlows(es: seq<Entry>, asset: nat, id: nat)
    ensures Flows(Logged(LogAfter(es, asset), asset), id, asset)
         == Flows(After(es).moves, id, asset) + Flows(Stranded(es, asset), id, asset)
  {
    if es != [] {
      var front, e := es[..|es| - 1], es[|es| - 1];
      LogFlows(front, asset, id);
      EntryFlows(After(front), e, Stranded(front, asset), asset, id);
    }
  }

  lemma SumStays(l: int, x: int, d: int)
    requires l == x + d
    ensures Wrap(x) == Wrap(l) <==> Wrap(d) == 0
  {
    WrapStays(x, x, d);
  }

  /** What was stranded of an asset gives an account nothing, modulo 2^64. */
  predicate CancelsFor(es: seq<Entry>, asset: nat, id: nat) {
    Wrap(Flows(Stranded(es, asset), id, asset)) == 0
  }

  /** The log and the transfers give an account the same if and only if what was stranded gives it nothing. */
  lemma SameFlowExactly(es: seq<Entry>, asset: nat, id: nat)
    ensures SameFlow(After(es).moves, Logged(LogAfter(es, asset), asset), id, asset)
       <==> CancelsFor(es, asset, id)
  {
    LogFlows(es, asset, id);
    SumStays(Flows(Logged(LogAfter(es, asset), asset), id, asset), Flows(After(es).moves, id, asset),
             Flows(Stranded(es, asset), id, asset));
  }

  ghost predicate StrandedCancels(es: seq<Entry>, asset: nat) {
    forall id: nat :: CancelsFor(es, asset, id)
  }

  /** After a history the log of an asset matches the table if and only if what was stranded cancels. */
  lemma MatchesExactly(es: seq<Entry>, asset: nat)
    ensures Matches(After(es).moves, LogAfter(es, asset), asset) <==> StrandedCancels(es, asset)
  {
    forall id: nat
      ensures SameFlow(After(es).moves, Logged(LogAfter(es, asset), asset), id, asset)
         <==> CancelsFor(es, asset, id)
    {
      SameFlowExactly(es, asset, id);
    }
  }

  lemma {:induction false} UnmentionedFlows(ms: seq<Move>, id: nat, asset: nat)
    requires !Mentioned(ms, id)
    ensures Flows(ms, id, asset) == 0
    decreases |ms|
  {
    if ms != [] {
      var front, m := ms[..|ms| - 1], ms[|ms| - 1];
      assert ms == front + [m];
      MentionedMore(front, m, id);
      UnmentionedFlows(front, id, asset);
    }
  }

  /** Whoever a stranded move mentions, the log mentions. */
  lemma StrandedMentioned(es: seq<Entry>, asset: nat, id: nat)
    requires Mentioned(Stranded(es, asset), id)
    ensures Mentioned(Logged(LogAfter(es, asset), asset), id)
  {
    var ms, log := Stranded(es, asset), Logged(LogAfter(es, asset), asset);
    var k :| 0 <= k < |ms| && (ms[k].from == id || ms[k].to == id);
    LogSplits(es, asset);
    assert ms[k] in multiset(log);
    var j :| 0 <= j < |log| && log[j] == ms[k];
  }

  /** For an account that the log does not mention the condition is met. */
  lemma CancelsOrMentioned(es: seq<Entry>, asset: nat, id: nat)
    ensures CancelsFor(es, asset, id) || Mentioned(Logged(LogAfter(es, asset), asset), id)
  {
    if Mentioned(Stranded(es, asset), id) {
      StrandedMentioned(es, asset, id);
    } else {
      UnmentionedFlows(Stranded(es, asset), id, asset);
      SumStays(0, 0, 0);
    }
  }

  /** Among the accounts of the log alone the condition is the same. */
  lemma CancelsForMentioned(es: seq<Entry>, asset: nat)
    ensures StrandedCancels(es, asset)
       <==> forall id: nat | Mentioned(Logged(LogAfter(es, asset), asset), id) ::
              SameFlow(After(es).moves, Logged(LogAfter(es, asset), asset), id, asset)
  {
    var ms, log := After(es).moves, Logged(LogAfter(es, asset), asset);
    if StrandedCancels(es, asset) {
      forall id: nat | Mentioned(log, id) ensures SameFlow(ms, log, id, asset) {
        assert CancelsFor(es, asset, id);
        SameFlowExactly(es, asset, id);
      }
    } else {
      var id: nat :| !CancelsFor(es, asset, id);
      SameFlowExactly(es, asset, id);
      CancelsOrMentioned(es, asset, id);
      assert Mentioned(log, id) && !SameFlow(ms, log, id, asset);
    }
  }

  /* ---- Running a history ---- */

  /** A ledger in the state that a history leaves. */
  ghost predicate Holds(ledger: Ledger, es: seq<Entry>)
    reads ledger, ledger.objects
  {
    ledger.Valid() && State(ledger.txids, ledger.logged, ledger.moves) == After(es)
  }

  /** Records the transactions one after the other in a new ledger. */
  method RecordAll(es: seq<Entry>) returns (ledger: Ledger)
    requires forall i | 0 <= i < |es| :: Proper(es[i])
    ensures fresh(ledger) && fresh(ledger.objects) && Holds(ledger, es)
  {
    ledger := new Ledger();
    for i := 0 to |es|
      invariant fresh(ledger) && fresh(ledger.objects) && Holds(ledger, es[..i])
    {
      RecordEntry(ledger, es[..i], es[i]);
      assert es[..i + 1] == es[..i] + [es[i]];
    }
    assert es[..|es|] == es;
  }

  method RecordEntry(ledger: Ledger, ghost es: seq<Entry>, e: Entry)
    requires Holds(ledger, es) && Proper(e)
    modifies ledger, ledger.objects
    ensures Holds(ledger, es + [e]) && fresh(ledger.objects - old(ledger.objects))
  {
    AfterMore(es, e);
    var _ := ledger.RecordOnce(e.asset, e.tx, e.sender, e.receiver);
  }

  /** The replay after a history, without a cutoff, gives everyone it lists the holding of the table. */
  ghost predicate Agree(ledger: Ledger, accts: seq<Account>, asset: nat)
    requires ledger.Valid()
    reads ledger, ledger.objects, accts
  {
    forall k | 0 <= k < |accts| :: accts[k].quantity == Signed(ledger.Balance(accts[k].id, asset))
  }

  /**
    After any history, the replay of an asset agrees with the table if and only if what was stranded of it
    cancels; in particular where every transaction had both addresses.
   */
  method ReplayHistory(es: seq<Entry>, asset: nat) returns (ledger: Ledger, accts: seq<Account>)
    requires forall i | 0 <= i < |es| :: Proper(es[i]) && es[i].tx.timestamp <= FOREVER
    requires asset !in COIN_NAMES
    ensures Holds(ledger, es)
    ensures if asset in ledger.logged then ledger.Replayed(accts, Upto(ledger.logged[asset], asset, FOREVER), asset) else accts == []
    ensures Agree(ledger, accts, asset) <==> StrandedCancels(es, asset)
  {
    ledger := RecordAll(es);
    accts := ledger.GetAssetAccts(Some(asset), 0);
    LogTimes(es, asset, FOREVER);
    AgreeExactly(ledger, accts, es, asset, FOREVER);
  }

  lemma {:induction false} LogTimes(es: seq<Entry>, asset: nat, time: int)
    requires forall i | 0 <= i < |es| :: es[i].tx.timestamp <= time
    ensures forall k | 0 <= k < |LogAfter(es, asset)| :: LogAfter(es, asset)[k].timestamp <= time
  {
    if es != [] {
      var front, e := es[..|es| - 1], es[|es| - 1];
      LogTimes(front, asset, time);
      LogGrows(After(front), e, asset);
      assert LogAfter(es, asset) == LogAfter(front, asset) || LogAfter(es, asset) == LogAfter(front, asset) + [e.tx];
    }
  }

  lemma AgreeExactly(ledger: Ledger, accts: seq<Account>, es: seq<Entry>, asset: nat, time: int)
    requires Holds(ledger, es)
    requires forall k | 0 <= k < |LogAfter(es, asset)| :: LogAfter(es, asset)[k].timestamp <= time
    requires if asset in ledger.logged then ledger.Replayed(accts, Upto(ledger.logged[asset], asset, time), asset) else accts == []
    ensures Agree(ledger, accts, asset) <==> StrandedCancels(es, asset)
  {
    CancelsForMentioned(es, asset);
    if asset in ledger.logged {
      UptoTheEnd(LogAfter(es, asset), asset, time);
      ledger.ReplayAgreesExactly(accts, Logged(LogAfter(es, asset), asset), asset);
    }
  }
}

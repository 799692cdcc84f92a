/** When the worker remembers exactly the chain its tables hold, the operations table is the
    event log and nothing but a dying process can stop a poll. */
module WorkerProgress {
  import opened Wrappers
  import opened CoveV1
  import opened Indexer
  import opened Store
  import opened Worker

  // ── The event log of a chain with unique txids ───────────────────────────

  lemma AddTxDistinct(rules: Rules, x: Index, height: int, i: nat, tx: Tx)
    requires Kept(x) && DistinctEvents(x.events) && tx.txid !in x.seen
    ensures DistinctEvents(AddTx(rules, x, height, i, tx).events)
  {
    hide Judge, Sound, IsCandidate;
    forall k | 0 <= k < |x.events|
      ensures x.events[k].txid != tx.txid
    {
      assert x.events[k].txid in Recorded(x.events);
    }
  }

  lemma {:induction false} AddTxsDistinct(rules: Rules, x: Index, height: int, txs: Block, n: nat)
    requires n <= |txs| && DistinctTxids(txs)
    requires Kept(x) && DistinctEvents(x.events) && x.seen !! Txids(txs, |txs|)
    ensures DistinctEvents(AddTxs(rules, x, height, txs, n).events)
  {
    hide Kept, AddTx, DistinctEvents;
    if n > 0 {
      AddTxsDistinct(rules, x, height, txs, n - 1);
      AddTxsKeeps(rules, x, height, txs, n - 1);
      AddTxsExtends(rules, x, height, txs, n - 1);
      assert txs[n - 1].txid in Txids(txs, |txs|) && txs[n - 1].txid !in Txids(txs, n - 1);
      AddTxDistinct(rules, AddTxs(rules, x, height, txs, n - 1), height, n - 1, txs[n - 1]);
    }
  }

  /** Each Cove transaction of the chain is recorded once. */
  lemma {:induction false} FoldEventsAreDistinct(rules: Rules, genesis: int, blocks: seq<Block>)
    requires UniqueTxids(blocks)
    ensures DistinctEvents(Fold(rules, genesis, blocks).events)
  {
    hide Sound, Conserved, AddTxs, Txids, Recorded;
    if blocks == [] {
      FoldOfNothing(rules, genesis);
    } else {
      var n := |blocks| - 1;
      UniquePrefix(blocks, n);
      FoldEventsAreDistinct(rules, genesis, blocks[..n]);
      FoldKeeps(rules, genesis, blocks[..n]);
      NextBlockIsNew(rules, genesis, blocks);
      LastIsDistinct(blocks);
      AddTxsDistinct(rules, Opened(Fold(rules, genesis, blocks[..n]), genesis + n), genesis + n, blocks[n],
                     |blocks[n]|);
    }
  }

  // ── Memory and tables that agree ─────────────────────────────────────────

  /** The index in memory is the clean fold, and the operations table is its event log. */
  ghost predicate FaithfulAt(rules: Rules, genesis: int, t: Tables, x: Index, h: BlockHash) {
    && x == Fold(rules, genesis, BlocksOf(h))
    && RowsOf(t.operations, x.events)
  }

  ghost predicate Faithful(rules: Rules, genesis: int, m: Machine) {
    && RowsOf(m.tables.operations, Fold(rules, genesis, BlocksOf(Anchor(m.tables))).events)
    && (m.worker.Up? ==> FaithfulAt(rules, genesis, m.tables, m.worker.index, Anchor(m.tables)))
  }

  ghost predicate Ready(rules: Rules, genesis: int, s: Scan, c: Chain, k: nat) {
    && s.alive
    && Reached(rules, genesis, s, c, k)
    && FaithfulAt(rules, genesis, s.tables, s.index, HashAt(c, k))
  }

  lemma PersistNeverThrows(rules: Rules, genesis: int, s: Scan, c: Chain, k: nat)
    requires WellFormed(genesis, c) && UniqueTxids(c.blocks) && k < |c.blocks|
    requires Ready(rules, genesis, s, c, k)
    ensures var x := Fold(rules, genesis, c.blocks[..k + 1]);
            && x == AddBlock(rules, s.index, genesis + k, c.blocks[k])
            && Conserved(x.state)
            && UpsertOps(s.tables.operations, x.events).Some?
            && RowsOf(UpsertOps(s.tables.operations, x.events).value, x.events)
  {
    hide Fold, Kept, Conserved, AddTxs, UpsertOps, RowsOf, UniqueTxids, Clean, Tracks;
    HashDeterminesTheChain(c, k);
    FoldNext(rules, genesis, c, k);
    FoldKeeps(rules, genesis, c.blocks[..k + 1]);
    UniquePrefix(c.blocks, k + 1);
    FoldEventsAreDistinct(rules, genesis, c.blocks[..k + 1]);
    AddTxsExtends(rules, Opened(s.index, genesis + k), genesis + k, c.blocks[k], |c.blocks[k]|);
    RewritingTheLog(s.tables.operations, s.index.events, Fold(rules, genesis, c.blocks[..k + 1]).events);
  }

  lemma ScanBlockSucceeds(rules: Rules, genesis: int, s: Scan, c: Chain, k: nat)
    requires WellFormed(genesis, c) && UniqueTxids(c.blocks) && k < |c.blocks|
    requires Ready(rules, genesis, s, c, k)
    ensures Ready(rules, genesis, ScanBlock(rules, genesis, s, c, genesis + k), c, k + 1)
  {
    hide Fold, Kept, Conserved, AddBlock, UpsertOps, UpsertTokens, RowsOf, UniqueTxids, Clean;
    PersistNeverThrows(rules, genesis, s, c, k);
    ScanBlockKeeps(rules, genesis, s, c, k);
    HashDeterminesTheChain(c, k);
    HashDeterminesTheChain(c, k + 1);
    assert HeightError(genesis, s.index, genesis + k).None? by {
      HeightsMatch(rules, genesis, s, c, k);
    }
  }

  lemma HeightsMatch(rules: Rules, genesis: int, s: Scan, c: Chain, k: nat)
    requires Reached(rules, genesis, s, c, k)
    ensures HeightError(genesis, s.index, genesis + k).None?
  {
    hide Fold, Kept, Clean;
    HashDeterminesTheChain(c, k);
  }

  lemma {:induction false} ScanSucceeds(rules: Rules, genesis: int, s: Scan, c: Chain, k: nat, n: nat, budget: nat)
    requires WellFormed(genesis, c) && UniqueTxids(c.blocks) && k + n <= |c.blocks| && n <= budget
    requires Ready(rules, genesis, s, c, k)
    ensures Ready(rules, genesis, ScanBlocks(rules, genesis, s, c, genesis + k, n, budget), c, k + n)
  {
    hide Ready, ScanBlock, UniqueTxids;
    if n > 0 {
      ScanSucceeds(rules, genesis, s, c, k, n - 1, budget);
      var r := ScanBlocks(rules, genesis, s, c, genesis + k, n - 1, budget);
      ReadyIsAlive(rules, genesis, r, c, k + n - 1);
      ScanBlockSucceeds(rules, genesis, r, c, k + n - 1);
    }
  }

  lemma ReadyIsAlive(rules: Rules, genesis: int, s: Scan, c: Chain, k: nat)
    ensures Ready(rules, genesis, s, c, k) ==> s.alive
  {
    hide Reached, FaithfulAt;
  }

  lemma EmptyIsReady(rules: Rules, genesis: int, c: Chain)
    ensures Ready(rules, genesis, Scan(EMPTY_TABLES, FRESH, true), c, 0)
  {
    hide Reached;
    EmptyIsClean(rules, genesis, c);
    FoldOfNothing(rules, genesis);
  }

  /** Leaving a scan: the tables are anchored at the block it reached. */
  lemma ReadyIsFaithful(rules: Rules, genesis: int, s: Scan, c: Chain, k: nat, from: int)
    requires Ready(rules, genesis, s, c, k)
    ensures Faithful(rules, genesis, Machine(s.tables, Up(s.index, from)))
  {
    hide Fold, Kept, RowsOf, CleanCheckpoints, CleanBlocks;
    HashDeterminesTheChain(c, k);
    if k == 0 {
      assert BlocksOf(Anchor(s.tables)) == BlocksOf(HashAt(c, 0));
    }
  }

  lemma RebuildCompletes(rules: Rules, genesis: int, t: Tables, c: Chain, budget: nat)
    requires WellFormed(genesis, c) && UniqueTxids(c.blocks)
    ensures var (m, o) := Rebuild(rules, genesis, t, c, budget);
            && (o == Completed <==> |c.blocks| + 3 <= budget)
            && (o == Completed ==> Faithful(rules, genesis, m))
  {
    hide Ready, Faithful, ScanBlocks, UniqueTxids;
    if budget >= 2 {
      EmptyIsReady(rules, genesis, c);
      var s0 := Scan(EMPTY_TABLES, FRESH, true);
      var s := ScanBlocks(rules, genesis, s0, c, genesis, |c.blocks|, budget - 2);
      if |c.blocks| <= budget - 2 {
        ScanSucceeds(rules, genesis, s0, c, 0, |c.blocks|, budget - 2);
        ReadyIsAlive(rules, genesis, s, c, |c.blocks|);
        ReadyIsFaithful(rules, genesis, s, c, |c.blocks|, c.tip + 1);
        FlagIsNotFaith(rules, genesis, s.tables, s.index, c.tip + 1);
      } else {
        ScanOutlivesNobody(rules, genesis, s0, c, genesis, |c.blocks|, budget - 2);
      }
    }
  }

  lemma FlagIsNotFaith(rules: Rules, genesis: int, t: Tables, x: Index, from: int)
    requires Faithful(rules, genesis, Machine(t, Up(x, from)))
    ensures Faithful(rules, genesis, Machine(SetRebuilding(t, false), Up(x, from)))
  {
    hide Fold, RowsOf;
  }

  lemma {:induction false} ScanOutlivesNobody(rules: Rules, genesis: int, s: Scan, c: Chain, from: int, n: nat,
                                              budget: nat)
    requires n > budget
    ensures !ScanBlocks(rules, genesis, s, c, from, n, budget).alive
  {
    if n - 1 > budget {
      ScanOutlivesNobody(rules, genesis, s, c, from, n - 1, budget);
    }
  }

  lemma AdvanceCompletes(rules: Rules, genesis: int, m: Machine, c: Chain, k: nat, budget: nat)
    requires WellFormed(genesis, c) && UniqueTxids(c.blocks) && k <= |c.blocks|
    requires m.worker.Up? && Inv(rules, genesis, m) && Faithful(rules, genesis, m)
    requires k == |BlocksOf(Anchor(m.tables))|
    requires Anchor(m.tables).HashOf? ==> Anchor(m.tables) == HashAt(c, k)
    ensures var from := m.worker.from;
            var (after, o) := Advance(rules, genesis, m.tables, m.worker.index, from, c, budget);
            && o != Skipped
            && (o == Completed <==> c.tip < from || (genesis <= from && c.tip - from + 1 <= budget))
            && (o == Completed ==> Faithful(rules, genesis, after))
  {
    hide Fold, Ready, Inv, ScanBlocks, UniqueTxids, Reached, RowsOf;
    var t, x, from := m.tables, m.worker.index, m.worker.from;
    EmptyAnchor(rules, genesis, m, c, k);
    if from <= c.tip {
      var s := Scan(t, x, true);
      var n := c.tip - from + 1;
      if from < genesis {
        FirstScanDies(rules, genesis, s, c, from, n, budget);
      } else if n <= budget {
        StartIsReady(rules, genesis, m, c, k);
        ScanSucceeds(rules, genesis, s, c, k, n, budget);
        var after := ScanBlocks(rules, genesis, s, c, from, n, budget);
        ReadyIsAlive(rules, genesis, after, c, k + n);
        ReadyIsFaithful(rules, genesis, after, c, k + n, c.tip + 1);
      } else {
        ScanOutlivesNobody(rules, genesis, s, c, from, n, budget);
      }
    }
  }

  lemma StartIsReady(rules: Rules, genesis: int, m: Machine, c: Chain, k: nat)
    requires k <= |c.blocks| && m.worker.Up? && Faithful(rules, genesis, m)
    requires k == |BlocksOf(Anchor(m.tables))|
    requires Anchor(m.tables).HashOf? ==> Anchor(m.tables) == HashAt(c, k)
    requires Reached(rules, genesis, Scan(m.tables, m.worker.index, true), c, k)
    ensures Ready(rules, genesis, Scan(m.tables, m.worker.index, true), c, k)
  {
    hide Fold, Reached, RowsOf;
    HashDeterminesTheChain(c, k);
  }

  /** A poll compares the cursor with the chain and finds it elsewhere. */
  predicate SeesReorg(genesis: int, t: Tables, c: Chain, hashAvailable: bool) {
    && t.cursor.Some?
    && (c.tip < t.cursor.value.height ||
        (hashAvailable && HashAtHeight(genesis, c, t.cursor.value.height) != t.cursor.value.blockHash))
  }

  /** A poll of a faithful worker fails only when the process dies first: neither the ledger
      assertion nor the replay guard ever throws. A rebuild needs three writes besides its
      blocks; a worker left below activation by a rebuild over a short chain dies once. */
  lemma PollCompletesExactly(rules: Rules, genesis: int, m: Machine, c: Chain, hashAvailable: bool, budget: nat)
    requires WellFormed(genesis, c) && UniqueTxids(c.blocks)
    requires m.worker.Up? && Inv(rules, genesis, m) && Faithful(rules, genesis, m)
    ensures var (after, o) := PollOnce(rules, genesis, m, c, hashAvailable, budget);
            var from := m.worker.from;
            && (o == Completed <==>
                if SeesReorg(genesis, m.tables, c, hashAvailable) then |c.blocks| + 3 <= budget
                else (m.tables.cursor.None? || hashAvailable) &&
                     (c.tip < from || (genesis <= from && c.tip - from + 1 <= budget)))
            && (o != Crashed ==> Faithful(rules, genesis, after))
  {
    hide Fold, UniqueTxids, Kept, CleanCheckpoints, CleanBlocks, Rebuild, Advance, Tracks, Faithful;
    var cursor := m.tables.cursor;
    RebuildCompletes(rules, genesis, m.tables, c, budget);
    RebuildKeeps(rules, genesis, m.tables, c, budget);
    if cursor.None? {
      AdvanceCompletes(rules, genesis, m, c, 0, budget);
    } else if c.tip >= cursor.value.height && HashAtHeight(genesis, c, cursor.value.height) == cursor.value.blockHash {
      AdvanceCompletes(rules, genesis, m, c, |BlocksOf(cursor.value.blockHash)|, budget);
    }
  }

  /** A restart on the chain the cursor is on always comes up, and remembers exactly that chain. */
  lemma RestartOnTheSameChain(rules: Rules, genesis: int, m: Machine, c: Chain)
    requires WellFormed(genesis, c) && Inv(rules, genesis, m) && Faithful(rules, genesis, m)
    requires m.tables.cursor.Some? ==>
               && m.tables.cursor.value.height <= c.tip
               && HashAtHeight(genesis, c, m.tables.cursor.value.height) == m.tables.cursor.value.blockHash
    ensures var after := RestartOnce(rules, genesis, m.tables, c, true);
            && after.worker.Up?
            && Inv(rules, genesis, after) && Faithful(rules, genesis, after)
  {
    hide Fold, Tracks, CleanCheckpoints, CleanBlocks, RowsOf;
    RestartComesUpExactly(rules, genesis, m.tables, c, true);
    RestartKeeps(rules, genesis, m.tables, c, true);
    FoldOfNothing(rules, genesis);
    if m.tables.cursor.Some? {
      var cursor := m.tables.cursor.value;
      if cursor.height >= genesis {
        HashDeterminesTheChain(c, cursor.height - genesis + 1);
      }
    }
  }

  // ── A restart that is refused ────────────────────────────────────────────

  const ANY_RULES := Rules(_ => true, (_, _) => 0, _ => 0, (_, _) => None, 0, 0)

  /** One block with a deployment. */
  const DEPLOY_TX := Tx("d", Some("actor"), [Output("", Some(Ok(DeployEnvelope("COVE"))))])
  const DEPLOYED := Chain(0, [[DEPLOY_TX]], 1)

  /** The worker indexes the deployment and goes down. */
  const INDEXED: seq<Input> := [Restart(DEPLOYED, true), Poll(DEPLOYED, true, 1), Kill]

  /** Where this input shows a chain that reaches activation, its first block is empty. */
  predicate DeploymentIsGone(i: Input) {
    i.Restart? && i.chain.blocks != [] ==> i.chain.blocks[0] == []
  }

  lemma DeployedLedger()
    ensures "d" in Fold(ANY_RULES, 1, [[DEPLOY_TX]]).state.tokens
  {
    var x := Opened(FRESH, 1);
    FoldOfNothing(ANY_RULES, 1);
    assert [[DEPLOY_TX]][..0] == [];
    assert AddTxs(ANY_RULES, x, 1, [DEPLOY_TX], 0) == x;
    assert AddBlock(ANY_RULES, FRESH, 1, [DEPLOY_TX]) == AddTx(ANY_RULES, x, 1, 0, DEPLOY_TX);
    assert DEPLOY_TX.outputs[..0] == [];
    assert CoveOutputs(DEPLOY_TX.outputs) == [0];
    assert Refusal(ANY_RULES, EMPTY_STATE, Deploy("d", "actor", "COVE")).None?;
    assert Judge(ANY_RULES, EMPTY_STATE, DEPLOY_TX).next == Apply(ANY_RULES, EMPTY_STATE, Deploy("d", "actor", "COVE"));
  }

  lemma EmptyBlockLedger()
    ensures Fold(ANY_RULES, 1, [[]]).state == EMPTY_STATE
  {
    var blocks: seq<Block> := [[]];
    FoldOfNothing(ANY_RULES, 1);
    assert blocks[..0] == [];
  }

  lemma IndexedTables()
    ensures AllAdmissible(1, INDEXED) && EndsWithCompletedPoll(ANY_RULES, 1, INDEXED[..2])
    ensures var m := Run(ANY_RULES, 1, INDEXED);
            && m.worker == Down && Clean(ANY_RULES, 1, m.tables, Anchor(m.tables))
            && m.tables.cursor.Some? && m.tables.cursor.value.height == 1
            && BlocksOf(m.tables.cursor.value.blockHash) == [[DEPLOY_TX]]
  {
    hide Fold, AddTxs, Kept, Conserved, ScanBlocks, Tracks, RowsOf;
    var up := RestartOnce(ANY_RULES, 1, EMPTY_TABLES, DEPLOYED, true);
    EmptyIsReady(ANY_RULES, 1, DEPLOYED);
    ReadyIsFaithful(ANY_RULES, 1, Scan(EMPTY_TABLES, FRESH, true), DEPLOYED, 0, 1);
    InstalledIsClean(ANY_RULES, 1);
    RestartKeeps(ANY_RULES, 1, EMPTY_TABLES, DEPLOYED, true);
    assert UniqueTxids(DEPLOYED.blocks);
    hide Inv, Faithful;
    PollCompletesExactly(ANY_RULES, 1, up, DEPLOYED, true, 1);
    PollKeeps(ANY_RULES, 1, up, DEPLOYED, true, 1);
    var polled := PollOnce(ANY_RULES, 1, up, DEPLOYED, true, 1).0;
    hide PollOnce;
    AnchorOfClean(ANY_RULES, 1, polled.tables, TipHash(DEPLOYED));
    HashDeterminesTheChain(DEPLOYED, 1);
    assert DEPLOYED.blocks[..1] == [[DEPLOY_TX]];
    assert INDEXED[..0] == [] && INDEXED[..1][..0] == [] && INDEXED[..2][..1] == INDEXED[..1];
    assert Run(ANY_RULES, 1, INDEXED[..1]) == up;
    assert Run(ANY_RULES, 1, INDEXED[..2]) == polled;
  }

  lemma StartIsRefused(t: Tables, c: Chain, fetched: bool)
    requires WellFormed(1, c) && DeploymentIsGone(Restart(c, fetched))
    requires Clean(ANY_RULES, 1, t, Anchor(t)) && t.cursor.Some? && t.cursor.value.height == 1
    requires BlocksOf(t.cursor.value.blockHash) == [[DEPLOY_TX]]
    ensures RestartOnce(ANY_RULES, 1, t, c, fetched) == Machine(t, Down)
  {
    hide Fold, Clean;
    RestartComesUpExactly(ANY_RULES, 1, t, c, fetched);
    DeployedLedger();
    EmptyBlockLedger();
    if c.blocks != [] {
      assert c.blocks[..1] == [[]];
    }
  }

  /** A block that changed the ledger is replaced while the worker is down. Whatever happens
      afterwards, on chains of any length, it never comes up again and nothing is repaired. */
  lemma {:induction false} OfflineReorgStopsRestarts(inputs: seq<Input>)
    requires AllAdmissible(1, inputs) && forall i :: i in inputs ==> DeploymentIsGone(i)
    ensures AllAdmissible(1, INDEXED) && AllAdmissible(1, INDEXED + inputs)
    ensures Run(ANY_RULES, 1, INDEXED + inputs) == Run(ANY_RULES, 1, INDEXED)
    ensures Run(ANY_RULES, 1, INDEXED).worker == Down
    decreases |inputs|
  {
    hide RestartOnce, PollOnce, Clean;
    IndexedTables();
    if inputs == [] {
      assert INDEXED + inputs == INDEXED;
    } else {
      var init, last := inputs[..|inputs| - 1], inputs[|inputs| - 1];
      OfflineReorgStopsRestarts(init);
      assert (INDEXED + inputs)[..|INDEXED + inputs| - 1] == INDEXED + init;
      if last.Restart? {
        StartIsRefused(Run(ANY_RULES, 1, INDEXED).tables, last.chain, last.fetched);
      }
    }
  }

  // ── A tip that falls below activation ────────────────────────────────────

  /** A tip under activation leaves a live worker with empty tables that waits for the wrong
      height; as soon as the tip grows it dies. */
  lemma GrowingBackKillsTheWorker(rules: Rules, genesis: int, m: Machine, low: Chain, c: Chain,
                                  hashAvailable: bool, budget: nat, later: nat)
    requires WellFormed(genesis, low) && m.worker.Up? && m.tables.cursor.Some?
    requires low.tip < m.tables.cursor.value.height && low.tip < genesis - 1 && budget > 2
    requires low.tip < c.tip
    ensures var waiting := Machine(EMPTY_TABLES, Up(FRESH, low.tip + 1));
            && PollOnce(rules, genesis, m, low, hashAvailable, budget) == (waiting, Completed)
            && PollOnce(rules, genesis, waiting, c, hashAvailable, later) == (Machine(EMPTY_TABLES, Down), Crashed)
  {
    hide ScanBlock;
    FirstScanDies(rules, genesis, Scan(EMPTY_TABLES, FRESH, true), c, low.tip + 1, c.tip - low.tip, later);
  }

  /** Activation at height 3: a first block, then a tip of 1, then one of 4. */
  const FALL_AND_RISE: seq<Input> :=
    [Restart(Chain(0, [[]], 3), true), Poll(Chain(0, [[]], 3), true, 1),
     Poll(Chain(0, [], 1), true, 3), Poll(Chain(0, [[], []], 4), true, 9)]

  lemma FirstBlockIsPolled()
    ensures AllAdmissible(3, FALL_AND_RISE)
    ensures var m := Run(ANY_RULES, 3, FALL_AND_RISE[..2]);
            m.worker.Up? && m.tables.cursor.Some? && m.tables.cursor.value.height == 3
  {
    hide Fold, AddTxs, Kept, Conserved, ScanBlocks, Tracks, RowsOf;
    var a := Chain(0, [[]], 3);
    var up := RestartOnce(ANY_RULES, 3, EMPTY_TABLES, a, true);
    EmptyIsReady(ANY_RULES, 3, a);
    ReadyIsFaithful(ANY_RULES, 3, Scan(EMPTY_TABLES, FRESH, true), a, 0, 3);
    InstalledIsClean(ANY_RULES, 3);
    RestartKeeps(ANY_RULES, 3, EMPTY_TABLES, a, true);
    hide Inv, Faithful;
    PollCompletesExactly(ANY_RULES, 3, up, a, true, 1);
    PollKeeps(ANY_RULES, 3, up, a, true, 1);
    var polled := PollOnce(ANY_RULES, 3, up, a, true, 1).0;
    assert polled.worker.Up?;
    hide PollOnce;
    var h := FALL_AND_RISE;
    assert h[..0] == [] && h[..1][..0] == [] && h[..2][..1] == h[..1];
    assert Run(ANY_RULES, 3, h[..1]) == up;
    assert Run(ANY_RULES, 3, h[..2]) == polled;
  }

  /** That kills a worker that started on an empty database and met no failure of its own. */
  lemma FallAndRiseKillsTheWorker()
    ensures AllAdmissible(3, FALL_AND_RISE)
    ensures Run(ANY_RULES, 3, FALL_AND_RISE[..3]) == Machine(EMPTY_TABLES, Up(FRESH, 2))
    ensures Run(ANY_RULES, 3, FALL_AND_RISE) == Machine(EMPTY_TABLES, Down)
  {
    FirstBlockIsPolled();
    var h := FALL_AND_RISE;
    assert h[..3][..2] == h[..2];
    hide PollOnce;
    GrowingBackKillsTheWorker(ANY_RULES, 3, Run(ANY_RULES, 3, h[..2]), h[2].chain, h[3].chain, true, 3, 9);
  }

  /** When the rebuild for the low tip dies right after clearing, the tables are empty and nothing
      says that a rebuild was under way. */
  lemma RebuildDiesUnseen()
    ensures AllAdmissible(3, FALL_AND_RISE)
    ensures var dying := FALL_AND_RISE[..2] + [Poll(Chain(0, [], 1), true, 2)];
            && AllAdmissible(3, dying) && !IsRebuilding(Run(ANY_RULES, 3, dying).tables)
            && Run(ANY_RULES, 3, dying) == Machine(EMPTY_TABLES, Down)
  {
    FirstBlockIsPolled();
    var dying := FALL_AND_RISE[..2] + [Poll(Chain(0, [], 1), true, 2)];
    assert dying[..2] == FALL_AND_RISE[..2];
  }
}

/** The worker that keeps the store in step with a chain that may reorganise: it restarts,
    polls, rebuilds, and can die between any two writes. */
module Worker {
  import opened Wrappers
  import opened CoveV1
  import opened Indexer
  import opened Store

  /** What the node reports: `blocks` are those from the activation height to `tip`. */
  datatype Chain = Chain(history: nat, blocks: seq<Block>, tip: int)

  predicate WellFormed(genesis: int, c: Chain) {
    |c.blocks| == if c.tip < genesis then 0 else c.tip - genesis + 1
  }

  /** The hash after the first n blocks. */
  function HashAt(c: Chain, n: nat): BlockHash
    requires n <= |c.blocks|
  {
    if n == 0 then Before(c.history) else HashOf(HashAt(c, n - 1), c.blocks[n - 1])
  }

  function TipHash(c: Chain): BlockHash {
    HashAt(c, |c.blocks|)
  }

  /** The hash of the block at a height between activation and the tip. */
  function HashAtHeight(genesis: int, c: Chain, height: int): BlockHash {
    if genesis <= height < genesis + |c.blocks| then HashAt(c, height - genesis + 1) else Before(c.history)
  }

  function BlocksOf(h: BlockHash): seq<Block> {
    match h
    case Before(_) => []
    case HashOf(parent, txs) => BlocksOf(parent) + [txs]
  }

  lemma {:induction false} HashDeterminesTheChain(c: Chain, n: nat)
    requires n <= |c.blocks|
    ensures BlocksOf(HashAt(c, n)) == c.blocks[..n]
  {
    if n > 0 {
      HashDeterminesTheChain(c, n - 1);
    }
  }

  // ── What the tables should hold ──────────────────────────────────────────

  /** A checkpoint at every height from activation on, each with the root of the fold so far. */
  function CleanCheckpoints(rules: Rules, genesis: int, h: BlockHash): map<int, Checkpoint> {
    match h
    case Before(_) => map[]
    case HashOf(parent, _) =>
      CleanCheckpoints(rules, genesis, parent)
        [genesis + |BlocksOf(h)| - 1 := Checkpoint(h, RootOf(Fold(rules, genesis, BlocksOf(h)).state))]
  }

  function CleanBlocks(genesis: int, h: BlockHash): map<int, BlockRow> {
    match h
    case Before(_) => map[]
    case HashOf(parent, _) => CleanBlocks(genesis, parent)[genesis + |BlocksOf(h)| - 1 := BlockRow(h, parent)]
  }

  /** Tokens, balances, checkpoints, blocks and cursor are the clean fold of the chain that h
      identifies, from activation to its last block. */
  ghost predicate Clean(rules: Rules, genesis: int, t: Tables, h: BlockHash) {
    var s := Fold(rules, genesis, BlocksOf(h)).state;
    && t.tokens == s.tokens
    && t.balances == s.balances
    && t.checkpoints == CleanCheckpoints(rules, genesis, h)
    && t.blocks == CleanBlocks(genesis, h)
    && (h.Before? ==> t.cursor.None?)
    && (h.HashOf? ==>
          && t.cursor.Some? && t.cursor.value.height == genesis + |BlocksOf(h)| - 1
          && t.cursor.value.blockHash == h)
  }

  /** The checkpoint table read entry by entry. */
  lemma {:induction false} CheckpointsOfTheChain(rules: Rules, genesis: int, c: Chain, n: nat)
    requires n <= |c.blocks|
    ensures forall height :: height in CleanCheckpoints(rules, genesis, HashAt(c, n)) <==>
            genesis <= height < genesis + n
    ensures forall k :: 0 < k <= n ==>
              CleanCheckpoints(rules, genesis, HashAt(c, n))[genesis + k - 1]
              == Checkpoint(HashAt(c, k), RootOf(Fold(rules, genesis, c.blocks[..k]).state))
  {
    hide Fold;
    if n > 0 {
      CheckpointsOfTheChain(rules, genesis, c, n - 1);
      HashDeterminesTheChain(c, n);
    }
  }

  // ── The worker as functions ──────────────────────────────────────────────

  datatype Worker = Down | Up(index: Index, from: int)
  datatype Machine = Machine(tables: Tables, worker: Worker)

  const INSTALLED := Machine(EMPTY_TABLES, Down)

  datatype Scan = Scan(tables: Tables, index: Index, alive: bool)

  /** Fold one block and persist it; any throw kills the worker. */
  ghost function ScanBlock(rules: Rules, genesis: int, s: Scan, c: Chain, height: int): Scan {
    var k := height - genesis;
    if HeightError(genesis, s.index, height).Some? || k >= |c.blocks| then s.(alive := false)
    else
      var x := AddBlock(rules, s.index, height, c.blocks[k]);
      if !Conserved(x.state) then Scan(s.tables, x, false)
      else
        match Persist(s.tables, height, HashAt(c, k + 1), HashAt(c, k), x.state, x.events)
        case None => Scan(s.tables, x, false)
        case Some(t) => Scan(t, x, true)
  }

  /** n blocks from `from`; the worker dies when `budget` of them have been persisted. */
  ghost function ScanBlocks(rules: Rules, genesis: int, s: Scan, c: Chain, from: int, n: nat, budget: nat): Scan {
    if n == 0 then s
    else
      var r := ScanBlocks(rules, genesis, s, c, from, n - 1, budget);
      if !r.alive then r
      else if n > budget then r.(alive := false)
      else ScanBlock(rules, genesis, r, c, from + n - 1)
  }

  datatype Outcome = Completed | Skipped | Crashed

  /** Raise the flag, clear, scan from activation, lower the flag: `budget` counts the writes
      made before the process dies. */
  ghost function Rebuild(rules: Rules, genesis: int, t: Tables, c: Chain, budget: nat): (Machine, Outcome) {
    if budget == 0 then (Machine(t, Down), Crashed)
    else if budget == 1 then (Machine(SetRebuilding(t, true), Down), Crashed)
    else
      var s := ScanBlocks(rules, genesis, Scan(EMPTY_TABLES, FRESH, true), c, genesis, |c.blocks|, budget - 2);
      if !s.alive || budget - 2 == |c.blocks| then (Machine(s.tables, Down), Crashed)
      else (Machine(SetRebuilding(s.tables, false), Up(s.index, c.tip + 1)), Completed)
  }

  ghost function Advance(rules: Rules, genesis: int, t: Tables, index: Index, from: int, c: Chain,
                         budget: nat): (Machine, Outcome) {
    if from > c.tip then (Machine(t, Up(index, from)), Completed)
    else
      var s := ScanBlocks(rules, genesis, Scan(t, index, true), c, from, c.tip - from + 1, budget);
      if s.alive then (Machine(s.tables, Up(s.index, c.tip + 1)), Completed) else (Machine(s.tables, Down), Crashed)
  }

  /** One poll: compare the stored cursor with the chain, then rebuild or move on. */
  ghost function PollOnce(rules: Rules, genesis: int, m: Machine, c: Chain, hashAvailable: bool,
                          budget: nat): (Machine, Outcome)
    requires m.worker.Up?
  {
    var cursor := m.tables.cursor;
    if cursor.Some? && c.tip < cursor.value.height then Rebuild(rules, genesis, m.tables, c, budget)
    else if cursor.Some? && !hashAvailable then (m, Skipped)
    else if cursor.Some? && HashAtHeight(genesis, c, cursor.value.height) != cursor.value.blockHash then
      Rebuild(rules, genesis, m.tables, c, budget)
    else Advance(rules, genesis, m.tables, m.worker.index, m.worker.from, c, budget)
  }

  /** The chain replayed to the cursor. */
  function Replayed(rules: Rules, genesis: int, c: Chain, height: int): Index {
    Fold(rules, genesis, if genesis <= height < genesis + |c.blocks| then c.blocks[..height - genesis + 1] else [])
  }

  /** The latest checkpoint is the cursor's: same height, hash and root. */
  ghost predicate CheckpointAgrees(t: Tables, cursor: Cursor, root: StateRoot) {
    && cursor.height in t.checkpoints
    && (forall h :: h in t.checkpoints ==> h <= cursor.height)
    && t.checkpoints[cursor.height] == Checkpoint(cursor.blockHash, root)
  }

  /** Start up: replay to the cursor and compare roots, or start at activation. */
  ghost function RestartOnce(rules: Rules, genesis: int, t: Tables, c: Chain, fetched: bool): Machine {
    match t.cursor
    case None => Machine(t, Up(FRESH, genesis))
    case Some(cursor) =>
      if c.tip < cursor.height || !fetched then Machine(t, Down)
      else
        var x := Replayed(rules, genesis, c, cursor.height);
        if CheckpointAgrees(t, cursor, RootOf(x.state)) then Machine(t, Up(x, cursor.height + 1)) else Machine(t, Down)
  }

  // ── The process ──────────────────────────────────────────────────────────

  class CoveWorker {
    const rules: Rules
    const genesis: int
    const store: CoveStore
    var indexer: CoveIndexer
    var from: int

    constructor (rules: Rules, genesis: int, store: CoveStore)
      ensures Valid() && this.store == store && fresh(indexer)
      ensures this.rules == rules && this.genesis == genesis
    {
      hide Kept;
      this.rules, this.genesis, this.store := rules, genesis, store;
      indexer := new CoveIndexer(rules, genesis);
      from := genesis;
      FreshIsKept();
    }

    ghost predicate Valid()
      reads this, indexer
    {
      && indexer.rules == rules && indexer.genesis == genesis
      && Kept(indexer.Contents())
    }

    /** Fold one block and persist it in one transaction. */
    method IndexAndPersist(c: Chain, h: int) returns (alive: bool)
      requires Valid()
      modifies indexer, store
      ensures Valid()
      ensures Scan(store.Contents(), indexer.Contents(), alive)
              == ScanBlock(rules, genesis, old(Scan(store.Contents(), indexer.Contents(), true)), c, h)
    {
      hide Kept, AddBlock, Persist, Conserved;
      var k := h - genesis;
      if k >= |c.blocks| {
        return false;
      }
      if h >= genesis {
        AddBlockKeeps(rules, indexer.Contents(), h, c.blocks[k]);
      }
      var error := indexer.ProcessBlock(h, if k < 0 then [] else c.blocks[k]);
      if error.Some? {
        return false;
      }
      alive := store.PersistBlock(h, HashAt(c, k + 1), HashAt(c, k), indexer.state, indexer.events);
    }

    /** The chain is fixed while a range is scanned; `budget` is when the process dies. */
    method ScanAndPersist(c: Chain, start: int, last: int, budget: nat) returns (alive: bool)
      requires Valid() && start <= last + 1
      modifies indexer, store
      ensures Valid()
      ensures Scan(store.Contents(), indexer.Contents(), alive)
              == ScanBlocks(rules, genesis, old(Scan(store.Contents(), indexer.Contents(), true)), c, start,
                            last + 1 - start, budget)
    {
      hide Kept, ScanBlock;
      ghost var s0 := Scan(store.Contents(), indexer.Contents(), true);
      alive := true;
      var n: nat := 0;
      while n < last + 1 - start && alive
        invariant 0 <= n <= last + 1 - start
        invariant Valid()
        invariant Scan(store.Contents(), indexer.Contents(), alive)
                  == ScanBlocks(rules, genesis, s0, c, start, n, budget)
        decreases last + 1 - start - n
      {
        n := n + 1;
        if n > budget {
          alive := false;
        } else {
          alive := IndexAndPersist(c, start + n - 1);
        }
      }
      if !alive {
        DeadStaysDead(rules, genesis, s0, c, start, n, last + 1 - start, budget);
      }
    }

    method RebuildFromGenesis(c: Chain, budget: nat) returns (outcome: Outcome)
      requires WellFormed(genesis, c)
      modifies this, store
      ensures Valid() && fresh(indexer) && outcome != Skipped
      ensures var (m, o) := Rebuild(rules, genesis, old(store.Contents()), c, budget);
              && outcome == o && store.Contents() == m.tables
              && (o == Completed ==> m.worker == Up(indexer.Contents(), from))
    {
      hide Kept, ScanBlocks, SetRebuilding;
      indexer := new CoveIndexer(rules, genesis);
      FreshIsKept();
      if budget == 0 {
        return Crashed;
      }
      store.MarkRebuilding(true);
      if budget == 1 {
        return Crashed;
      }
      store.ClearCove();
      var alive := ScanAndPersist(c, genesis, genesis + |c.blocks| - 1, budget - 2);
      if !alive || budget - 2 == |c.blocks| {
        return Crashed;
      }
      store.MarkRebuilding(false);
      from := c.tip + 1;
      outcome := Completed;
    }

    method Poll(c: Chain, hashAvailable: bool, budget: nat) returns (outcome: Outcome)
      requires Valid() && WellFormed(genesis, c)
      modifies this, indexer, store
      ensures Valid() && (indexer == old(indexer) || fresh(indexer))
      ensures var (m, o) := PollOnce(rules, genesis, old(Machine(store.Contents(), Up(indexer.Contents(), from))), c,
                                     hashAvailable, budget);
              && outcome == o && store.Contents() == m.tables
              && (o != Crashed ==> m.worker == Up(indexer.Contents(), from))
    {
      hide Kept, Rebuild, ScanBlocks, HashAtHeight;
      var stored := store.cursor;
      if stored.Some? {
        if c.tip < stored.value.height {
          outcome := RebuildFromGenesis(c, budget);
          return;
        }
        if !hashAvailable {
          return Skipped;
        }
        if HashAtHeight(genesis, c, stored.value.height) != stored.value.blockHash {
          outcome := RebuildFromGenesis(c, budget);
          return;
        }
      }
      if from > c.tip {
        return Completed;
      }
      var alive := ScanAndPersist(c, from, c.tip, budget);
      if !alive {
        return Crashed;
      }
      from := c.tip + 1;
      outcome := Completed;
    }

    /** A fresh process: replay to the cursor, then require a checkpoint with the same root. */
    method Start(c: Chain, fetched: bool) returns (up: bool)
      requires WellFormed(genesis, c)
      modifies this
      ensures Valid() && fresh(indexer)
      ensures var m := RestartOnce(rules, genesis, store.Contents(), c, fetched);
              && up == m.worker.Up?
              && (up ==> m.worker == Up(indexer.Contents(), from))
    {
      hide Kept, AddBlock, Conserved;
      indexer := new CoveIndexer(rules, genesis);
      from := genesis;
      FreshIsKept();
      if store.cursor.None? {
        return true;
      }
      var cursor := store.cursor.value;
      if c.tip < cursor.height || !fetched {
        return false;
      }
      var n := if cursor.height < genesis then 0 else cursor.height - genesis + 1;
      for i := 0 to n
        invariant Valid() && fresh(indexer) && from == genesis
        invariant indexer.Contents() == Fold(rules, genesis, c.blocks[..i])
      {
        FoldKeeps(rules, genesis, c.blocks[..i]);
        FoldKeeps(rules, genesis, c.blocks[..i + 1]);
        assert c.blocks[..i + 1][..i] == c.blocks[..i];
        var error := indexer.ProcessBlock(genesis + i, c.blocks[i]);
      }
      var latest := store.GetLatestCheckpoint();
      if latest.None? || latest.value.0 != cursor.height {
        return false;
      }
      if latest.value.1.blockHash != cursor.blockHash || latest.value.1.stateRoot != RootOf(indexer.state) {
        return false;
      }
      from := cursor.height + 1;
      up := true;
    }
  }

  lemma {:induction false} DeadStaysDead(rules: Rules, genesis: int, s: Scan, c: Chain, from: int, k: nat, n: nat,
                                         budget: nat)
    requires k <= n
    requires !ScanBlocks(rules, genesis, s, c, from, k, budget).alive
    ensures ScanBlocks(rules, genesis, s, c, from, n, budget) == ScanBlocks(rules, genesis, s, c, from, k, budget)
    decreases n
  {
    if k < n {
      DeadStaysDead(rules, genesis, s, c, from, k, n - 1, budget);
    }
  }

  // ── The invariant of every run ───────────────────────────────────────────

  /** The chain the cursor points at. */
  function Anchor(t: Tables): BlockHash {
    if t.cursor.None? then Before(0) else t.cursor.value.blockHash
  }

  /** The index in memory has the ledger of the anchored chain, but may remember other
      transactions: a restart compares roots only. */
  ghost predicate Tracks(rules: Rules, genesis: int, x: Index, from: int, h: BlockHash) {
    var next := genesis + |BlocksOf(h)|;
    && Kept(x)
    && x.state == Fold(rules, genesis, BlocksOf(h)).state
    && (forall e :: e in x.events ==> e.height < next)
    && (if h.Before? then x == FRESH && from <= next else x.lastHeight == Some(next - 1) && from == next)
  }

  ghost predicate Inv(rules: Rules, genesis: int, m: Machine) {
    && Clean(rules, genesis, m.tables, Anchor(m.tables))
    && (m.worker.Up? ==> Tracks(rules, genesis, m.worker.index, m.worker.from, Anchor(m.tables)))
  }

  lemma FoldNext(rules: Rules, genesis: int, c: Chain, k: nat)
    requires k < |c.blocks|
    ensures c.blocks[..k + 1][..k] == c.blocks[..k]
    ensures Fold(rules, genesis, c.blocks[..k + 1]) == AddBlock(rules, Fold(rules, genesis, c.blocks[..k]),
                                                                genesis + k, c.blocks[k])
  {
    hide AddBlock;
    assert c.blocks[..k + 1][..k] == c.blocks[..k];
  }

  lemma UniquePrefix(blocks: seq<Block>, n: nat)
    requires n <= |blocks| && UniqueTxids(blocks)
    ensures UniqueTxids(blocks[..n])
  {
    hide Txids, DistinctTxids;
  }

  lemma UpsertIsReplace(before: State, after: State)
    requires IdentitiesKept(before, after)
    ensures UpsertTokens(before.tokens, after.tokens) == after.tokens
  {
  }

  /** A persisted block moves clean tables from the chain up to block k to the chain up to
      block k + 1, or the replay guard refuses it. */
  lemma ScanBlockKeeps(rules: Rules, genesis: int, s: Scan, c: Chain, k: nat)
    requires WellFormed(genesis, c) && UniqueTxids(c.blocks) && k < |c.blocks|
    requires Reached(rules, genesis, s, c, k)
    ensures var after := ScanBlock(rules, genesis, s, c, genesis + k);
            && (after.alive ==> Reached(rules, genesis, after, c, k + 1))
            && (!after.alive ==> after.tables == s.tables)
  {
    hide Kept, Conserved, Clash, UniqueTxids, AddTxs, Fold, UpsertTokens, UpsertOps;
    HashDeterminesTheChain(c, k);
    HashDeterminesTheChain(c, k + 1);
    FoldNext(rules, genesis, c, k);
    UniquePrefix(c.blocks, k + 1);
    var x := AddBlock(rules, s.index, genesis + k, c.blocks[k]);
    AddBlockKeeps(rules, s.index, genesis + k, c.blocks[k]);
    NextHeights(rules, s.index, genesis + k, c.blocks[k]);
    AgreesOrClashes(rules, genesis, s.index, c.blocks[..k + 1]);
    ReplayGuardThrowsExactly(s.tables.operations, x.events);
    if !Clash(x.events) {
      UpsertIsReplace(s.index.state, x.state);
    }
  }

  lemma NextHeights(rules: Rules, x: Index, height: int, txs: Block)
    requires forall e :: e in x.events ==> e.height < height
    ensures forall e :: e in AddBlock(rules, x, height, txs).events ==> e.height < height + 1
  {
    hide AddTxs, Txids;
    AddTxsExtends(rules, Opened(x, height), height, txs, |txs|);
    var after := AddBlock(rules, x, height, txs);
    forall e | e in after.events
      ensures e.height < height + 1
    {
      var i :| 0 <= i < |after.events| && after.events[i] == e;
      if i < |x.events| {
        assert after.events[..|x.events|][i] == x.events[i];
        assert x.events[i] in x.events;
      }
    }
  }

  lemma AnchorOfClean(rules: Rules, genesis: int, t: Tables, h: BlockHash)
    requires Clean(rules, genesis, t, h)
    ensures Clean(rules, genesis, t, Anchor(t))
    ensures forall x, from :: Tracks(rules, genesis, x, from, h) ==> Tracks(rules, genesis, x, from, Anchor(t))
  {
    hide Fold, Kept;
  }

  /** A live scan has reached block k of the chain. */
  ghost predicate Reached(rules: Rules, genesis: int, s: Scan, c: Chain, k: nat) {
    && k <= |c.blocks|
    && Clean(rules, genesis, s.tables, HashAt(c, k))
    && Tracks(rules, genesis, s.index, genesis + k, HashAt(c, k))
  }

  /** A scan that stops early still leaves the tables clean, at the last block it persisted. */
  lemma {:induction false} ScanKeeps(rules: Rules, genesis: int, s: Scan, c: Chain, k: nat, n: nat, budget: nat)
    requires WellFormed(genesis, c) && UniqueTxids(c.blocks) && k + n <= |c.blocks|
    requires s.alive && Reached(rules, genesis, s, c, k)
    ensures var after := ScanBlocks(rules, genesis, s, c, genesis + k, n, budget);
            && Clean(rules, genesis, after.tables, Anchor(after.tables))
            && (after.alive ==> Reached(rules, genesis, after, c, k + n))
  {
    hide Clean, Tracks, ScanBlock, UniqueTxids, HashAt;
    if n == 0 {
      AnchorOfClean(rules, genesis, s.tables, HashAt(c, k));
    } else {
      ScanKeeps(rules, genesis, s, c, k, n - 1, budget);
      var r := ScanBlocks(rules, genesis, s, c, genesis + k, n - 1, budget);
      if r.alive && n <= budget {
        ScanBlockKeeps(rules, genesis, r, c, k + n - 1);
        var after := ScanBlock(rules, genesis, r, c, genesis + k + n - 1);
        if after.alive {
          AnchorOfClean(rules, genesis, after.tables, HashAt(c, k + n));
        }
      }
    }
  }

  lemma EmptyIsClean(rules: Rules, genesis: int, c: Chain)
    ensures Reached(rules, genesis, Scan(EMPTY_TABLES, FRESH, true), c, 0)
  {
    hide Kept;
    FreshIsKept();
    FoldOfNothing(rules, genesis);
  }

  lemma RebuildKeeps(rules: Rules, genesis: int, t: Tables, c: Chain, budget: nat)
    requires WellFormed(genesis, c) && UniqueTxids(c.blocks)
    requires Clean(rules, genesis, t, Anchor(t))
    ensures var (m, o) := Rebuild(rules, genesis, t, c, budget);
            && Inv(rules, genesis, m)
            && o != Skipped
            && (o == Completed ==> Clean(rules, genesis, m.tables, TipHash(c)))
  {
    hide Fold, ScanBlocks, UniqueTxids, Kept, HashAt, CleanCheckpoints, CleanBlocks;
    EmptyIsClean(rules, genesis, c);
    if budget >= 2 {
      var s := ScanBlocks(rules, genesis, Scan(EMPTY_TABLES, FRESH, true), c, genesis, |c.blocks|, budget - 2);
      ScanKeeps(rules, genesis, Scan(EMPTY_TABLES, FRESH, true), c, 0, |c.blocks|, budget - 2);
      HashDeterminesTheChain(c, |c.blocks|);
    }
  }

  /** The scan that continues from the cursor, on the chain the cursor is on. */
  lemma AdvanceKeeps(rules: Rules, genesis: int, m: Machine, c: Chain, k: nat, budget: nat)
    requires WellFormed(genesis, c) && UniqueTxids(c.blocks) && k <= |c.blocks|
    requires m.worker.Up? && Inv(rules, genesis, m)
    requires k == |BlocksOf(Anchor(m.tables))|
    requires Anchor(m.tables).HashOf? ==> Anchor(m.tables) == HashAt(c, k)
    ensures var (after, o) := Advance(rules, genesis, m.tables, m.worker.index, m.worker.from, c, budget);
            && Inv(rules, genesis, after)
            && (o == Completed ==> Clean(rules, genesis, after.tables, TipHash(c)))
  {
    hide Fold, UniqueTxids, Kept, CleanCheckpoints, CleanBlocks, ScanBlock;
    var t, x, from := m.tables, m.worker.index, m.worker.from;
    EmptyAnchor(rules, genesis, m, c, k);
    if from <= c.tip {
      var s := Scan(t, x, true);
      if from < genesis {
        FirstScanDies(rules, genesis, s, c, from, c.tip - from + 1, budget);
      } else {
        ScanKeeps(rules, genesis, s, c, k, c.tip - from + 1, budget);
        var after := ScanBlocks(rules, genesis, s, c, from, c.tip - from + 1, budget);
        if after.alive {
          AnchorOfClean(rules, genesis, after.tables, TipHash(c));
        }
      }
    }
  }

  lemma EmptyAnchor(rules: Rules, genesis: int, m: Machine, c: Chain, k: nat)
    requires k <= |c.blocks| && m.worker.Up? && Inv(rules, genesis, m)
    requires k == |BlocksOf(Anchor(m.tables))|
    requires Anchor(m.tables).HashOf? ==> Anchor(m.tables) == HashAt(c, k)
    ensures m.worker.from >= genesis ==>
              m.worker.from == genesis + k && Reached(rules, genesis, Scan(m.tables, m.worker.index, true), c, k)
    ensures Clean(rules, genesis, m.tables, HashAt(c, k))
    ensures m.worker.from < genesis ==> k == 0 && m.worker.index == FRESH
  {
    hide Fold, Kept;
    if Anchor(m.tables).Before? {
      EmptyIsClean(rules, genesis, c);
    }
  }

  /** A rebuild over a chain shorter than the activation height leaves `from` below it: the next
      scan refuses its first block and the worker dies without a write. */
  lemma {:induction false} FirstScanDies(rules: Rules, genesis: int, s: Scan, c: Chain, from: int, n: nat, budget: nat)
    requires from < genesis && n > 0 && s.alive
    ensures ScanBlocks(rules, genesis, s, c, from, n, budget) == s.(alive := false)
  {
    if n > 1 {
      FirstScanDies(rules, genesis, s, c, from, n - 1, budget);
    } else {
      assert ScanBlocks(rules, genesis, s, c, from, 0, budget) == s;
    }
  }

  lemma PollKeeps(rules: Rules, genesis: int, m: Machine, c: Chain, hashAvailable: bool, budget: nat)
    requires WellFormed(genesis, c) && UniqueTxids(c.blocks)
    requires m.worker.Up? && Inv(rules, genesis, m)
    ensures var (after, o) := PollOnce(rules, genesis, m, c, hashAvailable, budget);
            && Inv(rules, genesis, after)
            && (o == Completed ==> Clean(rules, genesis, after.tables, TipHash(c)))
  {
    hide Fold, UniqueTxids, Kept, CleanCheckpoints, CleanBlocks, Rebuild, Advance, Tracks;
    var cursor := m.tables.cursor;
    RebuildKeeps(rules, genesis, m.tables, c, budget);
    if cursor.None? {
      AdvanceKeeps(rules, genesis, m, c, 0, budget);
    } else if c.tip >= cursor.value.height && HashAtHeight(genesis, c, cursor.value.height) == cursor.value.blockHash {
      var k := |BlocksOf(cursor.value.blockHash)|;
      if k > 0 {
        AdvanceKeeps(rules, genesis, m, c, k, budget);
      }
    }
  }

  // ── The rebuilding flag ──────────────────────────────────────────────────

  lemma {:induction false} ScanKeepsFlag(rules: Rules, genesis: int, s: Scan, c: Chain, from: int, n: nat, budget: nat)
    ensures IsRebuilding(ScanBlocks(rules, genesis, s, c, from, n, budget).tables) <==> IsRebuilding(s.tables)
  {
    hide AddBlock, Persist, Conserved, HashAt, IsRebuilding;
    if n > 0 {
      ScanKeepsFlag(rules, genesis, s, c, from, n - 1, budget);
      var r := ScanBlocks(rules, genesis, s, c, from, n - 1, budget);
      var k := from + n - 1 - genesis;
      if 0 <= k < |c.blocks| {
        var x := AddBlock(rules, r.index, from + n - 1, c.blocks[k]);
        if Persist(r.tables, from + n - 1, HashAt(c, k + 1), HashAt(c, k), x.state, x.events).Some? {
          PersistKeepsFlag(r.tables, from + n - 1, HashAt(c, k + 1), HashAt(c, k), x.state, x.events);
        }
      }
    }
  }

  /** The flag is stored in the row that clearing deletes. Whenever the process dies in a rebuild,
      readers see it only if it died between raising the flag and clearing: once the tables are
      empty, and while blocks are written back, no rebuild shows. */
  lemma RebuildShowsExactly(rules: Rules, genesis: int, t: Tables, c: Chain, budget: nat)
    requires !IsRebuilding(t)
    ensures IsRebuilding(Rebuild(rules, genesis, t, c, budget).0.tables) <==> budget == 1 && t.cursor.Some?
  {
    hide ScanBlocks;
    if budget >= 2 {
      ScanKeepsFlag(rules, genesis, Scan(EMPTY_TABLES, FRESH, true), c, genesis, |c.blocks|, budget - 2);
    }
  }

  // ── Restarts ─────────────────────────────────────────────────────────────

  lemma LatestIsCursor(rules: Rules, genesis: int, h: BlockHash)
    ensures forall height :: height in CleanCheckpoints(rules, genesis, h) ==> height < genesis + |BlocksOf(h)|
  {
    hide Fold;
    if h.HashOf? {
      LatestIsCursor(rules, genesis, h.parent);
    }
  }

  /** A restart comes up exactly when the chain still reaches the cursor and its replay gives the
      ledger that was stored. A reorganisation that happened while the worker was down and
      changed the ledger is never repaired by restarting: every start refuses it. */
  lemma RestartComesUpExactly(rules: Rules, genesis: int, t: Tables, c: Chain, fetched: bool)
    requires WellFormed(genesis, c) && Clean(rules, genesis, t, Anchor(t))
    ensures RestartOnce(rules, genesis, t, c, fetched).worker.Up? <==>
            t.cursor.None? ||
            (fetched && t.cursor.value.height <= c.tip &&
             Replayed(rules, genesis, c, t.cursor.value.height).state
                 == Fold(rules, genesis, BlocksOf(t.cursor.value.blockHash)).state)
  {
    hide Fold;
    if t.cursor.Some? {
      LatestIsCursor(rules, genesis, t.cursor.value.blockHash);
    }
  }

  lemma RestartKeeps(rules: Rules, genesis: int, t: Tables, c: Chain, fetched: bool)
    requires WellFormed(genesis, c) && Clean(rules, genesis, t, Anchor(t))
    ensures Inv(rules, genesis, RestartOnce(rules, genesis, t, c, fetched))
  {
    hide Fold, Kept, CleanCheckpoints, CleanBlocks;
    RestartComesUpExactly(rules, genesis, t, c, fetched);
    FreshIsKept();
    if t.cursor.Some? && t.cursor.value.height <= c.tip && t.cursor.value.blockHash.HashOf? {
      var blocks := c.blocks[..t.cursor.value.height - genesis + 1];
      FoldKeeps(rules, genesis, blocks);
      FoldSeen(rules, genesis, blocks);
    } else if t.cursor.None? {
      FoldOfNothing(rules, genesis);
    }
  }

  lemma FoldOfNothing(rules: Rules, genesis: int)
    ensures Fold(rules, genesis, []) == FRESH
  {
  }

  // ── Every run ────────────────────────────────────────────────────────────

  /** What may happen, in any order, on any chain each time. */
  datatype Input =
    | Restart(chain: Chain, fetched: bool)
    | Poll(chain: Chain, hashAvailable: bool, budget: nat)
    | Kill

  ghost predicate Admissible(genesis: int, i: Input) {
    !i.Kill? ==> WellFormed(genesis, i.chain) && UniqueTxids(i.chain.blocks)
  }

  ghost predicate AllAdmissible(genesis: int, inputs: seq<Input>) {
    forall k :: 0 <= k < |inputs| ==> Admissible(genesis, inputs[k])
  }

  ghost function Step(rules: Rules, genesis: int, m: Machine, i: Input): Machine
    requires Admissible(genesis, i)
  {
    match i
    case Restart(c, fetched) => RestartOnce(rules, genesis, m.tables, c, fetched)
    case Poll(c, hashAvailable, budget) =>
      if m.worker.Down? then m else PollOnce(rules, genesis, m, c, hashAvailable, budget).0
    case Kill => Machine(m.tables, Down)
  }

  ghost function Run(rules: Rules, genesis: int, inputs: seq<Input>): Machine
    requires AllAdmissible(genesis, inputs)
  {
    if inputs == [] then INSTALLED
    else Step(rules, genesis, Run(rules, genesis, inputs[..|inputs| - 1]), inputs[|inputs| - 1])
  }

  /** The last input was a poll that ran to its end. */
  ghost predicate EndsWithCompletedPoll(rules: Rules, genesis: int, inputs: seq<Input>)
    requires AllAdmissible(genesis, inputs)
  {
    && inputs != []
    && var before, last := Run(rules, genesis, inputs[..|inputs| - 1]), inputs[|inputs| - 1];
       last.Poll? && before.worker.Up? &&
       PollOnce(rules, genesis, before, last.chain, last.hashAvailable, last.budget).1 == Completed
  }

  lemma {:induction false} RunKeeps(rules: Rules, genesis: int, inputs: seq<Input>)
    requires AllAdmissible(genesis, inputs)
    ensures Inv(rules, genesis, Run(rules, genesis, inputs))
  {
    hide Inv, PollOnce, RestartOnce, Clean;
    if inputs == [] {
      InstalledIsClean(rules, genesis);
    } else {
      var m, i := Run(rules, genesis, inputs[..|inputs| - 1]), inputs[|inputs| - 1];
      RunKeeps(rules, genesis, inputs[..|inputs| - 1]);
      StepKeeps(rules, genesis, m, i);
    }
  }

  lemma InstalledIsClean(rules: Rules, genesis: int)
    ensures Inv(rules, genesis, INSTALLED)
  {
  }

  lemma StepKeeps(rules: Rules, genesis: int, m: Machine, i: Input)
    requires Admissible(genesis, i) && Inv(rules, genesis, m)
    ensures Inv(rules, genesis, Step(rules, genesis, m, i))
  {
    hide PollOnce, RestartOnce, Clean, Tracks;
    match i
    case Restart(c, fetched) => RestartKeeps(rules, genesis, m.tables, c, fetched);
    case Poll(c, hashAvailable, budget) =>
      if m.worker.Up? {
        PollKeeps(rules, genesis, m, c, hashAvailable, budget);
      }
    case Kill =>
  }

  /** After any history of restarts, polls, reorganisations and deaths, a poll that completes on
      a chain leaves the token, balance, checkpoint, block and cursor tables equal to the clean
      fold of that chain, from activation to its tip. */
  lemma CompletedPollIsCleanFold(rules: Rules, genesis: int, inputs: seq<Input>)
    requires AllAdmissible(genesis, inputs) && EndsWithCompletedPoll(rules, genesis, inputs)
    ensures var c := inputs[|inputs| - 1].chain;
            Clean(rules, genesis, Run(rules, genesis, inputs).tables, TipHash(c))
  {
    hide PollOnce, Clean, Inv;
    var m, i := Run(rules, genesis, inputs[..|inputs| - 1]), inputs[|inputs| - 1];
    RunKeeps(rules, genesis, inputs[..|inputs| - 1]);
    PollKeeps(rules, genesis, m, i.chain, i.hashAvailable, i.budget);
  }
}

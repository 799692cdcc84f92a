/** The persistent projection of the indexer: six tables, written one block at a time in a
    single transaction. */
module Store {
  import opened Wrappers
  import opened CoveV1
  import opened Indexer

  /** A block hash commits to the block and to its parent, so it is modelled by the chain it
      identifies: everything before activation, then one block after another. */
  datatype BlockHash = Before(history: nat) | HashOf(parent: BlockHash, txs: Block)

  /** A state root commits to the whole ledger. */
  datatype StateRoot = RootOf(state: State)

  datatype BlockRow = BlockRow(hash: BlockHash, parentHash: BlockHash)
  datatype OpRow = OpRow(
    height: int,
    txIndex: nat,
    operation: Option<Kind>,
    classification: Classification,
    valid: bool,
    reason: Option<string>)
  datatype Checkpoint = Checkpoint(blockHash: BlockHash, stateRoot: StateRoot)
  datatype Cursor = Cursor(height: int, blockHash: BlockHash, rebuilding: bool)

  datatype Tables = Tables(
    blocks: map<int, BlockRow>,
    operations: map<string, OpRow>,
    tokens: map<string, Token>,
    balances: map<Account, int>,
    checkpoints: map<int, Checkpoint>,
    cursor: Option<Cursor>)

  const EMPTY_TABLES := Tables(map[], map[], map[], map[], map[], None)

  // ── The statements as functions ──────────────────────────────────────────

  function RowOf(e: Event): OpRow {
    OpRow(e.height, e.txIndex, e.operation, e.classification, e.classification == ValidCove, e.reason)
  }

  /** On conflict the operation and classification columns keep their first value. */
  function UpsertOp(rows: map<string, OpRow>, e: Event): map<string, OpRow> {
    if e.txid in rows then
      rows[e.txid := rows[e.txid].(height := e.height, txIndex := e.txIndex,
                                   valid := e.classification == ValidCove, reason := e.reason)]
    else rows[e.txid := RowOf(e)]
  }

  predicate Replayed(rows: map<string, OpRow>, e: Event) {
    e.txid in rows && rows[e.txid].height != e.height
  }

  /** All events in order, or None when the replay guard throws and the transaction rolls back. */
  function UpsertOps(rows: map<string, OpRow>, events: seq<Event>): Option<map<string, OpRow>> {
    if events == [] then Some(rows)
    else
      var n := |events| - 1;
      match UpsertOps(rows, events[..n])
      case None => None
      case Some(r) => if Replayed(r, events[n]) then None else Some(UpsertOp(r, events[n]))
  }

  /** On conflict the ticker and creator columns keep their first value; no row is deleted. */
  function UpsertTokens(rows: map<string, Token>, tokens: map<string, Token>): map<string, Token> {
    map id | id in rows.Keys + tokens.Keys ::
      if id !in tokens then rows[id]
      else if id in rows then rows[id].(supplyAtoms := tokens[id].supplyAtoms, stage := tokens[id].stage)
      else tokens[id]
  }

  function MoveCursor(cursor: Option<Cursor>, height: int, hash: BlockHash): Cursor {
    Cursor(height, hash, cursor.Some? && cursor.value.rebuilding)
  }

  /** One persisted block: everything, or nothing at all. */
  function Persist(t: Tables, height: int, hash: BlockHash, parentHash: BlockHash, s: State,
                   events: seq<Event>): Option<Tables> {
    match UpsertOps(t.operations, events)
    case None => None
    case Some(operations) =>
      Some(Tables(t.blocks[height := BlockRow(hash, parentHash)],
                  operations,
                  UpsertTokens(t.tokens, s.tokens),
                  s.balances,
                  t.checkpoints[height := Checkpoint(hash, RootOf(s))],
                  Some(MoveCursor(t.cursor, height, hash))))
  }

  function SetRebuilding(t: Tables, rebuilding: bool): Tables {
    match t.cursor
    case None => t
    case Some(c) => t.(cursor := Some(c.(rebuilding := rebuilding)))
  }

  predicate IsRebuilding(t: Tables) {
    t.cursor.Some? && t.cursor.value.rebuilding
  }

  // ── The store ────────────────────────────────────────────────────────────

  class CoveStore {
    var blocks: map<int, BlockRow>
    var operations: map<string, OpRow>
    var tokens: map<string, Token>
    var balances: map<Account, int>
    var checkpoints: map<int, Checkpoint>
    var cursor: Option<Cursor>

    constructor ()
      ensures Contents() == EMPTY_TABLES
    {
      blocks, operations, tokens, balances, checkpoints, cursor := map[], map[], map[], map[], map[], None;
    }

    function Contents(): Tables
      reads this
    {
      Tables(blocks, operations, tokens, balances, checkpoints, cursor)
    }

    static method WriteOperations(before: map<string, OpRow>, events: seq<Event>)
      returns (rows: Option<map<string, OpRow>>)
      ensures rows == UpsertOps(before, events)
    {
      var r := before;
      for i := 0 to |events|
        invariant UpsertOps(before, events[..i]) == Some(r)
      {
        var e := events[i];
        assert events[..i + 1][..i] == events[..i];
        if e.txid in r && r[e.txid].height != e.height {
          GuardIsFinal(before, events, i + 1);
          return None;
        }
        r := UpsertOp(r, e);
      }
      assert events[..|events|] == events;
      rows := Some(r);
    }

    static method WriteTokens(before: map<string, Token>, state: map<string, Token>) returns (rows: map<string, Token>)
      ensures rows == UpsertTokens(before, state)
    {
      rows := before;
      var ids := state.Keys;
      while ids != {}
        invariant ids <= state.Keys
        invariant rows.Keys == before.Keys + (state.Keys - ids)
        invariant forall id :: id in rows ==>
                    rows[id] == if id in ids then before[id] else UpsertTokens(before, state)[id]
      {
        var id :| id in ids;
        var t := state[id];
        rows := rows[id := if id in rows then rows[id].(supplyAtoms := t.supplyAtoms, stage := t.stage) else t];
        ids := ids - {id};
      }
    }

    /** Upsert the balances of the state, then delete every row the state no longer has. */
    static method WriteBalances(before: map<Account, int>, state: map<Account, int>) returns (rows: map<Account, int>)
      ensures rows == state
    {
      rows := before;
      var keys := state.Keys;
      while keys != {}
        invariant keys <= state.Keys
        invariant rows.Keys == before.Keys + (state.Keys - keys)
        invariant forall a :: a in state && a !in keys ==> rows[a] == state[a]
      {
        var a :| a in keys;
        rows := rows[a := state[a]];
        keys := keys - {a};
      }
      var existing := rows.Keys;
      while existing != {}
        invariant existing <= rows.Keys && state.Keys <= rows.Keys
        invariant forall a :: a in rows && a !in existing ==> a in state
        invariant forall a :: a in state ==> rows[a] == state[a]
      {
        var a :| a in existing;
        if a !in state {
          rows := rows - {a};
        }
        existing := existing - {a};
      }
    }

    /** The guard reads rows written earlier in the same transaction; a throw commits nothing. */
    method PersistBlock(height: int, hash: BlockHash, parentHash: BlockHash, state: State, events: seq<Event>)
      returns (committed: bool)
      modifies this
      ensures committed <==> Persist(old(Contents()), height, hash, parentHash, state, events).Some?
      ensures Contents() == (match Persist(old(Contents()), height, hash, parentHash, state, events)
                             case None => old(Contents())
                             case Some(t) => t)
    {
      var ops := WriteOperations(operations, events);
      if ops.None? {
        return false;
      }
      var newTokens := WriteTokens(tokens, state.tokens);
      var newBalances := WriteBalances(balances, state.balances);
      blocks := blocks[height := BlockRow(hash, parentHash)];
      operations, tokens, balances := ops.value, newTokens, newBalances;
      checkpoints := checkpoints[height := Checkpoint(hash, RootOf(state))];
      cursor := Some(MoveCursor(cursor, height, hash));
      committed := true;
    }

    method GetLatestCheckpoint() returns (latest: Option<(int, Checkpoint)>)
      ensures latest.None? <==> checkpoints == map[]
      ensures latest.Some? ==>
                && latest.value.0 in checkpoints && checkpoints[latest.value.0] == latest.value.1
                && forall h :: h in checkpoints ==> h <= latest.value.0
    {
      latest := None;
      var left := checkpoints.Items;
      while left != {}
        invariant left <= checkpoints.Items
        invariant latest.None? ==> left == checkpoints.Items
        invariant latest.Some? ==>
                    && latest.value.0 in checkpoints && checkpoints[latest.value.0] == latest.value.1
                    && forall row :: row in checkpoints.Items && row !in left ==> row.0 <= latest.value.0
      {
        var row :| row in left;
        if latest.None? || row.0 > latest.value.0 {
          latest := Some(row);
        }
        left := left - {row};
      }
      if latest.Some? {
        forall h | h in checkpoints
          ensures h <= latest.value.0
        {
          assert (h, checkpoints[h]) in checkpoints.Items;
        }
      }
    }

    method MarkRebuilding(rebuilding: bool)
      modifies this
      ensures Contents() == SetRebuilding(old(Contents()), rebuilding)
    {
      if cursor.Some? {
        cursor := Some(cursor.value.(rebuilding := rebuilding));
      }
    }

    method ClearCove()
      modifies this
      ensures Contents() == EMPTY_TABLES
    {
      blocks, operations, tokens, balances, checkpoints, cursor := map[], map[], map[], map[], map[], None;
    }
  }

  // ── The replay guard ─────────────────────────────────────────────────────

  lemma {:induction false} GuardIsFinal(rows: map<string, OpRow>, events: seq<Event>, k: nat)
    requires k <= |events| && UpsertOps(rows, events[..k]).None?
    ensures UpsertOps(rows, events).None?
    decreases |events|
  {
    if k == |events| {
      assert events[..k] == events;
    } else {
      var n := |events| - 1;
      assert events[..n][..k] == events[..k];
      GuardIsFinal(rows, events[..n], k);
    }
  }

  lemma {:induction false} WrittenHeights(rows: map<string, OpRow>, events: seq<Event>)
    requires UpsertOps(rows, events).Some?
    ensures var r := UpsertOps(rows, events).value;
            && r.Keys == rows.Keys + Recorded(events)
            && (forall e :: e in events ==> r[e.txid].height == e.height)
            && (forall t :: t in rows ==> r[t].height == rows[t].height)
  {
    if events != [] {
      var n := |events| - 1;
      WrittenHeights(rows, events[..n]);
      assert forall e :: e in events <==> e in events[..n] || e == events[n];
      assert Recorded(events) == Recorded(events[..n]) + {events[n].txid};
    }
  }

  /** The guard throws exactly when two events of one txid carry different heights, or an event
      meets a stored row of another height. */
  lemma {:induction false} ReplayGuardThrowsExactly(rows: map<string, OpRow>, events: seq<Event>)
    ensures UpsertOps(rows, events).None? <==>
            Clash(events) || exists e :: e in events && Replayed(rows, e)
  {
    if UpsertOps(rows, events).Some? {
      WrittenHeights(rows, events);
      assert forall i :: 0 <= i < |events| ==> events[i] in events;
    } else {
      var n := |events| - 1;
      var init := events[..n];
      assert forall e :: e in init ==> e in events;
      if UpsertOps(rows, init).None? {
        ReplayGuardThrowsExactly(rows, init);
        if Clash(init) {
          ClashPersists(init, events);
        }
      } else {
        WrittenHeights(rows, init);
        var e := events[n];
        if e.txid in rows {
          assert Replayed(rows, e);
        } else {
          var f :| f in init && f.txid == e.txid;
          var i :| 0 <= i < n && init[i] == f;
          assert events[i] == f;
        }
      }
    }
  }

  // ── What one write leaves ────────────────────────────────────────────────

  /** An event writes the row of its txid alone: a new one in full, and of a known one the place, the
      verdict and the reason, but not the operation or the classification. */
  lemma EventWrites(rows: map<string, OpRow>, e: Event, txid: string)
    ensures var after := UpsertOp(rows, e);
            && (txid in after <==> txid in rows || txid == e.txid)
            && (txid in rows && txid != e.txid ==> after[txid] == rows[txid])
            && after[e.txid].height == e.height && after[e.txid].txIndex == e.txIndex
            && (after[e.txid].valid <==> e.classification == ValidCove) && after[e.txid].reason == e.reason
            && after[e.txid].operation == (if e.txid in rows then rows[e.txid].operation else e.operation)
            && after[e.txid].classification
               == (if e.txid in rows then rows[e.txid].classification else e.classification)
  {
  }

  /** Writing the tokens keeps every row, the identity of a known token and the rest of the state's. */
  lemma TokensWritten(rows: map<string, Token>, tokens: map<string, Token>, id: string)
    ensures var after := UpsertTokens(rows, tokens);
            && (id in after <==> id in rows || id in tokens)
            && (id in rows && id !in tokens ==> after[id] == rows[id])
            && (id in tokens ==> after[id].supplyAtoms == tokens[id].supplyAtoms && after[id].stage == tokens[id].stage)
            && (id in rows ==> after[id].ticker == rows[id].ticker && after[id].creator == rows[id].creator)
            && (id in tokens && id !in rows ==> after[id] == tokens[id])
  {
  }

  /** A persisted block adds its block row and checkpoint at its height, replaces the balances by the
      state's, and moves the cursor there without touching the flag. */
  lemma BlockWrites(t: Tables, height: int, hash: BlockHash, parentHash: BlockHash, s: State, events: seq<Event>,
                    h: int)
    requires Persist(t, height, hash, parentHash, s, events).Some?
    ensures var after := Persist(t, height, hash, parentHash, s, events).value;
            && (h in after.blocks <==> h in t.blocks || h == height)
            && (h in t.blocks && h != height ==> after.blocks[h] == t.blocks[h])
            && after.blocks[height].hash == hash && after.blocks[height].parentHash == parentHash
            && (h in after.checkpoints <==> h in t.checkpoints || h == height)
            && (h in t.checkpoints && h != height ==> after.checkpoints[h] == t.checkpoints[h])
            && after.checkpoints[height].blockHash == hash && after.checkpoints[height].stateRoot == RootOf(s)
            && after.balances == s.balances
            && after.cursor.Some? && after.cursor.value.height == height && after.cursor.value.blockHash == hash
            && (after.cursor.value.rebuilding <==> t.cursor.Some? && t.cursor.value.rebuilding)
  {
    hide UpsertOps, UpsertTokens;
  }

  // ── Rows of a faithful history ───────────────────────────────────────────

  predicate DistinctEvents(events: seq<Event>) {
    forall i, j :: 0 <= i < j < |events| ==> events[i].txid != events[j].txid
  }

  /** The operations table is exactly the event log. */
  ghost predicate RowsOf(rows: map<string, OpRow>, events: seq<Event>) {
    && rows.Keys == Recorded(events)
    && forall e :: e in events ==> rows[e.txid] == RowOf(e)
  }

  lemma RewriteRow(rows: map<string, OpRow>, events: seq<Event>, e: Event)
    requires RowsOf(rows, events) && e in events
    ensures UpsertOp(rows, e) == rows && !Replayed(rows, e)
  {
  }

  lemma AppendRow(rows: map<string, OpRow>, events: seq<Event>, e: Event)
    requires RowsOf(rows, events) && e.txid !in Recorded(events)
    ensures RowsOf(UpsertOp(rows, e), events + [e]) && !Replayed(rows, e)
  {
    assert forall f :: f in events + [e] <==> f in events || f == e;
    assert Recorded(events + [e]) == Recorded(events) + {e.txid};
  }

  lemma {:induction false} RewriteIsIdempotent(rows: map<string, OpRow>, events: seq<Event>, k: nat, n: nat)
    requires k <= |events| && n <= |events|
    requires DistinctEvents(events) && RowsOf(rows, events[..k])
    ensures UpsertOps(rows, events[..n]).Some?
    ensures RowsOf(UpsertOps(rows, events[..n]).value, events[..if n <= k then k else n])
  {
    hide RowsOf, UpsertOp, RowOf, Replayed;
    if n > 0 {
      var m := n - 1;
      RewriteIsIdempotent(rows, events, k, m);
      var e := events[m];
      assert events[..n][..m] == events[..m];
      var r := UpsertOps(rows, events[..m]).value;
      if n <= k {
        assert events[..k][m] == e;
        RewriteRow(r, events[..k], e);
      } else {
        assert events[..n] == events[..m] + [e];
        AppendRow(r, events[..m], e);
      }
    }
  }

  /** Writing the whole event log again over the rows of an earlier part of it leaves exactly
      the log, and the guard never fires. */
  lemma RewritingTheLog(rows: map<string, OpRow>, earlier: seq<Event>, events: seq<Event>)
    requires earlier <= events && DistinctEvents(events) && RowsOf(rows, earlier)
    ensures UpsertOps(rows, events).Some? && RowsOf(UpsertOps(rows, events).value, events)
  {
    assert earlier == events[..|earlier|];
    RewriteIsIdempotent(rows, events, |earlier|, |events|);
    assert events[..|events|] == events;
  }

  /** Persisting a block never raises the rebuilding flag: a new cursor row has it down. */
  lemma PersistKeepsFlag(t: Tables, height: int, hash: BlockHash, parentHash: BlockHash, s: State, events: seq<Event>)
    requires Persist(t, height, hash, parentHash, s, events).Some?
    ensures IsRebuilding(Persist(t, height, hash, parentHash, s, events).value) <==> IsRebuilding(t)
  {
    hide UpsertOps, UpsertTokens;
  }
}

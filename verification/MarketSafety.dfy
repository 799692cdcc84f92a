/** What every reachable market state keeps. */
module MarketSafety {
  import opened Wrappers
  import opened Market

  // ── The invariant ────────────────────────────────────────────────────────

  predicate KnownListings(m: State) {
    forall i :: 0 <= i < |m.fills| ==> m.fills[i].listing in m.listings
  }

  /** A live fill is the newest of its listing and in step with the listing's status. */
  predicate LiveFill(m: State, i: nat)
    requires i < |m.fills| && KnownListings(m)
  {
    Live(m.fills[i].status) ==>
      && LatestFill(m.fills, m.fills[i].listing) == Some(i)
      && StatusFits(m.listings[m.fills[i].listing].status, m.fills[i].status)
  }

  predicate StatusFits(l: ListingStatus, f: FillStatus) {
    && (PreBroadcast(f) ==> l == Reserved)
    && (f == FillBroadcast ==> l == Broadcast || l == Cancelled)
    && (f == Confirmed ==> l == Filled)
  }

  /** A listing that promises a fill has one, and it is the newest. */
  predicate PromisedFill(m: State, id: string)
    requires id in m.listings
  {
    var latest := LatestFill(m.fills, id);
    var s := m.listings[id].status;
    s == Reserved || s == Broadcast || s == Filled || s == Reorged ==>
      latest.Some? && latest.value < |m.fills| &&
      var f := m.fills[latest.value].status;
      && (s == Reserved ==> PreBroadcast(f))
      && (s == Broadcast ==> f == FillBroadcast)
      && (s == Filled ==> f == Confirmed)
      && (s == Reorged ==> f == FillReorged)
  }

  predicate FillTxids(m: State) {
    && (forall i :: 0 <= i < |m.fills| ==>
          && (PreBroadcast(m.fills[i].status) ==> m.fills[i].txid.None?)
          && (m.fills[i].txid.Some? ==> m.fills[i].txid == Some(m.fills[i].psbtTxid))
          && (m.fills[i].status == FillBroadcast || m.fills[i].status == Confirmed
              || m.fills[i].status == FillReorged ==>
                m.fills[i].txid.Some?))
    && (forall i, j :: 0 <= i < j < |m.fills| && m.fills[i].txid.Some? ==> m.fills[i].txid != m.fills[j].txid)
  }

  /** Trade rows and confirmed fills name each other. */
  predicate TradesMatch(m: State) {
    && (forall t :: t in m.trades ==>
          && m.trades[t].fill < |m.fills|
          && m.fills[m.trades[t].fill].txid == Some(t)
          && m.fills[m.trades[t].fill].listing == m.trades[t].listing
          && (m.trades[t].canonical <==> m.fills[m.trades[t].fill].status == Confirmed))
    && (forall i :: 0 <= i < |m.fills| && m.fills[i].status == Confirmed ==>
          m.fills[i].txid.Some? && m.fills[i].txid.value in m.trades && m.trades[m.fills[i].txid.value].fill == i)
  }

  predicate Inv(m: State) {
    && KnownListings(m)
    && (forall i :: 0 <= i < |m.fills| ==> LiveFill(m, i))
    && (forall id :: id in m.listings ==> PromisedFill(m, id))
    && FillTxids(m)
    && TradesMatch(m)
  }

  // ── LatestFill ───────────────────────────────────────────────────────────

  lemma {:induction false} LatestIs(fills: seq<Fill>, id: string)
    ensures match LatestFill(fills, id)
            case Some(i) =>
              i < |fills| && fills[i].listing == id && forall j :: i < j < |fills| ==> fills[j].listing != id
            case None => forall j :: 0 <= j < |fills| ==> fills[j].listing != id
    decreases |fills|
  {
    if fills != [] && fills[|fills| - 1].listing != id {
      LatestIs(fills[..|fills| - 1], id);
    }
  }

  lemma {:induction false} LatestSameOwners(a: seq<Fill>, b: seq<Fill>, id: string)
    requires Owners(a) == Owners(b)
    ensures LatestFill(a, id) == LatestFill(b, id)
  {
    LatestIs(a, id);
    LatestIs(b, id);
    assert |a| == |Owners(a)| == |b|;
    assert forall i :: 0 <= i < |a| ==> a[i].listing == Owners(a)[i] == b[i].listing;
  }

  lemma LatestAppend(fills: seq<Fill>, f: Fill, id: string)
    ensures LatestFill(fills + [f], id) == if f.listing == id then Some(|fills|) else LatestFill(fills, id)
  {
    assert (fills + [f])[..|fills|] == fills;
  }

  /** Two live fills of one listing are the same fill. */
  lemma LiveUnique(m: State, i: nat, j: nat)
    requires Inv(m) && i < |m.fills| && j < |m.fills|
    requires m.fills[i].listing == m.fills[j].listing && Live(m.fills[i].status) && Live(m.fills[j].status)
    ensures i == j
  {
    assert LiveFill(m, i) && LiveFill(m, j);
  }

  // ── Every step keeps the invariant ───────────────────────────────────────

  /** `n` differs from `m` only in listing `id` and in fills of that listing. */
  predicate Local(m: State, n: State, id: string) {
    && Owners(n.fills) == Owners(m.fills)
    && id in n.listings && n.listings.Keys == m.listings.Keys + {id}
    && (forall k :: k in m.listings && k != id ==> n.listings[k] == m.listings[k])
    && |n.fills| == |m.fills|
    && (forall i :: 0 <= i < |m.fills| ==> n.fills[i].listing == m.fills[i].listing)
    && (forall i :: 0 <= i < |m.fills| && m.fills[i].listing != id ==> n.fills[i] == m.fills[i])
  }

  lemma LocalKeeps(m: State, n: State, id: string)
    requires Inv(m) && Local(m, n, id)
    ensures KnownListings(n)
    ensures forall k :: LatestFill(n.fills, k) == LatestFill(m.fills, k)
    ensures forall i :: 0 <= i < |n.fills| && n.fills[i].listing != id ==> LiveFill(n, i)
    ensures forall k :: k in n.listings && k != id ==> PromisedFill(n, k)
  {
    hide LatestFill;
    forall k
      ensures LatestFill(n.fills, k) == LatestFill(m.fills, k)
    {
      LatestSameOwners(n.fills, m.fills, k);
    }
    forall i | 0 <= i < |n.fills| && n.fills[i].listing != id
      ensures LiveFill(n, i)
    {
      assert LiveFill(m, i);
    }
    forall k | k in n.listings && k != id
      ensures PromisedFill(n, k)
    {
      assert PromisedFill(m, k);
      LatestIs(m.fills, k);
    }
  }

  /** `n` moves no transaction id and no confirmation. */
  predicate TablesUnmoved(m: State, n: State) {
    && n.trades == m.trades && |n.fills| == |m.fills|
    && (forall i :: 0 <= i < |m.fills| ==>
          && n.fills[i].txid == m.fills[i].txid && n.fills[i].listing == m.fills[i].listing
          && (m.fills[i].txid.Some? ==> n.fills[i].psbtTxid == m.fills[i].psbtTxid)
          && (n.fills[i].status == Confirmed <==> m.fills[i].status == Confirmed)
          && (PreBroadcast(n.fills[i].status) ==> PreBroadcast(m.fills[i].status))
          && (n.fills[i].status == FillBroadcast || n.fills[i].status == FillReorged ==> m.fills[i].txid.Some?))
  }

  lemma TablesKeep(m: State, n: State)
    requires FillTxids(m) && TradesMatch(m) && TablesUnmoved(m, n)
    ensures FillTxids(n) && TradesMatch(n)
  {
    forall i, j | 0 <= i < j < |n.fills| && n.fills[i].txid.Some?
      ensures n.fills[i].txid != n.fills[j].txid
    {
      assert m.fills[i].txid != m.fills[j].txid;
    }
  }

  lemma InvTables(m: State)
    requires Inv(m)
    ensures FillTxids(m) && TradesMatch(m)
    ensures forall i :: 0 <= i < |m.fills| ==>
              && (m.fills[i].status == FillBroadcast || m.fills[i].status == FillReorged
                  || m.fills[i].status == Confirmed ==>
                    m.fills[i].txid.Some?)
              && (PreBroadcast(m.fills[i].status) ==> m.fills[i].txid.None?)
    ensures forall i, j :: 0 <= i < |m.fills| && 0 <= j < |m.fills| && i != j && m.fills[i].txid.Some? ==>
              m.fills[i].txid != m.fills[j].txid
  {
    hide LatestFill, LiveFill, PromisedFill;
  }

  /** What is left to show once a change is local to one listing. */
  lemma LocalInv(m: State, n: State, id: string)
    requires Inv(m) && Local(m, n, id)
    requires KnownListings(n) ==> forall i :: 0 <= i < |n.fills| && n.fills[i].listing == id ==> LiveFill(n, i)
    requires PromisedFill(n, id) && FillTxids(n) && TradesMatch(n)
    ensures Inv(n)
  {
    hide LatestFill, FillTxids, TradesMatch, LiveFill, PromisedFill;
    LocalKeeps(m, n, id);
  }

  lemma CreateKeeps(m: State, id: string, expiryHeight: int)
    requires Inv(m) && id !in m.listings
    ensures Inv(m.(listings := m.listings[id := Listing(Active, expiryHeight)]))
  {
    hide LatestFill, FillTxids, TradesMatch;
    var n := m.(listings := m.listings[id := Listing(Active, expiryHeight)]);
    InvTables(m);
    TablesKeep(m, n);
    LocalInv(m, n, id);
  }

  lemma CancelKeeps(m: State, id: string)
    requires Inv(m) && id in m.listings && m.listings[id].status != Filled
    ensures Inv(CancelRows(m, id))
  {
    hide LatestFill, FillTxids, TradesMatch;
    var n := CancelRows(m, id);
    InvTables(m);
    TablesKeep(m, n);
    LocalKeeps(m, n, id);
    forall i | 0 <= i < |n.fills| && n.fills[i].listing == id
      ensures LiveFill(n, i)
    {
      assert LiveFill(m, i);
    }
    LocalInv(m, n, id);
  }

  lemma ReserveKeeps(m: State, id: string, expiresAt: int)
    requires Inv(m) && id in m.listings && m.listings[id].status == Active
    ensures Inv(ReserveRows(m, id, expiresAt))
  {
    var n := ReserveRows(m, id, expiresAt);
    var f := Fill(id, FillReserved, "", None, expiresAt);
    assert FillTxids(n) && TradesMatch(n);
    hide LatestFill, FillTxids, TradesMatch;
    forall k
      ensures LatestFill(n.fills, k) == if k == id then Some(|m.fills|) else LatestFill(m.fills, k)
    {
      LatestAppend(m.fills, f, k);
    }
    forall i | 0 <= i < |n.fills|
      ensures LiveFill(n, i)
    {
      if i < |m.fills| {
        assert LiveFill(m, i);
      }
    }
    forall k | k in n.listings
      ensures PromisedFill(n, k)
    {
      assert PromisedFill(m, k);
      LatestIs(m.fills, k);
    }
  }

  /** A signing stage rewrites one pre-broadcast fill and keeps it pre-broadcast. */
  lemma AdvanceKeeps(m: State, i: nat, f: Fill)
    requires Inv(m) && i < |m.fills| && PreBroadcast(m.fills[i].status) && PreBroadcast(f.status)
    requires f.listing == m.fills[i].listing && f.txid == m.fills[i].txid
    ensures Inv(WithFill(m, i, f))
  {
    hide LatestFill, FillTxids, TradesMatch;
    var n, id := WithFill(m, i, f), f.listing;
    InvTables(m);
    TablesKeep(m, n);
    LocalKeeps(m, n, id);
    forall j | 0 <= j < |n.fills| && n.fills[j].listing == id
      ensures LiveFill(n, j)
    {
      assert LiveFill(m, j);
    }
    assert LiveFill(m, i) && PromisedFill(m, id);
    LocalInv(m, n, id);
  }

  lemma BroadcastKeeps(m: State, i: nat)
    requires Inv(m) && i < |m.fills| && m.fills[i].listing in m.listings
    requires LatestFill(m.fills, m.fills[i].listing) == Some(i) && m.fills[i].status != Confirmed
    requires TxidFree(m, i, m.fills[i].psbtTxid)
    ensures Inv(BroadcastRows(m, i))
  {
    hide LatestFill, FillTxids, TradesMatch;
    var n, id := BroadcastRows(m, i), m.fills[i].listing;
    BroadcastTables(m, i);
    LocalKeeps(m, n, id);
    forall j | 0 <= j < |n.fills| && n.fills[j].listing == id
      ensures LiveFill(n, j)
    {
      assert LiveFill(m, j);
    }
    LocalInv(m, n, id);
  }

  lemma BroadcastTables(m: State, i: nat)
    requires Inv(m) && i < |m.fills| && m.fills[i].listing in m.listings
    requires m.fills[i].status != Confirmed && TxidFree(m, i, m.fills[i].psbtTxid)
    ensures FillTxids(BroadcastRows(m, i)) && TradesMatch(BroadcastRows(m, i))
  {
    hide LatestFill, PromisedFill, LiveFill;
    var n := BroadcastRows(m, i);
    forall t | t in n.trades
      ensures n.fills[n.trades[t].fill].txid == Some(t)
    {
      assert m.fills[m.trades[t].fill].txid == Some(t);
    }
  }

  lemma ConfirmKeeps(m: State, i: nat, height: int)
    requires Inv(m) && i < |m.fills| && m.fills[i].status == FillBroadcast && m.fills[i].txid.Some?
    requires m.fills[i].listing in m.listings
    ensures Inv(ConfirmRows(m, i, height))
  {
    hide LatestFill, FillTxids, TradesMatch;
    var n, id := ConfirmRows(m, i, height), m.fills[i].listing;
    ConfirmTxids(m, i, height);
    ConfirmTrades(m, i, height);
    LocalKeeps(m, n, id);
    assert LiveFill(m, i);
    forall j | 0 <= j < |n.fills| && n.fills[j].listing == id
      ensures LiveFill(n, j)
    {
      assert LiveFill(m, j);
    }
    LocalInv(m, n, id);
  }

  lemma ConfirmTxids(m: State, i: nat, height: int)
    requires Inv(m) && i < |m.fills| && m.fills[i].status == FillBroadcast && m.fills[i].txid.Some?
    requires m.fills[i].listing in m.listings
    ensures FillTxids(ConfirmRows(m, i, height))
  {
    hide LatestFill, PromisedFill, LiveFill, TradesMatch;
  }

  lemma ConfirmTrades(m: State, i: nat, height: int)
    requires Inv(m) && i < |m.fills| && m.fills[i].status == FillBroadcast && m.fills[i].txid.Some?
    requires m.fills[i].listing in m.listings
    ensures TradesMatch(ConfirmRows(m, i, height))
  {
    InvTables(m);
    assert TradesMatch(m);
    hide LatestFill, PromisedFill, LiveFill, FillTxids, Inv, KnownListings;
    var n, txid := ConfirmRows(m, i, height), m.fills[i].txid.value;
    assert n.trades.Keys == m.trades.Keys + {txid};
    assert txid in m.trades ==> m.trades[txid].fill == i;
    assert n.trades[txid].fill == i && n.trades[txid].canonical;
    forall t | t in n.trades && t != txid
      ensures n.trades[t] == m.trades[t] && n.trades[t].fill != i
    {
      assert m.fills[m.trades[t].fill].txid == Some(t);
    }
  }

  lemma ReorgKeeps(m: State, i: nat)
    requires Inv(m) && i < |m.fills| && m.fills[i].status == Confirmed && m.fills[i].listing in m.listings
    ensures Inv(ReorgRows(m, i))
  {
    hide LatestFill, FillTxids, TradesMatch;
    var n, id := ReorgRows(m, i), m.fills[i].listing;
    ReorgTxids(m, i);
    ReorgTrades(m, i);
    LocalKeeps(m, n, id);
    assert LiveFill(m, i);
    forall j | 0 <= j < |n.fills| && n.fills[j].listing == id
      ensures LiveFill(n, j)
    {
      assert LiveFill(m, j);
    }
    LocalInv(m, n, id);
  }

  lemma ReorgTxids(m: State, i: nat)
    requires Inv(m) && i < |m.fills| && m.fills[i].status == Confirmed && m.fills[i].listing in m.listings
    ensures FillTxids(ReorgRows(m, i))
  {
    hide LatestFill, PromisedFill, LiveFill, TradesMatch;
  }

  lemma ReorgTrades(m: State, i: nat)
    requires Inv(m) && i < |m.fills| && m.fills[i].status == Confirmed && m.fills[i].listing in m.listings
    ensures TradesMatch(ReorgRows(m, i))
  {
    InvTables(m);
    hide LatestFill, PromisedFill, LiveFill, FillTxids, Inv;
    var n, txid := ReorgRows(m, i), m.fills[i].txid.value;
    assert m.trades[txid].fill == i;
    assert n.trades.Keys == m.trades.Keys;
    forall t | t in n.trades && t != txid
      ensures n.trades[t] == m.trades[t] && n.trades[t].fill != i
    {
      assert m.fills[m.trades[t].fill].txid == Some(t);
    }
  }

  /** Expiring a pre-broadcast fill releases its listing. */
  lemma ExpireFillKeeps(m: State, i: nat)
    requires Inv(m) && i < |m.fills| && PreBroadcast(m.fills[i].status)
    ensures Inv(ExpireRows(m, i))
  {
    hide LatestFill, FillTxids, TradesMatch;
    var n, id := ExpireRows(m, i), m.fills[i].listing;
    InvTables(m);
    TablesKeep(m, n);
    assert LiveFill(m, i);
    LocalKeeps(m, n, id);
    forall j | 0 <= j < |n.fills| && n.fills[j].listing == id
      ensures LiveFill(n, j)
    {
      assert LiveFill(m, j);
    }
    LocalInv(m, n, id);
  }

  /** A listing without a live fill may change to any status that promises none. */
  lemma NoLiveFillMoves(m: State, id: string, s: ListingStatus)
    requires Inv(m) && id in m.listings
    requires m.listings[id].status == Active || m.listings[id].status == Reorged
    requires s == Active || s == Expired || s == Invalidated
    ensures Inv(WithStatus(m, id, s))
  {
    hide LatestFill, FillTxids, TradesMatch;
    var n := WithStatus(m, id, s);
    InvTables(m);
    TablesKeep(m, n);
    LocalKeeps(m, n, id);
    forall j | 0 <= j < |n.fills| && n.fills[j].listing == id
      ensures LiveFill(n, j)
    {
      assert LiveFill(m, j) && PromisedFill(m, id);
    }
    LocalInv(m, n, id);
  }

  lemma InvalidateKeeps(m: State, id: string)
    requires Inv(m) && id in m.listings && OpenForReconcile(m.listings[id].status)
    ensures Inv(InvalidateListing(m, id))
  {
    hide LatestFill, FillTxids, TradesMatch;
    var n := InvalidateListing(m, id);
    InvTables(m);
    TablesKeep(m, n);
    LocalKeeps(m, n, id);
    forall j | 0 <= j < |n.fills| && n.fills[j].listing == id
      ensures LiveFill(n, j)
    {
      assert LiveFill(m, j);
    }
    LocalInv(m, n, id);
  }

  /** Re-pending touches only the newest fill, so it is the same write as a broadcast. */
  lemma RependIsBroadcast(m: State, id: string, i: nat)
    requires Inv(m) && id in m.listings && LatestFill(m.fills, id) == Some(i) && i < |m.fills| && m.fills[i].txid.Some?
    ensures m.fills[i].listing == id && TxidFree(m, i, m.fills[i].psbtTxid)
    ensures RependRows(m, id, m.fills[i].txid.value) == BroadcastRows(m, i)
  {
    InvTables(m);
    LatestIs(m.fills, id);
    assert m.fills[i].txid == Some(m.fills[i].psbtTxid);
    hide LatestFill, FillTxids, TradesMatch, Inv;
    var n, b := RependRows(m, id, m.fills[i].txid.value), BroadcastRows(m, i);
    forall j | 0 <= j < |m.fills|
      ensures n.fills[j] == b.fills[j]
    {
      if j != i {
        assert m.fills[j].txid != m.fills[i].txid;
      }
    }
    assert n.fills == b.fills;
  }

  lemma RependKeeps(m: State, id: string, i: nat)
    requires Inv(m) && id in m.listings && m.listings[id].status == Reorged
    requires LatestFill(m.fills, id) == Some(i) && i < |m.fills| && m.fills[i].txid.Some?
    ensures Inv(RependRows(m, id, m.fills[i].txid.value))
  {
    RependIsBroadcast(m, id, i);
    hide LatestFill, FillTxids, TradesMatch, LiveFill, BroadcastRows;
    assert PromisedFill(m, id);
    BroadcastKeeps(m, i);
  }

  lemma CheckSourceKeeps(m: State, id: string, source: SourceView)
    requires Inv(m) && id in m.listings && OpenForReconcile(m.listings[id].status)
    requires SourceOutcome(m, id, source).Some?
    ensures Inv(SourceOutcome(m, id, source).value)
  {
    hide LatestFill, Inv, InvalidateListing, RependRows, WithStatus;
    match source
    case ConfirmedSpend(_) => InvalidateKeeps(m, id);
    case Unspent => NoLiveFillMoves(m, id, Active);
    case MempoolSpend(mempool) =>
      var latest := LatestFill(m.fills, id);
      if m.listings[id].status == Reorged && latest.Some? && latest.value < |m.fills|
         && m.fills[latest.value].txid.Some? && m.fills[latest.value].txid.value in mempool {
        RependKeeps(m, id, latest.value);
      } else {
        InvalidateKeeps(m, id);
      }
  }

  lemma LiveIsLatest(m: State, i: nat)
    requires Inv(m) && i < |m.fills| && Live(m.fills[i].status)
    ensures LatestFill(m.fills, m.fills[i].listing) == Some(i)
  {
    hide LatestFill, FillTxids, TradesMatch, PromisedFill;
    assert LiveFill(m, i);
  }

  lemma StepKeeps(m: State, step: Step)
    requires Inv(m)
    ensures Inv(After(m, step))
  {
    hide Inv, LatestFill, SourceOutcome, CancelRows, ReserveRows, WithFill, BroadcastRows, ConfirmRows, ReorgRows,
         ExpireRows, WithStatus;
    if Next(m, step).Some? {
      match step
      case Create(id, h) => CreateKeeps(m, id, h);
      case Cancel(id) => CancelKeeps(m, id);
      case Reserve(id, _, e) => ReserveKeeps(m, id, e);
      case Build(i, psbtTxid) => AdvanceKeeps(m, i, m.fills[i].(status := PsbtBuilt, psbtTxid := psbtTxid));
      case BuyerSign(i, e) => AdvanceKeeps(m, i, m.fills[i].(status := BuyerSigned, expiresAt := e));
      case SellerSign(i) => AdvanceKeeps(m, i, m.fills[i].(status := SellerSigned));
      case FinalizeAndBroadcast(i) =>
        LiveIsLatest(m, i);
        BroadcastKeeps(m, i);
      case Confirm(i, _, _, h) => ConfirmKeeps(m, i, h);
      case Unconfirm(i, _, _) => ReorgKeeps(m, i);
      case CheckSource(id, s) => CheckSourceKeeps(m, id, s);
      case CheckFunds(i, _) => ExpireFillKeeps(m, i);
      case ExpireListing(id, _) => NoLiveFillMoves(m, id, Expired);
      case ExpireFill(i, _) => ExpireFillKeeps(m, i);
    }
  }

  lemma {:induction false} RunKeeps(m: State, steps: seq<Step>)
    requires Inv(m)
    ensures Inv(Run(m, steps))
    decreases |steps|
  {
    if steps != [] {
      hide Inv, After;
      RunKeeps(m, steps[..|steps| - 1]);
      StepKeeps(Run(m, steps[..|steps| - 1]), steps[|steps| - 1]);
    }
  }

  // ── What a reachable state promises ──────────────────────────────────────

  /** The live fills of a listing. */
  function LiveFills(m: State, id: string): set<nat> {
    set i | 0 <= i < |m.fills| && m.fills[i].listing == id && Live(m.fills[i].status)
  }

  predicate IsBroadcast(s: FillStatus) {
    s == FillBroadcast
  }

  predicate IsConfirmed(s: FillStatus) {
    s == Confirmed
  }

  predicate OneLiveFill(m: State, id: string, status: FillStatus -> bool) {
    exists i :: 0 <= i < |m.fills| && LiveFills(m, id) == {i} && status(m.fills[i].status)
  }

  /** How the two machines are coupled. */
  predicate Coupled(m: State, id: string)
    requires id in m.listings
  {
    match m.listings[id].status
    case Reserved => OneLiveFill(m, id, PreBroadcast)
    case Broadcast => OneLiveFill(m, id, IsBroadcast)
    case Filled => OneLiveFill(m, id, IsConfirmed)
    case Cancelled => LiveFills(m, id) == {} || OneLiveFill(m, id, IsBroadcast)
    case _ => LiveFills(m, id) == {}
  }

  lemma InvCouples(m: State, id: string)
    requires Inv(m) && id in m.listings
    ensures Coupled(m, id)
    ensures |LiveFills(m, id)| <= 1
  {
    hide LatestFill;
    assert PromisedFill(m, id);
    LatestIs(m.fills, id);
    var live := LiveFills(m, id);
    forall i | i in live
      ensures live == {i} && StatusFits(m.listings[id].status, m.fills[i].status)
    {
      assert LiveFill(m, i);
      forall j | j in live
        ensures j == i
      {
        LiveUnique(m, i, j);
      }
    }
    if live != {} {
      var i :| i in live;
      assert live == {i};
      assert |live| == 1;
    }
    var latest := LatestFill(m.fills, id);
    if latest.Some? && latest.value < |m.fills| && Live(m.fills[latest.value].status) {
      assert latest.value in live;
    }
  }

  lemma EmptyInv()
    ensures Inv(EMPTY)
  {
  }

  /** Every reachable market state couples the two machines. */
  lemma ReachableStatesAreCoupled(steps: seq<Step>, id: string)
    requires id in Run(EMPTY, steps).listings
    ensures Coupled(Run(EMPTY, steps), id)
    ensures |LiveFills(Run(EMPTY, steps), id)| <= 1
  {
    hide Inv, Run, Coupled;
    EmptyInv();
    RunKeeps(EMPTY, steps);
    InvCouples(Run(EMPTY, steps), id);
  }

  /** In every reachable state a trade row is canonical exactly when its fill is confirmed, every
      confirmed fill has its trade row, and a listing has at most one canonical trade. */
  lemma TradesFollowConfirmations(steps: seq<Step>)
    ensures var m := Run(EMPTY, steps);
            && TradesMatch(m)
            && (forall s, t ::
                  s in m.trades && t in m.trades && m.trades[s].canonical && m.trades[t].canonical
                      && m.trades[s].listing == m.trades[t].listing ==>
                    s == t)
  {
    hide Run, LatestFill;
    EmptyInv();
    RunKeeps(EMPTY, steps);
    var m := Run(EMPTY, steps);
    forall s, t | s in m.trades && t in m.trades && m.trades[s].canonical && m.trades[t].canonical
                  && m.trades[s].listing == m.trades[t].listing
      ensures s == t
    {
      LiveUnique(m, m.trades[s].fill, m.trades[t].fill);
    }
  }

  // ── Cancellation ─────────────────────────────────────────────────────────

  /** Cancelled, and no fill of it is live. */
  predicate Dead(m: State, id: string) {
    && id in m.listings && m.listings[id].status == Cancelled
    && (forall i :: 0 <= i < |m.fills| && m.fills[i].listing == id ==> !Live(m.fills[i].status))
  }

  /** The listing a step works on. */
  function StepListing(m: State, step: Step): Option<string> {
    match step
    case Create(id, _) => Some(id)
    case Cancel(id) => Some(id)
    case Reserve(id, _, _) => Some(id)
    case CheckSource(id, _) => Some(id)
    case ExpireListing(id, _) => Some(id)
    case _ => if step.fill < |m.fills| then Some(m.fills[step.fill].listing) else None
  }

  /** A step leaves every other listing and its fills alone. */
  lemma OtherListingsUntouched(m: State, step: Step, id: string)
    requires id in m.listings && StepListing(m, step) != Some(id)
    ensures var n := After(m, step);
            && id in n.listings && n.listings[id] == m.listings[id]
            && |n.fills| >= |m.fills|
            && (forall i :: 0 <= i < |m.fills| && m.fills[i].listing == id ==> n.fills[i] == m.fills[i])
            && (forall i :: 0 <= i < |n.fills| && n.fills[i].listing == id ==>
                i < |m.fills| && m.fills[i].listing == id)
  {
    hide LatestFill;
  }

  /** Nothing applies to a dead listing. */
  lemma NothingAppliesToDead(m: State, step: Step, id: string)
    requires Dead(m, id) && StepListing(m, step) == Some(id)
    ensures Next(m, step).None?
  {
    hide LatestFill;
  }

  lemma DeadStep(m: State, step: Step, id: string)
    requires Dead(m, id)
    ensures Dead(After(m, step), id)
  {
    hide Next;
    if StepListing(m, step) == Some(id) {
      NothingAppliesToDead(m, step, id);
    } else {
      OtherListingsUntouched(m, step, id);
    }
  }

  lemma {:induction false} DeadForever(m: State, id: string, steps: seq<Step>)
    requires Dead(m, id)
    ensures Dead(Run(m, steps), id)
    decreases |steps|
  {
    if steps != [] {
      hide Dead, After;
      DeadForever(m, id, steps[..|steps| - 1]);
      DeadStep(Run(m, steps[..|steps| - 1]), steps[|steps| - 1], id);
    }
  }

  /** A broadcast fill can still be confirmed, whatever its listing's status. */
  lemma OneConfirmation(m: State, id: string, i: nat) returns (steps: seq<Step>)
    requires Inv(m) && i < |m.fills| && m.fills[i].listing == id && m.fills[i].status == FillBroadcast
    ensures id in Run(m, steps).listings && Run(m, steps).listings[id].status == Filled
  {
    InvTables(m);
    assert id in m.listings;
    hide LatestFill, Inv;
    var step := Confirm(i, m.fills[i].txid, true, 0);
    steps := [step];
    assert steps[..0] == [];
    assert Run(m, steps) == After(Run(m, []), step);
  }

  /** A cancelled listing is documented never to come back. It does stay cancelled under every
      later step exactly when it had no broadcast fill; with one, a confirmation makes it filled. */
  lemma CancellationIsFinalExactly(m: State, id: string)
    requires Inv(m) && id in m.listings && m.listings[id].status == Cancelled
    ensures (forall steps: seq<Step> :: id in Run(m, steps).listings && Run(m, steps).listings[id].status == Cancelled)
            <==> forall i :: 0 <= i < |m.fills| && m.fills[i].listing == id ==> m.fills[i].status != FillBroadcast
  {
    if i :| 0 <= i < |m.fills| && m.fills[i].listing == id && m.fills[i].status == FillBroadcast {
      hide Inv, Run;
      var steps := OneConfirmation(m, id, i);
    } else {
      assert Dead(m, id) by {
        forall i | 0 <= i < |m.fills| && m.fills[i].listing == id
          ensures !Live(m.fills[i].status)
        {
          assert LiveFill(m, i);
        }
      }
      hide Inv, Run;
      forall steps: seq<Step>
        ensures id in Run(m, steps).listings && Run(m, steps).listings[id].status == Cancelled
      {
        DeadForever(m, id, steps);
      }
    }
  }

  lemma RunOneMore(m: State, steps: seq<Step>, step: Step)
    ensures Run(m, steps + [step]) == After(Run(m, steps), step)
  {
    assert (steps + [step])[..|steps|] == steps;
  }

  /** One listing sold, broadcast, cancelled, and then mined. */
  const SALE: seq<Step> :=
    [Create("L", 100), Reserve("L", 0, 10), Build(0, "t"), BuyerSign(0, 20), SellerSign(0), FinalizeAndBroadcast(0)]

  /** From the empty market: the seller cancels while the sale is in the mempool, and the
      confirmation turns the cancelled listing into a filled one. */
  lemma CancelledListingIsFilled()
    ensures var cancelled, mined := SALE + [Cancel("L")], SALE + [Cancel("L")] + [Confirm(0, Some("t"), true, 5)];
            && "L" in Run(EMPTY, cancelled).listings && Run(EMPTY, cancelled).listings["L"].status == Cancelled
            && "L" in Run(EMPTY, mined).listings && Run(EMPTY, mined).listings["L"].status == Filled
  {
    SaleIsBroadcast();
    hide Run, SALE;
    RunOneMore(EMPTY, SALE, Cancel("L"));
    RunOneMore(EMPTY, SALE + [Cancel("L")], Confirm(0, Some("t"), true, 5));
    var m := State(map["L" := Listing(Broadcast, 100)], [Fill("L", FillBroadcast, "t", Some("t"), 20)], map[]);
    assert Run(EMPTY, SALE) == m;
    var c := After(m, Cancel("L"));
    assert c.fills == m.fills;
    assert c.listings["L"].status == Cancelled;
  }

  /** The sale's listing and its one fill, after a further step. */
  lemma SaleStep(steps: seq<Step>, listing: Listing, fill: Fill, step: Step, nextListing: Listing, nextFill: Fill)
    requires Run(EMPTY, steps) == State(map["L" := listing], [fill], map[])
    requires After(State(map["L" := listing], [fill], map[]), step) == State(map["L" := nextListing], [nextFill], map[])
    ensures Run(EMPTY, steps + [step]) == State(map["L" := nextListing], [nextFill], map[])
  {
    hide Run, After;
    RunOneMore(EMPTY, steps, step);
  }

  lemma SaleIsReserved()
    ensures Run(EMPTY, [Create("L", 100), Reserve("L", 0, 10)])
            == State(map["L" := Listing(Reserved, 100)], [Fill("L", FillReserved, "", None, 10)], map[])
  {
    hide Run;
    RunNothing(EMPTY);
    RunOneMore(EMPTY, [], Create("L", 100));
    assert [] + [Create("L", 100)] == [Create("L", 100)];
    assert Run(EMPTY, [Create("L", 100)]) == State(map["L" := Listing(Active, 100)], [], map[]);
    RunOneMore(EMPTY, [Create("L", 100)], Reserve("L", 0, 10));
    assert [Create("L", 100)] + [Reserve("L", 0, 10)] == [Create("L", 100), Reserve("L", 0, 10)];
  }

  lemma SaleIsSigned()
    ensures Run(EMPTY, SALE[..5])
            == State(map["L" := Listing(Reserved, 100)], [Fill("L", SellerSigned, "t", None, 20)], map[])
  {
    hide Run;
    var l := Listing(Reserved, 100);
    var reserved, built := Fill("L", FillReserved, "", None, 10), Fill("L", PsbtBuilt, "t", None, 10);
    var bought, sold := Fill("L", BuyerSigned, "t", None, 20), Fill("L", SellerSigned, "t", None, 20);
    SaleIsReserved();
    assert SALE[..2] == [Create("L", 100), Reserve("L", 0, 10)];
    SaleStep(SALE[..2], l, reserved, Build(0, "t"), l, built);
    assert SALE[..3] == SALE[..2] + [Build(0, "t")];
    SaleStep(SALE[..3], l, built, BuyerSign(0, 20), l, bought);
    assert SALE[..4] == SALE[..3] + [BuyerSign(0, 20)];
    SaleStep(SALE[..4], l, bought, SellerSign(0), l, sold);
    assert SALE[..5] == SALE[..4] + [SellerSign(0)];
  }

  lemma SaleIsBroadcast()
    ensures Run(EMPTY, SALE)
            == State(map["L" := Listing(Broadcast, 100)], [Fill("L", FillBroadcast, "t", Some("t"), 20)], map[])
  {
    hide Run;
    SaleIsSigned();
    SaleStep(SALE[..5], Listing(Reserved, 100), Fill("L", SellerSigned, "t", None, 20), FinalizeAndBroadcast(0),
             Listing(Broadcast, 100), Fill("L", FillBroadcast, "t", Some("t"), 20));
    assert SALE == SALE[..5] + [FinalizeAndBroadcast(0)];
  }

  lemma RunNothing(m: State)
    ensures Run(m, []) == m
  {
  }

  // ── Broadcasting late ────────────────────────────────────────────────────

  /** Broadcasting does not look at the rows it writes. When other calls ran since the fill was
      finalized, the coupling survives exactly if no other fill of the listing is live, and the
      trade table survives exactly if the fill has not been confirmed meanwhile. */
  lemma LateBroadcast(m: State, i: nat)
    requires Inv(m) && i < |m.fills| && m.fills[i].listing in m.listings
    requires TxidFree(m, i, m.fills[i].psbtTxid)
    ensures Coupled(BroadcastRows(m, i), m.fills[i].listing)
            <==> forall j :: j in LiveFills(m, m.fills[i].listing) ==> j == i
    ensures TradesMatch(BroadcastRows(m, i)) <==> m.fills[i].status != Confirmed
  {
    LateTrades(m, i);
    LateRows(m, i);
    hide Inv, LiveFills, BroadcastRows, TradesMatch, KnownListings, TxidFree;
    var n, id := BroadcastRows(m, i), m.fills[i].listing;
    OneIsAll(n, id, LiveFills(m, id), i);
  }

  /** What is left when the signed fill expires and another buyer reserves the listing. */
  const RESOLD := State(map["L" := Listing(Reserved, 100)],
                        [Fill("L", FillExpired, "t", None, 20), Fill("L", FillReserved, "", None, 40)], map[])

  lemma SaleIsResold()
    ensures Run(EMPTY, SALE[..5] + [ExpireFill(0, 20)] + [Reserve("L", 1, 40)]) == RESOLD
  {
    SaleIsSigned();
    var sold := SALE[..5];
    hide Run, SALE;
    RunOneMore(EMPTY, sold, ExpireFill(0, 20));
    RunOneMore(EMPTY, sold + [ExpireFill(0, 20)], Reserve("L", 1, 40));
    var m := State(map["L" := Listing(Reserved, 100)], [Fill("L", SellerSigned, "t", None, 20)], map[]);
    assert After(m, ExpireFill(0, 20)) == State(map["L" := Listing(Active, 100)],
                                                [Fill("L", FillExpired, "t", None, 20)], map[]);
  }

  /** From the empty market: the signed fill expires between finalizing and broadcasting, another
      buyer reserves the listing, and the late write leaves it with two live fills. */
  lemma ExpiredFillIsBroadcast()
    ensures Run(EMPTY, SALE[..5] + [ExpireFill(0, 20)] + [Reserve("L", 1, 40)]) == RESOLD
    ensures LiveFills(RESOLD, "L") == {1} && TxidFree(RESOLD, 0, RESOLD.fills[0].psbtTxid)
    ensures LiveFills(BroadcastRows(RESOLD, 0), "L") == {0, 1} && !Coupled(BroadcastRows(RESOLD, 0), "L")
  {
    hide Run, SALE;
    SaleIsResold();
    var n := BroadcastRows(RESOLD, 0);
    assert 0 in LiveFills(n, "L") && 1 in LiveFills(n, "L");
  }

  /** From the empty market: two broadcasts of one fill are under way, the first is mined and
      confirmed, and the second write leaves a canonical trade without a confirmed fill. */
  lemma ConfirmedFillIsBroadcastAgain()
    ensures var m := Run(EMPTY, SALE + [Confirm(0, Some("t"), true, 5)]);
            && |m.fills| == 1 && "L" in m.listings && m.fills[0].listing == "L" && TxidFree(m, 0, m.fills[0].psbtTxid)
            && TradesMatch(m) && !TradesMatch(BroadcastRows(m, 0))
  {
    SaleIsBroadcast();
    hide Run, SALE;
    RunOneMore(EMPTY, SALE, Confirm(0, Some("t"), true, 5));
    var m := Run(EMPTY, SALE + [Confirm(0, Some("t"), true, 5)]);
    assert m == State(map["L" := Listing(Filled, 100)], [Fill("L", Confirmed, "t", Some("t"), 20)],
                      map["t" := Trade("L", 0, true, 5)]);
    var n := BroadcastRows(m, 0);
    assert n.trades["t"].canonical && n.fills[0].status == FillBroadcast;
  }

  lemma OneIsAll(n: State, id: string, before: set<nat>, i: nat)
    requires i < |n.fills| && n.fills[i].status == FillBroadcast
    requires LiveFills(n, id) == before + {i}
    ensures OneLiveFill(n, id, IsBroadcast) <==> forall j :: j in before ==> j == i
  {
    hide LiveFills;
    if forall j :: j in before ==> j == i {
      assert before + {i} == {i};
    } else {
      var j :| j in before && j != i;
      assert j in before + {i} && i in before + {i};
      forall k: nat
        ensures LiveFills(n, id) != {k}
      {
        assert k != i || k != j;
      }
    }
  }

  lemma LateRows(m: State, i: nat)
    requires Inv(m) && i < |m.fills| && m.fills[i].listing in m.listings
    ensures var n, id := BroadcastRows(m, i), m.fills[i].listing;
            && LiveFills(n, id) == LiveFills(m, id) + {i}
            && id in n.listings && n.listings[id].status == Broadcast
            && |n.fills| == |m.fills| && n.fills[i].status == FillBroadcast
  {
    hide Inv, LatestFill;
  }

  lemma LateTrades(m: State, i: nat)
    requires Inv(m) && i < |m.fills| && m.fills[i].listing in m.listings
    requires TxidFree(m, i, m.fills[i].psbtTxid)
    ensures TradesMatch(BroadcastRows(m, i)) <==> m.fills[i].status != Confirmed
  {
    hide LatestFill, PromisedFill, LiveFill;
    var n := BroadcastRows(m, i);
    if m.fills[i].status == Confirmed {
      var t := m.fills[i].txid.value;
      assert n.trades[t].canonical && n.trades[t].fill == i;
      assert n.fills[i].status == FillBroadcast;
      assert !TradesMatch(n);
    } else {
      forall t | t in n.trades
        ensures && n.fills[n.trades[t].fill].txid == Some(t)
                && (n.trades[t].canonical <==> n.fills[n.trades[t].fill].status == Confirmed)
      {
        assert m.fills[m.trades[t].fill].txid == Some(t);
      }
    }
  }
}

/** The fixed-price market: a listing machine and a fill machine driven by users, by
    the reconciler, by mempool spends and by reorgs. */
module Market {
  import opened Wrappers

  datatype ListingStatus = Active | Reserved | Broadcast | Filled | Cancelled | Expired | Invalidated | Reorged

  datatype FillStatus =
    | FillReserved | PsbtBuilt | BuyerSigned | SellerSigned
    | FillBroadcast | Confirmed
    | FillExpired | FillCancelled | Failed | FillReorged

  datatype Listing = Listing(status: ListingStatus, expiryHeight: int)

  /** `psbtTxid` is the id the stored PSBT finalizes to; `txid` is the column set when it is finalized. */
  datatype Fill = Fill(listing: string, status: FillStatus, psbtTxid: string, txid: Option<string>, expiresAt: int)

  datatype Trade = Trade(listing: string, fill: nat, canonical: bool, blockHeight: int)

  /** The three tables; a fill's index is its row id and its creation order. */
  datatype State = State(listings: map<string, Listing>, fills: seq<Fill>, trades: map<string, Trade>)

  const EMPTY := State(map[], [], map[])

  /** What the indexer and the node say of a listing's source output. */
  datatype SourceView = ConfirmedSpend(spender: string) | Unspent | MempoolSpend(mempool: set<string>)

  /** One atomic call or one row of the reconciler. */
  datatype Step =
    | Create(id: string, expiryHeight: int)
    | Cancel(id: string)
    | Reserve(id: string, tip: int, expiresAt: int)
    | Build(fill: nat, psbtTxid: string)
    | BuyerSign(fill: nat, expiresAt: int)
    | SellerSign(fill: nat)
    | FinalizeAndBroadcast(fill: nat)
    | Confirm(fill: nat, spentBy: Option<string>, canonical: bool, height: int)
    | Unconfirm(fill: nat, spentBy: Option<string>, canonical: bool)
    | CheckSource(id: string, source: SourceView)
    | CheckFunds(fill: nat, gone: bool)
    | ExpireListing(id: string, tip: int)
    | ExpireFill(fill: nat, now: int)

  predicate PreBroadcast(s: FillStatus) {
    s == FillReserved || s == PsbtBuilt || s == BuyerSigned || s == SellerSigned
  }

  predicate Live(s: FillStatus) {
    PreBroadcast(s) || s == FillBroadcast || s == Confirmed
  }

  predicate OpenForReconcile(s: ListingStatus) {
    s == Active || s == Reserved || s == Broadcast || s == Reorged
  }

  // ── Row updates ──────────────────────────────────────────────────────────

  function WithStatus(m: State, id: string, s: ListingStatus): State
    requires id in m.listings
  {
    m.(listings := m.listings[id := m.listings[id].(status := s)])
  }

  function WithFill(m: State, i: nat, f: Fill): State
    requires i < |m.fills|
  {
    m.(fills := m.fills[i := f])
  }

  /** An update of every fill row that matches a filter. */
  function UpdateFills(fills: seq<Fill>, update: Fill -> Fill): seq<Fill> {
    seq(|fills|, i requires 0 <= i < |fills| => update(fills[i]))
  }

  function CancelOne(id: string): Fill -> Fill {
    (f: Fill) => if f.listing == id && PreBroadcast(f.status) then f.(status := FillCancelled) else f
  }

  function FailOne(id: string): Fill -> Fill {
    (f: Fill) =>
      if f.listing == id && (PreBroadcast(f.status) || f.status == FillBroadcast) then f.(status := Failed) else f
  }

  function RependOne(id: string, txid: string): Fill -> Fill {
    (f: Fill) => if f.listing == id && f.txid == Some(txid) then f.(status := FillBroadcast) else f
  }

  /** The newest fill of a listing. */
  function LatestFill(fills: seq<Fill>, id: string): Option<nat> {
    if fills == [] then None
    else if fills[|fills| - 1].listing == id then Some(|fills| - 1)
    else LatestFill(fills[..|fills| - 1], id)
  }

  /** The unique index on fill transaction ids admits this id for this row. */
  predicate TxidFree(m: State, i: nat, txid: string) {
    forall j :: 0 <= j < |m.fills| && j != i ==> m.fills[j].txid != Some(txid)
  }

  /** Set a fill and its listing to broadcast, whatever their status. */
  function BroadcastRows(m: State, i: nat): State
    requires i < |m.fills| && m.fills[i].listing in m.listings
  {
    var f := m.fills[i];
    WithStatus(WithFill(m, i, f.(status := FillBroadcast, txid := Some(f.psbtTxid))), f.listing, Broadcast)
  }

  function InvalidateListing(m: State, id: string): State
    requires id in m.listings
  {
    WithStatus(m, id, Invalidated).(fills := UpdateFills(m.fills, FailOne(id)))
  }

  /** Insert the trade row, or restore its canonicity after a reorg. */
  function EnsureTrade(m: State, i: nat, height: int): State
    requires i < |m.fills| && m.fills[i].txid.Some?
  {
    var txid := m.fills[i].txid.value;
    if txid in m.trades then
      m.(trades := m.trades[txid := m.trades[txid].(canonical := true, blockHeight := height)])
    else
      m.(trades := m.trades[txid := Trade(m.fills[i].listing, i, true, height)])
  }

  /** Release a listing that is still reserved. */
  function Release(m: State, id: string): State {
    if id in m.listings && m.listings[id].status == Reserved then WithStatus(m, id, Active) else m
  }

  function CancelRows(m: State, id: string): State
    requires id in m.listings
  {
    WithStatus(m, id, Cancelled).(fills := UpdateFills(m.fills, CancelOne(id)))
  }

  function ReserveRows(m: State, id: string, expiresAt: int): State
    requires id in m.listings
  {
    WithStatus(m, id, Reserved).(fills := m.fills + [Fill(id, FillReserved, "", None, expiresAt)])
  }

  function ConfirmRows(m: State, i: nat, height: int): State
    requires i < |m.fills| && m.fills[i].listing in m.listings && m.fills[i].txid.Some?
  {
    EnsureTrade(WithStatus(WithFill(m, i, m.fills[i].(status := Confirmed)), m.fills[i].listing, Filled), i, height)
  }

  function ReorgRows(m: State, i: nat): State
    requires i < |m.fills| && m.fills[i].listing in m.listings
  {
    var n := WithStatus(WithFill(m, i, m.fills[i].(status := FillReorged)), m.fills[i].listing, Reorged);
    var txid := m.fills[i].txid;
    if txid.Some? && txid.value in m.trades
    then n.(trades := m.trades[txid.value := m.trades[txid.value].(canonical := false)]) else n
  }

  function RependRows(m: State, id: string, txid: string): State
    requires id in m.listings
  {
    WithStatus(m, id, Broadcast).(fills := UpdateFills(m.fills, RependOne(id, txid)))
  }

  function ExpireRows(m: State, i: nat): State
    requires i < |m.fills|
  {
    Release(WithFill(m, i, m.fills[i].(status := FillExpired)), m.fills[i].listing)
  }

  predicate FillIs(m: State, i: nat, s: FillStatus) {
    i < |m.fills| && m.fills[i].status == s && m.fills[i].listing in m.listings
  }

  /** The state after a step, or None when the step is refused or has nothing to do. */
  function Next(m: State, step: Step): Option<State> {
    match step
    case Create(id, expiryHeight) =>
      if id in m.listings then None
      else Some(m.(listings := m.listings[id := Listing(Active, expiryHeight)]))
    case Cancel(id) =>
      if id !in m.listings || m.listings[id].status == Filled || m.listings[id].status == Cancelled then None
      else Some(CancelRows(m, id))
    case Reserve(id, tip, expiresAt) =>
      if id !in m.listings || m.listings[id].status != Active || m.listings[id].expiryHeight <= tip then None
      else Some(ReserveRows(m, id, expiresAt))
    case Build(i, psbtTxid) =>
      if FillIs(m, i, FillReserved) || FillIs(m, i, PsbtBuilt)
      then Some(WithFill(m, i, m.fills[i].(status := PsbtBuilt, psbtTxid := psbtTxid)))
      else None
    case BuyerSign(i, expiresAt) =>
      if FillIs(m, i, PsbtBuilt)
      then Some(WithFill(m, i, m.fills[i].(status := BuyerSigned, expiresAt := expiresAt)))
      else None
    case SellerSign(i) =>
      if FillIs(m, i, BuyerSigned) then Some(WithFill(m, i, m.fills[i].(status := SellerSigned))) else None
    case FinalizeAndBroadcast(i) =>
      if (FillIs(m, i, SellerSigned) || FillIs(m, i, FillBroadcast)) && TxidFree(m, i, m.fills[i].psbtTxid)
      then Some(BroadcastRows(m, i)) else None
    case Confirm(i, spentBy, canonical, height) =>
      if FillIs(m, i, FillBroadcast) && m.fills[i].txid.Some? && spentBy == m.fills[i].txid && canonical
      then Some(ConfirmRows(m, i, height)) else None
    case Unconfirm(i, spentBy, canonical) =>
      if FillIs(m, i, Confirmed) && !(spentBy == m.fills[i].txid && canonical)
      then Some(ReorgRows(m, i)) else None
    case CheckSource(id, source) =>
      if id !in m.listings || !OpenForReconcile(m.listings[id].status) then None
      else SourceOutcome(m, id, source)
    case CheckFunds(i, gone) =>
      if gone && FillIs(m, i, BuyerSigned)
      then Some(ExpireRows(m, i)) else None
    case ExpireListing(id, tip) =>
      if id in m.listings && m.listings[id].status == Active && m.listings[id].expiryHeight <= tip
      then Some(WithStatus(m, id, Expired)) else None
    case ExpireFill(i, now) =>
      if i < |m.fills| && PreBroadcast(m.fills[i].status) && m.fills[i].expiresAt <= now
      then Some(ExpireRows(m, i)) else None
  }

  function SourceOutcome(m: State, id: string, source: SourceView): Option<State>
    requires id in m.listings
  {
    match source
    case ConfirmedSpend(spender) =>
      if exists i :: 0 <= i < |m.fills| && m.fills[i].listing == id && m.fills[i].txid == Some(spender) then None
      else Some(InvalidateListing(m, id))
    case Unspent =>
      if m.listings[id].status == Reorged then Some(WithStatus(m, id, Active)) else None
    case MempoolSpend(mempool) =>
      var latest := LatestFill(m.fills, id);
      var ours := if latest.Some? && latest.value < |m.fills| then m.fills[latest.value].txid else None;
      if ours.Some? && ours.value in mempool then
        if m.listings[id].status == Reorged
        then Some(RependRows(m, id, ours.value))
        else None
      else Some(InvalidateListing(m, id))
  }

  /** A refused call leaves the tables as they were. */
  function After(m: State, step: Step): State {
    var n := Next(m, step);
    if n.Some? then n.value else m
  }

  function Run(m: State, steps: seq<Step>): State {
    if steps == [] then m else After(Run(m, steps[..|steps| - 1]), steps[|steps| - 1])
  }

  // ── The service ──────────────────────────────────────────────────────────

  /** What one reconcile pass sees of the chain, the mempool and the clock. */
  datatype World = World(
    tip: int, now: int,
    spentBy: string -> Option<string>, canonical: string -> bool, height: string -> int,
    unspent: string -> bool, mempool: set<string>, fundsGone: nat -> bool)

  function SourceOf(w: World, id: string): SourceView {
    if w.spentBy(id).Some? then ConfirmedSpend(w.spentBy(id).value)
    else if w.unspent(id) then Unspent
    else MempoolSpend(w.mempool)
  }

  class MarketService {
    var listings: map<string, Listing>
    var fills: seq<Fill>
    var trades: map<string, Trade>

    constructor ()
      ensures Tables() == EMPTY
    {
      listings, fills, trades := map[], [], map[];
    }

    function Tables(): State
      reads this
    {
      State(listings, fills, trades)
    }

    method CreateListing(id: string, expiryHeight: int) returns (ok: bool)
      modifies this
      ensures ok <==> Next(old(Tables()), Create(id, expiryHeight)).Some?
      ensures Tables() == After(old(Tables()), Create(id, expiryHeight))
    {
      if id in listings {
        return false;
      }
      listings := listings[id := Listing(Active, expiryHeight)];
      ok := true;
    }

    method CancelListing(id: string) returns (ok: bool)
      modifies this
      ensures ok <==> Next(old(Tables()), Cancel(id)).Some?
      ensures Tables() == After(old(Tables()), Cancel(id))
    {
      if id !in listings || listings[id].status == Filled || listings[id].status == Cancelled {
        return false;
      }
      listings := listings[id := listings[id].(status := Cancelled)];
      fills := UpdateFills(fills, CancelOne(id));
      ok := true;
    }

    /** An expired listing is refused; marking it expired rolls back with the refusal. */
    method ReserveListing(id: string, tip: int, expiresAt: int) returns (ok: bool, fill: nat)
      modifies this
      ensures ok <==> Next(old(Tables()), Reserve(id, tip, expiresAt)).Some?
      ensures Tables() == After(old(Tables()), Reserve(id, tip, expiresAt))
      ensures ok ==> fill == |old(fills)|
    {
      ok, fill := false, 0;
      if id !in listings || listings[id].status != Active || listings[id].expiryHeight <= tip {
        return;
      }
      fill := |fills|;
      fills := fills + [Fill(id, FillReserved, "", None, expiresAt)];
      listings := listings[id := listings[id].(status := Reserved)];
      ok := true;
    }

    /** Build, buyer signature and seller signature move one fill forward. */
    method Advance(step: Step) returns (ok: bool)
      requires step.Build? || step.BuyerSign? || step.SellerSign?
      modifies this
      ensures ok <==> Next(old(Tables()), step).Some?
      ensures Tables() == After(old(Tables()), step)
    {
      var i := step.fill;
      if i >= |fills| || fills[i].listing !in listings {
        return false;
      }
      var f := fills[i];
      match step {
        case Build(_, psbtTxid) =>
          if f.status != FillReserved && f.status != PsbtBuilt { return false; }
          fills := fills[i := f.(status := PsbtBuilt, psbtTxid := psbtTxid)];
        case BuyerSign(_, expiresAt) =>
          if f.status != PsbtBuilt { return false; }
          fills := fills[i := f.(status := BuyerSigned, expiresAt := expiresAt)];
        case SellerSign(_) =>
          if f.status != BuyerSigned { return false; }
          fills := fills[i := f.(status := SellerSigned)];
      }
      ok := true;
    }

    method FinalizeAndBroadcastFill(i: nat) returns (ok: bool)
      modifies this
      ensures ok <==> Next(old(Tables()), FinalizeAndBroadcast(i)).Some?
      ensures Tables() == After(old(Tables()), FinalizeAndBroadcast(i))
    {
      if i >= |fills| || fills[i].listing !in listings {
        return false;
      }
      var f := fills[i];
      if f.status != SellerSigned && f.status != FillBroadcast {
        return false;
      }
      if exists j :: 0 <= j < |fills| && j != i && fills[j].txid == Some(f.psbtTxid) {
        return false;
      }
      fills := fills[i := f.(status := FillBroadcast, txid := Some(f.psbtTxid))];
      listings := listings[f.listing := listings[f.listing].(status := Broadcast)];
      ok := true;
    }

    /** One row of the reconciler. */
    method ReconcileRow(step: Step) returns (changed: bool)
      requires ReconcilerStep(step)
      modifies this
      ensures changed <==> Next(old(Tables()), step).Some?
      ensures Tables() == After(old(Tables()), step)
      ensures Owners(fills) == Owners(old(fills)) && listings.Keys == old(listings.Keys)
    {
      ReconcilerKeepsRows(Tables(), step);
      match step
      case Confirm(i, spentBy, canonical, height) => changed := ConfirmFill(i, spentBy, canonical, height);
      case Unconfirm(i, spentBy, canonical) => changed := ReorgFill(i, spentBy, canonical);
      case CheckSource(id, source) => changed := CheckListingSource(id, source);
      case CheckFunds(i, gone) =>
        changed := gone && i < |fills| && fills[i].status == BuyerSigned && fills[i].listing in listings;
        if changed {
          ExpireAndRelease(i);
        }
      case ExpireListing(id, tip) =>
        changed := id in listings && listings[id].status == Active && listings[id].expiryHeight <= tip;
        if changed {
          listings := listings[id := listings[id].(status := Expired)];
        }
      case ExpireFill(i, now) =>
        changed := i < |fills| && PreBroadcast(fills[i].status) && fills[i].expiresAt <= now;
        if changed {
          ExpireAndRelease(i);
        }
    }

    /** Promote a broadcast fill the indexer has confirmed, and record its trade. */
    method ConfirmFill(i: nat, spentBy: Option<string>, canonical: bool, height: int) returns (changed: bool)
      modifies this
      ensures changed <==> Next(old(Tables()), Confirm(i, spentBy, canonical, height)).Some?
      ensures Tables() == After(old(Tables()), Confirm(i, spentBy, canonical, height))
    {
      changed := false;
      if i >= |fills| || fills[i].status != FillBroadcast || fills[i].listing !in listings {
        return;
      }
      var f := fills[i];
      if f.txid.None? || spentBy != f.txid || !canonical {
        return;
      }
      fills := fills[i := f.(status := Confirmed)];
      listings := listings[f.listing := listings[f.listing].(status := Filled)];
      if f.txid.value in trades {
        trades := trades[f.txid.value := trades[f.txid.value].(canonical := true, blockHeight := height)];
      } else {
        trades := trades[f.txid.value := Trade(f.listing, i, true, height)];
      }
      changed := true;
    }

    /** A confirmed fill whose source is no longer spent by its transaction. */
    method ReorgFill(i: nat, spentBy: Option<string>, canonical: bool) returns (changed: bool)
      modifies this
      ensures changed <==> Next(old(Tables()), Unconfirm(i, spentBy, canonical)).Some?
      ensures Tables() == After(old(Tables()), Unconfirm(i, spentBy, canonical))
    {
      changed := false;
      if i >= |fills| || fills[i].status != Confirmed || fills[i].listing !in listings {
        return;
      }
      var f := fills[i];
      if spentBy == f.txid && canonical {
        return;
      }
      if f.txid.Some? && f.txid.value in trades {
        trades := trades[f.txid.value := trades[f.txid.value].(canonical := false)];
      }
      fills := fills[i := f.(status := FillReorged)];
      listings := listings[f.listing := listings[f.listing].(status := Reorged)];
      changed := true;
    }

    /** An open listing whose source was spent by someone else, or whose reorged fill is gone or pending again. */
    method CheckListingSource(id: string, source: SourceView) returns (changed: bool)
      modifies this
      ensures changed <==> Next(old(Tables()), CheckSource(id, source)).Some?
      ensures Tables() == After(old(Tables()), CheckSource(id, source))
    {
      changed := false;
      if id !in listings || !OpenForReconcile(listings[id].status) {
        return;
      }
      var invalid := false;
      match source {
        case ConfirmedSpend(spender) =>
          invalid := !exists i :: 0 <= i < |fills| && fills[i].listing == id && fills[i].txid == Some(spender);
        case Unspent =>
          if listings[id].status == Reorged {
            listings := listings[id := listings[id].(status := Active)];
            changed := true;
          }
        case MempoolSpend(mempool) =>
          var latest := LatestFill(fills, id);
          var ours := if latest.Some? && latest.value < |fills| then fills[latest.value].txid else None;
          if ours.Some? && ours.value in mempool {
            if listings[id].status == Reorged {
              fills := UpdateFills(fills, RependOne(id, ours.value));
              listings := listings[id := listings[id].(status := Broadcast)];
              changed := true;
            }
          } else {
            invalid := true;
          }
      }
      if invalid {
        listings := listings[id := listings[id].(status := Invalidated)];
        fills := UpdateFills(fills, FailOne(id));
        changed := true;
      }
    }

    /** Expire a fill and release its listing if it is still reserved. */
    method ExpireAndRelease(i: nat)
      requires i < |fills|
      modifies this
      ensures Tables() == ExpireRows(old(Tables()), i)
    {
      var id := fills[i].listing;
      fills := fills[i := fills[i].(status := FillExpired)];
      if id in listings && listings[id].status == Reserved {
        listings := listings[id := listings[id].(status := Active)];
      }
    }

    /** A pass over a fixed list of rows, counting those of one kind. */
    method ReconcilePass(steps: seq<Step>, kind: Counter) returns (count: nat)
      requires forall k :: 0 <= k < |steps| ==> ReconcilerStep(steps[k])
      modifies this
      ensures Tables() == Run(old(Tables()), steps)
      ensures count == Tally(old(Tables()), steps, kind)
      ensures Owners(fills) == Owners(old(fills)) && listings.Keys == old(listings.Keys)
    {
      hide Counts;
      count := 0;
      for k := 0 to |steps|
        invariant Tables() == Run(old(Tables()), steps[..k])
        invariant count == Tally(old(Tables()), steps[..k], kind)
        invariant Owners(fills) == Owners(old(fills)) && listings.Keys == old(listings.Keys)
      {
        assert steps[..k + 1][..k] == steps[..k];
        var changed := ReconcileRow(steps[k]);
        if changed && Counts(Tables(), steps[k], kind) {
          count := count + 1;
        }
      }
      assert steps[..|steps|] == steps;
    }

    /** The listing ids in whatever order the table yields them. */
    method ListingOrder() returns (order: seq<string>)
      ensures forall id :: id in order <==> id in listings
      ensures forall i, j :: 0 <= i < j < |order| ==> order[i] != order[j]
    {
      order := [];
      var left := listings.Keys;
      while left != {}
        invariant left <= listings.Keys
        invariant forall id :: id in order <==> id in listings && id !in left
        invariant forall i, j :: 0 <= i < j < |order| ==> order[i] != order[j]
        decreases left
      {
        var id :| id in left;
        order := order + [id];
        left := left - {id};
      }
    }

    /** One pass over the tables: confirmations, reorgs, source checks, dead funding, then
        listing and reservation expiries, every row of each in turn. */
    method ReconcileMarket(w: World)
      returns (expired: nat, invalidated: nat, confirmed: nat, reorged: nat,
               ghost first: seq<string>, ghost second: seq<string>)
      modifies this
      ensures forall id :: id in first <==> id in old(listings)
      ensures forall id :: id in second <==> id in old(listings)
      ensures Tables() == Run(old(Tables()), Schedule(w, Owners(old(fills)), first, second))
      ensures var m, steps := old(Tables()), Schedule(w, Owners(old(fills)), first, second);
              && expired == Tally(m, steps, Expiries) && invalidated == Tally(m, steps, Invalidations)
              && confirmed == Tally(m, steps, Confirmations) && reorged == Tally(m, steps, Reorgs)
    {
      hide Counts, Tally, Run;
      var owners := Owners(fills);
      ghost var start := Tables();
      var order := ListingOrder();
      first := order;
      confirmed := ReconcilePass(ConfirmPass(w, owners), Confirmations);
      ghost var done := ConfirmPass(w, owners);
      reorged := ReconcilePass(UnconfirmPass(w, owners), Reorgs);
      RunAppend(start, done, UnconfirmPass(w, owners));
      done := done + UnconfirmPass(w, owners);
      invalidated := ReconcilePass(SourcePass(w, order), Invalidations);
      RunAppend(start, done, SourcePass(w, order));
      done := done + SourcePass(w, order);
      var dead := ReconcilePass(FundsPass(w, owners), Expiries);
      RunAppend(start, done, FundsPass(w, owners));
      done := done + FundsPass(w, owners);
      order := ListingOrder();
      second := order;
      var stale := ReconcilePass(ExpireListingPass(w, order), Expiries);
      RunAppend(start, done, ExpireListingPass(w, order));
      done := done + ExpireListingPass(w, order);
      var lapsed := ReconcilePass(ExpireFillPass(w, owners), Expiries);
      RunAppend(start, done, ExpireFillPass(w, owners));
      expired := dead + stale + lapsed;
      TallyOfSchedule(start, w, owners, first, second, Expiries);
      TallyOfSchedule(start, w, owners, first, second, Invalidations);
      TallyOfSchedule(start, w, owners, first, second, Confirmations);
      TallyOfSchedule(start, w, owners, first, second, Reorgs);
    }
  }

  predicate ReconcilerStep(step: Step) {
    step.Confirm? || step.Unconfirm? || step.CheckSource? || step.CheckFunds? || step.ExpireListing? || step.ExpireFill?
  }

  function Owners(fills: seq<Fill>): seq<string> {
    seq(|fills|, i requires 0 <= i < |fills| => fills[i].listing)
  }

  /** The four numbers a reconcile reports. */
  datatype Counter = Expiries | Invalidations | Confirmations | Reorgs

  /** A row that changed something and left these tables counts under this heading. A source check
      counts when the listing ends invalidated, not when it is restored. */
  predicate Counts(after: State, step: Step, kind: Counter) {
    match step
    case Confirm(_, _, _, _) => kind == Confirmations
    case Unconfirm(_, _, _) => kind == Reorgs
    case CheckSource(id, _) =>
      kind == Invalidations && id in after.listings && after.listings[id].status == Invalidated
    case CheckFunds(_, _) => kind == Expiries
    case ExpireListing(_, _) => kind == Expiries
    case ExpireFill(_, _) => kind == Expiries
    case _ => false
  }

  function Tally(m: State, steps: seq<Step>, kind: Counter): nat {
    if steps == [] then 0
    else
      var init, step := steps[..|steps| - 1], steps[|steps| - 1];
      var next := Next(Run(m, init), step);
      Tally(m, init, kind) + (if next.Some? && Counts(next.value, step, kind) then 1 else 0)
  }

  function ConfirmPass(w: World, owners: seq<string>): seq<Step> {
    seq(|owners|, i requires 0 <= i < |owners| =>
      Confirm(i, w.spentBy(owners[i]), w.canonical(owners[i]), w.height(owners[i])))
  }

  function UnconfirmPass(w: World, owners: seq<string>): seq<Step> {
    seq(|owners|, i requires 0 <= i < |owners| => Unconfirm(i, w.spentBy(owners[i]), w.canonical(owners[i])))
  }

  function SourcePass(w: World, order: seq<string>): seq<Step> {
    seq(|order|, i requires 0 <= i < |order| => CheckSource(order[i], SourceOf(w, order[i])))
  }

  function FundsPass(w: World, owners: seq<string>): seq<Step> {
    seq(|owners|, i requires 0 <= i < |owners| => CheckFunds(i, w.fundsGone(i)))
  }

  function ExpireListingPass(w: World, order: seq<string>): seq<Step> {
    seq(|order|, i requires 0 <= i < |order| => ExpireListing(order[i], w.tip))
  }

  function ExpireFillPass(w: World, owners: seq<string>): seq<Step> {
    seq(|owners|, i requires 0 <= i < |owners| => ExpireFill(i, w.now))
  }

  /** The whole pass, given the orders in which listings were visited. */
  function Schedule(w: World, owners: seq<string>, first: seq<string>, second: seq<string>): seq<Step> {
    ConfirmPass(w, owners) + UnconfirmPass(w, owners) + SourcePass(w, first) + FundsPass(w, owners)
    + ExpireListingPass(w, second) + ExpireFillPass(w, owners)
  }

  lemma ReconcilerKeepsRows(m: State, step: Step)
    requires ReconcilerStep(step)
    ensures Owners(After(m, step).fills) == Owners(m.fills)
    ensures After(m, step).listings.Keys == m.listings.Keys
  {
  }

  lemma {:induction false} RunAppend(m: State, a: seq<Step>, b: seq<Step>)
    ensures Run(m, a + b) == Run(Run(m, a), b)
    decreases |b|
  {
    if b == [] {
      assert a + b == a;
    } else {
      RunAppend(m, a, b[..|b| - 1]);
      assert (a + b)[..|a + b| - 1] == a + b[..|b| - 1];
    }
  }

  lemma {:induction false} TallyAppend(m: State, a: seq<Step>, b: seq<Step>, kind: Counter)
    ensures Tally(m, a + b, kind) == Tally(m, a, kind) + Tally(Run(m, a), b, kind)
    decreases |b|
  {
    hide Next, Counts, Run;
    if b == [] {
      assert a + b == a;
    } else {
      var init := b[..|b| - 1];
      TallyAppend(m, a, init, kind);
      RunAppend(m, a, init);
      assert (a + b)[..|a + b| - 1] == a + init;
    }
  }

  /** A pass of rows of one sort adds to its own count only. */
  lemma {:induction false} TallyNone(m: State, steps: seq<Step>, kind: Counter)
    requires forall k, after: State :: 0 <= k < |steps| ==> !Counts(after, steps[k], kind)
    ensures Tally(m, steps, kind) == 0
    decreases |steps|
  {
    hide Next, Counts;
    if steps != [] {
      TallyNone(m, steps[..|steps| - 1], kind);
    }
  }

  lemma TallyInParts(m: State, c: seq<Step>, u: seq<Step>, s: seq<Step>, f: seq<Step>, l: seq<Step>, e: seq<Step>,
                     kind: Counter)
    ensures Tally(m, c + u + s + f + l + e, kind)
            == Tally(m, c, kind) + Tally(Run(m, c), u, kind) + Tally(Run(m, c + u), s, kind)
               + Tally(Run(m, c + u + s), f, kind) + Tally(Run(m, c + u + s + f), l, kind)
               + Tally(Run(m, c + u + s + f + l), e, kind)
  {
    hide Tally, Run;
    TallyAppend(m, c, u, kind);
    TallyAppend(m, c + u, s, kind);
    TallyAppend(m, c + u + s, f, kind);
    TallyAppend(m, c + u + s + f, l, kind);
    TallyAppend(m, c + u + s + f + l, e, kind);
  }

  /** The two settling passes and the source pass add to one count each. */
  lemma EarlyPassesCount(m: State, w: World, owners: seq<string>, order: seq<string>, kind: Counter)
    ensures kind != Confirmations ==> Tally(m, ConfirmPass(w, owners), kind) == 0
    ensures kind != Reorgs ==> Tally(m, UnconfirmPass(w, owners), kind) == 0
    ensures kind != Invalidations ==> Tally(m, SourcePass(w, order), kind) == 0
  {
    hide Tally, SourceOf;
    if kind != Confirmations {
      TallyNone(m, ConfirmPass(w, owners), kind);
    }
    if kind != Reorgs {
      TallyNone(m, UnconfirmPass(w, owners), kind);
    }
    if kind != Invalidations {
      TallyNone(m, SourcePass(w, order), kind);
    }
  }

  /** The three expiring passes add to the count of what expired. */
  lemma LatePassesCount(m: State, w: World, owners: seq<string>, order: seq<string>, kind: Counter)
    requires kind != Expiries
    ensures Tally(m, FundsPass(w, owners), kind) == 0
    ensures Tally(m, ExpireListingPass(w, order), kind) == 0
    ensures Tally(m, ExpireFillPass(w, owners), kind) == 0
  {
    hide Tally;
    TallyNone(m, FundsPass(w, owners), kind);
    TallyNone(m, ExpireListingPass(w, order), kind);
    TallyNone(m, ExpireFillPass(w, owners), kind);
  }

  lemma TallyOfSchedule(m: State, w: World, owners: seq<string>, first: seq<string>, second: seq<string>, kind: Counter)
    ensures var c, u, s := ConfirmPass(w, owners), UnconfirmPass(w, owners), SourcePass(w, first);
            var f, l, e := FundsPass(w, owners), ExpireListingPass(w, second), ExpireFillPass(w, owners);
            Tally(m, Schedule(w, owners, first, second), kind)
            == match kind
               case Confirmations => Tally(m, c, kind)
               case Reorgs => Tally(Run(m, c), u, kind)
               case Invalidations => Tally(Run(m, c + u), s, kind)
               case Expiries =>
                 Tally(Run(m, c + u + s), f, kind) + Tally(Run(m, c + u + s + f), l, kind)
                 + Tally(Run(m, c + u + s + f + l), e, kind)
  {
    var c, u, s := ConfirmPass(w, owners), UnconfirmPass(w, owners), SourcePass(w, first);
    var f, l, e := FundsPass(w, owners), ExpireListingPass(w, second), ExpireFillPass(w, owners);
    assert Schedule(w, owners, first, second) == c + u + s + f + l + e;
    hide *;
    TallyInParts(m, c, u, s, f, l, e, kind);
    EarlyPassesCount(m, w, owners, first, kind);
    EarlyPassesCount(Run(m, c), w, owners, first, kind);
    EarlyPassesCount(Run(m, c + u), w, owners, first, kind);
    if kind != Expiries {
      LatePassesCount(Run(m, c + u + s), w, owners, second, kind);
      LatePassesCount(Run(m, c + u + s + f), w, owners, second, kind);
      LatePassesCount(Run(m, c + u + s + f + l), w, owners, second, kind);
    }
  }
}

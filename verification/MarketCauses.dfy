/** Why a row of the market has the status it has: what each status needs of the row, of its
    listing and of the step that wrote it. */
module MarketCauses {
  import opened Wrappers
  import opened Market
  import opened MarketSafety

  // ── One step ─────────────────────────────────────────────────────────────

  /** The newest fill of the listing was finalized to a transaction in the mempool. */
  ghost predicate NewestIsPending(m: State, id: string, mempool: set<string>) {
    exists i :: 0 <= i < |m.fills| && m.fills[i].listing == id
                && m.fills[i].txid.Some? && m.fills[i].txid.value in mempool
                && forall j :: i < j < |m.fills| ==> m.fills[j].listing != id
  }

  /** Somebody else spent the source. */
  ghost predicate SourceLost(m: State, id: string, source: SourceView) {
    match source
    case ConfirmedSpend(spender) =>
      forall i :: 0 <= i < |m.fills| && m.fills[i].listing == id ==> m.fills[i].txid != Some(spender)
    case Unspent => false
    case MempoolSpend(mempool) => !NewestIsPending(m, id, mempool)
  }

  /** A reorged listing whose own transaction is pending again. */
  ghost predicate Repends(m: State, id: string, step: Step) {
    && step.CheckSource? && step.id == id && step.source.MempoolSpend?
    && id in m.listings && m.listings[id].status == Reorged
    && NewestIsPending(m, id, step.source.mempool)
  }

  /** The indexer says that the fill's own transaction canonically spent the source. */
  predicate OwnSpend(f: Fill, spentBy: Option<string>, canonical: bool) {
    canonical && f.txid.Some? && spentBy == f.txid
  }

  /** The step ends a reservation: its time is up, or the buyer's signed coins are gone. */
  predicate Lapses(m: State, step: Step, i: nat)
    requires i < |m.fills|
  {
    var f := m.fills[i];
    || (step.ExpireFill? && step.fill == i && PreBroadcast(f.status) && f.expiresAt <= step.now)
    || (step.CheckFunds? && step.fill == i && step.gone && f.status == BuyerSigned && f.listing in m.listings)
  }

  /** What brings a fill to a status it did not have. */
  ghost predicate FillEnters(m: State, step: Step, i: nat, s: FillStatus)
    requires i < |m.fills|
  {
    var f := m.fills[i];
    var known := f.listing in m.listings;
    match s
    case FillReserved => false
    case PsbtBuilt => step.Build? && step.fill == i && known && f.status == FillReserved
    case BuyerSigned => step.BuyerSign? && step.fill == i && known && f.status == PsbtBuilt
    case SellerSigned => step.SellerSign? && step.fill == i && known && f.status == BuyerSigned
    case FillBroadcast =>
      || (step == FinalizeAndBroadcast(i) && known && f.status == SellerSigned
          && forall j :: 0 <= j < |m.fills| && j != i ==> m.fills[j].txid != Some(f.psbtTxid))
      || (Repends(m, f.listing, step)
          && exists k :: 0 <= k < |m.fills| && m.fills[k].listing == f.listing && m.fills[k].txid == f.txid
                         && f.txid.Some? && forall j :: k < j < |m.fills| ==> m.fills[j].listing != f.listing)
    case Confirmed =>
      step.Confirm? && step.fill == i && known && f.status == FillBroadcast && OwnSpend(f, step.spentBy, step.canonical)
    case FillExpired => Lapses(m, step, i)
    case FillCancelled =>
      && step == Cancel(f.listing) && known && PreBroadcast(f.status)
      && m.listings[f.listing].status != Filled && m.listings[f.listing].status != Cancelled
    case Failed =>
      && step.CheckSource? && step.id == f.listing && known && OpenForReconcile(m.listings[f.listing].status)
      && (PreBroadcast(f.status) || f.status == FillBroadcast) && SourceLost(m, f.listing, step.source)
    case FillReorged =>
      && step.Unconfirm? && step.fill == i && known && f.status == Confirmed
      && !(step.canonical && step.spentBy == f.txid)
  }

  lemma NewestIsLatest(m: State, id: string, mempool: set<string>)
    ensures var latest := LatestFill(m.fills, id);
            NewestIsPending(m, id, mempool) <==>
            latest.Some? && latest.value < |m.fills| &&
            m.fills[latest.value].txid.Some? && m.fills[latest.value].txid.value in mempool
  {
    LatestIs(m.fills, id);
  }

  lemma SourceCauses(m: State, id: string, source: SourceView)
    requires id in m.listings && OpenForReconcile(m.listings[id].status)
    ensures SourceLost(m, id, source) ==> SourceOutcome(m, id, source) == Some(InvalidateListing(m, id))
    ensures !SourceLost(m, id, source) ==>
              match source
              case ConfirmedSpend(_) => SourceOutcome(m, id, source).None?
              case Unspent =>
                SourceOutcome(m, id, source)
                == if m.listings[id].status == Reorged then Some(WithStatus(m, id, Active)) else None
              case MempoolSpend(_) =>
                LatestFill(m.fills, id).Some? && LatestFill(m.fills, id).value < |m.fills| &&
                var t := m.fills[LatestFill(m.fills, id).value].txid;
                t.Some? && SourceOutcome(m, id, source)
                           == if m.listings[id].status == Reorged then Some(RependRows(m, id, t.value)) else None
  {
    hide LatestFill, InvalidateListing, RependRows, WithStatus;
    if source.MempoolSpend? {
      NewestIsLatest(m, id, source.mempool);
    }
  }

  /** The rows of fills after a source check. */
  lemma FillAfterCheck(m: State, id: string, source: SourceView, i: nat)
    requires i < |m.fills| && id in m.listings && OpenForReconcile(m.listings[id].status)
    ensures var n, f, latest := After(m, CheckSource(id, source)), m.fills[i], LatestFill(m.fills, id);
            && |n.fills| == |m.fills|
            && n.fills[i] ==
               if f.listing != id then f
               else if SourceLost(m, id, source) then
                 if PreBroadcast(f.status) || f.status == FillBroadcast then f.(status := Failed) else f
               else if source.MempoolSpend? && m.listings[id].status == Reorged && latest.Some?
                       && latest.value < |m.fills| && f.txid.Some? && f.txid == m.fills[latest.value].txid
               then f.(status := FillBroadcast)
               else f
  {
    hide LatestFill, SourceLost, SourceOutcome;
    SourceCauses(m, id, source);
  }

  lemma FillStatusAfterCheck(m: State, id: string, source: SourceView, i: nat, s: FillStatus)
    requires i < |m.fills| && s != m.fills[i].status
    requires id in m.listings && OpenForReconcile(m.listings[id].status)
    ensures After(m, CheckSource(id, source)).fills[i].status == s <==> FillEnters(m, CheckSource(id, source), i, s)
  {
    hide LatestFill, After;
    FillAfterCheck(m, id, source, i);
    LatestIs(m.fills, id);
    if source.MempoolSpend? {
      NewestIsLatest(m, id, source.mempool);
    }
    hide SourceLost, NewestIsPending;
  }

  lemma FillStatusAfterCall(m: State, step: Step, i: nat, s: FillStatus)
    requires i < |m.fills| && s != m.fills[i].status && !ReconcilerStep(step)
    ensures |After(m, step).fills| >= |m.fills|
    ensures After(m, step).fills[i].status == s <==> FillEnters(m, step, i, s)
  {
    hide SourceLost, NewestIsPending, SourceOutcome;
  }

  lemma FillStatusAfterSettling(m: State, step: Step, i: nat, s: FillStatus)
    requires i < |m.fills| && s != m.fills[i].status && (step.Confirm? || step.Unconfirm?)
    ensures |After(m, step).fills| >= |m.fills|
    ensures After(m, step).fills[i].status == s <==> FillEnters(m, step, i, s)
  {
    hide SourceLost, NewestIsPending, SourceOutcome;
  }

  lemma FillStatusAfterExpiry(m: State, step: Step, i: nat, s: FillStatus)
    requires i < |m.fills| && s != m.fills[i].status && (step.CheckFunds? || step.ExpireListing? || step.ExpireFill?)
    ensures |After(m, step).fills| >= |m.fills|
    ensures After(m, step).fills[i].status == s <==> FillEnters(m, step, i, s)
  {
    hide SourceLost, NewestIsPending, SourceOutcome;
  }

  /** A fill has a new status exactly for one of these reasons. */
  lemma FillStatusAfter(m: State, step: Step, i: nat, s: FillStatus)
    requires i < |m.fills| && s != m.fills[i].status
    ensures |After(m, step).fills| >= |m.fills|
    ensures After(m, step).fills[i].status == s <==> FillEnters(m, step, i, s)
  {
    if !ReconcilerStep(step) {
      FillStatusAfterCall(m, step, i, s);
    } else if step.Confirm? || step.Unconfirm? {
      FillStatusAfterSettling(m, step, i, s);
    } else if !step.CheckSource? {
      FillStatusAfterExpiry(m, step, i, s);
    } else if step.id in m.listings && OpenForReconcile(m.listings[step.id].status) {
      FillAfterCheck(m, step.id, step.source, i);
      FillStatusAfterCheck(m, step.id, step.source, i, s);
    } else {
      hide SourceLost, NewestIsPending, SourceOutcome;
    }
  }

  /** What brings a listing to a status it did not have. */
  ghost predicate ListingEnters(m: State, step: Step, id: string, s: ListingStatus)
    requires id in m.listings
  {
    var l := m.listings[id];
    match s
    case Active =>
      || (l.status == Reserved && exists i :: 0 <= i < |m.fills| && m.fills[i].listing == id && Lapses(m, step, i))
      || (l.status == Reorged && step == CheckSource(id, Unspent))
    case Reserved => step.Reserve? && step.id == id && l.status == Active && step.tip < l.expiryHeight
    case Broadcast =>
      || (exists i :: 0 <= i < |m.fills| && m.fills[i].listing == id && Sends(m, step, i))
      || Repends(m, id, step)
    case Filled =>
      exists i :: 0 <= i < |m.fills| && m.fills[i].listing == id && FillEnters(m, step, i, Confirmed)
    case Cancelled => step == Cancel(id) && l.status != Filled
    case Expired => step.ExpireListing? && step.id == id && l.status == Active && l.expiryHeight <= step.tip
    case Invalidated =>
      step.CheckSource? && step.id == id && OpenForReconcile(l.status) && SourceLost(m, id, step.source)
    case Reorged =>
      exists i :: 0 <= i < |m.fills| && m.fills[i].listing == id && FillEnters(m, step, i, FillReorged)
  }

  /** A first or repeated broadcast of a fill, under a transaction id no other fill has. */
  predicate Sends(m: State, step: Step, i: nat)
    requires i < |m.fills|
  {
    && step == FinalizeAndBroadcast(i) && m.fills[i].listing in m.listings
    && (m.fills[i].status == SellerSigned || m.fills[i].status == FillBroadcast)
    && forall j :: 0 <= j < |m.fills| && j != i ==> m.fills[j].txid != Some(m.fills[i].psbtTxid)
  }

  lemma ListingStatusAfterCall(m: State, step: Step, id: string, s: ListingStatus)
    requires id in m.listings && s != m.listings[id].status && !ReconcilerStep(step) && !step.FinalizeAndBroadcast?
    ensures id in After(m, step).listings && After(m, step).listings[id].expiryHeight == m.listings[id].expiryHeight
    ensures After(m, step).listings[id].status == s <==> ListingEnters(m, step, id, s)
  {
    hide SourceLost, NewestIsPending, SourceOutcome, TxidFree;
  }

  lemma ListingStatusAfterBroadcast(m: State, step: Step, id: string, s: ListingStatus)
    requires id in m.listings && s != m.listings[id].status && step.FinalizeAndBroadcast?
    ensures id in After(m, step).listings && After(m, step).listings[id].expiryHeight == m.listings[id].expiryHeight
    ensures After(m, step).listings[id].status == s <==> ListingEnters(m, step, id, s)
  {
    hide SourceLost, NewestIsPending, SourceOutcome;
    if step.fill < |m.fills| && Sends(m, step, step.fill) {
      assert m.fills[step.fill].listing == id ==> ListingEnters(m, step, id, Broadcast);
    }
  }

  lemma ListingStatusAfterSettling(m: State, step: Step, id: string, s: ListingStatus)
    requires id in m.listings && s != m.listings[id].status && (step.Confirm? || step.Unconfirm?)
    ensures id in After(m, step).listings && After(m, step).listings[id].expiryHeight == m.listings[id].expiryHeight
    ensures After(m, step).listings[id].status == s <==> ListingEnters(m, step, id, s)
  {
    hide SourceLost, NewestIsPending, SourceOutcome;
  }

  lemma ListingStatusAfterExpiry(m: State, step: Step, id: string, s: ListingStatus)
    requires id in m.listings && s != m.listings[id].status
    requires step.CheckFunds? || step.ExpireListing? || step.ExpireFill?
    ensures id in After(m, step).listings && After(m, step).listings[id].expiryHeight == m.listings[id].expiryHeight
    ensures After(m, step).listings[id].status == s <==> ListingEnters(m, step, id, s)
  {
    hide SourceLost, NewestIsPending, SourceOutcome;
  }

  /** The rows of listings after a source check. */
  lemma ListingsAfterCheck(m: State, id: string, source: SourceView)
    ensures var n := After(m, CheckSource(id, source));
            if id !in m.listings || !OpenForReconcile(m.listings[id].status) then n == m
            else
              var l := m.listings[id];
              n.listings == m.listings[id := if SourceLost(m, id, source) then l.(status := Invalidated)
                                             else if l.status != Reorged || source.ConfirmedSpend? then l
                                             else if source.Unspent? then l.(status := Active)
                                             else l.(status := Broadcast)]
  {
    if id in m.listings && OpenForReconcile(m.listings[id].status) {
      SourceCauses(m, id, source);
    }
    hide SourceLost, SourceOutcome, LatestFill;
  }

  lemma ListingStatusAfterCheck(m: State, step: Step, id: string, s: ListingStatus)
    requires id in m.listings && s != m.listings[id].status && step.CheckSource?
    ensures id in After(m, step).listings && After(m, step).listings[id].expiryHeight == m.listings[id].expiryHeight
    ensures After(m, step).listings[id].status == s <==> ListingEnters(m, step, id, s)
  {
    hide After, NewestIsPending, LatestFill;
    ListingsAfterCheck(m, step.id, step.source);
  }

  /** A listing has a new status exactly for one of these reasons; its expiry height never moves. */
  lemma ListingStatusAfter(m: State, step: Step, id: string, s: ListingStatus)
    requires id in m.listings && s != m.listings[id].status
    ensures id in After(m, step).listings && After(m, step).listings[id].expiryHeight == m.listings[id].expiryHeight
    ensures After(m, step).listings[id].status == s <==> ListingEnters(m, step, id, s)
  {
    hide SourceLost, NewestIsPending, After, ListingEnters;
    if step.FinalizeAndBroadcast? {
      ListingStatusAfterBroadcast(m, step, id, s);
    } else if !ReconcilerStep(step) {
      ListingStatusAfterCall(m, step, id, s);
    } else if step.CheckSource? {
      ListingStatusAfterCheck(m, step, id, s);
    } else if step.Confirm? || step.Unconfirm? {
      ListingStatusAfterSettling(m, step, id, s);
    } else {
      ListingStatusAfterExpiry(m, step, id, s);
    }
  }

  /** A listing that was not there is created active. */
  lemma NewListings(m: State, step: Step, id: string)
    requires id !in m.listings
    ensures id in After(m, step).listings <==> step.Create? && step.id == id
    ensures step.Create? && step.id == id ==> After(m, step).listings[id] == Listing(Active, step.expiryHeight)
  {
    hide SourceLost, NewestIsPending, LatestFill;
  }

  /** The reconciler only writes the status of a fill. */
  lemma RowColumnsAfter(m: State, step: Step, i: nat)
    requires i < |m.fills| && ReconcilerStep(step)
    ensures |After(m, step).fills| == |m.fills|
    ensures var f, g := m.fills[i], After(m, step).fills[i];
            g.listing == f.listing && g.psbtTxid == f.psbtTxid && g.txid == f.txid && g.expiresAt == f.expiresAt
  {
    hide LatestFill;
  }

  /** The other columns of a fill: its listing is fixed, a build sets what its PSBT finalizes to, the
      first broadcast makes that its transaction, and the buyer's signature sets its time. */
  lemma FillColumnsAfter(m: State, step: Step, i: nat)
    requires i < |m.fills|
    ensures |After(m, step).fills| >= |m.fills|
    ensures var f, g := m.fills[i], After(m, step).fills[i];
            var known := f.listing in m.listings;
            && g.listing == f.listing
            && g.psbtTxid == (if step.Build? && step.fill == i && known
                                 && (f.status == FillReserved || f.status == PsbtBuilt)
                              then step.psbtTxid else f.psbtTxid)
            && g.txid == (if Sends(m, step, i) then Some(f.psbtTxid) else f.txid)
            && g.expiresAt == (if FillEnters(m, step, i, BuyerSigned) then step.expiresAt else f.expiresAt)
  {
    if ReconcilerStep(step) {
      hide After;
      RowColumnsAfter(m, step, i);
    }
    hide SourceLost, NewestIsPending, SourceOutcome;
  }

  /** A fill is only ever added by reserving an active listing that has not expired. */
  lemma NewFills(m: State, step: Step)
    ensures var n := After(m, step);
            if step.Reserve? && step.id in m.listings && m.listings[step.id].status == Active
               && step.tip < m.listings[step.id].expiryHeight
            then n.fills == m.fills + [Fill(step.id, FillReserved, "", None, step.expiresAt)]
            else |n.fills| == |m.fills|
  {
    hide SourceLost, NewestIsPending, LatestFill;
  }

  /** A confirmation inserts the trade of its fill or makes it canonical again, at its height; an
      undone confirmation makes it uncanonical; no other step touches a trade. */
  lemma TradesAfter(m: State, step: Step, t: string)
    ensures var n := After(m, step);
            var ours :=
              (step.Confirm? || step.Unconfirm?) && step.fill < |m.fills| && m.fills[step.fill].txid == Some(t);
            if ours && FillEnters(m, step, step.fill, Confirmed) then
              && t in n.trades && n.trades[t].canonical && n.trades[t].blockHeight == step.height
              && n.trades[t].fill == (if t in m.trades then m.trades[t].fill else step.fill)
              && n.trades[t].listing == (if t in m.trades then m.trades[t].listing else m.fills[step.fill].listing)
            else if ours && t in m.trades && FillEnters(m, step, step.fill, FillReorged) then
              t in n.trades && n.trades[t] == m.trades[t].(canonical := false)
            else
              (t in n.trades <==> t in m.trades) && (t in m.trades ==> n.trades[t] == m.trades[t])
  {
    hide SourceLost, NewestIsPending, LatestFill;
  }

  /** A build or a broadcast that is repeated. */
  predicate Repeats(m: State, step: Step) {
    || (step.Build? && step.fill < |m.fills| && m.fills[step.fill].status == PsbtBuilt
        && m.fills[step.fill].listing in m.listings)
    || (step.FinalizeAndBroadcast? && step.fill < |m.fills| && m.fills[step.fill].status == FillBroadcast
        && Sends(m, step, step.fill))
  }

  /** A call is answered with success exactly when it changes the tables or repeats what was done. */
  lemma SucceedsExactly(m: State, step: Step)
    ensures Next(m, step).Some? <==> After(m, step) != m || Repeats(m, step)
  {
    hide LatestFill;
    if Next(m, step).Some? {
      SuccessShows(m, step);
    }
  }

  lemma SuccessShows(m: State, step: Step)
    requires Next(m, step).Some?
    ensures Repeats(m, step) || step.Create? || step.Reserve?
            || (exists i :: 0 <= i < |m.fills| && After(m, step).fills[i].status != m.fills[i].status)
            || (exists id :: id in m.listings && After(m, step).listings[id].status != m.listings[id].status)
    ensures step.Create? ==> step.id !in m.listings && step.id in After(m, step).listings
    ensures step.Reserve? ==> |After(m, step).fills| > |m.fills|
  {
    hide LatestFill;
    var n := After(m, step);
    match step
    case Create(_, _) =>
    case Cancel(id) => assert n.listings[id].status != m.listings[id].status;
    case Reserve(_, _, _) =>
    case CheckSource(id, _) => assert n.listings[id].status != m.listings[id].status;
    case ExpireListing(id, _) => assert n.listings[id].status != m.listings[id].status;
    case _ => assert Repeats(m, step) || n.fills[step.fill].status != m.fills[step.fill].status;
  }

  /** A fill is before its broadcast until it is broadcast, confirmed or over; the reconciler looks at the
      source of every listing that is not filled, cancelled, expired or invalidated. */
  lemma StatusesAre(f: FillStatus, l: ListingStatus)
    ensures PreBroadcast(f) <==>
              f !in {FillBroadcast, Confirmed, FillExpired, FillCancelled, Failed, FillReorged}
    ensures OpenForReconcile(l) <==> l !in {Filled, Cancelled, Expired, Invalidated}
  {
  }

  // ── One reconcile ────────────────────────────────────────────────────────

  /** What a row counts as: a confirmation, an undone confirmation, an invalidated listing, or a listing or
      reservation that ended. Restoring a reorged listing counts as nothing. */
  lemma RowCountsExactly(m: State, step: Step, kind: Counter)
    requires ReconcilerStep(step)
    ensures (Next(m, step).Some? && Counts(After(m, step), step, kind)) <==>
              match kind
              case Confirmations => step.Confirm? && step.fill < |m.fills| && FillEnters(m, step, step.fill, Confirmed)
              case Reorgs => step.Unconfirm? && step.fill < |m.fills| && FillEnters(m, step, step.fill, FillReorged)
              case Invalidations =>
                step.CheckSource? && step.id in m.listings && ListingEnters(m, step, step.id, Invalidated)
              case Expiries =>
                || (step.ExpireListing? && step.id in m.listings && ListingEnters(m, step, step.id, Expired))
                || (exists i :: 0 <= i < |m.fills| && Lapses(m, step, i))
  {
    hide LatestFill, SourceLost, SourceOutcome, NewestIsPending;
    if step.CheckSource? && step.id in m.listings && m.listings[step.id].status != Invalidated {
      ListingStatusAfterCheck(m, step, step.id, Invalidated);
    }
    if step.CheckFunds? || step.ExpireFill? {
      assert Next(m, step).Some? <==> step.fill < |m.fills| && Lapses(m, step, step.fill);
    }
  }

  /** Reconciling moves no fill to another listing or transaction. */
  lemma ReconcilerKeepsColumns(m: State, step: Step)
    requires ReconcilerStep(step)
    ensures var n := After(m, step);
            && |n.fills| == |m.fills|
            && (forall i :: 0 <= i < |m.fills| ==>
                  n.fills[i].listing == m.fills[i].listing && n.fills[i].txid == m.fills[i].txid)
            && n.listings.Keys == m.listings.Keys
  {
    hide After, SourceLost, NewestIsPending;
    NewFills(m, step);
    ReconcilerKeepsRows(m, step);
    forall i | 0 <= i < |m.fills|
      ensures After(m, step).fills[i].listing == m.fills[i].listing && After(m, step).fills[i].txid == m.fills[i].txid
    {
      FillColumnsAfter(m, step, i);
    }
  }

  predicate SameColumns(m: State, n: State) {
    && |n.fills| == |m.fills|
    && (forall i :: 0 <= i < |m.fills| ==>
          n.fills[i].listing == m.fills[i].listing && n.fills[i].txid == m.fills[i].txid)
    && n.listings.Keys == m.listings.Keys
  }

  lemma SourceLostIsStable(m: State, n: State, id: string, source: SourceView)
    requires SameColumns(m, n)
    ensures SourceLost(n, id, source) <==> SourceLost(m, id, source)
  {
  }

  /** A source check finds this fill's listing lost. */
  ghost predicate LostTo(m: State, step: Step, i: nat)
    requires i < |m.fills|
  {
    step.CheckSource? && step.id == m.fills[i].listing && SourceLost(m, step.id, step.source)
  }

  ghost predicate Ends(m: State, step: Step, i: nat)
    requires i < |m.fills|
  {
    LostTo(m, step, i) || Lapses(m, step, i)
  }

  /** What one row of the reconciler does to a reservation. */
  lemma ReservationAfterRow(m: State, step: Step, i: nat)
    requires Inv(m) && i < |m.fills| && PreBroadcast(m.fills[i].status) && ReconcilerStep(step)
    ensures |After(m, step).fills| == |m.fills|
    ensures var f := m.fills[i];
            After(m, step).fills[i] == if LostTo(m, step, i) then f.(status := Failed)
                                       else if Lapses(m, step, i) then f.(status := FillExpired) else f
  {
    assert LiveFill(m, i) && m.fills[i].listing in m.listings;
    assert m.listings[m.fills[i].listing].status == Reserved;
    hide After, SourceLost, NewestIsPending, Inv, LatestFill, OwnSpend, Repends, KnownListings;
    ReconcilerKeepsColumns(m, step);
    FillColumnsAfter(m, step, i);
    hide Sends, SameColumns;
    var s := After(m, step).fills[i].status;
    if s != m.fills[i].status {
      FillStatusAfter(m, step, i, s);
    } else {
      FillStatusAfter(m, step, i, Failed);
      FillStatusAfter(m, step, i, FillExpired);
    }
  }

  /** A reservation that is over stays as it is. */
  lemma EndedRowStays(m: State, step: Step, i: nat)
    requires i < |m.fills| && m.fills[i].txid.None? && ReconcilerStep(step)
    requires m.fills[i].status == Failed || m.fills[i].status == FillExpired
    ensures |After(m, step).fills| == |m.fills| && After(m, step).fills[i] == m.fills[i]
  {
    hide After, SourceLost, NewestIsPending;
    ReconcilerKeepsColumns(m, step);
    FillColumnsAfter(m, step, i);
    if After(m, step).fills[i].status != m.fills[i].status {
      FillStatusAfter(m, step, i, After(m, step).fills[i].status);
    }
  }

  ghost predicate RowsOnly(steps: seq<Step>) {
    forall k :: 0 <= k < |steps| ==> ReconcilerStep(steps[k])
  }

  lemma UntouchedSoFar(m: State, n: State, step: Step, i: nat)
    requires Inv(n) && SameColumns(m, n) && i < |m.fills| && n.fills[i] == m.fills[i]
    requires PreBroadcast(m.fills[i].status) && ReconcilerStep(step)
    ensures SameColumns(m, After(n, step))
    ensures var f := m.fills[i];
            After(n, step).fills[i] == if LostTo(m, step, i) then f.(status := Failed)
                                       else if Lapses(m, step, i) then f.(status := FillExpired) else f
  {
    hide After, SourceLost, NewestIsPending, Inv, LatestFill;
    ReconcilerKeepsColumns(n, step);
    ReservationAfterRow(n, step, i);
    if step.CheckSource? {
      SourceLostIsStable(m, n, step.id, step.source);
    }
  }

  lemma EndedBefore(m: State, n: State, step: Step, i: nat)
    requires SameColumns(m, n) && i < |m.fills| && m.fills[i].txid.None? && ReconcilerStep(step)
    requires n.fills[i].status == Failed || n.fills[i].status == FillExpired
    ensures SameColumns(m, After(n, step)) && After(n, step).fills[i] == n.fills[i]
  {
    hide After, SourceLost, NewestIsPending;
    ReconcilerKeepsColumns(n, step);
    EndedRowStays(n, step, i);
  }

  /** Over any rows of the reconciler, a reservation is untouched until the first that ends it, and
      never written again afterwards. */
  lemma {:induction false} ReservationOverRows(m: State, steps: seq<Step>, i: nat, k: nat)
    requires Inv(m) && i < |m.fills| && PreBroadcast(m.fills[i].status) && m.fills[i].txid.None? && RowsOnly(steps)
    requires k <= |steps| && forall j :: 0 <= j < k ==> !Ends(m, steps[j], i)
    requires k < |steps| ==> Ends(m, steps[k], i)
    ensures SameColumns(m, Run(m, steps)) && Inv(Run(m, steps))
    ensures var f := m.fills[i];
            Run(m, steps).fills[i] == if k == |steps| then f
                                      else f.(status := if LostTo(m, steps[k], i) then Failed else FillExpired)
    decreases |steps|
  {
    hide After, LostTo, Lapses, Inv, LatestFill, SameColumns, ReconcilerStep;
    RunKeeps(m, steps);
    if steps == [] {
      assert SameColumns(m, m) by { SameAsItself(m); }
    } else {
      var init, last := steps[..|steps| - 1], steps[|steps| - 1];
      var n := Run(m, init);
      ReservationOverRows(m, init, i, if k < |init| then k else |init|);
      if k >= |init| {
        UntouchedSoFar(m, n, last, i);
      } else {
        EndedBefore(m, n, last, i);
      }
    }
  }

  lemma SameAsItself(m: State)
    ensures SameColumns(m, m)
  {
  }

  /** Where each row of each pass stands in the schedule. */
  lemma ScheduleRows(w: World, owners: seq<string>, first: seq<string>, second: seq<string>)
    ensures var s, n, a, b := Schedule(w, owners, first, second), |owners|, |first|, |second|;
            && |s| == 4 * n + a + b && RowsOnly(s)
            && (forall k :: 0 <= k < n ==>
                  s[k] == Confirm(k, w.spentBy(owners[k]), w.canonical(owners[k]), w.height(owners[k])))
            && (forall k :: n <= k < 2 * n ==>
                  s[k] == Unconfirm(k - n, w.spentBy(owners[k - n]), w.canonical(owners[k - n])))
            && (forall k :: 2 * n <= k < 2 * n + a ==>
                  s[k] == CheckSource(first[k - 2 * n], SourceOf(w, first[k - 2 * n])))
            && (forall k :: 2 * n + a <= k < 3 * n + a ==>
                  s[k] == CheckFunds(k - 2 * n - a, w.fundsGone(k - 2 * n - a)))
            && (forall k :: 3 * n + a <= k < 3 * n + a + b ==> s[k] == ExpireListing(second[k - 3 * n - a], w.tip))
            && (forall k :: 3 * n + a + b <= k < 4 * n + a + b ==> s[k] == ExpireFill(k - 3 * n - a - b, w.now))
  {
    hide SourceOf;
  }

  /** The chain or the mempool shows the source spent by a transaction that is not the listing's own: a
      confirmed spender that no fill of the listing names, or, with no confirmed spender, an output that is
      gone although the newest fill is not pending. */
  ghost predicate SpentElsewhere(m: State, w: World, id: string) {
    if w.spentBy(id).Some? then
      forall i :: 0 <= i < |m.fills| && m.fills[i].listing == id ==> m.fills[i].txid != w.spentBy(id)
    else !w.unspent(id) && !NewestIsPending(m, id, w.mempool)
  }

  lemma SpentElsewhereIsLost(m: State, w: World, id: string)
    ensures SourceLost(m, id, SourceOf(w, id)) <==> SpentElsewhere(m, w, id)
  {
    hide NewestIsPending;
  }

  predicate DeadOrDue(f: Fill, w: World, i: nat) {
    (f.status == BuyerSigned && w.fundsGone(i)) || f.expiresAt <= w.now
  }

  /** Which rows of the schedule can end a reservation. */
  lemma EndingRow(m: State, w: World, first: seq<string>, second: seq<string>, i: nat, k: nat)
    requires i < |m.fills| && k < |Schedule(w, Owners(m.fills), first, second)|
    requires PreBroadcast(m.fills[i].status) && Ends(m, Schedule(w, Owners(m.fills), first, second)[k], i)
    ensures var step, f := Schedule(w, Owners(m.fills), first, second)[k], m.fills[i];
            && (LostTo(m, step, i) ==> SourceLost(m, f.listing, SourceOf(w, f.listing)))
            && (!LostTo(m, step, i) ==> k >= 2 * |m.fills| + |first| && DeadOrDue(f, w, i))
  {
    hide SourceLost, Schedule, SourceOf;
    ScheduleRows(w, Owners(m.fills), first, second);
  }

  /** A lost source and a dead or overdue reservation have their row, the lost source the earlier one. */
  lemma ReservationRows(m: State, w: World, first: seq<string>, second: seq<string>, i: nat)
    requires i < |m.fills| && PreBroadcast(m.fills[i].status)
    requires m.fills[i].listing in first && m.fills[i].listing in m.listings
    ensures var steps, f := Schedule(w, Owners(m.fills), first, second), m.fills[i];
            && RowsOnly(steps)
            && (SpentElsewhere(m, w, f.listing) ==>
                  exists k :: 0 <= k < |steps| && k < 2 * |m.fills| + |first| && Ends(m, steps[k], i))
            && (DeadOrDue(f, w, i) ==> exists k :: 0 <= k < |steps| && Ends(m, steps[k], i))
  {
    var f, n := m.fills[i], |m.fills|;
    var steps := Schedule(w, Owners(m.fills), first, second);
    ScheduleRows(w, Owners(m.fills), first, second);
    SpentElsewhereIsLost(m, w, f.listing);
    hide SourceLost, SpentElsewhere, Schedule, SourceOf, RowsOnly;
    var c :| 0 <= c < |first| && first[c] == f.listing;
    assert steps[2 * n + c] == CheckSource(f.listing, SourceOf(w, f.listing));
    assert steps[2 * n + |first| + i] == CheckFunds(i, w.fundsGone(i));
    assert steps[3 * n + |first| + |second| + i] == ExpireFill(i, w.now);
  }

  /** What one reconcile leaves of a reservation: it fails when its source is lost, else it expires
      when the buyer's signed coins are gone or its time is up, and else it is left alone. */
  lemma ReconcileDecidesReservations(m: State, w: World, first: seq<string>, second: seq<string>, i: nat)
    requires Inv(m) && i < |m.fills| && PreBroadcast(m.fills[i].status) && m.fills[i].listing in first
    ensures var end, f := Run(m, Schedule(w, Owners(m.fills), first, second)), m.fills[i];
            && |end.fills| == |m.fills|
            && end.fills[i] == if SpentElsewhere(m, w, f.listing) then f.(status := Failed)
                               else if DeadOrDue(f, w, i) then f.(status := FillExpired) else f
  {
    assert m.fills[i].txid.None? && m.fills[i].listing in m.listings by { InvTables(m); }
    hide Inv, SourceLost, SpentElsewhere, Schedule, Run, SourceOf, Ends, LostTo, DeadOrDue, RowsOnly, Owners;
    var steps := Schedule(w, Owners(m.fills), first, second);
    ReservationRows(m, w, first, second, i);
    SpentElsewhereIsLost(m, w, m.fills[i].listing);
    var k := FirstEnding(m, steps, i);
    if k < |steps| {
      EndingRow(m, w, first, second, i, k);
    }
    ReservationOverRows(m, steps, i, k);
  }

  lemma FirstEnding(m: State, steps: seq<Step>, i: nat) returns (k: nat)
    requires i < |m.fills|
    ensures k <= |steps| && (k < |steps| ==> Ends(m, steps[k], i))
    ensures forall j :: 0 <= j < k ==> !Ends(m, steps[j], i)
  {
    hide Ends;
    k := 0;
    while k < |steps| && !Ends(m, steps[k], i)
      invariant k <= |steps| && forall j :: 0 <= j < k ==> !Ends(m, steps[j], i)
    {
      k := k + 1;
    }
  }

  predicate Settles(step: Step) {
    step.Confirm? || step.Unconfirm?
  }

  /** Settling other fills leaves this one alone. */
  lemma {:induction false} OthersLeaveIt(m: State, steps: seq<Step>, i: nat)
    requires i < |m.fills| && forall k :: 0 <= k < |steps| ==> Settles(steps[k]) && steps[k].fill != i
    ensures SameColumns(m, Run(m, steps)) && Run(m, steps).fills[i] == m.fills[i]
    decreases |steps|
  {
    if steps != [] {
      var init, last := steps[..|steps| - 1], steps[|steps| - 1];
      OthersLeaveIt(m, init, i);
      hide After;
      ReconcilerKeepsColumns(Run(m, init), last);
      SettledRow(Run(m, init), last, i);
    }
  }

  /** What settling does to a fill. */
  lemma SettledRow(m: State, step: Step, i: nat)
    requires i < |m.fills| && Settles(step)
    ensures |After(m, step).fills| == |m.fills|
    ensures var f := m.fills[i];
            var known := f.listing in m.listings;
            After(m, step).fills[i] ==
            if step.Confirm? && step.fill == i && known && f.status == FillBroadcast
               && OwnSpend(f, step.spentBy, step.canonical)
            then f.(status := Confirmed)
            else if step.Unconfirm? && step.fill == i && known && f.status == Confirmed
                    && !(step.canonical && step.spentBy == f.txid)
            then f.(status := FillReorged)
            else f
  {
    hide SourceLost, NewestIsPending, LatestFill;
  }

  /** A whole pass that settles each fill in turn acts on this fill once. */
  lemma OnePass(m: State, steps: seq<Step>, i: nat)
    requires i < |m.fills| && |steps| == |m.fills|
    requires forall k :: 0 <= k < |steps| ==> Settles(steps[k]) && steps[k].fill == k
    ensures SameColumns(m, Run(m, steps)) && Run(m, steps).fills[i] == After(m, steps[i]).fills[i]
  {
    hide Run, After, SameColumns;
    var before, after := steps[..i], steps[i + 1..];
    assert steps == before + [steps[i]] + after;
    RunAppend(m, before + [steps[i]], after);
    RunOneMore(m, before, steps[i]);
    OthersLeaveIt(m, before, i);
    SettledTwice(m, Run(m, before), steps[i], after, i);
  }

  lemma SettledTwice(m: State, x: State, step: Step, after: seq<Step>, i: nat)
    requires SameColumns(m, x) && i < |m.fills| && x.fills[i] == m.fills[i] && Settles(step)
    requires forall k :: 0 <= k < |after| ==> Settles(after[k]) && after[k].fill != i
    ensures var y := Run(After(x, step), after);
            SameColumns(m, y) && y.fills[i] == After(m, step).fills[i]
  {
    hide Run, After, OwnSpend;
    ReconcilerKeepsColumns(x, step);
    SettledRow(m, step, i);
    SettledRow(x, step, i);
    OthersLeaveIt(After(x, step), after, i);
  }

  lemma UnsettledRow(m: State, step: Step, i: nat)
    requires Inv(m) && i < |m.fills| && ReconcilerStep(step) && !Settles(step)
    ensures |After(m, step).fills| == |m.fills|
    ensures After(m, step).fills[i].status == Confirmed <==> m.fills[i].status == Confirmed
  {
    assert LiveFill(m, i);
    hide After, SourceLost, NewestIsPending, Inv, LatestFill;
    ReconcilerKeepsColumns(m, step);
    var s := After(m, step).fills[i].status;
    if s != m.fills[i].status {
      FillStatusAfter(m, step, i, s);
    }
  }

  /** Rows that settle nothing neither confirm a fill nor undo a confirmation. */
  lemma {:induction false} NothingSettled(m: State, steps: seq<Step>, i: nat)
    requires Inv(m) && i < |m.fills|
    requires forall k :: 0 <= k < |steps| ==> ReconcilerStep(steps[k]) && !Settles(steps[k])
    ensures |Run(m, steps).fills| == |m.fills|
    ensures Run(m, steps).fills[i].status == Confirmed <==> m.fills[i].status == Confirmed
    decreases |steps|
  {
    hide After, ReconcilerStep, Settles, Inv;
    if steps != [] {
      NothingSettled(m, steps[..|steps| - 1], i);
      RunKeeps(m, steps[..|steps| - 1]);
      UnsettledRow(Run(m, steps[..|steps| - 1]), steps[|steps| - 1], i);
    }
  }

  /** The passes after the two that settle fills. */
  function LaterPasses(w: World, owners: seq<string>, first: seq<string>, second: seq<string>): seq<Step> {
    SourcePass(w, first) + FundsPass(w, owners) + ExpireListingPass(w, second) + ExpireFillPass(w, owners)
  }

  lemma ScheduleInParts(m: State, w: World, owners: seq<string>, first: seq<string>, second: seq<string>)
    ensures Run(m, Schedule(w, owners, first, second))
            == Run(Run(Run(m, ConfirmPass(w, owners)), UnconfirmPass(w, owners)), LaterPasses(w, owners, first, second))
    ensures forall k :: 0 <= k < |LaterPasses(w, owners, first, second)| ==>
              var step := LaterPasses(w, owners, first, second)[k]; ReconcilerStep(step) && !Settles(step)
  {
    hide Run;
    var confirm, undo, rest := ConfirmPass(w, owners), UnconfirmPass(w, owners), LaterPasses(w, owners, first, second);
    assert Schedule(w, owners, first, second) == confirm + undo + rest;
    RunAppend(m, confirm + undo, rest);
    RunAppend(m, confirm, undo);
  }

  lemma ConfirmedByPass(m: State, w: World, owners: seq<string>, i: nat)
    requires i < |m.fills| && |owners| == |m.fills|
    requires owners[i] == m.fills[i].listing && m.fills[i].listing in m.listings
    ensures var n, f := Run(m, ConfirmPass(w, owners)), m.fills[i];
            && SameColumns(m, n)
            && n.fills[i] == if f.status == FillBroadcast && OwnSpend(f, w.spentBy(f.listing), w.canonical(f.listing))
                             then f.(status := Confirmed) else f
  {
    OnePass(m, ConfirmPass(w, owners), i);
    hide Run, After, SameColumns;
    SettledRow(m, ConfirmPass(w, owners)[i], i);
  }

  lemma UndoneByPass(m: State, w: World, owners: seq<string>, i: nat)
    requires i < |m.fills| && |owners| == |m.fills|
    requires owners[i] == m.fills[i].listing && m.fills[i].listing in m.listings
    ensures var n, f := Run(m, UnconfirmPass(w, owners)), m.fills[i];
            && |n.fills| == |m.fills|
            && n.fills[i] == if f.status == Confirmed && !(w.canonical(f.listing) && w.spentBy(f.listing) == f.txid)
                             then f.(status := FillReorged) else f
  {
    OnePass(m, UnconfirmPass(w, owners), i);
    hide Run, After;
    SettledRow(m, UnconfirmPass(w, owners)[i], i);
  }

  /** After one reconcile a fill is confirmed exactly when it was broadcast or confirmed and the
      indexer says that its own transaction canonically spent the source. */
  lemma ReconcileConfirmsExactly(m: State, w: World, first: seq<string>, second: seq<string>, i: nat)
    requires Inv(m) && i < |m.fills|
    ensures var end, f := Run(m, Schedule(w, Owners(m.fills), first, second)), m.fills[i];
            && |end.fills| == |m.fills|
            && (end.fills[i].status == Confirmed <==>
                (f.status == FillBroadcast || f.status == Confirmed)
                && OwnSpend(f, w.spentBy(f.listing), w.canonical(f.listing)))
  {
    var owners, f := Owners(m.fills), m.fills[i];
    assert f.listing in m.listings && (f.status == Confirmed ==> f.txid.Some?) by { InvTables(m); }
    assert |owners| == |m.fills| && owners[i] == f.listing;
    hide Inv, Run, Schedule, ConfirmPass, UnconfirmPass, LaterPasses, Owners;
    ScheduleInParts(m, w, owners, first, second);
    ConfirmedByPass(m, w, owners, i);
    var x := Run(m, ConfirmPass(w, owners));
    UndoneByPass(x, w, owners, i);
    RunKeeps(m, ConfirmPass(w, owners));
    RunKeeps(x, UnconfirmPass(w, owners));
    NothingSettled(Run(x, UnconfirmPass(w, owners)), LaterPasses(w, owners, first, second), i);
  }

  /** This row would settle its fill. */
  predicate WouldSettle(m: State, step: Step)
    requires Settles(step) && step.fill < |m.fills|
  {
    var f := m.fills[step.fill];
    && f.listing in m.listings
    && if step.Confirm? then f.status == FillBroadcast && OwnSpend(f, step.spentBy, step.canonical)
       else f.status == Confirmed && !(step.canonical && step.spentBy == f.txid)
  }

  lemma SettlesOnItsOwn(m: State, n: State, step: Step)
    requires Settles(step) && step.fill < |m.fills| && SameColumns(m, n) && n.fills[step.fill] == m.fills[step.fill]
    ensures Next(n, step).Some? <==> WouldSettle(m, step)
  {
    assert m.fills[step.fill].listing in n.listings <==> m.fills[step.fill].listing in m.listings;
  }

  /** A pass that settles each fill in turn counts the fills it settles. */
  lemma {:induction false} SettledCount(m: State, steps: seq<Step>, kind: Counter)
    requires |steps| <= |m.fills|
    requires forall k :: 0 <= k < |steps| ==>
               && Settles(steps[k]) && steps[k].fill == k
               && kind == if steps[k].Confirm? then Confirmations else Reorgs
    ensures Tally(m, steps, kind) == |set k | 0 <= k < |steps| && WouldSettle(m, steps[k])|
    decreases |steps|
  {
    hide Next, WouldSettle;
    if steps != [] {
      var n := |steps| - 1;
      var init := steps[..n];
      SettledCount(m, init, kind);
      OthersLeaveIt(m, init, n);
      SettlesOnItsOwn(m, Run(m, init), steps[n]);
      var before := set k | 0 <= k < n && WouldSettle(m, init[k]);
      assert (set k | 0 <= k < |steps| && WouldSettle(m, steps[k]))
             == if WouldSettle(m, steps[n]) then before + {n} else before;
    }
  }

  /** The indexer says that the fill's own transaction canonically spent the source. */
  predicate Own(m: State, w: World, i: nat)
    requires i < |m.fills|
  {
    OwnSpend(m.fills[i], w.spentBy(m.fills[i].listing), w.canonical(m.fills[i].listing))
  }

  lemma ConfirmedFills(m: State, w: World, owners: seq<string>)
    requires Inv(m) && owners == Owners(m.fills)
    ensures var x := Run(m, ConfirmPass(w, owners));
            && SameColumns(m, x)
            && forall i :: 0 <= i < |m.fills| ==>
                 x.fills[i] == if m.fills[i].status == FillBroadcast && Own(m, w, i)
                               then m.fills[i].(status := Confirmed) else m.fills[i]
  {
    if m.fills == [] {
      RunNothing(m);
      SameAsItself(m);
    } else {
      var x := Run(m, ConfirmPass(w, owners));
      hide Run, ConfirmPass;
      ConfirmedByPass(m, w, owners, 0);
      forall i | 0 <= i < |m.fills|
        ensures x.fills[i] == if m.fills[i].status == FillBroadcast && Own(m, w, i)
                              then m.fills[i].(status := Confirmed) else m.fills[i]
      {
        ConfirmedByPass(m, w, owners, i);
      }
    }
  }

  lemma CountedConfirmations(m: State, w: World, owners: seq<string>)
    requires Inv(m) && owners == Owners(m.fills)
    ensures Tally(m, ConfirmPass(w, owners), Confirmations)
            == |set i | 0 <= i < |m.fills| && m.fills[i].status == FillBroadcast && Own(m, w, i)|
  {
    var confirm := ConfirmPass(w, owners);
    InvTables(m);
    hide Inv, Tally;
    SettledCount(m, confirm, Confirmations);
    assert (set k | 0 <= k < |confirm| && WouldSettle(m, confirm[k]))
           == set i | 0 <= i < |m.fills| && m.fills[i].status == FillBroadcast && Own(m, w, i);
  }

  lemma UndoneRow(m: State, x: State, w: World, i: nat)
    requires Inv(m) && SameColumns(m, x) && i < |m.fills|
    requires x.fills[i] == if m.fills[i].status == FillBroadcast && Own(m, w, i)
                           then m.fills[i].(status := Confirmed) else m.fills[i]
    ensures var f := m.fills[i];
            WouldSettle(x, Unconfirm(i, w.spentBy(f.listing), w.canonical(f.listing))) <==>
            f.status == Confirmed && !Own(m, w, i)
  {
    InvTables(m);
    assert m.fills[i].listing in m.listings;
    hide Inv;
  }

  lemma CountedReorgs(m: State, x: State, w: World, owners: seq<string>)
    requires Inv(m) && owners == Owners(m.fills) && SameColumns(m, x)
    requires forall i :: 0 <= i < |m.fills| ==>
               x.fills[i] == if m.fills[i].status == FillBroadcast && Own(m, w, i)
                             then m.fills[i].(status := Confirmed) else m.fills[i]
    ensures Tally(x, UnconfirmPass(w, owners), Reorgs)
            == |set i | 0 <= i < |m.fills| && m.fills[i].status == Confirmed && !Own(m, w, i)|
  {
    var undo := UnconfirmPass(w, owners);
    forall k | 0 <= k < |m.fills|
      ensures WouldSettle(x, undo[k]) <==> m.fills[k].status == Confirmed && !Own(m, w, k)
    {
      UndoneRow(m, x, w, k);
    }
    hide Inv, Tally, WouldSettle, Own;
    SettledCount(x, undo, Reorgs);
    assert (set k | 0 <= k < |undo| && WouldSettle(x, undo[k]))
           == set i | 0 <= i < |m.fills| && m.fills[i].status == Confirmed && !Own(m, w, i);
  }

  /** The numbers a reconcile reports as confirmed and reorged: the broadcast fills whose own transaction
      canonically spent the source, and the confirmed fills whose own transaction no longer does. */
  lemma ReconcileCounts(m: State, w: World, first: seq<string>, second: seq<string>)
    requires Inv(m)
    ensures var steps := Schedule(w, Owners(m.fills), first, second);
            && Tally(m, steps, Confirmations)
               == |set i | 0 <= i < |m.fills| && m.fills[i].status == FillBroadcast && Own(m, w, i)|
            && Tally(m, steps, Reorgs)
               == |set i | 0 <= i < |m.fills| && m.fills[i].status == Confirmed && !Own(m, w, i)|
  {
    var owners := Owners(m.fills);
    ConfirmedFills(m, w, owners);
    hide Inv, Run, Schedule, Tally, Own, SameColumns, Owners, ConfirmPass, UnconfirmPass, SourcePass, FundsPass,
         ExpireListingPass, ExpireFillPass;
    TallyOfSchedule(m, w, owners, first, second, Confirmations);
    TallyOfSchedule(m, w, owners, first, second, Reorgs);
    CountedConfirmations(m, w, owners);
    CountedReorgs(m, Run(m, ConfirmPass(w, owners)), w, owners);
  }

  // ── Listings whose time is up ────────────────────────────────────────────

  lemma RestingHasNoLiveFill(m: State, id: string)
    requires Inv(m) && id in m.listings && m.listings[id].status == Active
    ensures forall i :: 0 <= i < |m.fills| && m.fills[i].listing == id ==> !Live(m.fills[i].status)
  {
    hide LatestFill, FillTxids, TradesMatch, PromisedFill;
    forall i | 0 <= i < |m.fills| && m.fills[i].listing == id
      ensures !Live(m.fills[i].status)
    {
      assert LiveFill(m, i);
    }
  }

  ghost predicate LostListing(m: State, step: Step, id: string) {
    step.CheckSource? && step.id == id && SourceLost(m, id, step.source)
  }

  predicate TimeIsUp(m: State, step: Step, id: string)
    requires id in m.listings
  {
    step.ExpireListing? && step.id == id && m.listings[id].expiryHeight <= step.tip
  }

  /** No fill of the listing is live. */
  predicate Quiet(m: State, id: string) {
    forall i :: 0 <= i < |m.fills| && m.fills[i].listing == id ==> !Live(m.fills[i].status)
  }

  lemma RestingMoves(m: State, step: Step, id: string, s: ListingStatus)
    requires id in m.listings && m.listings[id].status == Active && ReconcilerStep(step) && s != Active && Quiet(m, id)
    ensures id in After(m, step).listings && After(m, step).listings[id].expiryHeight == m.listings[id].expiryHeight
    ensures After(m, step).listings[id].status == s <==>
              (s == Invalidated && LostListing(m, step, id)) || (s == Expired && TimeIsUp(m, step, id))
  {
    hide After, SourceLost, NewestIsPending;
    ListingStatusAfter(m, step, id, s);
  }

  /** What one row of the reconciler does to a resting listing. */
  lemma RestingAfterRow(m: State, step: Step, id: string)
    requires Inv(m) && id in m.listings && m.listings[id].status == Active && ReconcilerStep(step)
    ensures id in After(m, step).listings
    ensures var l := m.listings[id];
            After(m, step).listings[id] == if LostListing(m, step, id) then l.(status := Invalidated)
                                           else if TimeIsUp(m, step, id) then l.(status := Expired) else l
  {
    RestingHasNoLiveFill(m, id);
    hide Inv, After, SourceLost;
    RestingMoves(m, step, id, Invalidated);
    RestingMoves(m, step, id, Expired);
    if After(m, step).listings[id].status != Active {
      RestingMoves(m, step, id, After(m, step).listings[id].status);
    }
  }

  predicate IsOver(s: ListingStatus) {
    s == Invalidated || s == Expired
  }

  lemma OverIsQuiet(m: State, id: string)
    requires Inv(m) && id in m.listings && IsOver(m.listings[id].status)
    ensures Quiet(m, id)
  {
    hide LatestFill, FillTxids, TradesMatch, PromisedFill;
    forall i | 0 <= i < |m.fills| && m.fills[i].listing == id
      ensures !Live(m.fills[i].status)
    {
      assert LiveFill(m, i);
    }
  }

  lemma OverMoves(m: State, step: Step, id: string, s: ListingStatus)
    requires id in m.listings && IsOver(m.listings[id].status) && ReconcilerStep(step) && Quiet(m, id)
    requires s != m.listings[id].status
    ensures id in After(m, step).listings && After(m, step).listings[id].expiryHeight == m.listings[id].expiryHeight
    ensures After(m, step).listings[id].status != s
  {
    hide After, SourceLost, NewestIsPending;
    ListingStatusAfter(m, step, id, s);
  }

  /** A listing that is over stays as it is. */
  lemma OverStays(m: State, step: Step, id: string)
    requires Inv(m) && id in m.listings && IsOver(m.listings[id].status) && ReconcilerStep(step)
    ensures id in After(m, step).listings && After(m, step).listings[id] == m.listings[id]
  {
    OverIsQuiet(m, id);
    hide Inv, After;
    OverMoves(m, step, id, Active);
    if After(m, step).listings[id].status != m.listings[id].status {
      OverMoves(m, step, id, After(m, step).listings[id].status);
    }
  }

  lemma {:induction false} OverForRows(m: State, steps: seq<Step>, id: string)
    requires Inv(m) && id in m.listings && IsOver(m.listings[id].status) && RowsOnly(steps)
    ensures Inv(Run(m, steps)) && id in Run(m, steps).listings && Run(m, steps).listings[id] == m.listings[id]
    decreases |steps|
  {
    hide After, Inv, ReconcilerStep;
    RunKeeps(m, steps);
    if steps != [] {
      OverForRows(m, steps[..|steps| - 1], id);
      OverStays(Run(m, steps[..|steps| - 1]), steps[|steps| - 1], id);
    }
  }

  ghost predicate EndsListing(m: State, step: Step, id: string)
    requires id in m.listings
  {
    LostListing(m, step, id) || TimeIsUp(m, step, id)
  }

  lemma RestingSoFar(m: State, n: State, step: Step, id: string)
    requires Inv(n) && SameColumns(m, n) && id in m.listings && n.listings[id] == m.listings[id]
    requires m.listings[id].status == Active && ReconcilerStep(step)
    ensures SameColumns(m, After(n, step))
    ensures var l := m.listings[id];
            After(n, step).listings[id] == if LostListing(m, step, id) then l.(status := Invalidated)
                                           else if TimeIsUp(m, step, id) then l.(status := Expired) else l
  {
    hide After, SourceLost, Inv;
    ReconcilerKeepsColumns(n, step);
    RestingAfterRow(n, step, id);
    if step.CheckSource? {
      SourceLostIsStable(m, n, step.id, step.source);
    }
  }

  /** Over any rows of the reconciler, a resting listing is untouched until the first that ends it. */
  lemma {:induction false} RestingUntilEnded(m: State, steps: seq<Step>, id: string)
    requires Inv(m) && id in m.listings && m.listings[id].status == Active && RowsOnly(steps)
    requires forall j :: 0 <= j < |steps| ==> !EndsListing(m, steps[j], id)
    ensures SameColumns(m, Run(m, steps)) && Inv(Run(m, steps))
    ensures Run(m, steps).listings[id] == m.listings[id]
    decreases |steps|
  {
    hide After, LostListing, TimeIsUp, Inv, SameColumns, ReconcilerStep;
    RunKeeps(m, steps);
    if steps == [] {
      SameAsItself(m);
    } else {
      RestingUntilEnded(m, steps[..|steps| - 1], id);
      RestingSoFar(m, Run(m, steps[..|steps| - 1]), steps[|steps| - 1], id);
    }
    assert SameColumns(m, Run(m, steps)) ==> id in Run(m, steps).listings by { SameListings(m, Run(m, steps)); }
  }

  lemma SameListings(m: State, n: State)
    ensures SameColumns(m, n) ==> n.listings.Keys == m.listings.Keys
  {
  }

  lemma FirstListingEnding(m: State, steps: seq<Step>, id: string) returns (k: nat)
    requires id in m.listings
    ensures k <= |steps| && (k < |steps| ==> EndsListing(m, steps[k], id))
    ensures forall j :: 0 <= j < k ==> !EndsListing(m, steps[j], id)
  {
    hide EndsListing;
    k := 0;
    while k < |steps| && !EndsListing(m, steps[k], id)
      invariant k <= |steps| && forall j :: 0 <= j < k ==> !EndsListing(m, steps[j], id)
    {
      k := k + 1;
    }
  }

  /** The first row that ends a resting listing decides what it is after all of them. */
  lemma RestingOverRows(m: State, steps: seq<Step>, id: string, k: nat)
    requires Inv(m) && id in m.listings && m.listings[id].status == Active && RowsOnly(steps)
    requires k < |steps| && EndsListing(m, steps[k], id) && forall j :: 0 <= j < k ==> !EndsListing(m, steps[j], id)
    ensures id in Run(m, steps).listings
    ensures Run(m, steps).listings[id]
            == m.listings[id].(status := if LostListing(m, steps[k], id) then Invalidated else Expired)
  {
    hide After, Inv, Run, LostListing, TimeIsUp, SameColumns, ReconcilerStep;
    var before, after := steps[..k], steps[k + 1..];
    assert steps == before + [steps[k]] + after;
    RunAppend(m, before + [steps[k]], after);
    RunOneMore(m, before, steps[k]);
    RestingUntilEnded(m, before, id);
    RunKeeps(m, before + [steps[k]]);
    RestingThenOver(m, Run(m, before), steps[k], after, id);
  }

  lemma RestingThenOver(m: State, n: State, step: Step, after: seq<Step>, id: string)
    requires Inv(n) && SameColumns(m, n) && id in m.listings && n.listings[id] == m.listings[id]
    requires m.listings[id].status == Active && ReconcilerStep(step) && EndsListing(m, step, id)
    requires Inv(After(n, step)) && RowsOnly(after)
    ensures var end := Run(After(n, step), after);
            && id in end.listings
            && end.listings[id] == m.listings[id].(status := if LostListing(m, step, id) then Invalidated else Expired)
  {
    hide After, Inv, Run, LostListing, TimeIsUp;
    RestingSoFar(m, n, step, id);
    SameListings(m, After(n, step));
    hide SameColumns;
    OverForRows(After(n, step), after, id);
  }

  lemma ListingEndingRow(m: State, w: World, first: seq<string>, second: seq<string>, id: string, k: nat)
    requires id in m.listings && k < |Schedule(w, Owners(m.fills), first, second)|
    requires EndsListing(m, Schedule(w, Owners(m.fills), first, second)[k], id)
    ensures var step := Schedule(w, Owners(m.fills), first, second)[k];
            && (LostListing(m, step, id) ==> SourceLost(m, id, SourceOf(w, id)))
            && (!LostListing(m, step, id) ==> k >= 3 * |m.fills| + |first| && m.listings[id].expiryHeight <= w.tip)
  {
    hide SourceLost, Schedule, SourceOf;
    ScheduleRows(w, Owners(m.fills), first, second);
  }

  /** A lost source and a reached height have their row, the lost source the earlier one. */
  lemma RestingRows(m: State, w: World, first: seq<string>, second: seq<string>, id: string)
    requires id in m.listings && id in first && id in second
    ensures var steps := Schedule(w, Owners(m.fills), first, second);
            && RowsOnly(steps)
            && (SpentElsewhere(m, w, id) ==>
                  exists k :: 0 <= k < |steps| && k < 2 * |m.fills| + |first| && EndsListing(m, steps[k], id))
            && (m.listings[id].expiryHeight <= w.tip ==>
                  exists k :: 0 <= k < |steps| && EndsListing(m, steps[k], id))
  {
    var steps, n := Schedule(w, Owners(m.fills), first, second), |m.fills|;
    ScheduleRows(w, Owners(m.fills), first, second);
    SpentElsewhereIsLost(m, w, id);
    hide SourceLost, SpentElsewhere, Schedule, SourceOf, RowsOnly;
    var c :| 0 <= c < |first| && first[c] == id;
    var d :| 0 <= d < |second| && second[d] == id;
    assert steps[2 * n + c] == CheckSource(id, SourceOf(w, id));
    assert steps[3 * n + |first| + d] == ExpireListing(id, w.tip);
  }

  /** What one reconcile leaves of a resting listing: it is invalidated when its source is lost,
      else it expires when its height is reached, and else it is left alone. */
  lemma ReconcileDecidesRestingListings(m: State, w: World, first: seq<string>, second: seq<string>, id: string)
    requires Inv(m) && id in m.listings && m.listings[id].status == Active && id in first && id in second
    ensures var end, l := Run(m, Schedule(w, Owners(m.fills), first, second)), m.listings[id];
            && id in end.listings
            && end.listings[id] == if SpentElsewhere(m, w, id) then l.(status := Invalidated)
                                   else if l.expiryHeight <= w.tip then l.(status := Expired) else l
  {
    hide Inv, SourceLost, SpentElsewhere, Schedule, Run, SourceOf, EndsListing, LostListing, RowsOnly, Owners;
    var steps := Schedule(w, Owners(m.fills), first, second);
    RestingRows(m, w, first, second, id);
    SpentElsewhereIsLost(m, w, id);
    var k := FirstListingEnding(m, steps, id);
    if k < |steps| {
      ListingEndingRow(m, w, first, second, id, k);
      RestingOverRows(m, steps, id, k);
    } else {
      RestingUntilEnded(m, steps, id);
      SameListings(m, Run(m, steps));
    }
  }
}

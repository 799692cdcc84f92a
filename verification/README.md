# Cove: a verified model of the protocol's economic core

Cove is a token protocol on Bitcoin. A token's backing is a vault whose reserve follows a
210-stair price curve; tokens travel as carriers, one UTXO each; an application service quotes
and builds transactions, a marketplace matches listings with fills, and an indexer folds blocks
into tables. This project states those rules in Dafny and proves what they promise.

| part | files |
|---|---|
| Curve, reserve, fees and covenant transitions | `Rounding`, `Curve`, `Backing`, `Fee`, `TransitionV2`, `Witness` |
| Token-UTXO ledger | `TokenUtxo`, `ChainView`, `Ledger`, `LedgerHoldings` |
| Quoting and selection | `BuyQuote`, `FeeRates`, `Sorting`, `CoinSelection`, `PendingWalk` |
| Marketplace and signing journal | `Market`, `MarketSafety`, `MarketCauses`, `Journal` |
| Mint transaction, PSBT builder | `MintTx`, `Psbt` |
| V1 ledger, indexer, store, worker | `CoveV1`, `Indexer`, `Store`, `Worker`, `WorkerProgress`, `CoveHistory` |
| Codecs | `Bytes`, `Profile`, `ProfileCodec`, `ProfileLayout`, `Format` |
| Shared | `Wrappers`, `Constants`, `Scripts` |

Code that changes rows, maps or objects step by step is a class or a method with loops, proved
against a specification function; the theorems are about those functions. Code made of
expressions is functions and lemmas. Exceptions are error values.

## Where the code and its documentation disagree

The model follows the code. For each point below the theorem named says exactly when, or by how
much, the code departs from what is documented, and where the promise can fail a second one shows
it failing at a concrete input or run.

- `costToBuy` is documented as the exact cost rounded up once. It rounds up on every stair it
  touches, and charges one sat more exactly when the fractions left on both sides of the first
  stair edge are positive and fit in one sat (`Curve.FreshWalkOvercharges`,
  `Curve.FreshWalkOverchargesWitness`).
- The comments in `packages/curve/src/constants.ts:29-33` give 33 and 6,930 sats a lot and
  73,111,500 sats for the whole supply; the constants below them give 27, 5,670 and 59,818,500
  (`Backing.WholeSupply`).
- The mint witness compares encodings, and the encoding keeps policy version and stage modulo 256:
  a claimed successor passes exactly when it has the canonical one's encoding, so also when its stage
  is off by 256 (`Witness.WitnessIsTheTransition`, `Witness.OffBy256IsAccepted`).
- The pending-chain walk is documented to stop at anything that does not line up. It throws exactly
  when, before the requested outpoint, it meets a spend that is no transaction or that claims an
  amount the transition refuses (`PendingWalk.WalkThrowsExactly`, `PendingWalk.OneAtomMintThrows`).
- An empty quote always blames the budget; no budget helps exactly when supply or caps shut out the
  smallest mint (`BuyQuote.EmptyQuoteBlamesBudget`, `BuyQuote.SoldOutBlamesBudget`).
- A fee is refused by the zero-input size before any coin is looked at. A fee refused there would be
  payable with some number of inputs exactly when it is an explicit amount within the cap and not
  under the floor at the first size below the ceiling (`CoinSelection.ZeroInputRefusalExactly`,
  `CoinSelection.ZeroInputRefusalWitness`).
- Funding candidates are not deduplicated. Nothing is spent twice, whatever the request, exactly when
  only coins worth nothing are listed twice or the candidates are refused for their scripts
  (`CoinSelection.SelectionSpendsOnceExactly`, `CoinSelection.RepeatedCandidateWitness`).
- Fee tiers are promised to lie between the node's floor and the ceiling. They do exactly when the
  floor is not above the ceiling (`FeeRates.LoadFeeRates`, `FeeRates.FloorAboveCeilingWitness`).
- "A cancelled listing never resurrects": it can exactly when it was cancelled with a broadcast fill
  (`MarketSafety.CancellationIsFinalExactly`, `MarketSafety.CancelledListingIsFilled`).
- Two journal grants less than a lifetime apart are promised to have a release of the first digest
  between them. Clock samples keep that promise, whatever the digests and releases, exactly when no
  claim is followed first by one sampled a lifetime after it or later and then by one sampled less
  than a lifetime after it (`Journal.PromiseHoldsExactly`, `Journal.StaleSampleWitness`). Samples
  that reach the table in order always keep it (`Journal.OrderedSamplesAreSafe`).
- The V1 state encoding has room for 20 stages and the curve has 210: a valid state can be minted
  from only while the supply stays under 2,000,000 tokens (`MintTx.EncodingEndsAtStageTwenty`,
  `MintTx.NoMintPastStageTwenty`).
- The 80-byte OP_RETURN limit looks at the first push only, and not at all when that push is missing
  or runs past the end of the script (`Psbt.OpReturnAcceptedExactly`; `Psbt.LongOpReturnIsAccepted`
  and `Psbt.IncompletePushIsAccepted` are the two ways past it). A script that is one complete push
  is limited as documented, and so is every script of the protocol's own builder
  (`Psbt.WholePushIsLimited`, `Psbt.OwnPayloadIsLimited`).
- The rebuilding flag is stored in the row that clearing deletes, so no reader sees it during a
  rebuild (`Worker.RebuildShowsExactly`, `WorkerProgress.RebuildDiesUnseen`).
- A broadcast is written without a look at the rows. Written late, it keeps the coupling exactly when
  no other fill of the listing is live, and the trades exactly when the fill was not confirmed
  meanwhile (`MarketSafety.LateBroadcast`, `MarketSafety.ExpiredFillIsBroadcast`,
  `MarketSafety.ConfirmedFillIsBroadcastAgain`).
- A restart after a reorganisation that changed the ledger never rebuilds; every start refuses it
  (`Worker.RestartComesUpExactly`, `WorkerProgress.OfflineReorgStopsRestarts`).
- A rebuild under a tip below activation leaves a live worker that dies as soon as the tip grows
  (`WorkerProgress.GrowingBackKillsTheWorker`, `WorkerProgress.FallAndRiseKillsTheWorker`).
- The canonical profile bytes drop a last odd hex digit of the fee script, and validation accepts
  such a script (`ProfileCodec.SameBytesExactly`, `ProfileCodec.OddDigitIsInvisible`,
  `ProfileCodec.OddDigitWitness`).

## Model

| member | source | states |
|---|---|---|
| Rounding.CeilDiv | packages/cove-economics/src/curve.ts:39-43 | The least whole number of units that covers the amount; nothing for non-positive amounts |
| Rounding.CeilDivSplitLoses | packages/cove-economics/src/curve.ts:39-43 | Rounding two parts separately costs one unit more exactly when both leave a remainder and the remainders fit in one unit |
| Curve.StairCostToBuy | packages/cove-economics/src/curve.ts:71-88 | The pricing loop charges the per-stair rounded price integral, charges nothing for non-positive amounts, and refuses exactly the purchases past the public supply |
| Curve.StairFromBoundary | packages/cove-economics/src/curve.ts:71-88 | From the foot of a stair the walk is the exact price integral rounded up once |
| Curve.StairIsHeadPlusTail | packages/cove-economics/src/curve.ts:71-88 | However many stairs a purchase crosses, it rounds at most twice: once for the rest of the current stair and once for everything beyond it |
| Curve.FreshWalkOvercharges | packages/cove-economics/src/curve.ts:35-36 | The documented exact cost is missed by at most one sat, and by one sat exactly when both fractions at the first stair edge are positive and fit in one sat |
| Curve.FreshWalkOverchargesWitness | packages/cove-economics/src/curve.ts:71-88 | Two tokens across the first stair edge cost two sats where the exact cost is one |
| Curve.SplitInTwo | packages/cove-economics/src/report.ts:30-43 | On all four curves, cutting a purchase in two costs at least the single price and at most one sat more |
| Curve.SplitDrift | packages/cove-economics/src/report.ts:30-43 | On all four curves, k consecutive parts cost between the single price and the single price plus k - 1 sats |
| Curve.TwoSegmentSplit | packages/cove-economics/src/curve.ts:165-188 | The two-segment curve obeys the split bound for every cut, also across its kink |
| Curve.ClosedFormsAreAreas | packages/cove-economics/src/curve.ts:95-188 | The three closed forms are the token-by-token area under their price from 500 to 150,000, rounded up once, and on the two-segment curve once on each side of the kink |
| Curve.AreaOfLots | packages/cove-economics/src/curve.ts:71-88 | On whole lots the staircase never rounds: its price is the price integral exactly |
| Curve.LotSplitIsExact | packages/cove-economics/src/curve.ts:71-88 | Whole-lot purchases are additive: splitting them costs nothing |
| Curve.OneLot | packages/curve/src/constants.ts:38-41 | One lot costs 27 sats plus 27 for every stair below it |
| Backing.ReserveIsRoundedIntegral | packages/cove-economics/src/backing.ts:33-36 | R(s) is the price integral from zero, rounded up once |
| Backing.FreshWalkAgainstReserve | packages/cove-economics/src/backing.ts:77-94 | A fresh walk charges R(s+q) - R(s) or one sat more, and exactly that on whole lots |
| Backing.ReserveMono | packages/cove-economics/src/backing.ts:33-36 | More supply never needs less backing |
| Backing.BuyThenRedeem | packages/cove-economics/src/backing.ts:86-105 | Redeeming what was just bought is priced identically, dust refusals included |
| Backing.GrossOfLots | packages/cove-economics/src/backing.ts:86-94 | A whole-lot purchase is never dust and costs the sum of its lot prices |
| Backing.GrossExactly | packages/cove-economics/src/backing.ts:77-105 | A movement is priced exactly for a legal supply and a fitting positive amount that moves at least a sat, at the reserve difference; each refusal names the first rule broken |
| Backing.ReserveAtStair | packages/cove-economics/src/backing.ts:33-36 | After k full stairs the reserve is 1350 k (k + 1) sats |
| Backing.WholeSupply | packages/curve/src/constants.ts:29-33 | The whole supply is backed by 59,818,500 sats |
| Fee.FeeMono | packages/cove-economics/src/fee.ts:95-143 | A larger movement with a larger flat part never pays a smaller fee |
| Fee.FeeSubadditive | packages/cove-economics/src/fee.ts:95-143 | Ceilings, flat parts and floors together never make two fees smaller than the fee of the sum |
| Fee.SettlementThresholdIsExact | packages/cove-economics/src/feeSettlement.ts:29-47 | The percentage fee reaches the dust threshold exactly when the gross reaches the reported minimum |
| Fee.RoundTripCostsTheFees | packages/cove-economics/src/backing.ts:108-127 | Buying and redeeming the same amount loses exactly the two fees |
| Fee.RedeemNetSign | packages/cove-economics/src/backing.ts:119-127 | Under every configuration a redeem quote pays out a negative amount exactly when the gross is below the minimum or below the flat part plus the rounded percentage |
| Fee.RedeemBelowMinimum | packages/cove-economics/src/backing.ts:119-127 | Without a flat part and at no more than 100%, that is exactly below the minimum |
| Fee.LiveRedeemNetSign | packages/cove-economics/src/fee.ts:61-83 | Under the live schedule a redeem quote is negative exactly below 1,000 sats |
| Fee.QuotesAre | packages/cove-economics/src/backing.ts:108-127 | A purchase adds flat part, lot charges and rounded percentage to the reserve difference; a redemption takes flat part and percentage, raised to the floor, off it |
| TransitionV2.MintAccepted | packages/cove-covenant/src/transitionV2.ts:73-97 | A mint is accepted exactly from a valid state for positive whole lots under the cap; dust is unreachable; the reserve moves by the R-difference |
| TransitionV2.RedeemAccepted | packages/cove-covenant/src/transitionV2.ts:99-124 | A redemption is accepted exactly from a valid state for positive whole lots that were issued; dust is unreachable; the reserve moves by the reverse R-difference |
| TransitionV2.ValidStateDetermined | packages/cove-covenant/src/transitionV2.ts:17-60 | Token and supply determine a valid state completely |
| TransitionV2.StageOfSupply | packages/cove-covenant/src/stateV2.ts:111-113 | Stage k sells the k-th hundred thousand tokens, and a sold-out supply is on the last stage |
| TransitionV2.RefusedExactly | packages/cove-covenant/src/transitionV2.ts:73-124 | From a valid state each refusal is given exactly when its rule is the first one broken |
| TransitionV2.S0IsValid | packages/cove-covenant/src/transitionV2.ts:62-71 | The initial state of a legal token id is valid |
| TransitionV2.StepKeepsValid | packages/cove-covenant/src/transitionV2.ts:73-124 | Every accepted step keeps the state valid, keeps the token, moves the supply by its amount and the reserve by its gross, which is at least one sat |
| TransitionV2.MintThenRedeem | packages/cove-covenant/src/transitionV2.ts:73-124 | Mint then redeem is the identity, gross included |
| TransitionV2.RunTelescopes | packages/cove-covenant/src/transitionV2.ts:73-124 | Over any run the supply moves by the net amount and the net gross is R(end) - R(start) |
| TransitionV2.SameNetSameState | packages/cove-covenant/src/transitionV2.ts:73-124 | Two runs with the same net amount end in the identical state and paid the same net gross |
| TransitionV2.AllSupplyRedeemable | packages/cove-covenant/src/transitionV2.ts:99-124 | After any run from the start, redeeming everything is accepted, pays the whole backing and returns to the initial state |
| TransitionV2.SplittingNeverPays | packages/cove-economics/src/fee.ts:95-143 | Cutting a mint into accepted mints leaves the curve price equal and never lowers the buyer's total: each extra mint adds at least the flat charge |
| Witness.WitnessIsTheTransition | packages/cove-simplicity/src/witness.ts:46-82 | A witness is built exactly when the claim has the canonical successor's encoding and gross, and then it holds the amount, both supplies and both reserves of the two states and the gross, with next = previous plus or minus amount |
| Witness.RefusedExactly | packages/cove-simplicity/src/witness.ts:46-82 | Each reason for refusing a witness is given exactly when it is the first that applies, the transition's own refusal included |
| Witness.OffBy256IsAccepted | packages/cove-covenant/src/stateV2.ts:58-82 | A claimed successor whose stage is off by 256 is accepted although it is not a valid state |
| TokenUtxo.ValidateTokenTransfer | packages/cove-covenant/src/tokenUtxo.ts:45-87 | A transfer is accepted exactly when inputs are positive, allocations are positive, distinct and on spendable outputs, and the two totals are equal within 64 bits |
| TokenUtxo.ValidateRedeemTokenAccounting | packages/cove-covenant/src/tokenUtxo.ts:89-123 | A redemption is accepted exactly when redeemed plus change equals the inputs, and reports the change total |
| ChainView.SpendOnlyRemoves | packages/cove-covenant/src/resolver.ts:93-146 | Whatever a spend meets, it only removes entries, and never one of another token |
| ChainView.CoveChainView.Deploy | packages/cove-covenant/src/resolver.ts:61-67 | Records the token and its vault, and refuses a known token without a change |
| ChainView.CoveChainView.Mint | packages/cove-covenant/src/resolver.ts:69-91 | Moves the vault and records the new carrier; refuses an unknown token or a stale vault without a change |
| ChainView.CoveChainView.Transfer | packages/cove-covenant/src/resolver.ts:93-115 | Spends every input of the token and records the outputs; on a refusal the earlier deletions stay |
| ChainView.CoveChainView.Redeem | packages/cove-covenant/src/resolver.ts:117-146 | Spends, records change and moves the vault; on a refusal the earlier deletions stay |
| ChainView.CoveChainView.GetBackingStateByOutpoint | packages/cove-covenant/src/resolver.ts:158-164 | Finds the state of a vault recorded at the outpoint, or nothing when there is none |
| ChainView.CoveChainView.ResolveTokenInputs | packages/cove-covenant/src/resolver.ts:176-184 | The known carriers among the inputs, in order |
| ChainView.CoveChainView.BalanceOf | packages/cove-covenant/src/resolver.ts:186-192 | The sum of a token's unspent carriers |
| ChainView.TotalRemove | packages/cove-covenant/src/resolver.ts:186-192 | A token's total does not depend on the order its carriers are visited in |
| Ledger.AcceptOp | packages/cove-covenant/src/resolver.ts:61-184 | Resolving the inputs, validating them and updating the view together accept exactly the operations the specification accepts and reach its view |
| Ledger.SwapTotals | packages/cove-covenant/src/resolver.ts:93-146 | Spending and re-allocating changes only that token's total, by exactly allocations minus inputs |
| LedgerHoldings.SpendsExactly | packages/cove-covenant/src/resolver.ts:93-106 | Spending succeeds exactly for distinct carriers of the token and removes exactly those |
| LedgerHoldings.TransferLeaves | packages/cove-covenant/src/resolver.ts:93-115 | After an accepted transfer each allocation is at its own output, with its own amount and script; the carriers at the inputs are gone and everything else is unchanged |
| LedgerHoldings.RedeemLeaves | packages/cove-covenant/src/resolver.ts:117-146 | After an accepted redemption the change is at its own outputs, the carriers at the inputs are gone, the vault has moved to output 1 in its successor state, and everything else is unchanged |
| LedgerHoldings.MintLeaves | packages/cove-covenant/src/resolver.ts:69-91 | After an accepted mint the recipient output carries exactly the amount and the vault has moved to output 1 in its successor state |
| LedgerHoldings.DeployLeaves | packages/cove-covenant/src/resolver.ts:61-67 | After an accepted deployment the token has an empty stage-one vault at output 1 and nothing else changed |
| LedgerHoldings.TransferAcceptedExactly | packages/cove-covenant/src/tokenUtxo.ts:45-87 | A transfer is accepted exactly when known inputs are this token's, listed once and some are there, and positive allocations to distinct spendable outputs hand on exactly what they hold, within 64 bits |
| LedgerHoldings.RedeemAcceptedExactly | packages/cove-covenant/src/tokenUtxo.ts:89-123 | A redemption is accepted exactly when its inputs and change are good, redeemed plus change is what the inputs hold, and the transition accepts the amount |
| Ledger.StepKeeps | packages/cove-app/src/invariants.ts:20-69 | Every accepted operation with a new txid keeps both monitors for every token, distinct vaults and well-formed carriers |
| Ledger.TokensAreConserved | packages/cove-app/src/invariants.ts:20-69 | In every run over many tokens, each token's carriers sum to its issued supply, its state is valid and its backing is R(supply) |
| Ledger.LookUpVault | packages/cove-covenant/src/resolver.ts:158-164 | After any run, looking a vault up by its recorded outpoint gives that token's current state |
| Ledger.IssuedSupply | packages/cove-covenant/src/resolver.ts:186-192 | After any run, the balance scan of a token returns its issued supply |
| Ledger.ReplayChain | packages/cove-guardian/src/v3-lifecycle.ts:663-745 | The replay loop computes the specified fold, stopping at the first refusal |
| LedgerHoldings.ReplayStopsExactly | packages/cove-guardian/src/v3-lifecycle.ts:663-745 | A replay stops exactly at a known deployment, before any deployment, at an amount the transition refuses, and at inputs that repeat or belong to another token |
| Ledger.ReplayRebuilds | packages/cove-guardian/src/v3-lifecycle.ts:663-745 | Replaying an accepted single-token history, without its validators, rebuilds the accepted view and the token's current state |
| BuyQuote.MostLots | packages/cove-app/src/service.ts:868-940 | The first binary search finds the largest lot count within budget and limits, as a scan from the top would |
| BuyQuote.CheapestMint | packages/cove-app/src/service.ts:868-940 | The second binary search finds the cost of the fewest lots that meet the minimum, or that there are none |
| BuyQuote.QuoteBuyForSats | packages/cove-app/src/service.ts:868-940 | The two binary searches compute the quote that linear scans define |
| BuyQuote.QuoteIsLargest | packages/cove-app/src/service.ts:868-940 | The quote is the largest whole-lot mint allowed by budget, per-mint limits and supply, with its own costs; it is empty exactly when every allowed amount is below the minimum |
| BuyQuote.CostIsOutlay | packages/cove-app/src/service.ts:886-897 | The price of every lot count is the accepted mint's gross, flat plus 10 sats a lot plus the rounded percentage, the larger of 546 and half the gross rounded up, and 1,000 sats for the carrier |
| BuyQuote.QuoteIsOutlay | packages/cove-app/src/service.ts:868-940 | A non-empty quote names those parts of an accepted mint; the reported minimum spend is the outlay of the smallest mint that reaches the minimum, and there is none exactly when no mint does |
| BuyQuote.LimitsAre | packages/cove-app/src/service.ts:868-886 | The supply and per-mint limits are the whole lots left under 21 million tokens and under the cap |
| BuyQuote.LimitBlocksNextLot | packages/cove-app/src/service.ts:868-940 | The named limit really blocks the next lot |
| BuyQuote.NonEmptyExactlyAtMinSpend | packages/cove-app/src/service.ts:868-940 | The quote is non-empty exactly when the caps admit the smallest mint and the budget reaches the reported minimum spend |
| BuyQuote.EmptyQuoteBlamesBudget | packages/cove-app/src/service.ts:868-940 | An empty quote always names the budget; no budget helps exactly when supply or caps shut out the smallest mint |
| BuyQuote.SoldOutBlamesBudget | packages/cove-app/src/service.ts:868-940 | With the supply sold out a budget of one bitcoin gets an empty quote that names the budget, and no budget gets anything |
| BuyQuote.QuotedAmountIsMintable | packages/cove-app/src/service.ts:868-940 | A quoted amount is accepted by the transition at the quoted price |
| FeeRates.EstimateOperationVsize | packages/cove-app/src/fees.ts:56-107 | The tallied estimate is a base size plus one input size per funding input |
| FeeRates.VsizeIsTheTransaction | packages/cove-app/src/fees.ts:56-107 | The size is that of a transaction with the listed outputs, a vault input where a vault moves, and the token and funding inputs |
| FeeRates.StandardSizes | packages/bitcoin/src/fees.ts:26-94 | The input sizes, and the sizes of the four builds with standard scripts |
| FeeRates.ResolvesExactly | packages/bitcoin/src/fees.ts:216-257 | A fee is accepted exactly when its whole-sat rate is within floor and ceiling and its amount within the cap; TOO_LOW is exactly a rate under the floor |
| FeeRates.RefusalPersists | packages/bitcoin/src/fees.ts:216-257 | Once adding inputs makes a fee policy refuse, adding more never makes it accept again |
| FeeRates.LoadFeeRates | packages/bitcoin/src/fees.ts:150-172 | The floor is the larger of the node's and one; each tier is its estimate held between the floor, the tier below and the ceiling; tiers rise and stay under the ceiling, and above the floor exactly when the floor is not above the ceiling |
| FeeRates.TierIs | packages/bitcoin/src/fees.ts:150-172 | A tier is the dearest of its own rate and the slower tiers'; a rate is the estimate, or 2, 5 and 10, not under the floor and never over 500 |
| FeeRates.FloorAboveCeilingWitness | packages/bitcoin/src/fees.ts:150-172 | A node floor of 600 leaves every tier at the ceiling of 500, under that floor |
| Sorting.SortIgnoresOrder | packages/cove-app/src/service.ts:559-710 | Sorting without ties depends on the elements only |
| CoinSelection.ResolveFundingAndFee | packages/cove-app/src/service.ts:559-710 | Foreign and carrier coins are refused exactly; otherwise the selection is asset-free, covers target plus the fee of its own size, uses the fewest inputs, takes the largest asset-free coins in order, and reports insufficient funds only when no asset-free subset pays |
| CoinSelection.UsableExactly | packages/cove-app/src/service.ts:630-636 | A coin may fund a build exactly when it is confirmed or the build moves no vault |
| CoinSelection.AnswerIsFunded | packages/cove-app/src/service.ts:638-710 | A selection covers the target and the fee of a transaction of its own size, the rate times that size or the explicit amount, and no fewer asset-free coins cover theirs |
| CoinSelection.SelectionSpendsOnce | packages/cove-app/src/service.ts:559-710 | When no candidate is listed twice, no coin is selected twice |
| CoinSelection.SelectionSpendsOnceExactly | packages/cove-app/src/funding.ts:37-39 | For coins whose value is fixed by their outpoint: no answer to any request spends an outpoint twice exactly when every coin listed twice is worth nothing or the candidates have different scripts |
| CoinSelection.NoWorthlessInput | packages/cove-app/src/service.ts:559-710 | A coin worth nothing is never selected |
| CoinSelection.RepeatedCandidateWitness | packages/cove-app/src/funding.ts:37-39 | One coin of 6,000 sats listed twice funds a transfer of 10,000 sats and is selected twice |
| CoinSelection.Pick | packages/cove-app/src/service.ts:638-691 | The restarting greedy loop terminates with an optimal selection, in which every asset-free coin left behind comes after every coin taken |
| CoinSelection.TopIsMost | packages/cove-app/src/service.ts:638-691 | Any k coins of a largest-first list are worth at most its first k |
| CoinSelection.PickOrderIsDeterministic | packages/cove-app/src/service.ts:559-710 | The order coins are tried in does not depend on the order they came in |
| CoinSelection.ZeroInputRefusalExactly | packages/cove-app/src/service.ts:559-710 | A fee refused at zero inputs is payable with some number of them exactly when it is an explicit amount within the cap that is not under the floor at the first size where it is not above the ceiling |
| CoinSelection.ZeroInputRefusalWitness | packages/cove-app/src/service.ts:559-710 | A fee of 100,000 sats is refused at zero inputs and accepted at five |
| CoinSelection.PickCarriers | packages/cove-app/src/service.ts:1199-1217 | Largest-first picks the fewest carriers that cover the amount, none of them smaller or at the same value later by txid than one left behind, or reports correctly that the cap cannot cover it |
| PendingWalk.FollowPendingBacking | packages/cove-app/src/service.ts:401-465 | The bounded loop is the specified walk of at most 24 steps |
| PendingWalk.MovesExactly | packages/cove-app/src/service.ts:413-460 | The walk moves exactly over a transaction that spends this vault, claims an acceptable operation and holds its successor, to that transaction's output 1, with its txid, script and value |
| PendingWalk.StopsExactly | packages/cove-app/src/service.ts:413-460 | It stops exactly when no spend is known, when it is no vault operation, and when an acceptable one does not hold its successor |
| PendingWalk.WalkIsAChain | packages/cove-app/src/service.ts:401-465 | A walk that returns has followed rows each of which is output 1 of the transaction spending the one before, and ends at the requested outpoint, at its depth, or where nothing follows |
| PendingWalk.WalkIsCanonical | packages/cove-app/src/service.ts:401-465 | Whatever it meets, the returned row is reached by at most 24 accepted steps, its state is valid and its value is anchor plus R(supply) |
| PendingWalk.StopsAtRequested | packages/cove-app/src/service.ts:401-465 | The walk stops at the requested outpoint when it passes through it |
| PendingWalk.UnmetStopIsIgnored | packages/cove-app/src/service.ts:401-465 | A requested outpoint the walk never meets changes nothing |
| PendingWalk.StepThrowsExactly | packages/cove-app/src/service.ts:401-465 | From a valid state a step throws exactly when the spend is no transaction or claims a mint or redemption of an amount the transition refuses |
| PendingWalk.WalkThrowsExactly | packages/cove-app/src/service.ts:394-399 | From a sound row the walk throws exactly when, within its depth and before the requested outpoint, it meets such a spend, where the comment promises to stop |
| PendingWalk.WalkThrowsAtAStep | packages/cove-app/src/service.ts:401-465 | From any row the walk throws exactly when one of its steps within the bound and before the stop throws |
| PendingWalk.OneAtomMintThrows | packages/cove-app/src/service.ts:394-399 | A pending transaction that claims a mint of one atom makes the walk throw from every row |
| Market.MarketService.CreateListing | packages/cove-market/src/service.ts:193-275 | Adds an active listing under a new id and nothing else |
| Market.MarketService.CancelListing | packages/cove-market/src/service.ts:277-319 | Cancels an unfilled listing together with its pre-broadcast fills, and refuses filled and cancelled ones |
| Market.MarketService.ReserveListing | packages/cove-market/src/service.ts:321-401 | Reserves an active, unexpired listing with a new fill; an expired one is left unchanged |
| Market.MarketService.Advance | packages/cove-market/src/service.ts:403-563 | Build, buyer and seller signatures move one fill along the signing stages, from exactly the stages that allow it |
| Market.MarketService.FinalizeAndBroadcastFill | packages/cove-market/src/service.ts:565-610 | Moves a seller-signed or already broadcast fill and its listing to broadcast under the built txid |
| Market.MarketService.ConfirmFill | packages/cove-market/src/service.ts:625-641 | Confirms a broadcast fill exactly when its own transaction canonically spent the source, and records or restores its trade |
| Market.MarketService.ReorgFill | packages/cove-market/src/service.ts:643-662 | Undoes a confirmation exactly when its transaction no longer canonically spends the source |
| Market.MarketService.CheckListingSource | packages/cove-market/src/service.ts:664-717 | Invalidates, restores or re-pends an open listing by who spends its source |
| Market.MarketService.ReconcileMarket | packages/cove-market/src/service.ts:617-779 | The whole reconcile is the sequence of its row steps in the stated order of passes, and its four counts are the rows that expired, invalidated, confirmed and reorged something |
| MarketCauses.FillStatusAfter | packages/cove-market/src/service.ts:277-779 | A fill gets each status exactly for the stated cause: signing from the stage before, its own canonical spend, its time or the buyer's coins gone, cancellation, loss of the source, or its spend undone |
| MarketCauses.ListingStatusAfter | packages/cove-market/src/service.ts:277-779 | A listing gets each status exactly for the stated cause, and its expiry height never moves |
| MarketCauses.FillColumnsAfter | packages/cove-market/src/service.ts:403-610 | A fill never changes listing; builds set what its PSBT finalizes to, the broadcast makes that its transaction, and the buyer's signature sets its time |
| MarketCauses.NewFills | packages/cove-market/src/service.ts:321-401 | A fill is added exactly by reserving an active listing under its expiry height |
| MarketCauses.TradesAfter | packages/cove-market/src/service.ts:834-863 | A confirmation inserts its trade or makes it canonical again at its height, an undone one makes it uncanonical, and nothing else touches a trade |
| MarketCauses.SucceedsExactly | packages/cove-market/src/service.ts:277-779 | A call succeeds exactly when it changes the tables or repeats a build or a broadcast |
| MarketCauses.ReconcileDecidesReservations | packages/cove-market/src/service.ts:664-777 | After a whole reconcile a reservation has failed when its source was spent elsewhere, else it has expired when the buyer's signed coins are gone or its time is at or before now, and else it is untouched |
| MarketCauses.ReconcileDecidesRestingListings | packages/cove-market/src/service.ts:664-743 | After a whole reconcile a resting listing is invalidated when its source was spent elsewhere, else expired when its height is reached, and else untouched |
| MarketCauses.ReconcileConfirmsExactly | packages/cove-market/src/service.ts:617-662 | After a whole reconcile a fill is confirmed exactly when it was broadcast or confirmed and its own transaction canonically spent the source |
| MarketCauses.ReconcileCounts | packages/cove-market/src/service.ts:617-662 | The confirmed and reorged counts are the numbers of broadcast fills whose own spend is canonical and of confirmed fills whose own spend no longer is |
| MarketCauses.RowCountsExactly | packages/cove-market/src/service.ts:617-779 | A row counts as confirmed, reorged, invalidated or expired exactly when it brings its fill or listing to that status or ends a reservation; restoring a reorged listing counts as nothing |
| MarketSafety.StepKeeps | packages/cove-market/src/service.ts:277-779 | Every step of users, mempool, reorgs and the reconciler keeps the coupling of listings, fills and trades |
| MarketSafety.ReachableStatesAreCoupled | packages/cove-market/src/service.ts:277-779 | In every reachable state a listing has at most one live fill, and its status says which: reserved one pre-broadcast, broadcast one broadcast, filled one confirmed, the resting states none, cancelled at most a broadcast one |
| MarketSafety.TradesFollowConfirmations | packages/cove-market/src/service.ts:834-863 | A trade is canonical exactly when its fill is confirmed, and a listing has at most one canonical trade |
| MarketSafety.DeadForever | packages/cove-market/src/service.ts:286-318 | A cancelled listing without a broadcast fill stays cancelled under every later step |
| MarketSafety.CancellationIsFinalExactly | packages/cove-market/src/service.ts:293-297 | A cancelled listing stays cancelled in every continuation exactly when none of its fills is broadcast |
| MarketSafety.CancelledListingIsFilled | packages/cove-market/src/service.ts:293-297 | From the empty market, a listing cancelled while its sale is in the mempool is filled when the sale confirms |
| MarketSafety.LateBroadcast | packages/cove-market/src/service.ts:565-610 | A broadcast written after the state moved on keeps the coupling exactly when no other fill of the listing is live, and the trades exactly when the fill was not confirmed meanwhile |
| MarketSafety.ExpiredFillIsBroadcast | packages/cove-market/src/service.ts:565-610 | From the empty market, a signed fill that expired and is broadcast after the listing was reserved again leaves two live fills |
| MarketSafety.ConfirmedFillIsBroadcastAgain | packages/cove-market/src/service.ts:565-610 | From the empty market, a second broadcast written after the confirmation leaves a canonical trade without a confirmed fill |
| Journal.SigningJournal.ClaimRow | packages/cove-app/src/journal.ts:48-58 | One conditional upsert takes the row exactly when it is absent or expired at the caller's sample |
| Journal.SigningJournal.Reserve | packages/cove-app/src/journal.ts:48-66 | Undisturbed, reserve answers reserved exactly when the row was free, and conflict exactly when another digest holds it |
| Journal.SigningJournal.CommittedDigest | packages/cove-app/src/journal.ts:68-77 | The digest of a live row, and nothing for an expired or missing one |
| Journal.RowIsLastGrant | packages/cove-app/src/journal.ts:48-83 | After any interleaving a row exists exactly when the last grant was not released, and carries that grant's digest and expiry |
| Journal.GrantsAreSpaced | packages/cove-app/src/journal.ts:48-83 | Two reserved answers for one outpoint were sampled a lifetime apart unless the row was released in between |
| Journal.HeldOrTakenOver | packages/cove-app/src/journal.ts:48-83 | Until its digest is released, a granted row stands unless a grant sampled a lifetime later took it |
| Journal.CloseGrantsNeedRelease | packages/cove-app/src/journal.ts:48-83 | Two close grants with no claim between them sampled a lifetime after the first have a release of the first digest between them |
| Journal.PromiseHoldsExactly | packages/cove-app/src/journal.ts:48-83 | Every history with given clock samples keeps the promise, whatever its digests and releases, exactly when no sample is followed first by one a lifetime after it or later and then by one less than a lifetime after it |
| Journal.OrderedSamplesAreSafe | packages/cove-app/src/journal.ts:48-83 | Samples in order never form such a triple |
| Journal.StaleSampleWitness | packages/cove-app/src/journal.ts:48-83 | With a stale sample, two grants a millisecond apart occur without a release of the first digest |
| Journal.DifferentDigestsNeedAGrant | packages/cove-app/src/journal.ts:48-83 | Two positive answers for different digests have a grant of the second between them |
| MintTx.ValidateMintTx | packages/cove-guardian/src/tx.ts:143-296 | Accepts exactly the acceptable transactions, and never takes the CURVE_PAYMENT_MISMATCH exit |
| MintTx.CheckIntent | packages/cove-guardian/src/policy.ts:62-105 | Network, state invariants, public-mint phase, amount and destinations pass exactly when each of them holds |
| MintTx.CheckInputs | packages/cove-guardian/src/tx.ts:188-219 | Passes exactly when one input spends the previous state's script, carries reserve plus anchor, and the others bring funds |
| MintTx.FeeIsAlwaysDue | packages/curve/src/fees.ts:15-23 | Every legal mint moves at least one sat, so the platform fee output is always there |
| MintTx.PlatformFeeIsOnePercent | packages/curve/src/fees.ts:15-23 | The platform fee is one percent of what the mint moves, rounded up |
| MintTx.MintableExactly | packages/cove-guardian/src/policy.ts:62-105 | A state may be minted from exactly when version, token, supply, stage, reserve and phase are legal, and a refusal names a rule that is broken |
| MintTx.MintIsLegalExactly | packages/cove-covenant/src/transition.ts:39-75 | A legal mint is a positive whole number of tokens that are left and move at least a sat; its successor differs in supply, reserve and stage only, by the amount and the R-difference |
| MintTx.AcceptedExactly | packages/cove-guardian/src/tx.ts:143-296 | Acceptance in full: never mainnet, one input alone on the state script with reserve and anchor, successor with the R-difference, 1,000 sats, one percent, one more output at most, and a fee of at most 50,000 |
| MintTx.ComputeMintAnalysis | packages/cove-guardian/src/tx.ts:303-357 | The analysis record names the last state input, the canonical successor and the real miner fee |
| MintTx.BuildMintPsbt | packages/cove-guardian/src/tx.ts:401-456 | Builds the canonical layout exactly when the amount is a legal mint, both states have an encoding and the buyer covers it, with the requested miner fee |
| MintTx.BuildsExactly | packages/cove-guardian/src/tx.ts:401-456 | A mint can be built exactly when it is legal, both states fit the encoding, and the buyer's inputs cover what it moves, the commitment, the fee and the miner |
| MintTx.BuiltSpends | packages/cove-guardian/src/tx.ts:401-456 | A built mint spends the named state input first and then the buyer's inputs in order |
| MintTx.BuiltPays | packages/cove-guardian/src/tx.ts:401-456 | It pays successor, commitment and fee, returns what the buyer does not owe to the change script, and leaves the miner what was asked |
| MintTx.BuiltIsAcceptedExactly | packages/cove-guardian/src/tx.ts:401-456 | Whatever inputs the caller hands the builder, what it makes is accepted by the validator exactly when the request was good: state, scripts, amounts, fee, and one input that spends the state script with its full value |
| MintTx.NamedStateInput | packages/cove-guardian/src/tx.ts:188-219 | When the named state input spends the state script, the inputs are good exactly when no buyer input spends it |
| MintTx.ForeignStateInput | packages/cove-guardian/src/tx.ts:188-219 | When the named state input spends another script, the inputs are good exactly when one buyer input alone spends the state script, with its full value |
| MintTx.SwappedStateInputIsGood | packages/cove-guardian/src/tx.ts:188-219 | A good request stays good when the state coin and a buyer coin of equal value are swapped |
| MintTx.AcceptanceConserves | packages/cove-guardian/src/tx.ts:143-296 | Acceptance implies one state input, successor value and reserve up by R(s+q) - R(s), and inputs equal to outputs plus a capped fee |
| MintTx.EncodingEndsAtStageTwenty | packages/cove-covenant/src/state.ts:39-64 | Both states of a legal mint have an encoding exactly when the supply after it is under 2,000,000 tokens |
| MintTx.NoMintPastStageTwenty | packages/cove-covenant/src/state.ts:39-64 | From a fully backed state of 1,999,000 tokens that passes every invariant, minting 1,000 more is a legal transition whose successor has no encoding, so no such mint can be built |
| Psbt.BuildUnsignedPsbt | packages/bitcoin/src/psbt.ts:86-213 | Builds exactly the buildable parameters; its two closing consistency checks never fail |
| Psbt.BuildsExactly | packages/bitcoin/src/psbt.ts:86-213 | The buildable parameters: bounded rate, distinct signable inputs, amounts in range, short first pushes, one OP_RETURN at most, and inputs that cover outputs and a fee within the cap |
| Psbt.BuiltInOrder | packages/bitcoin/src/psbt.ts:86-213 | A built transaction has the inputs and outputs asked for, in order, then a change output exactly when what is left reaches dust; otherwise the miner gets it |
| Psbt.EstimateIs | packages/bitcoin/src/psbt.ts:52-74 | A build is priced at 58 vbytes for each Taproot and 68 for each native input, nine and its script for each output and the change, and twelve more |
| Scripts.DustOfTemplates | packages/bitcoin/src/dust.ts:30-69 | The relay dust of the standard scripts: 294, 330, 546 and 540 sats, and none for an OP_RETURN |
| Psbt.AddInputs | packages/bitcoin/src/psbt.ts:101-152 | Accepts exactly distinct, in-range, signable inputs, and totals their value and size |
| Psbt.AddOutputs | packages/bitcoin/src/psbt.ts:156-178 | Accepts exactly in-range, decodable outputs with a short first push, and totals value, size and OP_RETURNs |
| Psbt.BuiltIsSafe | packages/bitcoin/src/psbt.ts:86-213 | A built transaction conserves value, spends distinct outpoints, has at most one OP_RETURN among the protocol outputs, change zero or at least dust, and a fee between rate times size and that plus dust, under the cap |
| Psbt.OpReturnAcceptedExactly | packages/bitcoin/src/psbt.ts:163-169 | An OP_RETURN output is accepted exactly when its first push is missing, incomplete or of at most 80 bytes |
| Psbt.WholePushIsLimited | packages/bitcoin/src/psbt.ts:163-169 | A script that is one complete push is accepted exactly when that push has at most 80 bytes |
| Psbt.LongScriptAcceptedExactly | packages/bitcoin/src/psbt.ts:163-169 | A script with more than 80 bytes behind the push header is accepted exactly when its first push is short or runs past the end |
| Psbt.OwnPayloadIsLimited | packages/bitcoin/src/psbt.ts:32-35 | Every payload the protocol's own script builder can push, of any length and with any opcode, is accepted exactly up to 80 bytes |
| Psbt.LongOpReturnIsAccepted | packages/bitcoin/src/psbt.ts:163-169 | An OP_RETURN script of any length passes when its first push is short |
| Psbt.IncompletePushIsAccepted | packages/bitcoin/src/psbt.ts:163-169 | Up to 254 bytes pass behind a push header that declares 255 |
| CoveV1.AssertCoveInvariants | packages/protocol/src/cove/invariants.ts:8-32 | The nested loops accept exactly the states where every token's supply is in range, indexed by its ticker and equal to the sum of its balances |
| CoveV1.ApplyKeeps | packages/protocol/src/cove/validator.ts:161-230 | An accepted operation with a new txid keeps every token conserved and never changes an existing token's ticker or creator |
| CoveHistory.MintAcceptedExactly | packages/protocol/src/cove/validator.ts:64-160 | A mint is accepted exactly for a known token at the claimed supply, a positive whole number of tokens that are left, supported scripts and a price that is high enough and paid |
| CoveHistory.TransferAcceptedExactly | packages/protocol/src/cove/validator.ts:64-160 | A transfer is accepted exactly for a known token, a positive amount the actor holds, and two different supported scripts |
| CoveHistory.ReasonsAreTrue | packages/protocol/src/cove/validator.ts:46-160 | The reason given for a refusal is true of the operation |
| CoveHistory.BalancesAfter | packages/protocol/src/cove/validator.ts:161-230 | A mint credits its recipient and a transfer moves tokens from actor to recipient; no other balance of any token changes, and a deployment changes none |
| CoveHistory.TablesAfter | packages/protocol/src/cove/validator.ts:161-230 | The token, ticker, reserve and treasury entries after each accepted operation, and that every other entry is as before |
| CoveV1.HeldRemove | packages/protocol/src/cove/invariants.ts:18-26 | The sum of a token's balances does not depend on the order they are visited in |
| Indexer.CoveIndexer.ProcessTx | packages/cove-indexer/src/indexer.ts:91-155 | One transaction is classified, applied and recorded as specified, with replay protection and counters |
| CoveHistory.VerdictExactly | packages/cove-indexer/src/indexer.ts:91-155 | A candidate is valid exactly when its only envelope is at output 0 and the operation it states, with the script of input 0 acting and that of output 1 receiving, is not refused; every other verdict has its exact cause |
| CoveHistory.TxAfter | packages/cove-indexer/src/indexer.ts:91-155 | What one transaction leaves: the operation is applied exactly when its txid is new and it is valid, and a candidate adds one event, one txid and one count |
| Indexer.CoveIndexer.ProcessBlock | packages/cove-indexer/src/indexer.ts:76-89 | Refuses blocks below activation or out of sequence without a change, otherwise folds the block and reports whether the ledger is conserved |
| Indexer.AddBlockKeeps | packages/cove-indexer/src/indexer.ts:76-89 | The per-block assertion never throws, and no block changes a token's identity |
| Indexer.FoldKeeps | packages/cove-indexer/src/indexer.ts:57-155 | Over any chain the ledger is conserved, the replay set is the recorded txids, and every candidate is counted once as valid or invalid |
| CoveHistory.FoldCounts | packages/cove-indexer/src/indexer.ts:57-155 | The counters of a fold are the chain's blocks and transactions, and its last height is the chain's |
| CoveHistory.BalancesAreTheLog | packages/cove-indexer/src/indexer.ts:57-155 | On any chain what anyone holds of a token is what the valid events of the log minted and transferred to them, less what they sent |
| Indexer.AgreesOrClashes | packages/cove-indexer/src/indexer.ts:91-155 | An index with the clean ledger but a different memory stays in agreement over the next block or records one txid at two heights |
| Store.CoveStore.PersistBlock | packages/cove-indexer/src/store.ts:166-285 | One block is written to all tables or, when the replay guard throws, to none |
| Store.EventWrites | packages/cove-indexer/src/store.ts:177-214 | An event writes the row of its txid alone: a new one in full, of a known one place, verdict and reason only |
| Store.TokensWritten | packages/cove-indexer/src/store.ts:215-231 | No token row goes; a known one keeps ticker and creator and takes the state's supply and stage, a new one is the state's |
| Store.BlockWrites | packages/cove-indexer/src/store.ts:166-285 | A persisted block adds its block row and checkpoint at its height, replaces the balances, and moves the cursor without touching the flag |
| Store.CoveStore.WriteBalances | packages/cove-indexer/src/store.ts:232-268 | Upserting and pruning leaves exactly the balances of the state |
| Store.CoveStore.WriteTokens | packages/cove-indexer/src/store.ts:215-231 | Upserting leaves the first ticker and creator of a known token and the new supply and stage |
| Store.CoveStore.GetLatestCheckpoint | packages/cove-indexer/src/store.ts:287-297 | The checkpoint of greatest height, or nothing when there is none |
| Store.CoveStore.ClearCove | packages/cove-indexer/src/store.ts:299-308 | Empties every table, the cursor row included |
| Store.ReplayGuardThrowsExactly | packages/cove-indexer/src/store.ts:184-197 | The guard throws exactly when a txid occurs at two heights among the events or against a stored row |
| Store.RewritingTheLog | packages/cove-indexer/src/store.ts:184-214 | Writing the whole event log again over an earlier part of it never throws and leaves exactly the log |
| Worker.CoveWorker.ScanAndPersist | packages/cove-indexer/src/cli.ts:197-226 | The scan loop folds and persists block after block until it ends or the process dies |
| Worker.CoveWorker.RebuildFromGenesis | packages/cove-indexer/src/cli.ts:278-288 | Flag, clear, scan from activation, unflag, dying at any write |
| Worker.CoveWorker.Poll | packages/cove-indexer/src/cli.ts:270-319 | One poll compares cursor and chain and rebuilds, skips, waits or moves on as specified |
| Worker.CoveWorker.Start | packages/cove-indexer/src/cli.ts:237-263 | Start-up replays to the cursor and comes up exactly when the latest checkpoint is the cursor's with the same root |
| Worker.CheckpointsOfTheChain | packages/cove-indexer/src/store.ts:269-284 | The clean checkpoint table has one entry per height, with that block's hash and the root of the fold up to it |
| Worker.PollKeeps | packages/cove-indexer/src/cli.ts:270-319 | Every poll keeps the tables a clean fold of the chain at the cursor, and a completed one brings them to the tip |
| Worker.CompletedPollIsCleanFold | packages/cove-indexer/src/cli.ts:237-319 | After any history of restarts, polls, reorganisations and deaths, a completed poll leaves token, balance, checkpoint, block and cursor tables equal to the clean fold of the current chain up to its tip |
| CoveHistory.StoredBalancesAreTheLog | packages/cove-indexer/src/cli.ts:237-319 | After any history that ends with a completed poll, every stored balance is what the valid events on the current chain minted and transferred to its owner, less what they sent |
| Worker.RebuildShowsExactly | packages/cove-indexer/src/store.ts:143-160 | A rebuild shows the rebuilding flag only between raising it and clearing; from then on, at whatever write the process dies, it is down |
| Worker.RestartComesUpExactly | packages/cove-indexer/src/cli.ts:237-263 | A restart comes up exactly when the chain reaches the cursor and replays to the stored ledger |
| Worker.FirstScanDies | packages/cove-indexer/src/cli.ts:278-288 | A worker left below activation by a rebuild over a short chain dies at its next scan without writing |
| WorkerProgress.FoldEventsAreDistinct | packages/cove-indexer/src/indexer.ts:91-155 | On a chain with unique txids every Cove transaction is recorded once |
| WorkerProgress.PollCompletesExactly | packages/cove-indexer/src/cli.ts:270-319 | A worker that remembers its own chain completes a poll exactly when the process lives long enough; neither the ledger assertion nor the replay guard throws, and the operations table stays the event log |
| WorkerProgress.RestartOnTheSameChain | packages/cove-indexer/src/cli.ts:237-263 | A restart on the chain the cursor is on always comes up, remembering exactly that chain |
| WorkerProgress.OfflineReorgStopsRestarts | packages/cove-indexer/src/cli.ts:237-263 | A worker that indexed a deployment and went down stays down with its tables unchanged, through any starts, polls and kills, as long as no start finds the deployment in the first block again |
| WorkerProgress.GrowingBackKillsTheWorker | packages/cove-indexer/src/cli.ts:278-319 | When the tip falls below the height before activation, the poll completes with empty tables, and the first poll after the tip grew dies without a write |
| WorkerProgress.FallAndRiseKillsTheWorker | packages/cove-indexer/src/cli.ts:278-319 | A run from an empty database that does so: one block, a tip of 1 under activation at 3, a tip of 4 |
| WorkerProgress.RebuildDiesUnseen | packages/cove-indexer/src/cli.ts:278-288 | A run from an empty database in which a rebuild dies after clearing leaves empty tables without the flag |
| Bytes.BigEndianReads | packages/cove-mainnet/src/profile.ts:229-232 | A fixed-width big-endian integer reads back |
| Bytes.HexReads | packages/cove-mainnet/src/profile.ts:234 | Hex text reads back in lower case, without a last odd digit |
| Profile.ValidateMainnetProfile | packages/cove-mainnet/src/profile.ts:143-225 | Reports no error exactly for complete profiles that match the frozen constants |
| Profile.CheckRecovery | packages/cove-mainnet/src/profile.ts:168-182 | Accepts exactly 2-of-3 or 1-of-1 over distinct curve points without the guardian key and a 16-bit delay |
| Profile.CheckFees | packages/cove-mainnet/src/profile.ts:184-192 | Accepts exactly a standard fee script with the three rates between 0 and 10,000 |
| ProfileCodec.NormalizeThenLower | packages/cove-mainnet/src/profile.ts:104-106 | Sorting keys by lower case and lowering them is sorting the lowered keys |
| ProfileCodec.DecodeRecovers | packages/cove-mainnet/src/profile.ts:229-279 | A decoder recovers the normal form of every encodable profile, complete or not |
| ProfileLayout.SectionsInOrder | packages/cove-mainnet/src/profile.ts:241-279 | The canonical bytes are header, recovery, fees, protocol surface and canary limits, one after the other |
| ProfileLayout.HeaderIs | packages/cove-mainnet/src/profile.ts:241-248 | Version, chain, activation height, policy, vault profile and guardian key, in this order and these widths |
| ProfileLayout.RecoveryIs | packages/cove-mainnet/src/profile.ts:249-253 | Threshold, delay, key count and the keys in lower-case order |
| ProfileLayout.CanaryIs | packages/cove-mainnet/src/profile.ts:266-276 | Six caps in this order, then wallets and token ids, each counted and sorted |
| ProfileCodec.SameBytesExactly | packages/cove-mainnet/src/profile.ts:241-279 | Two encodable profiles have the same bytes exactly when they agree up to hex case, list order and a last odd digit of the fee script |
| ProfileCodec.WholeScriptsAreInjective | packages/cove-mainnet/src/profile.ts:240-279 | With whole-byte fee scripts the bytes are equal exactly when the profiles agree up to hex case and list order |
| ProfileCodec.ValidEncodesExactly | packages/cove-mainnet/src/profile.ts:229-279 | A valid profile has bytes exactly when its heights, caps and lists fit their field widths |
| ProfileCodec.OddDigitIsInvisible | packages/cove-mainnet/src/profile.ts:109-118 | Adding a hex digit to a valid fee script gives another valid profile with the same bytes |
| ProfileCodec.OddDigitWitness | packages/cove-mainnet/src/profile.ts:109-118 | A complete 1-of-1 profile with a P2WPKH fee script and the same profile with one more digit are both valid and have the same bytes |
| Format.ParseOfDisplay | packages/cove-app/src/format.ts:11-47 | Parsing what was displayed gives every amount back |
| Format.DisplayIsShortest | packages/cove-app/src/format.ts:42-47 | The display of an accepted text has its value, no superfluous zeros, is no longer than the text, and is the text itself when that was canonical |

## Left out

- Hashes, scripts and roots are injective terms: a state script is its state and key, a block hash its chain, a state root its ledger. Signatures, curve membership and the lists of public test keys are booleans or parameters.
- Node, database, address decoding and PSBT encoding are parameters or tables; a database transaction is one atomic step. Refusals inside the Bitcoin library (duplicate inputs in a mint PSBT, outputs above 21 million BTC) and the rounding of amounts above 2^53 are not modelled.
- Psbt.OwnPayloadIsLimited: the push encoding is that of bitcoinjs-lib's script compiler, which is not part of this repository; it is restated as `Psbt.Push`.
- Ledger.AcceptOp: no single function of the repository resolves, validates and updates; its parts are the resolver's, the transfer and redemption checks of `packages/cove-covenant/src/tokenUtxo.ts` and the transitions, and putting them together is this model's.
- CoinSelection.SelectionSpendsOnceExactly: takes one value per outpoint as given; the coins are looked up at the node one by one, and what those lookups answer is a parameter.
- Ledger.TokensAreConserved: is about runs of accepted operations whose txids never repeat; a refused transfer or redemption leaves the view partly changed, as the code does, and such a view is not continued.
- MarketSafety.ReachableStatesAreCoupled: treats finalise and broadcast as one step and broadcast txids as distinct, which the unique index on fill txids enforces; the partial unique index on listing sources only blocks steps and is not modelled. What happens without atomicity is stated by MarketSafety.LateBroadcast.
- Market.MarketService.CreateListing: does not model the chain identity, readiness, expiry window, signature, source, dust and cap checks before the insert.
- Market.MarketService.CancelListing: does not model the cancellation signature and the row that records it.
- Market.MarketService.ReserveListing: does not model the reservation signature, the ownership and carrier checks of the funding coins and the source check.
- Market.MarketService.FinalizeAndBroadcastFill: one step for finalise and broadcast; does not model the settlement cap, the validation of the final transaction and the broadcast itself.
- Market.MarketService.Advance: does not model the contents of the signed PSBTs, only the stages.
- MintTx.ValidateMintTx: states which transactions are accepted and which exit is unreachable, not which of the other reasons a refused one is given.
- Psbt.BuildUnsignedPsbt: states which parameters are refused, not which error is reported first.
- Profile.ValidateMainnetProfile: states when the error list is empty, not its contents or order.
- Journal.GrantsAreSpaced: a release by any caller that removes the row counts; the stronger statement about the first digest is Journal.CloseGrantsNeedRelease, and Journal.PromiseHoldsExactly says for which samples it holds.
- Worker.CompletedPollIsCleanFold: holds the chain fixed during a start and during a poll and lets it change in between, as the worker has no parent-hash check during a scan. It does not cover the operations table, which after a restart on a chain that later flips back may hold rows of the other chain; WorkerProgress.PollCompletesExactly covers it for a worker that remembers its own chain.
- CoveV1.ApplyKeeps: takes the curve price, the fee and the checks of the output layout as parameters.
- CoinSelection.PickCarriers: does not say which of several carriers equal in amount and txid is taken.
- The overlay of a pending vault row over the confirmed view, listings of tokens and holders, session storage and submission are reads and writes without branching rules.
- The V3 indexer, the V3 Guardian builders, envelope parsing, metadata, health reports, readiness flags and command-line output are not part of this model.
- The byte layout of the two covenant states beyond what the witness and the V1 stage limit need, and parsing sats and BTC text, would add only easy members.

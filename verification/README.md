# Verified model of the XChain encoder

A Dafny model of the parts of the encoder whose correctness spans calls: who may spend an
outpoint, what a transaction pays, what a carrier's scripts give back, which process runs.
`dafny verify dfyconfig.toml` checks everything.

| part | files |
|---|---|
| Outpoint reservations: the four maps in place, then every interleaving of builds over them | `OutpointStore`, `ReservationMaps`, `InputClaims`, `ReservationProtocol`, `ReservationInvariant`, `ReservationSteps`, `ReservationRuns`, `ReservationTheorems`, `ReservationContracts`, `ReservationRecords`, `LoneCall`, `ReservationLimits` |
| Money from commit to reveal: rates, fees, legs, prefund, change, cancel | `Fees`, `RevealSizes`, `TransactionSize`, `CommitReveal`, `Settlement`, `FundingTransaction`, `CancelSweep` |
| Payload carriers and the size pre-check | `Script`, `Carriers`, `ScriptEval`, `SizeCheck`, `CarriedPayload` |
| The single-instance lock | `InstanceLock`, `LockTheorems` |
| Candidate inputs | `InputCandidates` |
| Consensus pin preimage, log shipper, split grading | `CanonicalJson`, `JsonReader`, `LogShipper`, `SplitGrading` |
| Shared | `Common`, `Lexicographic` |

Code that changes state is written as classes and methods, each proved to compute a function of
the old state; the theorems are about those functions and about runs of them. In
`ReservationProtocol` an action is a stretch the encoder runs without yielding, or a piece of
one, so every schedule of the event loop is a run. In `InstanceLock` an action is one
file-system call or one look at a process.

What the encoder estimates is measured against references of its own: `TransactionSize` weighs
finished transactions by the serialisation of BIP 141 and BIP 144, `ScriptEval` runs the scripts,
`JsonReader` reads the canonical text by the grammar of RFC 8259.

## What the proofs found

- **Two returned builds with live receipts can spend one input.** A receipt lasts as long as its
  latest claim, while the claims of one build carry different stamps: the key-bound first input is
  claimed earlier than the others, and selection takes it without looking at the map again. Its
  claim may lapse during the node reads of the selection loop, or after the call returned, and
  from then on another call can come to spend it. `LapsedInputCanBeSpentAgain` gives the exact
  limit, on the build's own ledger: an input can be shared, by a call that starts now, from the
  moment the build's own claim on it lapses and not before, reserved or not. A receipt shows only
  the latest expiry, so its holder cannot read that moment off it.
  `DoubleSpendReachable` is a run: the key bound a millisecond before selection starts. What holds
  in all runs is `NoDoubleClaim` and `ReturnedBuildsShareOnlyLapsedInputs`: live claims never clash.
- **Selection can stop short.** The stop test compares with the larger of fee and dust, while the
  floor charged later is dust plus the soft-dust surcharge. `StoppingIsEnoughIff` is the exact
  condition; `DogecoinStopsShort` reaches the refusal with Dogecoin's own floors.
- **An overlapping cancel takes the earlier one's receipt.** A cancel's claim goes on its receipt
  only while its expiry is the map's value, so of two overlapping cancels the earlier may return
  without a receipt while its owner token is still live: `CancelGetsReceiptIff`,
  `EarlierCancelGetsNoReceipt`. The token then holds the outpoint until it lapses.
- **A cancel priced by the node may not relay.** The relay minimum is checked only against a rate
  the caller named, and the node's rate is not lifted to the floor as a build's is. A cancel relays
  exactly when dust covers its relay minimum, or the node's estimate and the rate ceiling both
  reach the minimum's last unit (`NodeRatedCancelRelaysIff`); an estimate and a ceiling at the
  relay floor always suffice (`RateAtTheFloorRelays`), and where dust covers the minimum no rate is
  too low (`EveryRateRelaysIff`). `CancelUnderRelay` is a cancel that is built and will not relay.

What the build compiles always comes back: a lone byte that a script would turn into an opcode is
the only payload the script carriers cannot hold (`ScriptHashRoundTrip`, `EnvelopeRoundTrip`), and
no compiled payload is one (`CompiledIsNotLone`).

## Model

| member | source | states |
|---|---|---|
| ReservationMaps.ReservationMaps.ReleaseReservation | src/XChainEncoder/outpoint_reservations.js:245-286 | the release sweeps the four maps, settles each claim of a live ticket, and retires the duplicate-build record, as `ReleaseTicket` says |
| ReservationMaps.ReservationMaps.MintReservationTicket | src/XChainEncoder/outpoint_reservations.js:201-227 | the receipt names the claims whose stamp is still the map's, expires with the last of them, and remembers the record's stamp |
| ReservationMaps.ReservationMaps.DropCancelOwner | src/XChainEncoder/outpoint_reservations.js:128-139 | one owner leaves; the reservation becomes the highest live expiry left, and the answer says whether one is left |
| ReservationMaps.ReservationMaps.MaxLiveCancelOwnerExpiry | src/XChainEncoder/outpoint_reservations.js:112-120 | the highest expiry among the owners still live, None when none is |
| ReservationMaps.ReservationMaps.ReleaseEnvelopeCancelClaims | src/XChainEncoder/outpoint_reservations.js:149-161 | a failed cancel gives up its tokens, then releases only the claims nobody else holds |
| ReservationMaps.ReservationMaps.ReleaseCallReservations | src/XChainEncoder/outpoint_reservations.js:99-105 | stamp-checked release of a ledger |
| ReservationMaps.ReservationMaps.RefuseDuplicateBuild | src/XChainEncoder/outpoint_reservations.js:43-63 | refuses a transaction built within the window, else records it |
| ReservationMaps.ReservationMaps.IsOutpointReserved | src/XChainEncoder/outpoint_reservations.js:67-75 | an expiry at or before now is free and is dropped on the way |
| ReservationMaps.ReservationMaps.ClaimCommitOutpoint | src/XChainEncoder/envelope_cancel.js:75-122 | a cancel claims a free outpoint or one only cancels hold, and adds its own token |
| ReservationMaps.ReservationMaps.EvictExpiredEnvelopeCancelClaims | src/XChainEncoder/outpoint_reservations.js:166-173 | exactly the unexpired tokens stay, and an outpoint with none goes |
| ReservationMaps.ReservationMaps.StillHeld | src/XChainEncoder/outpoint_reservations.js:203-211 | the claims still stamped, in ledger order |
| OutpointStore.StillStampedContents | src/XChainEncoder/outpoint_reservations.js:203-211 | a claim is kept exactly when it was on the ledger and the map still holds its stamp |
| OutpointStore.FirstFree | src/XChainEncoder/build_transaction/first_input_key.js:113-117 | every candidate before the one bound is reserved, and it is not |
| InputClaims.BuildInputs.BindObfuscationKey | src/XChainEncoder/build_transaction/first_input_key.js:25-80 | binding the key in place, in both input modes, is the protocol's Bind step |
| InputClaims.BuildInputs.ClaimFirstFreeInput | src/XChainEncoder/build_transaction/first_input_key.js:110-137 | claims the first free candidate, moves it to the head and keeps the order of the rest; claims nothing when all are held |
| InputClaims.BuildInputs.ClaimExactInputs | src/XChainEncoder/build_transaction/first_input_key.js:83-107 | claims every named outpoint, or refuses exactly when one is held |
| InputClaims.BuildInputs.SkipReservedInput | src/XChainEncoder/build_transaction/input_selection.js:218-247 | skips exactly a candidate another build holds, else claims it once |
| InputClaims.BuildInputs.SelectTurn | src/XChainEncoder/build_transaction/input_selection.js:111-154 | one turn of the loop, judged at the clock read before the loop, is the protocol's SelectNext step |
| ReservationRuns.StepKeeps | src/XChainEncoder.js:206-218 | every action keeps the invariant: live claims are what the maps say, have one owner, and have receipts and records that match |
| ReservationRuns.RunInv | src/XChainEncoder.js:243-277 | so does every interleaving of builds, cancels, failures, releases, evictions and clock ticks |
| ReservationTheorems.NoDoubleClaim | src/XChainEncoder/outpoint_reservations.js:65-105 | in every run two builds hold live claims on one outpoint only when both are cancels |
| ReservationTheorems.ReturnedBuildsShareOnlyLapsedInputs | src/XChainEncoder/build_transaction/input_selection.js:104-156 | returned builds share a spent input only when a claim on it has lapsed |
| ReservationLimits.LapsedInputCanBeSpentAgain | src/XChainEncoder/build_transaction/input_selection.js:235-247 | with no time passing, a call that starts now can come to spend a returned build's input beside it, both receipts live, exactly when that build's own claim on it has lapsed |
| LoneCall.LoneCallReturnsIff | src/XChainEncoder/build_transaction/input_selection.js:218-247 | a call on one outpoint returns exactly when nobody holds it |
| ReservationLimits.DoubleSpendReachable | src/XChainEncoder/build_transaction/first_input_key.js:41-48 | a run ends with two live receipts whose builds spend one input |
| ReservationContracts.ReservedIffHeld | src/XChainEncoder/outpoint_reservations.js:107-126 | an outpoint is reserved exactly while a live claim is on it, at the highest expiry among its live claims |
| ReservationContracts.OwnersLeaveInAnyOrder | src/XChainEncoder/outpoint_reservations.js:128-161 | cancels of one outpoint may leave in any order, at different times, by failing or by their tickets, equal expiries included, while others lapse: what is live afterwards depends only on who left |
| ReservationContracts.ClaimSurvives | src/XChainEncoder/outpoint_reservations.js:91-105 | whatever action happens, a live claim stays and stays stamped until it lapses or its own build gives it up |
| ReservationContracts.OthersKeepTheirClaims | src/XChainEncoder/payload_preparation.js:157-169 | a failed build or a released receipt leaves every other build's live claims as they were |
| ReservationContracts.CreateReceiptSettles | src/XChainEncoder/outpoint_reservations.js:229-286 | released and retained partition the ticket's claims, by whether they lapsed; none of the build's claims is left; its duplicate-build record always goes |
| ReservationContracts.CancelReceiptSettles | src/XChainEncoder/outpoint_reservations.js:261-277 | a cancel's receipt gives its token up and frees the outpoint exactly when no other build holds it |
| ReservationContracts.ReceiptWorksOnce | src/XChainEncoder/outpoint_reservations.js:255-258 | a presented ticket is unknown from then on, and a second call only evicts |
| ReservationContracts.SettleFreesStamped | src/XChainEncoder/outpoint_reservations.js:261-277 | a create ticket releases exactly the claims still stamped, in order |
| ReservationContracts.CancelGetsReceiptIff | src/XChainEncoder/outpoint_reservations.js:201-212 | a live cancel gets a receipt exactly when no live claim on its outpoint outlasts it |
| ReservationContracts.EarlierCancelGetsNoReceipt | src/XChainEncoder/envelope_cancel.js:218-232 | a retry a millisecond later leaves the first cancel without a receipt |
| ReservationContracts.LedgerIsInputs | src/XChainEncoder/build_transaction/first_input_key.js:30-48 | past selection the claimed outpoints are exactly the spent inputs, in order, and the key-bound one is input 0 |
| ReservationContracts.RaceOnlyIfAllHeld | src/XChainEncoder/build_transaction/input_selection.js:362-397 | the first-input race refusal is reachable only when every candidate was held as the key was bound |
| ReservationContracts.KeyIsInputZero | src/XChainEncoder/build_transaction/input_selection.js:362-397 | in every run a create build past selection spends something, and a payload that is obfuscated has the txid of input 0 as its key |
| ReservationContracts.StopRefusesIff | src/XChainEncoder/build_transaction/input_selection.js:325-397 | selection ends in a refusal exactly when nothing was selected or a binding key is not input 0's txid |
| ReservationRecords.DuplicateIsRefusedIff | src/XChainEncoder/outpoint_reservations.js:43-63 | in every run the gate turns a build away exactly while another build, finished or returned and not handed back, answers for the same transaction; else the build answers for it until its record lapses |
| ReservationRecords.RunHolds | src/XChainEncoder/outpoint_reservations.js:229-286 | no unexpired duplicate-build record outlives the build that made it |
| ReservationRuns.MoveToFrontReorders | src/XChainEncoder/build_transaction/first_input_key.js:120-125 | the splice is a permutation that keeps the order of the rest |
| Fees.FeeSubadditive | src/XChainEncoder/fee_policy.js:121-137 | parts priced apart cost at least the whole, and at most one unit more |
| Fees.FeeMonotone | src/XChainEncoder/fee_policy.js:121-137 | more bytes or a higher rate never cost less |
| Fees.RatesAreBounded | src/XChainEncoder/fee_policy.js:86-112 | the charged rate never exceeds the operator cap, the caller's own rate, or 100 times the node's |
| Fees.NodeRateIsTheNearest | src/XChainEncoder/build_transaction/fee_rates.js:86-120 | the rate a build is given is the one nearest the node's estimate among those from the relay floor up to the suggested cap or ten times that floor |
| Fees.ChargedRateIsTheHighestAllowed | src/XChainEncoder/build_transaction/fee_rates.js:122-166 | the rate charged is the highest that the caller or node, the operator's caps and the backstop allow; refused exactly without a relay floor, or without an estimate where none was named |
| Fees.NodePricedUnderRelayIff | src/XChainEncoder/build_transaction/fee_rates.js:86-166 | a node-priced build falls under the relay floor exactly when a ceiling lies under it |
| Fees.RatePricedFeeIsFair | src/XChainEncoder/fee_policy.js:99-111 | a rate-priced fee is at most 100 times the fair fee for its size |
| Fees.UpliftReachesTarget | src/XChainEncoder/fee_policy.js:65-84 | the package uplift is the least that brings ancestors and child to the target rate |
| Fees.SoftDustSurchargeFor | src/XChainEncoder/fee_policy.js:142-150 | the whole soft limit once for each value output under it |
| Fees.SurchargeCounts | src/XChainEncoder/fee_policy.js:139-150 | the surcharge is the number of value outputs under the soft limit times that limit |
| RevealSizes.EstimateP2wshRevealTx | src/XChainEncoder/size_estimation.js:226-244 | computes `RevealSize`, which `TransactionSize` measures against the reveal's real weight |
| RevealSizes.EstimateP2shRevealTx | src/XChainEncoder/size_estimation.js:152-164 | computes `RevealSize`, measured the same way |
| RevealSizes.ExtraBytesCostAtMostThemselves | src/XChainEncoder/size_estimation.js:152-244 | value outputs grow a reveal by at most their own bytes |
| TransactionSize.RevealIsCovered | src/XChainEncoder/size_estimation.js:131-244 | a reveal is never priced under its real virtual size, however it is signed, for both carriers |
| TransactionSize.RevealIsTight | src/XChainEncoder/size_estimation.js:131-244 | nor at more than its margin over it: 8 bytes, or 8 an input |
| TransactionSize.LegIsItsOwnReveal | src/XChainEncoder/size_estimation.js:119-224 | one leg is priced as a reveal of its own chunk, its pad included |
| TransactionSize.StrippedIsMeasured | src/XChainEncoder/size_estimation.js:68-82 | the stripped size the pad decision reads is what a node measures |
| TransactionSize.EnvelopeIsCovered | src/build/tx_size_estimator.js:170-198 | an envelope reveal is priced at no less than its real virtual size, and within 2 bytes of it over the floor |
| TransactionSize.InputIsCovered | src/build/tx_size_estimator.js:40-120 | each kind of input is estimated at no less than it weighs when signed |
| TransactionSize.InputsAreCovered | src/XChainEncoder/build_transaction/input_selection.js:81-91 | with the framing bytes, so are all of them together |
| RevealSizes.PadIsPredicted | src/XChainEncoder/build_transaction/script_hash_legs.js:371-387 | the commit funds a floor pad exactly when the reveal's real stripped size makes it emit one |
| CommitReveal.CommitBuild.PriceRevealCustomOutputs | src/XChainEncoder/build_transaction/data_outputs.js:51-95 | the caller outputs' total, bytes, and the fee they add |
| CommitReveal.CommitBuild.SumRevealLegs | src/XChainEncoder/build_transaction/script_hash_legs.js:193-213 | the legs' own total and the fee the whole reveal needs |
| CommitReveal.CommitBuild.TopUpFirstLeg | src/XChainEncoder/build_transaction/script_hash_legs.js:170-191 | the first leg alone gets the shortfall and, without caller outputs, the sweep's floor |
| CommitReveal.CommitBuild.FundLeg | src/XChainEncoder/build_transaction/script_hash_legs.js:101-131 | one leg is worth its share, the first also the caller outputs and the headroom |
| CommitReveal.CommitBuild.EmitLegs | src/XChainEncoder/build_transaction/script_hash_legs.js:287-346 | the emitted legs are `LegValues`, the running total is their sum |
| CommitReveal.RevealBuild.EmitCustomOutputs | src/XChainEncoder/build_transaction/data_outputs.js:287-327 | on the reveal too the running total is the sum of the outputs, and the surcharge is theirs |
| CommitReveal.RevealBuild.Build | src/XChainEncoder/build_transaction/reveal_outputs.js:30-128 | the reveal emits the marker, the caller's outputs, then the pad or the sweep |
| CommitReveal.RevealBuild.ClampRevealUplift | src/XChainEncoder/build_transaction/reveal_outputs.js:183-214 | an uplift leaves the outputs and the sweep's floor their money |
| CommitReveal.RevealUpliftIsTheLargestAllowed | src/XChainEncoder/build_transaction/reveal_outputs.js:183-214 | the uplift kept is the largest that the package asks for, the bound allows and the outputs can spare |
| CommitReveal.CommitFundsReveal | src/XChainEncoder/build_transaction/script_hash_legs.js:101-213 | at the same or a lower rate the legs pay every caller output in order and the reveal's fee on its real size with the surcharge; with no caller output a value output of at least the floor is always left |
| CommitReveal.PricedSizePaysItsSize | src/XChainEncoder/build_transaction/reveal_outputs.js:95-128 | a fee for the emitted size reaches the rate on the virtual size the reveal really has, whatever signatures and last output it is finished with |
| CommitReveal.LegsAskNoMore | src/XChainEncoder/build_transaction/script_hash_legs.js:101-213 | each leg but the first costs what its chunk would as a reveal of its own; all of them come to the caller outputs with their fee, and what the whole reveal needs, and no more |
| CommitReveal.SweptRevealPaysExactly | src/XChainEncoder/build_transaction/reveal_outputs.js:95-128 | a swept reveal pays the largest of its rate's fee, one dust and the fee its caller named, the surcharge and the uplift, and no more |
| CommitReveal.UpliftReachesTheRate | src/XChainEncoder/build_transaction/reveal_outputs.js:139-181 | the uplift brings commit and reveal to the rate and no more, unless its bound or the surplus runs out |
| Settlement.FundingBuild.EmitEnvelopeCommit | src/XChainEncoder/build_transaction/data_outputs.js:228-285 | the commit output holds the reveal's fee, one dust and the pad, and the records agree with it |
| Settlement.FundingBuild.EmitMultisign | src/XChainEncoder/build_transaction/data_outputs.js:188-226 | the data output pays the larger of the build's and the relay's dust, and is in the books |
| Settlement.FundingBuild.EmitScriptHashLegs | src/XChainEncoder/build_transaction/script_hash_legs.js:38-131 | the legs, priced on the build's own chain and rate, enter the books with their sum, the first one named as the reveal's fee money |
| Settlement.FundingBuild.EmitCustomOutputs | src/XChainEncoder/build_transaction/data_outputs.js:287-327 | payments are emitted in order, refused exactly when one is not positive or under dust, and the surcharge is the whole output list's |
| Settlement.EnvelopeRevealConserves | src/XChainEncoder/build_transaction/reveal_outputs.js:263-313 | the Taproot reveal's outputs and fee sum to the commit output exactly, its change is one dust |
| Settlement.FundingBuild.SelectInputs | src/XChainEncoder/build_transaction/input_selection.js:104-156 | the candidates nobody else holds are added in order up to the first total that suffices, all of them for an exact set, and the size that fees are priced on grows by exactly their bytes; refused exactly when 500 do not suffice and more were left to look at |
| Settlement.AvailableMeans | src/XChainEncoder/build_transaction/input_selection.js:218-247 | what may be taken is exactly what nobody else holds, and an exact set whole |
| Settlement.SelectedSums | src/XChainEncoder/build_transaction/input_selection.js:274-323 | selection adds the values and the bytes of exactly the candidates taken |
| FundingTransaction.FloorIsSelectedFor | src/XChainEncoder/build_transaction/stripped_floor.js:45-77 | with candidates left, selection stops only where the build clears the node's stripped-size floor; a refusal there all the same means that change it counted on was taken by an uplift, a prefund or the surcharge |
| Settlement.FundingBuild.RemainingCandidatesCanFund | src/XChainEncoder/build_transaction/input_selection.js:173-187 | true exactly when the free candidates left would cover outputs and target fee, which picks the refusal at 500 inputs |
| Settlement.FundingBuild.AncestorUplift | src/XChainEncoder/build_transaction/fee_settlement.js:163-207 | the uplift within its bound, both ceilings and the inputs |
| Settlement.UpliftIsTheLargestAllowed | src/XChainEncoder/build_transaction/fee_settlement.js:163-207 | the uplift granted is the largest every bound allows |
| Settlement.GrantReachesTheRate | src/XChainEncoder/build_transaction/fee_settlement.js:105-207 | with the uplift granted the ancestors' package reaches its rate and no more, unless one unit more would pass a bound |
| Settlement.FundingBuild.PrefundRevealPackage | src/XChainEncoder/build_transaction/fee_settlement.js:220-303 | raises the commit output, the total and the envelope's records together |
| Settlement.FundingBuild.RaiseOutputValue | src/XChainEncoder/size_estimation.js:95-117 | only that output changes, by the uplift |
| Settlement.PrefundNeverOverspends | src/XChainEncoder/build_transaction/fee_settlement.js:262-303 | the prefund keeps the books and never makes a covered build short |
| Settlement.PrefundReachesTheRate | src/XChainEncoder/build_transaction/fee_settlement.js:220-260 | the pair's package reaches its rate and no more unless the bound or the change runs out |
| FundingTransaction.CommitAndRevealReachTheRate | src/XChainEncoder/build_transaction/fee_settlement.js:105-303 | a settled two-phase build whose reveal is not padded gives ancestors, commit and reveal together the build's rate and no more, unless the bound is met or no change is left |
| Settlement.FundingBuild.SettleFee | src/XChainEncoder.js:264-270 | relay and ceiling checks, uplift, floor, prefund, change and its emission, in that order |
| Settlement.FeeSandwich | src/XChainEncoder/build_transaction/fee_settlement.js:28-103 | inputs minus outputs are at least the relay minimum plus surcharge and at most the burn ceiling plus surcharge plus one output floor |
| Settlement.SettleRefusals | src/XChainEncoder/build_transaction/fee_settlement.js:28-103 | every refusal of settlement, with the exact condition it is reached on |
| Settlement.ChangeIsExact | src/XChainEncoder/build_transaction/fee_settlement.js:305-356 | of the inputs, what is left over the outputs and the fee charged is the change output in full, or goes to the fee where it is under the floor or has no address; nothing is left unaccounted |
| Settlement.FinalFee | src/XChainEncoder/build_transaction/fee_settlement.js:305-356 | change too small to emit folds into the fee and is under one output floor |
| Settlement.SettledOutputs | src/XChainEncoder/build_transaction/fee_settlement.js:220-303 | settlement raises the prefunded output and its records by one amount and may append change, whose amount `ChangeIsExact` gives; nothing else moves |
| FundingTransaction.DataBytesAreExact | src/XChainEncoder/build_transaction/data_outputs.js:152-285 | the data outputs' bytes that fees are priced on are the bytes they serialise to |
| FundingTransaction.TransactionIsCharged | src/XChainEncoder/build_transaction/input_selection.js:33-78 | the finished transaction is never larger than the bytes its fee was charged for |
| FundingTransaction.KeptPays | src/XChainEncoder/build_transaction/data_outputs.js:152-327 | of the finished outputs those that carry data reach the build's dust, a bare multisig's its own, every payment is paid to the unit, and change reaches the output floor |
| FundingTransaction.SettledCommitFundsReveal | src/XChainEncoder/build_transaction/script_hash_legs.js:101-213 | once settled, a script-hash commit's legs still fund every reveal of it at its rate or a lower one |
| FundingTransaction.SettledEnvelopeIsFunded | src/XChainEncoder/build_transaction/data_outputs.js:228-285 | once settled, a Taproot commit output is spent exactly by its reveal, at no less than the fee it was sized with |
| FundingTransaction.EnvelopeIsTight | src/XChainEncoder/build_transaction/data_outputs.js:228-285 | the envelope's reveal fee is for at most two bytes over its real size, and its pad rides exactly when the change alone would be under the floor |
| FundingTransaction.BuildTransaction | src/XChainEncoder.js:243-277 | a whole funding build of any carrier, end to end: which inputs it takes, exactly how it ends for them, every output in place and every unit accounted for, a fee within the sandwich on the bytes it has and at the relay rate on the transaction as finished, over the stripped-size floor, its reveal funded; with a surcharge of at most 1, refused for want of funds only when all free candidates together do not pass the stop test |
| Settlement.StoppingIsEnoughIff | src/XChainEncoder/build_transaction/input_selection.js:73-78 | every total the loop may stop at covers the final fee exactly when the surcharge is at most 1 or the size fee is within 1 of dust |
| Settlement.EnoughIsNotRefused | src/XChainEncoder/build_transaction/fee_settlement.js:305-349 | a build that meets the stop test with at most 1 of surcharge is not refused for want of funds |
| Settlement.DogecoinStopsShort | src/XChainEncoder/build_transaction/fee_settlement.js:209-218 | a build that meets the stop test and is refused for insufficient funds |
| CancelSweep.SizeCancelSweep | src/XChainEncoder/envelope_cancel.js:163-197 | sweep, pad and fee sum to the commit value; both refusals exactly when the amounts say so |
| CancelSweep.CancelIsCovered | src/XChainEncoder/envelope_cancel.js:163-175 | a cancel is priced at no less than its real virtual size and within 2 bytes of it over the floor, and pads exactly when the sweep alone is under the floor |
| CancelSweep.CancelRateIsTheHighestAllowed | src/XChainEncoder/envelope_cancel.js:124-160 | the rate is the highest the caps allow up to the caller's or the node's, never lifted to the relay floor; refused exactly without a relay floor or any rate |
| CancelSweep.CancelRelaysIff | src/XChainEncoder/envelope_cancel.js:173-186 | at a given rate a cancel relays exactly when dust covers its relay minimum or the rate times its size passes all but the last unit of it |
| CancelSweep.NodeRatedCancelRelaysIff | src/XChainEncoder/envelope_cancel.js:129-186 | without a named rate it relays exactly when dust covers the minimum, or the node's estimate and the rate ceiling each reach its last unit |
| CancelSweep.RateAtTheFloorRelays | src/XChainEncoder/envelope_cancel.js:129-186 | an estimate and a ceiling no lower than the relay floor suffice, whatever the destination |
| CancelSweep.EveryRateRelaysIff | src/XChainEncoder/envelope_cancel.js:184-186 | every rate relays exactly when one dust covers the relay minimum |
| CancelSweep.CancelUnderRelay | src/XChainEncoder/envelope_cancel.js:176-186 | a cancel that is built under the relay minimum |
| Script.DecompileCompile | src/XChainEncoder/build_transaction/payload_checks.js:168-215 | decompiling a compiled script gives its elements back, canonicalised pushes as opcodes |
| Carriers.SliceChunks | src/XChainEncoder/payload_encodings.js:115-147 | the loop and the rebalance compute `Chunks` |
| Carriers.ChunksFacts | src/XChainEncoder/payload_encodings.js:233-261 | the pieces join to the data, fit the size, and none compiles to an opcode unless the whole payload does |
| Carriers.ChunkCount | src/XChainEncoder/payload_encodings.js:115-147 | there are no more pieces than it takes |
| Carriers.ScriptHashPayload | src/XChainEncoder/payload_encodings.js:65-113 | one redeem script a chunk |
| Carriers.ScriptHashRoundTrip | src/XChainEncoder/payload_encodings.js:65-147 | reading the redeem scripts gives the payload back unless it is one minimal-opcode byte |
| Carriers.RedeemScriptsFit | src/XChainEncoder/payload_encodings.js:92-107 | each redeem script is at most 505 bytes |
| CarriedPayload.CompiledScriptsFit | src/XChainEncoder/payload_encodings.js:92-107 | a payload within the legacy ceiling has redeem scripts, at least one, that the reveal sizes measure |
| ScriptEval.RedeemUnlocksIff | src/XChainEncoder/payload_encodings.js:68-107 | a redeem script is spent by a signature and a key, and nothing else, exactly when the key hashes to the one paid and the signature verifies under it, whatever data it carries |
| Carriers.EnvelopePayload | src/XChainEncoder/payload_encodings.js:189-231 | the tapscript leaf over the 32-byte key |
| Carriers.EnvelopeRoundTrip | src/XChainEncoder/payload_encodings.js:189-261 | reading the leaf gives the payload back, with the same one exception |
| Carriers.EnvelopeElementsFit | src/XChainEncoder/payload_encodings.js:216-225 | no pushed element is empty or over 520 bytes |
| ScriptEval.LeafUnlocksIff | src/XChainEncoder/payload_encodings.js:189-231 | the leaf is spent by one signature that verifies under its key, whatever it carries |
| Carriers.MultisignPayload | src/XChainEncoder/payload_encodings.js:149-187 | the padded slots, 60 payload bytes each |
| Carriers.SlotsRoundTrip | src/XChainEncoder/payload_encodings.js:162-184 | without the magic the slots join to the payload and fewer than 60 zeros |
| Carriers.SlotsShape | src/XChainEncoder/payload_encodings.js:162-184 | every slot is 64 bytes behind the magic word |
| Carriers.OpReturnPayload | src/XChainEncoder/payload_encodings.js:30-63 | one nulldata output, refused exactly when it would pass 80 bytes |
| SizeCheck.PushSizeIsExact | src/common/validator/action_data_checks.js:65-94 | the size formula is the compiler's framing in every band and for the empty push, except a minimal-opcode byte |
| SizeCheck.PredictionIsExact | src/common/validator/action_data_checks.js:194-215 | the predicted size of a payload the push guard accepts is the compiled length |
| SizeCheck.PartsComeBack | src/XChainEncoder/build_transaction/payload_checks.js:195-214 | decompiling gives every part sent back exactly when they hold bytes |
| CarriedPayload.CompiledIsNotLone | src/XChainEncoder/payload_encodings.js:247-250 | no compiled payload is the one byte the script carriers cannot hold |
| CarriedPayload.ScriptHashCarries | src/XChainEncoder/payload_encodings.js:65-147 | the redeem scripts give back whatever the build compiled |
| CarriedPayload.EnvelopeCarries | src/XChainEncoder/payload_encodings.js:189-261 | so does the envelope leaf |
| CarriedPayload.MultisignCarries | src/XChainEncoder/payload_encodings.js:149-187 | the padded slots read as the compiled elements and then fewer than 60 empty pushes |
| CarriedPayload.CarriersReturnTheParts | src/XChainEncoder/build_transaction/payload_checks.js:168-215 | through each chunked carrier the action text and the raw part come back exactly when they hold bytes |
| SizeCheck.CeilingsAgree | src/XChainEncoder/build_transaction/payload_checks.js:248-282 | the pre-check and the build accept the same payloads for every named carrier and none |
| SizeCheck.AutoRefusesLater | src/XChainEncoder/size_estimation.js:37-66 | under AUTO the build refuses later exactly when a legacy carrier was chosen for over 8,192 bytes |
| SizeCheck.AutoFitsIffSomethingDoes | src/XChainEncoder/size_estimation.js:37-66 | AUTO picks a carrier the signer can use, one nulldata output where the payload fits it, and one that fits exactly when any does |
| InstanceLock.RunInv | src/server/single_instance_guard.js:287-315 | the invariant of every run: records, mutex, judged texts and holders agree |
| InstanceLock.JudgedStale | src/server/single_instance_guard.js:303-310 | a record is judged stale only when its writer is gone |
| LockTheorems.MutualExclusion | src/server/single_instance_guard.js:151-175 | two live processes never both hold the lock |
| LockTheorems.OnlyTheHolderRemovesItsRecord | src/server/stale_lock_breaker.js:47-54 | while a live process holds, only its own release changes the lock file |
| LockTheorems.ReleaseFreesTheLock | src/server/single_instance_guard.js:248-262 | in every run a holder's undisturbed release removes the lock file |
| LockTheorems.ReleasingRemovesItsRecord | src/server/single_instance_guard.js:254-260 | a release that has read its own record removes that record |
| LockTheorems.ForeignRecordIsLeft | src/server/single_instance_guard.js:254-260 | a process whose record is not in the file leaves the file alone |
| LockTheorems.ReleasedLockIsTaken | src/server/single_instance_guard.js:264-315 | after a release the next boot takes the lock, though the process that gave it up lives on |
| LockTheorems.HolderRefusesTheBoot | src/server/single_instance_guard.js:212-239 | while a live process holds, an undisturbed boot of another throws and leaves both files as they were |
| LockTheorems.LiveHolderIsNotJudgedStale | src/server/single_instance_guard.js:215-246 | no process is about to break a live holder's record |
| LockTheorems.AcquisitionEnds | src/server/stale_lock_breaker.js:5-29 | an acquisition takes at most 780 of its own steps |
| LockTheorems.MutexIsWaitedFor | src/server/stale_lock_breaker.js:13-29 | a mutex somebody else keeps is tried 50 times, and then the boot throws |
| LockTheorems.IllegibleIsReread | src/server/single_instance_guard.js:200-210 | an unreadable lock is read 11 times before it is judged |
| LockTheorems.StaleLockIsTakenOver | src/server/single_instance_guard.js:279-285 | a lock left by a dead or replaced process is taken over by an undisturbed boot |
| InputCandidates.FilterInPlace | src/XChainEncoder/build_transaction/input_candidates.js:253-267 | the compaction leaves `Kept` in the array's head |
| InputCandidates.KeptFacts | src/XChainEncoder/build_transaction/input_candidates.js:248-252 | exactly the first wanted entry of each outpoint survives |
| InputCandidates.RefuseShrunkExactInputs | src/XChainEncoder/build_transaction/input_candidates.js:205-231 | exact mode passes exactly the lists the filter leaves whole |
| InputCandidates.BeforeIsTotal | src/XChainEncoder/build_transaction/input_candidates.js:289-299 | the comparator puts any two candidates of different outpoints in one order |
| InputCandidates.InOrderMeans | src/XChainEncoder/build_transaction/input_candidates.js:289-299 | in an ordered list values never rise, and equal ones stand by transaction id, then by output index |
| InputCandidates.OrderDependsOnlyOnTheSet | src/XChainEncoder/build_transaction/input_candidates.js:289-299 | the same set listed any way, repetitions included, gives the same ordered candidates |
| CanonicalJson.CanonicalJsonDecides | src/coins/index.js:275-280 | two values print the same text exactly when they are equal up to object key order |
| CanonicalJson.RendersAgree | src/coins/index.js:341-343 | printed values that agree as texts are the same value and end at the same place |
| JsonReader.CanonicalTextReadsBack | src/coins/index.js:273-280 | the canonical text is JSON and reads back as the value it was given, every object's keys in ascending code-unit order |
| Lexicographic.LessMeans | src/coins/index.js:278 | that order is decided by the first unit in which two keys differ, a prefix first |
| LogShipper.NothingLostOrReordered | src/observability/logShipper.js:303-338 | enqueued lines are shipped, dropped, buffered or in flight, in enqueue order, within the cap |
| LogShipper.NothingDroppedNothingMissing | src/observability/logShipper.js:303-338 | in a run that dropped nothing, what shipped, flies and waits is every line enqueued, in order |
| LogShipper.EnqueueKeepsTheNewest | src/observability/logShipper.js:303-311 | of what waits and the new line the newest stay that the cap has room for, and a full batch leaves unless one is out |
| LogShipper.FlushTakesTheOldest | src/observability/logShipper.js:315-323 | a flush takes the oldest waiting lines, a batch at most, and only when none is out |
| LogShipper.FailureKeepsTheNewest | src/observability/logShipper.js:326-335 | a failed batch comes back in front of what waits, and the newest of all stay that there is room for |
| LogShipper.Shipper.Enqueue | src/observability/logShipper.js:303-311 | the oldest line makes room; a full batch starts a flush |
| LogShipper.Shipper.Flush | src/observability/logShipper.js:315-323 | one batch at a time leaves from the front |
| LogShipper.Shipper.SendSucceeded | src/observability/logShipper.js:323-325 | the batch is counted as shipped, the buffer is left alone |
| LogShipper.Shipper.SendFailed | src/observability/logShipper.js:326-335 | a failed batch returns to the front as far as there is room |
| SplitGrading.ValidateSplits | bin/suite_title_map/split_map.js:68-89 | no problem exactly when every list names two paths, no path twice in all, and no part is itself split |
| SplitGrading.CountTitles | bin/suite_title_map/split_map.js:113-117 | the counting map is the multiset of the lists |
| SplitGrading.MissingTitles | bin/suite_title_map/split_map.js:120-131 | one finding for each time the parts lack a title, moved exactly when another file has it |
| SplitGrading.SurplusTitles | bin/suite_title_map/split_map.js:134-143 | one finding for each time the parts have a title too often |
| SplitGrading.GradeSplit | bin/suite_title_map/split_map.js:150-163 | the findings number the collisions plus the multiset difference both ways, each says rightly what became of its title; none exactly when the split agrees |
| SplitGrading.EveryFileIsGradedOnce | bin/suite_title_map/split_map.js:185-206 | every file is graded by a split or left, with its titles, to the ordinary comparison, never both |
| SplitGrading.CompareWithSplits | bin/suite_title_map/split_map.js:185-206 | a record that is not usable is refused whole; otherwise nothing is found exactly when every split agrees and the ordinary comparison of the rest finds nothing; no splits, no change |

## Left out

- JavaScript floating point: rates are whole base units per kB and the epsilon shaves are not modelled; amounts are exact integers.
- The coin node and the UTXO tracker: their replies are parameters (rates, ancestor packages, candidate lists).
- Cryptography, address decoding, obfuscation, txid hashing and PSBT serialisation; the two redeem-script and envelope hashes are not computed.
- Payload compression, text sanitising and ACTION names.
- Address decoding in the size estimators (`src/build/tx_size_estimator.js:147-160`): an output's bytes come from its script's length, and the fallback of 43 for an address that does not decode is not modelled.
- Input sizes: an input's estimated bytes are a number the candidate carries; `TransactionSize.InputEstimate` has the formula for each kind of input, while telling the kind from a script, and the estimates of 289 and 350 for scripts that cannot be told, are not modelled.
- TransactionSize.InputIsCovered: a witness script-hash input is taken as a 2-of-3 multisig over compressed keys and a nested one as a key hash, as the estimator assumes; signatures are at most 72 bytes, 65 for Schnorr.
- ScriptEval.RedeemUnlocksIff: the hash and the signature check are parameters, and opcodes the carriers do not use fail the script.
- Settlement.FundingBuild.SelectInputs: whether another build holds a candidate is a flag the candidate carries; `InputClaims` and `ReservationProtocol` model what sets it. Unsignable inputs are not refused here.
- FundingTransaction.BuildTransaction: fewest scriptSig bytes are a number the candidate carries; a script-hash build leaves its caller outputs to the reveal, so they come with the legs and not as payments; the reveal side itself is `CommitReveal.RevealBuild`.
- Carriers.SlotsRoundTrip: what the decoder does with the empty pushes after the payload (`MultisignCarries`) is its own rule and not stated.
- CanonicalJson.CanonicalJsonDecides: values are JSON trees; `undefined` is not one (the printer writes it as bare text in an object and as nothing in an array), and a number is the text it prints as, so 0 and -0 are one number.
- CommitReveal.CommitFundsReveal: (and the results built on it) for reveals without an explicit fee, at a rate no higher than the commit's, with caller addresses that decode; the chain's stripped-size floor is at most 1,000 bytes (82 and 85 in the coin files).
- ReservationLimits.LapsedInputCanBeSpentAgain: ticket ids are random numbers; the lemma takes one that was not drawn before, and a call's transaction ids and owner tokens may be any that are still unused.
- InstanceLock.RunInv: lock files without a recorded command line and removal of the break mutex by hand are not modelled; tokens are never repeated, live processes have different pids, and a process's command line is stable and read the same way by everybody. The lock is a transition system because its steps interleave across processes, so the retry loops appear as stages.
- InputCandidates.OrderDependsOnlyOnTheSet: the array sort itself is the runtime's; the result is any list in order with the same entries, shown to be the only one.
- SplitGrading.CompareWithSplits: the pin is taken with renames applied, the ordinary comparison is a parameter, and the option to compare one script only is not modelled.
- LogShipper: redaction, text formatting, the timer and the HTTP post; a send succeeds or fails as an event.
- `clearReservations`, which exists for tests.
- The HTTP surface, the maintenance window, the concurrency gate and the coin registry's lookups.

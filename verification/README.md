# KIDS launchpad: a verified model of its money and token core

This project models, in Dafny 4.11, the parts of the KIDS launchpad that hold and move value, and proves what they
promise over every input and every run. `dafny verify dfyconfig.toml` checks all of it.

Four connected parts are modelled.

1. **SOL escrow and launch.** Participants commit lamports; after the deadline anyone may close the campaign, settle
   receipts, pay refunds or launch, in any order and any number of times. `Escrow` gives each instruction as a function
   from a state to an outcome (a new state, or an error that changes nothing); `LaunchProgram.Program` runs the same
   instructions in place, check by check, and is proved against those functions. `EscrowInvariant` and `EscrowOutcomes`
   hold the invariant and what follows for whole runs; `EscrowEffects` says for each instruction, from the accounts alone,
   when it is accepted and what it does to the lamport; `Splitting` compares two campaigns.
2. **Token payouts.** `Custody` and `CustodySafety` cover claims and expiry burns from launch custody, `Vaults` and
   `VaultSafety` the four purpose vaults of the distribution program, `Record` its 512-byte account,
   `DistributionProgram` its handlers in place over that byte array, `Calendar` and `Vesting` the three-month schedule,
   `Fees` and `FeeProgram` the fee router. `Protocol` puts both programs into one state machine, from the creation of a
   campaign through launch, activation, claims, burns and donations. `ParentProofs` holds the Merkle proofs the two
   programs check, and `SnapshotRuns` what they admit over whole runs. `Scenario` gives concrete runs: to a launch with
   funded vaults, and to the two corner cases below. `PayoutEffects` says for each token instruction when it is accepted
   and what it does to the unit.
3. **Capped pro-rata allocator.** `Allocator` proves the redistribution loop equal to a single rate cut off at the cap;
   `Community` aggregates holder snapshots, `PairAllocation` merges two communities.
4. **Claim tree.** `Merkle`, `HashTrees`, `MerkleSoundness` and `MerkleBuilder` cover the tree with odd-node promotion:
   every built proof verifies, and nothing else does without a hash collision among the strings that were actually
   hashed.

`Base`, `Bytes`, `Floors` and `Sums` hold machine integers, byte strings, floored shares and sums over maps.

## How the model reads the programs

- An instruction is atomic: a refused one leaves every account as it was. Error codes are the programs' own.
- The clock never goes back; `Pass` lets any time go by between two instructions.
- Token and system calls are exact balance moves. The campaign account's lamports and everybody else's add up to a fixed
  amount that fits 64 bits; wallet balances enter as arguments.
- Unsigned 64-bit and signed 64-bit limits are written out wherever the code checks them. Intermediate products are
  unbounded, as the code widens them to 128 bits.
- `others` and `quoted` are arguments that stand for checks on accounts and pools outside the model. `proved` is the
  verdict on a Merkle proof: the in-place handlers compute it from the proof bytes, and `SnapshotRuns` says what it is
  worth.
- The length of the custody claim window is a parameter; the build fixes it to zero.

Where the text around the code and the code differ, the model follows the code:

- The claim window of launch custody is zero seconds, so free parent claims from custody can never pay
  (`CustodySafety.ZeroWindowNeverPays`), although a test name and the repository's text speak of thirty days. The thirty
  days hold for the distribution program's vaults.
- A campaign whose commitments reach the soft cap can still be unable to launch, because rounding may leave the settled
  total below it. `EscrowOutcomes.SettledCampaignIsReady` gives the exact condition and
  `Scenario.SoftCapReachedButNotReady` a run that ends there.
- A refund that pays nothing does not record the phase it computed (`EscrowOutcomes.RefundRecordsPhase`,
  `Scenario.EmptyRefundLeavesPhaseOpen`).
- The parent buyback budgets buy and burn the coin, not the parents.

## Model

| member | source | states |
|---|---|---|
| EscrowInvariant.CreateIsValid | babies-launchpad/programs/atomic-launch/src/lib.rs:177-183 | creation is accepted exactly for the fixed supply, set keys and ordered terms, and establishes the invariant |
| EscrowInvariant.CommitKeepsValid | babies-launchpad/programs/atomic-launch/src/lib.rs:201-220 | a commitment keeps all receipt sums, frozen amounts and solvency; `EscrowEffects.CommitIsExact` says what it books |
| EscrowInvariant.CloseKeepsValid | babies-launchpad/programs/atomic-launch/src/lib.rs:221-227 | closing keeps the invariant |
| EscrowInvariant.RefundKeepsValid | babies-launchpad/programs/atomic-launch/src/lib.rs:228-246 | a refund keeps the invariant |
| EscrowInvariant.SettleKeepsValid | babies-launchpad/programs/atomic-launch/src/lib.rs:161-169 | a settlement keeps the invariant |
| EscrowInvariant.LaunchKeepsValid | babies-launchpad/programs/atomic-launch/src/launch.rs:123-131 | the lamport side of the launch keeps the invariant |
| EscrowInvariant.RunKeepsValid | babies-launchpad/programs/atomic-launch/src/lib.rs:201-252 | every interleaving of instructions, donations and passing time keeps the invariant |
| EscrowInvariant.AcceptedPartsBounds | babies-launchpad/programs/atomic-launch/src/lib.rs:156-168 | all acceptances together stay within total and hard cap and lose less than a lamport each |
| EscrowInvariant.SettledWithinCap | babies-launchpad/programs/atomic-launch/src/lib.rs:164-166 | what was settled so far never exceeds the whole's acceptances nor the receipt count |
| EscrowInvariant.AllSettled | babies-launchpad/programs/atomic-launch/src/lib.rs:171-174 | equal counts mean that no receipt was left out |
| EscrowOutcomes.EntitlementCoversRefunds | babies-launchpad/programs/atomic-launch/src/lib.rs:236-237 | the subtraction of earlier refunds never underflows |
| EscrowOutcomes.OwedIsCovered | babies-launchpad/programs/atomic-launch/src/lib.rs:236-242 | the escrow holds its rent plus all outstanding refunds together |
| EscrowOutcomes.RefundNeverRefused | babies-launchpad/programs/atomic-launch/src/lib.rs:228-246 | after the deadline a registered refund is always accepted and pays exactly the missing part |
| EscrowOutcomes.RefundsInAnyOrder | babies-launchpad/programs/atomic-launch/src/lib.rs:228-246 | any sequence of refunds is accepted throughout and ends with every named receipt paid in full |
| EscrowOutcomes.FailureRefundsEverything | babies-launchpad/programs/atomic-launch/src/lib.rs:234-236 | a failed campaign whose receipts were refunded has returned every committed lamport |
| EscrowOutcomes.SettleNeverRefused | babies-launchpad/programs/atomic-launch/src/lib.rs:161-169 | errors 10 and 11 of settlement are unreachable for registered receipts |
| EscrowOutcomes.SettlementOrderIsIrrelevant | babies-launchpad/programs/atomic-launch/src/lib.rs:159-169 | any settlement order, with repeats, reaches the state fixed by the set of settled receipts |
| EscrowOutcomes.FullySettledTotal | babies-launchpad/programs/atomic-launch/src/lib.rs:156-169 | the final settled total is a function of the commitments, at most receipt count minus one below the smaller of total and hard cap |
| EscrowOutcomes.SettledCampaignIsReady | babies-launchpad/programs/atomic-launch/src/lib.rs:170-174 | a fully settled campaign is launch-ready exactly if the rounded total reaches the soft cap |
| EscrowOutcomes.ShortfallNeverLaunches | babies-launchpad/programs/atomic-launch/src/lib.rs:170-174 | a fully settled campaign below its soft cap never launches, over any run |
| Scenario.SoftCapReachedButNotReady | babies-launchpad/programs/atomic-launch/src/lib.rs:156-174 | a run that reaches the soft cap with everything settled in time, is not ready, and is launched by no later run |
| EscrowOutcomes.RefundRecordsPhase | babies-launchpad/programs/atomic-launch/src/lib.rs:234-245 | an accepted refund leaves the phase it computed exactly if it paid something or that phase was already recorded |
| Scenario.EmptyRefundLeavesPhaseOpen | babies-launchpad/programs/atomic-launch/src/lib.rs:234-240 | a run after which an accepted refund pays nothing and leaves the campaign open |
| EscrowOutcomes.LaunchNeverUnderfunded | babies-launchpad/programs/atomic-launch/src/launch.rs:123-159 | a ready campaign's launch is never blocked by its lamport accounting, moves exactly the settled SOL, and stamps the launch with the clock, receipts untouched |
| EscrowOutcomes.LaunchedReceiptConserved | babies-launchpad/programs/atomic-launch/src/lib.rs:228-246 | after the launch accepted plus refunded never exceeds the commitment, and equals it once the refund is paid |
| EscrowOutcomes.RunKeepsOutcome | babies-launchpad/programs/atomic-launch/src/lib.rs:221-246 | failed and launched are absorbing over every run |
| EscrowOutcomes.OutcomesExcludeEachOther | babies-launchpad/programs/atomic-launch/src/lib.rs:221-246 | no run both pays a failure refund and launches, in either order |
| EscrowOutcomes.LaunchFreezesSettlement | babies-launchpad/programs/atomic-launch/src/launch.rs:158-159 | after the launch no run changes anything of campaign or receipts but what was refunded |
| EscrowOutcomes.StepConservesLamports | babies-launchpad/programs/atomic-launch/src/lib.rs:217-245 | every step conserves lamports, and only donations change the surplus |
| EscrowOutcomes.CloseDecides | babies-launchpad/programs/atomic-launch/src/lib.rs:221-227 | closing records failed exactly for a missed soft cap or launch deadline |
| EscrowOutcomes.CommitCannotBeReplayed | babies-launchpad/programs/atomic-launch/src/lib.rs:208-217 | an accepted commitment is refused when replayed after any run |
| EscrowOutcomes.EveryRunPaysRefunds | babies-launchpad/programs/atomic-launch/src/lib.rs:201-252 | after any run all outstanding refunds are covered and each is accepted |
| EscrowEffects.CreateIsExact | babies-launchpad/programs/atomic-launch/src/lib.rs:177-183 | a created campaign has exactly the given terms and nothing else |
| EscrowEffects.ConfigureIsExact | babies-launchpad/programs/atomic-launch/src/claims.rs:54-65 | parents can be configured exactly before the deadline and before the first commitment |
| EscrowEffects.CommitAcceptance | babies-launchpad/programs/atomic-launch/src/lib.rs:201-220 | a commitment is accepted exactly before the deadline, configured, positive, under the next sequence number and affordable; no total or count can overflow |
| EscrowEffects.CommitIsExact | babies-launchpad/programs/atomic-launch/src/lib.rs:208-219 | an accepted commitment takes and books exactly its amount on one receipt, advances its sequence by one, counts a new wallet, and changes nothing else |
| EscrowEffects.CommitRefusals | babies-launchpad/programs/atomic-launch/src/lib.rs:201-217 | which error a commitment gets, in the order of the checks |
| EscrowEffects.RunBooksDeposits | babies-launchpad/programs/atomic-launch/src/lib.rs:201-252 | over any run a receipt holds exactly the sum of its wallet's accepted deposits |
| EscrowEffects.CloseIsExact | babies-launchpad/programs/atomic-launch/src/lib.rs:221-227 | closing is accepted from the deadline on and only records the phase: failed exactly for a missed soft cap or launch deadline |
| EscrowEffects.RefundIsExact | babies-launchpad/programs/atomic-launch/src/lib.rs:228-246 | a refund is accepted exactly from the deadline on for a registered wallet, which then has all back if the campaign is lost and else all but its proportional part; exactly the difference moves |
| EscrowEffects.SettleIsExact | babies-launchpad/programs/atomic-launch/src/lib.rs:156-169 | a settlement is accepted exactly from the deadline on for a registered wallet and accepts the proportional part, once |
| EscrowEffects.LaunchIsExact | babies-launchpad/programs/atomic-launch/src/launch.rs:79-159 | a launch is accepted exactly between the two deadlines with every receipt settled and the soft cap reached; it moves exactly the settled SOL and stamps the time |
| EscrowEffects.OtherRefusals | babies-launchpad/programs/atomic-launch/src/lib.rs:161-246 | which error closing, refunding, settling and launching get |
| Splitting.SplittingNeverGains | babies-launchpad/programs/atomic-launch/src/lib.rs:156-168 | dividing a commitment over wallets never increases accepted SOL nor participant tokens, although the settled total shrinks with it |
| LaunchProgram.Program.CommitSol | babies-launchpad/programs/atomic-launch/src/lib.rs:201-220 | the in-place commitment does what `Escrow.Commit` says, or nothing, keeps the invariant, is accepted exactly under the stated conditions, and takes and books exactly the amount |
| LaunchProgram.Program.CloseCampaign | babies-launchpad/programs/atomic-launch/src/lib.rs:221-227 | the in-place closing agrees with `Escrow.Close` and keeps the invariant |
| LaunchProgram.Program.RefundReceipt | babies-launchpad/programs/atomic-launch/src/lib.rs:228-246 | the in-place refund agrees with `Escrow.Refund` and keeps the invariant; after the deadline a registered owner always gets Ok and exactly what is missing |
| LaunchProgram.Program.SettleReceipt | babies-launchpad/programs/atomic-launch/src/lib.rs:161-169 | the in-place settlement agrees with `Escrow.Settle` and keeps the invariant; after the deadline a registered owner always gets Ok |
| LaunchProgram.Program.LaunchSol | babies-launchpad/programs/atomic-launch/src/launch.rs:123-164 | the in-place launch accounting agrees with `Escrow.Launch`, keeps the invariant, and succeeds exactly for a ready campaign when the other checks pass |
| LaunchProgram.Program.ClaimParticipant | babies-launchpad/programs/atomic-launch/src/claims.rs:41-47 | the in-place claim agrees with `Custody.Participant` and keeps custody covered; a registered owner always gets Ok and the exact unpaid share |
| LaunchProgram.Program.ClaimDev | babies-launchpad/programs/atomic-launch/src/claims.rs:48-53 | the in-place claim agrees with `Custody.Dev` and keeps custody covered; once the vesting end is defined it always pays up to one percent plus the linear part of two percent |
| LaunchProgram.Program.ClaimParent | babies-launchpad/programs/atomic-launch/src/claims.rs:67-89 | folding the proof bytes and comparing with the published root included, the claim agrees with `Custody.Parent`, keeps custody covered and takes exactly what stops being owed |
| LaunchProgram.Program.BurnExpiredParentReserves | babies-launchpad/programs/atomic-launch/src/claims.rs:109-121 | the in-place burn agrees with `Custody.BurnExpired` and keeps custody covered; after the window it always empties both reserves |
| Calendar.DaysRoundTrip | babies-launchpad/programs/kids-distribution/src/math.rs:28-29 | every day number gives a valid Gregorian date and comes back |
| Calendar.CivilRoundTrip | babies-launchpad/programs/kids-distribution/src/math.rs:28-29 | every valid date gives a day number and comes back |
| Calendar.DaysCountCalendarDays | babies-launchpad/programs/kids-distribution/src/math.rs:29 | the next calendar date has the next day number |
| Calendar.CivilFollowsCalendar | babies-launchpad/programs/kids-distribution/src/math.rs:28 | day zero is 1 January 1970 and the next day number is the next date |
| Calendar.ThreeMonthEndIsCalendar | babies-launchpad/programs/kids-distribution/src/math.rs:30-31 | same time of day, same day three months later or that month's last, 89 to 92 days on; refused exactly on overflow |
| Calendar.VestingEndsSameDay | babies-launchpad/programs/kids-distribution/src/math.rs:30-31 | the end is three calendar months later on the same day of the month, or the last day where the month is shorter, at the same second of the day |
| Vesting.SharesConserveSupply | babies-launchpad/programs/kids-distribution/src/math.rs:10-15 | liquidity, vault shares and dust add up to the supply |
| Vesting.ShareIsBasisPoints | babies-launchpad/programs/kids-distribution/src/math.rs:10-13 | a share is the basis points of the supply without its last four digits |
| Vesting.DevEntitledBounds | babies-launchpad/programs/kids-distribution/src/math.rs:32-37 | one percent at the start, never falling, never above three percent, exactly three percent from the end on |
| Vesting.DevEntitledIsLinear | babies-launchpad/programs/kids-distribution/src/math.rs:32-37 | between start and end the entitlement is one percent plus the floored linear part of two percent, to the unit |
| Vesting.VestingTelescopes | babies-launchpad/programs/kids-distribution/src/claims.rs:84-92 | claims at any non-decreasing times never underflow and pay exactly the last entitlement in total |
| Custody.ThresholdRoundsUp | babies-launchpad/programs/atomic-launch/src/claims.rs:26 | a balance meets the threshold exactly if it is at least 0.05 % of the parent's supply |
| Custody.ParticipantsFitPool | babies-launchpad/programs/atomic-launch/src/claims.rs:41-47 | all participant claims together fit the 43.5 % pool because acceptances sum to the settled total |
| Custody.ParticipantNeverRefused | babies-launchpad/programs/atomic-launch/src/claims.rs:41-47 | a participant claim is never refused for lack of coins and pays the exact floored share once |
| Custody.LaunchCovers | babies-launchpad/programs/atomic-launch/src/launch.rs:135-145 | custody after the launch covers everything it will owe |
| CustodySafety.ParticipantKeepsOk | babies-launchpad/programs/atomic-launch/src/claims.rs:41-47 | a participant claim keeps custody solvent |
| CustodySafety.DevKeepsOk | babies-launchpad/programs/atomic-launch/src/claims.rs:48-53 | a dev claim keeps custody solvent |
| CustodySafety.ParentKeepsOk | babies-launchpad/programs/atomic-launch/src/claims.rs:67-89 | a parent claim keeps custody solvent and its reserve within bounds |
| CustodySafety.BurnKeepsOk | babies-launchpad/programs/atomic-launch/src/claims.rs:109-121 | an expiry burn keeps custody solvent for everyone else |
| CustodySafety.DevNeverRefused | babies-launchpad/programs/atomic-launch/src/claims.rs:48-53 | a dev claim pays exactly the entitlement less what was claimed and cannot underflow |
| CustodySafety.ClaimOrBurn | babies-launchpad/programs/atomic-launch/src/lib.rs:122-123 | parent claims and the expiry burn are never both possible |
| CustodySafety.ZeroWindowNeverPays | babies-launchpad/programs/atomic-launch/src/lib.rs:36-39 | with the build's window of zero no parent claim from custody ever pays |
| CustodySafety.BurnEmptiesReserves | babies-launchpad/programs/atomic-launch/src/claims.rs:90-121 | the burn makes claimed plus burned equal each reserve, and a second run burns nothing |
| CustodySafety.ParticipantPaysWhatItOwes | babies-launchpad/programs/atomic-launch/src/claims.rs:41-47 | a participant claim pays exactly what custody stops owing |
| CustodySafety.DevAndBurnPayWhatTheyOwe | babies-launchpad/programs/atomic-launch/src/claims.rs:48-121 | dev claims and burns take exactly what custody stops owing |
| CustodySafety.ParentPaysWhatItOwes | babies-launchpad/programs/atomic-launch/src/claims.rs:67-89 | a parent claim is accepted exactly when it is proved, in time, within threshold and eligible total, for the floored share and, unless paid before, covered by the reserve; it is paid once and takes exactly what stops being owed |
| PayoutEffects.CustodyParticipantIsExact | babies-launchpad/programs/atomic-launch/src/claims.rs:41-47 | accepted exactly for a registered wallet of a launched campaign without vaults; pays the floored part of 43.5 % of the supply, once, and changes nothing else |
| PayoutEffects.CustodyDevIsExact | babies-launchpad/programs/atomic-launch/src/claims.rs:48-53 | accepted exactly once launched with a vesting end that fits; the dev has then had the linear entitlement, to the unit |
| PayoutEffects.CustodyParentAcceptance | babies-launchpad/programs/atomic-launch/src/claims.rs:67-84 | accepted exactly inside the window, proved, over the threshold, for the floored part of 5 % of the supply, while the reserve lasts |
| PayoutEffects.CustodyParentIsExact | babies-launchpad/programs/atomic-launch/src/claims.rs:80-88 | paid once, from that parent's reserve, and nothing else changes |
| PayoutEffects.CustodyBurnIsExact | babies-launchpad/programs/atomic-launch/src/claims.rs:90-121 | accepted exactly from the end of the window on; burns what of both 5 % reserves was neither claimed nor burned and notes when the first burn ran |
| PayoutEffects.CustodyRefusals | babies-launchpad/programs/atomic-launch/src/claims.rs:41-121 | which error each claim and burn on custody gets |
| Fees.SplitBounds | babies-launchpad/programs/atomic-launch/src/fees.rs:51 | the four floors grow with the total and leave at most three lamports |
| Fees.CustodyCovers | babies-launchpad/programs/atomic-launch/src/fees.rs:43-44 | custody covers the liability and the liability both pending budgets, without underflow |
| Fees.DistributeNeverRefused | babies-launchpad/programs/atomic-launch/src/fees.rs:133-142 | a distribution always succeeds and allocates exactly the floors of the cumulative total |
| Fees.BuybackNeverRefused | babies-launchpad/programs/atomic-launch/src/fees.rs:45-49 | a slice within the budgets is always booked, parent A before parent B |
| Fees.BurnNeverRefused | babies-launchpad/programs/atomic-launch/src/fees.rs:161-171 | coin fees that were collected can always be burned |
| Fees.RunKeepsValid | babies-launchpad/programs/atomic-launch/src/fees.rs:116-171 | every interleaving keeps custody exactly accounted |
| Fees.EveryRunIsCovered | babies-launchpad/programs/atomic-launch/src/fees.rs:116-171 | after any run custody covers liability and budgets and a distribution succeeds |
| Fees.EntitlementIsFloor | babies-launchpad/programs/atomic-launch/src/fees.rs:51 | an allocation is the floor of total times weight over 168 |
| Fees.CollectIsExact | babies-launchpad/programs/atomic-launch/src/fees.rs:116-132 | accepted exactly when the coins exist and the total fits 64 bits; books exactly the gained coins and lamports |
| Fees.DistributeIsExact | babies-launchpad/programs/atomic-launch/src/fees.rs:133-142 | always accepted; the four floors out of 168, and exactly the missing part for treasury and dev leaves custody |
| Fees.BuybackIsExact | babies-launchpad/programs/atomic-launch/src/fees.rs:143-160 | accepted exactly for a quoted slice of at most half a SOL within the budgets that returned the minimum; A before B, and exactly what came back is burned |
| Fees.BurnIsExact | babies-launchpad/programs/atomic-launch/src/fees.rs:161-171 | accepted exactly up to the coins collected, burned to the unit |
| Fees.RunCountsCoins | babies-launchpad/programs/atomic-launch/src/fees.rs:116-171 | over any run the coin counter is what was collected less what tag 26 burned, and burn counter and mint supply account for every coin |
| Fees.PathIndependence | babies-launchpad/programs/atomic-launch/src/fees.rs:133-142 | however SOL was collected and distributed, a final distribution leaves and has paid the one-shot floors of the sum |
| Fees.AllocationsOnlyGrow | babies-launchpad/programs/atomic-launch/src/fees.rs:133-142 | allocations, spending and burns never decrease |
| Fees.BurnsAreCounted | babies-launchpad/programs/atomic-launch/src/fees.rs:155-170 | counted burns are exactly what left the mint supply |
| FeeProgram.FeeAccount.Collect | babies-launchpad/programs/atomic-launch/src/fees.rs:116-132 | the in-place collection agrees with `Fees.Collect`, is accepted exactly when coins and total fit, and raises both counters and both balances by exactly what was gained |
| FeeProgram.FeeAccount.Distribute | babies-launchpad/programs/atomic-launch/src/fees.rs:133-142 | the in-place distribution agrees with `Fees.Distribute` and cannot fail from a valid state |
| FeeProgram.FeeAccount.Buyback | babies-launchpad/programs/atomic-launch/src/fees.rs:143-160 | the in-place buyback agrees with `Fees.Buyback`, never accepts less than the minimum, and moves exactly the slice and the coins that came back |
| FeeProgram.FeeAccount.Burn | babies-launchpad/programs/atomic-launch/src/fees.rs:161-171 | the in-place burn agrees with `Fees.Burn` |
| Record.DecodeUndoesEncode | babies-launchpad/programs/kids-distribution/src/lib.rs:104-119 | every distribution value survives being written and read, negative times included |
| Record.RecordKeys | babies-launchpad/programs/kids-distribution/src/lib.rs:70-89 | where keys, roots, flags and bumps stand in the record |
| Record.RecordTerms | babies-launchpad/programs/kids-distribution/src/lib.rs:73-86 | where the single terms stand, little-endian, negative times in two's complement |
| Record.RecordParents | babies-launchpad/programs/kids-distribution/src/lib.rs:80-85 | where the figures of the two parents stand |
| Record.RecordPurposes | babies-launchpad/programs/kids-distribution/src/lib.rs:82-83 | where the figures of the four purposes stand |
| Record.RecordMark | babies-launchpad/programs/kids-distribution/src/lib.rs:112-113 | the record starts with its eight characters and is zero outside its fields |
| Bytes.LittleEndianDigit | babies-launchpad/programs/kids-distribution/src/lib.rs:65 | byte i of a written number is its digit for 256 to the i |
| Record.WriteCountersIsEncode | babies-launchpad/programs/kids-distribution/src/lib.rs:120-126 | writing only the counters of unchanged terms gives the full encoding |
| Record.OnlyCounterBytesDiffer | babies-launchpad/programs/kids-distribution/src/lib.rs:68-90 | records with the same terms differ only in claimed words, burned words and the flags byte |
| Record.EncodeInPlace | babies-launchpad/programs/kids-distribution/src/lib.rs:112-119 | the buffer then holds exactly the value, whatever it held before |
| Record.WriteCountersInPlace | babies-launchpad/programs/kids-distribution/src/lib.rs:121-126 | the buffer then holds the encoding of the updated value |
| VaultSafety.ActivationOk | babies-launchpad/programs/kids-distribution/src/lib.rs:298-346 | activation copies the campaign's terms and both parents' figures, establishes the vault invariant and moves exactly the allocations |
| PayoutEffects.ActivationIsExact | babies-launchpad/programs/kids-distribution/src/lib.rs:313-346 | accepted exactly for a launched campaign with nothing claimed, enough coins and times that fit; terms, four shares, thirty-day expiry and what custody keeps, as numbers |
| PayoutEffects.ActivationCopiesParents | babies-launchpad/programs/kids-distribution/src/lib.rs:324 | each parent's root, supply and eligible total go to that parent's slot |
| VaultSafety.EntitlementsFitVault | babies-launchpad/programs/kids-distribution/src/claims.rs:57-58 | all participant entitlements fit the vault because of the escrow's settled sums |
| VaultSafety.VaultParticipantNeverRefused | babies-launchpad/programs/kids-distribution/src/claims.rs:46-62 | the overdraw check is unreachable; the exact floored share is paid, once |
| VaultSafety.VaultParentKeepsOk | babies-launchpad/programs/kids-distribution/src/claims.rs:66-81 | a parent claim keeps every vault solvent |
| VaultSafety.VaultDevNeverRefused | babies-launchpad/programs/kids-distribution/src/claims.rs:84-92 | a dev claim always succeeds and brings the total to the current entitlement |
| VaultSafety.VaultBurnKeepsOk | babies-launchpad/programs/kids-distribution/src/claims.rs:95-104 | an expiry burn keeps every vault solvent |
| VaultSafety.ActKeepsOk | babies-launchpad/programs/kids-distribution/src/claims.rs:46-115 | every instruction and donation keeps each vault at or above what it still owes |
| VaultSafety.ActKeepsTerms | babies-launchpad/programs/kids-distribution/src/lib.rs:120-126 | no instruction changes a term |
| VaultSafety.ClaimsPayWhatTheyCount | babies-launchpad/programs/kids-distribution/src/lib.rs:216-225 | a claim takes from its vault exactly what it adds to the counter |
| VaultSafety.SweepLeavesOwed | babies-launchpad/programs/kids-distribution/src/claims.rs:107-115 | a sweep leaves exactly what is owed |
| VaultSafety.ParentClaimOrBurn | babies-launchpad/programs/kids-distribution/src/math.rs:17-24 | a parent vault is claimed from or burned, never both, and burned once with its whole balance |
| PayoutEffects.VaultParticipantIsExact | babies-launchpad/programs/kids-distribution/src/claims.rs:46-62 | accepted exactly for a registered wallet custody has not paid; pays the floored part, once, and changes nothing else |
| PayoutEffects.VaultParentIsExact | babies-launchpad/programs/kids-distribution/src/claims.rs:66-81 | accepted exactly before expiry, proved, over the threshold, for the floored part, while the allocation lasts; paid once from that parent's vault |
| PayoutEffects.VaultDevIsExact | babies-launchpad/programs/kids-distribution/src/claims.rs:84-92 | always accepted; the dev has then had the linear entitlement, to the unit |
| PayoutEffects.VaultBurnIsExact | babies-launchpad/programs/kids-distribution/src/claims.rs:95-104 | accepted exactly from expiry on, once; all of that parent's vault, noted under it, with its flag added |
| PayoutEffects.SweepIsExact | babies-launchpad/programs/kids-distribution/src/claims.rs:107-115 | always accepted; the vault keeps allocation less claimed, or nothing once burned |
| PayoutEffects.VaultRefusals | babies-launchpad/programs/kids-distribution/src/claims.rs:46-104 | which error a participant claim or a burn on the vaults gets |
| PayoutEffects.VaultParentRefusals | babies-launchpad/programs/kids-distribution/src/claims.rs:66-76 | which error a parent claim on the vaults gets, in the order of the checks |
| PayoutEffects.ProofIsForItsParent | babies-launchpad/programs/kids-distribution/src/claims.rs:66-74 | a proof for a parent is about its own index byte and its own frozen root |
| VaultSafety.HonestSnapshotNeverOverdraws | babies-launchpad/programs/kids-distribution/src/claims.rs:71-80 | under a root whose balances fit the eligible total, a parent claim is accepted exactly when it is proved, in time, over the threshold and for the floored share |
| ParentProofs.ParentLeafInjective | babies-launchpad/programs/kids-distribution/src/math.rs:38 | a leaf string determines owner, balance and allocation |
| ParentProofs.ParentLeafLayout | babies-launchpad/programs/kids-distribution/src/math.rs:38 | where tag, campaign, index, owner, balance and allocation stand in a leaf |
| ParentProofs.ImpliedRoot | babies-launchpad/programs/kids-distribution/src/math.rs:39-41 | the fold over the proof bytes reaches a root exactly if the proof leads to it |
| ParentProofs.ParentSoundness | babies-launchpad/programs/kids-distribution/src/math.rs:38-41 | a claim proved against a snapshot's root is a holder's, for the listed balance and the floored share, or two hashed strings collide |
| ParentProofs.ParentCompleteness | babies-launchpad/localnet/atomic-claims.mjs:44-47 | every holder of a snapshot tree has a proof of balance and floored share, odd promotions included |
| SnapshotRuns.LaunchPublishes | babies-launchpad/programs/kids-distribution/src/lib.rs:313-346 | the snapshot recorded before the launch is the one the vaults pay by |
| SnapshotRuns.RunPaysSnapshot | babies-launchpad/programs/kids-distribution/src/claims.rs:66-81 | over any run of both programs whose parent claims carry proofs, every recorded claim is the holder's floored share, or two hashed strings collide |
| SnapshotRuns.ProvedClaimsNeverOverdraw | babies-launchpad/programs/kids-distribution/src/claims.rs:71-80 | after any such run a proved claim is accepted exactly when it is in time and over the threshold: never refused for overdraw, or two hashed strings collide |
| DistributionProgram.FundVaults | babies-launchpad/programs/kids-distribution/src/lib.rs:335-344 | the funding loop with both balance checks succeeds exactly if the source covers the sum, whatever the vaults held: donations are burned and every vault ends with exactly its allocation |
| DistributionProgram.Program.ActivateVaults | babies-launchpad/programs/kids-distribution/src/lib.rs:313-346 | every check, the owed sum, the funding loop and the record in place agree with `Vaults.Activate` for arbitrary earlier vault balances; a refusal changes nothing |
| DistributionProgram.Program.ClaimParticipantShare | babies-launchpad/programs/kids-distribution/src/claims.rs:46-62 | the handler over the byte record agrees with `Vaults.ClaimParticipant` and keeps record and vaults in order; a settled, unpaid owner always gets Ok and the exact share |
| DistributionProgram.Program.ClaimParentShare | babies-launchpad/programs/kids-distribution/src/claims.rs:66-81 | folding the proof bytes and comparing with the frozen root included, the handler agrees with `Vaults.ClaimParent` and keeps the vaults solvent |
| DistributionProgram.Program.ClaimDevShare | babies-launchpad/programs/kids-distribution/src/claims.rs:84-92 | the handler agrees with `Vaults.ClaimDev`, keeps the vaults solvent and always pays up to one percent plus the linear part of two percent |
| DistributionProgram.Program.BurnExpiredVault | babies-launchpad/programs/kids-distribution/src/claims.rs:95-104 | the handler agrees with `Vaults.BurnVault` and keeps the vaults solvent |
| DistributionProgram.Program.SweepDonation | babies-launchpad/programs/kids-distribution/src/claims.rs:107-115 | the handler agrees with `Vaults.Sweep`, keeps the vaults solvent and leaves exactly what is owed |
| Protocol.Run | babies-launchpad/programs/atomic-launch/src/lib.rs:184-271 | any interleaving of both programs' instructions keeps the joint invariant |
| Protocol.EveryRunIsSolvent | babies-launchpad/programs/atomic-launch/src/launch.rs:79-165 | from creation on the escrow covers all refunds, and after a launch custody or each vault covers all claims |
| Protocol.HandOver | babies-launchpad/programs/atomic-launch/src/launch.rs:159-164 | a launched campaign with a recorded distribution is activated and custody refuses every claim and burn |
| Protocol.ActivationLeavesDust | babies-launchpad/programs/atomic-launch/src/launch.rs:26-36 | activation leaves custody exactly the dust and each vault exactly its allocation |
| PayoutEffects.LaunchAllIsExact | babies-launchpad/programs/atomic-launch/src/launch.rs:79-165 | a whole launch is accepted exactly when the other checks pass, custody holds the full supply, the campaign may launch and recorded vaults can be activated; the liquidity share always leaves custody |
| Protocol.PurchasedClaimsNeverExpire | babies-launchpad/programs/kids-distribution/src/claims.rs:46-62 | after any run an unpaid participant's claim is accepted and pays the exact share, a paid one nothing more |
| Protocol.RunKeepsPaid | babies-launchpad/programs/atomic-launch/src/claims.rs:41-47 | over any run a participant who was paid stays paid and custody's parent claims stay recorded, whichever program pays |
| Scenario.LaunchIsReachable | babies-launchpad/programs/atomic-launch/src/launch.rs:79-165 | one run of the whole system from a created campaign ends launched, with the settled SOL moved and all four vaults funded |
| Protocol.RunFreezesTerms | babies-launchpad/programs/kids-distribution/src/lib.rs:68-126 | over any run after activation every term stays and no participant payment is undone or repeated |
| Protocol.RunFreezesBytes | babies-launchpad/programs/kids-distribution/src/lib.rs:68-90 | over any run no byte of the record but the counters changes |
| Allocator.SingleRate | babies-launchpad/shared/community-allocation.ts:228-253 | every amount is one rate's floored share cut off at the cap, or everyone has the cap |
| Allocator.NeverBelowProRata | babies-launchpad/shared/community-allocation.ts:236-248 | redistribution never gives anyone less than the capped share of the original pool |
| Allocator.LargerBalanceNeverLess | babies-launchpad/shared/community-allocation.ts:236-248 | a larger balance never receives less, whatever pass fixed it |
| Allocator.FilledWithinPool | babies-launchpad/shared/community-allocation.ts:249-253 | amounts fit the pool and leave less than one unit per uncapped owner |
| Allocator.RateRises | babies-launchpad/shared/community-allocation.ts:241-247 | taking out capped owners raises the rate for the rest |
| Allocator.Redistribute | babies-launchpad/shared/community-allocation.ts:231-248 | the loop always converges to a self-consistent fill |
| Allocator.AllocateCommunityPool | babies-launchpad/shared/community-allocation.ts:217-254 | refused exactly for bad inputs; the two internal throws are unreachable; shares and remainder add up to the pool, and the result is the fill that `AllocationIsFair` puts in plain terms |
| Allocator.AllocationIsFair | babies-launchpad/shared/community-allocation.ts:200-254 | no share exceeds the basis points of the pool, capped owners have the largest amount that does not and would have more, everybody else has the floored part of the rest, and at 10000 nobody is capped |
| Community.CheckSnapshot | babies-launchpad/shared/community-allocation.ts:121-139 | accepts exactly the consistent snapshots, header and accounts |
| Community.AggregateSnapshotByOwner | babies-launchpad/shared/community-allocation.ts:176-199 | eligible owners are exactly those whose kept accounts reach the floor, with that positive total; eligible plus excluded accounts are all accounts |
| Community.EligibleAsRuled | babies-launchpad/shared/community-allocation.ts:159-199 | an owner is eligible exactly if not excluded and what they hold, without frozen and off-curve accounts where ruled, is positive and reaches the floor; it counts with exactly that |
| PairAllocation.Merge | babies-launchpad/shared/community-allocation.ts:335-340 | merging adds exactly what was shared out |
| PairAllocation.ComputeCommunityAllocation | babies-launchpad/shared/community-allocation.ts:310-351 | refused exactly for bad inputs; both reconciliation throws are unreachable |
| PairAllocation.OwnerAmounts | babies-launchpad/shared/community-allocation.ts:299-309 | an owner's amount is the sum of both shares, with one row per paying community in input order |
| Merkle.CompareBytes | babies-launchpad/shared/community-merkle.ts:45-50 | negative exactly for the smaller string, zero exactly for equal ones |
| Merkle.LessIsLexicographic | babies-launchpad/shared/community-merkle.ts:45-50 | the byte order is the lexicographic one |
| Merkle.PairHashCommutes | babies-launchpad/shared/community-merkle.ts:69-73 | the pair hash does not depend on the order of its arguments |
| Merkle.PairIsHashedInOrder | babies-launchpad/shared/community-merkle.ts:69-73 | a pair is hashed as both nodes, the one that comes first in byte order at the front |
| Merkle.LeafIsHashedTwice | babies-launchpad/shared/community-merkle.ts:62-67 | a leaf is key, little-endian amount and schedule, hashed, and hashed again behind a zero byte |
| Merkle.VerifyCommunityProof | babies-launchpad/shared/community-merkle.ts:75-80 | accepts exactly when the fold equals the root, and rejects wrong lengths |
| Merkle.ComputeNextLevel | babies-launchpad/shared/community-merkle.ts:86-93 | node i is the hash of nodes 2i and 2i+1, and an odd last node is promoted |
| Merkle.Completeness | babies-launchpad/shared/community-merkle.ts:111-126 | for any hash every generated proof folds its leaf to the root |
| Merkle.RootOfThree | babies-launchpad/shared/community-merkle.ts:86-93 | three leaves give the hash of the first two paired with the third |
| Merkle.ProofIsShort | babies-launchpad/shared/community-merkle.ts:115-126 | a proof is no longer than any k with 2^k at least the number of leaves |
| MerkleSoundness.Soundness | babies-launchpad/shared/community-merkle.ts:62-80 | any proof of any length that reaches the root, for a leaf with any schedule, belongs to an input with that key and amount on the immediate schedule, or two hashed strings collide |
| MerkleSoundness.OneAmountPerOwner | babies-launchpad/shared/community-merkle.ts:100-129 | without a collision each owner can prove exactly one claim: their amount, on the immediate schedule |
| MerkleBuilder.SortIsOrderedPermutation | babies-launchpad/shared/community-merkle.ts:109 | the leaves are the inputs in strict owner order |
| MerkleBuilder.BeforeIsLexicographic | babies-launchpad/shared/community-merkle.ts:109 | the owner order is the lexicographic order of code units |
| MerkleBuilder.BuildCommunityMerkleTree | babies-launchpad/shared/community-merkle.ts:100-129 | refused exactly for bad inputs, texts that are no address included; otherwise holds exactly the inputs in owner order with short proofs that verify |
| MerkleBuilder.BuiltTreeIsSound | babies-launchpad/shared/community-merkle.ts:62-129 | against the root of a built tree only the given inputs can be proved, or two hashed strings collide |

## Left out

- Program-derived addresses, associated token accounts, signers, account owners and discriminators: the right account is taken to be passed.
- Pool creation, liquidity locking, swaps and metadata: external programs; only the balances the code reads back are kept.
- Token-2022 extensions and pool configuration parsing: byte checks without a property over runs.
- The minimum-output quote of the coin buyback: an argument says whether the keeper's minimum respected it.
- Keccak-256, SHA-256 and base58: arbitrary functions; soundness is stated relative to collisions among the hashed strings.
- The older commitment escrow and the liquidity codec: a subset of this escrow, and a codec whose state type is not part of this model.
- Activation by the creator with earlier claims: depends on bookkeeping outside the programs; the launch path is modelled.
- Canonical JSON and hashes of snapshots and results: text formatting beside the arithmetic.
- User interface, wallet, worker services and scanners.
- LaunchProgram.Program.LaunchSol: takes the checks on pool, lock, mint and token accounts as one argument; their token effects are in `Protocol`.
- FeeProgram.FeeAccount.Buyback: takes what the swap returned as an argument and does not model the pool.
- Allocator.AllocateCommunityPool: uses unordered maps, so the order of entries is not modelled, nor which of two bad entries is reported first.
- Community.AggregateSnapshotByOwner: does not model the owner order of the returned map, nor which inconsistency is reported.
- PairAllocation.ComputeCommunityAllocation: does not model the owner order of the published list.
- MerkleBuilder.BuildCommunityMerkleTree: models address decoding as an arbitrary partial function, and does not say which of two problems is reported.
- MerkleSoundness.Soundness: does not model the 1 to 25 byte limit on schedules; it holds for schedules of every length.
- SnapshotRuns.ProvedClaimsNeverOverdraw: does not model the limit of 32 siblings per proof; it holds for proofs of every length.

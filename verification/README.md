# Clawfarm phase 1: a verified model

Two on-chain programs share one protocol. The attestation program takes signed receipts for served requests, opens and
resolves challenges against them and finalizes them. The masterpool program holds the money: it charges payers, keeps
the providers' share in escrow, books CLAW rewards as pending, locked, released and claimed, takes stakes and challenge
bonds, slashes providers and runs a faucet. The attestation program calls into the masterpool inside the same
transaction. An off-chain script builds the hash that a provider's signer vouches for.

This project models both programs as one transition system, and the script's hashing as functions, and proves what they
keep over every run.

## How it is laid out

- `Outcomes`, `Widths`, `Sums`, `TokenLedger`: results and error codes, integer widths and checked arithmetic, sums over
  maps, and the token program (accounts, delegates with allowances, transfers, burns, one mint authority).
- `Params`, `Vesting`, `Faucet`, `Preimage`, `Ed25519`: the pure parts of the programs.
- `Accounts`, `Masterpool`, `Attestation`: the account records; each instruction as a *guard* (which error, in the order
  the program checks) and an *effect* (the new state). Guards leave out the checks that can never fail.
- `Handlers`, `Programs`: the instructions as they run. Class `Deployment` has the accounts as fields. Each instruction
  is an entry method, which holds in every reachable state, and a handler, which loads records, makes every check the
  program makes in the program's order, computes step by step with checked arithmetic, calls the other program's handler
  where the programs do, and writes back. Each is proved to answer exactly as its guard says and to leave exactly the
  state its effect says, on success and on failure, and each entry to keep the invariant. A check that can never fail
  stands in a handler as an assertion that it passes, and a checked operation that can never fail as one whose `value`
  is taken outright: that is the proof that it is dead.
- `Invariant`, `Facts`, `StepsReceipt`, `StepsFinalize`, `StepsChallenge`, `StepsMoney`: what holds in every reachable
  state, and that each instruction keeps it.
- `Environment`, `Runs`: runs. Between instructions time passes, other programs move tokens in any way the token program
  allows, and registries and switches change in any way.
- `Submissions`, `Rulings`, `Providers`, `Issuance`, `Payments`, `Refusals`: each instruction in the accounts' own terms,
  apart from its guard and effect: when it succeeds, what it leaves, who pays whom, and why it refuses.
- `Lifecycle`, `Progress`, `Solvency`, `Leaving`, `Governance`, `Terms`, `Rewards`: what follows for whole runs.
- `Witnesses`: runs of one small deployment that show what fails.
- `CanonicalJson`, `CanonicalLaws`, `CanonicalReading`, `CanonicalText`, `Surrogates`, `ReceiptMetadata`: the canonical
  text of metadata.

Settlements, bonds, receipts and challenges are all keyed by the hash of the request nonce, from which the programs
derive their addresses. Where no account records a quantity that an equation needs, the state carries a `History`: what
outsiders put into each vault, how they changed the CLAW supply, what was moved to the faucet and every faucet payout. A
vault equation is therefore exact: the balance is what the records say plus what outsiders gave.

Assumptions: derived addresses do not collide; nobody but the programs signs for the pool authority; the token program
behaves as in `TokenLedger` (in particular it forgets a delegate whose allowance is used up); the clock does not go back.

Three things the code does that its documentation or a reader would not expect are proved rather than smoothed over,
each with the exact condition and a run from deployment that shows it. An exact allowance is refused when the treasury
takes the whole charge (`Payments.CoveredChargeSucceedsExactly`, `Witnesses.ExactAllowanceIsRefused`). The faucet's daily
wallet limit does not bind the wallet whose key is all zeroes (`Faucet.WalletLimitHoldsExactly`,
`Witnesses.SentinelIsPaidEverything`). The rewards of a receipt settled at or before Unix time zero can never be released
(`Rewards.RestIsReleasableExactly`, `Witnesses.RewardsLockedForEver`); no run that starts later has one
(`Terms.LocksStartPositive`).

The repository's README says rewards are booked as locked; the code books them as pending and locks them when the receipt
is settled, and so does the model.

## Model

| member | source | states |
|---|---|---|
| Runs.ReachableIsOk | programs/clawfarm-masterpool/src/instructions/receipt.rs:30-246 | after any run from deployment the whole invariant holds: records in range, both programs in agreement, every total a sum over settlements and bonds, every vault backed, faucet counters true |
| Runs.ApplyKeeps | programs/clawfarm-attestation/src/instructions/challenge.rs:85-297 | each of the 22 kinds of step, instruction or not, succeeding or failing, keeps that invariant |
| Runs.InitialIsOk | programs/clawfarm-masterpool/src/instructions/config.rs:19-52 | a fresh deployment satisfies it, whatever CLAW already exists |
| Programs.Deployment.constructor | programs/clawfarm-masterpool/src/instructions/config.rs:19-52 | a deployment whose initialisation was accepted starts in an initial state |
| Programs.Deployment.RegisterProvider | programs/clawfarm-masterpool/src/instructions/provider.rs:20-61 | registering answers and acts as specified, on success and on every failure, and keeps the invariant |
| Programs.Deployment.ExitProvider | programs/clawfarm-masterpool/src/instructions/provider.rs:63-100 | leaving answers and acts as specified; the stake is always in the vault, so the payout fails only on the destination's mint |
| Programs.Deployment.RecordMiningFromReceipt | programs/clawfarm-masterpool/src/instructions/receipt.rs:30-160 | recording answers and acts as specified, wherever the accounts it is given are in order, as `Handlers.RecordingIsReady` says they always are; the splits and the addition to the provider's escrow total never fail; what is booked is `Submissions.SubmitRecords` |
| Handlers.RecordingIsReady | programs/clawfarm-masterpool/src/instructions/receipt.rs:53-137 | in every reachable state the accounts a recording touches hold numbers that fit, and the escrow vault holds all the provider is owed |
| Programs.Deployment.SettleFinalizedReceipt | programs/clawfarm-masterpool/src/instructions/receipt.rs:162-246 | settling answers and acts as specified, wherever what it takes is there, as `Handlers.SettlingIsCovered` says it always is; no subtraction, status check or escrow payment in it can fail |
| Handlers.SettlingIsCovered | programs/clawfarm-masterpool/src/instructions/receipt.rs:174-242 | a receipt that may be finalized has a recorded settlement, and everything that settling subtracts or pays is there |
| Programs.Deployment.RecordChallengeBond | programs/clawfarm-masterpool/src/instructions/challenge.rs:23-85 | posting a bond answers and acts as specified, on what `Handlers.SubmittedIsReadyForBond` provides; the slash split, the status check and the challenge counter never fail; what is posted is `Rulings.OpenPosts` |
| Handlers.SubmittedIsReadyForBond | programs/clawfarm-masterpool/src/instructions/challenge.rs:28-82 | a submitted receipt has a recorded settlement without a bond, and its provider's counter has room for one more challenge |
| Programs.Deployment.ResolveChallengeEconomics | programs/clawfarm-masterpool/src/instructions/challenge.rs:87-243 | both resolutions answer and act as specified, on what `Handlers.OpenIsReadyToResolve` provides; no payment but the reward vault's can fail, both status checks are dead, and so is every subtraction, those from the net position until 2^63 challenges were accepted against the provider (`Solvency.RevertFits`) |
| Handlers.OpenIsReadyToResolve | programs/clawfarm-attestation/src/instructions/challenge.rs:98-102 | an open challenge finds a recorded settlement, a locked bond and everything that either resolution subtracts or pays |
| Programs.Deployment.MaterializeRewardRelease | programs/clawfarm-masterpool/src/instructions/reward.rs:19-97 | a release answers and acts as specified; the vesting computation, the locked check and every subtraction never fail; what may be released is `Rewards.ReleaseSucceedsExactly` |
| Programs.Deployment.ClaimReleasedClaw | programs/clawfarm-masterpool/src/instructions/reward.rs:99-140 | a claim answers and acts as specified; only the reward vault's balance can stop an owner with something due |
| Programs.Deployment.MintGenesisSupply | programs/clawfarm-masterpool/src/instructions/config.rs:54-114 | genesis answers and acts as specified, revokes both authorities, and keeps the invariant |
| Programs.Deployment.UpdateConfig | programs/clawfarm-masterpool/src/instructions/config.rs:116-152 | only validated parameters are applied, and nothing else changes |
| Programs.Deployment.UpdateFaucetLimits | programs/clawfarm-masterpool/src/instructions/faucet.rs:58-64 | only validated limits are applied, and no counter changes |
| Programs.Deployment.FundFaucetClaw | programs/clawfarm-masterpool/src/instructions/faucet.rs:66-93 | funding answers and acts as specified and keeps the inventory equation |
| Programs.Deployment.ClaimFaucet | programs/clawfarm-masterpool/src/instructions/faucet.rs:95-203 | a faucet claim answers and acts as specified; once the balance check has passed neither payout fails |
| Programs.Deployment.SubmitReceipt | programs/clawfarm-attestation/src/instructions/receipt.rs:28-146 | a submission, with the nested recording, answers and acts as specified, all or nothing; when it succeeds is `Submissions.SubmitSucceedsExactly` |
| Submissions.SubmitSucceedsExactly | programs/clawfarm-attestation/src/instructions/receipt.rs:28-79 | a submission succeeds if and only if a registered signer of the provider, active, for the gateway, with a key and within its days, has signed right before it the hash of exactly its terms; the nonce is new; the provider is active; the payer's account covers the charge in balance and allowance; nothing is paused; and no total would overflow, worked out from the charge, the rate and the shares in force |
| Submissions.SubmitRecords | programs/clawfarm-masterpool/src/instructions/receipt.rs:90-157 | what a submission writes, in full, from the charge, the rate and the shares: the payer's reward rounded down and the provider's the rest of it, a debt withheld from the provider's part up to all of it, both credited as pending, the treasury's share rounded down, the lock days in force; and a receipt open to challenges from now on for the length of the window; nothing else changes |
| Submissions.RewardsAreShares | programs/clawfarm-masterpool/src/instructions/receipt.rs:90-115 | the parts of a reward are never negative, the provider's is its share rounded up, and no more is withheld than it |
| Programs.Deployment.OpenChallenge | programs/clawfarm-attestation/src/instructions/challenge.rs:19-83 | opening a challenge, with the nested bond, answers and acts as specified, all or nothing; what it leaves is `Rulings.OpenPosts` |
| Rulings.OpenPosts | programs/clawfarm-masterpool/src/instructions/challenge.rs:54-82 | opening moves the bond from the challenger to the bond vault and fixes bond, slash and shares at the parameters in force, the challenger's part of the slash rounded down and the rest to be burned; the challenge starts now and the receipt is challenged; nothing else changes |
| Rulings.AcceptanceReverts | programs/clawfarm-attestation/src/instructions/challenge.rs:110-214 | what each accepting ruling writes in both programs: settlement reverted, bond returned, all that the receipt earned taken back, the slash taken from the net position, both counters lowered, and which status and resolution each of the three codes leaves |
| Rulings.RejectionLeaves | programs/clawfarm-masterpool/src/instructions/challenge.rs:120-136 | what a ruling of rejection writes: bond burned, challenge rejected, receipt finalized now and not settled, one open challenge less |
| Rulings.TimeoutLeaves | programs/clawfarm-attestation/src/instructions/challenge.rs:226-287 | a time-out writes the same |
| Rulings.FinalizeSettles | programs/clawfarm-masterpool/src/instructions/receipt.rs:174-242 | what finalizing writes: the lock starts now, both rewards move from pending to locked, the provider is owed this receipt no more, and a receipt finalized by a rejection keeps its time |
| Rulings.CloseReceiptSucceedsExactly | programs/clawfarm-attestation/src/instructions/receipt.rs:213-222 | a receipt can be closed if and only if its settlement is settled or reverted |
| Rulings.CloseChallengeSucceedsExactly | programs/clawfarm-attestation/src/instructions/challenge.rs:299-306 | a challenge can be closed if and only if its bond is no longer locked |
| Providers.RegisterSucceedsExactly | programs/clawfarm-masterpool/src/instructions/provider.rs:20-40 | a wallet can register if and only if it never did and has a USDC account of its own that pays the stake |
| Providers.RegisterLeaves | programs/clawfarm-masterpool/src/instructions/provider.rs:26-58 | registering moves the stake in force into the stake vault and starts an active provider and its reward account at zero |
| Providers.ExitSucceedsExactly | programs/clawfarm-masterpool/src/instructions/provider.rs:63-76 | a provider can leave if and only if it is active, all its receipts are settled or reverted, it has no debt and the destination is in USDC; the vault holds its stake |
| Providers.ExitLeaves | programs/clawfarm-masterpool/src/instructions/provider.rs:78-97 | leaving pays out the whole stake, once |
| Programs.Deployment.ResolveChallenge | programs/clawfarm-attestation/src/instructions/challenge.rs:85-224 | a ruling, with the nested economics, answers and acts as specified, all or nothing, though the receipt's status is never looked at |
| Programs.Deployment.TimeoutRejectChallenge | programs/clawfarm-attestation/src/instructions/challenge.rs:226-297 | a time-out acts exactly as a ruling of rejection |
| Programs.Deployment.FinalizeReceipt | programs/clawfarm-attestation/src/instructions/receipt.rs:148-211 | finalizing, with the nested settlement, answers and acts as specified, all or nothing |
| Programs.Deployment.CloseReceipt | programs/clawfarm-attestation/src/instructions/receipt.rs:213-240 | only a terminal, settled receipt can be closed, and closing it changes nothing else |
| Programs.Deployment.CloseChallenge | programs/clawfarm-attestation/src/instructions/challenge.rs:299-315 | only a resolved challenge can be closed, and closing it changes nothing else |
| Handlers.InitializeRewardAccount | programs/clawfarm-masterpool/src/utils.rs:209-237 | a fresh account starts empty; an existing one is left alone, and refused if its owner or kind differs |
| Handlers.CreditPending | programs/clawfarm-masterpool/src/instructions/receipt.rs:111-130 | crediting adds the amount exactly or reports overflow; a zero share cannot fail |
| Handlers.ChargePayer | programs/clawfarm-masterpool/src/instructions/receipt.rs:60-88 | exactly when the two transfers of a charge go through, and what the token accounts are then |
| Handlers.UsdcShares | programs/clawfarm-masterpool/src/instructions/receipt.rs:60-61 | under accepted parameters the USDC split never fails and loses nothing |
| Handlers.ClawShares | programs/clawfarm-masterpool/src/instructions/receipt.rs:90-95 | under accepted parameters the CLAW reward and its split never fail |
| Handlers.Unlock | programs/clawfarm-masterpool/src/instructions/receipt.rs:194-208 | moving a covered amount from pending to locked fails only where locked overflows |
| Handlers.PaySlash | programs/clawfarm-masterpool/src/instructions/challenge.rs:172-201 | the slash is paid and burned exactly if the reward vault holds all of it, whichever part is zero |
| Handlers.PayAccepted | programs/clawfarm-masterpool/src/instructions/challenge.rs:158-215 | of the four payments of an accepted challenge only the slash can fail |
| Handlers.RevertedProvider | programs/clawfarm-masterpool/src/instructions/challenge.rs:217-236 | the two-step subtraction from the net position fails exactly where the combined one does |
| Handlers.CountClaim | programs/clawfarm-masterpool/src/instructions/faucet.rs:95-163 | the checks and counter updates of a claim against lazily reset windows |
| Handlers.ResetGlobalIfNeeded | programs/clawfarm-masterpool/src/instructions/faucet.rs:220-227 | the global window of another day starts at zero, that of today is untouched |
| Handlers.InitializeOrResetUserIfNeeded | programs/clawfarm-masterpool/src/instructions/faucet.rs:229-253 | the three cases of a user record: sentinel owner, foreign owner, own |
| Handlers.PayOut | programs/clawfarm-masterpool/src/instructions/faucet.rs:165-200 | once checked both payouts go through, and skipping payouts of zero leaves the same token accounts as making them |
| Handlers.FinalizedReceipt | programs/clawfarm-attestation/src/instructions/receipt.rs:153-166 | exactly which receipts can be finalized when, and with which error the others are refused |
| Handlers.Ruled | programs/clawfarm-attestation/src/instructions/challenge.rs:103-214 | challenge and receipt after each of the four rulings |
| Handlers.VestingNeverFails | programs/clawfarm-masterpool/src/instructions/reward.rs:51-58 | on a settled receipt what was released never exceeds what is vested, so the vesting computation never underflows |
| Lifecycle.StatusesCoincide | programs/clawfarm-attestation/src/instructions/challenge.rs:98-214 | for a live receipt its status and what its settlement, its challenge and its bond are determine each other; a submitted one has no challenge, a settled one no bond but a burned one, and payer and provider agree |
| Lifecycle.OnlyChallengedReceiptsAreResolved | programs/clawfarm-attestation/src/instructions/challenge.rs:98-107 | a resolution that succeeds has a challenged, unsettled receipt, a recorded settlement and a locked bond, though none of that is checked there |
| Lifecycle.ChargedAsSigned | programs/clawfarm-attestation/src/instructions/receipt.rs:57-79 | what a live receipt was charged, to whom and for whom, is what the signed hash commits to |
| Lifecycle.EconomicStepsDescend | programs/clawfarm-attestation/src/instructions/receipt.rs:148-211 | every economic step on a nonce strictly lowers its rank, is possible only at ranks of its own, and leaves every other nonce's stage alone |
| Lifecycle.OtherActionsKeepRank | programs/clawfarm-attestation/src/instructions/receipt.rs:213-231 | nothing else moves a rank; closing accounts does not |
| Lifecycle.EachRankOnce | programs/clawfarm-attestation/src/instructions/challenge.rs:19-297 | over any run each rank is left at most once |
| Programs.Deployment.CheckSubmission | programs/clawfarm-attestation/src/instructions/receipt.rs:28-92 | the checks of a submission, in order, and the receipt it writes; which bytes satisfy the last check is `Ed25519.AcceptedExactly` |
| Lifecycle.ChargedAndChallengedAtMostOnce | programs/clawfarm-masterpool/src/instructions/receipt.rs:288-295 | over any run from deployment a nonce is charged at most once and challenged at most once, even after its receipt and challenge accounts are closed |
| Progress.OpenSucceedsExactly | programs/clawfarm-attestation/src/instructions/challenge.rs:19-60 | opening a challenge succeeds if and only if the receipt is submitted, its window open, processing not paused, the type known and the challenger, not the pool, owns a CLAW account that pays the bond; nothing the masterpool loads or counts is a condition, and the bond is then paid |
| Progress.DeadlinePartsTheClock | programs/clawfarm-attestation/src/instructions/challenge.rs:32-39 | of a submitted receipt, a payable bond and a destination that can receive, exactly one of challenging and finalizing succeeds at every later time: up to the deadline the first, after it the second |
| Progress.FinalizeSucceedsExactly | programs/clawfarm-attestation/src/instructions/receipt.rs:148-203 | finalizing succeeds if and only if the receipt is due, the destination fits, locked totals have room and it is not paused; that the settlement is recorded and unsettled, that its accounts exist and that every amount subtracted is there follows from the invariant, and the escrow vault's payment goes through |
| Progress.AcceptSucceedsExactly | programs/clawfarm-masterpool/src/instructions/challenge.rs:137-236 | an open challenge can be accepted, by each of the three codes, if and only if processing is not paused, both recipients' accounts fit, the reward vault holds the slash agreed at posting and the net position holds it, which it does until 2^63 challenges were accepted against the provider |
| Progress.AcceptNeverOverflows | programs/clawfarm-masterpool/src/instructions/challenge.rs:222-229 | in any run of fewer than 2^63 steps from deployment the net position is no condition at all |
| Progress.RejectSucceedsExactly | programs/clawfarm-masterpool/src/instructions/challenge.rs:120-136 | an open challenge can be rejected if and only if processing is not paused |
| Progress.TimeoutSucceedsExactly | programs/clawfarm-attestation/src/instructions/challenge.rs:226-249 | a time-out succeeds if and only if the receipt is challenged, its deadline is representable and past, and processing is not paused |
| Progress.ShortVaultDecidesChallenge | programs/clawfarm-masterpool/src/instructions/challenge.rs:172-201 | while the reward vault holds less than the slash every accepting ruling is refused, and once the time-out is past the bond is burned and the receipt settled, whatever the merit of the challenge |
| Progress.UnsettledCanAlwaysSettle | programs/clawfarm-attestation/src/instructions/challenge.rs:226-287 | from any unsettled receipt, once ripe and unpaused, time-out and finalization bring it to its end whatever the reward vault holds |
| Solvency.DebtIsFair | programs/clawfarm-masterpool/src/instructions/receipt.rs:117-134 | a provider's pending, locked and released rewards are its net position plus slashes not yet withheld; withholding never exceeds the slashes, so rewards never fall short of a positive net position |
| Solvency.ClaimsAndWithheldAreEarned | programs/clawfarm-masterpool/src/instructions/receipt.rs:117-134 | what a provider can still claim or has been released, and what was withheld, together are what its standing receipts earned |
| Solvency.NetPositionClosedForm | programs/clawfarm-masterpool/src/instructions/challenge.rs:222-229 | the net position is the sum of what stands earned less the sum of slashes |
| Solvency.NetPositionFloor | programs/clawfarm-masterpool/src/instructions/challenge.rs:222-229 | a net position is at least minus the largest u64 for each challenge accepted against the provider |
| Solvency.RevertFits | programs/clawfarm-masterpool/src/instructions/challenge.rs:222-229 | neither subtraction from the net position overflows unless 2^63 challenges were accepted against the provider before |
| Solvency.ReturnsAreSteps | programs/clawfarm-masterpool/src/instructions/challenge.rs:217-232 | over any run from deployment no more challenges are accepted than steps are taken |
| Solvency.RewardsAgreeWithSettlements | programs/clawfarm-masterpool/src/instructions/reward.rs:73-93 | each total of a reward account is a sum over its owner's settlements, and claimed never exceeds released |
| Solvency.EscrowIsExact | programs/clawfarm-masterpool/src/instructions/receipt.rs:219-242 | the escrow vault holds exactly the providers' pending totals, which are exactly the recorded settlements' shares, plus gifts |
| Solvency.ClawInventory | programs/clawfarm-masterpool/src/instructions/challenge.rs:120-231 | after genesis the reward vault, the bond vault and the CLAW supply are exactly accounted for by claims, slashes, bonds, burns and faucet funding |
| Solvency.SupplyNeverRises | programs/clawfarm-masterpool/src/instructions/config.rs:84-108 | over any run after genesis the CLAW supply never rises |
| Leaving.LeavingIsCleanAndFinal | programs/clawfarm-masterpool/src/instructions/provider.rs:63-97 | a provider that leaves has no recorded settlement and no debt, and after any run has exactly the same settlements and net position |
| Leaving.LeavingIsFinal | programs/clawfarm-masterpool/src/instructions/receipt.rs:55-58 | no run changes the account, or adds or changes a settlement, of a provider that has left |
| Leaving.CountersCount | programs/clawfarm-masterpool/src/instructions/challenge.rs:80-82 | the two counters are the numbers of recorded settlements and locked bonds, and the second never exceeds the first |
| Governance.UpdatesDoNotReachBack | programs/clawfarm-masterpool/src/instructions/config.rs:116-152 | parameter changes inserted anywhere among steps that record nothing new change the outcome of none of them |
| Governance.LastUpdateRules | programs/clawfarm-masterpool/src/instructions/config.rs:116-122 | over any run the parameters in force are those of the last update whose parameters were accepted |
| Terms.TermsNeverChange | programs/clawfarm-masterpool/src/instructions/receipt.rs:140-157 | over any run, whatever steps and parameter changes it has, a settlement keeps payer, provider, amounts and lock period, what it released never shrinks, its status and lock start are final once it is settled or reverted, and a bond keeps all but its status, final once resolved |
| Terms.LocksStartPositive | programs/clawfarm-masterpool/src/instructions/receipt.rs:241-242 | in a run that starts after time zero every lock starts at a positive time |
| Terms.LockedForEver | programs/clawfarm-masterpool/src/instructions/reward.rs:31-34 | a settlement whose lock started at or before time zero never changes again, whatever steps follow: nothing more of it is ever released |
| Payments.SubmitCharges | programs/clawfarm-masterpool/src/instructions/receipt.rs:63-88 | a submission takes exactly the charge from the payer's balance and the delegate's allowance, splits it between treasury and escrow, and touches no other account |
| Payments.FinalizePays | programs/clawfarm-masterpool/src/instructions/receipt.rs:219-232 | settling moves exactly the provider's share from escrow to its account and nothing else |
| Payments.AcceptancePays | programs/clawfarm-masterpool/src/instructions/challenge.rs:158-215 | who receives what when a challenge is accepted, to the unit, from the slash and the shares agreed when the bond was posted: the challenger's part rounded down, the burned part rounded up; the treasury's share of the charge is not refunded |
| Payments.RejectionBurnsBond | programs/clawfarm-masterpool/src/instructions/challenge.rs:120-136 | a rejection burns exactly the bond and moves nothing else |
| Payments.ClaimSucceedsExactly | programs/clawfarm-masterpool/src/instructions/reward.rs:99-122 | a claim is paid if and only if an owner has something due, claims it into a CLAW account of its own, and the reward vault holds it, unless claims are paused |
| Payments.ClaimPaysAll | programs/clawfarm-masterpool/src/instructions/reward.rs:109-136 | a claim pays everything released and unclaimed, after which nothing is claimable, and changes nothing else |
| Payments.CoveredChargeSucceedsExactly | programs/clawfarm-masterpool/src/instructions/receipt.rs:48-88 | a covered charge succeeds if and only if the treasury does not take all of it, or the allowance exceeds it, or the payer is its own delegate |
| Rewards.ReleaseSucceedsExactly | programs/clawfarm-masterpool/src/instructions/reward.rs:24-83 | on a settled receipt an amount can be released if and only if it is positive, the lock started at a positive time, and with what was released before it is at most the part of the total that is the part of the lock that has passed, second by second; the locked total is never a condition |
| Rewards.NothingElseIsReleased | programs/clawfarm-masterpool/src/instructions/reward.rs:36-50 | of a receipt that is not settled, for another account or by another code nothing can be released |
| Rewards.ReleaseLeaves | programs/clawfarm-masterpool/src/instructions/reward.rs:73-93 | a release moves its amount from locked to released in the account and counts it on the receipt, and changes nothing else |
| Rewards.RestIsReleasableExactly | programs/clawfarm-masterpool/src/instructions/reward.rs:31-34 | after the lock the whole rest can be released if and only if the lock started at a positive time |
| Rewards.NeverOverReleased | programs/clawfarm-masterpool/src/instructions/reward.rs:51-93 | over any run what was released of a receipt is at most what is vested, and nothing is before it is settled |
| Rewards.FaucetCountersAgree | programs/clawfarm-masterpool/src/instructions/faucet.rs:112-163 | over any run the global counters are the day's payouts of the run and the sums over the user records of that day, and no user's day is later than the global one |
| Rewards.LogIsTheRun | programs/clawfarm-masterpool/src/instructions/faucet.rs:165-200 | the payout log is the successful faucet claims of the run and nothing else |
| Rewards.ClaimsOfARunStayWithinLimits | programs/clawfarm-masterpool/src/instructions/faucet.rs:120-146 | over any run, every successful claim leaves its day's true totals, per wallet and in all, within the limits then in force |
| Issuance.GenesisSucceedsExactly | programs/clawfarm-masterpool/src/instructions/config.rs:54-82 | the supply can be minted if and only if it was not, the pool has both authorities and it fits |
| Issuance.GenesisLeaves | programs/clawfarm-masterpool/src/instructions/config.rs:60-114 | genesis puts a thousand million CLAW into the reward vault and gives up both authorities, once |
| Issuance.FundingExactly | programs/clawfarm-masterpool/src/instructions/faucet.rs:66-93 | funding moves any positive amount that the reward vault holds, and only such, into the faucet's vault |
| Issuance.FaucetClaimSucceedsExactly | programs/clawfarm-masterpool/src/instructions/faucet.rs:95-163 | a claim is paid if and only if the faucet is on, it asks for something, it is within the limit per claim and, with everything paid out before on the same day, per wallet and in all, the accounts are the recipient's and the vaults hold it; overflow is no further condition |
| Issuance.FaucetClaimLeaves | programs/clawfarm-masterpool/src/instructions/faucet.rs:148-203 | a claim pays both amounts out of the faucet's vaults, logs who got them on which day, and changes no setting |
| Issuance.LimitsAcceptedExactly | programs/clawfarm-masterpool/src/utils.rs:122-143 | which limits are accepted |
| Faucet.DaysTruncate | programs/clawfarm-masterpool/src/instructions/faucet.rs:205-209 | which times belong to which day, before time zero and after |
| Faucet.ClaimKeepsFaucet | programs/clawfarm-masterpool/src/instructions/faucet.rs:112-163 | a claim keeps the counters in agreement: global counter, sum over user records of that day, and log |
| Refusals.RefusalsAreTrue | programs/clawfarm-attestation/src/instructions/challenge.rs:19-315 | in every reachable state, whatever any of the 16 instructions that can refuse refuses, the reason it gives holds, stated of the accounts and of what was paid out; reasons it never gives are excluded, and an overflow when accepting means 2^63 challenges accepted before |
| Faucet.ResetAgrees | programs/clawfarm-masterpool/src/instructions/faucet.rs:220-253 | what the lazily reset records show at the start of a claim is what was paid out that day |
| Faucet.ClaimsStayWithinLimits | programs/clawfarm-masterpool/src/instructions/faucet.rs:128-146 | an accepted claim leaves the day's totals within the limits |
| Faucet.WalletLimitHoldsExactly | programs/clawfarm-masterpool/src/instructions/faucet.rs:235-243 | the wallet limit binds every wallet but the one whose key is the uninitialised sentinel |
| Witnesses.ExactAllowanceIsRefused | programs/clawfarm-masterpool/src/instructions/receipt.rs:63-88 | from a fresh deployment, after one registration, a submission in order whose allowance is exactly its charge is refused when the treasury takes all |
| Witnesses.SentinelIsPaidEverything | programs/clawfarm-masterpool/src/instructions/faucet.rs:235-243 | from a fresh deployment, against a limit of one unit a wallet and day, as many claims as one likes all succeed for the all-zero key, up to the limit for the whole day |
| Witnesses.RewardsLockedForEver | programs/clawfarm-masterpool/src/instructions/reward.rs:31-34 | from a fresh deployment, a receipt recorded and then settled at time zero, none of whose five units of reward is released by any continuation of the run |
| Vesting.VestedIsLinear | programs/clawfarm-masterpool/src/utils.rs:157-164 | vesting is linear: an amount is vested exactly when amount times lock is at most total times seconds passed |
| Vesting.ReleasableIsLinear | programs/clawfarm-masterpool/src/utils.rs:145-167 | the checked computation allows exactly the amounts that, with what was released before, are vested so; it fails only if more was released already |
| Vesting.ReleasableIsVestedRest | programs/clawfarm-masterpool/src/utils.rs:145-167 | for every u64 total and u16 number of days nothing overflows, and the computation gives what is vested less what was released, or underflows |
| Vesting.VestedGrows | programs/clawfarm-masterpool/src/utils.rs:157-164 | the vested amount grows with time, from zero to exactly the total |
| Vesting.ScheduleIsBounded | programs/clawfarm-masterpool/src/instructions/reward.rs:51-93 | any schedule of releases takes what it asks for and never more than is vested |
| Vesting.AnyPathEndsVested | programs/clawfarm-masterpool/src/instructions/reward.rs:51-93 | after any schedule, releasing the rest brings the total to the vested amount, with no dust after the lock |
| Params.AcceptanceCriterion | programs/clawfarm-masterpool/src/utils.rs:10-72 | exactly which parameters are accepted; of all bounds probed only the largest reward can overflow |
| Params.AcceptedParamsAreSafe | programs/clawfarm-masterpool/src/utils.rs:45-100 | accepted parameters make every split of every supported charge succeed, and each remainder is its nominal share rounded up |
| Params.AcceptedSlashIsSafe | programs/clawfarm-masterpool/src/instructions/challenge.rs:54-61 | the same for the slash |
| Preimage.BuildCompactReceiptHash | programs/clawfarm-attestation/src/utils.rs:42-56 | the program's appended buffer is the specified preimage |
| Preimage.ScriptAgreesWithProgram | scripts/phase1/compact-receipt.ts:110-128 | the script builds a preimage exactly from inputs that name a program's fields, and then the same one |
| Preimage.PreimageLayout | programs/clawfarm-attestation/src/utils.rs:42-56 | where each field stands in the preimage, and which digit of which number each of its last 24 bytes is |
| Preimage.PreimageDecodes | programs/clawfarm-attestation/src/utils.rs:43-53 | every preimage has 203 bytes and decodes to its eight fields |
| Preimage.DecodedIsPreimage | programs/clawfarm-attestation/src/utils.rs:43-53 | every string that decodes is the preimage of what it decodes to |
| Preimage.PreimageIsInjective | programs/clawfarm-attestation/src/utils.rs:43-53 | different receipts have different preimages |
| Preimage.LeRoundTrip | scripts/phase1/compact-receipt.ts:281-285 | little-endian numbers read back |
| Ed25519.AcceptedExactly | programs/clawfarm-attestation/src/utils.rs:58-113 | byte by byte, exactly which instruction before the running one is accepted for a signer and a message, and which of the two errors the others get |
| Ed25519.ReferenceAcceptedExactly | programs/clawfarm-attestation/src/tests.rs:235-257 | data in the reference layout is accepted for its own signer and message, and for no other |
| Ed25519.VouchesForOne | programs/clawfarm-attestation/src/utils.rs:58-113 | one instruction, of whatever bytes, vouches for at most one signer and message |
| TokenLedger.HolderPays | programs/clawfarm-masterpool/src/instructions/receipt.rs:63-88 | a payment its payer can make goes through and conserves every mint |
| CanonicalReading.TextIsMeaning | scripts/phase1/compact-receipt.ts:238-269 | two accepted values, with any numbers in them, have the same canonical text if and only if they mean the same, records being maps |
| CanonicalReading.OrderDoesNotMatter | scripts/phase1/compact-receipt.ts:258-260 | reordering an object's entries or adding undefined ones never changes its text |
| CanonicalReading.Reads | scripts/phase1/compact-receipt.ts:238-269 | no canonical text is a proper beginning of another in any context a value can stand in |
| CanonicalLaws.ThrowsExactly | scripts/phase1/compact-receipt.ts:245-269 | exactly which values the printer refuses, among all that may be given to it: infinite numbers and NaN, bigints, functions, symbols, and undefined anywhere but as the value of an entry |
| CanonicalLaws.SortSorts | scripts/phase1/compact-receipt.ts:258-260 | sorting gives the same entries, each key before every later one: at the first unit where they differ it has ended or has the smaller one |
| CanonicalLaws.LessExactly | scripts/phase1/compact-receipt.ts:271-279 | the comparison, which takes one unit after the other, is that order |
| CanonicalLaws.OneOrderOnly | scripts/phase1/compact-receipt.ts:271-279 | distinct keys have one order, so any sorting algorithm gives this result |
| CanonicalLaws.KeysAreCompared | scripts/phase1/compact-receipt.ts:271-279 | the sign of a comparison says which of two keys comes first, and zero that they are equal |
| CanonicalLaws.QuotedReadsBack | scripts/phase1/compact-receipt.ts:242-244 | a quoted string, whatever its escapes and unpaired surrogates, reads back, whatever follows it |
| CanonicalText.QuotedExactly | scripts/phase1/compact-receipt.ts:242-244 | the text of a string, unit by unit: surrogate pairs as they are, seven units with a letter, other controls and unpaired surrogates in four lower-case hexadecimal digits, all else as it is |
| CanonicalText.ScalarsExactly | scripts/phase1/compact-receipt.ts:238-253 | the three words, and numbers in decimal without leading zeros |
| CanonicalText.ArrayExactly | scripts/phase1/compact-receipt.ts:254-256 | an array is its items' texts in order, with commas between them |
| CanonicalText.ObjectExactly | scripts/phase1/compact-receipt.ts:257-268 | an object is its defined entries and nothing else, key, colon and value, in the order of the keys, with commas between them |
| Surrogates.TextIsPaired | scripts/phase1/compact-receipt.ts:102-108 | canonical text is well-formed UTF-16, so encoding it as UTF-8 before hashing replaces nothing |
| ReceiptMetadata.MetadataTextExactly | scripts/phase1/compact-receipt.ts:87-100 | the text of metadata: each field that is given under its own name, in the order of the ten names |
| ReceiptMetadata.MetadataTextIsInjective | scripts/phase1/compact-receipt.ts:87-100 | metadata has a canonical text if and only if its times are finite, and two such records share one if and only if they are equal |

## Left out

- Timestamps of record creation and update, events, account sizes and rent: nothing reads them.
- Address derivation, program ids, sysvar loading and signatures of administrators, resolvers and the closing authority: an action of theirs may come at any time, so what is proved holds whoever signs.
- SHA-256 and signature verification: the hash is an arbitrary function, so agreement is proved of preimages; that a signature is valid is the precompile's business.
- Creation of vaults and configuration accounts: a run starts from a state in which initialisation has succeeded; a zero or negative window is not part of it.
- Frozen accounts, account closing and multisignature owners in the token program: not part of `TokenLedger`; whatever outsiders do to accounts is a single step that keeps conservation and custody.
- Signer registry administration, pause flags and the faucet's on-off switch: present in runs as arbitrary changes, without handlers of their own.
- Accounts missing from a transaction: an instruction that names an account which is not there fails with one error, without Anchor's finer distinctions.
- Records are loaded, changed and written back as values, as the programs' framework does; `Deployment` holds them in maps, so two names for one record do not arise.
- Third mints: every token account is in CLAW or USDC.
- Number formatting: a finite number that is no safe integer is known by the text the engine prints for it, which is taken to be a different one for every number, and negative zero is the number zero.
- The remaining scripts under scripts/phase1: they plumb input and output.

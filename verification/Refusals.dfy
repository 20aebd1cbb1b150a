/** Whatever an instruction refuses, it refuses for the reason it gives. */
module Refusals {
  import opened Outcomes
  import opened Widths
  import opened TokenLedger
  import opened Preimage
  import opened Ed25519
  import Faucet
  import opened Accounts
  import opened Masterpool
  import opened Attestation
  import opened Invariant
  import opened Facts
  import opened StepsChallenge
  import opened Payments
  import opened Runs
  import opened Submissions
  import opened Issuance
  import opened Vesting
  import opened Solvency
  import opened Providers
  import opened Params

  // ---- token accounts ------------------------------------------------------

  ghost predicate Missing(s: State, token: TokenId) {
    token !in s.ledger.accounts
  }

  /** An account that is there, but not the owner's. */
  ghost predicate NotOf(s: State, token: TokenId, owner: Pubkey) {
    token in s.ledger.accounts && s.ledger.accounts[token].owner != owner
  }

  ghost predicate NotIn(s: State, token: TokenId, mint: Mint) {
    token in s.ledger.accounts && s.ledger.accounts[token].mint != mint
  }

  /** Its owner cannot pay so much from it. */
  ghost predicate CannotPay(s: State, token: TokenId, amount: int) {
    && token in s.ledger.accounts
    && var t := s.ledger.accounts[token];
       t.amount < amount || (t.delegate == Some(t.owner) && t.allowance < amount)
  }

  // ---- submissions ---------------------------------------------------------

  /** Why a registered signer may not sign now. */
  ghost predicate Unfit(signer: ProviderSigner, now: i64, e: Error) {
    match e
    case SignerInactive => signer.status != SignerIsActive
    case SignerMismatch => !HasKey(signer)
    case SignerAttesterTypeMismatch => signer.attesterTypeMask / 2 % 2 == 0
    case SignerNotYetValid => now < signer.validFrom
    case SignerExpired => signer.validUntil != 0 && now > signer.validUntil
    case _ => false
  }

  /** Why the payer's account may not be charged. */
  ghost predicate Uncharged(t: TokenAccount, a: Submission, e: Error) {
    match e
    case InvalidTokenOwner => t.owner != a.payer
    case InvalidTokenMint => t.mint != Usdc
    case InvalidPaymentDelegate => t.delegate != Some(a.delegate)
    case InsufficientDelegatedAllowance => t.allowance < a.chargeAtomic
    case TokenInsufficientFunds => t.amount < a.chargeAtomic
    case _ => false
  }

  lemma SignerErrorIsTrue(signer: ProviderSigner, now: i64)
    requires SignerGuard(signer, now).Err?
    ensures Unfit(signer, now, SignerGuard(signer, now).error)
  {
    HasKeyExactly(signer);
  }

  lemma PayerErrorIsTrue(t: TokenAccount, a: Submission)
    requires PayerGuard(t, SubmittedCharge(a)).Err?
    ensures Uncharged(t, a, PayerGuard(t, SubmittedCharge(a)).error)
  {
  }

  ghost predicate Unsigned(s: State, a: Submission, signer: ProviderSigner, e: Error) {
    || Unfit(signer, s.now, e)
    || (e == ReceiptHashMismatch && a.receiptHash != s.sha256(PreimageOf(HashInputs(
          a.requestNonceHash, a.metadataHash, signer.providerWallet, a.payer, s.config.usdcMint,
          a.promptTokens, a.completionTokens, a.chargeAtomic))))
    || (e == ReceiptIdentityMismatch && a.providerAccount != signer.providerWallet)
    || ((e == MissingEd25519Instruction || e == Ed25519InstructionMismatch)
        && !SignedBefore(a.transaction, signer.signer, a.receiptHash))
  }

  /** What is wrong with a submission before its charge is looked at. */
  ghost predicate Unsubmitted(s: State, a: Submission, e: Error) {
    || (e == AccountNotInitialized && (a.signerKey !in s.signers || a.providerAccount !in s.providers))
    || (e == AccountAlreadyInUse && Nonce(a.requestNonceHash) in s.receipts)
    || (e == InvalidTokenTotals && a.promptTokens + a.completionTokens > U64_MAX)
    || (e == ProgramPaused && s.attestation.isPaused)
    || (a.signerKey in s.signers && Unsigned(s, a, s.signers[a.signerKey], e))
  }

  lemma SubmissionErrorIsTrue(s: State, a: Submission)
    requires SubmissionGuard(s, a).Err?
    requires a.providerAccount in s.providers ==> s.providers[a.providerAccount].wallet == a.providerAccount
    ensures Unsubmitted(s, a, SubmissionGuard(s, a).error)
  {
    if a.signerKey in s.signers {
      var signer := s.signers[a.signerKey];
      AcceptedExactly(a.transaction, signer.signer, a.receiptHash);
      if SignerGuard(signer, s.now).Err? {
        SignerErrorIsTrue(signer, s.now);
      }
    }
  }

  /** The treasury takes the whole charge and with it the whole allowance. */
  ghost predicate LastOfAllowance(s: State, a: Submission) {
    && s.config.params.treasuryUsdcShareBps == 1_000 && a.delegate != a.payer
    && a.payerToken in s.ledger.accounts && s.ledger.accounts[a.payerToken].allowance == a.chargeAtomic
  }

  /** Whatever the shares in force come to, some total would overflow. */
  ghost predicate NoRoom(s: State, a: Submission) {
    && a.providerAccount in s.providers
    && forall r :: IsReward(r, s.config.params, a.chargeAtomic, s.providers[a.providerAccount].clawNetPosition) ==>
         !HasRoom(s, a, r)
  }

  /** What is wrong with its charge. */
  ghost predicate Unrecorded(s: State, a: Submission, e: Error) {
    || (e == AccountNotInitialized && Missing(s, a.payerToken))
    || (e == AccountAlreadyInUse && Nonce(a.requestNonceHash) in s.settlements)
    || (e == ReceiptRecordingPaused && s.config.pauseReceiptRecording)
    || (e == InvalidPositiveAmount && a.chargeAtomic == 0)
    || (e == ReceiptChargeTooLarge && a.chargeAtomic > 1_000_000_000_000_000)
    || (a.payerToken in s.ledger.accounts && Uncharged(s.ledger.accounts[a.payerToken], a, e))
    || (e == ProviderNotActive && a.providerAccount in s.providers && s.providers[a.providerAccount].status == Exited)
    || (e == TokenOwnerMismatch && LastOfAllowance(s, a))
    || (e == MathOverflow && NoRoom(s, a))
  }

  lemma OverflowIsTrue(s: State, a: Submission)
    requires Inv(s) && a.providerAccount in s.providers && ProviderKey(a.providerAccount) in s.rewards
    requires 0 < a.chargeAtomic <= MAX_RECEIPT_USDC_ATOMIC
    requires BookingGuard(s, SubmittedCharge(a), NewSettlement(s, SubmittedCharge(a))).Err?
    ensures NoRoom(s, a)
  {
    var net := s.providers[a.providerAccount].clawNetPosition;
    forall r | IsReward(r, s.config.params, a.chargeAtomic, net) ensures !HasRoom(s, a, r) {
      RewardsAreShares(s, a.chargeAtomic, net, r);
      BookingGuardExactly(s, a, r);
    }
  }

  lemma AllowanceErrorIsTrue(s: State, a: Submission)
    requires Inv(s) && a.providerAccount in s.providers && 0 < a.chargeAtomic
    requires a.payerToken in s.ledger.accounts && s.ledger.accounts[a.payerToken].allowance >= a.chargeAtomic
    requires NewSettlement(s, SubmittedCharge(a)).usdcToProvider <= 0
    requires s.ledger.accounts[a.payerToken].allowance <= a.chargeAtomic && a.delegate != a.payer
    ensures LastOfAllowance(s, a)
  {
    AcceptanceCriterion(s.config.params);
    ShareIsWhole(a.chargeAtomic, s.config.params.treasuryUsdcShareBps);
  }

  lemma RecordErrors(s: State, a: Submission)
    requires a.providerAccount in s.providers && ProviderKey(a.providerAccount) in s.rewards
    requires TreasuryVault in s.ledger.accounts && EscrowVault in s.ledger.accounts
    requires RecordGuard(s, Nonce(a.requestNonceHash), SubmittedCharge(a)).Err?
    ensures var e := RecordGuard(s, Nonce(a.requestNonceHash), SubmittedCharge(a)).error;
            || (e != TokenOwnerMismatch && e != MathOverflow && Unrecorded(s, a, e))
            || (0 < a.chargeAtomic <= MAX_RECEIPT_USDC_ATOMIC && a.payerToken in s.ledger.accounts
                && s.ledger.accounts[a.payerToken].allowance >= a.chargeAtomic
                && var st := NewSettlement(s, SubmittedCharge(a));
                   || (e == TokenOwnerMismatch && st.usdcToProvider <= 0 && a.delegate != a.payer
                       && s.ledger.accounts[a.payerToken].allowance <= a.chargeAtomic)
                   || (e == MathOverflow && BookingGuard(s, SubmittedCharge(a), st).Err?))
  {
    if a.payerToken in s.ledger.accounts && PayerGuard(s.ledger.accounts[a.payerToken], SubmittedCharge(a)).Err? {
      PayerErrorIsTrue(s.ledger.accounts[a.payerToken], a);
    }
  }

  lemma RecordErrorIsTrue(s: State, a: Submission)
    requires Inv(s) && a.providerAccount in s.providers
    requires RecordGuard(s, Nonce(a.requestNonceHash), SubmittedCharge(a)).Err?
    ensures Unrecorded(s, a, RecordGuard(s, Nonce(a.requestNonceHash), SubmittedCharge(a)).error)
  {
    var e := RecordGuard(s, Nonce(a.requestNonceHash), SubmittedCharge(a)).error;
    assert ProviderOk(s, a.providerAccount);
    RecordErrors(s, a);
    if e == TokenOwnerMismatch {
      AllowanceErrorIsTrue(s, a);
    } else if e == MathOverflow {
      OverflowIsTrue(s, a);
    }
  }

  lemma SubmitErrorIsTrue(s: State, a: Submission)
    requires Inv(s) && SubmitGuard(s, a).Err?
    ensures Unsubmitted(s, a, SubmitGuard(s, a).error) || Unrecorded(s, a, SubmitGuard(s, a).error)
  {
    assert ProviderOk(s, a.providerAccount);
    if SubmissionGuard(s, a).Err? {
      SubmissionErrorIsTrue(s, a);
    } else {
      RecordErrorIsTrue(s, a);
    }
  }

  // ---- challenges ----------------------------------------------------------

  ghost predicate Unopened(s: State, n: Nonce, challenger: Pubkey, token: TokenId, challengeType: u8, e: Error) {
    || (e == MissingSignature && challenger == s.poolAuthority)
    || (e == AccountNotInitialized && (n !in s.receipts || Missing(s, token)))
    || (e == AccountAlreadyInUse && n in s.challenges)
    || (e == ChallengeTypeInvalid && challengeType > 4)
    || (e == ReceiptNotChallengeable && n in s.receipts && s.receipts[n].status != Submitted)
    || (e == ChallengeWindowClosed && n in s.receipts && s.now > s.receipts[n].challengeDeadline)
    || (e == ChallengeProcessingPaused && s.config.pauseChallengeProcessing)
    || (e == InvalidTokenOwner && NotOf(s, token, challenger)) || (e == InvalidTokenMint && NotIn(s, token, Claw))
    || (e == TokenInsufficientFunds && CannotPay(s, token, s.config.params.challengeBondClawAmount))
  }

  lemma OpenErrorIsTrue(s: State, n: Nonce, challenger: Pubkey, token: TokenId, challengeType: u8)
    requires Inv(s) && OpenGuard(s, n, challenger, token, challengeType).Err?
    ensures Unopened(s, n, challenger, token, challengeType, OpenGuard(s, n, challenger, token, challengeType).error)
  {
    assert ReceiptOk(s, n);
    if n in s.receipts && s.receipts[n].status == Submitted {
      RecordedIsCovered(s, n);
    }
  }

  ghost predicate Unaccepted(
    s: State, st: Settlement, b: Bond, challengerToken: TokenId, payerToken: TokenId, e: Error)
  {
    || (e == InvalidTokenOwner && (NotOf(s, payerToken, st.payer) || NotOf(s, challengerToken, b.challenger)))
    || (e == InvalidTokenMint && (NotIn(s, payerToken, Usdc) || NotIn(s, challengerToken, Claw)))
    || (e == TokenInsufficientFunds && AmountAt(s.ledger, RewardVault) < b.slashAmount)
    || (e == MathOverflow && Returns(s, st.provider) >= 0x8000_0000_0000_0000)
  }

  ghost predicate Unresolved(
    s: State, n: Nonce, code: u8, challengerToken: TokenId, payerToken: TokenId, e: Error)
  {
    || (e == AccountNotInitialized
        && (n !in s.receipts || n !in s.challenges || Missing(s, challengerToken) || Missing(s, payerToken)))
    || (e == ChallengeResolutionInvalid && (code == 0 || code > 4))
    || (e == ChallengeNotResolvable && n in s.challenges && s.challenges[n].status != Open)
    || (e == ChallengeProcessingPaused && s.config.pauseChallengeProcessing)
    || (n in s.settlements && n in s.bonds && code != 2
        && Unaccepted(s, s.settlements[n], s.bonds[n], challengerToken, payerToken, e))
  }

  lemma RecipientErrorIsTrue(s: State, st: Settlement, b: Bond, challengerToken: TokenId, payerToken: TokenId)
    requires RecipientsGuard(s.ledger, st, b, challengerToken, payerToken).Err?
    ensures var e := RecipientsGuard(s.ledger, st, b, challengerToken, payerToken).error;
            || (e == AccountNotInitialized && (Missing(s, challengerToken) || Missing(s, payerToken)))
            || Unaccepted(s, st, b, challengerToken, payerToken, e)
  {
  }

  lemma AcceptErrors(s: State, n: Nonce, challengerToken: TokenId, payerToken: TokenId)
    requires BondAccounts(s, n) && AcceptGuard(s, n, challengerToken, payerToken).Err?
    ensures var e, st, b := AcceptGuard(s, n, challengerToken, payerToken).error, s.settlements[n], s.bonds[n];
            || (e == AccountNotInitialized && (Missing(s, challengerToken) || Missing(s, payerToken)))
            || (e == ChallengeProcessingPaused && s.config.pauseChallengeProcessing)
            || (e != MathOverflow && Unaccepted(s, st, b, challengerToken, payerToken, e))
            || (e == MathOverflow
                && !FitsI128(s.providers[st.provider].clawNetPosition - st.clawToProviderTotal - b.slashAmount))
  {
    var st, b := s.settlements[n], s.bonds[n];
    if RecipientsGuard(s.ledger, st, b, challengerToken, payerToken).Err? {
      RecipientErrorIsTrue(s, st, b, challengerToken, payerToken);
    }
  }

  lemma AcceptErrorIsTrue(s: State, n: Nonce, challengerToken: TokenId, payerToken: TokenId)
    requires Inv(s) && Resolvable(s, n) && AcceptGuard(s, n, challengerToken, payerToken).Err?
    ensures var e := AcceptGuard(s, n, challengerToken, payerToken).error;
            || (e == AccountNotInitialized && (Missing(s, challengerToken) || Missing(s, payerToken)))
            || (e == ChallengeProcessingPaused && s.config.pauseChallengeProcessing)
            || Unaccepted(s, s.settlements[n], s.bonds[n], challengerToken, payerToken, e)
  {
    AcceptErrors(s, n, challengerToken, payerToken);
    if Returns(s, s.settlements[n].provider) < TWO_TO_THE_63 {
      RevertFits(s, n);
    }
  }

  /** Past its own checks a ruling fails only as the masterpool does. */
  lemma RulingErrors(s: State, n: Nonce, code: u8, challengerToken: TokenId, payerToken: TokenId)
    requires ResolveGuard(s, n, code, challengerToken, payerToken).Err?
    ensures var e := ResolveGuard(s, n, code, challengerToken, payerToken).error;
            || (e == AccountNotInitialized && (n !in s.receipts || n !in s.challenges))
            || (e == ChallengeResolutionInvalid && (code == 0 || code > 4))
            || (e == ChallengeNotResolvable && n in s.challenges && s.challenges[n].status != Open)
            || (n in s.challenges && s.challenges[n].status == Open
                && Err(e) == if code == 2 then RejectGuard(s, n) else AcceptGuard(s, n, challengerToken, payerToken))
  {
  }

  lemma ResolveErrorIsTrue(s: State, n: Nonce, code: u8, challengerToken: TokenId, payerToken: TokenId)
    requires Inv(s) && ResolveGuard(s, n, code, challengerToken, payerToken).Err?
    ensures Unresolved(s, n, code, challengerToken, payerToken,
                       ResolveGuard(s, n, code, challengerToken, payerToken).error)
  {
    RulingErrors(s, n, code, challengerToken, payerToken);
    if n in s.challenges && s.challenges[n].status == Open {
      OpenChallengeIsResolvable(s, n);
      if code != 2 && AcceptGuard(s, n, challengerToken, payerToken).Err? {
        AcceptErrorIsTrue(s, n, challengerToken, payerToken);
      }
    }
  }

  ghost predicate Untimed(s: State, n: Nonce, e: Error) {
    || (e == AccountNotInitialized && (n !in s.receipts || n !in s.challenges))
    || (e == ChallengeProcessingPaused && s.config.pauseChallengeProcessing)
    || (n in s.challenges
        && var c := s.challenges[n];
           var deadline := c.openedAt + s.attestation.challengeResolutionTimeoutSeconds;
           || (e == MathOverflow && deadline > 0x7FFF_FFFF_FFFF_FFFF)
           || (e == ChallengeResolutionTimeoutOpen && s.now <= deadline)
           || (e == ChallengeNotResolvable && c.status != Open))
  }

  lemma TimeoutErrorIsTrue(s: State, n: Nonce)
    requires Inv(s) && TimeoutGuard(s, n).Err?
    ensures Untimed(s, n, TimeoutGuard(s, n).error)
  {
    if n in s.challenges && s.challenges[n].status == Open {
      OpenChallengeIsResolvable(s, n);
    }
  }

  // ---- ends ----------------------------------------------------------------

  ghost predicate Unsettled(s: State, st: Settlement, to: TokenId, e: Error) {
    || (e == InvalidTokenOwner && NotOf(s, to, st.provider)) || (e == InvalidTokenMint && NotIn(s, to, Usdc))
    || (e == MathOverflow
        && (RewardOrFresh(s, UserKey(st.payer)).lockedClaw + st.clawToUser > U64_MAX
            || RewardOrFresh(s, ProviderKey(st.provider)).lockedClaw + st.clawToProviderLocked > U64_MAX))
  }

  ghost predicate Unfinalized(s: State, n: Nonce, to: TokenId, e: Error) {
    || (e == AccountNotInitialized && (n !in s.receipts || Missing(s, to)))
    || (e == FinalizationPaused && s.config.pauseFinalization)
    || (n in s.receipts
        && var r := s.receipts[n];
           || (e == ReceiptNotFinalizable && r.status != Submitted && r.status != Finalized)
           || (e == ChallengeWindowOpen && r.status == Submitted && s.now <= r.challengeDeadline)
           || (e == ReceiptAlreadySettled && r.economicsSettled))
    || (n in s.settlements && Unsettled(s, s.settlements[n], to, e))
  }

  lemma SettleErrorIsTrue(s: State, n: Nonce, to: TokenId)
    requires SettlementAccounts(s, n) && SettlementOk(s, n) && SettleGuard(s, n, to).Err?
    requires RewardOk(s, UserKey(s.settlements[n].payer)) && RewardOk(s, ProviderKey(s.settlements[n].provider))
    ensures var e := SettleGuard(s, n, to).error;
            || (e == AccountNotInitialized && Missing(s, to))
            || (e == FinalizationPaused && s.config.pauseFinalization)
            || Unsettled(s, s.settlements[n], to, e)
  {
  }

  lemma FinalizeErrors(s: State, n: Nonce, to: TokenId)
    requires ReceiptOk(s, n) && FinalizeGuard(s, n, to).Err?
    ensures || Unfinalized(s, n, to, FinalizeGuard(s, n, to).error)
            || (n in s.settlements && s.settlements[n].status == Recorded
                && FinalizeGuard(s, n, to) == SettleGuard(s, n, to))
  {
  }

  lemma FinalizeErrorIsTrue(s: State, n: Nonce, to: TokenId)
    requires Inv(s) && FinalizeGuard(s, n, to).Err?
    ensures Unfinalized(s, n, to, FinalizeGuard(s, n, to).error)
  {
    assert ReceiptOk(s, n);
    FinalizeErrors(s, n, to);
    if n in s.settlements && s.settlements[n].status == Recorded && FinalizeGuard(s, n, to) == SettleGuard(s, n, to) {
      RecordedIsCovered(s, n);
      assert SettlementOk(s, n);
      assert RewardOk(s, UserKey(s.settlements[n].payer)) && RewardOk(s, ProviderKey(s.settlements[n].provider));
      SettleErrorIsTrue(s, n, to);
    }
  }

  ghost predicate Unclosed(s: State, n: Nonce, e: Error) {
    || (e == AccountNotInitialized && n !in s.receipts)
    || (n in s.receipts && n in s.settlements && s.settlements[n].status == Recorded
        && e == if s.receipts[n].status == Finalized then ReceiptEconomicsPending else ReceiptNotClosable)
  }

  lemma CloseReceiptErrorIsTrue(s: State, n: Nonce)
    requires ReceiptOk(s, n) && CloseReceiptGuard(s, n).Err?
    ensures Unclosed(s, n, CloseReceiptGuard(s, n).error)
  {
  }

  ghost predicate UnclosedChallenge(s: State, n: Nonce, e: Error) {
    e == if n in s.challenges && s.challenges[n].status == Open then ChallengeNotClosable else AccountNotInitialized
  }

  lemma CloseChallengeErrorIsTrue(s: State, n: Nonce)
    requires CloseChallengeGuard(s, n).Err?
    ensures UnclosedChallenge(s, n, CloseChallengeGuard(s, n).error)
  {
  }

  // ---- providers -----------------------------------------------------------

  ghost predicate Unregistered(s: State, wallet: Pubkey, token: TokenId, e: Error) {
    || (e == MissingSignature && wallet == s.poolAuthority)
    || (e == AccountAlreadyInUse && wallet in s.providers)
    || (e == AccountNotInitialized && Missing(s, token))
    || (e == InvalidTokenOwner && NotOf(s, token, wallet)) || (e == InvalidTokenMint && NotIn(s, token, Usdc))
    || (e == TokenInsufficientFunds && CannotPay(s, token, s.config.params.providerStakeUsdc))
  }

  lemma RegisterErrorIsTrue(s: State, wallet: Pubkey, token: TokenId)
    requires Inv(s) && RegisterGuard(s, wallet, token).Err?
    ensures Unregistered(s, wallet, token, RegisterGuard(s, wallet, token).error)
  {
    assert RewardOk(s, ProviderKey(wallet));
  }

  ghost predicate Unleft(s: State, wallet: Pubkey, destination: TokenId, e: Error) {
    || (e == MissingSignature && wallet == s.poolAuthority)
    || (e == AccountNotInitialized && (wallet !in s.providers || Missing(s, destination)))
    || (e == TokenMintMismatch && NotIn(s, destination, Usdc))
    || (wallet in s.providers
        && var p := s.providers[wallet];
           || (e == ProviderNotActive && p.status == Exited)
           || (e == ProviderExitBlocked && (!NothingOpen(s, wallet) || p.clawNetPosition < 0)))
  }

  lemma ExitErrorIsTrue(s: State, wallet: Pubkey, destination: TokenId)
    requires StakeVault in s.ledger.accounts && ExitGuard(s, wallet, destination).Err?
    requires wallet in s.providers ==>
      var p := s.providers[wallet];
      NothingOpen(s, wallet) <==> p.pendingUsdc == 0 && p.unsettledReceipts == 0 && p.unresolvedChallenges == 0
    ensures Unleft(s, wallet, destination, ExitGuard(s, wallet, destination).error)
  {
  }

  // ---- rewards -------------------------------------------------------------

  ghost predicate BeyondVested(st: Settlement, code: u8, amount: u64, now: i64) {
    var total := if code == 0 then st.clawToUser else st.clawToProviderLocked;
    var released := if code == 0 then st.userClawReleased else st.providerClawReleased;
    (released + amount) * (st.lockDays * 86_400) > total * SecondsIn(st.lockStartedAt, now, st.lockDays)
  }

  ghost predicate Unvested(s: State, st: Settlement, code: u8, key: RewardKey, amount: u64, e: Error) {
    || (e == InvalidReceiptSettlementState && st.status != FinalizedSettled)
    || (e == RewardLockNotStarted && st.lockStartedAt <= 0)
    || (e == RewardReleaseExceedsVested && BeyondVested(st, code, amount, s.now))
    || (e == InvalidRewardAccountOwner && key.owner != (if code == 0 then st.payer else st.provider))
  }

  ghost predicate Unreleased(s: State, n: Nonce, code: u8, key: RewardKey, amount: u64, e: Error) {
    || (e == AccountNotInitialized && (key !in s.rewards || n !in s.settlements))
    || (e == InvalidPositiveAmount && amount == 0)
    || (e == InvalidRewardAccountKind && key.kind != (if code == 0 then UserReward else ProviderReward))
    || (e == InvalidRewardAccountKind && code > 1)
    || (e == MathOverflow && key in s.rewards && s.rewards[key].releasedClaw + amount > U64_MAX)
    || (n in s.settlements && Unvested(s, s.settlements[n], code, key, amount, e))
  }

  lemma BeyondVestedExactly(st: Settlement, code: u8, amount: u64, now: i64)
    requires st.lockDays > 0
    ensures var kind := if code == 0 then UserReward else ProviderReward;
            BeyondVested(st, code, amount, now) <==>
            TargetReleased(st, kind) + amount > Vested(TargetTotal(st, kind), st.lockStartedAt, now, st.lockDays)
  {
    var kind := if code == 0 then UserReward else ProviderReward;
    VestedIsLinear(TargetTotal(st, kind), st.lockStartedAt, now, st.lockDays, TargetReleased(st, kind) + amount);
  }

  lemma ReleaseErrorIsTrue(s: State, n: Nonce, code: u8, key: RewardKey, amount: u64)
    requires ReleaseGuard(s, n, code, key, amount).Err?
    requires RewardOk(s, key) && SettlementOk(s, n)
    ensures Unreleased(s, n, code, key, amount, ReleaseGuard(s, n, code, key, amount).error)
  {
    if n in s.settlements {
      BeyondVestedExactly(s.settlements[n], code, amount, s.now);
    }
  }

  ghost predicate Unclaimed(s: State, key: RewardKey, claimant: Pubkey, token: TokenId, e: Error) {
    || (e == MissingSignature && claimant == s.poolAuthority)
    || (e == AccountNotInitialized && (key !in s.rewards || Missing(s, token)))
    || (e == ClaimsPaused && s.config.pauseClaims)
    || (e == InvalidRewardAccountOwner && key.owner != claimant)
    || (e == InvalidTokenOwner && NotOf(s, token, claimant)) || (e == InvalidTokenMint && NotIn(s, token, Claw))
    || (key in s.rewards
        && var due := s.rewards[key].releasedClaw - s.rewards[key].claimedClaw;
           || (e == NoClaimableRewards && due == 0)
           || (e == TokenInsufficientFunds && AmountAt(s.ledger, RewardVault) < due))
  }

  lemma ClaimErrorIsTrue(s: State, key: RewardKey, claimant: Pubkey, token: TokenId)
    requires Inv(s) && RewardClaimGuard(s, key, claimant, token).Err?
    ensures Unclaimed(s, key, claimant, token, RewardClaimGuard(s, key, claimant, token).error)
  {
    assert RewardOk(s, key);
  }

  // ---- genesis and the faucet ----------------------------------------------

  ghost predicate Unminted(s: State, e: Error) {
    || (e == GenesisAlreadyMinted && s.config.genesisMinted)
    || (e == InvalidClawMintAuthority && s.ledger.clawMintAuthority != Some(s.poolAuthority))
    || (e == InvalidClawFreezeAuthority && s.ledger.clawFreezeAuthority != Some(s.poolAuthority))
    || (e == TokenOverflow && s.ledger.clawSupply + 1_000_000_000_000_000 > U64_MAX)
  }

  lemma GenesisErrorIsTrue(s: State)
    requires RewardVault in s.ledger.accounts && FitsU64(s.ledger.clawSupply) && GenesisGuard(s).Err?
    ensures Unminted(s, GenesisGuard(s).error)
  {
  }

  ghost predicate Unfunded(s: State, amount: u64, e: Error) {
    || (e == InvalidFaucetAmount && amount == 0)
    || (e == FaucetVaultInsufficientBalance && AmountAt(s.ledger, RewardVault) < amount)
  }

  lemma FundErrorIsTrue(s: State, amount: u64)
    requires RewardVault in s.ledger.accounts && FaucetClawVault in s.ledger.accounts
    requires FundFaucetGuard(s, amount).Err?
    ensures Unfunded(s, amount, FundFaucetGuard(s, amount).error)
  {
  }

  /** What is wrong with a claim by what was paid out before. Overflow is reported only beyond a limit. */
  ghost predicate OverLimit(
    f: Faucet.FaucetState, log: seq<Faucet.Payout>, today: int, recipient: Pubkey, claw: u64, usdc: u64, e: Error)
  {
    var l := f.limits;
    || (e == FaucetDisabled && !f.enabled)
    || (e == InvalidFaucetAmount && claw == 0 && usdc == 0)
    || (e == FaucetClaimLimitExceeded && (claw > l.maxClawPerClaim || usdc > l.maxUsdcPerClaim))
    || ((e == FaucetWalletDailyLimitExceeded || e == MathOverflow) && recipient != Faucet.DEFAULT_PUBKEY
        && (Faucet.PaidTo(log, Claw, today, recipient) + claw > l.maxClawPerWalletPerDay
            || Faucet.PaidTo(log, Usdc, today, recipient) + usdc > l.maxUsdcPerWalletPerDay))
    || ((e == FaucetGlobalDailyLimitExceeded || e == MathOverflow)
        && (Faucet.PaidOn(log, Claw, today) + claw > l.maxClawGlobalPerDay
            || Faucet.PaidOn(log, Usdc, today) + usdc > l.maxUsdcGlobalPerDay))
  }

  lemma LimitErrorIsTrue(
    f: Faucet.FaucetState, log: seq<Faucet.Payout>, today: int, recipient: Pubkey, claw: u64, usdc: u64)
    requires Faucet.FaucetOk(f, log, today) && Faucet.ClaimGuard(f, today, recipient, claw, usdc).Err?
    ensures OverLimit(f, log, today, recipient, claw, usdc, Faucet.ClaimGuard(f, today, recipient, claw, usdc).error)
  {
    Faucet.ResetAgrees(f, log, today, recipient, Claw);
    Faucet.ResetAgrees(f, log, today, recipient, Usdc);
    PaidIsPositive(log, f, Claw, today, recipient);
    PaidIsPositive(log, f, Usdc, today, recipient);
  }

  ghost predicate Unpaid(s: State, c: FaucetClaim, e: Error) {
    || (e == AccountNotInitialized && (Missing(s, c.clawToken) || Missing(s, c.usdcToken)))
    || OverLimit(s.faucet, s.history.payouts, Faucet.CurrentDayIndex(s.now), c.recipient, c.claw, c.usdc, e)
    || (e == InvalidTokenOwner && (NotOf(s, c.clawToken, c.recipient) || NotOf(s, c.usdcToken, c.recipient)))
    || (e == InvalidTokenMint && (NotIn(s, c.clawToken, Claw) || NotIn(s, c.usdcToken, Usdc)))
    || (e == FaucetVaultInsufficientBalance
        && (AmountAt(s.ledger, FaucetClawVault) < c.claw || AmountAt(s.ledger, FaucetUsdcVault) < c.usdc))
  }

  lemma FaucetErrorIsTrue(s: State, c: FaucetClaim)
    requires FaucetClaimGuard(s, c).Err?
    requires FaucetClawVault in s.ledger.accounts && FaucetUsdcVault in s.ledger.accounts
    requires Faucet.FaucetOk(s.faucet, s.history.payouts, Faucet.CurrentDayIndex(s.now))
    ensures Unpaid(s, c, FaucetClaimGuard(s, c).error)
  {
    var today := Faucet.CurrentDayIndex(s.now);
    if Faucet.ClaimGuard(s.faucet, today, c.recipient, c.claw, c.usdc).Err? {
      LimitErrorIsTrue(s.faucet, s.history.payouts, today, c.recipient, c.claw, c.usdc);
    }
  }

  // ---- parameters and limits -----------------------------------------------

  ghost predicate Invalid(p: Phase1Params, e: Error) {
    || (e == InvalidPositiveAmount
        && (p.exchangeRateClawPerUsdcE6 == 0 || p.providerStakeUsdc == 0 || p.lockDays == 0
            || p.providerSlashClawAmount == 0 || p.challengeBondClawAmount == 0))
    || (e == InvalidSplitInvariant
        && (p.providerUsdcShareBps + p.treasuryUsdcShareBps != 1_000
            || p.userClawShareBps + p.providerClawShareBps != 1_000 || p.challengerRewardBps + p.burnBps != 1_000))
    || (e == InvalidGovernanceParameters
        && 1_000_000_000_000_000 * p.exchangeRateClawPerUsdcE6 / 1_000_000 > U64_MAX)
  }

  lemma ParamsErrorIsTrue(p: Phase1Params)
    requires ValidateParams(p).Err?
    ensures Invalid(p, ValidateParams(p).error)
  {
    AcceptanceCriterion(p);
  }

  ghost predicate Unordered(l: Faucet.FaucetLimits, e: Error) {
    && e == InvalidFaucetLimits
    && !(0 < l.maxClawPerClaim <= l.maxClawPerWalletPerDay <= l.maxClawGlobalPerDay
         && 0 < l.maxUsdcPerClaim <= l.maxUsdcPerWalletPerDay <= l.maxUsdcGlobalPerDay)
  }

  // ---- every instruction ---------------------------------------------------

  predicate IsInstruction(a: Action) {
    !a.Tick? && !a.Outside? && (IsSwitch(a) ==> a.UpdateConfig? || a.UpdateFaucetLimits?)
  }

  /** The reason an instruction gives is one that holds. */
  ghost predicate Justified(s: State, a: Action, e: Error)
    requires IsInstruction(a)
  {
    match a
    case Submit(x) => Unsubmitted(s, x, e) || Unrecorded(s, x, e)
    case OpenChallenge(n, challenger, token, challengeType, _) => Unopened(s, n, challenger, token, challengeType, e)
    case ResolveChallenge(n, code, challengerToken, payerToken) =>
      Unresolved(s, n, code, challengerToken, payerToken, e)
    case TimeoutChallenge(n) => Untimed(s, n, e)
    case FinalizeReceipt(n, token) => Unfinalized(s, n, token, e)
    case CloseReceipt(n) => Unclosed(s, n, e)
    case CloseChallenge(n) => UnclosedChallenge(s, n, e)
    case RegisterProvider(wallet, token) => Unregistered(s, wallet, token, e)
    case ExitProvider(wallet, token) => Unleft(s, wallet, token, e)
    case ReleaseReward(n, code, key, amount) => Unreleased(s, n, code, key, amount, e)
    case ClaimReward(key, claimant, token) => Unclaimed(s, key, claimant, token, e)
    case MintGenesis => Unminted(s, e)
    case UpdateConfig(p) => Invalid(p, e)
    case UpdateFaucetLimits(l) => Unordered(l, e)
    case FundFaucet(amount) => Unfunded(s, amount, e)
    case ClaimFaucet(c) => Unpaid(s, c, e)
  }

  lemma SettingErrorsAreTrue(s: State, a: Action)
    requires Guard(s, a).Err? && (a.UpdateConfig? || a.UpdateFaucetLimits?)
    ensures Justified(s, a, Guard(s, a).error)
  {
    match a
    case UpdateConfig(p) => ParamsErrorIsTrue(p);
    case UpdateFaucetLimits(l) => LimitsAcceptedExactly(l);
  }

  lemma AttestationErrorsAreTrue(s: State, a: Action)
    requires Inv(s) && Guard(s, a).Err?
    requires a.Submit? || a.OpenChallenge? || a.ResolveChallenge? || a.TimeoutChallenge?
             || a.FinalizeReceipt? || a.CloseReceipt? || a.CloseChallenge?
    ensures Justified(s, a, Guard(s, a).error)
  {
    match a
    case Submit(x) => SubmitErrorIsTrue(s, x);
    case OpenChallenge(n, challenger, token, challengeType, _) =>
      OpenErrorIsTrue(s, n, challenger, token, challengeType);
    case ResolveChallenge(n, code, challengerToken, payerToken) =>
      ResolveErrorIsTrue(s, n, code, challengerToken, payerToken);
    case TimeoutChallenge(n) => TimeoutErrorIsTrue(s, n);
    case FinalizeReceipt(n, token) => FinalizeErrorIsTrue(s, n, token);
    case CloseReceipt(n) =>
      assert ReceiptOk(s, n);
      CloseReceiptErrorIsTrue(s, n);
    case CloseChallenge(n) => CloseChallengeErrorIsTrue(s, n);
  }

  lemma AccountErrorsAreTrue(s: State, a: Action)
    requires Inv(s) && Guard(s, a).Err?
    requires a.RegisterProvider? || a.ExitProvider? || a.ReleaseReward? || a.ClaimReward?
    ensures Justified(s, a, Guard(s, a).error)
  {
    match a
    case RegisterProvider(wallet, token) => RegisterErrorIsTrue(s, wallet, token);
    case ExitProvider(wallet, token) =>
      if wallet in s.providers {
        NothingOpenExactly(s, wallet);
      }
      ExitErrorIsTrue(s, wallet, token);
    case ReleaseReward(n, code, key, amount) =>
      assert RewardOk(s, key) && SettlementOk(s, n);
      ReleaseErrorIsTrue(s, n, code, key, amount);
    case ClaimReward(key, claimant, token) => ClaimErrorIsTrue(s, key, claimant, token);
  }

  lemma GenesisErrorsAreTrue(s: State)
    requires LedgerOk(s) && Guard(s, MintGenesis).Err?
    ensures Justified(s, MintGenesis, Guard(s, MintGenesis).error)
  {
    SupplyFits(s);
    GenesisErrorIsTrue(s);
  }

  lemma FundErrorsAreTrue(s: State, amount: u64)
    requires LedgerOk(s) && Guard(s, FundFaucet(amount)).Err?
    ensures Justified(s, FundFaucet(amount), Guard(s, FundFaucet(amount)).error)
  {
    FundErrorIsTrue(s, amount);
  }

  lemma FaucetErrorsAreTrue(s: State, c: FaucetClaim)
    requires LedgerOk(s) && Guard(s, ClaimFaucet(c)).Err?
    requires Faucet.FaucetOk(s.faucet, s.history.payouts, Faucet.CurrentDayIndex(s.now))
    ensures Justified(s, ClaimFaucet(c), Guard(s, ClaimFaucet(c)).error)
  {
    FaucetErrorIsTrue(s, c);
  }

  /** In every reachable state, whatever an instruction refuses, the reason it gives is one that holds; and no error it
      never gives is given. */
  lemma RefusalsAreTrue(s: State, actions: seq<Action>, a: Action)
    requires Initial(s) && IsInstruction(a) && Guard(Run(s, actions), a).Err?
    ensures Justified(Run(s, actions), a, Guard(Run(s, actions), a).error)
  {
    var end := Run(s, actions);
    ReachableIsOk(s, actions);
    if a.Submit? || a.OpenChallenge? || a.ResolveChallenge? || a.TimeoutChallenge?
       || a.FinalizeReceipt? || a.CloseReceipt? || a.CloseChallenge? {
      AttestationErrorsAreTrue(end, a);
    } else if a.UpdateConfig? || a.UpdateFaucetLimits? {
      SettingErrorsAreTrue(end, a);
    } else if a.MintGenesis? {
      GenesisErrorsAreTrue(end);
    } else if a.FundFaucet? {
      FundErrorsAreTrue(end, a.amount);
    } else if a.ClaimFaucet? {
      FaucetErrorsAreTrue(end, a.claim);
    } else {
      AccountErrorsAreTrue(end, a);
    }
  }
}

/** Exactly which submissions are charged, and what each leaves in the books. */
module Submissions {
  import opened Outcomes
  import opened Widths
  import opened TokenLedger
  import opened Params
  import opened Preimage
  import opened Ed25519
  import Faucet
  import opened Accounts
  import opened Masterpool
  import opened Attestation
  import opened Invariant
  import opened StepsReceipt
  import opened Payments

  // ---- when a submission is accepted ---------------------------------------

  predicate HasKey(signer: ProviderSigner) {
    exists i :: 0 <= i < 32 && signer.signer.bytes[i] != 0
  }

  lemma HasKeyExactly(signer: ProviderSigner)
    ensures HasKey(signer) <==> signer.signer != Faucet.DEFAULT_PUBKEY
  {
    if !HasKey(signer) {
      assert signer.signer.bytes == Faucet.DEFAULT_PUBKEY.bytes;
    }
  }

  /** A registered signer that may sign at a time: active, for the gateway, with a key, and within its days. */
  predicate IsFit(signer: ProviderSigner, now: i64) {
    && signer.status == SignerIsActive && signer.attesterTypeMask / 2 % 2 == 1
    && HasKey(signer)
    && signer.validFrom <= now && (signer.validUntil == 0 || now <= signer.validUntil)
  }

  /** A fit signer of the receipt's provider has signed, right before, the hash of exactly these terms. */
  predicate Attested(s: State, a: Submission) {
    && a.signerKey in s.signers
    && var signer := s.signers[a.signerKey];
       && IsFit(signer, s.now) && signer.providerWallet == a.providerAccount
       && SignedBefore(a.transaction, signer.signer, a.receiptHash)
       && a.receiptHash == s.sha256(PreimageOf(HashInputs(
            a.requestNonceHash, a.metadataHash, a.providerAccount, a.payer, s.config.usdcMint,
            a.promptTokens, a.completionTokens, a.chargeAtomic)))
  }

  /** The payer's account, in USDC, with balance and allowance for the charge, and with some allowance left over if the
      treasury takes all of it. */
  predicate CanPay(s: State, a: Submission) {
    && a.payerToken in s.ledger.accounts
    && var t := s.ledger.accounts[a.payerToken];
       && t.owner == a.payer && t.mint == Usdc && t.delegate == Some(a.delegate)
       && t.amount >= a.chargeAtomic && t.allowance >= a.chargeAtomic
       && (s.config.params.treasuryUsdcShareBps < 1_000 || t.allowance > a.chargeAtomic || a.delegate == a.payer)
  }

  /** The reward for a charge, and the parts of it, from the rate and the shares in force. */
  datatype Reward = Reward(all: int, user: int, provider: int, withheld: int)

  /** The payer's part is rounded down, the provider's is the rest, and of that a debt is withheld first. */
  ghost predicate IsReward(r: Reward, p: Phase1Params, charge: int, netPosition: int) {
    && r.all == charge * p.exchangeRateClawPerUsdcE6 / 1_000_000
    && r.user == r.all * p.userClawShareBps / 1_000
    && r.user + r.provider == r.all
    && (netPosition >= 0 ==> r.withheld == 0)
    && (netPosition < 0 && -netPosition <= r.provider ==> r.withheld == -netPosition)
    && (netPosition < 0 && -netPosition > r.provider ==> r.withheld == r.provider)
  }

  function PendingAt(s: State, key: RewardKey): int {
    if key in s.rewards then s.rewards[key].pendingClaw else 0
  }

  /** Nothing that a reward is added to overflows. */
  predicate HasRoom(s: State, a: Submission, r: Reward)
    requires a.providerAccount in s.providers
  {
    var p := s.providers[a.providerAccount];
    && PendingAt(s, UserKey(a.payer)) + r.user <= U64_MAX
    && PendingAt(s, ProviderKey(a.providerAccount)) + r.provider - r.withheld <= U64_MAX
    && p.clawNetPosition + r.provider <= I128_MAX
    && p.unsettledReceipts + 1 <= U64_MAX
  }

  lemma FitSigners(signer: ProviderSigner, now: i64)
    ensures IsFit(signer, now) <==>
      && signer.status == SignerIsActive && signer.signer != Faucet.DEFAULT_PUBKEY
      && AttestsAsGateway(signer.attesterTypeMask)
      && signer.validFrom <= now && (signer.validUntil == 0 || now <= signer.validUntil)
  {
    HasKeyExactly(signer);
  }

  lemma SubmissionGuardExactly(s: State, a: Submission)
    requires forall w :: w in s.providers ==> s.providers[w].wallet == w
    ensures SubmissionGuard(s, a).Ok? <==>
      && Attested(s, a) && a.providerAccount in s.providers && Nonce(a.requestNonceHash) !in s.receipts
      && a.promptTokens + a.completionTokens <= U64_MAX && !s.attestation.isPaused
  {
    if a.signerKey in s.signers {
      var signer := s.signers[a.signerKey];
      FitSigners(signer, s.now);
      AcceptedExactly(a.transaction, signer.signer, a.receiptHash);
    }
  }

  lemma BookingGuardExactly(s: State, a: Submission, r: Reward)
    requires a.providerAccount in s.providers && ProviderKey(a.providerAccount) in s.rewards
    requires IsReward(r, s.config.params, a.chargeAtomic, s.providers[a.providerAccount].clawNetPosition)
    requires r.user >= 0 && r.provider >= 0 && RecordsOk(s)
    ensures BookingGuard(s, SubmittedCharge(a), NewSettlement(s, SubmittedCharge(a))).Ok? <==> HasRoom(s, a, r)
  {
    assert RewardOk(s, UserKey(a.payer)) && RewardOk(s, ProviderKey(a.providerAccount));
    assert ProviderOk(s, a.providerAccount);
  }

  lemma RewardsAreShares(s: State, charge: int, netPosition: int, r: Reward)
    requires Inv(s) && 0 < charge <= MAX_RECEIPT_USDC_ATOMIC && IsReward(r, s.config.params, charge, netPosition)
    ensures r.user >= 0 && r.provider >= 0 && 0 <= r.withheld <= r.provider
    ensures IsCeilingShare(r.provider, r.all, s.config.params.providerClawShareBps)
  {
    AcceptedParamsAreSafe(s.config.params, charge);
  }

  /** Exactly which submissions are charged: signed and in time, new, paid for by a delegate of the payer's, and with
      room for what they earn. */
  lemma SubmitSucceedsExactly(s: State, a: Submission, r: Reward)
    requires Inv(s)
    requires a.providerAccount in s.providers ==>
      IsReward(r, s.config.params, a.chargeAtomic, s.providers[a.providerAccount].clawNetPosition)
    ensures SubmitGuard(s, a).Ok? <==>
      && Attested(s, a) && Nonce(a.requestNonceHash) !in s.settlements
      && a.promptTokens + a.completionTokens <= U64_MAX
      && !s.attestation.isPaused && !s.config.pauseReceiptRecording
      && a.providerAccount in s.providers && s.providers[a.providerAccount].status == Active
      && 0 < a.chargeAtomic <= 1_000_000_000_000_000 && CanPay(s, a) && HasRoom(s, a, r)
  {
    var n, c := Nonce(a.requestNonceHash), SubmittedCharge(a);
    forall w | w in s.providers ensures s.providers[w].wallet == w {
      assert ProviderOk(s, w);
    }
    SubmissionGuardExactly(s, a);
    assert ReceiptOk(s, n) && ProviderOk(s, a.providerAccount);
    if a.providerAccount in s.providers && 0 < a.chargeAtomic <= MAX_RECEIPT_USDC_ATOMIC {
      RewardsAreShares(s, a.chargeAtomic, s.providers[a.providerAccount].clawNetPosition, r);
      BookingGuardExactly(s, a, r);
      if Covers(s, c) && Accepts(s, n, c) {
        CoveredChargeSucceedsExactly(s, n, c);
      }
    }
  }

  // ---- what a submission leaves --------------------------------------------

  /** The settlement of a charge, whose treasury share is rounded down. */
  ghost predicate IsBooked(st: Settlement, a: Submission, p: Phase1Params, r: Reward) {
    && st.payer == a.payer && st.provider == a.providerAccount && st.usdcTotalPaid == a.chargeAtomic
    && st.usdcToTreasury == a.chargeAtomic * p.treasuryUsdcShareBps / 1_000
    && st.usdcToTreasury + st.usdcToProvider == a.chargeAtomic
    && st.clawToUser == r.user && st.clawToProviderTotal == r.provider
    && st.clawProviderDebtOffset == r.withheld && st.clawToProviderLocked == r.provider - r.withheld
    && st.lockDays == p.lockDays && st.lockStartedAt == 0 && st.userClawReleased == 0 && st.providerClawReleased == 0
    && st.status == Recorded
  }

  /** The receipt of a submission: open to challenges from now on, for the length of the window. */
  ghost predicate IsFiled(x: Receipt, s: State, a: Submission) {
    && x.receiptHash == a.receiptHash && x.payer == a.payer && x.provider == a.providerAccount
    && a.signerKey in s.signers && x.signer == s.signers[a.signerKey].signer
    && x.submittedAt == s.now && x.finalizedAt == 0 && x.status == Submitted && !x.economicsSettled
    && var deadline := s.now + s.attestation.challengeWindowSeconds;
       x.challengeDeadline == if deadline <= 0x7FFF_FFFF_FFFF_FFFF then deadline else 0x7FFF_FFFF_FFFF_FFFF
  }

  /** The pending total of a reward account rises, and nothing else of it changes; a missing account starts empty. */
  ghost predicate Credited(s: State, s': State, kind: RewardKind, owner: Pubkey, amount: int) {
    var key := RewardKey(kind, owner);
    && key in s'.rewards
    && s'.rewards[key] == (if key in s.rewards then s.rewards[key] else RewardAccount(kind, owner, 0, 0, 0, 0)).(
         pendingClaw := PendingAt(s, key) + amount)
  }

  /** What a submission writes, in full: one receipt, one settlement, two pending totals and three totals of the
      provider, all from the charge, the rate and the shares in force. */
  ghost predicate IsRecorded(s: State, s': State, a: Submission, r: Reward)
    requires a.providerAccount in s.providers
  {
    var n, w, p := Nonce(a.requestNonceHash), a.providerAccount, s.providers[a.providerAccount];
    && n in s'.receipts && n in s'.settlements && w in s'.providers
    && IsFiled(s'.receipts[n], s, a) && IsBooked(s'.settlements[n], a, s.config.params, r)
    && Credited(s, s', UserReward, a.payer, r.user) && Credited(s, s', ProviderReward, w, r.provider - r.withheld)
    && s'.providers[w] == p.(
         clawNetPosition := p.clawNetPosition + r.provider,
         pendingUsdc := p.pendingUsdc + s'.settlements[n].usdcToProvider,
         unsettledReceipts := p.unsettledReceipts + 1)
    && s' == s.(ledger := s'.ledger, receipts := s.receipts[n := s'.receipts[n]],
                settlements := s.settlements[n := s'.settlements[n]], providers := s.providers[w := s'.providers[w]],
                rewards := s'.rewards)
    && s'.rewards.Keys == s.rewards.Keys + {UserKey(a.payer), ProviderKey(w)}
    && (forall k :: k in s.rewards && k != UserKey(a.payer) && k != ProviderKey(w) ==> s'.rewards[k] == s.rewards[k])
  }

  lemma NewSettlementIsBooked(s: State, a: Submission, r: Reward)
    requires Inv(s) && 0 < a.chargeAtomic <= MAX_RECEIPT_USDC_ATOMIC && a.providerAccount in s.providers
    requires IsReward(r, s.config.params, a.chargeAtomic, s.providers[a.providerAccount].clawNetPosition)
    ensures IsBooked(NewSettlement(s, SubmittedCharge(a)), a, s.config.params, r)
  {
    RewardsAreShares(s, a.chargeAtomic, s.providers[a.providerAccount].clawNetPosition, r);
  }

  lemma NewReceiptIsFiled(s: State, a: Submission)
    requires s.attestation.challengeWindowSeconds > 0 && Attested(s, a)
    ensures IsFiled(NewReceipt(s, a), s, a)
  {
  }

  lemma RecordingIsRecorded(s: State, a: Submission, r: Reward, st: Settlement, x: Receipt)
    requires a.payerToken in s.ledger.accounts
    requires TreasuryVault in s.ledger.accounts && EscrowVault in s.ledger.accounts
    requires a.providerAccount in s.providers && ProviderKey(a.providerAccount) in s.rewards
    requires IsBooked(st, a, s.config.params, r) && IsFiled(x, s, a)
    ensures var n := Nonce(a.requestNonceHash);
            IsRecorded(s, WithReceipt(RecordWith(s, n, SubmittedCharge(a), st), n, x), a, r)
  {
  }

  /** Every submission that goes through is recorded so. */
  lemma SubmitRecords(s: State, a: Submission, r: Reward)
    requires Inv(s) && SubmitGuard(s, a).Ok?
    requires a.providerAccount in s.providers ==>
      IsReward(r, s.config.params, a.chargeAtomic, s.providers[a.providerAccount].clawNetPosition)
    ensures a.providerAccount in s.providers && IsRecorded(s, SubmitEffect(s, a), a, r)
  {
    SubmitSucceedsExactly(s, a, r);
    NewSettlementIsBooked(s, a, r);
    NewReceiptIsFiled(s, a);
    RecordingIsRecorded(s, a, r, NewSettlement(s, SubmittedCharge(a)), NewReceipt(s, a));
  }
}

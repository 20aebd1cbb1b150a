/** To the unit: who pays and who is paid by each economic step. */
module Payments {
  import opened Outcomes
  import opened Widths
  import opened TokenLedger
  import opened Params
  import opened Accounts
  import opened Masterpool
  import opened Attestation
  import opened Invariant
  import opened StepsReceipt
  import opened StepsFinalize
  import opened StepsChallenge

  function AmountAt(l: Ledger, id: TokenId): int {
    if id in l.accounts then l.accounts[id].amount else 0
  }

  ghost predicate SameElsewhere(l: Ledger, l': Ledger, touched: set<TokenId>) {
    forall id :: id !in touched ==> AmountAt(l', id) == AmountAt(l, id)
  }

  lemma RecordCharges(s: State, n: Nonce, c: Charge, st: Settlement)
    requires LedgerOk(s) && Recordable(s, n, c, st)
    ensures var l, l' := s.ledger, RecordWith(s, n, c, st).ledger;
            && AmountAt(l', c.payerToken) == AmountAt(l, c.payerToken) - st.usdcTotalPaid
            && c.payerToken in l'.accounts
            && l'.accounts[c.payerToken].allowance == l.accounts[c.payerToken].allowance - st.usdcTotalPaid
            && AmountAt(l', TreasuryVault) == AmountAt(l, TreasuryVault) + st.usdcToTreasury
            && AmountAt(l', EscrowVault) == AmountAt(l, EscrowVault) + st.usdcToProvider
            && SameElsewhere(l, l', {c.payerToken, TreasuryVault, EscrowVault})
  {
    ChargesGoThrough(s, n, c, st);
  }

  /** A submission takes exactly the charge from the payer, and from the delegate's allowance, and splits it. */
  lemma SubmitCharges(s: State, a: Submission)
    requires Inv(s) && SubmitGuard(s, a).Ok?
    ensures a.payerToken in s.ledger.accounts
    ensures var l, l' := s.ledger, SubmitEffect(s, a).ledger;
            var treasury := a.chargeAtomic * s.config.params.treasuryUsdcShareBps / 1_000;
            && AmountAt(l', a.payerToken) == AmountAt(l, a.payerToken) - a.chargeAtomic
            && l'.accounts[a.payerToken].allowance == l.accounts[a.payerToken].allowance - a.chargeAtomic
            && AmountAt(l', TreasuryVault) == AmountAt(l, TreasuryVault) + treasury
            && AmountAt(l', EscrowVault) == AmountAt(l, EscrowVault) + a.chargeAtomic - treasury
            && SameElsewhere(l, l', {a.payerToken, TreasuryVault, EscrowVault})
  {
    SubmissionIsAdmissible(s, a);
    RecordCharges(s, Nonce(a.requestNonceHash), SubmittedCharge(a), NewSettlement(s, SubmittedCharge(a)));
  }

  /** Settling pays the provider's share, once charged, out of escrow to the provider's account. */
  lemma FinalizePays(s: State, n: Nonce, to: TokenId)
    requires Inv(s) && FinalizeGuard(s, n, to).Ok?
    ensures n in s.settlements && to.Held?
    ensures var l, l', share := s.ledger, FinalizeEffect(s, n, to).ledger, s.settlements[n].usdcToProvider;
            && AmountAt(l', EscrowVault) == AmountAt(l, EscrowVault) - share
            && AmountAt(l', to) == AmountAt(l, to) + share
            && SameElsewhere(l, l', {EscrowVault, to})
  {
    FinalizableIsRecorded(s, n, to);
    RecordedIsSettleable(s, n, to);
  }

  /** The payments of an accepted challenge: bond and reward to the challenger, a refund to the payer, the rest of the
      slash burned. */
  ghost predicate AcceptedPayments(
    l: Ledger, l': Ledger, challengerToken: TokenId, payerToken: TokenId,
    bond: int, slash: int, reward: int, refund: int)
  {
    && AmountAt(l', challengerToken) == AmountAt(l, challengerToken) + bond + reward
    && AmountAt(l', payerToken) == AmountAt(l, payerToken) + refund
    && AmountAt(l', BondVault) == AmountAt(l, BondVault) - bond
    && AmountAt(l', RewardVault) == AmountAt(l, RewardVault) - slash
    && AmountAt(l', EscrowVault) == AmountAt(l, EscrowVault) - refund
    && l'.clawSupply == l.clawSupply - (slash - reward)
    && AmountAt(l', TreasuryVault) == AmountAt(l, TreasuryVault)
    && SameElsewhere(l, l', {challengerToken, payerToken, BondVault, RewardVault, EscrowVault})
  }

  lemma AcceptedLedger(s: State, n: Nonce, challengerToken: TokenId, payerToken: TokenId)
    requires LedgerOk(s) && Acceptable(s, n, challengerToken, payerToken)
    ensures var st, b := s.settlements[n], s.bonds[n];
            AcceptedPayments(s.ledger, AcceptLedger(s, n, challengerToken, payerToken),
                             challengerToken, payerToken, b.bondAmount, b.slashAmount, b.challengerRewardAmount,
                             st.usdcToProvider)
  {
    assert challengerToken.Held? && payerToken.Held?;
  }

  lemma RulingPays(s: State, n: Nonce, code: u8, challengerToken: TokenId, payerToken: TokenId)
    requires Inv(s) && ResolveGuard(s, n, code, challengerToken, payerToken).Ok?
             && ResolutionOf(code).value != RejectedCode
    ensures n in s.settlements && n in s.bonds
    ensures var st, b := s.settlements[n], s.bonds[n];
            AcceptedPayments(s.ledger, ResolveEffect(s, n, code, challengerToken, payerToken).ledger,
                             challengerToken, payerToken, b.bondAmount, b.slashAmount, b.challengerRewardAmount,
                             st.usdcTotalPaid - st.usdcToTreasury)
  {
    OpenChallengeIsResolvable(s, n);
    assert SettlementOk(s, n) && BondOk(s, n);
    AcceptedLedger(s, n, challengerToken, payerToken);
  }

  lemma SlashIsSplit(s: State, n: Nonce)
    requires Inv(s) && n in s.bonds
    ensures var b := s.bonds[n];
            && b.challengerRewardAmount == b.slashAmount * b.challengerRewardBps / 1_000
            && IsCeilingShare(b.slashAmount - b.challengerRewardAmount, b.slashAmount, b.burnBps)
  {
    assert BondOk(s, n);
    SplitIsExact(s.bonds[n].slashAmount, s.bonds[n].challengerRewardBps);
  }

  /** Accepting a challenge returns the bond, pays the challenger its share of the slash, rounded down, burns the rest,
      and refunds the provider's share; the treasury's share stays where it is. */
  lemma AcceptancePays(s: State, n: Nonce, code: u8, challengerToken: TokenId, payerToken: TokenId)
    requires Inv(s) && ResolveGuard(s, n, code, challengerToken, payerToken).Ok?
             && ResolutionOf(code).value != RejectedCode
    ensures n in s.settlements && n in s.bonds
    ensures var st, b := s.settlements[n], s.bonds[n];
            var reward := b.slashAmount * b.challengerRewardBps / 1_000;
            && AcceptedPayments(s.ledger, ResolveEffect(s, n, code, challengerToken, payerToken).ledger,
                                challengerToken, payerToken, b.bondAmount, b.slashAmount, reward,
                                st.usdcTotalPaid - st.usdcToTreasury)
            && IsCeilingShare(b.slashAmount - reward, b.slashAmount, b.burnBps)
  {
    RulingPays(s, n, code, challengerToken, payerToken);
    SlashIsSplit(s, n);
  }

  /** Rejecting a challenge, by ruling or by time, burns the bond and moves nothing else. */
  lemma RejectionBurnsBond(s: State, n: Nonce)
    requires Inv(s) && n in s.receipts && n in s.challenges && s.challenges[n].status == Open && RejectGuard(s, n).Ok?
    ensures n in s.bonds
    ensures var l, l' := s.ledger, AfterRejection(s, n).ledger;
            && AmountAt(l', BondVault) == AmountAt(l, BondVault) - s.bonds[n].bondAmount
            && l'.clawSupply == l.clawSupply - s.bonds[n].bondAmount
            && SameElsewhere(l, l', {BondVault})
  {
    OpenChallengeIsResolvable(s, n);
  }

  /** A claim pays everything released and not yet claimed, and leaves nothing to claim. */
  lemma ClaimPaysAll(s: State, key: RewardKey, claimant: Pubkey, token: TokenId)
    requires Inv(s) && RewardClaimGuard(s, key, claimant, token).Ok?
    ensures key in s.rewards
    ensures var s' := RewardClaimEffect(s, key, claimant, token);
            var due := s.rewards[key].releasedClaw - s.rewards[key].claimedClaw;
            && due > 0
            && AmountAt(s'.ledger, token) == AmountAt(s.ledger, token) + due
            && AmountAt(s'.ledger, RewardVault) == AmountAt(s.ledger, RewardVault) - due
            && SameElsewhere(s.ledger, s'.ledger, {token, RewardVault})
            && s' == s.(ledger := s'.ledger,
                        rewards := s.rewards[key := s.rewards[key].(claimedClaw := s.rewards[key].releasedClaw)])
            && RewardClaimGuard(s', key, claimant, token) == Err(NoClaimableRewards)
  {
    assert token.Held?;
  }

  /** Exactly when a claim is paid: an owner with something due, claiming into a CLAW account of its own, from a reward
      vault that holds what is due. */
  lemma ClaimSucceedsExactly(s: State, key: RewardKey, claimant: Pubkey, token: TokenId)
    requires Inv(s)
    ensures RewardClaimGuard(s, key, claimant, token).Ok? <==>
      && claimant != s.poolAuthority && claimant == key.owner && !s.config.pauseClaims && key in s.rewards
      && s.rewards[key].releasedClaw > s.rewards[key].claimedClaw
      && token in s.ledger.accounts && s.ledger.accounts[token].owner == claimant
      && s.ledger.accounts[token].mint == Claw
      && AmountAt(s.ledger, RewardVault) >= s.rewards[key].releasedClaw - s.rewards[key].claimedClaw
  {
    assert RewardOk(s, key);
  }

  // ---- when a charge goes through ------------------------------------------

  /** A payer's token account that may be charged: it is the payer's, in USDC, with the delegate's allowance and the
      balance both covering the charge. */
  predicate Covers(s: State, c: Charge) {
    && c.payerToken in s.ledger.accounts
    && var t := s.ledger.accounts[c.payerToken];
       && t.owner == c.payer && t.mint == Usdc && t.delegate == Some(c.delegate)
       && t.allowance >= c.amount && t.amount >= c.amount
  }

  predicate Accepts(s: State, n: Nonce, c: Charge) {
    && n !in s.settlements && !s.config.pauseReceiptRecording && 0 < c.amount <= MAX_RECEIPT_USDC_ATOMIC
    && c.provider in s.providers && ProviderKey(c.provider) in s.rewards && s.providers[c.provider].status == Active
    && BookingGuard(s, c, NewSettlement(s, c)).Ok?
  }

  lemma ShareIsWhole(whole: int, bps: int)
    requires whole > 0 && 0 <= bps <= BPS_SCALE
    ensures whole * bps / BPS_SCALE == whole <==> bps == BPS_SCALE
    ensures 0 <= whole * bps / BPS_SCALE <= whole
  {
    SplitIsExact(whole, bps);
    if bps < BPS_SCALE {
      ProductGrows(whole, bps, BPS_SCALE - 1);
    }
  }

  /** An allowance and a balance that cover the charge are enough, but for one family: when the whole charge goes to the
      treasury, that payment uses up an exact allowance, the delegate is forgotten, and the payment of nothing to escrow
      that follows is refused. */
  lemma CoveredChargeSucceedsExactly(s: State, n: Nonce, c: Charge)
    requires Inv(s) && Accepts(s, n, c) && Covers(s, c)
    ensures RecordGuard(s, n, c).Ok? <==>
              || s.config.params.treasuryUsdcShareBps < BPS_SCALE
              || s.ledger.accounts[c.payerToken].allowance > c.amount
              || c.delegate == c.payer
    ensures RecordGuard(s, n, c).Ok? || RecordGuard(s, n, c) == Err(TokenOwnerMismatch)
  {
    AcceptanceCriterion(s.config.params);
    ShareIsWhole(c.amount, s.config.params.treasuryUsdcShareBps);
  }
}

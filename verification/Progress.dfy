/** Exactly when the instructions that move a receipt on succeed, and that one can always be brought to an end. */
module Progress {
  import opened Outcomes
  import opened Widths
  import opened TokenLedger
  import opened Accounts
  import opened Masterpool
  import opened Attestation
  import opened Invariant
  import opened Facts
  import opened StepsChallenge
  import opened StepsMoney
  import opened Runs
  import opened Handlers
  import opened Solvency

  // ---- opening and finalizing ----------------------------------------------

  /** A CLAW account of the challenger's that pays the bond: if it names its owner as its own delegate, the allowance
      must cover the bond too. */
  predicate PaysBond(s: State, challenger: Pubkey, token: TokenId) {
    && token in s.ledger.accounts
    && var t, bond := s.ledger.accounts[token], s.config.params.challengeBondClawAmount;
       && t.owner == challenger && t.mint == Claw && t.amount >= bond
       && (t.delegate == Some(challenger) ==> t.allowance >= bond)
  }

  /** Exactly when a live receipt can be challenged; the bond is then paid. */
  lemma OpenSucceedsExactly(s: State, n: Nonce, challenger: Pubkey, token: TokenId, challengeType: u8)
    requires Inv(s) && n in s.receipts
    ensures OpenGuard(s, n, challenger, token, challengeType).Ok? <==>
      && s.receipts[n].status == Submitted && s.now <= s.receipts[n].challengeDeadline
      && !s.config.pauseChallengeProcessing && challenger != s.poolAuthority && challengeType <= 4
      && PaysBond(s, challenger, token)
    ensures OpenGuard(s, n, challenger, token, challengeType).Ok? ==>
      var bond := s.config.params.challengeBondClawAmount;
      Transfer(s.ledger, token, Claw, BondVault, challenger, bond)
        == Ok(Move(s.ledger, token, BondVault, challenger, bond))
  {
    assert ReceiptOk(s, n);
    if s.receipts[n].status == Submitted {
      RecordedIsCovered(s, n);
    }
    if OpenGuard(s, n, challenger, token, challengeType).Ok? {
      HolderPays(s.ledger, s.poolAuthority, token, Claw, BondVault, challenger,
                 s.config.params.challengeBondClawAmount);
    }
  }

  /** A destination the provider may be paid to, and room for the rewards to move to locked. */
  predicate CanReceive(s: State, n: Nonce, to: TokenId)
    requires n in s.settlements
  {
    var st := s.settlements[n];
    && to in s.ledger.accounts && s.ledger.accounts[to].owner == st.provider && s.ledger.accounts[to].mint == Usdc
    && FitsU64(RewardOrFresh(s, UserKey(st.payer)).lockedClaw + st.clawToUser)
    && FitsU64(RewardOrFresh(s, ProviderKey(st.provider)).lockedClaw + st.clawToProviderLocked)
  }

  /** Submitted with its window over, or finalized by a rejected challenge and not yet settled. */
  predicate Due(s: State, n: Nonce)
    requires n in s.receipts
  {
    var r := s.receipts[n];
    (r.status == Submitted && s.now > r.challengeDeadline) || (r.status == Finalized && !r.economicsSettled)
  }

  lemma DueIsPaid(s: State, n: Nonce, to: TokenId)
    requires Inv(s) && n in s.receipts && Due(s, n)
    ensures ReadyToSettle(s, n)
    ensures CanReceive(s, n, to) ==>
      var share := s.settlements[n].usdcToProvider;
      Transfer(s.ledger, EscrowVault, Usdc, to, s.poolAuthority, share)
      == Ok(Move(s.ledger, EscrowVault, to, s.poolAuthority, share))
  {
    SettlingIsCovered(s, n);
    if CanReceive(s, n, to) {
      VaultPays(s.ledger, s.poolAuthority, EscrowVault, to, s.settlements[n].usdcToProvider);
    }
  }

  lemma FinalizeGuardExactly(s: State, n: Nonce, to: TokenId)
    requires n in s.receipts && n in s.settlements && (Due(s, n) ==> SettlementAccounts(s, n))
    ensures FinalizeGuard(s, n, to).Ok? <==> Due(s, n) && CanReceive(s, n, to) && !s.config.pauseFinalization
  {
  }

  /** Exactly when a live receipt can be finalized. That its accounts exist, that it has not been settled, that every
      amount is still there and that the escrow vault pays are no conditions: they follow, and so the payment and every
      subtraction that settling makes go through. */
  lemma FinalizeSucceedsExactly(s: State, n: Nonce, to: TokenId)
    requires Inv(s) && n in s.receipts
    ensures n in s.settlements
    ensures FinalizeGuard(s, n, to).Ok? <==> Due(s, n) && CanReceive(s, n, to) && !s.config.pauseFinalization
    ensures Due(s, n) && CanReceive(s, n, to) ==>
      && ReadyToSettle(s, n)
      && var share := s.settlements[n].usdcToProvider;
         Transfer(s.ledger, EscrowVault, Usdc, to, s.poolAuthority, share)
         == Ok(Move(s.ledger, EscrowVault, to, s.poolAuthority, share))
  {
    assert ReceiptOk(s, n);
    if Due(s, n) {
      DueIsPaid(s, n, to);
    }
    FinalizeGuardExactly(s, n, to);
  }

  /** The deadline parts the clock in two: of a submitted receipt, a payable bond and a destination that can receive,
      exactly one of challenging and finalizing succeeds at every later time, up to the deadline the first and after it
      the second. */
  lemma DeadlinePartsTheClock(
    s: State, n: Nonce, challenger: Pubkey, token: TokenId, challengeType: u8, to: TokenId, later: i64)
    requires Inv(s) && n in s.receipts && s.receipts[n].status == Submitted
    requires !s.config.pauseChallengeProcessing && !s.config.pauseFinalization
    requires challenger != s.poolAuthority && challengeType <= 4 && PaysBond(s, challenger, token)
    requires n in s.settlements ==> CanReceive(s, n, to)
    requires s.now <= later
    ensures OpenGuard(s.(now := later), n, challenger, token, challengeType).Ok?
            <==> later <= s.receipts[n].challengeDeadline
    ensures FinalizeGuard(s.(now := later), n, to).Ok? <==> later > s.receipts[n].challengeDeadline
  {
    var t := s.(now := later);
    TickKeeps(s, later);
    OpenSucceedsExactly(t, n, challenger, token, challengeType);
    FinalizeSucceedsExactly(t, n, to);
    assert CanReceive(t, n, to) == CanReceive(s, n, to);
  }

  // ---- ruling --------------------------------------------------------------

  predicate MayBePaid(s: State, n: Nonce, challengerToken: TokenId, payerToken: TokenId)
    requires n in s.settlements && n in s.bonds
  {
    && challengerToken in s.ledger.accounts && payerToken in s.ledger.accounts
    && var c, p := s.ledger.accounts[challengerToken], s.ledger.accounts[payerToken];
       c.owner == s.bonds[n].challenger && c.mint == Claw && p.owner == s.settlements[n].payer && p.mint == Usdc
  }

  ghost predicate NetPositionHolds(s: State, n: Nonce)
    requires BondAccounts(s, n)
  {
    var st := s.settlements[n];
    FitsI128(s.providers[st.provider].clawNetPosition - st.clawToProviderTotal - s.bonds[n].slashAmount)
  }

  lemma AcceptGuardExactly(s: State, n: Nonce, challengerToken: TokenId, payerToken: TokenId)
    requires BondAccounts(s, n)
    ensures AcceptGuard(s, n, challengerToken, payerToken).Ok? <==>
      && !s.config.pauseChallengeProcessing && MayBePaid(s, n, challengerToken, payerToken)
      && s.ledger.accounts[RewardVault].amount >= s.bonds[n].slashAmount && NetPositionHolds(s, n)
    ensures MayBePaid(s, n, challengerToken, payerToken) && !s.config.pauseChallengeProcessing
            && s.ledger.accounts[RewardVault].amount < s.bonds[n].slashAmount ==>
              AcceptGuard(s, n, challengerToken, payerToken) == Err(TokenInsufficientFunds)
  {
  }

  lemma AcceptingCodes(s: State, n: Nonce, code: u8, challengerToken: TokenId, payerToken: TokenId)
    requires n in s.receipts && n in s.challenges && s.challenges[n].status == Open
             && (code == 1 || code == 3 || code == 4)
    ensures ResolveGuard(s, n, code, challengerToken, payerToken) == AcceptGuard(s, n, challengerToken, payerToken)
  {
  }

  /** Exactly when an open challenge can be accepted: both can be paid, the reward vault holds the slash that was agreed
      when the bond was posted, and the net position holds it; which it does until 2^63 challenges were accepted against
      the provider. */
  lemma AcceptSucceedsExactly(s: State, n: Nonce, code: u8, challengerToken: TokenId, payerToken: TokenId)
    requires Inv(s) && n in s.challenges && s.challenges[n].status == Open && (code == 1 || code == 3 || code == 4)
    ensures BondAccounts(s, n)
    ensures ResolveGuard(s, n, code, challengerToken, payerToken).Ok? <==>
      && !s.config.pauseChallengeProcessing && MayBePaid(s, n, challengerToken, payerToken)
      && s.ledger.accounts[RewardVault].amount >= s.bonds[n].slashAmount && NetPositionHolds(s, n)
    ensures Returns(s, s.settlements[n].provider) < TWO_TO_THE_63 ==> NetPositionHolds(s, n)
  {
    OpenChallengeIsResolvable(s, n);
    AcceptingCodes(s, n, code, challengerToken, payerToken);
    AcceptGuardExactly(s, n, challengerToken, payerToken);
    if Returns(s, s.settlements[n].provider) < TWO_TO_THE_63 {
      RevertFits(s, n);
    }
  }

  /** In a run of fewer than 2^63 steps from deployment on, no ruling ever fails for the net position. */
  lemma AcceptNeverOverflows(
    s: State, actions: seq<Action>, n: Nonce, code: u8, challengerToken: TokenId, payerToken: TokenId)
    requires Initial(s) && |actions| < TWO_TO_THE_63
    requires n in Run(s, actions).challenges && Run(s, actions).challenges[n].status == Open
    requires code == 1 || code == 3 || code == 4
    ensures var end := Run(s, actions);
            && BondAccounts(end, n)
            && (ResolveGuard(end, n, code, challengerToken, payerToken).Ok? <==>
                  && !end.config.pauseChallengeProcessing && MayBePaid(end, n, challengerToken, payerToken)
                  && end.ledger.accounts[RewardVault].amount >= end.bonds[n].slashAmount)
  {
    ReachableIsOk(s, actions);
    var end := Run(s, actions);
    AcceptSucceedsExactly(end, n, code, challengerToken, payerToken);
    ReturnsAreSteps(s, actions, end.settlements[n].provider);
  }

  /** Exactly when an open challenge can be rejected by a ruling. */
  lemma RejectSucceedsExactly(s: State, n: Nonce, challengerToken: TokenId, payerToken: TokenId)
    requires Inv(s) && n in s.challenges && s.challenges[n].status == Open
    ensures ResolveGuard(s, n, 2, challengerToken, payerToken).Ok? <==> !s.config.pauseChallengeProcessing
  {
    OpenChallengeIsResolvable(s, n);
  }

  /** Exactly when a time-out succeeds: for a challenged receipt it is only a matter of time. */
  lemma TimeoutSucceedsExactly(s: State, n: Nonce)
    requires Inv(s)
    ensures TimeoutGuard(s, n).Ok? <==>
      && n in s.receipts && s.receipts[n].status == Challenged && !s.config.pauseChallengeProcessing
      && n in s.challenges
      && s.now > s.challenges[n].openedAt + s.attestation.challengeResolutionTimeoutSeconds >= I64_MIN
      && s.challenges[n].openedAt + s.attestation.challengeResolutionTimeoutSeconds <= I64_MAX
  {
    if n in s.receipts && n in s.challenges {
      assert ReceiptOk(s, n) && ChallengeOk(s, n);
      if s.challenges[n].status == Open {
        OpenChallengeIsResolvable(s, n);
      }
    }
  }

  // ---- the way out ---------------------------------------------------------

  /** The moment from which a live receipt can be driven to its end. */
  function Ripe(s: State, n: Nonce): int
    requires n in s.receipts
  {
    if s.receipts[n].status == Submitted then s.receipts[n].challengeDeadline
    else if s.receipts[n].status == Challenged && n in s.challenges then
      s.challenges[n].openedAt + s.attestation.challengeResolutionTimeoutSeconds
    else s.now - 1
  }

  /** The instructions that end it. */
  function WayOut(s: State, n: Nonce, to: TokenId): seq<Action>
    requires n in s.receipts
  {
    if s.receipts[n].status == Challenged then [TimeoutChallenge(n), FinalizeReceipt(n, to)]
    else [FinalizeReceipt(n, to)]
  }

  /** Finalized in one program and settled in the other. */
  ghost predicate Ended(s: State, n: Nonce) {
    && n in s.receipts && s.receipts[n].status == Finalized && s.receipts[n].economicsSettled
    && n in s.settlements && s.settlements[n].status == FinalizedSettled
  }

  lemma OneFinalization(s: State, n: Nonce, to: TokenId)
    requires FinalizeGuard(s, n, to).Ok?
    ensures Ended(Run(s, [FinalizeReceipt(n, to)]), n)
  {
    var actions := [FinalizeReceipt(n, to)];
    assert Run(Apply(s, actions[0]), actions[1..]) == Apply(s, actions[0]);
  }

  lemma TwoSteps(t: State, a: Action, b: Action)
    ensures Run(t, [a, b]) == Run(Apply(t, a), [b])
  {
    assert [a, b] == [a] + [b];
    RunStep(t, a, [b]);
  }

  lemma TimeoutRejects(t: State, n: Nonce)
    requires TimeoutGuard(t, n).Ok?
    ensures Apply(t, TimeoutChallenge(n)) == AfterRejection(t, n)
  {
  }

  lemma RejectThenFinalize(t: State, n: Nonce, to: TokenId)
    requires TimeoutGuard(t, n).Ok? && FinalizeGuard(AfterRejection(t, n), n, to).Ok?
    ensures Ended(Run(t, [TimeoutChallenge(n), FinalizeReceipt(n, to)]), n)
  {
    TimeoutRejects(t, n);
    TwoSteps(t, TimeoutChallenge(n), FinalizeReceipt(n, to));
    OneFinalization(AfterRejection(t, n), n, to);
  }

  lemma RejectedCanSettle(t: State, n: Nonce, to: TokenId)
    requires n in t.receipts && n in t.challenges && RejectGuard(t, n).Ok?
    requires !t.config.pauseFinalization && CanReceive(t, n, to)
    ensures FinalizeGuard(AfterRejection(t, n), n, to).Ok?
  {
  }

  lemma TimeoutThenFinalize(t: State, n: Nonce, to: TokenId)
    requires Inv(t) && n in t.receipts && t.receipts[n].status == Challenged && n in t.challenges
    requires !t.config.pauseFinalization && !t.config.pauseChallengeProcessing
    requires n in t.settlements ==> CanReceive(t, n, to)
    requires t.now > t.challenges[n].openedAt + t.attestation.challengeResolutionTimeoutSeconds
    ensures Ended(Run(t, [TimeoutChallenge(n), FinalizeReceipt(n, to)]), n)
  {
    TimeoutSucceedsExactly(t, n);
    RejectedCanSettle(t, n, to);
    RejectThenFinalize(t, n, to);
  }

  lemma RipeCanSettle(t: State, n: Nonce, to: TokenId)
    requires Inv(t) && n in t.receipts && !t.receipts[n].economicsSettled
    requires !t.config.pauseFinalization && !t.config.pauseChallengeProcessing
    requires (n in t.settlements ==> CanReceive(t, n, to)) && t.now > Ripe(t, n)
    ensures Ended(Run(t, WayOut(t, n, to)), n)
  {
    assert ReceiptOk(t, n);
    if t.receipts[n].status == Challenged {
      TimeoutThenFinalize(t, n, to);
    } else {
      FinalizeSucceedsExactly(t, n, to);
      OneFinalization(t, n, to);
    }
  }

  /** Unless it is paused, an unsettled receipt can always be settled once it is ripe, with nobody's cooperation but the
      provider's destination account, and whatever the reward vault holds. */
  lemma UnsettledCanAlwaysSettle(s: State, n: Nonce, to: TokenId, later: i64)
    requires Inv(s) && n in s.receipts && !s.receipts[n].economicsSettled
    requires !s.config.pauseFinalization && !s.config.pauseChallengeProcessing
    requires n in s.settlements ==> CanReceive(s, n, to)
    requires s.now <= later && later > Ripe(s, n)
    ensures Ended(Run(s.(now := later), WayOut(s, n, to)), n)
  {
    TickKeeps(s, later);
    RipeCanSettle(s.(now := later), n, to);
  }

  lemma ShortVaultRefuses(s: State, n: Nonce, code: u8, challengerToken: TokenId, payerToken: TokenId)
    requires Inv(s) && n in s.challenges && s.challenges[n].status == Open && (code == 1 || code == 3 || code == 4)
    requires n in s.bonds ==> s.ledger.accounts[RewardVault].amount < s.bonds[n].slashAmount
    ensures n in s.receipts && s.receipts[n].status == Challenged && !s.receipts[n].economicsSettled
    ensures BondAccounts(s, n)
    ensures ResolveGuard(s, n, code, challengerToken, payerToken).Err?
    ensures MayBePaid(s, n, challengerToken, payerToken) && !s.config.pauseChallengeProcessing ==>
              ResolveGuard(s, n, code, challengerToken, payerToken) == Err(TokenInsufficientFunds)
  {
    OpenChallengeIsResolvable(s, n);
    AcceptingCodes(s, n, code, challengerToken, payerToken);
    AcceptGuardExactly(s, n, challengerToken, payerToken);
  }

  /** A reward vault that cannot pay the slash refuses a challenge for whatever accounts and whatever accepting code,
      and while it stays short the time-out decides: the bond is burned and the receipt is settled. */
  lemma ShortVaultDecidesChallenge(
    s: State, n: Nonce, code: u8, challengerToken: TokenId, payerToken: TokenId, to: TokenId, later: i64)
    requires Inv(s) && n in s.receipts && n in s.challenges && s.challenges[n].status == Open
    requires code == 1 || code == 3 || code == 4
    requires n in s.bonds ==> s.ledger.accounts[RewardVault].amount < s.bonds[n].slashAmount
    requires !s.config.pauseFinalization && !s.config.pauseChallengeProcessing
    requires n in s.settlements ==> CanReceive(s, n, to)
    requires s.now <= later && later > s.challenges[n].openedAt + s.attestation.challengeResolutionTimeoutSeconds
    ensures ResolveGuard(s, n, code, challengerToken, payerToken).Err?
    ensures Ended(Run(s.(now := later), [TimeoutChallenge(n), FinalizeReceipt(n, to)]), n)
  {
    ShortVaultRefuses(s, n, code, challengerToken, payerToken);
    UnsettledCanAlwaysSettle(s, n, to, later);
  }
}

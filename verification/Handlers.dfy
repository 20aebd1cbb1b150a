/** Parts of handlers that load no account by themselves: they are given copies and hand back what to write. */
module Handlers {
  import opened Outcomes
  import opened Widths
  import opened Sums
  import opened TokenLedger
  import opened Params
  import opened Vesting
  import Faucet
  import opened Accounts
  import opened Masterpool
  import opened Invariant
  import opened Facts
  import opened StepsChallenge

  /** A reward account as `init_if_needed` finds it: absent, or with an owner and a kind of its own. */
  method InitializeRewardAccount(found: Option<RewardAccount>, owner: Pubkey, kind: RewardKind)
    returns (r: Result<RewardAccount>)
    ensures found.None? ==> r == Ok(FreshReward(RewardKey(kind, owner)))
    ensures found.Some? ==> (r.Ok? <==> found.value.owner == owner && found.value.kind == kind)
    ensures found.Some? && r.Ok? ==> r.value == found.value
  {
    if found.None? {
      return Ok(RewardAccount(kind, owner, 0, 0, 0, 0));
    }
    :- Need(found.value.owner == owner, InvalidRewardAccountOwner);
    :- Need(found.value.kind == kind, InvalidRewardAccountKind);
    r := Ok(found.value);
  }

  /** A burn from a vault fails just where the vault holds too little. */
  lemma BurnVerdict(l: Ledger, pool: Pubkey, vault: TokenId, amount: int)
    requires Conserved(l) && Custody(l, pool) && !vault.Held? && VaultMint(vault) == Claw && amount >= 0
    ensures Burn(l, vault, pool, amount)
         == if l.accounts[vault].amount >= amount then Ok(Burned(l, vault, pool, amount))
           else Err(TokenInsufficientFunds)
  {
    if l.accounts[vault].amount >= amount {
      VaultBurns(l, pool, vault, amount);
    }
  }

  /** A reward account with more pending. A zero share changes nothing and cannot fail. */
  method CreditPending(found: Option<RewardAccount>, owner: Pubkey, kind: RewardKind, amount: int)
    returns (r: Result<RewardAccount>)
    requires amount >= 0 && (found.Some? ==> FitsU64(found.value.pendingClaw))
    ensures found.Some? && (found.value.owner != owner || found.value.kind != kind) ==> r.Err?
    ensures var base := if found.Some? then found.value else FreshReward(RewardKey(kind, owner));
            base.owner == owner && base.kind == kind ==>
              r == if FitsU64(base.pendingClaw + amount) then Ok(base.(pendingClaw := base.pendingClaw + amount))
                   else Err(MathOverflow)
  {
    var account :- InitializeRewardAccount(found, owner, kind);
    if amount > 0 {
      var pending :- CheckedAddU64(account.pendingClaw, amount);
      account := account.(pendingClaw := pending);
    }
    r := Ok(account);
  }

  /** A transfer fails just as its payer's side says. */
  lemma PaymentVerdict(l: Ledger, pool: Pubkey, from: TokenId, mint: Mint, to: TokenId, authority: Pubkey, amount: int)
    requires Conserved(l) && Custody(l, pool) && amount >= 0
    ensures var verdict := PayGuard(l, from, mint, to, authority, amount);
            Transfer(l, from, mint, to, authority, amount)
            == if verdict.Ok? then Ok(Move(l, from, to, authority, amount)) else Err(verdict.error)
  {
    if PayGuard(l, from, mint, to, authority, amount).Ok? {
      HolderPays(l, pool, from, mint, to, authority, amount);
    }
  }

  /** The two charges of a receipt. They fail where the balance is short, and where the first uses up the allowance and
      with it the delegate's right to make the second. */
  method ChargePayer(
    l: Ledger, ghost pool: Pubkey, from: TokenId, delegate: Pubkey, treasuryShare: int, providerShare: int)
    returns (r: Result<Ledger>)
    requires Conserved(l) && Custody(l, pool) && from in l.accounts && treasuryShare >= 0 && providerShare >= 0
    requires l.accounts[from].mint == Usdc && l.accounts[from].delegate == Some(delegate)
    requires l.accounts[from].allowance >= treasuryShare + providerShare
    ensures TreasuryVault in l.accounts && EscrowVault in l.accounts
    ensures var t := l.accounts[from];
            r == if t.amount < treasuryShare + providerShare then Err(TokenInsufficientFunds)
                 else if providerShare > 0 || t.allowance > treasuryShare || delegate == t.owner then
                   Ok(Move(Move(l, from, TreasuryVault, delegate, treasuryShare), from, EscrowVault, delegate,
                           providerShare))
                 else Err(TokenOwnerMismatch)
    ensures r.Ok? ==> Conserved(r.value) && Custody(r.value, pool)
                      && r.value.accounts[EscrowVault].amount == l.accounts[EscrowVault].amount + providerShare
  {
    PaymentVerdict(l, pool, from, Usdc, TreasuryVault, delegate, treasuryShare);
    var paidTreasury :- Transfer(l, from, Usdc, TreasuryVault, delegate, treasuryShare);
    HolderPays(l, pool, from, Usdc, TreasuryVault, delegate, treasuryShare);
    PaymentVerdict(paidTreasury, pool, from, Usdc, EscrowVault, delegate, providerShare);
    var paid :- Transfer(paidTreasury, from, Usdc, EscrowVault, delegate, providerShare);
    HolderPays(paidTreasury, pool, from, Usdc, EscrowVault, delegate, providerShare);
    r := Ok(paid);
  }

  /** What recording finds of the accounts it is given: numbers that fit, and all a provider is owed in escrow. */
  ghost predicate ReadyToRecord(s: State, c: Charge) {
    && ValidateParams(s.config.params).Ok? && LedgerOk(s)
    && RewardOk(s, UserKey(c.payer)) && RewardOk(s, ProviderKey(c.provider)) && ProviderOk(s, c.provider)
    && (c.provider in s.providers ==> 0 <= s.providers[c.provider].pendingUsdc <= s.ledger.accounts[EscrowVault].amount)
  }

  lemma PendingIsInEscrow(s: State, p: Pubkey)
    requires Inv(s) && p in s.providers
    ensures 0 <= s.providers[p].pendingUsdc <= s.ledger.accounts[EscrowVault].amount
  {
    forall q | q in s.providers ensures s.providers[q].pendingUsdc >= 0 {
      assert ProviderOk(s, q);
    }
    SumAtLeast(s.providers, p, PendingUsdcOf());
    assert Gift(s.history, EscrowVault) >= 0;
    assert Own(s.ledger, s.history, EscrowVault) == AmountsOf(s).escrow;
  }

  lemma RecordingIsReady(s: State, c: Charge)
    requires Inv(s)
    ensures ReadyToRecord(s, c)
  {
    assert RewardOk(s, UserKey(c.payer)) && RewardOk(s, ProviderKey(c.provider)) && ProviderOk(s, c.provider);
    if c.provider in s.providers {
      PendingIsInEscrow(s, c.provider);
    }
  }

  method UsdcShares(p: Phase1Params, amount: u64) returns (shares: (int, int))
    requires ValidateParams(p).Ok? && 0 < amount <= MAX_RECEIPT_USDC_ATOMIC
    ensures shares == (TreasuryShare(p, amount), amount - TreasuryShare(p, amount))
    ensures 0 <= TreasuryShare(p, amount) <= amount
  {
    AcceptedParamsAreSafe(p, amount);
    var treasuryShare := CalculateBpsAmount(amount, p.treasuryUsdcShareBps).value;
    var providerShare := CheckedSubU64(amount, treasuryShare).value;
    shares := (treasuryShare, providerShare);
  }

  method ClawShares(p: Phase1Params, amount: u64) returns (shares: (int, int))
    requires ValidateParams(p).Ok? && 0 < amount <= MAX_RECEIPT_USDC_ATOMIC
    ensures shares == (UserClaw(p, amount), ProviderClaw(p, amount))
    ensures FitsU64(UserClaw(p, amount)) && FitsU64(ProviderClaw(p, amount))
  {
    AcceptedParamsAreSafe(p, amount);
    var totalClaw := CalculateClawAmount(amount, p.exchangeRateClawPerUsdcE6).value;
    var userClaw := CalculateBpsAmount(totalClaw, p.userClawShareBps).value;
    var providerClaw := CheckedSubU64(totalClaw, userClaw).value;
    shares := (userClaw, providerClaw);
  }

  predicate CanBeFinalized(r: Receipt) {
    r.status == Submitted || (r.status == Finalized && !r.economicsSettled)
  }

  /** What settling finds of a receipt that can be finalized: everything it subtracts, and numbers that fit. */
  ghost predicate ReadyToSettle(s: State, n: Nonce) {
    && LedgerOk(s) && SettlementAccounts(s, n) && s.settlements[n].status == Recorded
    && var st := s.settlements[n];
       var user, reward := s.rewards[UserKey(st.payer)], s.rewards[ProviderKey(st.provider)];
       var p := s.providers[st.provider];
       && FitsU64(user.pendingClaw) && FitsU64(user.lockedClaw) && user.pendingClaw >= st.clawToUser >= 0
       && FitsU64(reward.pendingClaw) && FitsU64(reward.lockedClaw)
       && reward.pendingClaw >= st.clawToProviderLocked >= 0
       && p.wallet == st.provider && FitsU64(p.pendingUsdc) && FitsU64(p.unsettledReceipts)
       && p.pendingUsdc >= st.usdcToProvider >= 0 && p.unsettledReceipts >= 1
       && s.ledger.accounts[EscrowVault].amount >= st.usdcToProvider
  }

  lemma SettlingIsCovered(s: State, n: Nonce)
    requires Inv(s) && n in s.receipts && CanBeFinalized(s.receipts[n])
    ensures ReadyToSettle(s, n)
  {
    assert ReceiptOk(s, n);
    RecordedIsCovered(s, n);
    var st := s.settlements[n];
    assert SettlementOk(s, n) && ProviderOk(s, st.provider);
    assert RewardOk(s, UserKey(st.payer)) && RewardOk(s, ProviderKey(st.provider));
  }

  method SettledProvider(p: Provider, share: int) returns (p': Provider)
    requires FitsU64(p.pendingUsdc) && FitsU64(p.unsettledReceipts) && p.pendingUsdc >= share >= 0
             && p.unsettledReceipts >= 1
    ensures p' == p.(pendingUsdc := p.pendingUsdc - share, unsettledReceipts := p.unsettledReceipts - 1)
  {
    var pendingUsdc := CheckedSubU64(p.pendingUsdc, share).value;
    var unsettled := CheckedSubU64(p.unsettledReceipts, 1).value;
    p' := p.(pendingUsdc := pendingUsdc, unsettledReceipts := unsettled);
  }

  /** What posting a bond finds of a submitted receipt: a recorded settlement without one, and room in the counter. */
  ghost predicate ReadyForBond(s: State, n: Nonce) {
    && ValidateParams(s.config.params).Ok? && LedgerOk(s)
    && SettlementAccounts(s, n) && s.settlements[n].status == Recorded && n !in s.bonds
    && 0 <= s.providers[s.settlements[n].provider].unresolvedChallenges < U64_MAX
  }

  lemma SubmittedIsReadyForBond(s: State, n: Nonce)
    requires Inv(s) && n in s.receipts && s.receipts[n].status == Submitted
    ensures ReadyForBond(s, n)
  {
    assert ReceiptOk(s, n) && SettlementOk(s, n);
    RecordedIsCovered(s, n);
    RoomForOneMoreChallenge(s, n);
    assert ProviderOk(s, s.settlements[n].provider);
  }

  /** What a resolution finds of an open challenge: everything it subtracts, and numbers that fit. */
  ghost predicate ReadyToResolve(s: State, n: Nonce) {
    && LedgerOk(s) && Resolvable(s, n)
    && var st := s.settlements[n];
       var user, reward := s.rewards[UserKey(st.payer)], s.rewards[ProviderKey(st.provider)];
       var p := s.providers[st.provider];
       && FitsU64(user.pendingClaw) && FitsU64(reward.pendingClaw)
       && FitsU64(p.pendingUsdc) && FitsU64(p.unsettledReceipts) && FitsU64(p.unresolvedChallenges)
       && FitsI128(p.clawNetPosition)
  }

  lemma OpenIsReadyToResolve(s: State, n: Nonce)
    requires Inv(s) && n in s.challenges && s.challenges[n].status == Open
    ensures ReadyToResolve(s, n)
  {
    OpenChallengeIsResolvable(s, n);
    var st := s.settlements[n];
    assert ProviderOk(s, st.provider) && RewardOk(s, UserKey(st.payer)) && RewardOk(s, ProviderKey(st.provider));
  }

  /** What moves from pending to locked when a receipt is settled; nothing can be missing from pending. */
  method Unlock(account: RewardAccount, amount: int) returns (r: Result<RewardAccount>)
    requires FitsU64(account.pendingClaw) && FitsU64(account.lockedClaw) && account.pendingClaw >= amount >= 0
    ensures r == if FitsU64(account.lockedClaw + amount) then Ok(Unlocking(account, amount)) else Err(MathOverflow)
  {
    var pending := CheckedSubU64(account.pendingClaw, amount).value;
    var locked :- CheckedAddU64(account.lockedClaw, amount);
    r := Ok(account.(pendingClaw := pending, lockedClaw := locked));
  }

  lemma MovingNothing(l: Ledger, vault: TokenId, to: TokenId, pool: Pubkey)
    requires Custody(l, pool) && !vault.Held? && to in l.accounts
    ensures Move(l, vault, to, pool, 0) == l
    ensures VaultMint(vault) == Claw ==> Burned(l, vault, pool, 0) == l
  {
    assert l.accounts[vault := l.accounts[vault]][to := l.accounts[to]] == l.accounts;
    assert l.accounts[vault := l.accounts[vault]] == l.accounts;
  }

  method SlashShares(p: Phase1Params) returns (shares: (int, int))
    requires ValidateParams(p).Ok?
    ensures shares == (ChallengerReward(p), p.providerSlashClawAmount - ChallengerReward(p))
  {
    AcceptedSlashIsSafe(p);
    var challengerReward := CalculateBpsAmount(p.providerSlashClawAmount, p.challengerRewardBps).value;
    var burn := CheckedSubU64(p.providerSlashClawAmount, challengerReward).value;
    shares := (challengerReward, burn);
  }

  /** Who the refund and the bond may go to: in the order the program looks at the two accounts. */
  method CheckRecipients(l: Ledger, st: Settlement, b: Bond, challengerToken: TokenId, payerToken: TokenId)
    returns (r: Result<()>)
    ensures r == RecipientsGuard(l, st, b, challengerToken, payerToken)
  {
    var accounts := l.accounts;
    :- Need(payerToken in accounts, AccountNotInitialized);
    :- Need(accounts[payerToken].owner == st.payer, InvalidTokenOwner);
    :- Need(accounts[payerToken].mint == Usdc, InvalidTokenMint);
    :- Need(challengerToken in accounts, AccountNotInitialized);
    :- Need(accounts[challengerToken].owner == b.challenger, InvalidTokenOwner);
    :- Need(accounts[challengerToken].mint == Claw, InvalidTokenMint);
    r := Ok(());
  }

  /** A pending reward taken back; it is still there. */
  method Unbooked(account: RewardAccount, amount: int) returns (account': RewardAccount)
    requires FitsU64(account.pendingClaw) && account.pendingClaw >= amount >= 0
    ensures account' == account.(pendingClaw := account.pendingClaw - amount)
  {
    var pending := CheckedSubU64(account.pendingClaw, amount).value;
    account' := account.(pendingClaw := pending);
  }

  /** The slash: the challenger's part is paid and the rest is burned, if the reward vault holds both. */
  method PaySlash(l: Ledger, pool: Pubkey, challengerToken: TokenId, reward: int, burn: int) returns (r: Result<Ledger>)
    requires Conserved(l) && Custody(l, pool) && challengerToken in l.accounts && reward >= 0 && burn >= 0
    requires challengerToken.Held? && l.accounts[challengerToken].mint == Claw
    ensures r == if l.accounts[RewardVault].amount >= reward + burn
                 then Ok(Burned(Move(l, RewardVault, challengerToken, pool, reward), RewardVault, pool, burn))
                 else Err(TokenInsufficientFunds)
    ensures r.Ok? ==> Conserved(r.value) && Custody(r.value, pool)
  {
    var paid := l;
    if reward > 0 {
      PaymentVerdict(l, pool, RewardVault, Claw, challengerToken, pool, reward);
      paid :- Transfer(l, RewardVault, Claw, challengerToken, pool, reward);
    } else {
      MovingNothing(l, RewardVault, challengerToken, pool);
    }
    VaultPays(l, pool, RewardVault, challengerToken, reward);
    var burned := paid;
    if burn > 0 {
      BurnVerdict(paid, pool, RewardVault, burn);
      burned :- Burn(paid, RewardVault, pool, burn);
    } else {
      MovingNothing(paid, RewardVault, challengerToken, pool);
    }
    VaultBurns(paid, pool, RewardVault, burn);
    r := Ok(burned);
  }

  /** Bond back, slash, refund: only what the reward vault owes can fail. */
  method PayAccepted(ghost s: State, l: Ledger, pool: Pubkey, n: Nonce, st: Settlement, b: Bond,
                     challengerToken: TokenId, payerToken: TokenId)
    returns (r: Result<Ledger>)
    requires LedgerOk(s) && Resolvable(s, n) && l == s.ledger && pool == s.poolAuthority
    requires st == s.settlements[n] && b == s.bonds[n]
    requires challengerToken in l.accounts && payerToken in l.accounts
    requires l.accounts[payerToken].owner == st.payer && l.accounts[payerToken].mint == Usdc
    requires l.accounts[challengerToken].owner == b.challenger && l.accounts[challengerToken].mint == Claw
    ensures r == if l.accounts[RewardVault].amount >= b.slashAmount
                 then Ok(AcceptLedger(s, n, challengerToken, payerToken)) else Err(TokenInsufficientFunds)
  {
    VaultPays(l, pool, BondVault, challengerToken, b.bondAmount);
    var bondBack := Transfer(l, BondVault, Claw, challengerToken, pool, b.bondAmount).value;
    var slashed :- PaySlash(bondBack, pool, challengerToken, b.challengerRewardAmount, b.burnAmount);
    VaultPays(slashed, pool, EscrowVault, payerToken, st.usdcToProvider);
    var refunded := Transfer(slashed, EscrowVault, Usdc, payerToken, pool, st.usdcToProvider).value;
    r := Ok(refunded);
  }

  /** The provider's account after a revert: only the net position can overflow. */
  method RevertedProvider(p: Provider, st: Settlement, b: Bond) returns (r: Result<Provider>)
    requires FitsU64(p.pendingUsdc) && FitsU64(p.unsettledReceipts) && FitsU64(p.unresolvedChallenges)
    requires p.pendingUsdc >= st.usdcToProvider >= 0 && p.unsettledReceipts >= 1 && p.unresolvedChallenges >= 1
    requires FitsI128(p.clawNetPosition) && st.clawToProviderTotal >= 0 && b.slashAmount >= 0
    ensures r == if FitsI128(p.clawNetPosition - st.clawToProviderTotal - b.slashAmount) then
                   Ok(p.(pendingUsdc := p.pendingUsdc - st.usdcToProvider,
                         unsettledReceipts := p.unsettledReceipts - 1,
                         unresolvedChallenges := p.unresolvedChallenges - 1,
                         clawNetPosition := p.clawNetPosition - st.clawToProviderTotal - b.slashAmount))
                 else Err(MathOverflow)
  {
    var pendingUsdc := CheckedSubU64(p.pendingUsdc, st.usdcToProvider).value;
    var unsettled := CheckedSubU64(p.unsettledReceipts, 1).value;
    var afterRevert :- CheckedSubI128(p.clawNetPosition, st.clawToProviderTotal);
    var afterSlash :- CheckedSubI128(afterRevert, b.slashAmount);
    var unresolved := CheckedSubU64(p.unresolvedChallenges, 1).value;
    r := Ok(p.(pendingUsdc := pendingUsdc, unsettledReceipts := unsettled, unresolvedChallenges := unresolved,
               clawNetPosition := afterSlash));
  }

  /** The vesting computation never fails on a settled receipt: it gives what is vested and not yet released. */
  lemma VestingNeverFails(s: State, n: Nonce, kind: RewardKind)
    requires Inv(s) && n in s.settlements && s.settlements[n].status == FinalizedSettled
    ensures s.settlements[n].lockDays > 0
    ensures var st := s.settlements[n];
            var vested := Vested(TargetTotal(st, kind), st.lockStartedAt, s.now, st.lockDays);
            && ComputeLinearReleasable(TargetTotal(st, kind), TargetReleased(st, kind), st.lockStartedAt, s.now,
                                       st.lockDays)
               == Ok(vested - TargetReleased(st, kind))
            && 0 <= TargetReleased(st, kind) <= vested <= TargetTotal(st, kind) <= U64_MAX
  {
    var st := s.settlements[n];
    ReleasedAtMostTotal(s, n, kind);
    assert VestingOk(s, n, kind);
    ReleasableIsVestedRest(TargetTotal(st, kind), TargetReleased(st, kind), st.lockStartedAt, s.now, st.lockDays);
  }

  // ---- receipts and challenges ---------------------------------------------

  /** The receipt as finalized: a submitted one whose window is over, or one finalized by a rejected challenge. */
  method FinalizedReceipt(receipt: Receipt, now: i64) returns (r: Result<Receipt>)
    ensures r == match receipt.status
                 case Submitted =>
                   if now > receipt.challengeDeadline then Ok(receipt.(status := Finalized, finalizedAt := now))
                   else Err(ChallengeWindowOpen)
                 case Finalized => if receipt.economicsSettled then Err(ReceiptAlreadySettled) else Ok(receipt)
                 case _ => Err(ReceiptNotFinalizable)
  {
    match receipt.status {
      case Submitted =>
        :- Need(now > receipt.challengeDeadline, ChallengeWindowOpen);
        r := Ok(receipt.(status := Finalized, finalizedAt := now));
      case Finalized =>
        :- Need(!receipt.economicsSettled, ReceiptAlreadySettled);
        r := Ok(receipt);
      case _ =>
        r := Err(ReceiptNotFinalizable);
    }
  }

  /** Challenge and receipt as a ruling leaves them. */
  method Ruled(challenge: Challenge, receipt: Receipt, resolution: ResolutionCode, now: i64)
    returns (challenge': Challenge, receipt': Receipt)
    ensures challenge' == challenge.(
              status := if resolution == RejectedCode then ChallengeRejected else ChallengeAccepted,
              resolution := resolution, resolvedAt := now)
    ensures receipt' == receipt.(
              status := if resolution == RejectedCode then Finalized
                        else if resolution == SignerRevokedCode then Slashed else Rejected,
              finalizedAt := now, economicsSettled := resolution != RejectedCode)
  {
    challenge' := challenge.(resolution := resolution, resolvedAt := now);
    receipt' := receipt.(finalizedAt := now);
    match resolution {
      case RejectedCode =>
        challenge' := challenge'.(status := ChallengeRejected);
        receipt' := receipt'.(status := Finalized, economicsSettled := false);
      case SignerRevokedCode =>
        challenge' := challenge'.(status := ChallengeAccepted);
        receipt' := receipt'.(status := Slashed, economicsSettled := true);
      case _ =>
        challenge' := challenge'.(status := ChallengeAccepted);
        receipt' := receipt'.(status := Rejected, economicsSettled := true);
    }
  }

  // ---- faucet --------------------------------------------------------------

  method ResetGlobalIfNeeded(global: Faucet.FaucetGlobal, day: int) returns (r: Faucet.FaucetGlobal)
    ensures r == Faucet.GlobalOn(global, day)
  {
    r := global;
    if r.day != day {
      r := r.(day := day, claw := 0, usdc := 0);
    }
  }

  /** `found` is what `init_if_needed` loads: a record just created has the sentinel for its owner. */
  method InitializeOrResetUserIfNeeded(found: Faucet.FaucetUser, owner: Pubkey, day: int)
    returns (r: Result<Faucet.FaucetUser>)
    ensures found.owner == Faucet.DEFAULT_PUBKEY ==> r == Ok(Faucet.FaucetUser(owner, day, 0, 0))
    ensures found.owner != Faucet.DEFAULT_PUBKEY && found.owner != owner ==> r == Err(InvalidFaucetUserState)
    ensures found.owner != Faucet.DEFAULT_PUBKEY && found.owner == owner ==>
              r == Ok(if found.day != day then Faucet.FaucetUser(owner, day, 0, 0) else found)
  {
    var user := found;
    if user.owner == Faucet.DEFAULT_PUBKEY {
      user := user.(owner := owner, day := day, claw := 0, usdc := 0);
      return Ok(user);
    }
    :- Need(user.owner == owner, InvalidFaucetUserState);
    if user.day != day {
      user := user.(day := day, claw := 0, usdc := 0);
    }
    r := Ok(user);
  }

  /** The limits of a claim, against counters that are reset first if they are of another day. */
  method CountClaim(f: Faucet.FaucetState, day: int, recipient: Pubkey, claw: u64, usdc: u64)
    returns (r: Result<Faucet.FaucetState>)
    requires recipient in f.users ==> f.users[recipient].owner == recipient
    ensures var verdict := Faucet.ClaimGuard(f, day, recipient, claw, usdc);
            r == if verdict.Ok? then Ok(Faucet.Claimed(f, day, recipient, claw, usdc)) else Err(verdict.error)
  {
    var limits := f.limits;
    :- Need(f.enabled, FaucetDisabled);
    :- Need(claw > 0 || usdc > 0, InvalidFaucetAmount);
    :- Need(claw <= limits.maxClawPerClaim && usdc <= limits.maxUsdcPerClaim, FaucetClaimLimitExceeded);
    var global := ResetGlobalIfNeeded(f.global, day);
    var loaded := InitializeOrResetUserIfNeeded(
      if recipient in f.users then f.users[recipient] else
      Faucet.FaucetUser(Faucet.DEFAULT_PUBKEY, 0, 0, 0), recipient, day);
    var user := loaded.value;
    var userClaw :- CheckedAddU64(user.claw, claw);
    var userUsdc :- CheckedAddU64(user.usdc, usdc);
    :- Need(userClaw <= limits.maxClawPerWalletPerDay && userUsdc <= limits.maxUsdcPerWalletPerDay,
            FaucetWalletDailyLimitExceeded);
    var globalClaw :- CheckedAddU64(global.claw, claw);
    var globalUsdc :- CheckedAddU64(global.usdc, usdc);
    :- Need(globalClaw <= limits.maxClawGlobalPerDay && globalUsdc <= limits.maxUsdcGlobalPerDay,
            FaucetGlobalDailyLimitExceeded);
    user := user.(claw := userClaw, usdc := userUsdc);
    global := global.(claw := globalClaw, usdc := globalUsdc);
    r := Ok(f.(users := f.users[recipient := user], global := global));
  }

  /** Where the payouts go, and whether the faucet's vaults hold them. */
  method CheckPayout(l: Ledger, ghost pool: Pubkey, c: FaucetClaim) returns (r: Result<()>)
    requires Custody(l, pool) && c.clawToken in l.accounts && c.usdcToken in l.accounts
    ensures FaucetClawVault in l.accounts && FaucetUsdcVault in l.accounts && r == PayoutGuard(l, c)
  {
    var accounts := l.accounts;
    :- Need(accounts[c.clawToken].owner == c.recipient, InvalidTokenOwner);
    :- Need(accounts[c.clawToken].mint == Claw, InvalidTokenMint);
    :- Need(accounts[c.usdcToken].owner == c.recipient, InvalidTokenOwner);
    :- Need(accounts[c.usdcToken].mint == Usdc, InvalidTokenMint);
    :- Need(accounts[FaucetClawVault].amount >= c.claw && accounts[FaucetUsdcVault].amount >= c.usdc,
            FaucetVaultInsufficientBalance);
    r := Ok(());
  }

  method PayIfAny(l: Ledger, pool: Pubkey, vault: TokenId, to: TokenId, amount: u64) returns (paid: Ledger)
    requires Conserved(l) && Custody(l, pool) && !vault.Held? && to in l.accounts
    requires l.accounts[to].mint == VaultMint(vault) && amount <= l.accounts[vault].amount
    ensures paid == Move(l, vault, to, pool, amount) && Conserved(paid) && Custody(paid, pool)
  {
    VaultPays(l, pool, vault, to, amount);
    paid := l;
    if amount > 0 {
      paid := Transfer(l, vault, VaultMint(vault), to, pool, amount).value;
    } else {
      MovingNothing(l, vault, to, pool);
    }
  }

  /** Once checked, the two payouts go through; a payout of nothing is not made. */
  method PayOut(l: Ledger, pool: Pubkey, c: FaucetClaim) returns (paid: Ledger)
    requires Conserved(l) && Custody(l, pool) && c.clawToken in l.accounts && c.usdcToken in l.accounts
    requires l.accounts[c.clawToken].mint == Claw && l.accounts[c.usdcToken].mint == Usdc
    requires l.accounts[FaucetClawVault].amount >= c.claw && l.accounts[FaucetUsdcVault].amount >= c.usdc
    ensures paid
            == Move(Move(l, FaucetClawVault, c.clawToken, pool, c.claw), FaucetUsdcVault, c.usdcToken, pool, c.usdc)
  {
    paid := PayIfAny(l, pool, FaucetClawVault, c.clawToken, c.claw);
    paid := PayIfAny(paid, pool, FaucetUsdcVault, c.usdcToken, c.usdc);
  }
}

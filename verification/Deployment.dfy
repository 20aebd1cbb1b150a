/** The two programs as they run: instructions that load accounts, check, compute step by step and write back. Every
    method makes all the checks its instruction makes, and is proved to answer as its guard says, to change the accounts
    as its effect says, and to keep the invariant. */
module Programs {
  import opened Outcomes
  import opened Widths
  import opened TokenLedger
  import opened Params
  import opened Preimage
  import opened Ed25519
  import opened Vesting
  import Faucet
  import opened Accounts
  import opened Masterpool
  import opened Attestation
  import opened Environment
  import opened Invariant
  import opened Facts
  import opened StepsReceipt
  import opened StepsFinalize
  import opened StepsChallenge
  import opened StepsMoney
  import opened Runs
  import opened Handlers

  class Deployment {
    const poolAuthority: Pubkey
    const sha256: seq<u8> -> Bytes32
    var now: i64
    var attestation: AttestationConfig
    var config: GlobalConfig
    var signers: map<SignerKey, ProviderSigner>
    var receipts: map<Nonce, Receipt>
    var challenges: map<Nonce, Challenge>
    var settlements: map<Nonce, Settlement>
    var bonds: map<Nonce, Bond>
    var providers: map<Pubkey, Provider>
    var rewards: map<RewardKey, RewardAccount>
    var ledger: Ledger
    var faucet: Faucet.FaucetState
    ghost var history: History

    ghost function View(): State
      reads this
    {
      State(now, poolAuthority, sha256, attestation, config, signers, receipts, challenges,
            settlements, bonds, providers, rewards, ledger, faucet, history)
    }

    ghost predicate Valid()
      reads this
    {
      Inv(View())
    }

    /** Both programs and the faucet just initialised, by a call that accepted its parameters. */
    constructor (startedAt: i64, pool: Pubkey, hash: seq<u8> -> Bytes32, windowSeconds: i64, timeoutSeconds: i64,
                 params: Phase1Params, usdcMint: Pubkey, registered: map<SignerKey, ProviderSigner>, tokens: Ledger)
      requires ValidateParams(params).Ok? && windowSeconds > 0 && timeoutSeconds > 0
      requires Conserved(tokens) && Custody(tokens, pool)
      requires forall id: TokenId :: !id.Held? ==> tokens.accounts[id].amount == 0
      ensures Initial(View()) && Valid()
    {
      now, poolAuthority, sha256 := startedAt, pool, hash;
      attestation := AttestationConfig(windowSeconds, timeoutSeconds, false);
      config := GlobalConfig(params, usdcMint, false, false, false, false, false);
      signers, receipts, challenges := registered, map[], map[];
      settlements, bonds, providers, rewards := map[], map[], map[], map[];
      ledger := tokens;
      faucet := Faucet.FaucetState(
        false, Faucet.DEFAULT_LIMITS, Faucet.FaucetGlobal(Faucet.CurrentDayIndex(startedAt), 0, 0), map[]);
      history := History(map[], 0, tokens.clawSupply, []);
      new;
      InitialIsOk(View());
    }

    /** Between two instructions the clock moves on. */
    method Elapse(later: i64)
      requires Valid() && now <= later
      modifies this`now
      ensures View() == old(View()).(now := later)
      ensures Valid()
    {
      TickKeeps(View(), later);
      now := later;
    }

    method Receive(tokens: Ledger)
      requires OutsideOk(View(), tokens)
      modifies this
      ensures View() == OutsideEffect(old(View()), tokens)
    {
      history, ledger := OutsideHistory(View(), tokens), tokens;
    }

    /** And others move tokens. */
    method Outside(tokens: Ledger)
      requires Valid() && OutsideOk(View(), tokens)
      modifies this
      ensures View() == OutsideEffect(old(View()), tokens)
      ensures Valid()
    {
      OutsideKeeps(View(), tokens);
      Receive(tokens);
    }

    /** The loaded accounts are written back together, once an instruction has succeeded. */
    method WriteBack(ledger': Ledger, rewards': map<RewardKey, RewardAccount>, providers': map<Pubkey, Provider>,
                     settlements': map<Nonce, Settlement>, bonds': map<Nonce, Bond>)
      modifies this
      ensures View() == old(View()).(
                ledger := ledger', rewards := rewards', providers := providers', settlements := settlements',
                bonds := bonds')
    {
      ledger := ledger';
      rewards := rewards';
      providers := providers';
      settlements := settlements';
      bonds := bonds';
    }

    method WriteBackReceipt(receipts': map<Nonce, Receipt>, challenges': map<Nonce, Challenge>)
      modifies this
      ensures View() == old(View()).(receipts := receipts', challenges := challenges')
    {
      receipts := receipts';
      challenges := challenges';
    }

    // ---- providers ---------------------------------------------------------

    method HandleRegister(wallet: Pubkey, token: TokenId) returns (r: Result<()>)
      requires LedgerOk(View())
      modifies this
      ensures r == RegisterGuard(old(View()), wallet, token)
      ensures View() == if r.Ok? then RegisterEffect(old(View()), wallet, token) else old(View())
    {
      var accounts := ledger.accounts;
      :- Need(wallet != poolAuthority, MissingSignature);
      :- Need(wallet !in providers && ProviderKey(wallet) !in rewards, AccountAlreadyInUse);
      :- Need(token in accounts, AccountNotInitialized);
      :- Need(accounts[token].owner == wallet, InvalidTokenOwner);
      :- Need(accounts[token].mint == Usdc, InvalidTokenMint);
      var stake := config.params.providerStakeUsdc;
      PaymentVerdict(ledger, poolAuthority, token, Usdc, StakeVault, wallet, stake);
      var paid :- Transfer(ledger, token, Usdc, StakeVault, wallet, stake);
      var account := InitializeRewardAccount(None, wallet, ProviderReward);
      ledger := paid;
      providers := providers[wallet := Provider(wallet, stake, 0, 0, 0, 0, Active)];
      rewards := rewards[ProviderKey(wallet) := account.value];
      r := Ok(());
    }

    method RegisterProvider(wallet: Pubkey, token: TokenId) returns (r: Result<()>)
      requires Valid()
      modifies this
      ensures r == RegisterGuard(old(View()), wallet, token)
      ensures View() == if r.Ok? then RegisterEffect(old(View()), wallet, token) else old(View())
      ensures Valid()
    {
      ghost var s := View();
      r := HandleRegister(wallet, token);
      if r.Ok? {
        RegisterKeeps(s, wallet, token);
      }
    }

    method HandleExit(wallet: Pubkey, destination: TokenId) returns (r: Result<()>)
      requires LedgerOk(View())
      requires wallet in providers ==> 0 <= providers[wallet].stakedUsdc <= ledger.accounts[StakeVault].amount
      modifies this
      ensures r == ExitGuard(old(View()), wallet, destination)
      ensures View() == if r.Ok? then ExitEffect(old(View()), wallet, destination) else old(View())
    {
      var accounts := ledger.accounts;
      :- Need(wallet != poolAuthority, MissingSignature);
      :- Need(wallet in providers && destination in accounts, AccountNotInitialized);
      var provider := providers[wallet];
      :- Need(provider.status == Active, ProviderNotActive);
      :- Need(provider.pendingUsdc == 0 && provider.unsettledReceipts == 0 && provider.unresolvedChallenges == 0
              && provider.clawNetPosition >= 0, ProviderExitBlocked);
      PaymentVerdict(ledger, poolAuthority, StakeVault, Usdc, destination, poolAuthority, provider.stakedUsdc);
      var paid :- Transfer(ledger, StakeVault, Usdc, destination, poolAuthority, provider.stakedUsdc);
      history := Given(history, destination, provider.stakedUsdc);
      var staked := CheckedSubU64(provider.stakedUsdc, provider.stakedUsdc).value;
      provider := provider.(stakedUsdc := staked, status := Exited);
      ledger := paid;
      providers := providers[wallet := provider];
      r := Ok(());
    }

    method ExitProvider(wallet: Pubkey, destination: TokenId) returns (r: Result<()>)
      requires Valid()
      modifies this
      ensures r == ExitGuard(old(View()), wallet, destination)
      ensures View() == if r.Ok? then ExitEffect(old(View()), wallet, destination) else old(View())
      ensures Valid()
    {
      ghost var s := View();
      if wallet in providers {
        StakeIsCovered(s, wallet);
      }
      r := HandleExit(wallet, destination);
      if r.Ok? {
        ExitKeeps(s, wallet, destination);
      }
    }

    // ---- receipts, in the masterpool ---------------------------------------

    predicate Chargeable(n: Nonce, c: Charge)
      reads this
    {
      && c.payerToken in ledger.accounts && TreasuryVault in ledger.accounts && EscrowVault in ledger.accounts
      && c.provider in providers && ProviderKey(c.provider) in rewards && providers[c.provider].status == Active
      && n !in settlements && !config.pauseReceiptRecording && 0 < c.amount <= MAX_RECEIPT_USDC_ATOMIC
      && ledger.accounts[c.payerToken].owner == c.payer && ledger.accounts[c.payerToken].mint == Usdc
      && ledger.accounts[c.payerToken].delegate == Some(c.delegate)
      && ledger.accounts[c.payerToken].allowance >= c.amount
    }

    /** Everything a recording checks before it charges. */
    method CheckCharge(n: Nonce, c: Charge) returns (r: Result<()>)
      requires LedgerOk(View())
      ensures r.Ok? <==> Chargeable(n, c)
      ensures r.Err? ==> r == RecordGuard(View(), n, c)
    {
      var accounts := ledger.accounts;
      :- Need(c.payerToken in accounts && c.provider in providers
              && ProviderKey(c.provider) in rewards, AccountNotInitialized);
      :- Need(n !in settlements, AccountAlreadyInUse);
      :- Need(!config.pauseReceiptRecording, ReceiptRecordingPaused);
      :- Need(c.amount > 0, InvalidPositiveAmount);
      :- Need(c.amount <= MAX_RECEIPT_USDC_ATOMIC, ReceiptChargeTooLarge);
      var token := accounts[c.payerToken];
      :- Need(token.owner == c.payer, InvalidTokenOwner);
      :- Need(token.mint == Usdc, InvalidTokenMint);
      :- Need(token.delegate == Some(c.delegate), InvalidPaymentDelegate);
      :- Need(token.allowance >= c.amount, InsufficientDelegatedAllowance);
      :- Need(providers[c.provider].status == Active, ProviderNotActive);
      r := Ok(());
    }

    /** The reward accounts, the provider's counters and net position, and the settlement. */
    method BookRecording(n: Nonce, c: Charge, treasuryShare: int, providerShare: int,
                         userClaw: int, providerClaw: int, paid: Ledger)
      returns (r: Result<()>)
      requires providerShare == c.amount - treasuryShare
      requires c.payerToken in ledger.accounts && TreasuryVault in ledger.accounts && EscrowVault in ledger.accounts
      requires c.provider in providers && ProviderKey(c.provider) in rewards && ProviderOk(View(), c.provider)
      requires RewardOk(View(), UserKey(c.payer)) && RewardOk(View(), ProviderKey(c.provider))
      requires FitsU64(providers[c.provider].pendingUsdc + providerShare) && FitsU64(userClaw) && FitsU64(providerClaw)
      requires paid == Move(Move(ledger, c.payerToken, TreasuryVault, c.delegate, treasuryShare),
                            c.payerToken, EscrowVault, c.delegate, providerShare)
      modifies this
      ensures var s, st := old(View()), Booked(old(View()), c, treasuryShare, userClaw, providerClaw);
              && r == BookingGuard(s, c, st)
              && View() == if r.Ok? then RecordWith(s, n, c, st) else s
    {
      var provider := providers[c.provider];
      var user :- CreditPending(
        if UserKey(c.payer) in rewards then Some(rewards[UserKey(c.payer)]) else None, c.payer, UserReward, userClaw);
      var debtOffset := 0;
      if provider.clawNetPosition < 0 {
        debtOffset := Min(-provider.clawNetPosition, providerClaw);
      }
      var providerLocked := CheckedSubU64(providerClaw, debtOffset).value;
      var reward :- CreditPending(Some(rewards[ProviderKey(c.provider)]), provider.wallet, ProviderReward,
                                  providerLocked);
      var net :- CheckedAddI128(provider.clawNetPosition, providerClaw);
      var pendingUsdc := CheckedAddU64(provider.pendingUsdc, providerShare).value;
      var unsettled :- CheckedAddU64(provider.unsettledReceipts, 1);
      provider := provider.(clawNetPosition := net, pendingUsdc := pendingUsdc, unsettledReceipts := unsettled);
      var settlement := Settlement(c.payer, provider.wallet, c.amount, providerShare, treasuryShare,
                                   userClaw, providerClaw, debtOffset, providerLocked,
                                   config.params.lockDays, 0, 0, 0, Recorded);
      ghost var s, st := View(), Booked(View(), c, treasuryShare, userClaw, providerClaw);
      assert settlement == st;
      assert user == RewardOrFresh(s, UserKey(c.payer)).(
          pendingClaw := RewardOrFresh(s, UserKey(c.payer)).pendingClaw + st.clawToUser);
      assert reward == s.rewards[ProviderKey(c.provider)].(
          pendingClaw := s.rewards[ProviderKey(c.provider)].pendingClaw + st.clawToProviderLocked);
      WriteBack(paid, rewards[UserKey(c.payer) := user][ProviderKey(c.provider) := reward],
                providers[c.provider := provider], settlements[n := settlement], bonds);
      r := Ok(());
    }

    /** The payer is charged, then the receipt is booked. */
    method ChargeAndBook(n: Nonce, c: Charge) returns (r: Result<()>)
      requires ReadyToRecord(View(), c) && Chargeable(n, c)
      modifies this
      ensures r == RecordGuard(old(View()), n, c)
      ensures View() == if r.Ok? then RecordEffect(old(View()), n, c) else old(View())
    {
      ghost var s := View();
      var usdc := UsdcShares(config.params, c.amount);
      var paid :- ChargePayer(ledger, poolAuthority, c.payerToken, c.delegate, usdc.0, usdc.1);
      AmountFits(paid, EscrowVault);
      var claw := ClawShares(config.params, c.amount);
      assert Booked(s, c, usdc.0, claw.0, claw.1) == NewSettlement(s, c);
      r := BookRecording(n, c, usdc.0, usdc.1, claw.0, claw.1, paid);
    }

    /** Called by the attestation program while it submits a receipt. */
    method RecordMiningFromReceipt(n: Nonce, c: Charge) returns (r: Result<()>)
      requires ReadyToRecord(View(), c)
      modifies this
      ensures r == RecordGuard(old(View()), n, c)
      ensures View() == if r.Ok? then RecordEffect(old(View()), n, c) else old(View())
    {
      var _ :- CheckCharge(n, c);
      r := ChargeAndBook(n, c);
    }

    /** The provider is paid out of escrow, and everything is written back. */
    method PaySettlement(n: Nonce, destination: TokenId, user: RewardAccount, reward: RewardAccount)
      requires ReadyToSettle(View(), n) && destination in ledger.accounts && ledger.accounts[destination].mint == Usdc
      requires user == Unlocking(rewards[UserKey(settlements[n].payer)], settlements[n].clawToUser)
      requires reward == Unlocking(rewards[ProviderKey(settlements[n].provider)], settlements[n].clawToProviderLocked)
      modifies this
      ensures View() == SettleWith(old(View()), n, destination)
    {
      var st := settlements[n];
      VaultPays(ledger, poolAuthority, EscrowVault, destination, st.usdcToProvider);
      var paid := Transfer(ledger, EscrowVault, Usdc, destination, poolAuthority, st.usdcToProvider).value;
      var provider := SettledProvider(providers[st.provider], st.usdcToProvider);
      st := st.(lockStartedAt := now, status := FinalizedSettled);
      WriteBack(paid, rewards[UserKey(st.payer) := user][ProviderKey(st.provider) := reward],
                providers[st.provider := provider], settlements[n := st], bonds);
    }

    /** Called by the attestation program while it finalizes a receipt. */
    method SettleFinalizedReceipt(n: Nonce, destination: TokenId) returns (r: Result<()>)
      requires ReadyToSettle(View(), n)
      modifies this
      ensures r == SettleGuard(old(View()), n, destination)
      ensures View() == if r.Ok? then SettleEffect(old(View()), n, destination) else old(View())
    {
      var st := settlements[n];
      :- Need(destination in ledger.accounts, AccountNotInitialized);
      :- Need(!config.pauseFinalization, FinalizationPaused);
      assert Need(st.status == Recorded, InvalidReceiptSettlementState) == Pass;
      assert Need(providers[st.provider].wallet == st.provider, InvalidProviderAccount) == Pass;
      var user :- Unlock(rewards[UserKey(st.payer)], st.clawToUser);
      var reward :- Unlock(rewards[ProviderKey(st.provider)], st.clawToProviderLocked);
      :- Need(ledger.accounts[destination].owner == st.provider, InvalidTokenOwner);
      :- Need(ledger.accounts[destination].mint == Usdc, InvalidTokenMint);
      PaySettlement(n, destination, user, reward);
      r := Ok(());
    }

    // ---- challenges, in the masterpool -------------------------------------

    /** Called by the attestation program while it opens a challenge. */
    method RecordChallengeBond(n: Nonce, challenger: Pubkey, token: TokenId) returns (r: Result<()>)
      requires ReadyForBond(View(), n)
      modifies this
      ensures r == BondGuard(old(View()), n, challenger, token)
      ensures View() == if r.Ok? then BondEffect(old(View()), n, challenger, token) else old(View())
    {
      var st, p := settlements[n], config.params;
      :- Need(token in ledger.accounts, AccountNotInitialized);
      assert Need(n !in bonds, AccountAlreadyInUse) == Pass;
      :- Need(!config.pauseChallengeProcessing, ChallengeProcessingPaused);
      assert Need(st.status == Recorded, InvalidReceiptSettlementState) == Pass;
      :- Need(ledger.accounts[token].owner == challenger, InvalidTokenOwner);
      :- Need(ledger.accounts[token].mint == Claw, InvalidTokenMint);
      PaymentVerdict(ledger, poolAuthority, token, Claw, BondVault, challenger, p.challengeBondClawAmount);
      var paid :- Transfer(ledger, token, Claw, BondVault, challenger, p.challengeBondClawAmount);
      var slash := SlashShares(p);
      var bond := Bond(challenger, st.payer, st.provider, p.challengeBondClawAmount, p.providerSlashClawAmount,
                       p.challengerRewardBps, p.burnBps, slash.0, slash.1, Locked);
      var provider := providers[st.provider];
      var unresolved := CheckedAddU64(provider.unresolvedChallenges, 1).value;
      provider := provider.(unresolvedChallenges := unresolved);
      WriteBack(paid, rewards, providers[st.provider := provider], settlements, bonds[n := bond]);
      r := Ok(());
    }

    method BurnBond(n: Nonce) returns (r: Result<()>)
      requires ReadyToResolve(View(), n)
      modifies this
      ensures r == Ok(()) && View() == RejectEffect(old(View()), n)
    {
      var bond := bonds[n];
      VaultBurns(ledger, poolAuthority, BondVault, bond.bondAmount);
      var burned := Burn(ledger, BondVault, poolAuthority, bond.bondAmount).value;
      bond := bond.(status := BondBurned);
      var provider := providers[settlements[n].provider];
      var unresolved := CheckedSubU64(provider.unresolvedChallenges, 1).value;
      provider := provider.(unresolvedChallenges := unresolved);
      WriteBack(burned, rewards, providers[settlements[n].provider := provider], settlements, bonds[n := bond]);
      r := Ok(());
    }

    method RevertReceipt(n: Nonce, challengerToken: TokenId, payerToken: TokenId) returns (r: Result<()>)
      requires ReadyToResolve(View(), n) && !config.pauseChallengeProcessing
      requires RecipientsGuard(ledger, settlements[n], bonds[n], challengerToken, payerToken).Ok?
      modifies this
      ensures r == AcceptGuard(old(View()), n, challengerToken, payerToken)
      ensures View() == if r.Ok? then AcceptEffect(old(View()), n, challengerToken, payerToken) else old(View())
    {
      ghost var s := View();
      var st, bond := settlements[n], bonds[n];
      var user := Unbooked(rewards[UserKey(st.payer)], st.clawToUser);
      var reward := Unbooked(rewards[ProviderKey(st.provider)], st.clawToProviderLocked);
      var paid :- PayAccepted(s, ledger, poolAuthority, n, st, bond, challengerToken, payerToken);
      var provider :- RevertedProvider(providers[st.provider], st, bond);
      WriteBack(paid, rewards[UserKey(st.payer) := user][ProviderKey(st.provider) := reward],
                providers[st.provider := provider], settlements[n := st.(status := ChallengedReverted)],
                bonds[n := bond.(status := Returned)]);
      r := Ok(());
    }

    /** Called by the attestation program while it resolves a challenge, whatever the receipt's status. */
    method ResolveChallengeEconomics(n: Nonce, code: u8, challengerToken: TokenId, payerToken: TokenId)
      returns (r: Result<()>)
      requires ReadyToResolve(View(), n) && 1 <= code <= 4
      modifies this
      ensures r == if code == 2 then RejectGuard(old(View()), n)
              else AcceptGuard(old(View()), n, challengerToken, payerToken)
      ensures View() == if r.Err? then old(View())
                        else if code == 2 then RejectEffect(old(View()), n)
                        else AcceptEffect(old(View()), n, challengerToken, payerToken)
    {
      var st, bond := settlements[n], bonds[n];
      :- Need(!config.pauseChallengeProcessing, ChallengeProcessingPaused);
      assert Need(st.status == Recorded, InvalidReceiptSettlementState) == Pass;
      assert Need(bond.status == Locked, InvalidChallengeBondState) == Pass;
      if code == 2 {
        r := BurnBond(n);
      } else {
        assert Need(code == 1 || code == 3 || code == 4, InvalidChallengeResolution) == Pass;
        var _ :- CheckRecipients(ledger, st, bond, challengerToken, payerToken);
        r := RevertReceipt(n, challengerToken, payerToken);
      }
    }

    // ---- rewards -----------------------------------------------------------

    method Release(n: Nonce, kind: RewardKind, key: RewardKey, amount: u64) returns (r: Result<()>)
      requires n in settlements && key in rewards
      requires rewards[key].lockedClaw >= amount && FitsU64(rewards[key].lockedClaw) && rewards[key].releasedClaw >= 0
      requires FitsU64(TargetReleased(settlements[n], kind) + amount)
      modifies this
      ensures r == if FitsU64(old(rewards)[key].releasedClaw + amount) then Ok(()) else Err(MathOverflow)
      ensures View() == if r.Ok? then ReleaseWith(old(View()), n, kind, key, amount) else old(View())
    {
      var account, st := rewards[key], settlements[n];
      var locked := CheckedSubU64(account.lockedClaw, amount).value;
      var released :- CheckedAddU64(account.releasedClaw, amount);
      account := account.(lockedClaw := locked, releasedClaw := released);
      if kind == UserReward {
        st := st.(userClawReleased := CheckedAddU64(st.userClawReleased, amount).value);
      } else {
        st := st.(providerClawReleased := CheckedAddU64(st.providerClawReleased, amount).value);
      }
      rewards := rewards[key := account];
      settlements := settlements[n := st];
      r := Ok(());
    }

    method MaterializeRewardRelease(n: Nonce, target: u8, key: RewardKey, amount: u64) returns (r: Result<()>)
      requires Valid()
      modifies this
      ensures r == ReleaseGuard(old(View()), n, target, key, amount)
      ensures View() == if r.Ok? then ReleaseEffect(old(View()), n, target, key, amount) else old(View())
      ensures Valid()
    {
      ghost var s := View();
      :- Need(key in rewards && n in settlements, AccountNotInitialized);
      :- Need(amount > 0, InvalidPositiveAmount);
      var kind :- ReleaseTarget(target);
      var st := settlements[n];
      :- Need(st.status == FinalizedSettled, InvalidReceiptSettlementState);
      :- Need(st.lockStartedAt > 0, RewardLockNotStarted);
      VestingNeverFails(s, n, kind);
      ReleasedAtMostTotal(s, n, kind);
      var releasable := ComputeLinearReleasable(
        TargetTotal(st, kind), TargetReleased(st, kind), st.lockStartedAt, now, st.lockDays).value;
      :- Need(releasable >= amount, RewardReleaseExceedsVested);
      :- Need(rewards[key].owner == TargetOwner(st, kind), InvalidRewardAccountOwner);
      :- Need(rewards[key].kind == kind, InvalidRewardAccountKind);
      RestIsLocked(s, n, kind);
      assert RewardOk(s, key);
      assert Need(rewards[key].lockedClaw >= amount, RewardReleaseExceedsLocked) == Pass;
      r := Release(n, kind, key, amount);
      if r.Ok? {
        ReleaseKeeps(s, n, target, key, amount);
      }
    }

    method HandleClaim(key: RewardKey, claimant: Pubkey, token: TokenId) returns (r: Result<()>)
      requires LedgerOk(View()) && RewardOk(View(), key)
      modifies this
      ensures r == RewardClaimGuard(old(View()), key, claimant, token)
      ensures View() == if r.Ok? then RewardClaimEffect(old(View()), key, claimant, token) else old(View())
    {
      var accounts := ledger.accounts;
      :- Need(claimant != poolAuthority, MissingSignature);
      :- Need(key in rewards && token in accounts, AccountNotInitialized);
      :- Need(!config.pauseClaims, ClaimsPaused);
      var account := rewards[key];
      :- Need(account.owner == claimant, InvalidRewardAccountOwner);
      var claimable := CheckedSubU64(account.releasedClaw, account.claimedClaw).value;
      :- Need(claimable > 0, NoClaimableRewards);
      :- Need(accounts[token].owner == claimant, InvalidTokenOwner);
      :- Need(accounts[token].mint == Claw, InvalidTokenMint);
      PaymentVerdict(ledger, poolAuthority, RewardVault, Claw, token, poolAuthority, claimable);
      var paid :- Transfer(ledger, RewardVault, Claw, token, poolAuthority, claimable);
      var claimed := CheckedAddU64(account.claimedClaw, claimable).value;
      account := account.(claimedClaw := claimed);
      ledger := paid;
      rewards := rewards[key := account];
      r := Ok(());
    }

    method ClaimReleasedClaw(key: RewardKey, claimant: Pubkey, token: TokenId) returns (r: Result<()>)
      requires Valid()
      modifies this
      ensures r == RewardClaimGuard(old(View()), key, claimant, token)
      ensures View() == if r.Ok? then RewardClaimEffect(old(View()), key, claimant, token) else old(View())
      ensures Valid()
    {
      ghost var s := View();
      assert RewardOk(s, key);
      r := HandleClaim(key, claimant, token);
      if r.Ok? {
        ClaimKeeps(s, key, claimant, token);
      }
    }

    // ---- governance --------------------------------------------------------

    method HandleGenesis() returns (r: Result<()>)
      requires LedgerOk(View())
      modifies this
      ensures r == GenesisGuard(old(View()))
      ensures View() == if r.Ok? then GenesisEffect(old(View())) else old(View())
    {
      if FitsU64(ledger.clawSupply + GENESIS_TOTAL_SUPPLY) {
        MintConserves(ledger, RewardVault, GENESIS_TOTAL_SUPPLY);
      }
      :- Need(!config.genesisMinted, GenesisAlreadyMinted);
      :- Need(ledger.clawMintAuthority == Some(poolAuthority), InvalidClawMintAuthority);
      :- Need(ledger.clawFreezeAuthority == Some(poolAuthority), InvalidClawFreezeAuthority);
      var minted :- MintTo(ledger, RewardVault, poolAuthority, GENESIS_TOTAL_SUPPLY);
      minted := minted.(clawMintAuthority := None);
      minted := minted.(clawFreezeAuthority := None);
      ledger := minted;
      config := config.(genesisMinted := true);
      r := Ok(());
    }

    method MintGenesisSupply() returns (r: Result<()>)
      requires Valid()
      modifies this
      ensures r == GenesisGuard(old(View()))
      ensures View() == if r.Ok? then GenesisEffect(old(View())) else old(View())
      ensures Valid()
    {
      ghost var s := View();
      r := HandleGenesis();
      if r.Ok? {
        GenesisKeeps(s);
      }
    }

    method UpdateConfig(params: Phase1Params) returns (r: Result<()>)
      requires Valid()
      modifies this`config
      ensures r == ValidateParams(params)
      ensures View() == if r.Ok? then UpdateConfigEffect(old(View()), params) else old(View())
      ensures Valid()
    {
      ghost var s := View();
      var _ :- ValidateParams(params);
      config := config.(params := params);
      SettingsKeep(s, View());
      r := Ok(());
    }

    // ---- faucet ------------------------------------------------------------

    method UpdateFaucetLimits(limits: Faucet.FaucetLimits) returns (r: Result<()>)
      requires Valid()
      modifies this`faucet
      ensures r == Faucet.ValidateFaucetLimits(limits)
      ensures View() == if r.Ok? then old(View()).(faucet := old(faucet).(limits := limits)) else old(View())
      ensures Valid()
    {
      ghost var s := View();
      var _ :- Faucet.ValidateFaucetLimits(limits);
      faucet := faucet.(limits := limits);
      SettingsKeep(s, View());
      r := Ok(());
    }

    method HandleFunding(amount: u64) returns (r: Result<()>)
      requires LedgerOk(View())
      modifies this
      ensures r == FundFaucetGuard(old(View()), amount)
      ensures View() == if r.Ok? then FundFaucetEffect(old(View()), amount) else old(View())
    {
      var accounts := ledger.accounts;
      :- Need(amount > 0, InvalidFaucetAmount);
      :- Need(accounts[RewardVault].amount >= amount, FaucetVaultInsufficientBalance);
      VaultPays(ledger, poolAuthority, RewardVault, FaucetClawVault, amount);
      var paid := Transfer(ledger, RewardVault, Claw, FaucetClawVault, poolAuthority, amount).value;
      ledger := paid;
      history := history.(faucetFunded := history.faucetFunded + amount);
      r := Ok(());
    }

    method FundFaucetClaw(amount: u64) returns (r: Result<()>)
      requires Valid()
      modifies this
      ensures r == FundFaucetGuard(old(View()), amount)
      ensures View() == if r.Ok? then FundFaucetEffect(old(View()), amount) else old(View())
      ensures Valid()
    {
      ghost var s := View();
      r := HandleFunding(amount);
      if r.Ok? {
        FundFaucetKeeps(s, amount);
      }
    }

    method HandleFaucetClaim(c: FaucetClaim) returns (r: Result<()>)
      requires LedgerOk(View())
      requires c.recipient in faucet.users ==> faucet.users[c.recipient].owner == c.recipient
      modifies this
      ensures r == FaucetClaimGuard(old(View()), c)
      ensures View() == if r.Ok? then FaucetClaimEffect(old(View()), c) else old(View())
    {
      var accounts := ledger.accounts;
      :- Need(c.clawToken in accounts && c.usdcToken in accounts, AccountNotInitialized);
      var day := Faucet.CurrentDayIndex(now);
      var counted :- CountClaim(faucet, day, c.recipient, c.claw, c.usdc);
      var _ :- CheckPayout(ledger, poolAuthority, c);
      var paid := PayOut(ledger, poolAuthority, c);
      history := FaucetClaimEffect(View(), c).history;
      faucet, ledger := counted, paid;
      r := Ok(());
    }

    method ClaimFaucet(c: FaucetClaim) returns (r: Result<()>)
      requires Valid()
      modifies this
      ensures r == FaucetClaimGuard(old(View()), c)
      ensures View() == if r.Ok? then FaucetClaimEffect(old(View()), c) else old(View())
      ensures Valid()
    {
      ghost var s := View();
      r := HandleFaucetClaim(c);
      if r.Ok? {
        FaucetClaimKeeps(s, c);
      }
    }

    // ---- attestation -------------------------------------------------------

    /** Everything the attestation program checks itself, and the receipt it then writes. */
    method CheckSubmission(a: Submission) returns (r: Result<Receipt>)
      ensures r.Err? ==> SubmissionGuard(View(), a) == Err(r.error)
      ensures r.Ok? ==> SubmissionGuard(View(), a).Ok? && a.signerKey in signers && r.value == NewReceipt(View(), a)
    {
      var n := Nonce(a.requestNonceHash);
      :- Need(a.signerKey in signers && a.providerAccount in providers, AccountNotInitialized);
      :- Need(n !in receipts, AccountAlreadyInUse);
      :- Need(a.promptTokens + a.completionTokens <= U64_MAX, InvalidTokenTotals);
      :- Need(!attestation.isPaused, ProgramPaused);
      var signer := signers[a.signerKey];
      :- Need(signer.status == SignerIsActive, SignerInactive);
      :- Need(signer.signer != Faucet.DEFAULT_PUBKEY, SignerMismatch);
      :- Need(AttestsAsGateway(signer.attesterTypeMask), SignerAttesterTypeMismatch);
      :- Need(now >= signer.validFrom, SignerNotYetValid);
      :- Need(signer.validUntil == 0 || now <= signer.validUntil, SignerExpired);
      var hash := BuildCompactReceiptHash(sha256, HashInputs(
        a.requestNonceHash, a.metadataHash, signer.providerWallet, a.payer, config.usdcMint,
        a.promptTokens, a.completionTokens, a.chargeAtomic));
      :- Need(hash == a.receiptHash, ReceiptHashMismatch);
      :- Need(providers[a.providerAccount].wallet == signer.providerWallet, ReceiptIdentityMismatch);
      var _ :- VerifyPrecedingInstruction(a.transaction, signer.signer, a.receiptHash);
      r := Ok(Receipt(a.receiptHash, signer.signer, a.payer, signer.providerWallet,
                      now, Saturate(now + attestation.challengeWindowSeconds), 0, Submitted, false));
    }

    method HandleSubmit(a: Submission) returns (r: Result<()>)
      requires ReadyToRecord(View(), SubmittedCharge(a))
      modifies this
      ensures r == SubmitGuard(old(View()), a)
      ensures View() == if r.Ok? then SubmitEffect(old(View()), a) else old(View())
    {
      var receipt :- CheckSubmission(a);
      var n := Nonce(a.requestNonceHash);
      var _ :- RecordMiningFromReceipt(n, Charge(a.payer, a.delegate, a.payerToken, a.providerAccount, a.chargeAtomic));
      receipts := receipts[n := receipt];
      r := Ok(());
    }

    method SubmitReceipt(a: Submission) returns (r: Result<()>)
      requires Valid()
      modifies this
      ensures r == SubmitGuard(old(View()), a)
      ensures View() == if r.Ok? then SubmitEffect(old(View()), a) else old(View())
      ensures Valid()
    {
      ghost var s := View();
      RecordingIsReady(s, SubmittedCharge(a));
      r := HandleSubmit(a);
      if r.Ok? {
        SubmitKeeps(s, a);
      }
    }

    method HandleOpening(n: Nonce, challenger: Pubkey, token: TokenId, challengeType: u8, evidence: Bytes32)
      returns (r: Result<()>)
      requires n in receipts && receipts[n].status == Submitted ==> ReadyForBond(View(), n)
      modifies this
      ensures r == OpenGuard(old(View()), n, challenger, token, challengeType)
      ensures View() == if r.Ok? then OpenEffect(old(View()), n, challenger, token, challengeType, evidence)
              else old(View())
    {
      var accounts := ledger.accounts;
      :- Need(challenger != poolAuthority, MissingSignature);
      :- Need(n in receipts && token in accounts, AccountNotInitialized);
      :- Need(n !in challenges, AccountAlreadyInUse);
      :- Need(challengeType <= 4, ChallengeTypeInvalid);
      var receipt := receipts[n];
      :- Need(receipt.status == Submitted, ReceiptNotChallengeable);
      :- Need(now <= receipt.challengeDeadline, ChallengeWindowClosed);
      var _ :- RecordChallengeBond(n, challenger, token);
      var challenge := Challenge(challenger, challengeType, evidence, config.params.challengeBondClawAmount,
                                 now, 0, Open, NoResolution);
      receipt := receipt.(status := Challenged);
      WriteBackReceipt(receipts[n := receipt], challenges[n := challenge]);
      r := Ok(());
    }

    method OpenChallenge(n: Nonce, challenger: Pubkey, token: TokenId, challengeType: u8, evidence: Bytes32)
      returns (r: Result<()>)
      requires Valid()
      modifies this
      ensures r == OpenGuard(old(View()), n, challenger, token, challengeType)
      ensures View() == if r.Ok? then OpenEffect(old(View()), n, challenger, token, challengeType, evidence)
              else old(View())
      ensures Valid()
    {
      ghost var s := View();
      if n in receipts && receipts[n].status == Submitted {
        SubmittedIsReadyForBond(s, n);
      }
      r := HandleOpening(n, challenger, token, challengeType, evidence);
      if r.Ok? {
        OpenKeeps(s, n, challenger, token, challengeType, evidence);
      }
    }

    method HandleResolution(n: Nonce, code: u8, challengerToken: TokenId, payerToken: TokenId) returns (r: Result<()>)
      requires n in challenges && challenges[n].status == Open ==> ReadyToResolve(View(), n)
      modifies this
      ensures r == ResolveGuard(old(View()), n, code, challengerToken, payerToken)
      ensures View() == if r.Ok? then ResolveEffect(old(View()), n, code, challengerToken, payerToken) else old(View())
    {
      var loaded := n in receipts && n in challenges;
      :- Need(loaded, AccountNotInitialized);
      var resolution :- ResolutionOf(code);
      :- Need(resolution != NoResolution, ChallengeResolutionInvalid);
      :- Need(challenges[n].status == Open, ChallengeNotResolvable);
      var challenge, receipt := Ruled(challenges[n], receipts[n], resolution, now);
      var _ :- ResolveChallengeEconomics(n, code, challengerToken, payerToken);
      WriteBackReceipt(receipts[n := receipt], challenges[n := challenge]);
      r := Ok(());
    }

    method ResolveChallenge(n: Nonce, code: u8, challengerToken: TokenId, payerToken: TokenId) returns (r: Result<()>)
      requires Valid()
      modifies this
      ensures r == ResolveGuard(old(View()), n, code, challengerToken, payerToken)
      ensures View() == if r.Ok? then ResolveEffect(old(View()), n, code, challengerToken, payerToken) else old(View())
      ensures Valid()
    {
      ghost var s := View();
      if n in challenges && challenges[n].status == Open {
        OpenIsReadyToResolve(s, n);
      }
      r := HandleResolution(n, code, challengerToken, payerToken);
      if r.Ok? {
        ResolveKeeps(s, n, code, challengerToken, payerToken);
      }
    }

    method HandleTimeout(n: Nonce, challengerToken: TokenId, payerToken: TokenId) returns (r: Result<()>)
      requires n in challenges && challenges[n].status == Open ==> ReadyToResolve(View(), n)
      modifies this
      ensures r == TimeoutGuard(old(View()), n)
      ensures View() == if r.Ok? then AfterRejection(old(View()), n) else old(View())
    {
      var loaded := n in receipts && n in challenges;
      :- Need(loaded, AccountNotInitialized);
      var deadline := challenges[n].openedAt + attestation.challengeResolutionTimeoutSeconds;
      :- Need(I64_MIN <= deadline <= I64_MAX, MathOverflow);
      :- Need(now > deadline, ChallengeResolutionTimeoutOpen);
      :- Need(challenges[n].status == Open, ChallengeNotResolvable);
      var challenge, receipt := Ruled(challenges[n], receipts[n], RejectedCode, now);
      var _ :- ResolveChallengeEconomics(n, 2, challengerToken, payerToken);
      WriteBackReceipt(receipts[n := receipt], challenges[n := challenge]);
      r := Ok(());
    }

    method TimeoutRejectChallenge(n: Nonce, challengerToken: TokenId, payerToken: TokenId) returns (r: Result<()>)
      requires Valid()
      modifies this
      ensures r == TimeoutGuard(old(View()), n)
      ensures View() == if r.Ok? then AfterRejection(old(View()), n) else old(View())
      ensures Valid()
    {
      ghost var s := View();
      if n in challenges && challenges[n].status == Open {
        OpenIsReadyToResolve(s, n);
      }
      r := HandleTimeout(n, challengerToken, payerToken);
      if r.Ok? {
        TimeoutKeeps(s, n);
      }
    }

    method HandleFinalize(n: Nonce, destination: TokenId) returns (r: Result<()>)
      requires n in receipts && CanBeFinalized(receipts[n]) ==> ReadyToSettle(View(), n)
      modifies this
      ensures r == FinalizeGuard(old(View()), n, destination)
      ensures View() == if r.Ok? then FinalizeEffect(old(View()), n, destination) else old(View())
    {
      var loaded := n in receipts;
      :- Need(loaded, AccountNotInitialized);
      var receipt :- FinalizedReceipt(receipts[n], now);
      var _ :- SettleFinalizedReceipt(n, destination);
      receipt := receipt.(economicsSettled := true);
      receipts := receipts[n := receipt];
      r := Ok(());
    }

    method FinalizeReceipt(n: Nonce, destination: TokenId) returns (r: Result<()>)
      requires Valid()
      modifies this
      ensures r == FinalizeGuard(old(View()), n, destination)
      ensures View() == if r.Ok? then FinalizeEffect(old(View()), n, destination) else old(View())
      ensures Valid()
    {
      ghost var s := View();
      if n in receipts && CanBeFinalized(receipts[n]) {
        SettlingIsCovered(s, n);
      }
      r := HandleFinalize(n, destination);
      if r.Ok? {
        FinalizeKeeps(s, n, destination);
      }
    }

    method CloseReceipt(n: Nonce) returns (r: Result<()>)
      requires Valid()
      modifies this`receipts
      ensures r == CloseReceiptGuard(old(View()), n)
      ensures View() == if r.Ok? then old(View()).(receipts := old(receipts) - {n}) else old(View())
      ensures Valid()
    {
      ghost var s := View();
      :- Need(n in receipts, AccountNotInitialized);
      :- Need(IsTerminal(receipts[n].status), ReceiptNotClosable);
      :- Need(receipts[n].economicsSettled, ReceiptEconomicsPending);
      receipts := receipts - {n};
      CloseReceiptKeeps(s, n);
      r := Ok(());
    }

    method CloseChallenge(n: Nonce) returns (r: Result<()>)
      requires Valid()
      modifies this`challenges
      ensures r == CloseChallengeGuard(old(View()), n)
      ensures View() == if r.Ok? then old(View()).(challenges := old(challenges) - {n}) else old(View())
      ensures Valid()
    {
      ghost var s := View();
      :- Need(n in challenges, AccountNotInitialized);
      :- Need(challenges[n].status == ChallengeAccepted
              || challenges[n].status == ChallengeRejected, ChallengeNotClosable);
      challenges := challenges - {n};
      CloseChallengeKeeps(s, n);
      r := Ok(());
    }
  }
}

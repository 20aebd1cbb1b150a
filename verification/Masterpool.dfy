/** The masterpool's instructions, each as a guard and an effect.

    A guard lists, in the order the program meets them, the checks that can fail in a reachable state; the checks the
    program also makes but that can never fail there (every subtraction, every payment out of a vault except the reward
    vault's, every repeated status check) are left out, and the methods of `Deployment` prove that they never fire. */
module Masterpool {
  import opened Outcomes
  import opened Widths
  import opened TokenLedger
  import opened Params
  import opened Vesting
  import opened Faucet
  import opened Accounts

  // ---- providers -----------------------------------------------------------

  function RegisterGuard(s: State, wallet: Pubkey, token: TokenId): Result<()> {
    var accounts := s.ledger.accounts;
    if wallet == s.poolAuthority then Err(MissingSignature) else
    if !(wallet !in s.providers && ProviderKey(wallet) !in s.rewards) then Err(AccountAlreadyInUse) else
    if !(token in accounts && StakeVault in accounts) then Err(AccountNotInitialized) else
    if accounts[token].owner != wallet then Err(InvalidTokenOwner) else
    if accounts[token].mint != Usdc then Err(InvalidTokenMint) else
    PayGuard(s.ledger, token, Usdc, StakeVault, wallet, s.config.params.providerStakeUsdc)
  }

  function RegisterEffect(s: State, wallet: Pubkey, token: TokenId): State
    requires RegisterGuard(s, wallet, token).Ok?
  {
    var stake := s.config.params.providerStakeUsdc;
    s.(ledger := Move(s.ledger, token, StakeVault, wallet, stake),
       providers := s.providers[wallet := Provider(wallet, stake, 0, 0, 0, 0, Active)],
       rewards := s.rewards[ProviderKey(wallet) := FreshReward(ProviderKey(wallet))])
  }

  function ExitGuard(s: State, wallet: Pubkey, destination: TokenId): Result<()> {
    var accounts := s.ledger.accounts;
    if wallet == s.poolAuthority then Err(MissingSignature) else
    if !(wallet in s.providers && destination in accounts && StakeVault in accounts)
    then Err(AccountNotInitialized) else
    var p := s.providers[wallet];
    if p.status != Active then Err(ProviderNotActive) else
    if !(p.pendingUsdc == 0 && p.unsettledReceipts == 0 && p.unresolvedChallenges == 0 && p.clawNetPosition >= 0)
    then Err(ProviderExitBlocked) else
    if accounts[destination].mint != Usdc then Err(TokenMintMismatch) else
    Ok(())
  }

  function ExitEffect(s: State, wallet: Pubkey, destination: TokenId): State
    requires ExitGuard(s, wallet, destination).Ok?
  {
    var p := s.providers[wallet];
    s.(ledger := Move(s.ledger, StakeVault, destination, s.poolAuthority, p.stakedUsdc),
       providers := s.providers[wallet := p.(stakedUsdc := 0, status := Exited)],
       history := Given(s.history, destination, p.stakedUsdc))
  }

  // ---- recording a receipt -------------------------------------------------

  datatype Charge = Charge(payer: Pubkey, delegate: Pubkey, payerToken: TokenId, provider: Pubkey, amount: u64)

  function DebtOffset(clawNetPosition: int, reward: int): int {
    if clawNetPosition < 0 then Min(-clawNetPosition, reward) else 0
  }

  function ProviderClaw(p: Phase1Params, charge: int): int {
    ClawReward(p, charge) - UserClaw(p, charge)
  }

  /** The settlement of a charge, for given shares of it. */
  function Booked(s: State, c: Charge, treasury: int, userClaw: int, providerClaw: int): Settlement
    requires c.provider in s.providers
  {
    var offset := DebtOffset(s.providers[c.provider].clawNetPosition, providerClaw);
    Settlement(c.payer, c.provider, c.amount, c.amount - treasury, treasury,
               userClaw, providerClaw, offset, providerClaw - offset,
               s.config.params.lockDays, 0, 0, 0, Recorded)
  }

  function NewSettlement(s: State, c: Charge): Settlement
    requires c.provider in s.providers
  {
    var p := s.config.params;
    Booked(s, c, TreasuryShare(p, c.amount), UserClaw(p, c.amount), ProviderClaw(p, c.amount))
  }

  function RewardOrFresh(s: State, key: RewardKey): RewardAccount {
    if key in s.rewards then s.rewards[key] else FreshReward(key)
  }

  /** The additions of a recording that can overflow. */
  function BookingGuard(s: State, c: Charge, st: Settlement): Result<()>
    requires c.provider in s.providers && ProviderKey(c.provider) in s.rewards
  {
    var user, reward := RewardOrFresh(s, UserKey(c.payer)), s.rewards[ProviderKey(c.provider)];
    var p := s.providers[c.provider];
    if !FitsU64(user.pendingClaw + st.clawToUser) then Err(MathOverflow) else
    if !FitsU64(reward.pendingClaw + st.clawToProviderLocked) then Err(MathOverflow) else
    if !FitsI128(p.clawNetPosition + st.clawToProviderTotal) then Err(MathOverflow) else
    if !FitsU64(p.unsettledReceipts + 1) then Err(MathOverflow) else
    Ok(())
  }

  /** Whether a token account is one that the charge may be taken from. */
  function PayerGuard(token: TokenAccount, c: Charge): Result<()> {
    if token.owner != c.payer then Err(InvalidTokenOwner) else
    if token.mint != Usdc then Err(InvalidTokenMint) else
    if token.delegate != Some(c.delegate) then Err(InvalidPaymentDelegate) else
    if token.allowance < c.amount then Err(InsufficientDelegatedAllowance) else
    Ok(())
  }

  function RecordGuard(s: State, n: Nonce, c: Charge): Result<()> {
    var accounts := s.ledger.accounts;
    if !(c.payerToken in accounts && c.provider in s.providers && ProviderKey(c.provider) in s.rewards
         && TreasuryVault in accounts && EscrowVault in accounts)
    then Err(AccountNotInitialized) else
    if n in s.settlements then Err(AccountAlreadyInUse) else
    if s.config.pauseReceiptRecording then Err(ReceiptRecordingPaused) else
    if c.amount <= 0 then Err(InvalidPositiveAmount) else
    if c.amount > MAX_RECEIPT_USDC_ATOMIC then Err(ReceiptChargeTooLarge) else
    var token := accounts[c.payerToken];
    var _ :- PayerGuard(token, c);
    var provider := s.providers[c.provider];
    if provider.status != Active then Err(ProviderNotActive) else
    if token.amount < c.amount then Err(TokenInsufficientFunds) else
    var st := NewSettlement(s, c);
    // The treasury's payment comes first; if it uses up the whole allowance the delegate is gone before the second.
    if !(st.usdcToProvider > 0 || token.allowance > c.amount || c.delegate == c.payer) then Err(TokenOwnerMismatch) else
    BookingGuard(s, c, st)
  }

  /** Charging the payer and booking a settlement, whatever its shares are. */
  function RecordWith(s: State, n: Nonce, c: Charge, st: Settlement): State
    requires c.payerToken in s.ledger.accounts && TreasuryVault in s.ledger.accounts && EscrowVault in s.ledger.accounts
    requires c.provider in s.providers && ProviderKey(c.provider) in s.rewards
  {
    var user := RewardOrFresh(s, UserKey(c.payer));
    var reward := s.rewards[ProviderKey(c.provider)];
    var p := s.providers[c.provider];
    var l := Move(s.ledger, c.payerToken, TreasuryVault, c.delegate, st.usdcToTreasury);
    s.(ledger := Move(l, c.payerToken, EscrowVault, c.delegate, st.usdcToProvider),
       rewards := s.rewards[UserKey(c.payer) := user.(pendingClaw := user.pendingClaw + st.clawToUser)]
                           [ProviderKey(c.provider) := reward.(
         pendingClaw := reward.pendingClaw + st.clawToProviderLocked)],
       providers := s.providers[c.provider := p.(
         clawNetPosition := p.clawNetPosition + st.clawToProviderTotal,
         pendingUsdc := p.pendingUsdc + st.usdcToProvider,
         unsettledReceipts := p.unsettledReceipts + 1)],
       settlements := s.settlements[n := st])
  }

  function RecordEffect(s: State, n: Nonce, c: Charge): State
    requires RecordGuard(s, n, c).Ok?
  {
    RecordWith(s, n, c, NewSettlement(s, c))
  }

  // ---- settling a finalized receipt ----------------------------------------

  /** The accounts that settling or resolving a receipt loads. */
  predicate SettlementAccounts(s: State, n: Nonce) {
    && n in s.settlements
    && s.settlements[n].provider in s.providers
    && ProviderKey(s.settlements[n].provider) in s.rewards
    && UserKey(s.settlements[n].payer) in s.rewards
    && EscrowVault in s.ledger.accounts
  }

  function SettleGuard(s: State, n: Nonce, destination: TokenId): Result<()> {
    var accounts := s.ledger.accounts;
    if !(SettlementAccounts(s, n) && destination in accounts) then Err(AccountNotInitialized) else
    if s.config.pauseFinalization then Err(FinalizationPaused) else
    var st := s.settlements[n];
    if !FitsU64(s.rewards[UserKey(st.payer)].lockedClaw + st.clawToUser) then Err(MathOverflow) else
    if !FitsU64(s.rewards[ProviderKey(st.provider)].lockedClaw + st.clawToProviderLocked) then Err(MathOverflow) else
    if accounts[destination].owner != st.provider then Err(InvalidTokenOwner) else
    if accounts[destination].mint != Usdc then Err(InvalidTokenMint) else
    Ok(())
  }

  function Unlocking(r: RewardAccount, amount: int): RewardAccount {
    r.(pendingClaw := r.pendingClaw - amount, lockedClaw := r.lockedClaw + amount)
  }

  function SettleWith(s: State, n: Nonce, destination: TokenId): State
    requires SettlementAccounts(s, n) && destination in s.ledger.accounts
  {
    var st := s.settlements[n];
    var p := s.providers[st.provider];
    var user, reward := s.rewards[UserKey(st.payer)], s.rewards[ProviderKey(st.provider)];
    s.(ledger := Move(s.ledger, EscrowVault, destination, s.poolAuthority, st.usdcToProvider),
       rewards := s.rewards[UserKey(st.payer) := Unlocking(user, st.clawToUser)]
                           [ProviderKey(st.provider) := Unlocking(reward, st.clawToProviderLocked)],
       providers := s.providers[st.provider := p.(
         pendingUsdc := p.pendingUsdc - st.usdcToProvider, unsettledReceipts := p.unsettledReceipts - 1)],
       settlements := s.settlements[n := st.(status := FinalizedSettled, lockStartedAt := s.now)])
  }

  function SettleEffect(s: State, n: Nonce, destination: TokenId): State
    requires SettleGuard(s, n, destination).Ok?
  {
    SettleWith(s, n, destination)
  }

  // ---- challenge bonds -----------------------------------------------------

  function BondGuard(s: State, n: Nonce, challenger: Pubkey, token: TokenId): Result<()> {
    var accounts := s.ledger.accounts;
    if !(SettlementAccounts(s, n) && token in accounts && BondVault in accounts) then Err(AccountNotInitialized) else
    if s.config.pauseChallengeProcessing then Err(ChallengeProcessingPaused) else
    if accounts[token].owner != challenger then Err(InvalidTokenOwner) else
    if accounts[token].mint != Claw then Err(InvalidTokenMint) else
    PayGuard(s.ledger, token, Claw, BondVault, challenger, s.config.params.challengeBondClawAmount)
  }

  function NewBond(s: State, n: Nonce, challenger: Pubkey): Bond
    requires n in s.settlements
  {
    var p := s.config.params;
    Bond(challenger, s.settlements[n].payer, s.settlements[n].provider,
         p.challengeBondClawAmount, p.providerSlashClawAmount, p.challengerRewardBps, p.burnBps,
         ChallengerReward(p), p.providerSlashClawAmount - ChallengerReward(p), Locked)
  }

  function BondWith(s: State, n: Nonce, token: TokenId, b: Bond): State
    requires SettlementAccounts(s, n) && token in s.ledger.accounts && BondVault in s.ledger.accounts
  {
    var p := s.providers[s.settlements[n].provider];
    s.(ledger := Move(s.ledger, token, BondVault, b.challenger, b.bondAmount),
       bonds := s.bonds[n := b],
       providers := s.providers[s.settlements[n].provider := p.(unresolvedChallenges := p.unresolvedChallenges + 1)])
  }

  function BondEffect(s: State, n: Nonce, challenger: Pubkey, token: TokenId): State
    requires BondGuard(s, n, challenger, token).Ok?
  {
    BondWith(s, n, token, NewBond(s, n, challenger))
  }

  predicate BondAccounts(s: State, n: Nonce) {
    && SettlementAccounts(s, n)
    && n in s.bonds
    && BondVault in s.ledger.accounts
    && RewardVault in s.ledger.accounts
  }

  /** The challenge is rejected: the bond is burned. */
  function RejectGuard(s: State, n: Nonce): Result<()> {
    if !BondAccounts(s, n) then Err(AccountNotInitialized)
    else if s.config.pauseChallengeProcessing then Err(ChallengeProcessingPaused)
    else Ok(())
  }

  function RejectEffect(s: State, n: Nonce): State
    requires BondAccounts(s, n)
  {
    var b := s.bonds[n];
    var p := s.providers[s.settlements[n].provider];
    s.(ledger := Burned(s.ledger, BondVault, s.poolAuthority, b.bondAmount),
       bonds := s.bonds[n := b.(status := BondBurned)],
       providers := s.providers[s.settlements[n].provider := p.(unresolvedChallenges := p.unresolvedChallenges - 1)])
  }

  /** Who the refund and the bond may go to: in the order the program looks at the two accounts. */
  function RecipientsGuard(
    l: Ledger, st: Settlement, b: Bond, challengerToken: TokenId, payerToken: TokenId): Result<()> {
    var accounts := l.accounts;
    if payerToken !in accounts then Err(AccountNotInitialized) else
    if accounts[payerToken].owner != st.payer then Err(InvalidTokenOwner) else
    if accounts[payerToken].mint != Usdc then Err(InvalidTokenMint) else
    if challengerToken !in accounts then Err(AccountNotInitialized) else
    if accounts[challengerToken].owner != b.challenger then Err(InvalidTokenOwner) else
    if accounts[challengerToken].mint != Claw then Err(InvalidTokenMint) else
    Ok(())
  }

  /** The challenge is accepted: bond returned, payer refunded, receipt reverted, provider slashed. The last check
      cannot fail before 2^63 challenges were accepted against the provider. */
  function AcceptGuard(s: State, n: Nonce, challengerToken: TokenId, payerToken: TokenId): Result<()> {
    if !BondAccounts(s, n) then Err(AccountNotInitialized) else
    if s.config.pauseChallengeProcessing then Err(ChallengeProcessingPaused) else
    var st, b := s.settlements[n], s.bonds[n];
    var _ :- RecipientsGuard(s.ledger, st, b, challengerToken, payerToken);
    if s.ledger.accounts[RewardVault].amount < b.slashAmount then Err(TokenInsufficientFunds) else
    if !FitsI128(s.providers[st.provider].clawNetPosition - st.clawToProviderTotal - b.slashAmount)
    then Err(MathOverflow) else
    Ok(())
  }

  function AcceptLedger(s: State, n: Nonce, challengerToken: TokenId, payerToken: TokenId): Ledger
    requires BondAccounts(s, n) && challengerToken in s.ledger.accounts && payerToken in s.ledger.accounts
  {
    var st, b, pool := s.settlements[n], s.bonds[n], s.poolAuthority;
    var l1 := Move(s.ledger, BondVault, challengerToken, pool, b.bondAmount);
    var l2 := Move(l1, RewardVault, challengerToken, pool, b.challengerRewardAmount);
    var l3 := Burned(l2, RewardVault, pool, b.burnAmount);
    Move(l3, EscrowVault, payerToken, pool, st.usdcToProvider)
  }

  /** Reverting the receipt in the books, whatever was paid. */
  function AcceptWith(s: State, n: Nonce, l: Ledger): State
    requires BondAccounts(s, n)
  {
    var st, b := s.settlements[n], s.bonds[n];
    var p := s.providers[st.provider];
    var user, reward := s.rewards[UserKey(st.payer)], s.rewards[ProviderKey(st.provider)];
    s.(ledger := l,
       rewards := s.rewards[UserKey(st.payer) := user.(pendingClaw := user.pendingClaw - st.clawToUser)]
                           [ProviderKey(st.provider) := reward.(
         pendingClaw := reward.pendingClaw - st.clawToProviderLocked)],
       providers := s.providers[st.provider := p.(
         pendingUsdc := p.pendingUsdc - st.usdcToProvider,
         unsettledReceipts := p.unsettledReceipts - 1,
         unresolvedChallenges := p.unresolvedChallenges - 1,
         clawNetPosition := p.clawNetPosition - st.clawToProviderTotal - b.slashAmount)],
       settlements := s.settlements[n := st.(status := ChallengedReverted)],
       bonds := s.bonds[n := b.(status := Returned)])
  }

  function AcceptEffect(s: State, n: Nonce, challengerToken: TokenId, payerToken: TokenId): State
    requires BondAccounts(s, n) && challengerToken in s.ledger.accounts && payerToken in s.ledger.accounts
  {
    AcceptWith(s, n, AcceptLedger(s, n, challengerToken, payerToken))
  }

  // ---- releasing and claiming rewards --------------------------------------

  function ReleaseTarget(code: u8): Result<RewardKind> {
    if code == 0 then Ok(UserReward) else if code == 1 then Ok(ProviderReward) else Err(InvalidRewardAccountKind)
  }

  function TargetOwner(st: Settlement, kind: RewardKind): Pubkey {
    if kind == UserReward then st.payer else st.provider
  }

  function TargetTotal(st: Settlement, kind: RewardKind): int {
    if kind == UserReward then st.clawToUser else st.clawToProviderLocked
  }

  function TargetReleased(st: Settlement, kind: RewardKind): int {
    if kind == UserReward then st.userClawReleased else st.providerClawReleased
  }

  function WithReleased(st: Settlement, kind: RewardKind, released: int): Settlement {
    if kind == UserReward then st.(userClawReleased := released) else st.(providerClawReleased := released)
  }

  function ReleaseGuard(s: State, n: Nonce, code: u8, key: RewardKey, amount: u64): Result<()> {
    var loaded := key in s.rewards && n in s.settlements;
    if !loaded then Err(AccountNotInitialized) else
    if amount <= 0 then Err(InvalidPositiveAmount) else
    var kind :- ReleaseTarget(code);
    var st := s.settlements[n];
    if st.status != FinalizedSettled then Err(InvalidReceiptSettlementState) else
    if st.lockStartedAt <= 0 then Err(RewardLockNotStarted) else
    if st.lockDays <= 0 then Err(InvalidPositiveAmount) else
    if Vested(TargetTotal(st, kind), st.lockStartedAt, s.now, st.lockDays) - TargetReleased(st, kind) < amount
    then Err(RewardReleaseExceedsVested) else
    if s.rewards[key].owner != TargetOwner(st, kind) then Err(InvalidRewardAccountOwner) else
    if s.rewards[key].kind != kind then Err(InvalidRewardAccountKind) else
    if !FitsU64(s.rewards[key].releasedClaw + amount) then Err(MathOverflow) else
    Ok(())
  }

  function ReleaseWith(s: State, n: Nonce, kind: RewardKind, key: RewardKey, amount: int): State
    requires n in s.settlements && key in s.rewards
  {
    var st, r := s.settlements[n], s.rewards[key];
    s.(rewards := s.rewards[key := r.(lockedClaw := r.lockedClaw - amount, releasedClaw := r.releasedClaw + amount)],
       settlements := s.settlements[n := WithReleased(st, kind, TargetReleased(st, kind) + amount)])
  }

  function ReleaseEffect(s: State, n: Nonce, code: u8, key: RewardKey, amount: u64): State
    requires ReleaseGuard(s, n, code, key, amount).Ok?
  {
    ReleaseWith(s, n, ReleaseTarget(code).value, key, amount)
  }

  function RewardClaimGuard(s: State, key: RewardKey, claimant: Pubkey, token: TokenId): Result<()> {
    var accounts := s.ledger.accounts;
    if claimant == s.poolAuthority then Err(MissingSignature) else
    if !(key in s.rewards && token in accounts && RewardVault in accounts) then Err(AccountNotInitialized) else
    if s.config.pauseClaims then Err(ClaimsPaused) else
    var r := s.rewards[key];
    if r.owner != claimant then Err(InvalidRewardAccountOwner) else
    if r.releasedClaw <= r.claimedClaw then Err(NoClaimableRewards) else
    if accounts[token].owner != claimant then Err(InvalidTokenOwner) else
    if accounts[token].mint != Claw then Err(InvalidTokenMint) else
    if accounts[RewardVault].amount < r.releasedClaw - r.claimedClaw then Err(TokenInsufficientFunds) else
    Ok(())
  }

  function RewardClaimEffect(s: State, key: RewardKey, claimant: Pubkey, token: TokenId): State
    requires RewardClaimGuard(s, key, claimant, token).Ok?
  {
    var r := s.rewards[key];
    s.(ledger := Move(s.ledger, RewardVault, token, s.poolAuthority, r.releasedClaw - r.claimedClaw),
       rewards := s.rewards[key := r.(claimedClaw := r.releasedClaw)])
  }

  // ---- governance ----------------------------------------------------------

  function GenesisGuard(s: State): Result<()> {
    var l := s.ledger;
    if RewardVault !in l.accounts then Err(AccountNotInitialized) else
    if s.config.genesisMinted then Err(GenesisAlreadyMinted) else
    if l.clawMintAuthority != Some(s.poolAuthority) then Err(InvalidClawMintAuthority) else
    if l.clawFreezeAuthority != Some(s.poolAuthority) then Err(InvalidClawFreezeAuthority) else
    if !FitsU64(l.clawSupply + GENESIS_TOTAL_SUPPLY) then Err(TokenOverflow) else
    Ok(())
  }

  function GenesisEffect(s: State): State
    requires GenesisGuard(s).Ok?
  {
    s.(ledger := Minted(s.ledger, RewardVault, GENESIS_TOTAL_SUPPLY).(
         clawMintAuthority := None, clawFreezeAuthority := None),
       config := s.config.(genesisMinted := true))
  }

  function UpdateConfigEffect(s: State, params: Phase1Params): State {
    s.(config := s.config.(params := params))
  }

  // ---- faucet --------------------------------------------------------------

  function FundFaucetGuard(s: State, amount: u64): Result<()> {
    var accounts := s.ledger.accounts;
    if !(RewardVault in accounts && FaucetClawVault in accounts) then Err(AccountNotInitialized) else
    if amount <= 0 then Err(InvalidFaucetAmount) else
    if accounts[RewardVault].amount < amount then Err(FaucetVaultInsufficientBalance) else
    Ok(())
  }

  function FundFaucetEffect(s: State, amount: u64): State
    requires FundFaucetGuard(s, amount).Ok?
  {
    s.(ledger := Move(s.ledger, RewardVault, FaucetClawVault, s.poolAuthority, amount),
       history := s.history.(faucetFunded := s.history.faucetFunded + amount))
  }

  datatype FaucetClaim = FaucetClaim(recipient: Pubkey, clawToken: TokenId, usdcToken: TokenId, claw: u64, usdc: u64)

  /** Where the payouts go, and whether the faucet's vaults hold them. */
  function PayoutGuard(l: Ledger, c: FaucetClaim): Result<()>
    requires c.clawToken in l.accounts && c.usdcToken in l.accounts
    requires FaucetClawVault in l.accounts && FaucetUsdcVault in l.accounts
  {
    var accounts := l.accounts;
    if accounts[c.clawToken].owner != c.recipient then Err(InvalidTokenOwner) else
    if accounts[c.clawToken].mint != Claw then Err(InvalidTokenMint) else
    if accounts[c.usdcToken].owner != c.recipient then Err(InvalidTokenOwner) else
    if accounts[c.usdcToken].mint != Usdc then Err(InvalidTokenMint) else
    if accounts[FaucetClawVault].amount < c.claw || accounts[FaucetUsdcVault].amount < c.usdc
    then Err(FaucetVaultInsufficientBalance) else
    Ok(())
  }

  function FaucetClaimGuard(s: State, c: FaucetClaim): Result<()> {
    var accounts := s.ledger.accounts;
    if !(c.clawToken in accounts && c.usdcToken in accounts && FaucetClawVault in accounts
         && FaucetUsdcVault in accounts)
    then Err(AccountNotInitialized) else
    var _ :- ClaimGuard(s.faucet, CurrentDayIndex(s.now), c.recipient, c.claw, c.usdc);
    PayoutGuard(s.ledger, c)
  }

  function FaucetClaimEffect(s: State, c: FaucetClaim): State
    requires FaucetClaimGuard(s, c).Ok?
  {
    var day := CurrentDayIndex(s.now);
    var l := Move(s.ledger, FaucetClawVault, c.clawToken, s.poolAuthority, c.claw);
    var h := Given(Given(s.history, c.clawToken, c.claw), c.usdcToken, c.usdc);
    s.(ledger := Move(l, FaucetUsdcVault, c.usdcToken, s.poolAuthority, c.usdc),
       faucet := Claimed(s.faucet, day, c.recipient, c.claw, c.usdc),
       history := h.(payouts := h.payouts + [Payout(day, c.recipient, c.claw, c.usdc)]))
  }
}

/** Providers joining and leaving, rewards released and claimed, and the one mint keep the invariant. */
module StepsMoney {
  import opened Widths
  import opened Sums
  import opened TokenLedger
  import opened Params
  import opened Vesting
  import Faucet
  import opened Accounts
  import opened Masterpool
  import opened Environment
  import opened Invariant
  import opened Facts

  lemma PayoutMovesAmounts(l: Ledger, h: History, pool: Pubkey, vault: TokenId, to: TokenId, amount: int)
    requires Custody(l, pool) && !vault.Held? && to in l.accounts
    requires Custody(Move(l, vault, to, pool, amount), pool)
    ensures AmountsIn(Move(l, vault, to, pool, amount), Given(h, to, amount), pool)
            == Less(AmountsIn(l, h, pool), vault, amount)
  {
  }

  /** Paying from a vault to any account, which may itself be a vault, costs that vault the amount and no other. */
  lemma PayoutFromVault(l: Ledger, h: History, pool: Pubkey, vault: TokenId, to: TokenId, amount: int)
    requires Conserved(l) && Custody(l, pool) && !vault.Held? && to in l.accounts
    requires l.accounts[to].mint == VaultMint(vault) && 0 <= amount <= l.accounts[vault].amount
    ensures var l' := Move(l, vault, to, pool, amount);
            && Conserved(l') && Custody(l', pool)
            && l'.clawSupply == l.clawSupply && l'.clawMintAuthority == l.clawMintAuthority
            && AmountsIn(l', Given(h, to, amount), pool) == Less(AmountsIn(l, h, pool), vault, amount)
  {
    VaultPays(l, pool, vault, to, amount);
    PayoutMovesAmounts(l, h, pool, vault, to, amount);
  }

  // ---- registering ---------------------------------------------------------

  lemma RegisterMovesVaults(s: State, wallet: Pubkey, token: TokenId)
    requires LedgerOk(s) && RegisterGuard(s, wallet, token).Ok?
    ensures var s', a := RegisterEffect(s, wallet, token), AmountsOf(s);
            LedgerOk(s') && AmountsOf(s') == a.(stake := a.stake + s.config.params.providerStakeUsdc)
  {
    HolderPays(s.ledger, s.poolAuthority, token, Usdc, StakeVault, wallet, s.config.params.providerStakeUsdc);
    assert token.Held?;
  }

  lemma RegisterMovesTotals(s: State, wallet: Pubkey, token: TokenId)
    requires RegisterGuard(s, wallet, token).Ok?
    ensures var t := TotalsOf(s);
            TotalsOf(RegisterEffect(s, wallet, token)) == t.(stake := t.stake + s.config.params.providerStakeUsdc)
  {
    var s' := RegisterEffect(s, wallet, token);
    ProviderPut(s.providers, wallet, s'.providers[wallet]);
    SumPut(s.rewards, ProviderKey(wallet), s'.rewards[ProviderKey(wallet)], ClaimedBy());
  }

  lemma RegisterKeepsVaults(s: State, wallet: Pubkey, token: TokenId)
    requires LedgerOk(s) && VaultsOk(s) && ValidateParams(s.config.params).Ok? && RegisterGuard(s, wallet, token).Ok?
    ensures LedgerOk(RegisterEffect(s, wallet, token)) && VaultsOk(RegisterEffect(s, wallet, token))
  {
    RegisterMovesVaults(s, wallet, token);
    RegisterMovesTotals(s, wallet, token);
    assert GenesisPart(RegisterEffect(s, wallet, token)) == GenesisPart(s);
  }

  lemma RegisterKeepsRecords(s: State, wallet: Pubkey, token: TokenId)
    requires RecordsOk(s) && CoupledOk(s) && ValidateParams(s.config.params).Ok? && RegisterGuard(s, wallet, token).Ok?
    ensures RecordsOk(RegisterEffect(s, wallet, token)) && CoupledOk(RegisterEffect(s, wallet, token))
  {
    var s' := RegisterEffect(s, wallet, token);
    forall m ensures SettlementOk(s', m) && BondOk(s', m) {
      assert SettlementOk(s, m) && BondOk(s, m);
    }
    forall m, kind ensures VestingOk(s', m, kind) {
      assert VestingOk(s, m, kind);
    }
    forall p ensures ProviderOk(s', p) {
      assert ProviderOk(s, p);
    }
    forall k ensures RewardOk(s', k) {
      assert RewardOk(s, k);
    }
    forall m ensures ReceiptOk(s', m) && OutlivingOk(s', m) {
      assert ReceiptOk(s, m) && OutlivingOk(s, m);
    }
    forall m ensures ChallengeOk(s', m) && HashOk(s', m) {
      assert ChallengeOk(s, m) && HashOk(s, m);
    }
  }

  /** A wallet that registers had no settlement and no bond: its sums were and are zero. */
  lemma RegisterKeepsBooks(s: State, wallet: Pubkey, token: TokenId)
    requires BooksOk(s) && RegisterGuard(s, wallet, token).Ok?
    ensures BooksOk(RegisterEffect(s, wallet, token))
  {
    var s' := RegisterEffect(s, wallet, token);
    forall p ensures ProviderBalances(s', p) && DebtFair(s', p) {
      assert ProviderBalances(s, p) && DebtFair(s, p);
    }
    forall k ensures RewardBalances(s', k) {
      assert RewardBalances(s, k);
    }
  }

  lemma RegisterKeeps(s: State, wallet: Pubkey, token: TokenId)
    requires Inv(s) && RegisterGuard(s, wallet, token).Ok?
    ensures Inv(RegisterEffect(s, wallet, token))
  {
    RegisterKeepsVaults(s, wallet, token);
    RegisterKeepsRecords(s, wallet, token);
    RegisterKeepsBooks(s, wallet, token);
  }

  // ---- leaving -------------------------------------------------------------

  lemma StakeIsCovered(s: State, wallet: Pubkey)
    requires Inv(s) && wallet in s.providers
    ensures 0 <= s.providers[wallet].stakedUsdc <= s.ledger.accounts[StakeVault].amount
  {
    forall p | p in s.providers ensures s.providers[p].stakedUsdc >= 0 {
      assert ProviderOk(s, p);
    }
    SumAtLeast(s.providers, wallet, StakeOf());
  }

  lemma ExitMovesVaults(s: State, wallet: Pubkey, to: TokenId)
    requires LedgerOk(s) && GiftsOk(s.history) && ExitGuard(s, wallet, to).Ok?
    requires 0 <= s.providers[wallet].stakedUsdc <= s.ledger.accounts[StakeVault].amount
    ensures var s', a := ExitEffect(s, wallet, to), AmountsOf(s);
            && LedgerOk(s') && s'.ledger.clawMintAuthority == s.ledger.clawMintAuthority && GiftsOk(s'.history)
            && AmountsOf(s') == a.(stake := a.stake - s.providers[wallet].stakedUsdc)
  {
    var stake := s.providers[wallet].stakedUsdc;
    PayoutFromVault(s.ledger, s.history, s.poolAuthority, StakeVault, to, stake);
    GivingKeepsGifts(s.history, to, stake);
  }

  lemma ExitMovesTotals(s: State, wallet: Pubkey, to: TokenId)
    requires ExitGuard(s, wallet, to).Ok?
    ensures var t := TotalsOf(s);
            TotalsOf(ExitEffect(s, wallet, to)) == t.(stake := t.stake - s.providers[wallet].stakedUsdc)
  {
    ProviderPut(s.providers, wallet, ExitEffect(s, wallet, to).providers[wallet]);
  }

  lemma ExitKeepsVaults(s: State, wallet: Pubkey, to: TokenId)
    requires Inv(s) && ExitGuard(s, wallet, to).Ok?
    ensures LedgerOk(ExitEffect(s, wallet, to)) && VaultsOk(ExitEffect(s, wallet, to))
    ensures ExitEffect(s, wallet, to).ledger.clawMintAuthority == s.ledger.clawMintAuthority
  {
    StakeIsCovered(s, wallet);
    ExitMovesVaults(s, wallet, to);
    ExitMovesTotals(s, wallet, to);
  }

  lemma ExitKeepsRecords(s: State, wallet: Pubkey, to: TokenId)
    requires RecordsOk(s) && CoupledOk(s) && BooksOk(s) && ExitGuard(s, wallet, to).Ok?
    ensures RecordsOk(ExitEffect(s, wallet, to)) && CoupledOk(ExitEffect(s, wallet, to))
            && BooksOk(ExitEffect(s, wallet, to))
  {
    var s' := ExitEffect(s, wallet, to);
    forall m ensures SettlementOk(s', m) && BondOk(s', m) {
      assert SettlementOk(s, m) && BondOk(s, m);
    }
    forall m, kind ensures VestingOk(s', m, kind) {
      assert VestingOk(s, m, kind);
    }
    forall p ensures ProviderOk(s', p) && ProviderBalances(s', p) && DebtFair(s', p) {
      assert ProviderOk(s, p) && ProviderBalances(s, p) && DebtFair(s, p);
    }
    forall k ensures RewardOk(s', k) && RewardBalances(s', k) {
      assert RewardOk(s, k) && RewardBalances(s, k);
    }
    forall m ensures ReceiptOk(s', m) && OutlivingOk(s', m) {
      assert ReceiptOk(s, m) && OutlivingOk(s, m);
    }
    forall m ensures ChallengeOk(s', m) && HashOk(s', m) {
      assert ChallengeOk(s, m) && HashOk(s, m);
    }
  }

  lemma ExitKeeps(s: State, wallet: Pubkey, to: TokenId)
    requires Inv(s) && ExitGuard(s, wallet, to).Ok?
    ensures Inv(ExitEffect(s, wallet, to))
  {
    ExitKeepsVaults(s, wallet, to);
    ExitKeepsRecords(s, wallet, to);
  }

  // ---- releasing -----------------------------------------------------------

  /** What a release needs, with the vested amount already compared. */
  ghost predicate Releasable(s: State, n: Nonce, kind: RewardKind, key: RewardKey, amount: int) {
    && n in s.settlements && s.settlements[n].status == FinalizedSettled && s.settlements[n].lockDays > 0
    && var st := s.settlements[n];
       && key == RewardKey(kind, TargetOwner(st, kind))
       && key in s.rewards && 0 < amount <= s.rewards[key].lockedClaw
       && FitsU64(s.rewards[key].releasedClaw + amount)
       && TargetReleased(st, kind) + amount <= Vested(TargetTotal(st, kind), st.lockStartedAt, s.now, st.lockDays)
  }

  lemma ReleaseGuardMeans(s: State, n: Nonce, code: u8, key: RewardKey, amount: u64)
    requires ReleaseGuard(s, n, code, key, amount).Ok?
    ensures var kind := ReleaseTarget(code).value;
            && ReleaseTarget(code).Ok? && key in s.rewards && n in s.settlements
            && var st := s.settlements[n];
               && st.status == FinalizedSettled && st.lockDays > 0 && amount > 0
               && s.rewards[key].owner == TargetOwner(st, kind) && s.rewards[key].kind == kind
               && FitsU64(s.rewards[key].releasedClaw + amount)
               && TargetReleased(st, kind) + amount
                 <= Vested(TargetTotal(st, kind), st.lockStartedAt, s.now, st.lockDays)
  {
  }

  lemma VestedAtMostTotal(s: State, n: Nonce, kind: RewardKind)
    requires Inv(s) && n in s.settlements
    ensures var st := s.settlements[n];
            st.lockDays > 0
              && Vested(TargetTotal(st, kind), st.lockStartedAt, s.now, st.lockDays) <= TargetTotal(st, kind)
  {
    var st := s.settlements[n];
    ReleasedAtMostTotal(s, n, kind);
    VestedGrows(TargetTotal(st, kind), st.lockStartedAt, s.now, s.now, st.lockDays);
  }

  /** Once the vested check has passed, the amount is locked: the locked check never fires. */
  lemma VestedRestIsLocked(s: State, n: Nonce, code: u8, key: RewardKey, amount: u64)
    requires Inv(s) && ReleaseGuard(s, n, code, key, amount).Ok?
    ensures var kind := ReleaseTarget(code).value;
            amount <= s.rewards[key].lockedClaw && Releasable(s, n, kind, key, amount)
  {
    var kind := ReleaseTarget(code).value;
    ReleaseGuardMeans(s, n, code, key, amount);
    assert RewardOk(s, key);
    RestIsLocked(s, n, kind);
    VestedAtMostTotal(s, n, kind);
  }

  lemma ReleaseKeepsRecords(s: State, n: Nonce, kind: RewardKind, key: RewardKey, amount: int)
    requires RecordsOk(s) && CoupledOk(s) && Releasable(s, n, kind, key, amount)
    ensures RecordsOk(ReleaseWith(s, n, kind, key, amount)) && CoupledOk(ReleaseWith(s, n, kind, key, amount))
  {
    var s' := ReleaseWith(s, n, kind, key, amount);
    forall m ensures SettlementOk(s', m) && BondOk(s', m) {
      assert SettlementOk(s, m) && BondOk(s, m);
    }
    forall m, k ensures VestingOk(s', m, k) {
      assert VestingOk(s, m, k);
    }
    forall p ensures ProviderOk(s', p) {
      assert ProviderOk(s, p);
    }
    forall k ensures RewardOk(s', k) {
      assert RewardOk(s, k);
    }
    forall m ensures ReceiptOk(s', m) && OutlivingOk(s', m) {
      assert ReceiptOk(s, m) && OutlivingOk(s, m);
    }
    forall m ensures ChallengeOk(s', m) && HashOk(s', m) {
      assert ChallengeOk(s, m) && HashOk(s, m);
    }
  }

  lemma ReleaseKeepsRewardBalances(s: State, n: Nonce, kind: RewardKind, key: RewardKey, amount: int, k: RewardKey)
    requires RewardBalances(s, k) && Releasable(s, n, kind, key, amount)
    ensures RewardBalances(ReleaseWith(s, n, kind, key, amount), k)
  {
    var st' := ReleaseWith(s, n, kind, key, amount).settlements[n];
    SumPut(s.settlements, n, st', PendingFor(k));
    SumPut(s.settlements, n, st', LockedFor(k));
    SumPut(s.settlements, n, st', ReleasedFor(k));
  }

  lemma ReleaseKeepsBooks(s: State, n: Nonce, kind: RewardKind, key: RewardKey, amount: int)
    requires BooksOk(s) && Releasable(s, n, kind, key, amount)
    ensures BooksOk(ReleaseWith(s, n, kind, key, amount))
  {
    var s' := ReleaseWith(s, n, kind, key, amount);
    forall p ensures ProviderBalances(s', p) && DebtFair(s', p) {
      assert ProviderBalances(s, p) && DebtFair(s, p);
      SumPut(s.settlements, n, s'.settlements[n], EscrowOf(p));
      SumPut(s.settlements, n, s'.settlements[n], UnsettledOf(p));
      SumPut(s.settlements, n, s'.settlements[n], EarnedBy(p));
      SumPut(s.settlements, n, s'.settlements[n], WithheldFrom(p));
    }
    forall k ensures RewardBalances(s', k) {
      assert RewardBalances(s, k);
      ReleaseKeepsRewardBalances(s, n, kind, key, amount, k);
    }
  }

  lemma ReleaseKeepsTotals(s: State, n: Nonce, kind: RewardKind, key: RewardKey, amount: int)
    requires Releasable(s, n, kind, key, amount)
    ensures TotalsOf(ReleaseWith(s, n, kind, key, amount)) == TotalsOf(s)
  {
    var s' := ReleaseWith(s, n, kind, key, amount);
    SumPut(s.settlements, n, s'.settlements[n], InEscrow());
    SumPut(s.settlements, n, s'.settlements[n], ToTreasury());
    SumPut(s.rewards, key, s'.rewards[key], ClaimedBy());
  }

  lemma ReleasedKeeps(s: State, n: Nonce, kind: RewardKind, key: RewardKey, amount: int)
    requires Inv(s) && Releasable(s, n, kind, key, amount)
    ensures Inv(ReleaseWith(s, n, kind, key, amount))
  {
    ReleaseKeepsRecords(s, n, kind, key, amount);
    ReleaseKeepsBooks(s, n, kind, key, amount);
    ReleaseKeepsTotals(s, n, kind, key, amount);
  }

  lemma ReleaseKeeps(s: State, n: Nonce, code: u8, key: RewardKey, amount: u64)
    requires Inv(s) && ReleaseGuard(s, n, code, key, amount).Ok?
    ensures Inv(ReleaseEffect(s, n, code, key, amount))
  {
    VestedRestIsLocked(s, n, code, key, amount);
    ReleasedKeeps(s, n, ReleaseTarget(code).value, key, amount);
  }

  // ---- claiming ------------------------------------------------------------

  lemma ClaimKeepsRecords(s: State, key: RewardKey, claimant: Pubkey, token: TokenId)
    requires RecordsOk(s) && CoupledOk(s) && BooksOk(s) && RewardClaimGuard(s, key, claimant, token).Ok?
    ensures var s' := RewardClaimEffect(s, key, claimant, token);
            RecordsOk(s') && CoupledOk(s') && BooksOk(s')
  {
    var s' := RewardClaimEffect(s, key, claimant, token);
    forall m ensures SettlementOk(s', m) && BondOk(s', m) {
      assert SettlementOk(s, m) && BondOk(s, m);
    }
    forall m, k ensures VestingOk(s', m, k) {
      assert VestingOk(s, m, k);
    }
    forall p ensures ProviderOk(s', p) && ProviderBalances(s', p) && DebtFair(s', p) {
      assert ProviderOk(s, p) && ProviderBalances(s, p) && DebtFair(s, p);
    }
    forall k ensures RewardOk(s', k) && RewardBalances(s', k) {
      assert RewardOk(s, k) && RewardBalances(s, k);
    }
    forall m ensures ReceiptOk(s', m) && OutlivingOk(s', m) {
      assert ReceiptOk(s, m) && OutlivingOk(s, m);
    }
    forall m ensures ChallengeOk(s', m) && HashOk(s', m) {
      assert ChallengeOk(s, m) && HashOk(s, m);
    }
  }

  lemma ClaimMovesVaults(s: State, key: RewardKey, claimant: Pubkey, token: TokenId)
    requires LedgerOk(s) && RewardClaimGuard(s, key, claimant, token).Ok?
    ensures key in s.rewards
    ensures var s', a := RewardClaimEffect(s, key, claimant, token), AmountsOf(s);
            && LedgerOk(s') && s'.ledger.clawMintAuthority == s.ledger.clawMintAuthority
            && AmountsOf(s') == a.(reward := a.reward - (s.rewards[key].releasedClaw - s.rewards[key].claimedClaw))
  {
    VaultPays(s.ledger, s.poolAuthority, RewardVault, token, s.rewards[key].releasedClaw - s.rewards[key].claimedClaw);
    assert token.Held?;
  }

  lemma ClaimMovesTotals(s: State, key: RewardKey, claimant: Pubkey, token: TokenId)
    requires RewardClaimGuard(s, key, claimant, token).Ok?
    ensures key in s.rewards
    ensures var s', t := RewardClaimEffect(s, key, claimant, token), TotalsOf(s);
            TotalsOf(s') == t.(claimed := t.claimed + s.rewards[key].releasedClaw - s.rewards[key].claimedClaw)
  {
    SumPut(s.rewards, key, RewardClaimEffect(s, key, claimant, token).rewards[key], ClaimedBy());
  }

  lemma ClaimKeepsVaults(s: State, key: RewardKey, claimant: Pubkey, token: TokenId)
    requires LedgerOk(s) && VaultsOk(s) && RewardClaimGuard(s, key, claimant, token).Ok?
    ensures var s' := RewardClaimEffect(s, key, claimant, token);
            LedgerOk(s') && VaultsOk(s') && s'.ledger.clawMintAuthority == s.ledger.clawMintAuthority
  {
    ClaimMovesVaults(s, key, claimant, token);
    ClaimMovesTotals(s, key, claimant, token);
    assert GenesisPart(RewardClaimEffect(s, key, claimant, token)) == GenesisPart(s);
  }

  lemma ClaimKeeps(s: State, key: RewardKey, claimant: Pubkey, token: TokenId)
    requires Inv(s) && RewardClaimGuard(s, key, claimant, token).Ok?
    ensures Inv(RewardClaimEffect(s, key, claimant, token))
  {
    ClaimKeepsVaults(s, key, claimant, token);
    ClaimKeepsRecords(s, key, claimant, token);
  }

  // ---- minting, funding, paying out of the faucet --------------------------

  lemma GenesisMovesVaults(s: State)
    requires LedgerOk(s) && GenesisGuard(s).Ok?
    ensures var s', a := GenesisEffect(s), AmountsOf(s);
            && LedgerOk(s')
            && AmountsOf(s')
              == a.(reward := a.reward + GENESIS_TOTAL_SUPPLY, clawSupply := a.clawSupply + GENESIS_TOTAL_SUPPLY)
  {
    var s' := GenesisEffect(s);
    MintConserves(s.ledger, RewardVault, GENESIS_TOTAL_SUPPLY);
    var l := TokenLedger.Minted(s.ledger, RewardVault, GENESIS_TOTAL_SUPPLY);
    assert forall mint :: Supply(s'.ledger, mint) == Supply(l, mint);
    assert s'.ledger.accounts == l.accounts;
  }

  lemma GenesisKeeps(s: State)
    requires Inv(s) && GenesisGuard(s).Ok?
    ensures Inv(GenesisEffect(s))
  {
    GenesisMovesVaults(s);
    SameRecords(s, GenesisEffect(s));
  }

  lemma SameGifts(h: History, h': History)
    requires GiftsOk(h) && h'.gifts == h.gifts
    ensures GiftsOk(h')
    ensures forall id :: Gift(h', id) == Gift(h, id)
  {
    forall id ensures Gift(h', id) == Gift(h, id) && Gift(h', id) >= 0 {
      assert Gift(h, id) >= 0;
    }
  }

  lemma FundFaucetMovesVaults(s: State, amount: u64)
    requires LedgerOk(s) && GiftsOk(s.history) && FundFaucetGuard(s, amount).Ok?
    ensures var s', a := FundFaucetEffect(s, amount), AmountsOf(s);
            && LedgerOk(s') && s'.ledger.clawMintAuthority == s.ledger.clawMintAuthority && GiftsOk(s'.history)
            && AmountsOf(s') == a.(reward := a.reward - amount, faucetClaw := a.faucetClaw + amount)
  {
    VaultPays(s.ledger, s.poolAuthority, RewardVault, FaucetClawVault, amount);
    SameGifts(s.history, FundFaucetEffect(s, amount).history);
  }

  lemma FundFaucetKeeps(s: State, amount: u64)
    requires Inv(s) && FundFaucetGuard(s, amount).Ok?
    ensures Inv(FundFaucetEffect(s, amount))
  {
    FundFaucetMovesVaults(s, amount);
    SameRecords(s, FundFaucetEffect(s, amount));
  }

  lemma PayoutGuardMeans(s: State, c: FaucetClaim)
    requires FaucetClaimGuard(s, c).Ok?
    ensures c.clawToken in s.ledger.accounts && c.usdcToken in s.ledger.accounts
    ensures FaucetClawVault in s.ledger.accounts && FaucetUsdcVault in s.ledger.accounts
    ensures s.ledger.accounts[c.clawToken].mint == Claw && s.ledger.accounts[c.usdcToken].mint == Usdc
    ensures s.ledger.accounts[FaucetClawVault].amount >= c.claw && s.ledger.accounts[FaucetUsdcVault].amount >= c.usdc
  {
  }

  lemma TwoPayouts(l: Ledger, h: History, pool: Pubkey, c: FaucetClaim)
    requires Conserved(l) && Custody(l, pool) && GiftsOk(h) && c.clawToken in l.accounts && c.usdcToken in l.accounts
    requires l.accounts[c.clawToken].mint == Claw && l.accounts[c.usdcToken].mint == Usdc
    requires l.accounts[FaucetClawVault].amount >= c.claw && l.accounts[FaucetUsdcVault].amount >= c.usdc
    ensures var l' := Move(Move(l, FaucetClawVault, c.clawToken, pool, c.claw), FaucetUsdcVault, c.usdcToken, pool,
                           c.usdc);
            var h' := Given(Given(h, c.clawToken, c.claw), c.usdcToken, c.usdc);
            && Conserved(l') && Custody(l', pool) && l'.clawMintAuthority == l.clawMintAuthority && GiftsOk(h')
            && AmountsIn(l', h', pool)
              == Less(Less(AmountsIn(l, h, pool), FaucetClawVault, c.claw), FaucetUsdcVault, c.usdc)
  {
    PayoutFromVault(l, h, pool, FaucetClawVault, c.clawToken, c.claw);
    var l1 := Move(l, FaucetClawVault, c.clawToken, pool, c.claw);
    var h1 := Given(h, c.clawToken, c.claw);
    PayoutFromVault(l1, h1, pool, FaucetUsdcVault, c.usdcToken, c.usdc);
    GivingKeepsGifts(h, c.clawToken, c.claw);
    GivingKeepsGifts(h1, c.usdcToken, c.usdc);
  }

  lemma FaucetClaimMovesVaults(s: State, c: FaucetClaim)
    requires LedgerOk(s) && GiftsOk(s.history) && FaucetClaimGuard(s, c).Ok?
    ensures var s', a := FaucetClaimEffect(s, c), AmountsOf(s);
            && LedgerOk(s') && s'.ledger.clawMintAuthority == s.ledger.clawMintAuthority
            && AmountsOf(s') == Less(Less(a, FaucetClawVault, c.claw), FaucetUsdcVault, c.usdc)
            && GiftsOk(s'.history)
  {
    PayoutGuardMeans(s, c);
    TwoPayouts(s.ledger, s.history, s.poolAuthority, c);
    SameGifts(Given(Given(s.history, c.clawToken, c.claw), c.usdcToken, c.usdc), FaucetClaimEffect(s, c).history);
  }

  lemma FaucetClaimCounts(s: State, c: FaucetClaim)
    requires Faucet.FaucetOk(s.faucet, s.history.payouts, Faucet.CurrentDayIndex(s.now)) && FaucetClaimGuard(s, c).Ok?
    ensures var s' := FaucetClaimEffect(s, c);
            && Faucet.FaucetOk(s'.faucet, s'.history.payouts, Faucet.CurrentDayIndex(s.now))
            && Faucet.PaidEver(s'.history.payouts, Claw) == Faucet.PaidEver(s.history.payouts, Claw) + c.claw
            && Faucet.PaidEver(s'.history.payouts, Usdc) == Faucet.PaidEver(s.history.payouts, Usdc) + c.usdc
  {
    var log, day := s.history.payouts, Faucet.CurrentDayIndex(s.now);
    var p := Faucet.Payout(day, c.recipient, c.claw, c.usdc);
    assert (log + [p])[..|log|] == log;
    assert FaucetClaimEffect(s, c).history.payouts == log + [p];
    Faucet.ClaimKeepsFaucet(s.faucet, log, day, c.recipient, c.claw, c.usdc);
  }

  lemma FaucetClaimKeeps(s: State, c: FaucetClaim)
    requires Inv(s) && FaucetClaimGuard(s, c).Ok?
    ensures Inv(FaucetClaimEffect(s, c))
  {
    FaucetClaimMovesVaults(s, c);
    SameRecords(s, FaucetClaimEffect(s, c));
    FaucetClaimCounts(s, c);
  }

  // ---- the environment -----------------------------------------------------

  lemma OutsideMovesNothingOwn(s: State, l: Ledger)
    requires GiftsOk(s.history) && OutsideOk(s, l)
    ensures AmountsOf(OutsideEffect(s, l)) == AmountsOf(s)
    ensures GiftsOk(OutsideEffect(s, l).history)
  {
    var h' := OutsideHistory(s, l);
    forall id ensures Gift(h', id) >= 0 {
      assert Gift(s.history, id) >= 0;
    }
  }

  lemma OutsideKeeps(s: State, l: Ledger)
    requires Inv(s) && OutsideOk(s, l)
    ensures Inv(OutsideEffect(s, l))
  {
    OutsideMovesNothingOwn(s, l);
    SameRecords(s, OutsideEffect(s, l));
  }

  lemma TickKeeps(s: State, now: i64)
    requires Inv(s) && s.now <= now
    ensures Inv(s.(now := now))
  {
    SameRecords(s, s.(now := now));
    Faucet.DaysGrow(s.now, now);
    Faucet.SameCountersAgree(s.faucet, s.faucet, s.history.payouts,
                             Faucet.CurrentDayIndex(s.now), Faucet.CurrentDayIndex(now));
  }
}

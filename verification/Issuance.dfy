/** Exactly when tokens leave the programs' own stock for nothing in return: genesis, the funding of the faucet, and its
    claims; and what each leaves. */
module Issuance {
  import opened Outcomes
  import opened Widths
  import opened TokenLedger
  import Faucet
  import opened Accounts
  import opened Masterpool
  import opened Invariant
  import opened Payments

  // ---- genesis -------------------------------------------------------------

  lemma SupplyFits(s: State)
    requires LedgerOk(s)
    ensures FitsU64(s.ledger.clawSupply)
  {
    assert Supply(s.ledger, Claw) == s.ledger.clawSupply;
  }

  /** Exactly when the supply can be minted: once, while the pool has both authorities, if it fits. */
  lemma GenesisSucceedsExactly(s: State)
    requires Inv(s)
    ensures GenesisGuard(s).Ok? <==>
      && !s.config.genesisMinted
      && s.ledger.clawMintAuthority == Some(s.poolAuthority) && s.ledger.clawFreezeAuthority == Some(s.poolAuthority)
      && s.ledger.clawSupply + 1_000_000_000_000_000 <= U64_MAX
  {
    SupplyFits(s);
  }

  /** A thousand million CLAW, of six decimals, are in the reward vault, and nobody can mint or freeze any more. */
  lemma GenesisLeaves(s: State)
    requires Inv(s) && GenesisGuard(s).Ok?
    ensures var s' := GenesisEffect(s);
            && s' == s.(ledger := s'.ledger, config := s.config.(genesisMinted := true))
            && s'.ledger.clawSupply == s.ledger.clawSupply + 1_000_000_000_000_000
            && s'.ledger.usdcSupply == s.ledger.usdcSupply
            && s'.ledger.clawMintAuthority == None && s'.ledger.clawFreezeAuthority == None
            && AmountAt(s'.ledger, RewardVault) == AmountAt(s.ledger, RewardVault) + 1_000_000_000_000_000
            && SameElsewhere(s.ledger, s'.ledger, {RewardVault})
            && GenesisGuard(s') == Err(GenesisAlreadyMinted)
  {
  }

  // ---- funding the faucet --------------------------------------------------

  /** Funding takes any positive amount that the reward vault holds into the faucet's CLAW vault. */
  lemma FundingExactly(s: State, amount: u64)
    requires Inv(s)
    ensures FundFaucetGuard(s, amount).Ok? <==> 0 < amount <= AmountAt(s.ledger, RewardVault)
    ensures FundFaucetGuard(s, amount).Ok? ==>
      var s' := FundFaucetEffect(s, amount);
      && s' == s.(ledger := s'.ledger,
                  history := s.history.(faucetFunded := s.history.faucetFunded + amount))
      && AmountAt(s'.ledger, RewardVault) == AmountAt(s.ledger, RewardVault) - amount
      && AmountAt(s'.ledger, FaucetClawVault) == AmountAt(s.ledger, FaucetClawVault) + amount
      && SameElsewhere(s.ledger, s'.ledger, {RewardVault, FaucetClawVault})
  {
  }

  // ---- claims --------------------------------------------------------------

  /** What a day's payouts and one claim more must stay within. */
  ghost predicate WithinLimits(
    l: Faucet.FaucetLimits, log: seq<Faucet.Payout>, today: int, recipient: Pubkey, claw: int, usdc: int)
  {
    && claw <= l.maxClawPerClaim && usdc <= l.maxUsdcPerClaim
    && (recipient != Faucet.DEFAULT_PUBKEY ==>
          && Faucet.PaidTo(log, Claw, today, recipient) + claw <= l.maxClawPerWalletPerDay
          && Faucet.PaidTo(log, Usdc, today, recipient) + usdc <= l.maxUsdcPerWalletPerDay)
    && Faucet.PaidOn(log, Claw, today) + claw <= l.maxClawGlobalPerDay
    && Faucet.PaidOn(log, Usdc, today) + usdc <= l.maxUsdcGlobalPerDay
  }

  lemma {:induction false} PaidIsPositive(
    log: seq<Faucet.Payout>, f: Faucet.FaucetState, mint: Mint, day: int, wallet: Pubkey)
    requires forall p :: p in log ==> Faucet.Filed(f, p)
    ensures 0 <= Faucet.PaidTo(log, mint, day, wallet) && 0 <= Faucet.PaidOn(log, mint, day)
  {
    if log != [] {
      PaidIsPositive(log[..|log| - 1], f, mint, day, wallet);
      assert Faucet.Filed(f, log[|log| - 1]);
    }
  }

  /** The counters decide as the true payouts would, and no addition to them overflows before a limit is hit. */
  lemma LimitsDecide(
    f: Faucet.FaucetState, log: seq<Faucet.Payout>, today: int, recipient: Pubkey, claw: u64, usdc: u64)
    requires Faucet.FaucetOk(f, log, today)
    ensures Faucet.ClaimGuard(f, today, recipient, claw, usdc).Ok? <==>
            f.enabled && (claw > 0 || usdc > 0) && WithinLimits(f.limits, log, today, recipient, claw, usdc)
  {
    Faucet.ResetAgrees(f, log, today, recipient, Claw);
    Faucet.ResetAgrees(f, log, today, recipient, Usdc);
    PaidIsPositive(log, f, Claw, today, recipient);
    PaidIsPositive(log, f, Usdc, today, recipient);
  }

  /** Exactly which claims are paid, in terms of everything the faucet ever paid out. */
  lemma FaucetClaimSucceedsExactly(s: State, c: FaucetClaim)
    requires Inv(s)
    ensures FaucetClaimGuard(s, c).Ok? <==>
      && s.faucet.enabled && (c.claw > 0 || c.usdc > 0)
      && WithinLimits(s.faucet.limits, s.history.payouts, Faucet.CurrentDayIndex(s.now), c.recipient, c.claw, c.usdc)
      && c.clawToken in s.ledger.accounts && c.usdcToken in s.ledger.accounts
      && s.ledger.accounts[c.clawToken].owner == c.recipient && s.ledger.accounts[c.clawToken].mint == Claw
      && s.ledger.accounts[c.usdcToken].owner == c.recipient && s.ledger.accounts[c.usdcToken].mint == Usdc
      && c.claw <= AmountAt(s.ledger, FaucetClawVault) && c.usdc <= AmountAt(s.ledger, FaucetUsdcVault)
  {
    LimitsDecide(s.faucet, s.history.payouts, Faucet.CurrentDayIndex(s.now), c.recipient, c.claw, c.usdc);
  }

  /** A claim pays both amounts out of the faucet's vaults and writes down who got them today. The pool authority may
      also claim, into vaults of its own. */
  lemma FaucetClaimLeaves(s: State, c: FaucetClaim)
    requires Inv(s) && FaucetClaimGuard(s, c).Ok?
    ensures var s', day := FaucetClaimEffect(s, c), Faucet.CurrentDayIndex(s.now);
            && s' == s.(ledger := s'.ledger, faucet := s'.faucet, history := s'.history)
            && s'.history.payouts == s.history.payouts + [Faucet.Payout(day, c.recipient, c.claw, c.usdc)]
            && s'.faucet.enabled == s.faucet.enabled && s'.faucet.limits == s.faucet.limits
            && SameElsewhere(s.ledger, s'.ledger, {c.clawToken, c.usdcToken, FaucetClawVault, FaucetUsdcVault})
    ensures c.recipient != s.poolAuthority ==>
      var l, l' := s.ledger, FaucetClaimEffect(s, c).ledger;
      && AmountAt(l', c.clawToken) == AmountAt(l, c.clawToken) + c.claw
      && AmountAt(l', c.usdcToken) == AmountAt(l, c.usdcToken) + c.usdc
      && AmountAt(l', FaucetClawVault) == AmountAt(l, FaucetClawVault) - c.claw
      && AmountAt(l', FaucetUsdcVault) == AmountAt(l, FaucetUsdcVault) - c.usdc
  {
    if c.recipient != s.poolAuthority {
      assert c.clawToken.Held? && c.usdcToken.Held?;
    }
  }

  /** Exactly which limits are accepted: all positive, and per claim at most per wallet at most in all. */
  lemma LimitsAcceptedExactly(l: Faucet.FaucetLimits)
    ensures Faucet.ValidateFaucetLimits(l).Ok? <==>
      && 0 < l.maxClawPerClaim <= l.maxClawPerWalletPerDay <= l.maxClawGlobalPerDay
      && 0 < l.maxUsdcPerClaim <= l.maxUsdcPerWalletPerDay <= l.maxUsdcGlobalPerDay
  {
  }
}

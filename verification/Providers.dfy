/** Exactly who can register as a provider and leave again, and what either leaves in the accounts. */
module Providers {
  import opened Outcomes
  import opened Sums
  import opened TokenLedger
  import opened Accounts
  import opened Masterpool
  import opened Invariant
  import opened Facts
  import opened Payments

  /** Exactly who can register: a wallet that never did, with a USDC account of its own that pays the stake; if the
      account names its owner as its delegate, the allowance must cover the stake too. */
  lemma RegisterSucceedsExactly(s: State, wallet: Pubkey, token: TokenId)
    requires Inv(s)
    ensures RegisterGuard(s, wallet, token).Ok? <==>
      && wallet != s.poolAuthority && wallet !in s.providers && token in s.ledger.accounts
      && var t, stake := s.ledger.accounts[token], s.config.params.providerStakeUsdc;
         && t.owner == wallet && t.mint == Usdc && t.amount >= stake
         && (t.delegate == Some(wallet) ==> t.allowance >= stake)
  {
    assert RewardOk(s, ProviderKey(wallet));
  }

  /** Registering moves the stake into the stake vault and starts an active provider and its reward account at zero. */
  lemma RegisterLeaves(s: State, wallet: Pubkey, token: TokenId)
    requires Inv(s) && RegisterGuard(s, wallet, token).Ok?
    ensures var s', stake := RegisterEffect(s, wallet, token), s.config.params.providerStakeUsdc;
            && s' == s.(ledger := s'.ledger,
                        providers := s.providers[wallet := Provider(wallet, stake, 0, 0, 0, 0, Active)],
                        rewards := s.rewards[RewardKey(ProviderReward, wallet) :=
                          RewardAccount(ProviderReward, wallet, 0, 0, 0, 0)])
            && token.Held?
            && AmountAt(s'.ledger, token) == AmountAt(s.ledger, token) - stake
            && AmountAt(s'.ledger, StakeVault) == AmountAt(s.ledger, StakeVault) + stake
            && SameElsewhere(s.ledger, s'.ledger, {token, StakeVault})
  {
  }

  // ---- leaving -------------------------------------------------------------

  /** All the provider's receipts have been settled or reverted. */
  ghost predicate NothingOpen(s: State, wallet: Pubkey) {
    forall n :: n in s.settlements && s.settlements[n].provider == wallet ==> s.settlements[n].status != Recorded
  }

  /** The three counters say together what the settlements say. */
  lemma NothingOpenExactly(s: State, wallet: Pubkey)
    requires Inv(s) && wallet in s.providers
    ensures NothingOpen(s, wallet) <==>
            var p := s.providers[wallet];
            p.pendingUsdc == 0 && p.unsettledReceipts == 0 && p.unresolvedChallenges == 0
  {
    assert ProviderBalances(s, wallet) && ProviderOk(s, wallet);
    if NothingOpen(s, wallet) {
      SumZero(s.settlements, EscrowOf(wallet));
      SumZero(s.settlements, UnsettledOf(wallet));
      ChallengesWithinReceipts(s, wallet);
    } else {
      var n :| n in s.settlements && s.settlements[n].provider == wallet && s.settlements[n].status == Recorded;
      if s.providers[wallet].unsettledReceipts == 0 {
        NothingUnsettled(s, wallet, n);
      }
    }
  }

  /** Exactly who can leave: an active provider without debt, all of whose receipts are settled or reverted; any USDC
      account may be paid. The vault always holds the stake. */
  lemma ExitSucceedsExactly(s: State, wallet: Pubkey, destination: TokenId)
    requires Inv(s) && wallet in s.providers
    ensures ExitGuard(s, wallet, destination).Ok? <==>
      && s.providers[wallet].status == Active && NothingOpen(s, wallet) && s.providers[wallet].clawNetPosition >= 0
      && destination in s.ledger.accounts && s.ledger.accounts[destination].mint == Usdc
    ensures s.ledger.accounts[StakeVault].amount >= s.providers[wallet].stakedUsdc
  {
    assert ProviderOk(s, wallet);
    NothingOpenExactly(s, wallet);
    forall w | w in s.providers ensures StakeOf()(s.providers[w]) >= 0 {
      assert ProviderOk(s, w);
    }
    SumAtLeast(s.providers, wallet, StakeOf());
    assert Gift(s.history, StakeVault) >= 0;
  }

  /** Leaving pays out the whole stake and keeps the record, without stake and for good. */
  lemma ExitLeaves(s: State, wallet: Pubkey, destination: TokenId)
    requires Inv(s) && ExitGuard(s, wallet, destination).Ok?
    ensures var s', p := ExitEffect(s, wallet, destination), s.providers[wallet];
            && s' == s.(ledger := s'.ledger, history := s'.history,
                        providers := s.providers[wallet := p.(stakedUsdc := 0, status := Exited)])
            && (destination != StakeVault ==>
                  && AmountAt(s'.ledger, destination) == AmountAt(s.ledger, destination) + p.stakedUsdc
                  && AmountAt(s'.ledger, StakeVault) == AmountAt(s.ledger, StakeVault) - p.stakedUsdc)
            && (destination == StakeVault ==> s'.ledger == s.ledger)
            && SameElsewhere(s.ledger, s'.ledger, {destination, StakeVault})
            && ExitGuard(s', wallet, destination) == Err(ProviderNotActive)
  {
  }
}

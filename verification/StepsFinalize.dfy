/** Finalizing a receipt keeps the invariant. */
module StepsFinalize {
  import opened Widths
  import opened Sums
  import opened TokenLedger
  import opened Vesting
  import opened Accounts
  import opened Masterpool
  import opened Attestation
  import opened Invariant
  import opened Facts
  import opened StepsReceipt

  /** A recorded settlement whose amounts are all set aside, and a destination that may take the provider's share. */
  ghost predicate Settleable(s: State, n: Nonce, to: TokenId) {
    && SettlementAccounts(s, n) && s.settlements[n].status == Recorded
    && to in s.ledger.accounts && s.ledger.accounts[to].mint == Usdc
    && var st := s.settlements[n];
       var user, reward := s.rewards[UserKey(st.payer)], s.rewards[ProviderKey(st.provider)];
       var p := s.providers[st.provider];
       && s.ledger.accounts[to].owner == st.provider && st.provider != s.poolAuthority
       && user.pendingClaw >= st.clawToUser >= 0 && FitsU64(user.lockedClaw + st.clawToUser)
       && reward.pendingClaw >= st.clawToProviderLocked >= 0 && FitsU64(reward.lockedClaw + st.clawToProviderLocked)
       && p.pendingUsdc >= st.usdcToProvider >= 0 && p.unsettledReceipts >= 1
       && st.userClawReleased == 0 && st.providerClawReleased == 0 && st.lockDays > 0
       && s.ledger.accounts[EscrowVault].amount >= st.usdcToProvider
  }

  lemma RecordedIsSettleable(s: State, n: Nonce, to: TokenId)
    requires Inv(s) && n in s.settlements && s.settlements[n].status == Recorded
    requires SettleGuard(s, n, to).Ok?
    ensures Settleable(s, n, to)
  {
    RecordedIsCovered(s, n);
    ReleasedAtMostTotal(s, n, UserReward);
    ReleasedAtMostTotal(s, n, ProviderReward);
    assert SettlementOk(s, n) && ProviderOk(s, s.settlements[n].provider);
  }

  lemma SettleMovesVaults(s: State, n: Nonce, to: TokenId)
    requires LedgerOk(s) && Settleable(s, n, to)
    ensures var s' := SettleWith(s, n, to);
            var a := AmountsOf(s);
            && LedgerOk(s')
            && s'.ledger.clawMintAuthority == s.ledger.clawMintAuthority
            && AmountsOf(s') == a.(escrow := a.escrow - s.settlements[n].usdcToProvider)
  {
    VaultPays(s.ledger, s.poolAuthority, EscrowVault, to, s.settlements[n].usdcToProvider);
  }

  lemma SettleMovesTotals(s: State, n: Nonce, to: TokenId)
    requires Settleable(s, n, to)
    ensures var s' := SettleWith(s, n, to);
            var st, t := s.settlements[n], TotalsOf(s);
            TotalsOf(s')
              == t.(inEscrow := t.inEscrow - st.usdcToProvider, pendingUsdc := t.pendingUsdc - st.usdcToProvider)
  {
    var s', st := SettleWith(s, n, to), s.settlements[n];
    SumPut(s.settlements, n, s'.settlements[n], InEscrow());
    SumPut(s.settlements, n, s'.settlements[n], ToTreasury());
    ProviderPut(s.providers, st.provider, s'.providers[st.provider]);
    TwoRewardsPut(s.rewards, UserKey(st.payer), ProviderKey(st.provider), s'.rewards);
  }

  lemma SettleKeepsVaults(s: State, n: Nonce, to: TokenId)
    requires LedgerOk(s) && VaultsOk(s) && Settleable(s, n, to)
    ensures LedgerOk(SettleWith(s, n, to)) && VaultsOk(SettleWith(s, n, to))
  {
    SettleMovesVaults(s, n, to);
    SettleMovesTotals(s, n, to);
  }

  lemma SettleKeepsRecords(s: State, n: Nonce, to: TokenId)
    requires RecordsOk(s) && CoupledOk(s) && Settleable(s, n, to)
    ensures forall m :: SettlementOk(SettleWith(s, n, to), m) && BondOk(SettleWith(s, n, to), m)
    ensures forall p :: ProviderOk(SettleWith(s, n, to), p)
    ensures forall k :: RewardOk(SettleWith(s, n, to), k)
  {
    var s' := SettleWith(s, n, to);
    forall m ensures SettlementOk(s', m) && BondOk(s', m) {
      assert SettlementOk(s, m) && BondOk(s, m);
    }
    forall p ensures ProviderOk(s', p) {
      assert ProviderOk(s, p);
    }
    forall k ensures RewardOk(s', k) {
      assert RewardOk(s, k);
    }
  }

  lemma SettleKeepsVesting(s: State, n: Nonce, to: TokenId, m: Nonce, kind: RewardKind)
    requires VestingOk(s, m, kind) && Settleable(s, n, to)
    ensures VestingOk(SettleWith(s, n, to), m, kind)
  {
    if m == n {
      var st := s.settlements[n];
      VestedGrows(TargetTotal(st, kind), s.now, s.now, s.now, st.lockDays);
    }
  }

  lemma SettleKeepsProviderBalances(s: State, n: Nonce, to: TokenId, p: Pubkey)
    requires ProviderBalances(s, p) && DebtFair(s, p) && Settleable(s, n, to)
    ensures ProviderBalances(SettleWith(s, n, to), p) && DebtFair(SettleWith(s, n, to), p)
  {
    var st' := SettleWith(s, n, to).settlements[n];
    SumPut(s.settlements, n, st', EscrowOf(p));
    SumPut(s.settlements, n, st', UnsettledOf(p));
    SumPut(s.settlements, n, st', EarnedBy(p));
    SumPut(s.settlements, n, st', WithheldFrom(p));
  }

  lemma SettleKeepsRewardBalances(s: State, n: Nonce, to: TokenId, k: RewardKey)
    requires RewardBalances(s, k) && Settleable(s, n, to)
    ensures RewardBalances(SettleWith(s, n, to), k)
  {
    var st' := SettleWith(s, n, to).settlements[n];
    SumPut(s.settlements, n, st', PendingFor(k));
    SumPut(s.settlements, n, st', LockedFor(k));
    SumPut(s.settlements, n, st', ReleasedFor(k));
  }

  lemma SettleKeepsBooks(s: State, n: Nonce, to: TokenId)
    requires BooksOk(s) && Settleable(s, n, to)
    ensures BooksOk(SettleWith(s, n, to))
  {
    var s' := SettleWith(s, n, to);
    forall p ensures ProviderBalances(s', p) && DebtFair(s', p) {
      assert ProviderBalances(s, p) && DebtFair(s, p);
      SettleKeepsProviderBalances(s, n, to, p);
    }
    forall k ensures RewardBalances(s', k) {
      assert RewardBalances(s, k);
      SettleKeepsRewardBalances(s, n, to, k);
    }
  }

  lemma FinalizeKeepsCoupling(s: State, n: Nonce, to: TokenId, r: Receipt)
    requires CoupledOk(s) && Settleable(s, n, to) && n in s.receipts
    requires s.receipts[n].status == Submitted || s.receipts[n].status == Finalized
    requires r == s.receipts[n].(status := Finalized, economicsSettled := true, finalizedAt := r.finalizedAt)
    ensures CoupledOk(WithReceipt(SettleWith(s, n, to), n, r))
  {
    var s' := WithReceipt(SettleWith(s, n, to), n, r);
    forall m ensures ReceiptOk(s', m) && OutlivingOk(s', m) {
      assert ReceiptOk(s, m) && OutlivingOk(s, m);
    }
    forall m ensures ChallengeOk(s', m) && HashOk(s', m) {
      assert ChallengeOk(s, m) && HashOk(s, m);
    }
  }

  lemma SettleKeepsAll(s: State, n: Nonce, to: TokenId)
    requires Inv(s) && Settleable(s, n, to)
    ensures var s' := SettleWith(s, n, to);
            && LedgerOk(s') && RecordsOk(s') && BooksOk(s') && VaultsOk(s')
            && s'.ledger.clawMintAuthority == s.ledger.clawMintAuthority
  {
    SettleKeepsVaults(s, n, to);
    SettleMovesVaults(s, n, to);
    SettleKeepsRecords(s, n, to);
    forall m, kind ensures VestingOk(SettleWith(s, n, to), m, kind) {
      assert VestingOk(s, m, kind);
      SettleKeepsVesting(s, n, to, m, kind);
    }
    SettleKeepsBooks(s, n, to);
  }

  lemma SettledKeeps(s: State, n: Nonce, to: TokenId, r: Receipt)
    requires Inv(s) && Settleable(s, n, to) && n in s.receipts
    requires s.receipts[n].status == Submitted || s.receipts[n].status == Finalized
    requires r == s.receipts[n].(status := Finalized, economicsSettled := true, finalizedAt := r.finalizedAt)
    ensures Inv(WithReceipt(SettleWith(s, n, to), n, r))
  {
    SettleKeepsAll(s, n, to);
    FinalizeKeepsCoupling(s, n, to, r);
    ReceiptsAreApart(SettleWith(s, n, to), WithReceipt(SettleWith(s, n, to), n, r));
  }

  /** A receipt that may be finalized has a recorded settlement: the program's repeated status check never fires. */
  lemma FinalizableIsRecorded(s: State, n: Nonce, to: TokenId)
    requires Inv(s) && FinalizeGuard(s, n, to).Ok?
    ensures n in s.settlements && s.settlements[n].status == Recorded
  {
    assert ReceiptOk(s, n);
  }

  lemma FinalizeKeeps(s: State, n: Nonce, to: TokenId)
    requires Inv(s) && FinalizeGuard(s, n, to).Ok?
    ensures Inv(FinalizeEffect(s, n, to))
  {
    FinalizableIsRecorded(s, n, to);
    RecordedIsSettleable(s, n, to);
    var r := FinalizeEffect(s, n, to).receipts[n];
    assert FinalizeEffect(s, n, to) == WithReceipt(SettleWith(s, n, to), n, r);
    SettledKeeps(s, n, to, r);
  }
}

/** Opening, rejecting and accepting challenges keep the invariant. */
module StepsChallenge {
  import opened Outcomes
  import opened Widths
  import opened Sums
  import opened TokenLedger
  import opened Params
  import opened Accounts
  import opened Masterpool
  import opened Attestation
  import opened Invariant
  import opened Facts
  import opened StepsReceipt

  function WithChallenge(s: State, n: Nonce, c: Challenge, r: Receipt): State {
    s.(challenges := s.challenges[n := c], receipts := s.receipts[n := r])
  }

  // ---- opening -------------------------------------------------------------

  ghost predicate Bondable(s: State, n: Nonce, from: TokenId, b: Bond) {
    && SettlementAccounts(s, n) && s.settlements[n].status == Recorded && n !in s.bonds
    && b.provider == s.settlements[n].provider && b.payer == s.settlements[n].payer && b.status == Locked
    && b.challenger != s.poolAuthority
    && FitsU64(b.bondAmount) && b.challengerRewardAmount >= 0 && b.burnAmount >= 0
    && b.challengerRewardAmount + b.burnAmount == b.slashAmount <= U64_MAX && SplitAsAgreed(b)
    && s.providers[b.provider].unresolvedChallenges < U64_MAX
    && PayGuard(s.ledger, from, Claw, BondVault, b.challenger, b.bondAmount).Ok?
    && s.ledger.accounts[from].owner == b.challenger
  }

  lemma OpenableIsBondable(s: State, n: Nonce, challenger: Pubkey, token: TokenId, challengeType: u8)
    requires Inv(s) && OpenGuard(s, n, challenger, token, challengeType).Ok?
    ensures Bondable(s, n, token, NewBond(s, n, challenger))
  {
    assert ReceiptOk(s, n);
    RecordedIsCovered(s, n);
    RoomForOneMoreChallenge(s, n);
    AcceptedSlashIsSafe(s.config.params);
  }

  lemma BondMovesVaults(s: State, n: Nonce, from: TokenId, b: Bond)
    requires LedgerOk(s) && Bondable(s, n, from, b)
    ensures var s' := BondWith(s, n, from, b);
            var a := AmountsOf(s);
            && LedgerOk(s')
            && s'.ledger.clawMintAuthority == s.ledger.clawMintAuthority
            && AmountsOf(s') == a.(bond := a.bond + b.bondAmount)
  {
    HolderPays(s.ledger, s.poolAuthority, from, Claw, BondVault, b.challenger, b.bondAmount);
  }

  lemma BondKeepsVaults(s: State, n: Nonce, from: TokenId, b: Bond)
    requires LedgerOk(s) && VaultsOk(s) && Bondable(s, n, from, b)
    ensures LedgerOk(BondWith(s, n, from, b)) && VaultsOk(BondWith(s, n, from, b))
  {
    BondMovesVaults(s, n, from, b);
    BondPut(s.bonds, n, b);
    ProviderPut(s.providers, b.provider, BondWith(s, n, from, b).providers[b.provider]);
  }

  lemma BondKeepsRecords(s: State, n: Nonce, from: TokenId, b: Bond)
    requires RecordsOk(s) && Bondable(s, n, from, b)
    ensures RecordsOk(BondWith(s, n, from, b))
  {
    var s' := BondWith(s, n, from, b);
    forall m ensures SettlementOk(s', m) && BondOk(s', m) {
      assert SettlementOk(s, m) && BondOk(s, m);
    }
    forall m, kind ensures VestingOk(s', m, kind) {
      assert VestingOk(s, m, kind);
    }
    forall p ensures ProviderOk(s', p) {
      assert ProviderOk(s, p);
    }
    forall k ensures RewardOk(s', k) {
      assert RewardOk(s, k);
    }
  }

  lemma BondKeepsBooks(s: State, n: Nonce, from: TokenId, b: Bond)
    requires BooksOk(s) && Bondable(s, n, from, b)
    ensures BooksOk(BondWith(s, n, from, b))
  {
    var s' := BondWith(s, n, from, b);
    forall p ensures ProviderBalances(s', p) && DebtFair(s', p) {
      assert ProviderBalances(s, p) && DebtFair(s, p);
      SumPut(s.bonds, n, b, UnresolvedOf(p));
      SumPut(s.bonds, n, b, SlashedFrom(p));
    }
    forall k ensures RewardBalances(s', k) {
      assert RewardBalances(s, k);
    }
  }

  lemma OpenKeepsCoupling(s: State, n: Nonce, from: TokenId, b: Bond, c: Challenge)
    requires CoupledOk(s) && Bondable(s, n, from, b)
    requires n in s.receipts && s.receipts[n].status == Submitted
    requires c.status == Open && c.challenger == b.challenger && c.bondAmount == b.bondAmount
    ensures CoupledOk(WithChallenge(BondWith(s, n, from, b), n, c, s.receipts[n].(status := Challenged)))
  {
    var s' := WithChallenge(BondWith(s, n, from, b), n, c, s.receipts[n].(status := Challenged));
    forall m ensures ReceiptOk(s', m) && OutlivingOk(s', m) {
      assert ReceiptOk(s, m) && OutlivingOk(s, m);
    }
    forall m ensures ChallengeOk(s', m) && HashOk(s', m) {
      assert ChallengeOk(s, m) && HashOk(s, m);
    }
  }

  lemma BondedKeeps(s: State, n: Nonce, from: TokenId, b: Bond, c: Challenge)
    requires Inv(s) && Bondable(s, n, from, b)
    requires n in s.receipts && s.receipts[n].status == Submitted
    requires c.status == Open && c.challenger == b.challenger && c.bondAmount == b.bondAmount
    ensures Inv(WithChallenge(BondWith(s, n, from, b), n, c, s.receipts[n].(status := Challenged)))
  {
    BondKeepsVaults(s, n, from, b);
    BondMovesVaults(s, n, from, b);
    BondKeepsRecords(s, n, from, b);
    BondKeepsBooks(s, n, from, b);
    OpenKeepsCoupling(s, n, from, b, c);
    ReceiptsAreApart(BondWith(s, n, from, b),
                     WithChallenge(BondWith(s, n, from, b), n, c, s.receipts[n].(status := Challenged)));
  }

  lemma OpenKeeps(s: State, n: Nonce, challenger: Pubkey, token: TokenId, challengeType: u8, evidence: Bytes32)
    requires Inv(s) && OpenGuard(s, n, challenger, token, challengeType).Ok?
    ensures Inv(OpenEffect(s, n, challenger, token, challengeType, evidence))
  {
    OpenableIsBondable(s, n, challenger, token, challengeType);
    BondedKeeps(s, n, token, NewBond(s, n, challenger),
                OpenEffect(s, n, challenger, token, challengeType, evidence).challenges[n]);
  }

  // ---- both resolutions ----------------------------------------------------

  /** A challenged receipt with its locked bond; everything a resolution subtracts is there. */
  ghost predicate Resolvable(s: State, n: Nonce) {
    && BondAccounts(s, n) && s.settlements[n].status == Recorded && s.bonds[n].status == Locked
    && var st, b := s.settlements[n], s.bonds[n];
       var user, reward := s.rewards[UserKey(st.payer)], s.rewards[ProviderKey(st.provider)];
       var p := s.providers[st.provider];
       && b.provider == st.provider && st.payer != s.poolAuthority && b.challenger != s.poolAuthority
       && b.bondAmount >= 0 && b.challengerRewardAmount >= 0 && b.burnAmount >= 0
       && b.challengerRewardAmount + b.burnAmount == b.slashAmount
       && user.pendingClaw >= st.clawToUser >= 0
       && reward.pendingClaw >= st.clawToProviderLocked >= 0
       && 0 <= st.clawProviderDebtOffset <= st.clawToProviderTotal
       && p.pendingUsdc >= st.usdcToProvider >= 0 && p.unsettledReceipts >= 1 && p.unresolvedChallenges >= 1
       && p.status == Active
       && st.userClawReleased == 0 && st.providerClawReleased == 0
       && s.ledger.accounts[EscrowVault].amount >= st.usdcToProvider
       && s.ledger.accounts[BondVault].amount >= b.bondAmount
  }

  /** An open challenge finds its receipt challenged and its bond locked, though the program checks neither the
      receipt's status nor that the settlement is still recorded. */
  lemma OpenChallengeIsResolvable(s: State, n: Nonce)
    requires Inv(s) && n in s.challenges && s.challenges[n].status == Open
    ensures n in s.receipts && s.receipts[n].status == Challenged && !s.receipts[n].economicsSettled
    ensures Resolvable(s, n)
  {
    assert ChallengeOk(s, n) && OutlivingOk(s, n);
    LockedIsCovered(s, n);
    RecordedIsCovered(s, n);
    ReleasedAtMostTotal(s, n, UserReward);
    ReleasedAtMostTotal(s, n, ProviderReward);
    assert SettlementOk(s, n) && BondOk(s, n) && ReceiptOk(s, n);
  }

  // ---- rejecting -----------------------------------------------------------

  lemma RejectMovesVaults(s: State, n: Nonce)
    requires LedgerOk(s) && Resolvable(s, n)
    ensures var s' := RejectEffect(s, n);
            var a, amount := AmountsOf(s), s.bonds[n].bondAmount;
            && LedgerOk(s')
            && s'.ledger.clawMintAuthority == s.ledger.clawMintAuthority
            && AmountsOf(s') == a.(bond := a.bond - amount, clawSupply := a.clawSupply - amount)
  {
    VaultBurns(s.ledger, s.poolAuthority, BondVault, s.bonds[n].bondAmount);
  }

  lemma RejectKeepsVaults(s: State, n: Nonce)
    requires LedgerOk(s) && VaultsOk(s) && Resolvable(s, n)
    ensures LedgerOk(RejectEffect(s, n)) && VaultsOk(RejectEffect(s, n))
  {
    var s' := RejectEffect(s, n);
    RejectMovesVaults(s, n);
    BondPut(s.bonds, n, s'.bonds[n]);
    ProviderPut(s.providers, s.settlements[n].provider, s'.providers[s.settlements[n].provider]);
  }

  lemma RejectKeepsRecords(s: State, n: Nonce)
    requires RecordsOk(s) && Resolvable(s, n)
    ensures RecordsOk(RejectEffect(s, n))
  {
    var s' := RejectEffect(s, n);
    forall m ensures SettlementOk(s', m) && BondOk(s', m) {
      assert SettlementOk(s, m) && BondOk(s, m);
    }
    forall m, kind ensures VestingOk(s', m, kind) {
      assert VestingOk(s, m, kind);
    }
    forall p ensures ProviderOk(s', p) {
      assert ProviderOk(s, p);
    }
    forall k ensures RewardOk(s', k) {
      assert RewardOk(s, k);
    }
  }

  lemma RejectKeepsBooks(s: State, n: Nonce)
    requires BooksOk(s) && Resolvable(s, n)
    ensures BooksOk(RejectEffect(s, n))
  {
    var s' := RejectEffect(s, n);
    forall p ensures ProviderBalances(s', p) && DebtFair(s', p) {
      assert ProviderBalances(s, p) && DebtFair(s, p);
      SumPut(s.bonds, n, s'.bonds[n], UnresolvedOf(p));
      SumPut(s.bonds, n, s'.bonds[n], SlashedFrom(p));
    }
    forall k ensures RewardBalances(s', k) {
      assert RewardBalances(s, k);
    }
  }

  lemma RejectKeepsCoupling(s: State, n: Nonce, c: Challenge, r: Receipt)
    requires CoupledOk(s) && Resolvable(s, n) && n in s.challenges && n in s.receipts
    requires c == s.challenges[n].(status := ChallengeRejected, resolution := c.resolution, resolvedAt := c.resolvedAt)
    requires r == s.receipts[n].(status := Finalized, finalizedAt := r.finalizedAt, economicsSettled := false)
    ensures CoupledOk(WithChallenge(RejectEffect(s, n), n, c, r))
  {
    var s' := WithChallenge(RejectEffect(s, n), n, c, r);
    forall m ensures ReceiptOk(s', m) && OutlivingOk(s', m) {
      assert ReceiptOk(s, m) && OutlivingOk(s, m);
    }
    forall m ensures ChallengeOk(s', m) && HashOk(s', m) {
      assert ChallengeOk(s, m) && HashOk(s, m);
    }
  }

  lemma RejectionKeeps(s: State, n: Nonce)
    requires Inv(s) && n in s.receipts && n in s.challenges && s.challenges[n].status == Open && RejectGuard(s, n).Ok?
    ensures Inv(AfterRejection(s, n))
  {
    OpenChallengeIsResolvable(s, n);
    var s', s1 := AfterRejection(s, n), RejectEffect(s, n);
    RejectKeepsVaults(s, n);
    RejectMovesVaults(s, n);
    RejectKeepsRecords(s, n);
    RejectKeepsBooks(s, n);
    RejectKeepsCoupling(s, n, s'.challenges[n], s'.receipts[n]);
    assert s' == WithChallenge(s1, n, s'.challenges[n], s'.receipts[n]);
    ReceiptsAreApart(s1, s');
  }

  // ---- accepting -----------------------------------------------------------

  ghost predicate Acceptable(s: State, n: Nonce, challengerToken: TokenId, payerToken: TokenId) {
    && Resolvable(s, n)
    && challengerToken in s.ledger.accounts && payerToken in s.ledger.accounts
    && var st, b, cs := s.settlements[n], s.bonds[n], s.ledger.accounts;
       && cs[payerToken].owner == st.payer && cs[payerToken].mint == Usdc
       && cs[challengerToken].owner == b.challenger && cs[challengerToken].mint == Claw
       && cs[RewardVault].amount >= b.slashAmount
       && FitsI128(s.providers[st.provider].clawNetPosition - st.clawToProviderTotal - b.slashAmount)
  }

  /** Every payment of an accepted challenge goes through; only the reward vault's balance had to be checked. */
  lemma AcceptPaymentsGoThrough(s: State, n: Nonce, challengerToken: TokenId, payerToken: TokenId)
    requires LedgerOk(s) && Acceptable(s, n, challengerToken, payerToken)
    ensures var st, b, pool := s.settlements[n], s.bonds[n], s.poolAuthority;
            var l1 := Move(s.ledger, BondVault, challengerToken, pool, b.bondAmount);
            var l2 := Move(l1, RewardVault, challengerToken, pool, b.challengerRewardAmount);
            var l3 := Burned(l2, RewardVault, pool, b.burnAmount);
            var l4 := Move(l3, EscrowVault, payerToken, pool, st.usdcToProvider);
            && Transfer(s.ledger, BondVault, Claw, challengerToken, pool, b.bondAmount) == Ok(l1)
            && Transfer(l1, RewardVault, Claw, challengerToken, pool, b.challengerRewardAmount) == Ok(l2)
            && Burn(l2, RewardVault, pool, b.burnAmount) == Ok(l3)
            && Transfer(l3, EscrowVault, Usdc, payerToken, pool, st.usdcToProvider) == Ok(l4)
            && Conserved(l4) && Custody(l4, pool)
  {
    var st, b, pool := s.settlements[n], s.bonds[n], s.poolAuthority;
    VaultPays(s.ledger, pool, BondVault, challengerToken, b.bondAmount);
    var l1 := Move(s.ledger, BondVault, challengerToken, pool, b.bondAmount);
    VaultPays(l1, pool, RewardVault, challengerToken, b.challengerRewardAmount);
    var l2 := Move(l1, RewardVault, challengerToken, pool, b.challengerRewardAmount);
    VaultBurns(l2, pool, RewardVault, b.burnAmount);
    var l3 := Burned(l2, RewardVault, pool, b.burnAmount);
    VaultPays(l3, pool, EscrowVault, payerToken, st.usdcToProvider);
  }

  lemma AcceptKeepsAuthority(s: State, n: Nonce, challengerToken: TokenId, payerToken: TokenId)
    requires Acceptable(s, n, challengerToken, payerToken)
    ensures AcceptLedger(s, n, challengerToken, payerToken).clawMintAuthority == s.ledger.clawMintAuthority
  {
  }

  lemma AcceptMovesAmounts(s: State, n: Nonce, challengerToken: TokenId, payerToken: TokenId)
    requires Custody(s.ledger, s.poolAuthority) && Acceptable(s, n, challengerToken, payerToken)
    requires Custody(AcceptLedger(s, n, challengerToken, payerToken), s.poolAuthority)
    ensures var l, st, b := AcceptLedger(s, n, challengerToken, payerToken), s.settlements[n], s.bonds[n];
            var a := AmountsOf(s);
            AmountsIn(l, s.history, s.poolAuthority) == a.(
              bond := a.bond - b.bondAmount, reward := a.reward - b.slashAmount,
              escrow := a.escrow - st.usdcToProvider, clawSupply := a.clawSupply - b.burnAmount)
  {
    assert challengerToken.Held? && payerToken.Held?;
  }

  lemma AcceptMovesVaults(s: State, n: Nonce, challengerToken: TokenId, payerToken: TokenId)
    requires LedgerOk(s) && Acceptable(s, n, challengerToken, payerToken)
    ensures var l, st, b := AcceptLedger(s, n, challengerToken, payerToken), s.settlements[n], s.bonds[n];
            && Conserved(l) && Custody(l, s.poolAuthority)
            && l.clawMintAuthority == s.ledger.clawMintAuthority
            && var a := AmountsOf(s);
               AmountsIn(l, s.history, s.poolAuthority) == a.(
                 bond := a.bond - b.bondAmount, reward := a.reward - b.slashAmount,
                 escrow := a.escrow - st.usdcToProvider, clawSupply := a.clawSupply - b.burnAmount)
  {
    AcceptPaymentsGoThrough(s, n, challengerToken, payerToken);
    AcceptKeepsAuthority(s, n, challengerToken, payerToken);
    AcceptMovesAmounts(s, n, challengerToken, payerToken);
  }

  lemma AcceptMovesTotals(s: State, n: Nonce, l: Ledger)
    requires Resolvable(s, n)
    ensures var s', st, b := AcceptWith(s, n, l), s.settlements[n], s.bonds[n];
            var t := TotalsOf(s);
            TotalsOf(s') == t.(
              inEscrow := t.inEscrow - st.usdcToProvider, pendingUsdc := t.pendingUsdc - st.usdcToProvider,
              lockedBonds := t.lockedBonds - b.bondAmount, slashPaid := t.slashPaid + b.slashAmount,
              burned := t.burned + b.burnAmount)
  {
    var s', st := AcceptWith(s, n, l), s.settlements[n];
    SumPut(s.settlements, n, s'.settlements[n], InEscrow());
    SumPut(s.settlements, n, s'.settlements[n], ToTreasury());
    ProviderPut(s.providers, st.provider, s'.providers[st.provider]);
    TwoRewardsPut(s.rewards, UserKey(st.payer), ProviderKey(st.provider), s'.rewards);
    SumPut(s.bonds, n, s'.bonds[n], LockedBond());
    SumPut(s.bonds, n, s'.bonds[n], SlashPaid());
    SumPut(s.bonds, n, s'.bonds[n], BurnedFor());
  }

  lemma RevertedIsBacked(s: State, n: Nonce, l: Ledger)
    requires Custody(s.ledger, s.poolAuthority) && VaultsOk(s) && Resolvable(s, n) && Custody(l, s.poolAuthority)
    requires var a, st, b := AmountsOf(s), s.settlements[n], s.bonds[n];
             AmountsIn(l, s.history, s.poolAuthority) == a.(
               bond := a.bond - b.bondAmount, reward := a.reward - b.slashAmount,
               escrow := a.escrow - st.usdcToProvider, clawSupply := a.clawSupply - b.burnAmount)
    ensures VaultsOk(AcceptWith(s, n, l))
  {
    AcceptMovesTotals(s, n, l);
  }

  lemma AcceptKeepsVaults(s: State, n: Nonce, challengerToken: TokenId, payerToken: TokenId)
    requires LedgerOk(s) && VaultsOk(s) && Acceptable(s, n, challengerToken, payerToken)
    ensures LedgerOk(AcceptEffect(s, n, challengerToken, payerToken))
            && VaultsOk(AcceptEffect(s, n, challengerToken, payerToken))
  {
    AcceptMovesVaults(s, n, challengerToken, payerToken);
    RevertedIsBacked(s, n, AcceptLedger(s, n, challengerToken, payerToken));
  }

  lemma AcceptKeepsRecords(s: State, n: Nonce, challengerToken: TokenId, payerToken: TokenId)
    requires RecordsOk(s) && Acceptable(s, n, challengerToken, payerToken)
    ensures RecordsOk(AcceptEffect(s, n, challengerToken, payerToken))
  {
    var s' := AcceptEffect(s, n, challengerToken, payerToken);
    forall m ensures SettlementOk(s', m) && BondOk(s', m) {
      assert SettlementOk(s, m) && BondOk(s, m);
    }
    forall m, kind ensures VestingOk(s', m, kind) {
      assert VestingOk(s, m, kind);
    }
    forall p ensures ProviderOk(s', p) {
      assert ProviderOk(s, p);
    }
    forall k ensures RewardOk(s', k) {
      assert RewardOk(s, k);
    }
  }

  lemma AcceptKeepsEscrow(s: State, n: Nonce, challengerToken: TokenId, payerToken: TokenId, p: Pubkey)
    requires ProviderBalances(s, p) && Acceptable(s, n, challengerToken, payerToken)
    ensures var s' := AcceptEffect(s, n, challengerToken, payerToken);
            && ProviderAt(s', p).pendingUsdc == Sum(s'.settlements, EscrowOf(p))
            && ProviderAt(s', p).unsettledReceipts == Sum(s'.settlements, UnsettledOf(p))
  {
    var s' := AcceptEffect(s, n, challengerToken, payerToken);
    SumPut(s.settlements, n, s'.settlements[n], EscrowOf(p));
    SumPut(s.settlements, n, s'.settlements[n], UnsettledOf(p));
  }

  lemma AcceptKeepsChallengeCount(s: State, n: Nonce, challengerToken: TokenId, payerToken: TokenId, p: Pubkey)
    requires ProviderBalances(s, p) && Acceptable(s, n, challengerToken, payerToken)
    ensures var s' := AcceptEffect(s, n, challengerToken, payerToken);
            ProviderAt(s', p).unresolvedChallenges == Sum(s'.bonds, UnresolvedOf(p))
  {
    SumPut(s.bonds, n, AcceptEffect(s, n, challengerToken, payerToken).bonds[n], UnresolvedOf(p));
  }

  /** A revert drops what was withheld from the reward and adds to what was slashed: debt stays fair. */
  lemma AcceptKeepsDebt(s: State, n: Nonce, challengerToken: TokenId, payerToken: TokenId, p: Pubkey)
    requires ProviderBalances(s, p) && DebtFair(s, p) && Acceptable(s, n, challengerToken, payerToken)
    ensures var s' := AcceptEffect(s, n, challengerToken, payerToken);
            && ProviderAt(s', p).clawNetPosition == Sum(s'.settlements, EarnedBy(p)) - Sum(s'.bonds, SlashedFrom(p))
            && DebtFair(s', p)
  {
    var s' := AcceptEffect(s, n, challengerToken, payerToken);
    SumPut(s.settlements, n, s'.settlements[n], EarnedBy(p));
    SumPut(s.settlements, n, s'.settlements[n], WithheldFrom(p));
    SumPut(s.bonds, n, s'.bonds[n], SlashedFrom(p));
  }

  lemma AcceptKeepsProviderBalances(s: State, n: Nonce, challengerToken: TokenId, payerToken: TokenId, p: Pubkey)
    requires ProviderBalances(s, p) && DebtFair(s, p) && Acceptable(s, n, challengerToken, payerToken)
    ensures var s' := AcceptEffect(s, n, challengerToken, payerToken);
            ProviderBalances(s', p) && DebtFair(s', p)
  {
    AcceptKeepsEscrow(s, n, challengerToken, payerToken, p);
    AcceptKeepsChallengeCount(s, n, challengerToken, payerToken, p);
    AcceptKeepsDebt(s, n, challengerToken, payerToken, p);
  }

  lemma AcceptKeepsRewardBalances(s: State, n: Nonce, challengerToken: TokenId, payerToken: TokenId, k: RewardKey)
    requires RewardBalances(s, k) && Acceptable(s, n, challengerToken, payerToken)
    ensures RewardBalances(AcceptEffect(s, n, challengerToken, payerToken), k)
  {
    var st' := AcceptEffect(s, n, challengerToken, payerToken).settlements[n];
    SumPut(s.settlements, n, st', PendingFor(k));
    SumPut(s.settlements, n, st', LockedFor(k));
    SumPut(s.settlements, n, st', ReleasedFor(k));
  }

  lemma AcceptKeepsBooks(s: State, n: Nonce, challengerToken: TokenId, payerToken: TokenId)
    requires BooksOk(s) && Acceptable(s, n, challengerToken, payerToken)
    ensures BooksOk(AcceptEffect(s, n, challengerToken, payerToken))
  {
    var s' := AcceptEffect(s, n, challengerToken, payerToken);
    forall p ensures ProviderBalances(s', p) && DebtFair(s', p) {
      assert ProviderBalances(s, p) && DebtFair(s, p);
      AcceptKeepsProviderBalances(s, n, challengerToken, payerToken, p);
    }
    forall k ensures RewardBalances(s', k) {
      assert RewardBalances(s, k);
      AcceptKeepsRewardBalances(s, n, challengerToken, payerToken, k);
    }
  }

  lemma AcceptKeepsCoupling(s: State, n: Nonce, challengerToken: TokenId, payerToken: TokenId, c: Challenge, r: Receipt)
    requires CoupledOk(s) && Acceptable(s, n, challengerToken, payerToken) && n in s.challenges && n in s.receipts
    requires c == s.challenges[n].(status := ChallengeAccepted, resolution := c.resolution, resolvedAt := c.resolvedAt)
    requires r == s.receipts[n].(status := r.status, finalizedAt := r.finalizedAt, economicsSettled := true)
    requires r.status == Rejected || r.status == Slashed
    ensures CoupledOk(WithChallenge(AcceptEffect(s, n, challengerToken, payerToken), n, c, r))
  {
    var s' := WithChallenge(AcceptEffect(s, n, challengerToken, payerToken), n, c, r);
    forall m ensures ReceiptOk(s', m) && OutlivingOk(s', m) {
      assert ReceiptOk(s, m) && OutlivingOk(s, m);
    }
    forall m ensures ChallengeOk(s', m) && HashOk(s', m) {
      assert ChallengeOk(s, m) && HashOk(s, m);
    }
  }

  lemma AcceptanceKeeps(s: State, n: Nonce, challengerToken: TokenId, payerToken: TokenId, c: Challenge, r: Receipt)
    requires Inv(s) && Acceptable(s, n, challengerToken, payerToken) && n in s.challenges && n in s.receipts
    requires c == s.challenges[n].(status := ChallengeAccepted, resolution := c.resolution, resolvedAt := c.resolvedAt)
    requires r == s.receipts[n].(status := r.status, finalizedAt := r.finalizedAt, economicsSettled := true)
    requires r.status == Rejected || r.status == Slashed
    ensures Inv(WithChallenge(AcceptEffect(s, n, challengerToken, payerToken), n, c, r))
  {
    AcceptKeepsVaults(s, n, challengerToken, payerToken);
    AcceptMovesVaults(s, n, challengerToken, payerToken);
    AcceptKeepsRecords(s, n, challengerToken, payerToken);
    AcceptKeepsBooks(s, n, challengerToken, payerToken);
    AcceptKeepsCoupling(s, n, challengerToken, payerToken, c, r);
    var s1 := AcceptEffect(s, n, challengerToken, payerToken);
    ReceiptsAreApart(s1, WithChallenge(s1, n, c, r));
  }

  /** An accepted ruling is an acceptance in the masterpool with challenge and receipt closed to match. */
  lemma RulingIsAcceptance(s: State, n: Nonce, code: u8, challengerToken: TokenId, payerToken: TokenId)
    requires Inv(s) && ResolveGuard(s, n, code, challengerToken, payerToken).Ok?
             && ResolutionOf(code).value != RejectedCode
    ensures Acceptable(s, n, challengerToken, payerToken) && n in s.challenges && n in s.receipts
    ensures var s' := ResolveEffect(s, n, code, challengerToken, payerToken);
            && n in s'.challenges && n in s'.receipts
            && var c, r := s'.challenges[n], s'.receipts[n];
               && s' == WithChallenge(AcceptEffect(s, n, challengerToken, payerToken), n, c, r)
               && c == s.challenges[n].(status := ChallengeAccepted, resolution := c.resolution,
                                        resolvedAt := c.resolvedAt)
               && r == s.receipts[n].(status := r.status, finalizedAt := r.finalizedAt, economicsSettled := true)
               && (r.status == Rejected || r.status == Slashed)
  {
    OpenChallengeIsResolvable(s, n);
  }

  lemma AcceptedRulingKeeps(s: State, n: Nonce, code: u8, challengerToken: TokenId, payerToken: TokenId)
    requires Inv(s) && ResolveGuard(s, n, code, challengerToken, payerToken).Ok?
             && ResolutionOf(code).value != RejectedCode
    ensures Inv(ResolveEffect(s, n, code, challengerToken, payerToken))
  {
    var s' := ResolveEffect(s, n, code, challengerToken, payerToken);
    RulingIsAcceptance(s, n, code, challengerToken, payerToken);
    AcceptanceKeeps(s, n, challengerToken, payerToken, s'.challenges[n], s'.receipts[n]);
  }

  lemma ResolveKeeps(s: State, n: Nonce, code: u8, challengerToken: TokenId, payerToken: TokenId)
    requires Inv(s) && ResolveGuard(s, n, code, challengerToken, payerToken).Ok?
    ensures Inv(ResolveEffect(s, n, code, challengerToken, payerToken))
  {
    if ResolutionOf(code).value == RejectedCode {
      RejectionKeeps(s, n);
    } else {
      AcceptedRulingKeeps(s, n, code, challengerToken, payerToken);
    }
  }

  lemma TimeoutKeeps(s: State, n: Nonce)
    requires Inv(s) && TimeoutGuard(s, n).Ok?
    ensures Inv(AfterRejection(s, n))
  {
    RejectionKeeps(s, n);
  }
}

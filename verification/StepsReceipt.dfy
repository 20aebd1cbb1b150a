/** Submitting a receipt keeps the invariant. */
module StepsReceipt {
  import opened Outcomes
  import opened Widths
  import opened Sums
  import opened TokenLedger
  import opened Params
  import opened Preimage
  import opened Accounts
  import opened Masterpool
  import opened Attestation
  import opened Invariant

  // ---- recording -----------------------------------------------------------

  /** What recording needs of a settlement and of the accounts, whatever the shares are computed from. */
  ghost predicate Recordable(s: State, n: Nonce, c: Charge, st: Settlement) {
    && n !in s.settlements && n !in s.receipts
    && c.provider in s.providers && s.providers[c.provider].status == Active && ProviderKey(c.provider) in s.rewards
    && st.payer == c.payer && st.provider == c.provider && st.status == Recorded
    && st.userClawReleased == 0 && st.providerClawReleased == 0
    && 0 < st.usdcTotalPaid <= MAX_RECEIPT_USDC_ATOMIC
    && st.usdcToProvider + st.usdcToTreasury == st.usdcTotalPaid && st.usdcToProvider >= 0 && st.usdcToTreasury >= 0
    && FitsU64(st.clawToUser) && FitsU64(st.clawToProviderTotal)
    && st.clawProviderDebtOffset == DebtOffset(s.providers[c.provider].clawNetPosition, st.clawToProviderTotal)
    && st.clawProviderDebtOffset + st.clawToProviderLocked == st.clawToProviderTotal
    && 0 < st.lockDays < 0x1_0000
    && FitsU64(RewardOrFresh(s, UserKey(c.payer)).pendingClaw + st.clawToUser)
    && FitsU64(s.rewards[ProviderKey(c.provider)].pendingClaw + st.clawToProviderLocked)
    && FitsI128(s.providers[c.provider].clawNetPosition + st.clawToProviderTotal)
    && FitsU64(s.providers[c.provider].unsettledReceipts + 1)
    && c.payerToken in s.ledger.accounts && TreasuryVault in s.ledger.accounts && EscrowVault in s.ledger.accounts
    && var token := s.ledger.accounts[c.payerToken];
       && token.owner == c.payer && token.mint == Usdc && token.delegate == Some(c.delegate)
       && token.allowance >= st.usdcTotalPaid && token.amount >= st.usdcTotalPaid
       && (st.usdcToProvider > 0 || token.allowance > st.usdcTotalPaid || c.delegate == c.payer)
  }

  lemma GuardMakesRecordable(s: State, n: Nonce, c: Charge)
    requires Inv(s) && n !in s.receipts && RecordGuard(s, n, c).Ok?
    ensures Recordable(s, n, c, NewSettlement(s, c))
  {
    AcceptedParamsAreSafe(s.config.params, c.amount);
  }

  /** The two charges of a receipt go through, to the unit. */
  lemma ChargesGoThrough(s: State, n: Nonce, c: Charge, st: Settlement)
    requires LedgerOk(s) && Recordable(s, n, c, st)
    ensures c.payerToken.Held? && c.payer != s.poolAuthority
    ensures var l1 := Move(s.ledger, c.payerToken, TreasuryVault, c.delegate, st.usdcToTreasury);
            var l2 := Move(l1, c.payerToken, EscrowVault, c.delegate, st.usdcToProvider);
            && Transfer(s.ledger, c.payerToken, Usdc, TreasuryVault, c.delegate, st.usdcToTreasury) == Ok(l1)
            && Transfer(l1, c.payerToken, Usdc, EscrowVault, c.delegate, st.usdcToProvider) == Ok(l2)
            && Conserved(l2) && Custody(l2, s.poolAuthority)
  {
    HolderPays(s.ledger, s.poolAuthority, c.payerToken, Usdc, TreasuryVault, c.delegate, st.usdcToTreasury);
    var l1 := Move(s.ledger, c.payerToken, TreasuryVault, c.delegate, st.usdcToTreasury);
    HolderPays(l1, s.poolAuthority, c.payerToken, Usdc, EscrowVault, c.delegate, st.usdcToProvider);
  }

  lemma RecordMovesVaults(s: State, n: Nonce, c: Charge, st: Settlement)
    requires LedgerOk(s) && Recordable(s, n, c, st)
    ensures var s' := RecordWith(s, n, c, st);
            var a := AmountsOf(s);
            && LedgerOk(s')
            && s'.ledger.clawMintAuthority == s.ledger.clawMintAuthority
            && AmountsOf(s')
                 == a.(escrow := a.escrow + st.usdcToProvider, treasury := a.treasury + st.usdcToTreasury)
  {
    ChargesGoThrough(s, n, c, st);
  }

  lemma RecordMovesTotals(s: State, n: Nonce, c: Charge, st: Settlement)
    requires Recordable(s, n, c, st)
    ensures var s' := RecordWith(s, n, c, st);
            var t := TotalsOf(s);
            TotalsOf(s')
              == t.(inEscrow := t.inEscrow + st.usdcToProvider, toTreasury := t.toTreasury + st.usdcToTreasury,
                               pendingUsdc := t.pendingUsdc + st.usdcToProvider)
  {
    var s' := RecordWith(s, n, c, st);
    SumPut(s.settlements, n, st, InEscrow());
    SumPut(s.settlements, n, st, ToTreasury());
    ProviderPut(s.providers, c.provider, s'.providers[c.provider]);
    TwoRewardsPut(s.rewards, UserKey(c.payer), ProviderKey(c.provider), s'.rewards);
  }

  lemma RecordKeepsVaults(s: State, n: Nonce, c: Charge, st: Settlement)
    requires LedgerOk(s) && VaultsOk(s) && Recordable(s, n, c, st)
    ensures LedgerOk(RecordWith(s, n, c, st)) && VaultsOk(RecordWith(s, n, c, st))
  {
    RecordMovesVaults(s, n, c, st);
    RecordMovesTotals(s, n, c, st);
  }

  lemma RecordKeepsSettlements(s: State, n: Nonce, c: Charge, st: Settlement)
    requires RecordsOk(s) && LedgerOk(s) && Recordable(s, n, c, st)
    ensures forall m :: SettlementOk(RecordWith(s, n, c, st), m) && BondOk(RecordWith(s, n, c, st), m)
    ensures forall m, kind :: VestingOk(RecordWith(s, n, c, st), m, kind)
  {
    var s' := RecordWith(s, n, c, st);
    ChargesGoThrough(s, n, c, st);
    forall m ensures SettlementOk(s', m) && BondOk(s', m) {
      assert SettlementOk(s, m) && BondOk(s, m);
    }
    forall m, kind ensures VestingOk(s', m, kind) {
      assert VestingOk(s, m, kind);
    }
  }

  /** A provider's pending USDC cannot overflow: all of it lies in one vault. */
  lemma PendingUsdcFits(s: State, n: Nonce, c: Charge, st: Settlement)
    requires RecordsOk(s) && LedgerOk(s) && VaultsOk(s) && Recordable(s, n, c, st)
    ensures FitsU64(RecordWith(s, n, c, st).providers[c.provider].pendingUsdc)
  {
    var s' := RecordWith(s, n, c, st);
    RecordKeepsVaults(s, n, c, st);
    forall p | p in s'.providers ensures s'.providers[p].pendingUsdc >= 0 {
      assert ProviderOk(s, p);
    }
    SumAtLeast(s'.providers, c.provider, PendingUsdcOf());
    AmountFits(s'.ledger, EscrowVault);
  }

  lemma RecordKeepsAccounts(s: State, n: Nonce, c: Charge, st: Settlement)
    requires RecordsOk(s) && LedgerOk(s) && VaultsOk(s) && Recordable(s, n, c, st)
    ensures forall p :: ProviderOk(RecordWith(s, n, c, st), p)
    ensures forall k :: RewardOk(RecordWith(s, n, c, st), k)
  {
    var s' := RecordWith(s, n, c, st);
    PendingUsdcFits(s, n, c, st);
    forall p ensures ProviderOk(s', p) {
      assert ProviderOk(s, p);
    }
    forall k ensures RewardOk(s', k) {
      assert RewardOk(s, k);
    }
  }

  /** Of what a provider earned, the withheld part is only a part. */
  lemma EarnedCoversWithheld(s: State, p: Pubkey)
    requires RecordsOk(s)
    ensures Sum(s.settlements, WithheldFrom(p)) <= Sum(s.settlements, EarnedBy(p))
  {
    forall n | n in s.settlements
      ensures 0 <= WithheldFrom(p)(s.settlements[n]) <= EarnedBy(p)(s.settlements[n])
    {
      assert SettlementOk(s, n);
    }
    SumCompare(s.settlements, s.settlements, WithheldFrom(p), EarnedBy(p));
  }

  lemma RecordKeepsProviderBalances(s: State, n: Nonce, c: Charge, st: Settlement, p: Pubkey)
    requires RecordsOk(s) && ProviderBalances(s, p) && DebtFair(s, p) && Recordable(s, n, c, st)
    ensures ProviderBalances(RecordWith(s, n, c, st), p) && DebtFair(RecordWith(s, n, c, st), p)
  {
    SumPut(s.settlements, n, st, EscrowOf(p));
    SumPut(s.settlements, n, st, UnsettledOf(p));
    SumPut(s.settlements, n, st, EarnedBy(p));
    SumPut(s.settlements, n, st, WithheldFrom(p));
    EarnedCoversWithheld(s, p);
  }

  lemma RecordKeepsRewardBalances(s: State, n: Nonce, c: Charge, st: Settlement, k: RewardKey)
    requires RewardBalances(s, k) && Recordable(s, n, c, st)
    ensures RewardBalances(RecordWith(s, n, c, st), k)
  {
    SumPut(s.settlements, n, st, PendingFor(k));
    SumPut(s.settlements, n, st, LockedFor(k));
    SumPut(s.settlements, n, st, ReleasedFor(k));
  }

  lemma RecordKeepsBooks(s: State, n: Nonce, c: Charge, st: Settlement)
    requires RecordsOk(s) && BooksOk(s) && Recordable(s, n, c, st)
    ensures BooksOk(RecordWith(s, n, c, st))
  {
    var s' := RecordWith(s, n, c, st);
    forall p ensures ProviderBalances(s', p) && DebtFair(s', p) {
      assert ProviderBalances(s, p) && DebtFair(s, p);
      RecordKeepsProviderBalances(s, n, c, st, p);
    }
    forall k ensures RewardBalances(s', k) {
      assert RewardBalances(s, k);
      RecordKeepsRewardBalances(s, n, c, st, k);
    }
  }

  // ---- submitting ----------------------------------------------------------

  function WithReceipt(s: State, n: Nonce, r: Receipt): State {
    s.(receipts := s.receipts[n := r])
  }

  ghost predicate Admissible(s: State, n: Nonce, st: Settlement, r: Receipt) {
    && r.payer == st.payer && r.provider == st.provider && r.status == Submitted && !r.economicsSettled
    && VouchedFor(s.sha256, s.config.usdcMint, n, r.receiptHash, st.payer, st.provider, st.usdcTotalPaid)
  }

  lemma SubmitKeepsCoupling(s: State, n: Nonce, c: Charge, st: Settlement, r: Receipt)
    requires RecordsOk(s) && CoupledOk(s) && Recordable(s, n, c, st) && Admissible(s, n, st, r)
    ensures CoupledOk(WithReceipt(RecordWith(s, n, c, st), n, r))
  {
    var s' := WithReceipt(RecordWith(s, n, c, st), n, r);
    forall m ensures ReceiptOk(s', m) {
      assert ReceiptOk(s, m) && BondOk(s, m) && ChallengeOk(s, m);
    }
    forall m ensures ChallengeOk(s', m) {
      assert ChallengeOk(s, m);
    }
    forall m ensures OutlivingOk(s', m) {
      assert OutlivingOk(s, m);
    }
    forall m ensures HashOk(s', m) {
      assert HashOk(s, m) && ReceiptOk(s, m);
    }
  }

  /** Only receipts differ: everything else is the same predicate of the same accounts. */
  lemma ReceiptsAreApart(s: State, s': State)
    requires s' == s.(receipts := s'.receipts, challenges := s'.challenges)
    requires Custody(s.ledger, s.poolAuthority)
    ensures RecordsOk(s) ==> RecordsOk(s')
    ensures BooksOk(s) ==> BooksOk(s')
    ensures VaultsOk(s) ==> VaultsOk(s')
  {
    if RecordsOk(s) {
      forall m ensures SettlementOk(s', m) {
        assert SettlementOk(s, m);
      }
      forall m, kind ensures VestingOk(s', m, kind) {
        assert VestingOk(s, m, kind);
      }
      forall m ensures BondOk(s', m) {
        assert BondOk(s, m);
      }
      forall p ensures ProviderOk(s', p) {
        assert ProviderOk(s, p);
      }
      forall k ensures RewardOk(s', k) {
        assert RewardOk(s, k);
      }
    }
    if BooksOk(s) {
      forall p ensures ProviderBalances(s', p) && DebtFair(s', p) {
        assert ProviderBalances(s, p) && DebtFair(s, p);
      }
      forall k ensures RewardBalances(s', k) {
        assert RewardBalances(s, k);
      }
    }
  }

  lemma SubmitGuardMeans(s: State, a: Submission)
    requires SubmitGuard(s, a).Ok?
    ensures Nonce(a.requestNonceHash) !in s.receipts && a.signerKey in s.signers && a.providerAccount in s.providers
    ensures s.sha256(PreimageOf(SubmittedInputs(s, a, s.signers[a.signerKey].providerWallet))) == a.receiptHash
    ensures s.providers[a.providerAccount].wallet == s.signers[a.signerKey].providerWallet
    ensures RecordGuard(s, Nonce(a.requestNonceHash), SubmittedCharge(a)).Ok?
  {
  }

  lemma HashIsVouchedFor(s: State, a: Submission)
    requires a.signerKey in s.signers
    requires s.sha256(PreimageOf(SubmittedInputs(s, a, s.signers[a.signerKey].providerWallet))) == a.receiptHash
    ensures VouchedFor(s.sha256, s.config.usdcMint, Nonce(a.requestNonceHash), a.receiptHash, a.payer,
                       s.signers[a.signerKey].providerWallet, a.chargeAtomic)
  {
    var x := SubmittedInputs(s, a, s.signers[a.signerKey].providerWallet);
    assert s.sha256(PreimageOf(x)) == a.receiptHash;
  }

  lemma SubmissionIsAdmissible(s: State, a: Submission)
    requires Inv(s) && SubmitGuard(s, a).Ok?
    ensures var n, c := Nonce(a.requestNonceHash), SubmittedCharge(a);
            && c.provider in s.providers
            && n in SubmitEffect(s, a).receipts
            && var st, r := NewSettlement(s, c), SubmitEffect(s, a).receipts[n];
               && Recordable(s, n, c, st) && Admissible(s, n, st, r)
               && SubmitEffect(s, a) == WithReceipt(RecordWith(s, n, c, st), n, r)
  {
    var n, c := Nonce(a.requestNonceHash), SubmittedCharge(a);
    SubmitGuardMeans(s, a);
    GuardMakesRecordable(s, n, c);
    assert ProviderOk(s, a.providerAccount);
    HashIsVouchedFor(s, a);
  }

  lemma RecordKeepsAll(s: State, n: Nonce, c: Charge, st: Settlement)
    requires Inv(s) && Recordable(s, n, c, st)
    ensures var s' := RecordWith(s, n, c, st);
            && LedgerOk(s') && RecordsOk(s') && BooksOk(s') && VaultsOk(s')
            && s'.ledger.clawMintAuthority == s.ledger.clawMintAuthority
  {
    RecordKeepsVaults(s, n, c, st);
    RecordMovesVaults(s, n, c, st);
    RecordKeepsSettlements(s, n, c, st);
    RecordKeepsAccounts(s, n, c, st);
    RecordKeepsBooks(s, n, c, st);
  }

  lemma AdmissibleKeeps(s: State, n: Nonce, c: Charge, st: Settlement, r: Receipt)
    requires Inv(s) && Recordable(s, n, c, st) && Admissible(s, n, st, r)
    ensures Inv(WithReceipt(RecordWith(s, n, c, st), n, r))
  {
    RecordKeepsAll(s, n, c, st);
    SubmitKeepsCoupling(s, n, c, st, r);
    ReceiptsAreApart(RecordWith(s, n, c, st), WithReceipt(RecordWith(s, n, c, st), n, r));
  }

  lemma SubmitKeeps(s: State, a: Submission)
    requires Inv(s) && SubmitGuard(s, a).Ok?
    ensures Inv(SubmitEffect(s, a))
  {
    SubmissionIsAdmissible(s, a);
    var n, c := Nonce(a.requestNonceHash), SubmittedCharge(a);
    AdmissibleKeeps(s, n, c, NewSettlement(s, c), SubmitEffect(s, a).receipts[n]);
  }
}

/** What the invariant says about the accounts one instruction touches: enough was set aside for it. */
module Facts {
  import opened Widths
  import opened Sums
  import opened TokenLedger
  import opened Vesting
  import opened Accounts
  import opened Masterpool
  import opened Invariant

  lemma AmountsNonNegative(s: State)
    requires RecordsOk(s)
    ensures forall m :: m in s.settlements ==>
              && s.settlements[m].usdcToProvider >= 0 && s.settlements[m].usdcToTreasury >= 0
              && s.settlements[m].clawToUser >= 0
              && s.settlements[m].clawToProviderLocked >= 0 && s.settlements[m].clawProviderDebtOffset >= 0
    ensures forall m :: m in s.bonds ==>
            s.bonds[m].bondAmount >= 0 && s.bonds[m].burnAmount >= 0 && s.bonds[m].slashAmount >= 0
  {
    forall m | m in s.settlements
      ensures && s.settlements[m].usdcToProvider >= 0 && s.settlements[m].usdcToTreasury >= 0
              && s.settlements[m].clawToUser >= 0
              && s.settlements[m].clawToProviderLocked >= 0 && s.settlements[m].clawProviderDebtOffset >= 0
    {
      assert SettlementOk(s, m);
    }
    forall m | m in s.bonds
      ensures s.bonds[m].bondAmount >= 0 && s.bonds[m].burnAmount >= 0 && s.bonds[m].slashAmount >= 0
    {
      assert BondOk(s, m);
    }
  }

  /** For a recorded settlement every subtraction that settling or reverting it makes is covered, and so is the payment
      out of escrow. */
  lemma RecordedIsCovered(s: State, n: Nonce)
    requires Inv(s) && n in s.settlements && s.settlements[n].status == Recorded
    ensures SettlementAccounts(s, n)
    ensures var st := s.settlements[n];
            && s.rewards[UserKey(st.payer)].pendingClaw >= st.clawToUser
            && s.rewards[ProviderKey(st.provider)].pendingClaw >= st.clawToProviderLocked
            && s.providers[st.provider].pendingUsdc >= st.usdcToProvider
            && s.providers[st.provider].unsettledReceipts >= 1
            && s.providers[st.provider].status == Active
            && s.ledger.accounts[EscrowVault].amount >= st.usdcToProvider
  {
    var st := s.settlements[n];
    assert SettlementOk(s, n);
    assert ProviderOk(s, st.provider);
    AmountsNonNegative(s);
    assert RewardBalances(s, UserKey(st.payer)) && RewardBalances(s, ProviderKey(st.provider));
    assert ProviderBalances(s, st.provider);
    SumAtLeast(s.settlements, n, PendingFor(UserKey(st.payer)));
    SumAtLeast(s.settlements, n, PendingFor(ProviderKey(st.provider)));
    SumAtLeast(s.settlements, n, EscrowOf(st.provider));
    SumAtLeast(s.settlements, n, UnsettledOf(st.provider));
    SumAtLeast(s.settlements, n, InEscrow());
  }

  /** A locked bond belongs to a challenged receipt, and its amount is in the bond vault. */
  lemma LockedIsCovered(s: State, n: Nonce)
    requires Inv(s) && n in s.bonds && s.bonds[n].status == Locked
    ensures BondAccounts(s, n)
    ensures s.settlements[n].status == Recorded
    ensures s.providers[s.settlements[n].provider].unresolvedChallenges >= 1
    ensures s.ledger.accounts[BondVault].amount >= s.bonds[n].bondAmount
  {
    assert BondOk(s, n);
    assert ReceiptOk(s, n) && OutlivingOk(s, n);
    RecordedIsCovered(s, n);
    assert ProviderBalances(s, s.settlements[n].provider);
    AmountsNonNegative(s);
    SumAtLeast(s.bonds, n, UnresolvedOf(s.settlements[n].provider));
    SumAtLeast(s.bonds, n, LockedBond());
  }

  lemma ReleasedAtMostTotal(s: State, m: Nonce, kind: RewardKind)
    requires Inv(s) && m in s.settlements
    ensures 0 <= TargetReleased(s.settlements[m], kind) <= TargetTotal(s.settlements[m], kind) <= U64_MAX
    ensures s.settlements[m].status != FinalizedSettled ==> TargetReleased(s.settlements[m], kind) == 0
    ensures 0 < s.settlements[m].lockDays < 0x1_0000
  {
    var st := s.settlements[m];
    assert SettlementOk(s, m) && VestingOk(s, m, kind);
    VestedGrows(TargetTotal(st, kind), st.lockStartedAt, s.now, s.now, st.lockDays);
  }

  /** What a release may still take is still locked, however the owner's other settlements were released. */
  lemma RestIsLocked(s: State, n: Nonce, kind: RewardKind)
    requires Inv(s) && n in s.settlements && s.settlements[n].status == FinalizedSettled
    ensures var st := s.settlements[n];
            var key := RewardKey(kind, TargetOwner(st, kind));
            && key in s.rewards
            && s.rewards[key].lockedClaw >= TargetTotal(st, kind) - TargetReleased(st, kind)
  {
    var st := s.settlements[n];
    var key := RewardKey(kind, TargetOwner(st, kind));
    assert SettlementOk(s, n);
    assert RewardBalances(s, key);
    forall m | m in s.settlements ensures LockedFor(key)(s.settlements[m]) >= 0 {
      ReleasedAtMostTotal(s, m, key.kind);
    }
    SumAtLeast(s.settlements, n, LockedFor(key));
  }

  /** A provider never has more open challenges than open receipts; each open challenge sits on one of them. */
  lemma ChallengesWithinReceipts(s: State, p: Pubkey)
    requires Inv(s)
    ensures ProviderAt(s, p).unresolvedChallenges <= ProviderAt(s, p).unsettledReceipts
  {
    assert ProviderBalances(s, p);
    forall n | n in s.bonds
      ensures n in s.settlements && UnresolvedOf(p)(s.bonds[n]) <= UnsettledOf(p)(s.settlements[n]) {
      assert BondOk(s, n);
      if s.bonds[n].status == Locked {
        assert ReceiptOk(s, n) && OutlivingOk(s, n);
      }
    }
    SumCompare(s.bonds, s.settlements, UnresolvedOf(p), UnsettledOf(p));
  }

  /** Posting one more bond, on a recorded settlement that has none, keeps the count of open challenges in range. */
  lemma RoomForOneMoreChallenge(s: State, n: Nonce)
    requires Inv(s) && n in s.settlements && s.settlements[n].status == Recorded && n !in s.bonds
    ensures s.settlements[n].provider in s.providers
    ensures s.providers[s.settlements[n].provider].unresolvedChallenges
              < s.providers[s.settlements[n].provider].unsettledReceipts <= U64_MAX
  {
    var p := s.settlements[n].provider;
    assert SettlementOk(s, n);
    assert ProviderOk(s, p);
    assert ProviderBalances(s, p);
    var b := Bond(p, p, p, 0, 0, 0, 0, 0, 0, Locked);
    BondPut(s.bonds, n, b);
    forall m | m in s.bonds[n := b]
      ensures m in s.settlements && UnresolvedOf(p)(s.bonds[n := b][m]) <= UnsettledOf(p)(s.settlements[m])
    {
      if m != n {
        assert BondOk(s, m);
        if s.bonds[m].status == Locked {
          assert ReceiptOk(s, m) && OutlivingOk(s, m);
        }
      }
    }
    SumCompare(s.bonds[n := b], s.settlements, UnresolvedOf(p), UnsettledOf(p));
  }

  /** A provider with no unsettled receipt has no recorded settlement. */
  lemma NothingUnsettled(s: State, p: Pubkey, n: Nonce)
    requires Inv(s) && p in s.providers && s.providers[p].unsettledReceipts == 0
    requires n in s.settlements && s.settlements[n].provider == p
    ensures s.settlements[n].status != Recorded
  {
    assert ProviderBalances(s, p);
    if s.settlements[n].status == Recorded {
      SumAtLeast(s.settlements, n, UnsettledOf(p));
    }
  }
}

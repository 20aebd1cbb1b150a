/** The money: who is owed what, what the vaults hold, and what can never be created. */
module Solvency {
  import opened Outcomes
  import opened Widths
  import opened Sums
  import opened TokenLedger
  import opened Accounts
  import opened Masterpool
  import opened Attestation
  import opened Invariant
  import opened Facts
  import opened StepsChallenge
  import opened Runs
  import opened Lifecycle

  // ---- provider debt -------------------------------------------------------

  ghost function PendingOrLockedFor(k: RewardKey): Settlement -> int {
    (st: Settlement) => PendingFor(k)(st) + LockedFor(k)(st)
  }

  ghost function StandingFor(k: RewardKey): Settlement -> int {
    (st: Settlement) => PendingOrLockedFor(k)(st) + ReleasedFor(k)(st)
  }

  lemma OneStandingClaim(st: Settlement, p: Pubkey)
    requires st.clawProviderDebtOffset + st.clawToProviderLocked == st.clawToProviderTotal
    requires st.status != FinalizedSettled ==> st.providerClawReleased == 0
    ensures StandingFor(ProviderKey(p))(st) + WithheldFrom(p)(st) == EarnedBy(p)(st)
  {
    var k := ProviderKey(p);
    assert StandingFor(k)(st) == PendingOrLockedFor(k)(st) + ReleasedFor(k)(st);
    assert PendingOrLockedFor(k)(st) == PendingFor(k)(st) + LockedFor(k)(st);
    assert TargetOwner(st, k.kind) == st.provider && TargetReleased(st, k.kind) == st.providerClawReleased;
  }

  /** Pending, locked and released claims of a provider together, and what was withheld, are what it earned. */
  lemma ClaimsAndWithheldAreEarned(s: State, p: Pubkey)
    requires Inv(s)
    ensures var k := ProviderKey(p);
            Sum(s.settlements, PendingFor(k)) + Sum(s.settlements, LockedFor(k)) + Sum(s.settlements, ReleasedFor(k))
            + Sum(s.settlements, WithheldFrom(p)) == Sum(s.settlements, EarnedBy(p))
  {
    var k := ProviderKey(p);
    forall n | n in s.settlements
      ensures StandingFor(k)(s.settlements[n]) + WithheldFrom(p)(s.settlements[n]) == EarnedBy(p)(s.settlements[n])
    {
      assert SettlementOk(s, n);
      ReleasedAtMostTotal(s, n, ProviderReward);
      OneStandingClaim(s.settlements[n], p);
    }
    SumCombine(s.settlements, PendingFor(k), LockedFor(k), PendingOrLockedFor(k));
    SumCombine(s.settlements, PendingOrLockedFor(k), ReleasedFor(k), StandingFor(k));
    SumCombine(s.settlements, StandingFor(k), WithheldFrom(p), EarnedBy(p));
  }

  /** Debt is collected at most once: a provider's rewards are its net position plus what was slashed and not yet
      withheld, so they never fall short of a positive net position, over any interleaving. */
  lemma DebtIsFair(s: State, p: Pubkey)
    requires Inv(s)
    ensures var r, net := RewardOrFresh(s, ProviderKey(p)), ProviderAt(s, p).clawNetPosition;
            && r.pendingClaw + r.lockedClaw + r.releasedClaw
                 == net + Sum(s.bonds, SlashedFrom(p)) - Sum(s.settlements, WithheldFrom(p))
            && Sum(s.settlements, WithheldFrom(p)) <= Sum(s.bonds, SlashedFrom(p))
            && r.pendingClaw + r.lockedClaw + r.releasedClaw >= Max(0, net)
  {
    var k := ProviderKey(p);
    assert ProviderBalances(s, p) && DebtFair(s, p) && RewardBalances(s, k);
    assert RewardOk(s, k);
    ClaimsAndWithheldAreEarned(s, p);
  }

  /** The net position in closed form: what stands earned, less what was slashed. */
  lemma NetPositionClosedForm(s: State, p: Pubkey)
    requires Inv(s) && p in s.providers
    ensures s.providers[p].clawNetPosition == Sum(s.settlements, EarnedBy(p)) - Sum(s.bonds, SlashedFrom(p))
  {
    assert ProviderBalances(s, p);
  }

  /** Every total of a reward account is a sum over its owner's settlements, and no more is claimed than released. */
  lemma RewardsAgreeWithSettlements(s: State, k: RewardKey)
    requires Inv(s) && k in s.rewards
    ensures s.rewards[k].pendingClaw == Sum(s.settlements, PendingFor(k))
    ensures s.rewards[k].lockedClaw == Sum(s.settlements, LockedFor(k))
    ensures s.rewards[k].releasedClaw == Sum(s.settlements, ReleasedFor(k))
    ensures s.rewards[k].claimedClaw <= s.rewards[k].releasedClaw
  {
    assert RewardBalances(s, k) && RewardOk(s, k);
  }

  // ---- how far a net position can fall -------------------------------------

  ghost function ReturnedOf(p: Pubkey): Bond -> int {
    (b: Bond) => if b.provider == p && b.status == Returned then 1 else 0
  }

  /** How many challenges were accepted against a provider. */
  ghost function Returns(s: State, p: Pubkey): int {
    Sum(s.bonds, ReturnedOf(p))
  }

  const TWO_TO_THE_63: int := 0x8000_0000_0000_0000

  lemma SlashesAreBounded(s: State, p: Pubkey)
    requires RecordsOk(s)
    ensures 0 <= Sum(s.bonds, SlashedFrom(p)) <= U64_MAX * Returns(s, p)
  {
    forall n | n in s.bonds
      ensures 0 <= SlashedFrom(p)(s.bonds[n]) <= U64_MAX * ReturnedOf(p)(s.bonds[n])
    {
      assert BondOk(s, n);
    }
    SumNonNegative(s.bonds, SlashedFrom(p));
    SumAtMostTimes(s.bonds, SlashedFrom(p), ReturnedOf(p), U64_MAX);
  }

  /** A net position is above its floor: one largest slash for each challenge accepted. */
  lemma NetPositionFloor(s: State, p: Pubkey)
    requires Inv(s)
    ensures ProviderAt(s, p).clawNetPosition >= -U64_MAX * Returns(s, p)
  {
    SlashesAreBounded(s, p);
    assert ProviderBalances(s, p);
    forall n | n in s.settlements ensures EarnedBy(p)(s.settlements[n]) >= 0 {
      assert SettlementOk(s, n);
    }
    SumNonNegative(s.settlements, EarnedBy(p));
  }

  /** Neither subtraction that a revert makes from the net position overflows, unless 2^63 challenges were accepted
      against the provider before. */
  lemma RevertFits(s: State, n: Nonce)
    requires Inv(s) && Resolvable(s, n) && Returns(s, s.settlements[n].provider) < TWO_TO_THE_63
    ensures var st, b := s.settlements[n], s.bonds[n];
            var net := s.providers[st.provider].clawNetPosition;
            FitsI128(net - st.clawToProviderTotal) && FitsI128(net - st.clawToProviderTotal - b.slashAmount)
  {
    var st := s.settlements[n];
    var p := st.provider;
    assert SettlementOk(s, n) && BondOk(s, n) && ProviderOk(s, p) && ProviderBalances(s, p);
    SlashesAreBounded(s, p);
    forall m | m in s.settlements ensures EarnedBy(p)(s.settlements[m]) >= 0 {
      assert SettlementOk(s, m);
    }
    SumAtLeast(s.settlements, n, EarnedBy(p));
    assert s.providers[p].clawNetPosition - st.clawToProviderTotal >= -U64_MAX * Returns(s, p);
  }

  lemma EconomicsAddOneBond(s: State, a: Action)
    requires Guard(s, a).Ok? && (a.Submit? || a.OpenChallenge? || a.TimeoutChallenge? || a.FinalizeReceipt?)
    ensures exists n :: Effect(s, a).bonds.Keys <= s.bonds.Keys + {n}
  {
    var n := if a.Submit? then Nonce(a.submission.requestNonceHash) else a.nonce;
    assert Effect(s, a).bonds.Keys <= s.bonds.Keys + {n};
  }

  lemma ResolvingAddsNoBond(s: State, a: Action)
    requires Guard(s, a).Ok? && a.ResolveChallenge?
    ensures Effect(s, a).bonds.Keys <= s.bonds.Keys + {a.nonce}
  {
  }

  lemma RestAddsNoBond(s: State, a: Action)
    requires Guard(s, a).Ok? && !IsEconomic(a)
    ensures Effect(s, a).bonds == s.bonds
  {
    if a.RegisterProvider? || a.ExitProvider? || a.ClaimReward? || a.MintGenesis? || a.FundFaucet? || a.ClaimFaucet? {
      MoneyKeepsRecords(s, a);
    }
  }

  lemma {:induction false} SubsetIsSmaller(a: set<Nonce>, b: set<Nonce>)
    requires a <= b
    ensures |a| <= |b|
  {
    if a != {} {
      var n :| n in a;
      SubsetIsSmaller(a - {n}, b - {n});
    }
  }

  lemma OneMoreAtMost(before: set<Nonce>, after: set<Nonce>, n: Nonce)
    requires after <= before + {n}
    ensures |after| <= |before| + 1
  {
    SubsetIsSmaller(after, before + {n});
    assert |before + {n}| <= |before| + 1 by {
      if n in before {
        assert before + {n} == before;
      }
    }
  }

  lemma StepAddsOneBond(s: State, a: Action)
    ensures |Apply(s, a).bonds.Keys| <= |s.bonds.Keys| + 1
  {
    if Guard(s, a).Ok? {
      if a.ResolveChallenge? {
        ResolvingAddsNoBond(s, a);
        OneMoreAtMost(s.bonds.Keys, Effect(s, a).bonds.Keys, a.nonce);
      } else if IsEconomic(a) {
        EconomicsAddOneBond(s, a);
        var n :| Effect(s, a).bonds.Keys <= s.bonds.Keys + {n};
        OneMoreAtMost(s.bonds.Keys, Effect(s, a).bonds.Keys, n);
      } else {
        RestAddsNoBond(s, a);
      }
    }
  }

  lemma {:induction false} BondsAreSteps(s: State, actions: seq<Action>)
    ensures |Run(s, actions).bonds.Keys| <= |s.bonds.Keys| + |actions|
    decreases |actions|
  {
    if actions != [] {
      StepAddsOneBond(s, actions[0]);
      BondsAreSteps(Apply(s, actions[0]), actions[1..]);
    }
  }

  /** No more challenges are accepted than steps are taken. */
  lemma ReturnsAreSteps(s: State, actions: seq<Action>, p: Pubkey)
    requires Initial(s)
    ensures Returns(Run(s, actions), p) <= |actions|
  {
    var bonds := Run(s, actions).bonds;
    BondsAreSteps(s, actions);
    SumAtMostCount(bonds, ReturnedOf(p));
    assert |bonds| == |bonds.Keys|;
  }

  // ---- vaults --------------------------------------------------------------

  /** The escrow is exactly what providers are still owed, by their accounts and by their settlements. */
  lemma EscrowIsExact(s: State)
    requires Inv(s)
    ensures s.ledger.accounts[EscrowVault].amount
         == Sum(s.providers, PendingUsdcOf()) + Gift(s.history, EscrowVault)
         == Sum(s.settlements, InEscrow()) + Gift(s.history, EscrowVault)
    ensures Gift(s.history, EscrowVault) >= 0
  {
    assert Own(s.ledger, s.history, EscrowVault) == AmountsOf(s).escrow;
  }

  /** After genesis: the reward vault has lost what was claimed, slashed and moved to the faucet, and nothing else; the
      bond vault holds the locked bonds; and CLAW has lost the burned bonds and the burned parts of slashes. */
  lemma ClawInventory(s: State)
    requires Inv(s) && s.config.genesisMinted
    ensures s.ledger.accounts[RewardVault].amount
         == GENESIS_TOTAL_SUPPLY - Sum(s.rewards, ClaimedBy()) - Sum(s.bonds, SlashPaid()) - s.history.faucetFunded
            + Gift(s.history, RewardVault)
    ensures s.ledger.accounts[BondVault].amount == Sum(s.bonds, LockedBond()) + Gift(s.history, BondVault)
    ensures s.ledger.clawSupply == GENESIS_TOTAL_SUPPLY + s.history.outsideSupply - Sum(s.bonds, BurnedFor())
    ensures Sum(s.ledger.accounts, Balance(Claw)) == s.ledger.clawSupply
  {
    var a := AmountsOf(s);
    assert Own(s.ledger, s.history, RewardVault) == a.reward && Own(s.ledger, s.history, BondVault) == a.bond;
    assert Supply(s.ledger, Claw) == s.ledger.clawSupply;
  }

  lemma MovesKeepSupply(s: State, a: Action)
    requires Guard(s, a).Ok? && (a.Submit? || a.OpenChallenge? || a.FinalizeReceipt?)
    ensures Effect(s, a).ledger.clawSupply == s.ledger.clawSupply && Effect(s, a).config == s.config
  {
  }

  lemma RejectionBurns(s: State, n: Nonce)
    requires Inv(s) && RejectGuard(s, n).Ok? && n in s.receipts && n in s.challenges
    ensures AfterRejection(s, n).ledger.clawSupply <= s.ledger.clawSupply && AfterRejection(s, n).config == s.config
  {
    assert BondOk(s, n);
  }

  lemma AcceptanceBurns(s: State, n: Nonce, challengerToken: TokenId, payerToken: TokenId)
    requires BondAccounts(s, n) && challengerToken in s.ledger.accounts && payerToken in s.ledger.accounts
    requires s.bonds[n].burnAmount >= 0
    ensures AcceptLedger(s, n, challengerToken, payerToken).clawSupply <= s.ledger.clawSupply
  {
  }

  lemma ResolutionsBurn(s: State, n: Nonce, code: u8, challengerToken: TokenId, payerToken: TokenId)
    requires Inv(s) && ResolveGuard(s, n, code, challengerToken, payerToken).Ok?
    ensures var s' := ResolveEffect(s, n, code, challengerToken, payerToken);
            s'.ledger.clawSupply <= s.ledger.clawSupply && s'.config == s.config
  {
    assert BondOk(s, n);
    if ResolutionOf(code).value == RejectedCode {
      RejectionBurns(s, n);
    } else {
      AcceptanceBurns(s, n, challengerToken, payerToken);
    }
  }

  lemma EconomicsLowerSupply(s: State, a: Action)
    requires Inv(s) && Guard(s, a).Ok? && IsEconomic(a)
    ensures Effect(s, a).config == s.config && Effect(s, a).ledger.clawSupply <= s.ledger.clawSupply
  {
    if a.ResolveChallenge? {
      ResolutionsBurn(s, a.nonce, a.code, a.challengerToken, a.payerToken);
    } else if a.TimeoutChallenge? {
      RejectionBurns(s, a.nonce);
    } else {
      MovesKeepSupply(s, a);
    }
  }

  lemma RestKeepsSupply(s: State, a: Action)
    requires s.config.genesisMinted && s.ledger.clawMintAuthority == None && Guard(s, a).Ok?
    requires IsSwitch(a) || a.Tick? || a.Outside? || a.CloseReceipt? || a.CloseChallenge?
    ensures Effect(s, a).config.genesisMinted && Effect(s, a).ledger.clawSupply <= s.ledger.clawSupply
  {
  }

  lemma PaymentsKeepSupply(s: State, a: Action)
    requires Guard(s, a).Ok? && s.config.genesisMinted
    requires a.RegisterProvider? || a.ExitProvider? || a.ReleaseReward? || a.ClaimReward? || a.MintGenesis?
             || a.FundFaucet? || a.ClaimFaucet?
    ensures Effect(s, a).ledger.clawSupply == s.ledger.clawSupply && Effect(s, a).config == s.config
  {
  }

  /** CLAW can only become less once the genesis supply is minted. */
  lemma SupplyFalls(s: State, a: Action)
    requires Inv(s) && s.config.genesisMinted
    ensures Apply(s, a).config.genesisMinted
    ensures Apply(s, a).ledger.clawSupply <= s.ledger.clawSupply
  {
    if Guard(s, a).Ok? {
      if IsEconomic(a) {
        EconomicsLowerSupply(s, a);
      } else if a.RegisterProvider? || a.ExitProvider? || a.ReleaseReward? || a.ClaimReward? || a.MintGenesis?
                || a.FundFaucet? || a.ClaimFaucet? {
        PaymentsKeepSupply(s, a);
      } else {
        RestKeepsSupply(s, a);
      }
    }
  }

  lemma {:induction false} SupplyNeverRises(s: State, actions: seq<Action>)
    requires Inv(s) && s.config.genesisMinted
    ensures Run(s, actions).ledger.clawSupply <= s.ledger.clawSupply
    decreases |actions|
  {
    if actions != [] {
      SupplyFalls(s, actions[0]);
      ApplyKeeps(s, actions[0]);
      SupplyNeverRises(Apply(s, actions[0]), actions[1..]);
    }
  }
}

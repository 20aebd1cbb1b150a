/** What holds in every reachable state. */
module Invariant {
  import opened Outcomes
  import opened Widths
  import opened Sums
  import opened TokenLedger
  import opened Params
  import opened Preimage
  import opened Vesting
  import Faucet
  import opened Accounts
  import opened Masterpool

  // ---- what one settlement, bond, provider or reward account contributes ----

  /** Provider share still in escrow. */
  ghost function EscrowOf(p: Pubkey): Settlement -> int {
    (st: Settlement) => if st.provider == p && st.status == Recorded then st.usdcToProvider else 0
  }

  ghost function UnsettledOf(p: Pubkey): Settlement -> int {
    (st: Settlement) => if st.provider == p && st.status == Recorded then 1 else 0
  }

  ghost function EarnedBy(p: Pubkey): Settlement -> int {
    (st: Settlement) => if st.provider == p && st.status != ChallengedReverted then st.clawToProviderTotal else 0
  }

  ghost function WithheldFrom(p: Pubkey): Settlement -> int {
    (st: Settlement) => if st.provider == p && st.status != ChallengedReverted then st.clawProviderDebtOffset else 0
  }

  ghost function PendingFor(k: RewardKey): Settlement -> int {
    (st: Settlement) =>
      if TargetOwner(st, k.kind) == k.owner && st.status == Recorded then TargetTotal(st, k.kind) else 0
  }

  ghost function LockedFor(k: RewardKey): Settlement -> int {
    (st: Settlement) =>
      if TargetOwner(st, k.kind) == k.owner && st.status == FinalizedSettled
      then TargetTotal(st, k.kind) - TargetReleased(st, k.kind) else 0
  }

  ghost function ReleasedFor(k: RewardKey): Settlement -> int {
    (st: Settlement) => if TargetOwner(st, k.kind) == k.owner then TargetReleased(st, k.kind) else 0
  }

  ghost function InEscrow(): Settlement -> int {
    (st: Settlement) => if st.status == Recorded then st.usdcToProvider else 0
  }

  ghost function ToTreasury(): Settlement -> int {
    (st: Settlement) => st.usdcToTreasury
  }

  ghost function UnresolvedOf(p: Pubkey): Bond -> int {
    (b: Bond) => if b.provider == p && b.status == Locked then 1 else 0
  }

  ghost function SlashedFrom(p: Pubkey): Bond -> int {
    (b: Bond) => if b.provider == p && b.status == Returned then b.slashAmount else 0
  }

  ghost function LockedBond(): Bond -> int {
    (b: Bond) => if b.status == Locked then b.bondAmount else 0
  }

  ghost function SlashPaid(): Bond -> int {
    (b: Bond) => if b.status == Returned then b.slashAmount else 0
  }

  ghost function BurnedFor(): Bond -> int {
    (b: Bond) => if b.status == BondBurned then b.bondAmount else if b.status == Returned then b.burnAmount else 0
  }

  ghost function StakeOf(): Provider -> int {
    (p: Provider) => p.stakedUsdc
  }

  ghost function PendingUsdcOf(): Provider -> int {
    (p: Provider) => p.pendingUsdc
  }

  ghost function ClaimedBy(): RewardAccount -> int {
    (r: RewardAccount) => r.claimedClaw
  }

  // ---- records -------------------------------------------------------------
  // Each of these predicates speaks of one key and holds of a key that is not there.

  ghost predicate SettlementOk(s: State, n: Nonce) {
    n in s.settlements ==>
      var st := s.settlements[n];
      && st.provider in s.providers && ProviderKey(st.provider) in s.rewards
      && UserKey(st.payer) in s.rewards && st.payer != s.poolAuthority
      && 0 < st.usdcTotalPaid <= MAX_RECEIPT_USDC_ATOMIC
      && st.usdcToProvider + st.usdcToTreasury == st.usdcTotalPaid && st.usdcToProvider >= 0 && st.usdcToTreasury >= 0
      && FitsU64(st.clawToUser) && FitsU64(st.clawToProviderTotal)
      && st.clawProviderDebtOffset >= 0 && st.clawToProviderLocked >= 0
      && st.clawProviderDebtOffset + st.clawToProviderLocked == st.clawToProviderTotal
      && 0 < st.lockDays < 0x1_0000
  }

  /** Nothing is released before the lock starts, and never more than is vested. */
  ghost predicate VestingOk(s: State, n: Nonce, kind: RewardKind) {
    n in s.settlements ==>
      var st := s.settlements[n];
      && st.lockDays > 0
      && 0 <= TargetReleased(st, kind)
      && TargetReleased(st, kind) <= if st.status == FinalizedSettled
                                     then Vested(TargetTotal(st, kind), st.lockStartedAt, s.now, st.lockDays) else 0
  }

  /** The challenger's part of a slash is its share rounded down, and the rest is burned. */
  ghost predicate SplitAsAgreed(b: Bond) {
    && b.challengerRewardBps >= 0 && b.burnBps >= 0 && b.challengerRewardBps + b.burnBps == 1_000
    && b.challengerRewardAmount == b.slashAmount * b.challengerRewardBps / 1_000
  }

  ghost predicate BondOk(s: State, n: Nonce) {
    n in s.bonds ==>
      var b := s.bonds[n];
      && n in s.settlements && b.provider == s.settlements[n].provider && b.payer == s.settlements[n].payer
      && b.challenger != s.poolAuthority
      && FitsU64(b.bondAmount) && b.challengerRewardAmount >= 0 && b.burnAmount >= 0
      && b.challengerRewardAmount + b.burnAmount == b.slashAmount <= U64_MAX
      && SplitAsAgreed(b)
  }

  ghost predicate ProviderOk(s: State, wallet: Pubkey) {
    wallet in s.providers ==>
      var p := s.providers[wallet];
      && p.wallet == wallet && wallet != s.poolAuthority && ProviderKey(wallet) in s.rewards
      && FitsU64(p.stakedUsdc) && FitsU64(p.pendingUsdc) && FitsI128(p.clawNetPosition)
      && FitsU64(p.unsettledReceipts) && FitsU64(p.unresolvedChallenges)
      && (p.status == Exited ==> p.stakedUsdc == 0 && p.unsettledReceipts == 0 && p.clawNetPosition >= 0)
  }

  ghost predicate RewardOk(s: State, k: RewardKey) {
    k in s.rewards ==>
      var r := s.rewards[k];
      && r.kind == k.kind && r.owner == k.owner
      && (k.kind == ProviderReward ==> k.owner in s.providers)
      && FitsU64(r.pendingClaw) && FitsU64(r.lockedClaw) && FitsU64(r.releasedClaw)
      && 0 <= r.claimedClaw <= r.releasedClaw
  }

  ghost predicate RecordsOk(s: State) {
    && (forall n :: SettlementOk(s, n))
    && (forall n, kind :: VestingOk(s, n, kind))
    && (forall n :: BondOk(s, n))
    && (forall p :: ProviderOk(s, p))
    && (forall k :: RewardOk(s, k))
  }

  // ---- the two programs agree ----------------------------------------------

  /** The settlement, challenge and bond that belong to a live receipt of each status. */
  ghost predicate LifecycleOk(s: State, n: Nonce)
    requires n in s.receipts && n in s.settlements
  {
    var r, st := s.receipts[n], s.settlements[n].status;
    match r.status
    case Submitted => !r.economicsSettled && st == Recorded && n !in s.bonds && n !in s.challenges
    case Challenged =>
      && !r.economicsSettled && st == Recorded
      && n in s.challenges && s.challenges[n].status == Open
      && n in s.bonds && s.bonds[n].status == Locked
    case Finalized =>
      if r.economicsSettled
      then st == FinalizedSettled && (n in s.bonds ==> s.bonds[n].status == BondBurned)
      else st == Recorded && n in s.bonds && s.bonds[n].status == BondBurned
    case _ => r.economicsSettled && st == ChallengedReverted && n in s.bonds && s.bonds[n].status == Returned
  }

  ghost predicate ReceiptOk(s: State, n: Nonce) {
    n in s.receipts ==>
      && n in s.settlements
      && s.receipts[n].payer == s.settlements[n].payer && s.receipts[n].provider == s.settlements[n].provider
      && LifecycleOk(s, n)
  }

  /** The hash the provider's signer vouched for commits to this nonce, payer, provider and charge. */
  ghost predicate VouchedFor(
    sha256: seq<u8> -> Bytes32, usdcMint: Pubkey,
    n: Nonce, receiptHash: Bytes32, payer: Pubkey, provider: Pubkey, charge: int)
  {
    exists x: HashInputs ::
      && sha256(PreimageOf(x)) == receiptHash
      && x.requestNonceHash == n.hash && x.payerUser == payer && x.providerWallet == provider
      && x.usdcMint == usdcMint && x.chargeAtomic == charge
  }

  ghost predicate HashOk(s: State, n: Nonce) {
    n in s.receipts && n in s.settlements ==>
      VouchedFor(s.sha256, s.config.usdcMint, n, s.receipts[n].receiptHash,
                 s.settlements[n].payer, s.settlements[n].provider, s.settlements[n].usdcTotalPaid)
  }

  ghost predicate ChallengeOk(s: State, n: Nonce) {
    n in s.challenges ==>
      && n in s.bonds
      && s.challenges[n].challenger == s.bonds[n].challenger && s.challenges[n].bondAmount == s.bonds[n].bondAmount
      && (s.challenges[n].status == Open <==> s.bonds[n].status == Locked)
      && (s.challenges[n].status == ChallengeAccepted <==> s.bonds[n].status == Returned)
  }

  /** Settlements and bonds outlive receipts and challenges, but only in terminal states. */
  ghost predicate OutlivingOk(s: State, n: Nonce) {
    && (n in s.settlements && n !in s.receipts ==> s.settlements[n].status != Recorded)
    && ((n in s.bonds && s.bonds[n].status == Locked)
        ==> (n in s.challenges && n in s.receipts && s.receipts[n].status == Challenged))
  }

  ghost predicate CoupledOk(s: State) {
    && (forall n :: ReceiptOk(s, n))
    && (forall n :: ChallengeOk(s, n))
    && (forall n :: OutlivingOk(s, n))
    && (forall n :: HashOk(s, n))
  }

  // ---- totals --------------------------------------------------------------

  ghost function NoProvider(): Provider {
    Provider(Faucet.DEFAULT_PUBKEY, 0, 0, 0, 0, 0, Active)
  }

  /** A missing account counts as an empty one. */
  ghost function ProviderAt(s: State, p: Pubkey): Provider {
    if p in s.providers then s.providers[p] else NoProvider()
  }

  /** The totals a provider account carries are sums over settlements and bonds. */
  ghost predicate ProviderBalances(s: State, p: Pubkey) {
    var a := ProviderAt(s, p);
    && a.pendingUsdc == Sum(s.settlements, EscrowOf(p))
    && a.unsettledReceipts == Sum(s.settlements, UnsettledOf(p))
    && a.unresolvedChallenges == Sum(s.bonds, UnresolvedOf(p))
    && a.clawNetPosition == Sum(s.settlements, EarnedBy(p)) - Sum(s.bonds, SlashedFrom(p))
  }

  ghost predicate RewardBalances(s: State, k: RewardKey) {
    var r := RewardOrFresh(s, k);
    && r.pendingClaw == Sum(s.settlements, PendingFor(k))
    && r.lockedClaw == Sum(s.settlements, LockedFor(k))
    && r.releasedClaw == Sum(s.settlements, ReleasedFor(k))
  }

  /** Debt withheld from rewards that stand never exceeds what was slashed. */
  ghost predicate DebtFair(s: State, p: Pubkey) {
    Sum(s.settlements, WithheldFrom(p)) <= Sum(s.bonds, SlashedFrom(p))
  }

  ghost predicate BooksOk(s: State) {
    && (forall p :: ProviderBalances(s, p))
    && (forall k :: RewardBalances(s, k))
    && (forall p :: DebtFair(s, p))
  }

  ghost function GenesisPart(s: State): int {
    if s.config.genesisMinted then GENESIS_TOTAL_SUPPLY else 0
  }

  /** What the seven vaults hold and how much CLAW there is, not counting what outsiders brought in or took away. */
  datatype Amounts = Amounts(
    escrow: int, treasury: int, stake: int, bond: int, reward: int, faucetClaw: int, faucetUsdc: int, clawSupply: int)

  ghost function Own(l: Ledger, h: History, id: TokenId): int
    requires id in l.accounts
  {
    l.accounts[id].amount - Gift(h, id)
  }

  ghost function AmountsIn(l: Ledger, h: History, pool: Pubkey): Amounts
    requires Custody(l, pool)
  {
    Amounts(Own(l, h, EscrowVault), Own(l, h, TreasuryVault), Own(l, h, StakeVault), Own(l, h, BondVault),
            Own(l, h, RewardVault), Own(l, h, FaucetClawVault), Own(l, h, FaucetUsdcVault),
            l.clawSupply - h.outsideSupply)
  }

  ghost function AmountsOf(s: State): Amounts
    requires Custody(s.ledger, s.poolAuthority)
  {
    AmountsIn(s.ledger, s.history, s.poolAuthority)
  }

  /** What the masterpool's records add up to. */
  datatype Totals = Totals(
    inEscrow: int, toTreasury: int, stake: int, pendingUsdc: int, claimed: int,
    lockedBonds: int, slashPaid: int, burned: int)

  ghost function TotalsOf(s: State): Totals {
    Totals(Sum(s.settlements, InEscrow()), Sum(s.settlements, ToTreasury()),
           Sum(s.providers, StakeOf()), Sum(s.providers, PendingUsdcOf()), Sum(s.rewards, ClaimedBy()),
           Sum(s.bonds, LockedBond()), Sum(s.bonds, SlashPaid()), Sum(s.bonds, BurnedFor()))
  }

  /** Each vault holds exactly what the records say. */
  ghost predicate Backed(a: Amounts, t: Totals, h: History, minted: int) {
    && a.escrow == t.inEscrow == t.pendingUsdc
    && a.treasury == t.toTreasury
    && a.stake == t.stake
    && a.bond == t.lockedBonds
    && a.reward == minted - t.claimed - t.slashPaid - h.faucetFunded
    && a.faucetClaw == h.faucetFunded - Faucet.PaidEver(h.payouts, Claw)
    && a.faucetUsdc == -Faucet.PaidEver(h.payouts, Usdc)
    && a.clawSupply == minted - t.burned
  }

  ghost predicate GiftsOk(h: History) {
    forall id :: Gift(h, id) >= 0
  }

  ghost predicate VaultsOk(s: State)
    requires Custody(s.ledger, s.poolAuthority)
  {
    Backed(AmountsOf(s), TotalsOf(s), s.history, GenesisPart(s)) && GiftsOk(s.history)
  }

  lemma GivingKeepsGifts(h: History, to: TokenId, amount: int)
    requires GiftsOk(h) && amount >= 0
    ensures GiftsOk(Given(h, to, amount))
  {
    forall id ensures Gift(Given(h, to, amount), id) >= 0 {
      assert Gift(h, id) >= 0;
    }
  }

  /** The amounts after paying out of one vault. */
  ghost function Less(a: Amounts, vault: TokenId, amount: int): Amounts {
    match vault
    case EscrowVault => a.(escrow := a.escrow - amount)
    case TreasuryVault => a.(treasury := a.treasury - amount)
    case StakeVault => a.(stake := a.stake - amount)
    case BondVault => a.(bond := a.bond - amount)
    case RewardVault => a.(reward := a.reward - amount)
    case FaucetClawVault => a.(faucetClaw := a.faucetClaw - amount)
    case FaucetUsdcVault => a.(faucetUsdc := a.faucetUsdc - amount)
    case Held(_) => a
  }

  ghost predicate LedgerOk(s: State) {
    Conserved(s.ledger) && Custody(s.ledger, s.poolAuthority)
  }

  // ---- everything ----------------------------------------------------------

  ghost predicate Inv(s: State) {
    && ValidateParams(s.config.params).Ok?
    && s.attestation.challengeWindowSeconds > 0 && s.attestation.challengeResolutionTimeoutSeconds > 0
    && LedgerOk(s)
    && (s.config.genesisMinted ==> s.ledger.clawMintAuthority == None)
    && RecordsOk(s)
    && CoupledOk(s)
    && BooksOk(s)
    && VaultsOk(s)
    && Faucet.FaucetOk(s.faucet, s.history.payouts, Faucet.CurrentDayIndex(s.now))
  }

  // ---- how totals move when one record does --------------------------------

  lemma BondPut(bs: map<Nonce, Bond>, n: Nonce, b: Bond)
    ensures forall p ::
              Sum(bs[n := b], UnresolvedOf(p))
              == Sum(bs, UnresolvedOf(p)) - At(bs, n, UnresolvedOf(p)) + UnresolvedOf(p)(b)
    ensures forall p ::
              Sum(bs[n := b], SlashedFrom(p)) == Sum(bs, SlashedFrom(p)) - At(bs, n, SlashedFrom(p)) + SlashedFrom(p)(b)
    ensures Sum(bs[n := b], LockedBond()) == Sum(bs, LockedBond()) - At(bs, n, LockedBond()) + LockedBond()(b)
    ensures Sum(bs[n := b], SlashPaid()) == Sum(bs, SlashPaid()) - At(bs, n, SlashPaid()) + SlashPaid()(b)
    ensures Sum(bs[n := b], BurnedFor()) == Sum(bs, BurnedFor()) - At(bs, n, BurnedFor()) + BurnedFor()(b)
  {
    forall p {
      SumPut(bs, n, b, UnresolvedOf(p));
    }
    forall p {
      SumPut(bs, n, b, SlashedFrom(p));
    }
    SumPut(bs, n, b, LockedBond());
    SumPut(bs, n, b, SlashPaid());
    SumPut(bs, n, b, BurnedFor());
  }

  lemma ProviderPut(ps: map<Pubkey, Provider>, k: Pubkey, p: Provider)
    ensures Sum(ps[k := p], StakeOf()) == Sum(ps, StakeOf()) - At(ps, k, StakeOf()) + StakeOf()(p)
    ensures Sum(ps[k := p], PendingUsdcOf())
            == Sum(ps, PendingUsdcOf()) - At(ps, k, PendingUsdcOf()) + PendingUsdcOf()(p)
  {
    SumPut(ps, k, p, StakeOf());
    SumPut(ps, k, p, PendingUsdcOf());
  }

  /** Rewriting two reward accounts without touching what they claimed leaves the total claimed as it was. */
  lemma TwoRewardsPut(
    rs: map<RewardKey, RewardAccount>, k1: RewardKey, k2: RewardKey, rs': map<RewardKey, RewardAccount>)
    requires k1 != k2 && k1 in rs' && k2 in rs' && rs' == rs[k1 := rs'[k1]][k2 := rs'[k2]]
    requires rs'[k1].claimedClaw == At(rs, k1, ClaimedBy()) && rs'[k2].claimedClaw == At(rs, k2, ClaimedBy())
    ensures Sum(rs', ClaimedBy()) == Sum(rs, ClaimedBy())
  {
    SumPut(rs, k1, rs'[k1], ClaimedBy());
    SumPut(rs[k1 := rs'[k1]], k2, rs'[k2], ClaimedBy());
  }

  /** States with the same records, the clock no earlier: everything that speaks of records alone still holds. */
  lemma SameRecords(s: State, s': State)
    requires s'.receipts == s.receipts && s'.challenges == s.challenges
    requires s'.settlements == s.settlements && s'.bonds == s.bonds
    requires s'.providers == s.providers && s'.rewards == s.rewards
    requires s'.poolAuthority == s.poolAuthority && s'.sha256 == s.sha256 && s'.config.usdcMint == s.config.usdcMint
    requires s.now <= s'.now
    requires RecordsOk(s) && CoupledOk(s) && BooksOk(s)
    ensures RecordsOk(s') && CoupledOk(s') && BooksOk(s')
    ensures TotalsOf(s') == TotalsOf(s)
  {
    forall n ensures SettlementOk(s', n) && BondOk(s', n) {
      assert SettlementOk(s, n) && BondOk(s, n);
    }
    forall n, kind ensures VestingOk(s', n, kind) {
      assert VestingOk(s, n, kind) && SettlementOk(s, n);
      if n in s.settlements {
        var st := s.settlements[n];
        VestedGrows(TargetTotal(st, kind), st.lockStartedAt, s.now, s'.now, st.lockDays);
      }
    }
    forall p ensures ProviderOk(s', p) {
      assert ProviderOk(s, p);
    }
    forall k ensures RewardOk(s', k) {
      assert RewardOk(s, k);
    }
    forall n ensures ReceiptOk(s', n) && OutlivingOk(s', n) {
      assert ReceiptOk(s, n) && OutlivingOk(s, n);
    }
    forall n ensures ChallengeOk(s', n) && HashOk(s', n) {
      assert ChallengeOk(s, n) && HashOk(s, n);
    }
    forall p ensures ProviderBalances(s', p) && DebtFair(s', p) {
      assert ProviderBalances(s, p) && DebtFair(s, p);
    }
    forall k ensures RewardBalances(s', k) {
      assert RewardBalances(s, k);
    }
  }
}

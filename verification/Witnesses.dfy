/** Runs of one small deployment in which the code does not do what a caller may expect of it. */
module Witnesses {
  import opened Outcomes
  import opened Widths
  import opened Sums
  import opened TokenLedger
  import opened Params
  import opened Preimage
  import opened Ed25519
  import Faucet
  import opened Accounts
  import opened Masterpool
  import opened Attestation
  import opened Invariant
  import opened StepsReceipt
  import opened StepsMoney
  import opened Runs
  import opened Progress
  import opened Payments
  import opened Rewards
  import opened Terms

  // ---- the deployment ------------------------------------------------------

  /** The keys are numbered: 1 the pool authority, 2 the payer, 3 its delegate, 4 the provider, 5 the provider's
      signer. */
  function Key(b: u8): Pubkey {
    Pubkey(seq(32, _ => b))
  }

  lemma KeysDiffer(a: u8, b: u8)
    ensures Key(a) == Key(b) <==> a == b
  {
    assert Key(a).bytes[0] == a && Key(b).bytes[0] == b;
  }

  function SomeParams(treasuryBps: u16): Phase1Params
    requires treasuryBps <= 1000
  {
    Phase1Params(RATE_SCALE, 1, 1000 - treasuryBps, treasuryBps, 1000, 0, 1, 1, 1000, 0, 1)
  }

  function Vault(mint: Mint): TokenAccount {
    TokenAccount(mint, Key(1), 0, None, 0)
  }

  function Vaults(): map<TokenId, TokenAccount> {
    map[RewardVault := Vault(Claw), BondVault := Vault(Claw), FaucetClawVault := Vault(Claw),
        TreasuryVault := Vault(Usdc), StakeVault := Vault(Usdc), EscrowVault := Vault(Usdc),
        FaucetUsdcVault := Vault(Usdc)]
  }

  function ProviderToken(): TokenId {
    Held(Key(11))
  }

  function PayerToken(): TokenId {
    Held(Key(12))
  }

  function SentinelClaw(): TokenId {
    Held(Key(14))
  }

  function SentinelUsdc(): TokenId {
    Held(Key(15))
  }

  /** The payer holds nine units and has allowed its delegate exactly five. */
  function PayerAccount(): TokenAccount {
    TokenAccount(Usdc, Key(2), 9, Some(Key(3)), 5)
  }

  function SomeLedger(): Ledger {
    Ledger(
      Vaults()[ProviderToken() := TokenAccount(Usdc, Key(4), 1, None, 0)]
              [PayerToken() := PayerAccount()]
              [SentinelClaw() := TokenAccount(Claw, Faucet.DEFAULT_PUBKEY, 0, None, 0)]
              [SentinelUsdc() := TokenAccount(Usdc, Faucet.DEFAULT_PUBKEY, 0, None, 0)],
      0, 10, Some(Key(1)), Some(Key(1)))
  }

  ghost predicate Has(l: Ledger, id: TokenId, t: TokenAccount) {
    id in l.accounts && l.accounts[id] == t
  }

  /** What the runs below need of a ledger. */
  ghost predicate Funded(l: Ledger) {
    && Conserved(l) && Custody(l, Key(1)) && l.clawSupply == 0
    && l.clawMintAuthority == Some(Key(1)) && l.clawFreezeAuthority == Some(Key(1))
    && (forall id: TokenId :: !id.Held? ==> l.accounts[id].amount == 0)
    && Has(l, ProviderToken(), TokenAccount(Usdc, Key(4), 1, None, 0))
    && Has(l, PayerToken(), PayerAccount())
    && Has(l, SentinelClaw(), TokenAccount(Claw, Faucet.DEFAULT_PUBKEY, 0, None, 0))
    && Has(l, SentinelUsdc(), TokenAccount(Usdc, Faucet.DEFAULT_PUBKEY, 0, None, 0))
  }

  /** Initialised at time `now`, with one signer registered. */
  function World(sha256: seq<u8> -> Bytes32, treasuryBps: u16, now: i64, l: Ledger): State
    requires treasuryBps <= 1000
  {
    State(now, Key(1), sha256, AttestationConfig(1, 1, false),
          GlobalConfig(SomeParams(treasuryBps), Key(7), false, false, false, false, false),
          map[SignerKey(Key(4), Key(5)) := ProviderSigner(Key(5), Key(4), 2, SignerIsActive, now, 0)],
          map[], map[], map[], map[], map[], map[], l,
          Faucet.FaucetState(
            false, Faucet.DEFAULT_LIMITS, Faucet.FaucetGlobal(Faucet.CurrentDayIndex(now), 0, 0), map[]),
          History(map[], 0, 0, []))
  }

  lemma TokensDiffer()
    ensures ProviderToken() != PayerToken() && ProviderToken() != SentinelClaw() && ProviderToken() != SentinelUsdc()
    ensures PayerToken() != SentinelClaw() && PayerToken() != SentinelUsdc() && SentinelClaw() != SentinelUsdc()
  {
    KeysDiffer(11, 12);
    KeysDiffer(11, 14);
    KeysDiffer(11, 15);
    KeysDiffer(12, 14);
    KeysDiffer(12, 15);
    KeysDiffer(14, 15);
  }

  lemma BalancesAddUp(mint: Mint)
    ensures Sum(SomeLedger().accounts, Balance(mint)) == Supply(SomeLedger(), mint)
  {
    TokensDiffer();
    var accounts, v := SomeLedger().accounts, Vaults();
    SumZero(v, Balance(mint));
    SumPut(v, ProviderToken(), accounts[ProviderToken()], Balance(mint));
    var v1 := v[ProviderToken() := accounts[ProviderToken()]];
    SumPut(v1, PayerToken(), accounts[PayerToken()], Balance(mint));
    var v2 := v1[PayerToken() := accounts[PayerToken()]];
    SumPut(v2, SentinelClaw(), accounts[SentinelClaw()], Balance(mint));
    var v3 := v2[SentinelClaw() := accounts[SentinelClaw()]];
    SumPut(v3, SentinelUsdc(), accounts[SentinelUsdc()], Balance(mint));
  }

  lemma LedgerAddsUp()
    ensures Conserved(SomeLedger())
  {
    forall mint ensures Sum(SomeLedger().accounts, Balance(mint)) == Supply(SomeLedger(), mint) {
      BalancesAddUp(mint);
    }
  }

  lemma NobodyIsTheSentinel(a: u8)
    requires a > 0
    ensures Key(a) != Faucet.DEFAULT_PUBKEY
  {
    assert Key(a).bytes[0] == a;
  }

  lemma VaultsArePools()
    ensures forall id: TokenId :: !id.Held? ==> Has(SomeLedger(), id, Vault(VaultMint(id)))
  {
  }

  lemma PoolOwnsVaultsOnly()
    ensures Custody(SomeLedger(), Key(1))
  {
    KeysDiffer(1, 2);
    KeysDiffer(1, 4);
    NobodyIsTheSentinel(1);
    VaultsArePools();
    TokensDiffer();
    forall id | id in SomeLedger().accounts && SomeLedger().accounts[id].owner == Key(1)
      ensures SomeLedger().accounts[id].delegate == None
    {
      assert !id.Held?;
    }
  }

  lemma LedgerIsFunded()
    ensures Funded(SomeLedger())
  {
    LedgerAddsUp();
    PoolOwnsVaultsOnly();
    TokensDiffer();
  }

  lemma WorldIsInitial(sha256: seq<u8> -> Bytes32, treasuryBps: u16, now: i64, l: Ledger)
    requires treasuryBps <= 1000 && Funded(l)
    ensures Initial(World(sha256, treasuryBps, now, l))
  {
    AcceptanceCriterion(SomeParams(treasuryBps));
  }

  // ---- the provider registers ----------------------------------------------

  const REGISTERING: Action := RegisterProvider(Key(4), ProviderToken())

  function SomeProvider(): Provider {
    Provider(Key(4), 1, 0, 0, 0, 0, Active)
  }

  /** What registering leaves. */
  ghost predicate Registered(s: State, s1: State) {
    && s1 == s.(ledger := s1.ledger,
                providers := map[Key(4) := SomeProvider()],
                rewards := map[ProviderKey(Key(4)) := FreshReward(ProviderKey(Key(4)))])
    && Has(s1.ledger, PayerToken(), PayerAccount())
    && Has(s1.ledger, ProviderToken(), TokenAccount(Usdc, Key(4), 0, None, 0))
  }

  lemma ProviderMayRegister(s: State)
    requires s.poolAuthority == Key(1) && s.providers == map[] && s.rewards == map[] && Funded(s.ledger)
    requires s.config.params.providerStakeUsdc == 1
    ensures RegisterGuard(s, Key(4), ProviderToken()) == Ok(())
  {
    KeysDiffer(1, 4);
  }

  lemma RegistrationLeaves(s: State)
    requires RegisterGuard(s, Key(4), ProviderToken()).Ok? && Funded(s.ledger)
    requires s.providers == map[] && s.rewards == map[] && s.config.params.providerStakeUsdc == 1
    ensures Registered(s, RegisterEffect(s, Key(4), ProviderToken()))
  {
    TokensDiffer();
  }

  lemma RegistrationKeeps(s: State)
    requires Initial(s)
    ensures Inv(Apply(s, REGISTERING))
  {
    InitialIsOk(s);
    ApplyKeeps(s, REGISTERING);
  }

  lemma Registers(s: State)
    requires RegisterGuard(s, Key(4), ProviderToken()).Ok?
    ensures Apply(s, REGISTERING) == RegisterEffect(s, Key(4), ProviderToken())
  {
  }

  lemma Registration(sha256: seq<u8> -> Bytes32, treasuryBps: u16, now: i64, l: Ledger)
    requires treasuryBps <= 1000 && Funded(l)
    ensures Registered(World(sha256, treasuryBps, now, l), Apply(World(sha256, treasuryBps, now, l), REGISTERING))
    ensures Inv(Apply(World(sha256, treasuryBps, now, l), REGISTERING))
  {
    var s := World(sha256, treasuryBps, now, l);
    ProviderMayRegister(s);
    Registers(s);
    RegistrationLeaves(s);
    WorldIsInitial(sha256, treasuryBps, now, l);
    RegistrationKeeps(s);
  }

  // ---- a receipt of five units ---------------------------------------------

  function N(): Nonce {
    Nonce(Key(20).bytes)
  }

  function SomeInputs(): HashInputs {
    HashInputs(Key(20).bytes, Key(21).bytes, Key(4), Key(2), Key(7), 0, 0, 5)
  }

  /** Submitted with its signature right before it, in the reference layout. */
  function SomeSubmission(sha256: seq<u8> -> Bytes32): Submission {
    var hash := sha256(PreimageOf(SomeInputs()));
    Submission(Key(20).bytes, Key(21).bytes, 0, 0, 5, hash, SignerKey(Key(4), Key(5)),
               Key(2), Key(3), PayerToken(), Key(4),
               Transaction([Instruction(true, 0, ReferenceData(Key(5), seq(64, _ => 0), hash))], 1))
  }

  function SomeCharge(): Charge {
    Charge(Key(2), Key(3), PayerToken(), Key(4), 5)
  }

  lemma SignatureStandsBefore(sha256: seq<u8> -> Bytes32)
    ensures VerifyPrecedingInstruction(
              SomeSubmission(sha256).transaction, Key(5), SomeSubmission(sha256).receiptHash) == Ok(())
  {
    var hash := SomeSubmission(sha256).receiptHash;
    ReferenceAcceptedExactly(Key(5), seq(64, _ => 0), hash, Key(5), hash);
  }

  /** Nothing in the way of a submission whose signer is unlimited and whose hash and signature are right. */
  lemma InOrder(s: State, a: Submission, x: HashInputs)
    requires a.signerKey in s.signers && a.providerAccount in s.providers && s.receipts == map[]
    requires a.promptTokens + a.completionTokens <= U64_MAX && !s.attestation.isPaused
    requires var signer := s.signers[a.signerKey];
             && signer.status == SignerIsActive && signer.signer != Faucet.DEFAULT_PUBKEY
             && signer.attesterTypeMask == 2
             && signer.validFrom <= s.now && signer.validUntil == 0
             && SubmittedInputs(s, a, signer.providerWallet) == x
             && s.providers[a.providerAccount].wallet == signer.providerWallet
             && VerifyPrecedingInstruction(a.transaction, signer.signer, a.receiptHash).Ok?
    requires s.sha256(PreimageOf(x)) == a.receiptHash
    ensures SubmissionGuard(s, a).Ok?
  {
  }

  lemma SubmissionIsInOrder(sha256: seq<u8> -> Bytes32, treasuryBps: u16, now: i64, l: Ledger, s: State)
    requires treasuryBps <= 1000 && Registered(World(sha256, treasuryBps, now, l), s)
    ensures SubmissionGuard(s, SomeSubmission(sha256)).Ok?
  {
    NobodyIsTheSentinel(5);
    SignatureStandsBefore(sha256);
    InOrder(s, SomeSubmission(sha256), SomeInputs());
  }

  /** The payer covers the charge, and nothing else stands in its way. */
  lemma ChargeIsCovered(sha256: seq<u8> -> Bytes32, treasuryBps: u16, now: i64, l: Ledger, s: State)
    requires treasuryBps <= 1000 && Registered(World(sha256, treasuryBps, now, l), s)
    ensures Covers(s, SomeCharge()) && Accepts(s, N(), SomeCharge())
    ensures NewSettlement(s, SomeCharge()).clawToUser == 5
  {
    assert ClawReward(SomeParams(treasuryBps), 5) == 5;
    assert UserClaw(SomeParams(treasuryBps), 5) == 5;
  }

  /** Registration and a submission in order: the charge alone decides. */
  lemma ChargeDecides(sha256: seq<u8> -> Bytes32, treasuryBps: u16, now: i64, l: Ledger)
    requires treasuryBps <= 1000 && Funded(l)
    ensures var s := Apply(World(sha256, treasuryBps, now, l), REGISTERING);
            && Covers(s, SomeCharge()) && Accepts(s, N(), SomeCharge())
            && SubmissionGuard(s, SomeSubmission(sha256)).Ok?
            && SubmitGuard(s, SomeSubmission(sha256)) == RecordGuard(s, N(), SomeCharge())
            && (treasuryBps < 1000 ==> RecordGuard(s, N(), SomeCharge()).Ok?)
            && (treasuryBps == 1000 ==> RecordGuard(s, N(), SomeCharge()) == Err(TokenOwnerMismatch))
  {
    var s := Apply(World(sha256, treasuryBps, now, l), REGISTERING);
    Registration(sha256, treasuryBps, now, l);
    SubmissionIsInOrder(sha256, treasuryBps, now, l, s);
    ChargeIsCovered(sha256, treasuryBps, now, l, s);
    KeysDiffer(2, 3);
    CoveredChargeSucceedsExactly(s, N(), SomeCharge());
  }

  /** An exact allowance, a sufficient balance and a submission in order; the treasury takes all, and the charge is
      refused. */
  lemma ExactAllowanceIsRefused(sha256: seq<u8> -> Bytes32, now: i64)
    ensures var s0 := World(sha256, 1000, now, SomeLedger());
            var s := Run(s0, [REGISTERING]);
            && Initial(s0)
            && Covers(s, SomeCharge()) && Accepts(s, N(), SomeCharge())
            && SubmissionGuard(s, SomeSubmission(sha256)).Ok?
            && SubmitGuard(s, SomeSubmission(sha256)) == Err(TokenOwnerMismatch)
  {
    LedgerIsFunded();
    WorldIsInitial(sha256, 1000, now, SomeLedger());
    ChargeDecides(sha256, 1000, now, SomeLedger());
    RunOne(World(sha256, 1000, now, SomeLedger()), REGISTERING);
  }

  // ---- rewards locked for ever ---------------------------------------------

  /** Recorded two seconds before time zero and still waiting. */
  predicate Waiting(s: State) {
    && s.now == -2 && !s.config.pauseFinalization
    && N() in s.receipts && s.receipts[N()].status == Submitted && s.receipts[N()].challengeDeadline == -1
    && N() in s.settlements && s.settlements[N()].clawToUser == 5 && s.settlements[N()].userClawReleased == 0
    && s.settlements[N()].clawToProviderLocked == 0
    && s.settlements[N()].payer == Key(2) && s.settlements[N()].provider == Key(4)
    && RewardOrFresh(s, UserKey(Key(2))).lockedClaw == 0 && RewardOrFresh(s, ProviderKey(Key(4))).lockedClaw == 0
    && ProviderToken() in s.ledger.accounts
    && s.ledger.accounts[ProviderToken()].owner == Key(4) && s.ledger.accounts[ProviderToken()].mint == Usdc
  }

  lemma RecordingWaits(s: State, st: Settlement, r: Receipt)
    requires s.rewards == map[ProviderKey(Key(4)) := FreshReward(ProviderKey(Key(4)))] && Key(4) in s.providers
    requires Has(s.ledger, PayerToken(), PayerAccount())
    requires Has(s.ledger, ProviderToken(), TokenAccount(Usdc, Key(4), 0, None, 0))
    requires s.now == -2 && !s.config.pauseFinalization
    requires TreasuryVault in s.ledger.accounts && EscrowVault in s.ledger.accounts
    requires st.clawToUser == 5 && st.userClawReleased == 0 && st.clawToProviderLocked == 0
    requires st.payer == Key(2) && st.provider == Key(4)
    requires r.status == Submitted && r.challengeDeadline == -1
    ensures Waiting(WithReceipt(RecordWith(s, N(), SomeCharge(), st), N(), r))
  {
    TokensDiffer();
  }

  lemma SubmissionWaits(sha256: seq<u8> -> Bytes32, l: Ledger, s: State)
    requires Registered(World(sha256, 300, -2, l), s) && SubmitGuard(s, SomeSubmission(sha256)).Ok?
    ensures Waiting(SubmitEffect(s, SomeSubmission(sha256)))
  {
    ChargeIsCovered(sha256, 300, -2, l, s);
    RecordingWaits(s, NewSettlement(s, SomeCharge()), NewReceipt(s, SomeSubmission(sha256)));
  }

  lemma WaitingIsDueAtZero(s: State)
    requires Waiting(s) && Inv(s)
    ensures FinalizeGuard(s.(now := 0), N(), ProviderToken()).Ok? && Inv(s.(now := 0))
  {
    TickKeeps(s, 0);
    FinalizeSucceedsExactly(s.(now := 0), N(), ProviderToken());
  }

  /** Settled at time zero, with five units still to be released to the payer. */
  ghost predicate SettledAtZero(s: State) {
    && Inv(s) && N() in s.settlements
    && var st := s.settlements[N()];
       st.status == FinalizedSettled && st.lockStartedAt == 0 && st.clawToUser == 5 && st.userClawReleased == 0
  }

  lemma SettlesNow(t: State, to: TokenId)
    requires FinalizeGuard(t, N(), to).Ok?
    ensures N() in t.settlements
    ensures Apply(t, FinalizeReceipt(N(), to)).settlements
         == t.settlements[N() := t.settlements[N()].(status := FinalizedSettled, lockStartedAt := t.now)]
  {
  }

  lemma SettlesAtZero(t: State)
    requires FinalizeGuard(t, N(), ProviderToken()).Ok? && Inv(t) && t.now == 0
    requires t.settlements[N()].clawToUser == 5 && t.settlements[N()].userClawReleased == 0
    ensures SettledAtZero(Apply(t, FinalizeReceipt(N(), ProviderToken())))
  {
    SettlesNow(t, ProviderToken());
    ApplyKeeps(t, FinalizeReceipt(N(), ProviderToken()));
  }

  lemma WaitingSettlesAtZero(s: State)
    requires Waiting(s) && Inv(s)
    ensures SettledAtZero(Run(s, [Tick(0), FinalizeReceipt(N(), ProviderToken())]))
  {
    var a := FinalizeReceipt(N(), ProviderToken());
    WaitingIsDueAtZero(s);
    TwoSteps(s, Tick(0), a);
    RunOne(s.(now := 0), a);
    SettlesAtZero(s.(now := 0));
  }

  function LockingRun(sha256: seq<u8> -> Bytes32): seq<Action> {
    [REGISTERING, Submit(SomeSubmission(sha256)), Tick(0), FinalizeReceipt(N(), ProviderToken())]
  }

  lemma SubmissionApplies(s: State, x: Submission)
    requires Inv(s) && SubmitGuard(s, x).Ok?
    ensures Apply(s, Submit(x)) == SubmitEffect(s, x) && Inv(SubmitEffect(s, x))
  {
    ApplyKeeps(s, Submit(x));
  }

  lemma TwoStepsFirst(s: State, a: Action, b: Action, rest: seq<Action>)
    ensures Run(s, [a, b] + rest) == Run(Apply(Apply(s, a), b), rest)
  {
    assert [a, b] + rest == [a] + ([b] + rest);
    RunStep(s, a, [b] + rest);
    RunStep(Apply(s, a), b, rest);
  }

  lemma RecordedBeforeZero(sha256: seq<u8> -> Bytes32, l: Ledger)
    requires Funded(l)
    ensures var s := Apply(Apply(World(sha256, 300, -2, l), REGISTERING), Submit(SomeSubmission(sha256)));
            Waiting(s) && Inv(s)
  {
    Registration(sha256, 300, -2, l);
    ChargeDecides(sha256, 300, -2, l);
    var s := Apply(World(sha256, 300, -2, l), REGISTERING);
    SubmissionWaits(sha256, l, s);
    SubmissionApplies(s, SomeSubmission(sha256));
  }

  lemma LockingRunSettles(sha256: seq<u8> -> Bytes32, l: Ledger)
    requires Funded(l)
    ensures SettledAtZero(Run(World(sha256, 300, -2, l), LockingRun(sha256)))
  {
    var a, rest := Submit(SomeSubmission(sha256)), [Tick(0), FinalizeReceipt(N(), ProviderToken())];
    RecordedBeforeZero(sha256, l);
    assert LockingRun(sha256) == [REGISTERING, a] + rest;
    TwoStepsFirst(World(sha256, 300, -2, l), REGISTERING, a, rest);
    WaitingSettlesAtZero(Apply(Apply(World(sha256, 300, -2, l), REGISTERING), a));
  }

  /** A provider registers, a receipt is recorded, and it is settled at time zero: whatever happens afterwards, none of
      the five units of reward that its payer earned is ever released. */
  lemma RewardsLockedForEver(
    sha256: seq<u8> -> Bytes32, more: seq<Action>, code: u8, key: RewardKey, amount: u64)
    ensures Initial(World(sha256, 300, -2, SomeLedger()))
    ensures var end := Run(World(sha256, 300, -2, SomeLedger()), LockingRun(sha256) + more);
            && N() in end.settlements && end.settlements[N()].status == FinalizedSettled
            && end.settlements[N()].clawToUser == 5 && end.settlements[N()].userClawReleased == 0
            && ReleaseGuard(end, N(), code, key, amount).Err?
  {
    var s := World(sha256, 300, -2, SomeLedger());
    LedgerIsFunded();
    WorldIsInitial(sha256, 300, -2, SomeLedger());
    LockingRunSettles(sha256, SomeLedger());
    RunsCompose(s, LockingRun(sha256), more);
    LockedForEver(Run(s, LockingRun(sha256)), more, N());
    NothingToRelease(Run(s, LockingRun(sha256) + more), N(), code, key, amount);
  }

  // ---- beyond the wallet limit ---------------------------------------------

  const ONE_UNIT: FaucetClaim := FaucetClaim(Faucet.DEFAULT_PUBKEY, SentinelClaw(), SentinelUsdc(), 1, 0)

  /** One unit a claim, one a wallet and day, `k` a day in all. */
  function OneEach(k: nat): Faucet.FaucetLimits
    requires 1 <= k <= GENESIS_TOTAL_SUPPLY
  {
    Faucet.FaucetLimits(1, 1, 1, 1, k, k)
  }

  ghost predicate FaucetHolds(l: Ledger, left: int) {
    && FaucetClawVault in l.accounts && l.accounts[FaucetClawVault].amount == left
    && FaucetUsdcVault in l.accounts && l.accounts[FaucetUsdcVault].amount == 0
    && SentinelClaw() in l.accounts && l.accounts[SentinelClaw()].owner == Faucet.DEFAULT_PUBKEY
    && l.accounts[SentinelClaw()].mint == Claw
    && SentinelUsdc() in l.accounts && l.accounts[SentinelUsdc()].owner == Faucet.DEFAULT_PUBKEY
    && l.accounts[SentinelUsdc()].mint == Usdc
  }

  /** The faucet counted `counted` units today and holds the rest; no wallet but the sentinel's has claimed. */
  ghost predicate FaucetRuns(s: State, k: nat, counted: int)
    requires 1 <= k <= GENESIS_TOTAL_SUPPLY
  {
    && s.faucet.enabled && s.faucet.limits == OneEach(k)
    && s.faucet.global == Faucet.FaucetGlobal(Faucet.CurrentDayIndex(s.now), counted, 0)
    && (forall w :: w in s.faucet.users ==> s.faucet.users[w].owner == Faucet.DEFAULT_PUBKEY)
    && FaucetHolds(s.ledger, k - counted)
  }

  ghost function PaidToSentinel(s: State): int {
    Faucet.PaidTo(s.history.payouts, Claw, Faucet.CurrentDayIndex(s.now), Faucet.DEFAULT_PUBKEY)
  }

  lemma OneUnitIsDue(s: State, k: nat, counted: nat)
    requires 1 <= k <= GENESIS_TOTAL_SUPPLY && FaucetRuns(s, k, counted) && counted < k
    ensures FaucetClaimGuard(s, ONE_UNIT).Ok?
  {
  }

  lemma OneUnitIsPaid(s: State, k: nat, counted: nat)
    requires 1 <= k <= GENESIS_TOTAL_SUPPLY && FaucetRuns(s, k, counted) && FaucetClaimGuard(s, ONE_UNIT).Ok?
    ensures var s' := FaucetClaimEffect(s, ONE_UNIT);
            FaucetRuns(s', k, counted + 1) && s'.now == s.now && PaidToSentinel(s') == PaidToSentinel(s) + 1
  {
    var s', log := FaucetClaimEffect(s, ONE_UNIT), s.history.payouts;
    TokensDiffer();
    assert s'.history.payouts == log + [PayoutOf(s.now, ONE_UNIT)];
    assert s'.history.payouts[..|log|] == log;
  }

  ghost predicate PaidMore(s: State, s': State, units: int) {
    s'.now == s.now && PaidToSentinel(s') == PaidToSentinel(s) + units
  }

  lemma OneUnitMore(s: State, k: nat, counted: nat)
    requires 1 <= k <= GENESIS_TOTAL_SUPPLY && FaucetRuns(s, k, counted) && counted < k
    ensures FaucetRuns(Apply(s, ClaimFaucet(ONE_UNIT)), k, counted + 1)
    ensures PaidMore(s, Apply(s, ClaimFaucet(ONE_UNIT)), 1)
  {
    OneUnitIsDue(s, k, counted);
    OneUnitIsPaid(s, k, counted);
  }

  function Repeated(a: Action, count: nat): seq<Action> {
    if count == 0 then [] else Repeated(a, count - 1) + [a]
  }

  ghost function AfterAll(s: State, a: Action, count: nat): State {
    if count == 0 then s else Apply(AfterAll(s, a, count - 1), a)
  }

  lemma {:induction false} RepeatedRun(s: State, a: Action, count: nat)
    ensures Run(s, Repeated(a, count)) == AfterAll(s, a, count)
  {
    if count > 0 {
      RepeatedRun(s, a, count - 1);
      RunsCompose(s, Repeated(a, count - 1), [a]);
      RunOne(Run(s, Repeated(a, count - 1)), a);
    }
  }

  /** What one action counts up, repeating it counts up. */
  lemma {:induction false} RepeatedCounts(s: State, a: Action, limit: nat, count: nat, counts: (State, nat) -> bool)
    requires counts(s, 0) && count <= limit
    requires forall t, i: nat {:trigger Apply(t, a), counts(t, i)} :: counts(t, i) && i < limit ==>
             counts(Apply(t, a), i + 1)
    ensures counts(AfterAll(s, a, count), count)
  {
    if count > 0 {
      RepeatedCounts(s, a, limit, count - 1, counts);
    }
  }

  lemma ClaimsPay(s: State, k: nat)
    requires 1 <= k <= GENESIS_TOTAL_SUPPLY && FaucetRuns(s, k, 0)
    ensures FaucetRuns(Run(s, Repeated(ClaimFaucet(ONE_UNIT), k)), k, k)
    ensures PaidMore(s, Run(s, Repeated(ClaimFaucet(ONE_UNIT), k)), k)
  {
    var counts := (t: State, i: nat) => FaucetRuns(t, k, i) && PaidMore(s, t, i);
    forall t, i: nat | counts(t, i) && i < k ensures counts(Apply(t, ClaimFaucet(ONE_UNIT)), i + 1) {
      OneUnitMore(t, k, i);
    }
    RepeatedCounts(s, ClaimFaucet(ONE_UNIT), k, k, counts);
    RepeatedRun(s, ClaimFaucet(ONE_UNIT), k);
  }

  function Opening(k: nat): seq<Action>
    requires 1 <= k <= GENESIS_TOTAL_SUPPLY
  {
    [MintGenesis, FundFaucet(k), UpdateFaucetLimits(OneEach(k)), EnableFaucet(true)]
  }

  lemma Funds(s: State, k: nat)
    requires Funded(s.ledger) && s.poolAuthority == Key(1) && !s.config.genesisMinted && 1 <= k <= GENESIS_TOTAL_SUPPLY
    ensures GenesisGuard(s).Ok? && FundFaucetGuard(GenesisEffect(s), k).Ok?
    ensures var s' := FundFaucetEffect(GenesisEffect(s), k);
            FaucetHolds(s'.ledger, k) && s'.faucet == s.faucet && s'.now == s.now
            && s'.history.payouts == s.history.payouts
  {
  }

  lemma Switches(s: State, k: nat)
    requires 1 <= k <= GENESIS_TOTAL_SUPPLY
    ensures Run(s, [UpdateFaucetLimits(OneEach(k)), EnableFaucet(true)])
         == s.(faucet := s.faucet.(limits := OneEach(k), enabled := true))
  {
    TwoSteps(s, UpdateFaucetLimits(OneEach(k)), EnableFaucet(true));
    RunOne(Apply(s, UpdateFaucetLimits(OneEach(k))), EnableFaucet(true));
  }

  lemma FundingApplies(s: State, k: nat)
    requires k <= GENESIS_TOTAL_SUPPLY && GenesisGuard(s).Ok? && FundFaucetGuard(GenesisEffect(s), k).Ok?
    ensures Apply(Apply(s, MintGenesis), FundFaucet(k)) == FundFaucetEffect(GenesisEffect(s), k)
  {
  }

  lemma FaucetOpens(sha256: seq<u8> -> Bytes32, now: i64, l: Ledger, k: nat)
    requires Funded(l) && 1 <= k <= GENESIS_TOTAL_SUPPLY
    ensures var s := Run(World(sha256, 300, now, l), Opening(k));
            FaucetRuns(s, k, 0) && s.now == now && s.history.payouts == []
  {
    var s := World(sha256, 300, now, l);
    var rest := [UpdateFaucetLimits(OneEach(k)), EnableFaucet(true)];
    Funds(s, k);
    FundingApplies(s, k);
    assert Opening(k) == [MintGenesis, FundFaucet(k)] + rest;
    TwoStepsFirst(s, MintGenesis, FundFaucet(k), rest);
    Switches(FundFaucetEffect(GenesisEffect(s), k), k);
  }

  lemma LoggedFromTheStart(s: State, actions: seq<Action>)
    requires s.history.payouts == []
    ensures Run(s, actions).history.payouts == PayoutsOf(s, actions)
  {
    LogIsTheRun(s, actions);
  }

  /** Against a limit of one unit a wallet and day, the wallet with the all-zero key is paid everything the faucet may
      pay that day, by as many claims. */
  lemma SentinelIsPaidEverything(sha256: seq<u8> -> Bytes32, now: i64, k: nat)
    requires 1 <= k <= GENESIS_TOTAL_SUPPLY
    ensures var s, actions := World(sha256, 300, now, SomeLedger()), Opening(k) + Repeated(ClaimFaucet(ONE_UNIT), k);
            && Initial(s)
            && Faucet.WalletLimit(Run(s, actions).faucet.limits, Claw) == 1
            && Faucet.PaidTo(PayoutsOf(s, actions), Claw, Faucet.CurrentDayIndex(now), Faucet.DEFAULT_PUBKEY) == k
  {
    var s := World(sha256, 300, now, SomeLedger());
    LedgerIsFunded();
    WorldIsInitial(sha256, 300, now, SomeLedger());
    FaucetOpens(sha256, now, SomeLedger(), k);
    ClaimsPay(Run(s, Opening(k)), k);
    RunsCompose(s, Opening(k), Repeated(ClaimFaucet(ONE_UNIT), k));
    LoggedFromTheStart(s, Opening(k) + Repeated(ClaimFaucet(ONE_UNIT), k));
  }
}

/** Whole runs of the deployment: every interleaving of instructions and of what happens around them. */
module Runs {
  import opened Outcomes
  import opened Widths
  import opened Sums
  import opened TokenLedger
  import opened Params
  import Faucet
  import opened Accounts
  import opened Masterpool
  import opened Attestation
  import opened Environment
  import opened Invariant
  import opened StepsReceipt
  import opened StepsFinalize
  import opened StepsChallenge
  import opened StepsMoney

  datatype Action =
      // around the programs
    | Tick(now: i64)
    | Outside(ledger: Ledger)
    | SetSigners(signers: map<SignerKey, ProviderSigner>)
    | SetAttestationPause(paused: bool)
      // attestation
    | Submit(submission: Submission)
    | OpenChallenge(nonce: Nonce, challenger: Pubkey, token: TokenId, challengeType: u8, evidence: Bytes32)
    | ResolveChallenge(nonce: Nonce, code: u8, challengerToken: TokenId, payerToken: TokenId)
    | TimeoutChallenge(nonce: Nonce)
    | FinalizeReceipt(nonce: Nonce, token: TokenId)
    | CloseReceipt(nonce: Nonce)
    | CloseChallenge(nonce: Nonce)
      // masterpool
    | RegisterProvider(wallet: Pubkey, token: TokenId)
    | ExitProvider(wallet: Pubkey, token: TokenId)
    | ReleaseReward(nonce: Nonce, code: u8, key: RewardKey, amount: u64)
    | ClaimReward(key: RewardKey, claimant: Pubkey, token: TokenId)
    | MintGenesis
    | UpdateConfig(params: Phase1Params)
    | SetPauses(receipts: bool, challenges: bool, finalization: bool, claims: bool)
    | EnableFaucet(enabled: bool)
    | UpdateFaucetLimits(limits: Faucet.FaucetLimits)
    | FundFaucet(amount: u64)
    | ClaimFaucet(claim: FaucetClaim)

  ghost function Guard(s: State, a: Action): Result<()> {
    match a
    case Tick(now) => if s.now <= now then Ok(()) else Err(NotAnOutsideStep)
    case Outside(l) => if OutsideOk(s, l) then Ok(()) else Err(NotAnOutsideStep)
    case SetSigners(_) => Ok(())
    case SetAttestationPause(_) => Ok(())
    case Submit(x) => SubmitGuard(s, x)
    case OpenChallenge(n, challenger, token, challengeType, _) => OpenGuard(s, n, challenger, token, challengeType)
    case ResolveChallenge(n, code, challengerToken, payerToken) => ResolveGuard(s, n, code, challengerToken, payerToken)
    case TimeoutChallenge(n) => TimeoutGuard(s, n)
    case FinalizeReceipt(n, token) => FinalizeGuard(s, n, token)
    case CloseReceipt(n) => CloseReceiptGuard(s, n)
    case CloseChallenge(n) => CloseChallengeGuard(s, n)
    case RegisterProvider(wallet, token) => RegisterGuard(s, wallet, token)
    case ExitProvider(wallet, token) => ExitGuard(s, wallet, token)
    case ReleaseReward(n, code, key, amount) => ReleaseGuard(s, n, code, key, amount)
    case ClaimReward(key, claimant, token) => RewardClaimGuard(s, key, claimant, token)
    case MintGenesis => GenesisGuard(s)
    case UpdateConfig(p) => ValidateParams(p)
    case SetPauses(_, _, _, _) => Ok(())
    case EnableFaucet(_) => Ok(())
    case UpdateFaucetLimits(l) => Faucet.ValidateFaucetLimits(l)
    case FundFaucet(amount) => FundFaucetGuard(s, amount)
    case ClaimFaucet(c) => FaucetClaimGuard(s, c)
  }

  ghost function Effect(s: State, a: Action): State
    requires Guard(s, a).Ok?
  {
    match a
    case Tick(now) => s.(now := now)
    case Outside(l) => OutsideEffect(s, l)
    case SetSigners(signers) => s.(signers := signers)
    case SetAttestationPause(paused) => s.(attestation := s.attestation.(isPaused := paused))
    case Submit(x) => SubmitEffect(s, x)
    case OpenChallenge(n, challenger, token, challengeType, evidence) =>
      OpenEffect(s, n, challenger, token, challengeType, evidence)
    case ResolveChallenge(n, code, challengerToken, payerToken) =>
      ResolveEffect(s, n, code, challengerToken, payerToken)
    case TimeoutChallenge(n) => AfterRejection(s, n)
    case FinalizeReceipt(n, token) => FinalizeEffect(s, n, token)
    case CloseReceipt(n) => s.(receipts := s.receipts - {n})
    case CloseChallenge(n) => s.(challenges := s.challenges - {n})
    case RegisterProvider(wallet, token) => RegisterEffect(s, wallet, token)
    case ExitProvider(wallet, token) => ExitEffect(s, wallet, token)
    case ReleaseReward(n, code, key, amount) => ReleaseEffect(s, n, code, key, amount)
    case ClaimReward(key, claimant, token) => RewardClaimEffect(s, key, claimant, token)
    case MintGenesis => GenesisEffect(s)
    case UpdateConfig(p) => UpdateConfigEffect(s, p)
    case SetPauses(r, c, f, cl) =>
      s.(config := s.config.(
        pauseReceiptRecording := r, pauseChallengeProcessing := c, pauseFinalization := f, pauseClaims := cl))
    case EnableFaucet(enabled) => s.(faucet := s.faucet.(enabled := enabled))
    case UpdateFaucetLimits(l) => s.(faucet := s.faucet.(limits := l))
    case FundFaucet(amount) => FundFaucetEffect(s, amount)
    case ClaimFaucet(c) => FaucetClaimEffect(s, c)
  }

  /** A transaction commits everything or nothing. */
  ghost function Apply(s: State, a: Action): State {
    if Guard(s, a).Ok? then Effect(s, a) else s
  }

  ghost function Run(s: State, actions: seq<Action>): State
    decreases |actions|
  {
    if actions == [] then s else Run(Apply(s, actions[0]), actions[1..])
  }

  lemma RunStep(s: State, a: Action, rest: seq<Action>)
    ensures Run(s, [a] + rest) == Run(Apply(s, a), rest)
  {
    assert ([a] + rest)[1..] == rest;
  }

  lemma RunOne(s: State, a: Action)
    ensures Run(s, [a]) == Apply(s, a)
  {
    assert [a] + [] == [a];
    RunStep(s, a, []);
  }

  lemma {:induction false} RunsCompose(s: State, first: seq<Action>, second: seq<Action>)
    ensures Run(s, first + second) == Run(Run(s, first), second)
    decreases |first|
  {
    if first == [] {
      assert first + second == second;
    } else {
      assert (first + second)[1..] == first[1..] + second;
      RunsCompose(Apply(s, first[0]), first[1..], second);
    }
  }

  /** Right after both programs and the faucet were initialised. CLAW may already exist; the vaults are new. */
  ghost predicate Initial(s: State) {
    && ValidateParams(s.config.params).Ok? && !s.config.genesisMinted
    && s.attestation.challengeWindowSeconds > 0 && s.attestation.challengeResolutionTimeoutSeconds > 0
    && LedgerOk(s)
    && (forall id: TokenId :: !id.Held? ==> s.ledger.accounts[id].amount == 0)
    && s.receipts == map[] && s.challenges == map[] && s.settlements == map[] && s.bonds == map[]
    && s.providers == map[] && s.rewards == map[]
    && s.faucet == Faucet.FaucetState(
         false, Faucet.DEFAULT_LIMITS, Faucet.FaucetGlobal(Faucet.CurrentDayIndex(s.now), 0, 0), map[])
    && s.history == History(map[], 0, s.ledger.clawSupply, [])
  }

  // ---- the invariant over runs ---------------------------------------------

  lemma InitialIsOk(s: State)
    requires Initial(s)
    ensures Inv(s)
  {
    var f := s.faucet;
    forall mint ensures Faucet.GlobalAgrees(f, [], mint) {
      assert Sum(f.users, Faucet.Today(mint, f.global.day)) == 0;
    }
    assert Faucet.FaucetOk(f, s.history.payouts, Faucet.CurrentDayIndex(s.now));
  }

  lemma CloseReceiptKeeps(s: State, n: Nonce)
    requires Inv(s) && CloseReceiptGuard(s, n).Ok?
    ensures Inv(s.(receipts := s.receipts - {n}))
  {
    var s' := s.(receipts := s.receipts - {n});
    forall m ensures ReceiptOk(s', m) && OutlivingOk(s', m) && ChallengeOk(s', m) && HashOk(s', m) {
      assert ReceiptOk(s, m) && OutlivingOk(s, m) && ChallengeOk(s, m) && HashOk(s, m);
    }
    ReceiptsAreApart(s, s');
  }

  lemma CloseChallengeKeeps(s: State, n: Nonce)
    requires Inv(s) && CloseChallengeGuard(s, n).Ok?
    ensures Inv(s.(challenges := s.challenges - {n}))
  {
    var s' := s.(challenges := s.challenges - {n});
    forall m ensures ReceiptOk(s', m) && OutlivingOk(s', m) && ChallengeOk(s', m) && HashOk(s', m) {
      assert ReceiptOk(s, m) && OutlivingOk(s, m) && ChallengeOk(s, m) && HashOk(s, m);
    }
    ReceiptsAreApart(s, s');
  }

  predicate IsSwitch(a: Action) {
    a.SetSigners? || a.SetAttestationPause? || a.UpdateConfig? || a.SetPauses? || a.EnableFaucet?
      || a.UpdateFaucetLimits?
  }

  /** A switch leaves the records, the tokens and the history alone. */
  lemma SwitchTouchesOnlySettings(s: State, a: Action)
    requires IsSwitch(a) && Guard(s, a).Ok?
    ensures var s' := Effect(s, a);
            && s' == s.(attestation := s'.attestation, config := s'.config, signers := s'.signers, faucet := s'.faucet)
            && s'.attestation == s.attestation.(isPaused := s'.attestation.isPaused)
            && s'.config.usdcMint == s.config.usdcMint && s'.config.genesisMinted == s.config.genesisMinted
            && (s'.config.params == s.config.params || ValidateParams(s'.config.params).Ok?)
            && s'.faucet.users == s.faucet.users && s'.faucet.global == s.faucet.global
            && (s'.faucet.limits == s.faucet.limits || Faucet.ValidateFaucetLimits(s'.faucet.limits).Ok?)
  {
  }

  lemma SettingsKeep(s: State, s': State)
    requires Inv(s)
    requires s' == s.(attestation := s'.attestation, config := s'.config, signers := s'.signers, faucet := s'.faucet)
    requires s'.attestation == s.attestation.(isPaused := s'.attestation.isPaused)
    requires s'.config.usdcMint == s.config.usdcMint && s'.config.genesisMinted == s.config.genesisMinted
    requires ValidateParams(s'.config.params).Ok?
    requires s'.faucet.users == s.faucet.users && s'.faucet.global == s.faucet.global
    requires Faucet.ValidateFaucetLimits(s'.faucet.limits).Ok?
    ensures Inv(s')
  {
    SameRecords(s, s');
    var today := Faucet.CurrentDayIndex(s.now);
    Faucet.SameCountersAgree(s.faucet, s'.faucet, s.history.payouts, today, today);
  }

  lemma SwitchKeeps(s: State, a: Action)
    requires Inv(s) && IsSwitch(a) && Guard(s, a).Ok?
    ensures Inv(Effect(s, a))
  {
    SwitchTouchesOnlySettings(s, a);
    SettingsKeep(s, Effect(s, a));
  }

  lemma AttestationKeeps(s: State, a: Action)
    requires Inv(s) && Guard(s, a).Ok?
    requires a.Submit? || a.OpenChallenge? || a.ResolveChallenge? || a.TimeoutChallenge?
             || a.FinalizeReceipt? || a.CloseReceipt? || a.CloseChallenge?
    ensures Inv(Effect(s, a))
  {
    match a
    case Submit(x) => SubmitKeeps(s, x);
    case OpenChallenge(n, challenger, token, challengeType, evidence) =>
      OpenKeeps(s, n, challenger, token, challengeType, evidence);
    case ResolveChallenge(n, code, challengerToken, payerToken) =>
      ResolveKeeps(s, n, code, challengerToken, payerToken);
    case TimeoutChallenge(n) => TimeoutKeeps(s, n);
    case FinalizeReceipt(n, token) => FinalizeKeeps(s, n, token);
    case CloseReceipt(n) => CloseReceiptKeeps(s, n);
    case CloseChallenge(n) => CloseChallengeKeeps(s, n);
  }

  lemma AccountsKeep(s: State, a: Action)
    requires Inv(s) && Guard(s, a).Ok?
    requires a.RegisterProvider? || a.ExitProvider?
    ensures Inv(Effect(s, a))
  {
    match a
    case RegisterProvider(wallet, token) => RegisterKeeps(s, wallet, token);
    case ExitProvider(wallet, token) => ExitKeeps(s, wallet, token);
  }

  lemma RewardsKeep(s: State, a: Action)
    requires Inv(s) && Guard(s, a).Ok?
    requires a.ReleaseReward? || a.ClaimReward?
    ensures Inv(Effect(s, a))
  {
    match a
    case ReleaseReward(n, code, key, amount) => ReleaseKeeps(s, n, code, key, amount);
    case ClaimReward(key, claimant, token) => ClaimKeeps(s, key, claimant, token);
  }

  lemma FaucetKeeps(s: State, a: Action)
    requires Inv(s) && Guard(s, a).Ok?
    requires a.FundFaucet? || a.ClaimFaucet?
    ensures Inv(Effect(s, a))
  {
    match a
    case FundFaucet(amount) => FundFaucetKeeps(s, amount);
    case ClaimFaucet(c) => FaucetClaimKeeps(s, c);
  }

  /** Every instruction, and everything around them, keeps the invariant. */
  lemma ApplyKeeps(s: State, a: Action)
    requires Inv(s)
    ensures Inv(Apply(s, a))
  {
    if Guard(s, a).Ok? {
      if IsSwitch(a) {
        SwitchKeeps(s, a);
      } else if a.Submit? || a.OpenChallenge? || a.ResolveChallenge? || a.TimeoutChallenge?
                || a.FinalizeReceipt? || a.CloseReceipt? || a.CloseChallenge? {
        AttestationKeeps(s, a);
      } else if a.RegisterProvider? || a.ExitProvider? {
        AccountsKeep(s, a);
      } else if a.ReleaseReward? || a.ClaimReward? {
        RewardsKeep(s, a);
      } else if a.FundFaucet? || a.ClaimFaucet? {
        FaucetKeeps(s, a);
      } else {
        match a
        case Tick(now) => TickKeeps(s, now);
        case Outside(l) => OutsideKeeps(s, l);
        case MintGenesis => GenesisKeeps(s);
      }
    }
  }

  lemma {:induction false} RunKeeps(s: State, actions: seq<Action>)
    requires Inv(s)
    ensures Inv(Run(s, actions))
    decreases |actions|
  {
    if actions != [] {
      ApplyKeeps(s, actions[0]);
      RunKeeps(Apply(s, actions[0]), actions[1..]);
    }
  }

  /** Safety over every run from deployment on. */
  lemma ReachableIsOk(s: State, actions: seq<Action>)
    requires Initial(s)
    ensures Inv(Run(s, actions))
  {
    InitialIsOk(s);
    RunKeeps(s, actions);
  }
}

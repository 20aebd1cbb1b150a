/** What was agreed when a receipt was recorded or a bond posted stays so: over any run only its progress changes. */
module Terms {
  import opened Widths
  import opened TokenLedger
  import opened Accounts
  import opened Masterpool
  import opened Attestation
  import opened Invariant
  import opened StepsReceipt
  import opened StepsFinalize
  import opened StepsChallenge
  import opened StepsMoney
  import opened Runs
  import opened Lifecycle

  /** The same payer, provider, amounts and lock. */
  predicate SameTerms(st: Settlement, st': Settlement) {
    st' == st.(status := st'.status, lockStartedAt := st'.lockStartedAt,
               userClawReleased := st'.userClawReleased, providerClawReleased := st'.providerClawReleased)
  }

  /** One step of a settlement: recorded ones may be settled, which starts their lock, or reverted; what was released
      only grows, and only where a lock started at a positive time. */
  predicate Ages(st: Settlement, st': Settlement, now: i64) {
    && SameTerms(st, st')
    && st.userClawReleased <= st'.userClawReleased && st.providerClawReleased <= st'.providerClawReleased
    && (st.lockStartedAt <= 0 ==>
          st'.userClawReleased == st.userClawReleased && st'.providerClawReleased == st.providerClawReleased)
    && (|| (st'.status == st.status && st'.lockStartedAt == st.lockStartedAt)
        || (st.status == Recorded && st'.status == FinalizedSettled && st'.lockStartedAt == now)
        || (st.status == Recorded && st'.status == ChallengedReverted && st'.lockStartedAt == st.lockStartedAt))
  }

  /** One step of a bond: only a locked one changes, and only its status. */
  predicate Resolves(b: Bond, b': Bond) {
    b' == b.(status := b'.status) && (b.status != Locked ==> b' == b)
  }

  ghost predicate Older(s: State, s': State, n: Nonce) {
    && (n in s.settlements ==> n in s'.settlements && Ages(s.settlements[n], s'.settlements[n], s.now))
    && (n !in s.settlements && n in s'.settlements ==> s'.settlements[n].status == Recorded)
    && (n in s.bonds ==> n in s'.bonds && Resolves(s.bonds[n], s'.bonds[n]))
  }

  // ---- one step ------------------------------------------------------------

  lemma SubmitAges(s: State, x: Submission, n: Nonce)
    requires SubmitGuard(s, x).Ok?
    ensures Older(s, SubmitEffect(s, x), n)
  {
    SubmitGuardMeans(s, x);
  }

  lemma OpenAges(s: State, m: Nonce, challenger: Pubkey, token: TokenId, challengeType: u8, evidence: Bytes32, n: Nonce)
    requires Inv(s) && OpenGuard(s, m, challenger, token, challengeType).Ok?
    ensures Older(s, OpenEffect(s, m, challenger, token, challengeType, evidence), n)
  {
    assert ReceiptOk(s, m);
  }

  lemma RejectionAges(s: State, m: Nonce, n: Nonce)
    requires Inv(s) && m in s.receipts && m in s.challenges && s.challenges[m].status == Open && RejectGuard(s, m).Ok?
    ensures Older(s, AfterRejection(s, m), n)
  {
    OpenChallengeIsResolvable(s, m);
  }

  lemma AcceptanceAges(
    s: State, m: Nonce, challengerToken: TokenId, payerToken: TokenId, c: Challenge, r: Receipt, n: Nonce)
    requires Acceptable(s, m, challengerToken, payerToken)
    ensures Older(s, WithChallenge(AcceptEffect(s, m, challengerToken, payerToken), m, c, r), n)
  {
  }

  lemma ResolveAges(s: State, m: Nonce, code: u8, challengerToken: TokenId, payerToken: TokenId, n: Nonce)
    requires Inv(s) && ResolveGuard(s, m, code, challengerToken, payerToken).Ok?
    ensures Older(s, ResolveEffect(s, m, code, challengerToken, payerToken), n)
  {
    if ResolutionOf(code).value == RejectedCode {
      RejectionAges(s, m, n);
    } else {
      var s' := ResolveEffect(s, m, code, challengerToken, payerToken);
      RulingIsAcceptance(s, m, code, challengerToken, payerToken);
      AcceptanceAges(s, m, challengerToken, payerToken, s'.challenges[m], s'.receipts[m], n);
    }
  }

  lemma FinalizeAges(s: State, m: Nonce, to: TokenId, n: Nonce)
    requires Inv(s) && FinalizeGuard(s, m, to).Ok?
    ensures Older(s, FinalizeEffect(s, m, to), n)
  {
    FinalizableIsRecorded(s, m, to);
  }

  lemma ReleaseAges(s: State, m: Nonce, kind: RewardKind, key: RewardKey, amount: int, n: Nonce)
    requires m in s.settlements && s.settlements[m].lockStartedAt > 0 && key in s.rewards && amount >= 0
    ensures Older(s, ReleaseWith(s, m, kind, key, amount), n)
  {
  }

  lemma RestAges(s: State, a: Action, n: Nonce)
    requires Guard(s, a).Ok? && !IsEconomic(a) && !a.ReleaseReward?
    ensures Older(s, Effect(s, a), n)
  {
    if a.RegisterProvider? || a.ExitProvider? || a.ClaimReward? || a.MintGenesis? || a.FundFaucet? || a.ClaimFaucet? {
      MoneyKeepsRecords(s, a);
    }
  }

  lemma EconomicsAge(s: State, a: Action, n: Nonce)
    requires Inv(s) && Guard(s, a).Ok? && IsEconomic(a)
    ensures Older(s, Effect(s, a), n)
  {
    match a
    case Submit(x) => SubmitAges(s, x, n);
    case OpenChallenge(m, challenger, token, challengeType, evidence) =>
      OpenAges(s, m, challenger, token, challengeType, evidence, n);
    case ResolveChallenge(m, code, challengerToken, payerToken) =>
      ResolveAges(s, m, code, challengerToken, payerToken, n);
    case TimeoutChallenge(m) => RejectionAges(s, m, n);
    case FinalizeReceipt(m, to) => FinalizeAges(s, m, to, n);
  }

  /** Every step, succeeding or failing, only ages settlements and resolves bonds. */
  lemma StepsAge(s: State, a: Action, n: Nonce)
    requires Inv(s)
    ensures Older(s, Apply(s, a), n)
  {
    if Guard(s, a).Ok? {
      if IsEconomic(a) {
        EconomicsAge(s, a, n);
      } else if a.ReleaseReward? {
        ReleaseGuardMeans(s, a.nonce, a.code, a.key, a.amount);
        ReleaseAges(s, a.nonce, ReleaseTarget(a.code).value, a.key, a.amount, n);
      } else {
        RestAges(s, a, n);
      }
    }
  }

  // ---- whole runs ----------------------------------------------------------

  /** Over any run, with any steps and any parameter changes in it: a settlement once written keeps its terms for ever,
      what it released never shrinks, and a bond keeps everything but its status, which is final once resolved. */
  lemma {:induction false} TermsNeverChange(s: State, actions: seq<Action>, n: Nonce)
    requires Inv(s)
    ensures n in s.settlements ==>
      && n in Run(s, actions).settlements
      && var st, st' := s.settlements[n], Run(s, actions).settlements[n];
         && SameTerms(st, st')
         && st.userClawReleased <= st'.userClawReleased && st.providerClawReleased <= st'.providerClawReleased
         && (st.status != Recorded ==> st'.status == st.status && st'.lockStartedAt == st.lockStartedAt)
    ensures n in s.bonds ==> n in Run(s, actions).bonds && Resolves(s.bonds[n], Run(s, actions).bonds[n])
    decreases |actions|
  {
    if actions != [] {
      StepsAge(s, actions[0], n);
      ApplyKeeps(s, actions[0]);
      TermsNeverChange(Apply(s, actions[0]), actions[1..], n);
    }
  }

  lemma NothingToRelease(s: State, n: Nonce, code: u8, key: RewardKey, amount: u64)
    requires n in s.settlements && s.settlements[n].lockStartedAt <= 0
    ensures ReleaseGuard(s, n, code, key, amount).Err?
  {
  }

  /** A settlement whose lock started at or before time zero stays as it is for ever: nothing more is released of it. */
  lemma {:induction false} LockedForEver(s: State, actions: seq<Action>, n: Nonce)
    requires Inv(s) && n in s.settlements
    requires s.settlements[n].status == FinalizedSettled && s.settlements[n].lockStartedAt <= 0
    ensures n in Run(s, actions).settlements && Run(s, actions).settlements[n] == s.settlements[n]
    decreases |actions|
  {
    if actions != [] {
      StepsAge(s, actions[0], n);
      ApplyKeeps(s, actions[0]);
      LockedForEver(Apply(s, actions[0]), actions[1..], n);
    }
  }

  ghost predicate LocksArePositive(s: State) {
    s.now > 0 && forall n :: n in s.settlements && s.settlements[n].status == FinalizedSettled ==>
      s.settlements[n].lockStartedAt > 0
  }

  lemma ClockGoesOn(s: State, a: Action)
    ensures Apply(s, a).now >= s.now
  {
    if Guard(s, a).Ok? && a.ResolveChallenge? {
      assert Effect(s, a).now == s.now;
    }
  }

  lemma {:induction false} PositiveLocksStay(s: State, actions: seq<Action>)
    requires Inv(s) && LocksArePositive(s)
    ensures LocksArePositive(Run(s, actions))
    decreases |actions|
  {
    if actions != [] {
      var s' := Apply(s, actions[0]);
      ClockGoesOn(s, actions[0]);
      forall n | n in s'.settlements && s'.settlements[n].status == FinalizedSettled
        ensures s'.settlements[n].lockStartedAt > 0
      {
        StepsAge(s, actions[0], n);
      }
      ApplyKeeps(s, actions[0]);
      PositiveLocksStay(s', actions[1..]);
    }
  }

  /** In a run that starts after time zero, every lock starts at a positive time: no reward is locked for ever. */
  lemma LocksStartPositive(s: State, actions: seq<Action>, n: Nonce)
    requires Initial(s) && s.now > 0
    ensures var end := Run(s, actions);
            n in end.settlements && end.settlements[n].status == FinalizedSettled ==>
              end.settlements[n].lockStartedAt > 0
  {
    InitialIsOk(s);
    PositiveLocksStay(s, actions);
  }
}

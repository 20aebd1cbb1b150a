/** Leaving is final: nothing a departed provider is owed, owes or did can change any more. */
module Leaving {
  import opened Outcomes
  import opened Widths
  import opened Sums
  import opened TokenLedger
  import opened Accounts
  import opened Masterpool
  import opened Attestation
  import opened Invariant
  import opened Facts
  import opened StepsReceipt
  import opened StepsChallenge
  import opened StepsMoney
  import opened Runs
  import opened Lifecycle

  ghost predicate HasLeft(s: State, p: Pubkey) {
    p in s.providers && s.providers[p].status == Exited
  }

  /** What the books say of one settlement of a provider, whatever has been released of it. */
  ghost function Entry(s: State, p: Pubkey, n: Nonce): Option<Settlement> {
    if n in s.settlements && s.settlements[n].provider == p
    then Some(s.settlements[n].(userClawReleased := 0, providerClawReleased := 0))
    else None
  }

  ghost predicate Unmoved(s: State, s': State, p: Pubkey) {
    && HasLeft(s, p) && HasLeft(s', p) && s'.providers[p] == s.providers[p]
    && (forall n :: Entry(s', p, n) == Entry(s, p, n))
  }

  lemma RecordLeavesDeparted(s: State, n: Nonce, c: Charge, st: Settlement, r: Receipt, p: Pubkey)
    requires HasLeft(s, p) && Recordable(s, n, c, st)
    ensures Unmoved(s, WithReceipt(RecordWith(s, n, c, st), n, r), p)
  {
  }

  lemma SubmitLeavesDeparted(s: State, x: Submission, p: Pubkey)
    requires Inv(s) && HasLeft(s, p) && SubmitGuard(s, x).Ok?
    ensures Unmoved(s, SubmitEffect(s, x), p)
  {
    var n, c := Nonce(x.requestNonceHash), SubmittedCharge(x);
    SubmissionIsAdmissible(s, x);
    RecordLeavesDeparted(s, n, c, NewSettlement(s, c), SubmitEffect(s, x).receipts[n], p);
  }

  lemma OpenLeavesDeparted(
    s: State, n: Nonce, challenger: Pubkey, token: TokenId, challengeType: u8, evidence: Bytes32, p: Pubkey)
    requires Inv(s) && HasLeft(s, p) && OpenGuard(s, n, challenger, token, challengeType).Ok?
    ensures Unmoved(s, OpenEffect(s, n, challenger, token, challengeType, evidence), p)
  {
    assert ReceiptOk(s, n);
    RecordedIsCovered(s, n);
  }

  lemma RejectionLeavesDeparted(s: State, n: Nonce, p: Pubkey)
    requires Inv(s) && HasLeft(s, p)
    requires n in s.receipts && n in s.challenges && s.challenges[n].status == Open && RejectGuard(s, n).Ok?
    ensures Unmoved(s, AfterRejection(s, n), p)
  {
    OpenChallengeIsResolvable(s, n);
  }

  lemma AcceptanceLeavesDeparted(
    s: State, n: Nonce, challengerToken: TokenId, payerToken: TokenId, c: Challenge, r: Receipt, p: Pubkey)
    requires HasLeft(s, p) && Acceptable(s, n, challengerToken, payerToken)
    ensures Unmoved(s, WithChallenge(AcceptEffect(s, n, challengerToken, payerToken), n, c, r), p)
  {
  }

  lemma ResolveLeavesDeparted(s: State, n: Nonce, code: u8, challengerToken: TokenId, payerToken: TokenId, p: Pubkey)
    requires Inv(s) && HasLeft(s, p) && ResolveGuard(s, n, code, challengerToken, payerToken).Ok?
    ensures Unmoved(s, ResolveEffect(s, n, code, challengerToken, payerToken), p)
  {
    if ResolutionOf(code).value == RejectedCode {
      RejectionLeavesDeparted(s, n, p);
    } else {
      RulingIsAcceptance(s, n, code, challengerToken, payerToken);
      var s' := ResolveEffect(s, n, code, challengerToken, payerToken);
      AcceptanceLeavesDeparted(s, n, challengerToken, payerToken, s'.challenges[n], s'.receipts[n], p);
    }
  }

  lemma FinalizeLeavesDeparted(s: State, n: Nonce, to: TokenId, p: Pubkey)
    requires Inv(s) && HasLeft(s, p) && FinalizeGuard(s, n, to).Ok?
    ensures Unmoved(s, FinalizeEffect(s, n, to), p)
  {
    assert ReceiptOk(s, n);
    RecordedIsCovered(s, n);
  }

  lemma FilingLeavesDeparted(s: State, a: Action, p: Pubkey)
    requires Inv(s) && HasLeft(s, p) && Guard(s, a).Ok? && (a.Submit? || a.OpenChallenge?)
    ensures Unmoved(s, Effect(s, a), p)
  {
    match a
    case Submit(x) => SubmitLeavesDeparted(s, x, p);
    case OpenChallenge(n, challenger, token, challengeType, evidence) =>
      OpenLeavesDeparted(s, n, challenger, token, challengeType, evidence, p);
  }

  lemma EndingLeavesDeparted(s: State, a: Action, p: Pubkey)
    requires Inv(s) && HasLeft(s, p) && Guard(s, a).Ok?
    requires a.ResolveChallenge? || a.TimeoutChallenge? || a.FinalizeReceipt?
    ensures Unmoved(s, Effect(s, a), p)
  {
    match a
    case ResolveChallenge(n, code, challengerToken, payerToken) =>
      ResolveLeavesDeparted(s, n, code, challengerToken, payerToken, p);
    case TimeoutChallenge(n) => RejectionLeavesDeparted(s, n, p);
    case FinalizeReceipt(n, to) => FinalizeLeavesDeparted(s, n, to, p);
  }

  lemma AccountsLeaveDeparted(s: State, a: Action, p: Pubkey)
    requires HasLeft(s, p) && Guard(s, a).Ok? && (a.RegisterProvider? || a.ExitProvider?)
    ensures Unmoved(s, Effect(s, a), p)
  {
  }

  lemma PaymentsLeaveDeparted(s: State, a: Action, p: Pubkey)
    requires HasLeft(s, p) && Guard(s, a).Ok?
    requires a.ClaimReward? || a.MintGenesis? || a.FundFaucet? || a.ClaimFaucet?
    ensures Unmoved(s, Effect(s, a), p)
  {
    assert Effect(s, a).settlements == s.settlements && Effect(s, a).providers == s.providers;
  }

  lemma ReleaseLeavesDeparted(s: State, n: Nonce, kind: RewardKind, key: RewardKey, amount: int, p: Pubkey)
    requires HasLeft(s, p) && n in s.settlements && key in s.rewards
    ensures Unmoved(s, ReleaseWith(s, n, kind, key, amount), p)
  {
  }

  lemma OtherActionsLeaveDeparted(s: State, a: Action, p: Pubkey)
    requires HasLeft(s, p) && Guard(s, a).Ok? && !IsEconomic(a)
    ensures Unmoved(s, Effect(s, a), p)
  {
    if a.RegisterProvider? || a.ExitProvider? {
      AccountsLeaveDeparted(s, a, p);
    } else if a.ReleaseReward? {
      ReleaseGuardMeans(s, a.nonce, a.code, a.key, a.amount);
      ReleaseLeavesDeparted(s, a.nonce, ReleaseTarget(a.code).value, a.key, a.amount, p);
    } else if a.ClaimReward? || a.MintGenesis? || a.FundFaucet? || a.ClaimFaucet? {
      PaymentsLeaveDeparted(s, a, p);
    }
  }

  lemma {:induction false} LeavingIsFinal(s: State, actions: seq<Action>, p: Pubkey)
    requires Inv(s) && HasLeft(s, p)
    ensures Unmoved(s, Run(s, actions), p)
    decreases |actions|
  {
    if actions != [] {
      var a := actions[0];
      if Guard(s, a).Ok? {
        if IsEconomic(a) {
          if a.Submit? || a.OpenChallenge? {
            FilingLeavesDeparted(s, a, p);
          } else {
            EndingLeavesDeparted(s, a, p);
          }
        } else {
          OtherActionsLeaveDeparted(s, a, p);
        }
      }
      ApplyKeeps(s, a);
      LeavingIsFinal(Apply(s, a), actions[1..], p);
    }
  }

  lemma ExitIsClean(s: State, wallet: Pubkey, to: TokenId)
    requires ExitGuard(s, wallet, to).Ok?
    ensures var left := ExitEffect(s, wallet, to);
            && Apply(s, ExitProvider(wallet, to)) == left && HasLeft(left, wallet)
            && left.providers[wallet].clawNetPosition == s.providers[wallet].clawNetPosition >= 0
            && left.providers[wallet].unsettledReceipts == 0
            && (forall n :: Entry(left, wallet, n) == Entry(s, wallet, n))
  {
    assert ExitEffect(s, wallet, to).settlements == s.settlements;
  }

  lemma DepartedHasNothingRecorded(s: State, s': State, p: Pubkey)
    requires Inv(s') && Unmoved(s, s', p) && s.providers[p].unsettledReceipts == 0
    ensures HasLeft(s', p) && s'.providers[p] == s.providers[p]
    ensures forall n :: n in s'.settlements && s'.settlements[n].provider == p ==> s'.settlements[n].status != Recorded
  {
    forall n | n in s'.settlements && s'.settlements[n].provider == p ensures s'.settlements[n].status != Recorded {
      NothingUnsettled(s', p, n);
    }
  }

  /** A provider that leaves has only settled or reverted receipts and no debt, and after any run it still has exactly
      those and the same net position. */
  lemma LeavingIsCleanAndFinal(s: State, wallet: Pubkey, to: TokenId, actions: seq<Action>)
    requires Inv(s) && ExitGuard(s, wallet, to).Ok?
    ensures var s' := Run(s, [ExitProvider(wallet, to)] + actions);
            && (forall n :: n in s'.settlements && s'.settlements[n].provider == wallet ==>
                s'.settlements[n].status != Recorded)
            && (forall n :: Entry(s', wallet, n) == Entry(s, wallet, n))
            && HasLeft(s', wallet)
            && s'.providers[wallet].clawNetPosition == s.providers[wallet].clawNetPosition >= 0
  {
    var left := Apply(s, ExitProvider(wallet, to));
    var s' := Run(left, actions);
    assert ([ExitProvider(wallet, to)] + actions)[1..] == actions;
    ExitIsClean(s, wallet, to);
    ApplyKeeps(s, ExitProvider(wallet, to));
    LeavingIsFinal(left, actions, wallet);
    RunKeeps(left, actions);
    DepartedHasNothingRecorded(left, s', wallet);
    forall n ensures Entry(s', wallet, n) == Entry(s, wallet, n) {
      assert Entry(s', wallet, n) == Entry(left, wallet, n) == Entry(s, wallet, n);
    }
  }

  /** While a provider is active its counters count: open receipts, and open challenges among them. */
  lemma CountersCount(s: State, p: Pubkey)
    requires Inv(s) && p in s.providers
    ensures s.providers[p].unsettledReceipts == Sum(s.settlements, UnsettledOf(p))
    ensures s.providers[p].unresolvedChallenges == Sum(s.bonds, UnresolvedOf(p))
    ensures s.providers[p].unresolvedChallenges <= s.providers[p].unsettledReceipts
  {
    assert ProviderBalances(s, p);
    ChallengesWithinReceipts(s, p);
  }
}

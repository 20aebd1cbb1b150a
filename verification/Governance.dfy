/** Changing the parameters never reaches back: what a receipt or a bond snapshotted is what it is settled by. */
module Governance {
  import opened Widths
  import opened TokenLedger
  import opened Params
  import opened Accounts
  import opened Masterpool
  import opened Attestation
  import opened Runs

  function WithParams(s: State, p: Phase1Params): State {
    s.(config := s.config.(params := p))
  }

  /** The three instructions that read parameters, and the one that writes them. */
  predicate UsesParams(a: Action) {
    a.Submit? || a.OpenChallenge? || a.RegisterProvider? || a.UpdateConfig?
  }

  lemma AcceptGuardIgnoresParams(s: State, p: Phase1Params, n: Nonce, challengerToken: TokenId, payerToken: TokenId)
    ensures AcceptGuard(WithParams(s, p), n, challengerToken, payerToken)
            == AcceptGuard(s, n, challengerToken, payerToken)
  {
  }

  lemma AcceptEffectIgnoresParams(s: State, p: Phase1Params, n: Nonce, challengerToken: TokenId, payerToken: TokenId)
    requires BondAccounts(s, n) && challengerToken in s.ledger.accounts && payerToken in s.ledger.accounts
    ensures AcceptEffect(WithParams(s, p), n, challengerToken, payerToken)
         == WithParams(AcceptEffect(s, n, challengerToken, payerToken), p)
  {
    assert AcceptLedger(WithParams(s, p), n, challengerToken, payerToken)
      == AcceptLedger(s, n, challengerToken, payerToken);
  }

  lemma ResolveGuardIgnoresParams(
    s: State, p: Phase1Params, n: Nonce, code: u8, challengerToken: TokenId, payerToken: TokenId)
    ensures ResolveGuard(WithParams(s, p), n, code, challengerToken, payerToken)
            == ResolveGuard(s, n, code, challengerToken, payerToken)
  {
    AcceptGuardIgnoresParams(s, p, n, challengerToken, payerToken);
  }

  lemma AcceptedRulingIgnoresParams(
    s: State, p: Phase1Params, n: Nonce, code: u8, challengerToken: TokenId, payerToken: TokenId)
    requires ResolveGuard(s, n, code, challengerToken, payerToken).Ok? && code != 2
    requires ResolveGuard(WithParams(s, p), n, code, challengerToken, payerToken).Ok?
    ensures ResolveEffect(WithParams(s, p), n, code, challengerToken, payerToken)
         == WithParams(ResolveEffect(s, n, code, challengerToken, payerToken), p)
  {
    AcceptEffectIgnoresParams(s, p, n, challengerToken, payerToken);
  }

  lemma RejectionIgnoresParams(
    s: State, p: Phase1Params, n: Nonce, challengerToken: TokenId, payerToken: TokenId)
    requires ResolveGuard(s, n, 2, challengerToken, payerToken).Ok?
    requires ResolveGuard(WithParams(s, p), n, 2, challengerToken, payerToken).Ok?
    ensures ResolveEffect(WithParams(s, p), n, 2, challengerToken, payerToken)
         == WithParams(ResolveEffect(s, n, 2, challengerToken, payerToken), p)
  {
  }

  lemma ResolveIgnoresParams(s: State, p: Phase1Params, a: Action)
    requires a.ResolveChallenge?
    ensures Apply(WithParams(s, p), a) == WithParams(Apply(s, a), p)
  {
    ResolveGuardIgnoresParams(s, p, a.nonce, a.code, a.challengerToken, a.payerToken);
    if ResolveGuard(s, a.nonce, a.code, a.challengerToken, a.payerToken).Ok? {
      if a.code == 2 {
        RejectionIgnoresParams(s, p, a.nonce, a.challengerToken, a.payerToken);
      } else {
        AcceptedRulingIgnoresParams(s, p, a.nonce, a.code, a.challengerToken, a.payerToken);
      }
    }
  }

  lemma TimeoutIgnoresParams(s: State, p: Phase1Params, n: Nonce)
    ensures TimeoutGuard(WithParams(s, p), n) == TimeoutGuard(s, n)
    ensures TimeoutGuard(s, n).Ok? ==> AfterRejection(WithParams(s, p), n) == WithParams(AfterRejection(s, n), p)
  {
  }

  lemma FinalizeIgnoresParams(s: State, p: Phase1Params, n: Nonce, to: TokenId)
    ensures FinalizeGuard(WithParams(s, p), n, to) == FinalizeGuard(s, n, to)
    ensures FinalizeGuard(s, n, to).Ok? ==>
            FinalizeEffect(WithParams(s, p), n, to) == WithParams(FinalizeEffect(s, n, to), p)
  {
  }

  lemma ReleaseIgnoresParams(s: State, p: Phase1Params, n: Nonce, code: u8, key: RewardKey, amount: u64)
    ensures ReleaseGuard(WithParams(s, p), n, code, key, amount) == ReleaseGuard(s, n, code, key, amount)
    ensures ReleaseGuard(s, n, code, key, amount).Ok? ==>
              ReleaseEffect(WithParams(s, p), n, code, key, amount)
                == WithParams(ReleaseEffect(s, n, code, key, amount), p)
  {
  }

  lemma PaymentsIgnoreParams(s: State, p: Phase1Params, a: Action)
    requires a.ClaimReward? || a.ExitProvider? || a.MintGenesis?
    ensures Guard(WithParams(s, p), a) == Guard(s, a)
    ensures Guard(s, a).Ok? ==> Effect(WithParams(s, p), a) == WithParams(Effect(s, a), p)
  {
  }

  lemma FaucetIgnoresParams(s: State, p: Phase1Params, a: Action)
    requires a.FundFaucet? || a.ClaimFaucet?
    ensures Guard(WithParams(s, p), a) == Guard(s, a)
    ensures Guard(s, a).Ok? ==> Effect(WithParams(s, p), a) == WithParams(Effect(s, a), p)
  {
  }

  lemma SwitchIgnoresParams(s: State, p: Phase1Params, a: Action)
    requires IsSwitch(a) && !a.UpdateConfig?
    ensures Guard(WithParams(s, p), a) == Guard(s, a)
    ensures Guard(s, a).Ok? ==> Effect(WithParams(s, p), a) == WithParams(Effect(s, a), p)
  {
  }

  lemma RestIgnoresParams(s: State, p: Phase1Params, a: Action)
    requires a.CloseReceipt? || a.CloseChallenge? || a.Tick? || a.Outside?
    ensures Guard(WithParams(s, p), a) == Guard(s, a)
    ensures Guard(s, a).Ok? ==> Effect(WithParams(s, p), a) == WithParams(Effect(s, a), p)
  {
  }

  lemma ActionIgnoresParams(s: State, p: Phase1Params, a: Action)
    requires !UsesParams(a)
    ensures Apply(WithParams(s, p), a) == WithParams(Apply(s, a), p)
  {
    match a
    case ResolveChallenge(_, _, _, _) => ResolveIgnoresParams(s, p, a);
    case TimeoutChallenge(n) => TimeoutIgnoresParams(s, p, n);
    case FinalizeReceipt(n, to) => FinalizeIgnoresParams(s, p, n, to);
    case ReleaseReward(n, code, key, amount) => ReleaseIgnoresParams(s, p, n, code, key, amount);
    case ClaimReward(_, _, _) => PaymentsIgnoreParams(s, p, a);
    case ExitProvider(_, _) => PaymentsIgnoreParams(s, p, a);
    case MintGenesis => PaymentsIgnoreParams(s, p, a);
    case FundFaucet(_) => FaucetIgnoresParams(s, p, a);
    case ClaimFaucet(_) => FaucetIgnoresParams(s, p, a);
    case CloseReceipt(_) => RestIgnoresParams(s, p, a);
    case CloseChallenge(_) => RestIgnoresParams(s, p, a);
    case Tick(_) => RestIgnoresParams(s, p, a);
    case Outside(_) => RestIgnoresParams(s, p, a);
    case _ => SwitchIgnoresParams(s, p, a);
  }

  /** The run with every change of parameters left out. */
  function WithoutUpdates(actions: seq<Action>): seq<Action> {
    if actions == [] then []
    else (if actions[0].UpdateConfig? then [] else [actions[0]]) + WithoutUpdates(actions[1..])
  }

  lemma UpdateIsForgotten(s: State, p: Phase1Params, a: Action)
    requires a.UpdateConfig?
    ensures WithParams(Apply(s, a), p) == WithParams(s, p)
  {
  }

  /** Inserting any number of parameter changes among steps that record nothing new changes the outcome of none of them:
      settling, resolving, releasing and claiming end in the same state, the parameters aside. */
  lemma {:induction false} UpdatesDoNotReachBack(s: State, p: Phase1Params, actions: seq<Action>)
    requires forall i :: 0 <= i < |actions| && UsesParams(actions[i]) ==> actions[i].UpdateConfig?
    ensures WithParams(Run(s, actions), p) == Run(WithParams(s, p), WithoutUpdates(actions))
    decreases |actions|
  {
    if actions != [] {
      var a, rest := actions[0], actions[1..];
      UpdatesDoNotReachBack(Apply(s, a), p, rest);
      if a.UpdateConfig? {
        UpdateIsForgotten(s, p, a);
        assert WithoutUpdates(actions) == WithoutUpdates(rest);
      } else {
        ActionIgnoresParams(s, p, a);
        RunStep(WithParams(s, p), a, WithoutUpdates(rest));
      }
    }
  }

  // ---- how long parameters last --------------------------------------------

  lemma EconomicsKeepParams(s: State, a: Action)
    requires Guard(s, a).Ok?
    requires a.Submit? || a.OpenChallenge? || a.TimeoutChallenge? || a.FinalizeReceipt? || a.ReleaseReward?
    ensures Effect(s, a).config.params == s.config.params
  {
  }

  lemma ResolvingKeepsParams(s: State, a: Action)
    requires Guard(s, a).Ok? && a.ResolveChallenge?
    ensures Effect(s, a).config.params == s.config.params
  {
  }

  lemma RestKeepsParams(s: State, a: Action)
    requires Guard(s, a).Ok? && !a.UpdateConfig?
    requires !a.Submit? && !a.OpenChallenge? && !a.TimeoutChallenge? && !a.FinalizeReceipt? && !a.ReleaseReward?
    requires !a.ResolveChallenge?
    ensures Effect(s, a).config.params == s.config.params
  {
  }

  lemma OthersKeepParams(s: State, a: Action)
    requires !a.UpdateConfig?
    ensures Apply(s, a).config.params == s.config.params
  {
    if Guard(s, a).Ok? {
      if a.Submit? || a.OpenChallenge? || a.TimeoutChallenge? || a.FinalizeReceipt? || a.ReleaseReward? {
        EconomicsKeepParams(s, a);
      } else if a.ResolveChallenge? {
        ResolvingKeepsParams(s, a);
      } else {
        RestKeepsParams(s, a);
      }
    }
  }

  /** The parameters in force after a run: those of the last update that was accepted. */
  ghost function LastAccepted(p: Phase1Params, actions: seq<Action>): Phase1Params {
    if actions == [] then p
    else
      var last := actions[|actions| - 1];
      if last.UpdateConfig? && ValidateParams(last.params).Ok? then last.params
      else LastAccepted(p, actions[..|actions| - 1])
  }

  /** Over any run the parameters in force are those of the last accepted update, whatever else happens. */
  lemma {:induction false} LastUpdateRules(s: State, actions: seq<Action>)
    ensures Run(s, actions).config.params == LastAccepted(s.config.params, actions)
    decreases |actions|
  {
    if actions != [] {
      var first, last := actions[..|actions| - 1], actions[|actions| - 1];
      assert actions == first + [last];
      LastUpdateRules(s, first);
      RunsCompose(s, first, [last]);
      RunOne(Run(s, first), last);
      if !last.UpdateConfig? {
        OthersKeepParams(Run(s, first), last);
      }
    }
  }
}

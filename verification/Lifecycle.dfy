/** The life of one receipt across both programs: what its status says, and how often it can be charged and
    challenged. */
module Lifecycle {
  import opened Widths
  import opened TokenLedger
  import opened Accounts
  import opened Masterpool
  import opened Attestation
  import opened Invariant
  import opened StepsReceipt
  import opened StepsChallenge
  import opened Runs

  // ---- the two programs agree, in both directions --------------------------

  /** What the masterpool records of a live receipt determines its status in the attestation program, and conversely. */
  lemma StatusesCoincide(s: State, n: Nonce)
    requires Inv(s) && n in s.receipts
    ensures n in s.settlements
    ensures s.receipts[n].payer == s.settlements[n].payer && s.receipts[n].provider == s.settlements[n].provider
    ensures s.receipts[n].status == Submitted
       <==> s.settlements[n].status == Recorded && n !in s.bonds
    ensures s.receipts[n].status == Challenged
       <==> s.settlements[n].status == Recorded && n in s.bonds && s.bonds[n].status == Locked
            && n in s.challenges && s.challenges[n].status == Open
    ensures s.receipts[n].status == Finalized && !s.receipts[n].economicsSettled
       <==> s.settlements[n].status == Recorded && n in s.bonds && s.bonds[n].status == BondBurned
    ensures s.receipts[n].status == Finalized && s.receipts[n].economicsSettled
       <==> s.settlements[n].status == FinalizedSettled
    ensures s.receipts[n].status == Submitted ==> n !in s.challenges
    ensures s.settlements[n].status == FinalizedSettled && n in s.bonds ==> s.bonds[n].status == BondBurned
    ensures s.receipts[n].status == Rejected || s.receipts[n].status == Slashed
       <==> s.settlements[n].status == ChallengedReverted && n in s.bonds && s.bonds[n].status == Returned
  {
    assert ReceiptOk(s, n) && BondOk(s, n) && OutlivingOk(s, n);
  }

  /** `resolve_challenge` does not look at the receipt; it never needs to. */
  lemma OnlyChallengedReceiptsAreResolved(s: State, n: Nonce, code: u8, challengerToken: TokenId, payerToken: TokenId)
    requires Inv(s) && (ResolveGuard(s, n, code, challengerToken, payerToken).Ok? || TimeoutGuard(s, n).Ok?)
    ensures n in s.receipts && n in s.settlements && n in s.bonds
    ensures s.receipts[n].status == Challenged && !s.receipts[n].economicsSettled
    ensures s.settlements[n].status == Recorded && s.bonds[n].status == Locked
  {
    OpenChallengeIsResolvable(s, n);
  }

  /** What a live receipt was charged is what its provider's signer signed. */
  lemma ChargedAsSigned(s: State, n: Nonce)
    requires Inv(s) && n in s.receipts
    ensures n in s.settlements
    ensures VouchedFor(s.sha256, s.config.usdcMint, n, s.receipts[n].receiptHash,
                       s.receipts[n].payer, s.receipts[n].provider, s.settlements[n].usdcTotalPaid)
  {
    assert ReceiptOk(s, n) && HashOk(s, n);
  }

  // ---- a rank that only falls ----------------------------------------------

  /** How many economic steps a nonce still has before it: it is read off the records that are never closed. */
  function Rank(s: State, n: Nonce): nat {
    if n !in s.settlements then 4
    else if s.settlements[n].status != Recorded then 0
    else if n !in s.bonds then 3
    else if s.bonds[n].status == Locked then 2
    else 1
  }

  predicate EconomicOn(a: Action, n: Nonce) {
    match a
    case Submit(x) => Nonce(x.requestNonceHash) == n
    case OpenChallenge(m, _, _, _, _) => m == n
    case ResolveChallenge(m, _, _, _) => m == n
    case TimeoutChallenge(m) => m == n
    case FinalizeReceipt(m, _) => m == n
    case _ => false
  }

  /** The records a rank is read off: which settlements and bonds there are, and their statuses. */
  ghost predicate SameStage(s: State, s': State, n: Nonce) {
    && (n in s.settlements <==> n in s'.settlements)
    && (n in s.settlements && n in s'.settlements ==> s.settlements[n].status == s'.settlements[n].status)
    && (n in s.bonds <==> n in s'.bonds)
    && (n in s.bonds && n in s'.bonds ==> s.bonds[n].status == s'.bonds[n].status)
  }

  lemma SubmitDescends(s: State, x: Submission, n: Nonce)
    requires Inv(s) && SubmitGuard(s, x).Ok?
    ensures Nonce(x.requestNonceHash) == n ==> Rank(s, n) == 4 && Rank(SubmitEffect(s, x), n) == 3
    ensures Nonce(x.requestNonceHash) != n ==> SameStage(s, SubmitEffect(s, x), n)
  {
    assert BondOk(s, n);
  }

  lemma OpenDescends(
    s: State, m: Nonce, challenger: Pubkey, token: TokenId, challengeType: u8, evidence: Bytes32, n: Nonce)
    requires Inv(s) && OpenGuard(s, m, challenger, token, challengeType).Ok?
    ensures var s' := OpenEffect(s, m, challenger, token, challengeType, evidence);
            && (m == n ==> Rank(s, n) == 3 && Rank(s', n) == 2)
            && (m != n ==> SameStage(s, s', n))
  {
    assert ReceiptOk(s, m);
  }

  lemma RejectionDescends(s: State, m: Nonce, n: Nonce)
    requires Inv(s) && m in s.receipts && m in s.challenges && s.challenges[m].status == Open && RejectGuard(s, m).Ok?
    ensures m == n ==> Rank(s, n) == 2 && Rank(AfterRejection(s, m), n) == 1
    ensures m != n ==> SameStage(s, AfterRejection(s, m), n)
  {
    OpenChallengeIsResolvable(s, m);
  }

  lemma AcceptanceDescends(
    s: State, m: Nonce, challengerToken: TokenId, payerToken: TokenId, c: Challenge, r: Receipt, n: Nonce)
    requires Acceptable(s, m, challengerToken, payerToken)
    ensures var s' := WithChallenge(AcceptEffect(s, m, challengerToken, payerToken), m, c, r);
            && (m == n ==> Rank(s, n) == 2 && Rank(s', n) == 0)
            && (m != n ==> SameStage(s, s', n))
  {
  }

  lemma ResolveDescends(s: State, m: Nonce, code: u8, challengerToken: TokenId, payerToken: TokenId, n: Nonce)
    requires Inv(s) && ResolveGuard(s, m, code, challengerToken, payerToken).Ok?
    ensures var s' := ResolveEffect(s, m, code, challengerToken, payerToken);
            && (m == n ==> Rank(s, n) == 2 && Rank(s', n) < 2)
            && (m != n ==> SameStage(s, s', n))
  {
    if ResolutionOf(code).value == RejectedCode {
      RejectionDescends(s, m, n);
    } else {
      var s' := ResolveEffect(s, m, code, challengerToken, payerToken);
      RulingIsAcceptance(s, m, code, challengerToken, payerToken);
      AcceptanceDescends(s, m, challengerToken, payerToken, s'.challenges[m], s'.receipts[m], n);
    }
  }

  lemma SettlingDescends(s: State, m: Nonce, to: TokenId, r: Receipt, n: Nonce)
    requires SettlementAccounts(s, m) && to in s.ledger.accounts
    ensures var s' := WithReceipt(SettleWith(s, m, to), m, r);
            && (m == n ==> Rank(s', n) == 0)
            && (m != n ==> SameStage(s, s', n))
  {
  }

  lemma FinalizeDescends(s: State, m: Nonce, to: TokenId, n: Nonce)
    requires Inv(s) && FinalizeGuard(s, m, to).Ok?
    ensures var s' := FinalizeEffect(s, m, to);
            && (m == n ==> (Rank(s, n) == 3 || Rank(s, n) == 1) && Rank(s', n) == 0)
            && (m != n ==> SameStage(s, s', n))
  {
    assert ReceiptOk(s, m);
    SettlingDescends(s, m, to, FinalizeEffect(s, m, to).receipts[m], n);
  }

  predicate IsEconomic(a: Action) {
    a.Submit? || a.OpenChallenge? || a.ResolveChallenge? || a.TimeoutChallenge? || a.FinalizeReceipt?
  }

  /** The ranks at which a step is possible. */
  predicate StepsAt(a: Action, rank: int) {
    match a
    case Submit(_) => rank == 4
    case OpenChallenge(_, _, _, _, _) => rank == 3
    case ResolveChallenge(_, _, _, _) => rank == 2
    case TimeoutChallenge(_) => rank == 2
    case FinalizeReceipt(_, _) => rank == 3 || rank == 1
    case _ => false
  }

  lemma FilingDescends(s: State, a: Action, n: Nonce)
    requires Inv(s) && Guard(s, a).Ok? && (a.Submit? || a.OpenChallenge?)
    ensures EconomicOn(a, n) ==> StepsAt(a, Rank(s, n)) && Rank(Effect(s, a), n) < Rank(s, n)
    ensures !EconomicOn(a, n) ==> SameStage(s, Effect(s, a), n)
  {
    match a
    case Submit(x) => SubmitDescends(s, x, n);
    case OpenChallenge(m, challenger, token, challengeType, evidence) =>
      OpenDescends(s, m, challenger, token, challengeType, evidence, n);
  }

  lemma EndingDescends(s: State, a: Action, n: Nonce)
    requires Inv(s) && Guard(s, a).Ok? && (a.ResolveChallenge? || a.TimeoutChallenge? || a.FinalizeReceipt?)
    ensures EconomicOn(a, n) ==> StepsAt(a, Rank(s, n)) && Rank(Effect(s, a), n) < Rank(s, n)
    ensures !EconomicOn(a, n) ==> SameStage(s, Effect(s, a), n)
  {
    match a
    case ResolveChallenge(m, code, challengerToken, payerToken) =>
      ResolveDescends(s, m, code, challengerToken, payerToken, n);
    case TimeoutChallenge(m) => RejectionDescends(s, m, n);
    case FinalizeReceipt(m, to) => FinalizeDescends(s, m, to, n);
  }

  /** Each economic step on a nonce strictly lowers its rank, and it is possible only at ranks of its own; it leaves
      every other nonce where it was. */
  lemma EconomicStepsDescend(s: State, a: Action, n: Nonce)
    requires Inv(s) && Guard(s, a).Ok? && IsEconomic(a)
    ensures EconomicOn(a, n) ==> StepsAt(a, Rank(s, n)) && Rank(Effect(s, a), n) < Rank(s, n)
    ensures !EconomicOn(a, n) ==> SameStage(s, Effect(s, a), n)
  {
    if a.Submit? || a.OpenChallenge? {
      FilingDescends(s, a, n);
    } else {
      EndingDescends(s, a, n);
    }
  }

  lemma MoneyKeepsRecords(s: State, a: Action)
    requires Guard(s, a).Ok?
    requires a.RegisterProvider? || a.ExitProvider? || a.ClaimReward? || a.MintGenesis? || a.FundFaucet?
             || a.ClaimFaucet?
    ensures Effect(s, a).settlements == s.settlements && Effect(s, a).bonds == s.bonds
  {
  }

  lemma OtherActionsKeepStages(s: State, a: Action, n: Nonce)
    requires Guard(s, a).Ok? && !IsEconomic(a)
    ensures SameStage(s, Effect(s, a), n)
  {
    if a.RegisterProvider? || a.ExitProvider? || a.ClaimReward? || a.MintGenesis? || a.FundFaucet? || a.ClaimFaucet? {
      MoneyKeepsRecords(s, a);
    }
  }

  lemma SameStageSameRank(s: State, s': State, n: Nonce)
    requires SameStage(s, s', n)
    ensures Rank(s', n) == Rank(s, n)
  {
  }

  /** No other action moves the rank of a nonce. */
  lemma OtherActionsKeepRank(s: State, a: Action, n: Nonce)
    requires Inv(s) && !(Guard(s, a).Ok? && EconomicOn(a, n))
    ensures Rank(Apply(s, a), n) == Rank(s, n)
  {
    if Guard(s, a).Ok? {
      if IsEconomic(a) {
        EconomicStepsDescend(s, a, n);
      } else {
        OtherActionsKeepStages(s, a, n);
      }
      SameStageSameRank(s, Effect(s, a), n);
    }
  }

  /** Successful economic steps on `n` taken while its rank is `r`, over a run. */
  ghost function StepsAtRank(s: State, actions: seq<Action>, n: Nonce, r: nat): nat
    decreases |actions|
  {
    if actions == [] then 0
    else
      (if Guard(s, actions[0]).Ok? && EconomicOn(actions[0], n) && Rank(s, n) == r then 1 else 0)
      + StepsAtRank(Apply(s, actions[0]), actions[1..], n, r)
  }

  /** Over any run each rank is left at most once, and only if it was still ahead. */
  lemma {:induction false} EachRankOnce(s: State, actions: seq<Action>, n: Nonce, r: nat)
    requires Inv(s)
    ensures StepsAtRank(s, actions, n, r) <= if Rank(s, n) >= r then 1 else 0
    decreases |actions|
  {
    if actions != [] {
      var a := actions[0];
      if Guard(s, a).Ok? && EconomicOn(a, n) {
        EconomicStepsDescend(s, a, n);
      } else {
        OtherActionsKeepRank(s, a, n);
      }
      ApplyKeeps(s, a);
      EachRankOnce(Apply(s, a), actions[1..], n, r);
    }
  }

  /** How often a nonce is charged, and how often it is challenged, over a run. */
  ghost function Charges(s: State, actions: seq<Action>, n: Nonce): nat
    decreases |actions|
  {
    if actions == [] then 0
    else
      (if Guard(s, actions[0]).Ok? && EconomicOn(actions[0], n) && actions[0].Submit? then 1 else 0)
      + Charges(Apply(s, actions[0]), actions[1..], n)
  }

  ghost function Challenges(s: State, actions: seq<Action>, n: Nonce): nat
    decreases |actions|
  {
    if actions == [] then 0
    else
      (if Guard(s, actions[0]).Ok? && EconomicOn(actions[0], n) && actions[0].OpenChallenge? then 1 else 0)
      + Challenges(Apply(s, actions[0]), actions[1..], n)
  }

  lemma {:induction false} ChargesAreStepsAtRank(s: State, actions: seq<Action>, n: Nonce)
    requires Inv(s)
    ensures Charges(s, actions, n) <= StepsAtRank(s, actions, n, 4)
    decreases |actions|
  {
    if actions != [] {
      var a := actions[0];
      if Guard(s, a).Ok? && EconomicOn(a, n) {
        EconomicStepsDescend(s, a, n);
      }
      ApplyKeeps(s, a);
      ChargesAreStepsAtRank(Apply(s, a), actions[1..], n);
    }
  }

  lemma {:induction false} ChallengesAreStepsAtRank(s: State, actions: seq<Action>, n: Nonce)
    requires Inv(s)
    ensures Challenges(s, actions, n) <= StepsAtRank(s, actions, n, 3)
    decreases |actions|
  {
    if actions != [] {
      var a := actions[0];
      if Guard(s, a).Ok? && EconomicOn(a, n) {
        EconomicStepsDescend(s, a, n);
      }
      ApplyKeeps(s, a);
      ChallengesAreStepsAtRank(Apply(s, a), actions[1..], n);
    }
  }

  /** Over any run from deployment on, whatever is closed and submitted again: a nonce is charged at most once, and
      challenged at most once. */
  lemma ChargedAndChallengedAtMostOnce(s: State, actions: seq<Action>, n: Nonce)
    requires Initial(s)
    ensures Charges(s, actions, n) <= 1
    ensures Challenges(s, actions, n) <= 1
  {
    InitialIsOk(s);
    EachRankOnce(s, actions, n, 4);
    EachRankOnce(s, actions, n, 3);
    ChargesAreStepsAtRank(s, actions, n);
    ChallengesAreStepsAtRank(s, actions, n);
  }
}

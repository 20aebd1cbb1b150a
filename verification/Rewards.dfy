/** What can be released, when, and the true totals behind the faucet's limits. */
module Rewards {
  import opened Widths
  import opened Sums
  import opened TokenLedger
  import opened Vesting
  import Faucet
  import opened Accounts
  import opened Masterpool
  import opened Invariant
  import opened Facts
  import opened Runs

  // ---- releases ------------------------------------------------------------

  function CodeOf(kind: RewardKind): u8 {
    if kind == UserReward then 0 else 1
  }

  lemma ReleaseIsWithinVested(s: State, n: Nonce, kind: RewardKind, amount: u64)
    requires Inv(s) && n in s.settlements && s.settlements[n].status == FinalizedSettled
    ensures s.settlements[n].lockDays > 0
    ensures var st := s.settlements[n];
            var key := RewardKey(kind, TargetOwner(st, kind));
            && key in s.rewards
            && (ReleaseGuard(s, n, CodeOf(kind), key, amount).Ok? <==>
                  && amount > 0 && st.lockStartedAt > 0
                  && TargetReleased(st, kind) + amount
                       <= Vested(TargetTotal(st, kind), st.lockStartedAt, s.now, st.lockDays)
                  && s.rewards[key].releasedClaw + amount <= U64_MAX)
  {
    var key := RewardKey(kind, TargetOwner(s.settlements[n], kind));
    RestIsLocked(s, n, kind);
    ReleasedAtMostTotal(s, n, kind);
    assert RewardOk(s, key);
  }

  /** Exactly which releases succeed on a settled receipt: a positive amount, with what was released before, up to the
      part of the total that is the part of the lock that has passed, second by second. The owner's locked total is no
      condition, and neither is what was released of other receipts. */
  lemma ReleaseSucceedsExactly(s: State, n: Nonce, kind: RewardKind, amount: u64)
    requires Inv(s) && n in s.settlements && s.settlements[n].status == FinalizedSettled
    ensures var st, user := s.settlements[n], kind == UserReward;
            var key, lock := RewardKey(kind, if user then st.payer else st.provider), st.lockDays * 86_400;
            var total := if user then st.clawToUser else st.clawToProviderLocked;
            var released := if user then st.userClawReleased else st.providerClawReleased;
            && lock > 0 && key in s.rewards
            && (ReleaseGuard(s, n, CodeOf(kind), key, amount).Ok? <==>
                  && amount > 0 && st.lockStartedAt > 0
                  && (released + amount) * lock <= total * SecondsIn(st.lockStartedAt, s.now, st.lockDays)
                  && s.rewards[key].releasedClaw + amount <= U64_MAX)
  {
    var st := s.settlements[n];
    assert VestingOk(s, n, kind);
    VestedIsLinear(TargetTotal(st, kind), st.lockStartedAt, s.now, st.lockDays, TargetReleased(st, kind) + amount);
    ReleaseIsWithinVested(s, n, kind, amount);
  }

  /** Nothing else can be released: of no other receipt, by no other code, for no other account. */
  lemma NothingElseIsReleased(s: State, n: Nonce, code: u8, key: RewardKey, amount: u64)
    requires Inv(s) && ReleaseGuard(s, n, code, key, amount).Ok?
    ensures n in s.settlements && s.settlements[n].status == FinalizedSettled
    ensures (code == 0 && key == RewardKey(UserReward, s.settlements[n].payer))
         || (code == 1 && key == RewardKey(ProviderReward, s.settlements[n].provider))
  {
    assert RewardOk(s, key);
  }

  /** A release moves its amount from locked to released, in the account and in the receipt's own count. */
  lemma ReleaseLeaves(s: State, n: Nonce, code: u8, key: RewardKey, amount: u64)
    requires Inv(s) && ReleaseGuard(s, n, code, key, amount).Ok?
    ensures n in s.settlements && key in s.rewards
    ensures var st, r := s.settlements[n], s.rewards[key];
            ReleaseEffect(s, n, code, key, amount) == s.(
              rewards := s.rewards[key :=
                r.(lockedClaw := r.lockedClaw - amount, releasedClaw := r.releasedClaw + amount)],
              settlements := s.settlements[n :=
                if code == 0 then st.(userClawReleased := st.userClawReleased + amount)
                else st.(providerClawReleased := st.providerClawReleased + amount)])
  {
  }

  /** Once the lock is over the whole rest can be released in one go, with no dust left, if and only if the lock started
      at a positive time; a receipt settled at or before time zero never releases anything. */
  lemma RestIsReleasableExactly(s: State, n: Nonce, kind: RewardKind)
    requires Inv(s) && n in s.settlements && s.settlements[n].status == FinalizedSettled
    requires s.now >= s.settlements[n].lockStartedAt + s.settlements[n].lockDays * SECONDS_PER_UTC_DAY
    requires TargetReleased(s.settlements[n], kind) < TargetTotal(s.settlements[n], kind)
    ensures var st := s.settlements[n];
            var key, rest := RewardKey(kind, TargetOwner(st, kind)), TargetTotal(st, kind) - TargetReleased(st, kind);
            && key in s.rewards && rest <= U64_MAX
            && (s.rewards[key].releasedClaw + rest <= U64_MAX ==>
                  (ReleaseGuard(s, n, CodeOf(kind), key, rest).Ok? <==> st.lockStartedAt > 0))
  {
    var st := s.settlements[n];
    ReleasedAtMostTotal(s, n, kind);
    VestedGrows(TargetTotal(st, kind), st.lockStartedAt, s.now, s.now, st.lockDays);
    ReleaseIsWithinVested(s, n, kind, TargetTotal(st, kind) - TargetReleased(st, kind));
  }

  /** Over any run from deployment on, and any interleaving of releases, what was released of a receipt is at most what
      is vested, and nothing is released before the receipt is settled. */
  lemma NeverOverReleased(s: State, actions: seq<Action>, n: Nonce, kind: RewardKind)
    requires Initial(s) && n in Run(s, actions).settlements
    ensures var end := Run(s, actions);
            var st := end.settlements[n];
            && st.lockDays > 0
            && 0 <= TargetReleased(st, kind)
            && (st.status == FinalizedSettled ==>
                  TargetReleased(st, kind) <= Vested(TargetTotal(st, kind), st.lockStartedAt, end.now, st.lockDays))
            && (st.status != FinalizedSettled ==> TargetReleased(st, kind) == 0)
  {
    ReachableIsOk(s, actions);
    assert VestingOk(Run(s, actions), n, kind);
  }

  // ---- the faucet over runs ------------------------------------------------

  function PayoutOf(now: i64, c: FaucetClaim): Faucet.Payout {
    Faucet.Payout(Faucet.CurrentDayIndex(now), c.recipient, c.claw, c.usdc)
  }

  ghost function PayoutsOfStep(s: State, a: Action): seq<Faucet.Payout> {
    if a.ClaimFaucet? && Guard(s, a).Ok? then [PayoutOf(s.now, a.claim)] else []
  }

  /** The payouts of a run, read off its successful claims. */
  ghost function PayoutsOf(s: State, actions: seq<Action>): seq<Faucet.Payout>
    decreases |actions|
  {
    if actions == [] then []
    else PayoutsOfStep(s, actions[0]) + PayoutsOf(Apply(s, actions[0]), actions[1..])
  }

  lemma EconomicsPayNothingOut(s: State, a: Action)
    requires Guard(s, a).Ok?
    requires a.Submit? || a.OpenChallenge? || a.TimeoutChallenge? || a.FinalizeReceipt? || a.ReleaseReward?
    ensures Effect(s, a).history.payouts == s.history.payouts
  {
  }

  lemma ResolvingPaysNothingOut(s: State, a: Action)
    requires Guard(s, a).Ok? && a.ResolveChallenge?
    ensures Effect(s, a).history.payouts == s.history.payouts
  {
  }

  lemma MoneyPaysNothingOut(s: State, a: Action)
    requires Guard(s, a).Ok?
    requires a.RegisterProvider? || a.ExitProvider? || a.ClaimReward? || a.MintGenesis? || a.FundFaucet?
    ensures Effect(s, a).history.payouts == s.history.payouts
  {
  }

  lemma RestPaysNothingOut(s: State, a: Action)
    requires Guard(s, a).Ok? && (IsSwitch(a) || a.Tick? || a.Outside? || a.CloseReceipt? || a.CloseChallenge?)
    ensures Effect(s, a).history.payouts == s.history.payouts
  {
  }

  lemma StepIsLogged(s: State, a: Action)
    ensures Apply(s, a).history.payouts == s.history.payouts + PayoutsOfStep(s, a)
  {
    if Guard(s, a).Ok? && !a.ClaimFaucet? {
      if a.Submit? || a.OpenChallenge? || a.TimeoutChallenge? || a.FinalizeReceipt? || a.ReleaseReward? {
        EconomicsPayNothingOut(s, a);
      } else if a.ResolveChallenge? {
        ResolvingPaysNothingOut(s, a);
      } else if a.RegisterProvider? || a.ExitProvider? || a.ClaimReward? || a.MintGenesis? || a.FundFaucet? {
        MoneyPaysNothingOut(s, a);
      } else {
        RestPaysNothingOut(s, a);
      }
    }
  }

  lemma Regrouped<T>(a: seq<T>, b: seq<T>, c: seq<T>)
    ensures a + b + c == a + (b + c)
  {
  }

  /** The log is the run's successful claims, and nothing else. */
  lemma {:induction false} LogIsTheRun(s: State, actions: seq<Action>)
    ensures Run(s, actions).history.payouts == s.history.payouts + PayoutsOf(s, actions)
    decreases |actions|
  {
    if actions != [] {
      var s' := Apply(s, actions[0]);
      StepIsLogged(s, actions[0]);
      LogIsTheRun(s', actions[1..]);
      Regrouped(s.history.payouts, PayoutsOfStep(s, actions[0]), PayoutsOf(s', actions[1..]));
    }
  }

  /** Over any run from deployment on, a claim that succeeds at its end leaves that day's payouts of the run, to its
      wallet and in all, within the limits then in force. */
  lemma ClaimsOfARunStayWithinLimits(s: State, actions: seq<Action>, c: FaucetClaim, mint: Mint)
    requires Initial(s) && FaucetClaimGuard(Run(s, actions), c).Ok?
    ensures var end := Run(s, actions);
            var log, day := PayoutsOf(s, actions) + [PayoutOf(end.now, c)], Faucet.CurrentDayIndex(end.now);
            && Faucet.PaidOn(log, mint, day) <= Faucet.GlobalLimit(end.faucet.limits, mint)
            && (c.recipient != Faucet.DEFAULT_PUBKEY ==>
                  Faucet.PaidTo(log, mint, day, c.recipient) <= Faucet.WalletLimit(end.faucet.limits, mint))
  {
    var end := Run(s, actions);
    ReachableIsOk(s, actions);
    LogIsTheRun(s, actions);
    assert end.history.payouts == PayoutsOf(s, actions);
    Faucet.ClaimsStayWithinLimits(end.faucet, end.history.payouts, Faucet.CurrentDayIndex(end.now), c.recipient,
                                  c.claw, c.usdc, mint);
  }

  /** Over any run from deployment on, the global counter of each token is what the run paid out on the stored day, and
      it is the sum over the wallets whose stored day that is; no stored day is later. The all-zero key is counted from
      the run itself, its own record being reset by each of its claims. */
  lemma FaucetCountersAgree(s: State, actions: seq<Action>, mint: Mint)
    requires Initial(s)
    ensures var f, log := Run(s, actions).faucet, PayoutsOf(s, actions);
            && Faucet.GlobalCounter(f.global, mint) == Faucet.PaidOn(log, mint, f.global.day)
            && Faucet.GlobalCounter(f.global, mint)
                 == Sum(f.users, Faucet.Today(mint, f.global.day))
                    + Faucet.PaidTo(log, mint, f.global.day, Faucet.DEFAULT_PUBKEY)
            && forall w :: w in f.users ==> f.users[w].day <= f.global.day
  {
    var end := Run(s, actions);
    ReachableIsOk(s, actions);
    LogIsTheRun(s, actions);
    assert end.history.payouts == PayoutsOf(s, actions);
    assert Faucet.GlobalAgrees(end.faucet, end.history.payouts, mint);
  }
}

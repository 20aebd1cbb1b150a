/** Governance parameters: what validation accepts, and what acceptance guarantees at run time. */
module Params {
  import opened Outcomes
  import opened Widths

  datatype Phase1Params = Phase1Params(
    exchangeRateClawPerUsdcE6: u64,
    providerStakeUsdc: u64,
    providerUsdcShareBps: u16,
    treasuryUsdcShareBps: u16,
    userClawShareBps: u16,
    providerClawShareBps: u16,
    lockDays: u16,
    providerSlashClawAmount: u64,
    challengerRewardBps: u16,
    burnBps: u16,
    challengeBondClawAmount: u64)

  /** `map_err`: whatever fails while probing the bounds is reported as bad parameters. */
  function AsGovernance<T>(r: Result<T>): Result<T> {
    if r.Ok? then r else Err(InvalidGovernanceParameters)
  }

  function ValidateParamBounds(p: Phase1Params): Result<()> {
    var maxTreasuryUsdc :- AsGovernance(CalculateBpsAmount(MAX_RECEIPT_USDC_ATOMIC, p.treasuryUsdcShareBps));
    var _ :- AsGovernance(CheckedSubU64(MAX_RECEIPT_USDC_ATOMIC, maxTreasuryUsdc));
    var maxTotalClaw :- AsGovernance(CalculateClawAmount(MAX_RECEIPT_USDC_ATOMIC, p.exchangeRateClawPerUsdcE6));
    var maxUserClaw :- AsGovernance(CalculateBpsAmount(maxTotalClaw, p.userClawShareBps));
    var _ :- AsGovernance(CheckedSubU64(maxTotalClaw, maxUserClaw));
    var challengerReward :- AsGovernance(CalculateBpsAmount(p.providerSlashClawAmount, p.challengerRewardBps));
    var _ :- AsGovernance(CheckedSubU64(p.providerSlashClawAmount, challengerReward));
    Ok(())
  }

  function ValidateParams(p: Phase1Params): Result<()> {
    var positive := p.exchangeRateClawPerUsdcE6 > 0 && p.providerStakeUsdc > 0 && p.lockDays > 0
                    && p.providerSlashClawAmount > 0 && p.challengeBondClawAmount > 0;
    :- Need(positive, InvalidPositiveAmount);
    :- Need(p.providerUsdcShareBps + p.treasuryUsdcShareBps == BPS_SCALE, InvalidSplitInvariant);
    :- Need(p.userClawShareBps + p.providerClawShareBps == BPS_SCALE, InvalidSplitInvariant);
    :- Need(p.challengerRewardBps + p.burnBps == BPS_SCALE, InvalidSplitInvariant);
    ValidateParamBounds(p)
  }

  // ---- the shares a receipt or a slash is cut into -------------------------

  function TreasuryShare(p: Phase1Params, charge: int): int {
    charge * p.treasuryUsdcShareBps / BPS_SCALE
  }

  function ClawReward(p: Phase1Params, charge: int): int {
    charge * p.exchangeRateClawPerUsdcE6 / RATE_SCALE
  }

  function UserClaw(p: Phase1Params, charge: int): int {
    ClawReward(p, charge) * p.userClawShareBps / BPS_SCALE
  }

  function ChallengerReward(p: Phase1Params): int {
    p.providerSlashClawAmount * p.challengerRewardBps / BPS_SCALE
  }

  /** What is left after rounding one share down is the other share rounded up. */
  ghost predicate IsCeilingShare(part: int, whole: int, bps: int) {
    (part - 1) * BPS_SCALE < whole * bps <= part * BPS_SCALE
  }

  lemma SplitIsExact(whole: int, bps: int)
    requires 0 <= whole && 0 <= bps <= BPS_SCALE
    ensures 0 <= whole * bps / BPS_SCALE <= whole
    ensures IsCeilingShare(whole - whole * bps / BPS_SCALE, whole, BPS_SCALE - bps)
  {
    assert 0 <= whole * bps <= whole * BPS_SCALE;
    assert whole * (BPS_SCALE - bps) == whole * BPS_SCALE - whole * bps;
  }

  /** Accepted parameters make every split of every supported charge succeed, with no unit lost. */
  lemma AcceptedParamsAreSafe(p: Phase1Params, charge: int)
    requires ValidateParams(p).Ok?
    requires 0 < charge <= MAX_RECEIPT_USDC_ATOMIC
    ensures CalculateBpsAmount(charge, p.treasuryUsdcShareBps) == Ok(TreasuryShare(p, charge))
    ensures CheckedSubU64(charge, TreasuryShare(p, charge)).Ok?
    ensures CalculateClawAmount(charge, p.exchangeRateClawPerUsdcE6) == Ok(ClawReward(p, charge))
    ensures CalculateBpsAmount(ClawReward(p, charge), p.userClawShareBps) == Ok(UserClaw(p, charge))
    ensures CheckedSubU64(ClawReward(p, charge), UserClaw(p, charge)).Ok?
    ensures IsCeilingShare(charge - TreasuryShare(p, charge), charge, p.providerUsdcShareBps)
    ensures IsCeilingShare(ClawReward(p, charge) - UserClaw(p, charge), ClawReward(p, charge), p.providerClawShareBps)
  {
    SplitIsExact(charge, p.treasuryUsdcShareBps);
    ProductGrows(p.exchangeRateClawPerUsdcE6, charge, MAX_RECEIPT_USDC_ATOMIC);
    assert ClawReward(p, charge) <= MAX_RECEIPT_USDC_ATOMIC * p.exchangeRateClawPerUsdcE6 / RATE_SCALE;
    SplitIsExact(ClawReward(p, charge), p.userClawShareBps);
  }

  /** The same for the slash: challenger's part rounded down, burned part rounded up. */
  lemma AcceptedSlashIsSafe(p: Phase1Params)
    requires ValidateParams(p).Ok?
    ensures CalculateBpsAmount(p.providerSlashClawAmount, p.challengerRewardBps) == Ok(ChallengerReward(p))
    ensures CheckedSubU64(p.providerSlashClawAmount, ChallengerReward(p)).Ok?
    ensures IsCeilingShare(p.providerSlashClawAmount - ChallengerReward(p), p.providerSlashClawAmount, p.burnBps)
  {
    SplitIsExact(p.providerSlashClawAmount, p.challengerRewardBps);
  }

  /** Exactly which parameters are accepted: of the seven bounds probed, only the largest reward can overflow. */
  lemma AcceptanceCriterion(p: Phase1Params)
    ensures ValidateParams(p).Ok? <==>
      && p.exchangeRateClawPerUsdcE6 > 0 && p.providerStakeUsdc > 0 && p.lockDays > 0
      && p.providerSlashClawAmount > 0 && p.challengeBondClawAmount > 0
      && p.providerUsdcShareBps + p.treasuryUsdcShareBps == 1_000
      && p.userClawShareBps + p.providerClawShareBps == 1_000
      && p.challengerRewardBps + p.burnBps == 1_000
      && 1_000_000_000_000_000 * p.exchangeRateClawPerUsdcE6 / 1_000_000 <= U64_MAX
  {
    if p.treasuryUsdcShareBps <= BPS_SCALE && p.userClawShareBps <= BPS_SCALE && p.challengerRewardBps <= BPS_SCALE {
      SplitIsExact(MAX_RECEIPT_USDC_ATOMIC, p.treasuryUsdcShareBps);
      SplitIsExact(ClawReward(p, MAX_RECEIPT_USDC_ATOMIC), p.userClawShareBps);
      SplitIsExact(p.providerSlashClawAmount, p.challengerRewardBps);
    }
  }
}

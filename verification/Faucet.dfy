/** The faucet's lazily reset day windows, checked against a log of everything it ever paid out. */
module Faucet {
  import opened Outcomes
  import opened Widths
  import opened Sums
  import opened TokenLedger

  /** `Pubkey::default()`: thirty-two zero bytes. */
  const DEFAULT_PUBKEY := Pubkey([
    0, 0, 0, 0, 0, 0, 0, 0, 0, 0, 0, 0, 0, 0, 0, 0, 0, 0, 0, 0, 0, 0, 0, 0, 0, 0, 0, 0, 0, 0, 0, 0])

  datatype FaucetLimits = FaucetLimits(
    maxClawPerClaim: u64, maxUsdcPerClaim: u64,
    maxClawPerWalletPerDay: u64, maxUsdcPerWalletPerDay: u64,
    maxClawGlobalPerDay: u64, maxUsdcGlobalPerDay: u64)

  datatype FaucetGlobal = FaucetGlobal(day: int, claw: int, usdc: int)

  datatype FaucetUser = FaucetUser(owner: Pubkey, day: int, claw: int, usdc: int)

  datatype FaucetState = FaucetState(
    enabled: bool, limits: FaucetLimits, global: FaucetGlobal, users: map<Pubkey, FaucetUser>)

  const DEFAULT_LIMITS := FaucetLimits(
    10 * RATE_SCALE, 10 * RATE_SCALE, 50 * RATE_SCALE, 50 * RATE_SCALE, 50_000 * RATE_SCALE, 50_000 * RATE_SCALE)

  function ValidateFaucetLimits(l: FaucetLimits): Result<()> {
    var positive := l.maxClawPerClaim > 0 && l.maxUsdcPerClaim > 0
                    && l.maxClawPerWalletPerDay > 0 && l.maxUsdcPerWalletPerDay > 0
                    && l.maxClawGlobalPerDay > 0 && l.maxUsdcGlobalPerDay > 0;
    if !positive then Err(InvalidFaucetLimits) else
    if !(l.maxClawPerClaim <= l.maxClawPerWalletPerDay && l.maxUsdcPerClaim <= l.maxUsdcPerWalletPerDay)
    then Err(InvalidFaucetLimits) else
    if !(l.maxClawPerWalletPerDay <= l.maxClawGlobalPerDay && l.maxUsdcPerWalletPerDay <= l.maxUsdcGlobalPerDay)
    then Err(InvalidFaucetLimits) else
    Ok(())
  }

  /** `checked_div` on i64 truncates toward zero. */
  function CurrentDayIndex(unixTimestamp: int): int {
    if unixTimestamp >= 0 then unixTimestamp / SECONDS_PER_UTC_DAY else -(-unixTimestamp / SECONDS_PER_UTC_DAY)
  }

  /** Days are counted from time zero toward both sides, so that day zero lasts almost twice as long as any other. */
  lemma DaysTruncate(unixTimestamp: int, day: int)
    ensures CurrentDayIndex(unixTimestamp) == day <==>
            if day > 0 then day * 86_400 <= unixTimestamp < (day + 1) * 86_400
            else if day < 0 then (day - 1) * 86_400 < unixTimestamp <= day * 86_400
            else -86_400 < unixTimestamp < 86_400
  {
  }

  lemma DaysGrow(t: int, later: int)
    requires t <= later
    ensures CurrentDayIndex(t) <= CurrentDayIndex(later)
  {
  }

  // ---- one claim -----------------------------------------------------------

  function GlobalOn(g: FaucetGlobal, day: int): FaucetGlobal {
    if g.day != day then FaucetGlobal(day, 0, 0) else g
  }

  /** The user record a claim starts from: a new or sentinel-owned record, or one of another day, starts at zero. */
  function UserOn(users: map<Pubkey, FaucetUser>, recipient: Pubkey, day: int): FaucetUser {
    if recipient !in users || users[recipient].owner == DEFAULT_PUBKEY || users[recipient].day != day
    then FaucetUser(recipient, day, 0, 0)
    else users[recipient]
  }

  /** Everything a claim checks before it looks at token accounts. */
  function ClaimGuard(f: FaucetState, day: int, recipient: Pubkey, claw: int, usdc: int): Result<()> {
    var u, g := UserOn(f.users, recipient, day), GlobalOn(f.global, day);
    if !f.enabled then Err(FaucetDisabled) else
    if !(claw > 0 || usdc > 0) then Err(InvalidFaucetAmount) else
    if !(claw <= f.limits.maxClawPerClaim && usdc <= f.limits.maxUsdcPerClaim) then Err(FaucetClaimLimitExceeded) else
    if !(FitsU64(u.claw + claw) && FitsU64(u.usdc + usdc)) then Err(MathOverflow) else
    if !(u.claw + claw <= f.limits.maxClawPerWalletPerDay && u.usdc + usdc <= f.limits.maxUsdcPerWalletPerDay)
    then Err(FaucetWalletDailyLimitExceeded) else
    if !(FitsU64(g.claw + claw) && FitsU64(g.usdc + usdc)) then Err(MathOverflow) else
    if !(g.claw + claw <= f.limits.maxClawGlobalPerDay && g.usdc + usdc <= f.limits.maxUsdcGlobalPerDay)
    then Err(FaucetGlobalDailyLimitExceeded) else
    Ok(())
  }

  function Claimed(f: FaucetState, day: int, recipient: Pubkey, claw: int, usdc: int): FaucetState {
    var u := UserOn(f.users, recipient, day);
    var g := GlobalOn(f.global, day);
    f.(users := f.users[recipient := u.(claw := u.claw + claw, usdc := u.usdc + usdc)],
       global := g.(claw := g.claw + claw, usdc := g.usdc + usdc))
  }

  // ---- the log -------------------------------------------------------------

  datatype Payout = Payout(day: int, wallet: Pubkey, claw: int, usdc: int)

  function PaidAmount(p: Payout, mint: Mint): int {
    if mint.Claw? then p.claw else p.usdc
  }

  function GlobalCounter(g: FaucetGlobal, mint: Mint): int {
    if mint.Claw? then g.claw else g.usdc
  }

  function UserCounter(u: FaucetUser, mint: Mint): int {
    if mint.Claw? then u.claw else u.usdc
  }

  function WalletLimit(l: FaucetLimits, mint: Mint): int {
    if mint.Claw? then l.maxClawPerWalletPerDay else l.maxUsdcPerWalletPerDay
  }

  function GlobalLimit(l: FaucetLimits, mint: Mint): int {
    if mint.Claw? then l.maxClawGlobalPerDay else l.maxUsdcGlobalPerDay
  }

  /** Paid out on a day in all. */
  ghost function PaidOn(log: seq<Payout>, mint: Mint, day: int): int {
    if log == [] then 0
    else
      var last := log[|log| - 1];
      PaidOn(log[..|log| - 1], mint, day) + if last.day == day then PaidAmount(last, mint) else 0
  }

  /** Paid out on a day to one wallet. */
  ghost function PaidTo(log: seq<Payout>, mint: Mint, day: int, wallet: Pubkey): int {
    if log == [] then 0
    else
      var last := log[|log| - 1];
      PaidTo(log[..|log| - 1], mint, day, wallet)
      + if last.day == day && last.wallet == wallet then PaidAmount(last, mint) else 0
  }

  /** Paid out in all. */
  ghost function PaidEver(log: seq<Payout>, mint: Mint): int {
    if log == [] then 0 else PaidEver(log[..|log| - 1], mint) + PaidAmount(log[|log| - 1], mint)
  }

  ghost function Today(mint: Mint, day: int): FaucetUser -> int {
    (u: FaucetUser) => if u.owner != DEFAULT_PUBKEY && u.day == day then UserCounter(u, mint) else 0
  }

  ghost predicate Filed(f: FaucetState, p: Payout) {
    p.wallet in f.users && p.day <= f.users[p.wallet].day <= f.global.day && p.claw >= 0 && p.usdc >= 0
  }

  ghost predicate UserAgrees(f: FaucetState, log: seq<Payout>, w: Pubkey, mint: Mint)
    requires w in f.users
  {
    UserCounter(f.users[w], mint) == PaidTo(log, mint, f.users[w].day, w)
  }

  /** The global counter is the day's total in the log, and the sum over the users whose stored day it is. */
  ghost predicate GlobalAgrees(f: FaucetState, log: seq<Payout>, mint: Mint) {
    && GlobalCounter(f.global, mint) == PaidOn(log, mint, f.global.day)
    && GlobalCounter(f.global, mint)
         == Sum(f.users, Today(mint, f.global.day)) + PaidTo(log, mint, f.global.day, DEFAULT_PUBKEY)
  }

  /** The agreement of counters and log. The wallet counter of the sentinel key is reset by every claim, so it is
      left out here; `SentinelEscapesItsLimit` shows why. */
  ghost predicate FaucetOk(f: FaucetState, log: seq<Payout>, today: int) {
    && ValidateFaucetLimits(f.limits).Ok?
    && f.global.day <= today
    && (forall w :: w in f.users ==> f.users[w].owner == w && f.users[w].day <= f.global.day)
    && (forall p :: p in log ==> Filed(f, p))
    && (forall w, mint :: w in f.users && w != DEFAULT_PUBKEY ==> UserAgrees(f, log, w, mint))
    && (forall mint :: GlobalAgrees(f, log, mint))
  }

  lemma {:induction false} NothingPaidOn(log: seq<Payout>, mint: Mint, day: int)
    requires forall p :: p in log ==> p.day < day
    ensures PaidOn(log, mint, day) == 0
  {
    if log != [] {
      NothingPaidOn(log[..|log| - 1], mint, day);
    }
  }

  lemma {:induction false} NothingPaidTo(log: seq<Payout>, mint: Mint, day: int, wallet: Pubkey)
    requires forall p :: p in log ==> p.wallet != wallet || p.day < day
    ensures PaidTo(log, mint, day, wallet) == 0
  {
    if log != [] {
      NothingPaidTo(log[..|log| - 1], mint, day, wallet);
    }
  }

  /** What the lazily reset records show at the start of a claim is what the log says about that day. */
  lemma ResetAgrees(f: FaucetState, log: seq<Payout>, today: int, recipient: Pubkey, mint: Mint)
    requires FaucetOk(f, log, today)
    ensures GlobalCounter(GlobalOn(f.global, today), mint) == PaidOn(log, mint, today)
    ensures recipient != DEFAULT_PUBKEY ==>
              UserCounter(UserOn(f.users, recipient, today), mint) == PaidTo(log, mint, today, recipient)
    ensures Sum(f.users, Today(mint, today)) + PaidTo(log, mint, today, DEFAULT_PUBKEY)
         == GlobalCounter(GlobalOn(f.global, today), mint)
  {
    assert GlobalAgrees(f, log, mint);
    if f.global.day != today {
      NothingPaidOn(log, mint, today);
      NothingPaidTo(log, mint, today, DEFAULT_PUBKEY);
      SumZero(f.users, Today(mint, today));
    }
    if recipient !in f.users || f.users[recipient].day != today {
      NothingPaidTo(log, mint, today, recipient);
    } else if recipient != DEFAULT_PUBKEY {
      assert UserAgrees(f, log, recipient, mint);
    }
  }

  /** A claim keeps counters and log in agreement. */
  lemma ClaimKeepsFaucet(f: FaucetState, log: seq<Payout>, today: int, recipient: Pubkey, claw: int, usdc: int)
    requires FaucetOk(f, log, today) && claw >= 0 && usdc >= 0
    ensures FaucetOk(Claimed(f, today, recipient, claw, usdc), log + [Payout(today, recipient, claw, usdc)], today)
  {
    var f' := Claimed(f, today, recipient, claw, usdc);
    var p := Payout(today, recipient, claw, usdc);
    assert (log + [p])[..|log|] == log;
    forall mint ensures GlobalAgrees(f', log + [p], mint) {
      ResetAgrees(f, log, today, recipient, mint);
      SumPut(f.users, recipient, f'.users[recipient], Today(mint, today));
    }
    forall w, mint | w in f'.users && w != DEFAULT_PUBKEY ensures UserAgrees(f', log + [p], w, mint) {
      ResetAgrees(f, log, today, recipient, mint);
      assert w != recipient ==> UserAgrees(f, log, w, mint);
    }
  }

  /** Switching the faucet on or off, or changing its limits, touches no counter; later days keep the agreement too. */
  lemma SameCountersAgree(f: FaucetState, f': FaucetState, log: seq<Payout>, today: int, later: int)
    requires FaucetOk(f, log, today) && today <= later
    requires f'.users == f.users && f'.global == f.global && ValidateFaucetLimits(f'.limits).Ok?
    ensures FaucetOk(f', log, later)
  {
    forall w, mint | w in f'.users && w != DEFAULT_PUBKEY ensures UserAgrees(f', log, w, mint) {
      assert UserAgrees(f, log, w, mint);
    }
    forall mint ensures GlobalAgrees(f', log, mint) {
      assert GlobalAgrees(f, log, mint);
    }
    forall p | p in log ensures Filed(f', p) {
      assert Filed(f, p);
    }
  }

  /** Every accepted claim leaves that day's true totals, per wallet and in all, within the limits in force. */
  lemma ClaimsStayWithinLimits(
    f: FaucetState, log: seq<Payout>, today: int, recipient: Pubkey, claw: int, usdc: int, mint: Mint)
    requires FaucetOk(f, log, today) && claw >= 0 && usdc >= 0
    requires ClaimGuard(f, today, recipient, claw, usdc).Ok?
    ensures var log' := log + [Payout(today, recipient, claw, usdc)];
            && PaidOn(log', mint, today) <= GlobalLimit(f.limits, mint)
            && (recipient != DEFAULT_PUBKEY ==> PaidTo(log', mint, today, recipient) <= WalletLimit(f.limits, mint))
  {
    assert (log + [Payout(today, recipient, claw, usdc)])[..|log|] == log;
    ResetAgrees(f, log, today, recipient, mint);
  }

  /** Whatever agrees with its log, no accepted claim takes the wallet's day over the wallet limit. */
  ghost predicate WalletLimitHolds(wallet: Pubkey) {
    forall f, log, today, claw, usdc, mint ::
      FaucetOk(f, log, today) && claw >= 0 && usdc >= 0 && ClaimGuard(f, today, wallet, claw, usdc).Ok? ==>
        PaidTo(log + [Payout(today, wallet, claw, usdc)], mint, today, wallet) <= WalletLimit(f.limits, mint)
  }

  /** The wallet limit is a limit for every wallet but the one whose key is the uninitialised-account sentinel. */
  lemma WalletLimitHoldsExactly(wallet: Pubkey)
    ensures WalletLimitHolds(wallet) <==> wallet != DEFAULT_PUBKEY
  {
    if wallet == DEFAULT_PUBKEY {
      SentinelEscapesItsLimit();
    } else {
      forall f, log, today, claw, usdc, mint |
        FaucetOk(f, log, today) && claw >= 0 && usdc >= 0 && ClaimGuard(f, today, wallet, claw, usdc).Ok?
        ensures PaidTo(log + [Payout(today, wallet, claw, usdc)], mint, today, wallet) <= WalletLimit(f.limits, mint)
      {
        ClaimsStayWithinLimits(f, log, today, wallet, claw, usdc, mint);
      }
    }
  }

  const TIGHT := FaucetLimits(1, 1, 1, 1, 2, 2)

  lemma TightStart()
    ensures FaucetOk(FaucetState(true, TIGHT, FaucetGlobal(0, 0, 0), map[]), [], 0)
  {
    var f := FaucetState(true, TIGHT, FaucetGlobal(0, 0, 0), map[]);
    forall mint ensures GlobalAgrees(f, [], mint) {
      SumZero(f.users, Today(mint, 0));
    }
  }

  lemma PaidTwice(p: Payout)
    requires p.claw == 1
    ensures PaidTo([p] + [p], Claw, p.day, p.wallet) == 2
  {
    assert ([p] + [p])[..1] == [p] && [p][..0] == [];
    assert PaidTo([p], Claw, p.day, p.wallet) == 1;
  }

  /** Two claims of one unit on one day against a wallet limit of one unit, both accepted. */
  lemma SentinelEscapesItsLimit()
    ensures !WalletLimitHolds(DEFAULT_PUBKEY)
  {
    var w, p := DEFAULT_PUBKEY, Payout(0, DEFAULT_PUBKEY, 1, 0);
    var f0 := FaucetState(true, TIGHT, FaucetGlobal(0, 0, 0), map[]);
    var f1 := Claimed(f0, 0, w, 1, 0);
    TightStart();
    ClaimKeepsFaucet(f0, [], 0, w, 1, 0);
    assert [] + [p] == [p];
    assert FaucetOk(f1, [p], 0) && ClaimGuard(f1, 0, w, 1, 0).Ok?;
    PaidTwice(p);
    assert WalletLimit(f1.limits, Claw) == 1;
  }
}

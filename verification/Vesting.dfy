/** Linear vesting: what one release may take, and why the order and size of releases do not matter. */
module Vesting {
  import opened Outcomes
  import opened Widths

  function ComputeLinearReleasable(total: int, released: int, lockStart: i64, now: i64, lockDays: int): Result<int> {
    var lockSeconds := lockDays * SECONDS_PER_UTC_DAY;
    :- Need(lockSeconds > 0, InvalidPositiveAmount);
    var elapsed := Max(0, Min(Saturate(now - lockStart), lockSeconds));
    var vested :- NarrowU64(total * elapsed / lockSeconds);
    CheckedSubU64(vested, released)
  }

  /** The amount vested at `now`, on unbounded integers. */
  function Vested(total: int, lockStart: int, now: int, lockDays: int): int
    requires lockDays > 0
  {
    total * Max(0, Min(now - lockStart, lockDays * SECONDS_PER_UTC_DAY)) / (lockDays * SECONDS_PER_UTC_DAY)
  }

  lemma QuotientsCompare(p: int, a: int, b: int, q: int, d: int)
    requires d > 0 && d * p <= a <= b < d * q + d
    ensures p <= q
  {
    if p >= q + 1 {
      ProductGrows(d, q + 1, p);
    }
  }

  lemma DivisionOfMultiple(q: int, d: int)
    requires d > 0
    ensures q * d / d == q
  {
    QuotientsCompare(q, q * d, q * d, q * d / d, d);
    QuotientsCompare(q * d / d, q * d, q * d, q, d);
  }

  lemma DivisionGrows(a: int, b: int, d: int)
    requires a <= b && d > 0
    ensures a / d <= b / d
  {
    QuotientsCompare(a / d, a, b, b / d, d);
  }

  lemma FloorOfShare(total: int, elapsed: int, whole: int)
    requires total >= 0 && 0 <= elapsed <= whole && whole > 0
    ensures 0 <= total * elapsed / whole <= total
    ensures elapsed == whole ==> total * elapsed / whole == total
  {
    assert 0 <= total * elapsed <= total * whole;
    DivisionOfMultiple(total, whole);
    DivisionGrows(total * elapsed, total * whole, whole);
    DivisionGrows(0, total * elapsed, whole);
  }

  /** Nothing overflows for any u64 total and any non-zero u16 number of days; only over-release can fail. */
  lemma ReleasableIsVestedRest(total: u64, released: int, lockStart: i64, now: i64, lockDays: u16)
    requires lockDays > 0 && 0 <= released
    ensures 0 <= Vested(total, lockStart, now, lockDays) <= total
    ensures ComputeLinearReleasable(total, released, lockStart, now, lockDays)
         == if released <= Vested(total, lockStart, now, lockDays)
            then Ok(Vested(total, lockStart, now, lockDays) - released) else Err(MathOverflow)
  {
    var whole := lockDays * SECONDS_PER_UTC_DAY;
    FloorOfShare(total, Max(0, Min(now - lockStart, whole)), whole);
    assert Max(0, Min(Saturate(now - lockStart), whole)) == Max(0, Min(now - lockStart, whole));
  }

  /** How far into the lock a time is, in seconds. */
  function SecondsIn(lockStart: int, now: int, lockDays: int): int {
    if now <= lockStart then 0
    else if now >= lockStart + lockDays * 86_400 then lockDays * 86_400
    else now - lockStart
  }

  /** Vesting is linear: an amount is vested once, and only once, its part of the lock has passed, second by second. */
  lemma VestedIsLinear(total: int, lockStart: int, now: int, lockDays: int, amount: int)
    requires lockDays > 0
    ensures amount <= Vested(total, lockStart, now, lockDays)
       <==> amount * (lockDays * 86_400) <= total * SecondsIn(lockStart, now, lockDays)
  {
    var part, whole := total * SecondsIn(lockStart, now, lockDays), lockDays * 86_400;
    if amount <= part / whole {
      ProductGrows(whole, amount, part / whole);
    } else {
      ProductGrows(whole, part / whole + 1, amount);
    }
  }

  /** So is what the checked computation allows to release: exactly the amounts that the passed part of the lock covers
      together with what was released before. */
  lemma ReleasableIsLinear(total: u64, released: int, lockStart: i64, now: i64, lockDays: u16, amount: int)
    requires lockDays > 0 && 0 <= released
    ensures var lock, part := lockDays * 86_400, total * SecondsIn(lockStart, now, lockDays);
            var r := ComputeLinearReleasable(total, released, lockStart, now, lockDays);
            && (r.Ok? <==> released * lock <= part)
            && (r.Err? ==> r.error == MathOverflow)
            && (r.Ok? ==> (amount <= r.value <==> (released + amount) * lock <= part))
  {
    ReleasableIsVestedRest(total, released, lockStart, now, lockDays);
    VestedIsLinear(total, lockStart, now, lockDays, released);
    VestedIsLinear(total, lockStart, now, lockDays, released + amount);
  }

  lemma VestedGrows(total: int, lockStart: int, now: int, later: int, lockDays: int)
    requires total >= 0 && lockDays > 0 && now <= later
    ensures 0 <= Vested(total, lockStart, now, lockDays) <= Vested(total, lockStart, later, lockDays) <= total
    ensures later >= lockStart + lockDays * SECONDS_PER_UTC_DAY ==> Vested(total, lockStart, later, lockDays) == total
    ensures now <= lockStart ==> Vested(total, lockStart, now, lockDays) == 0
  {
    var whole := lockDays * SECONDS_PER_UTC_DAY;
    var e1 := Max(0, Min(now - lockStart, whole));
    var e2 := Max(0, Min(later - lockStart, whole));
    FloorOfShare(total, e1, whole);
    FloorOfShare(total, e2, whole);
    ProductGrows(total, e1, e2);
    DivisionGrows(total * e1, total * e2, whole);
  }

  // ---- whole schedules of releases -----------------------------------------

  /** One grant: the snapshot a settlement takes of it. */
  datatype Grant = Grant(total: u64, lockStart: i64, lockDays: u16)

  datatype Draw = Draw(at: i64, amount: u64)

  predicate InOrder(from: int, draws: seq<Draw>)
    decreases |draws|
  {
    draws == [] || (from <= draws[0].at && InOrder(draws[0].at, draws[1..]))
  }

  /** The releases are asked for one after the other; one that exceeds the vested rest ends the schedule. */
  function Drawn(g: Grant, released: int, draws: seq<Draw>): Result<int>
    decreases |draws|
  {
    if draws == [] then Ok(released)
    else
      var releasable :- ComputeLinearReleasable(g.total, released, g.lockStart, draws[0].at, g.lockDays);
      :- Need(releasable >= draws[0].amount, RewardReleaseExceedsVested);
      Drawn(g, released + draws[0].amount, draws[1..])
  }

  function Amounts(draws: seq<Draw>): int {
    if draws == [] then 0 else draws[0].amount + Amounts(draws[1..])
  }

  function LastTime(from: int, draws: seq<Draw>): int {
    if draws == [] then from else draws[|draws| - 1].at
  }

  lemma OneDrawIsBounded(g: Grant, released: int, from: i64, draws: seq<Draw>)
    requires g.lockDays > 0 && draws != [] && InOrder(from, draws)
    requires 0 <= released <= Vested(g.total, g.lockStart, from, g.lockDays)
    requires Drawn(g, released, draws).Ok?
    ensures released + draws[0].amount <= Vested(g.total, g.lockStart, draws[0].at, g.lockDays)
    ensures Drawn(g, released, draws) == Drawn(g, released + draws[0].amount, draws[1..])
  {
    VestedGrows(g.total, g.lockStart, from, draws[0].at, g.lockDays);
    ReleasableIsVestedRest(g.total, released, g.lockStart, draws[0].at, g.lockDays);
  }

  /** Any schedule releases exactly what was asked for, and never more than is vested at its last release. */
  lemma {:induction false} ScheduleIsBounded(g: Grant, released: int, from: i64, draws: seq<Draw>)
    requires g.lockDays > 0 && InOrder(from, draws)
    requires 0 <= released <= Vested(g.total, g.lockStart, from, g.lockDays)
    requires Drawn(g, released, draws).Ok?
    ensures Drawn(g, released, draws).value == released + Amounts(draws)
    ensures released + Amounts(draws) <= Vested(g.total, g.lockStart, LastTime(from, draws), g.lockDays)
    decreases |draws|
  {
    if draws != [] {
      OneDrawIsBounded(g, released, from, draws);
      ScheduleIsBounded(g, released + draws[0].amount, draws[0].at, draws[1..]);
    }
  }

  lemma {:induction false} AmountsNonNegative(draws: seq<Draw>)
    ensures Amounts(draws) >= 0
  {
    if draws != [] {
      AmountsNonNegative(draws[1..]);
    }
  }

  /** A schedule with one more release at its end continues from where the shorter one stopped. */
  lemma {:induction false} DrawnAppend(g: Grant, released: int, draws: seq<Draw>, d: Draw)
    requires Drawn(g, released, draws).Ok?
    ensures Drawn(g, released, draws + [d]) == Drawn(g, Drawn(g, released, draws).value, [d])
    decreases |draws|
  {
    if draws != [] {
      assert (draws + [d])[1..] == draws[1..] + [d];
      DrawnAppend(g, released + draws[0].amount, draws[1..], d);
    }
  }

  /** Path independence: after any schedule, taking all that is releasable brings the total to the vested amount,
      whatever was taken before and when; once the lock is over that is the whole grant, with no dust. */
  lemma AnyPathEndsVested(g: Grant, draws: seq<Draw>, at: i64)
    requires g.lockDays > 0 && InOrder(g.lockStart, draws) && LastTime(g.lockStart, draws) <= at
    requires Drawn(g, 0, draws).Ok?
    ensures var rest := Vested(g.total, g.lockStart, at, g.lockDays) - Amounts(draws);
            0 <= rest <= U64_MAX
              && Drawn(g, 0, draws + [Draw(at, rest)]) == Ok(Vested(g.total, g.lockStart, at, g.lockDays))
    ensures at >= g.lockStart + g.lockDays * SECONDS_PER_UTC_DAY
            ==> Vested(g.total, g.lockStart, at, g.lockDays) == g.total
  {
    VestedGrows(g.total, g.lockStart, g.lockStart, g.lockStart, g.lockDays);
    ScheduleIsBounded(g, 0, g.lockStart, draws);
    VestedGrows(g.total, g.lockStart, LastTime(g.lockStart, draws), at, g.lockDays);
    AmountsNonNegative(draws);
    ReleasableIsVestedRest(g.total, Amounts(draws), g.lockStart, at, g.lockDays);
    var rest := Vested(g.total, g.lockStart, at, g.lockDays) - Amounts(draws);
    DrawnAppend(g, 0, draws, Draw(at, rest));
  }
}

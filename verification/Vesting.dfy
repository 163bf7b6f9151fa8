/** The dev allocation: one percent at launch, two percent linear over three calendar months. */
module Vesting {
  import opened Base
  import opened Floors

  /** `supply / 10000 * bps`, the allocation rule of both programs. */
  function Share(supply: nat, bps: nat): nat
  {
    supply / 10000 * bps
  }

  /** The basis points of liquidity, participants, the two parents and dev add up to the whole supply but its dust. */
  lemma SharesConserveSupply(supply: nat)
    ensures Share(supply, 4350) + Share(supply, 4350) + Share(supply, 500) + Share(supply, 500) + Share(supply, 300)
      + supply % 10000 == supply
  {
  }

  /** What the dev may have claimed by `now`, for a vesting that runs from `start` to `end`. */
  function DevEntitled(supply: nat, start: int, end: int, now: int): nat
    requires start < end && start <= now
  {
    Share(supply, 100) + ProRata(Min(now, end) - start, Share(supply, 200), end - start)
  }

  /** Entitlement starts at one percent, never falls, never passes three percent and is three percent from the end on.
      */
  lemma DevEntitledBounds(supply: nat, start: int, end: int, now: int, later: int)
    requires start < end && start <= now <= later
    ensures DevEntitled(supply, start, end, start) == Share(supply, 100)
    ensures DevEntitled(supply, start, end, now) <= DevEntitled(supply, start, end, later) <= Share(supply, 300)
    ensures end <= now ==> DevEntitled(supply, start, end, now) == Share(supply, 300)
  {
    var linear, span := Share(supply, 200), end - start;
    LargerBalance(Min(now, end) - start, Min(later, end) - start, linear, span);
    ShareAtMostPool(Min(later, end) - start, linear, span);
    WholeShare(linear, span);
    ZeroShare(linear, span);
  }

  /** A share is the basis points of the supply without its last four digits. */
  lemma ShareIsBasisPoints(supply: nat, bps: nat)
    ensures Share(supply, bps) * 10000 == (supply - supply % 10000) * bps
  {
    assert supply - supply % 10000 == supply / 10000 * 10000;
    Reorder(supply / 10000, bps);
  }

  lemma Reorder(k: nat, bps: nat)
    ensures k * bps * 10000 == k * 10000 * bps
  {
  }

  /** `e` is the dev's entitlement: one percent, plus of the two percent the floored part that the elapsed time is of
      the whole vesting time. */
  ghost predicate LinearEntitlement(supply: nat, start: int, end: int, now: int, e: int)
  {
    var elapsed, vested := (if now <= end then now else end) - start, e - Share(supply, 100);
    vested * (end - start) <= Share(supply, 200) * elapsed < (vested + 1) * (end - start)
  }

  /** The entitlement grows linearly in between, to the unit. */
  lemma DevEntitledIsLinear(supply: nat, start: int, end: int, now: int)
    requires start < end && start <= now
    ensures LinearEntitlement(supply, start, end, now, DevEntitled(supply, start, end, now))
  {
    var elapsed, linear := (if now <= end then now else end) - start, Share(supply, 200);
    ShareBounds(elapsed, linear, end - start);
    assert elapsed * linear == linear * elapsed;
  }

  lemma ZeroShare(pool: nat, total: nat)
    requires 0 < total
    ensures ProRata(0, pool, total) == 0
  {
  }

  /** Dev claims at the given times, each paying the entitlement of that moment less what was already claimed;
      `Underflow` as soon as one subtraction would underflow. */
  datatype Claims = Paid(claimed: nat, payments: seq<nat>) | Underflow

  function DevClaims(supply: nat, start: int, end: int, claimed: nat, times: seq<int>): Claims
    requires start < end && forall i :: 0 <= i < |times| ==> start <= times[i]
    decreases |times|
  {
    if times == [] then Paid(claimed, [])
    else
      var entitled := DevEntitled(supply, start, end, times[0]);
      if entitled < claimed then Underflow
      else match DevClaims(supply, start, end, entitled, times[1..])
        case Paid(total, payments) => Paid(total, [entitled - claimed] + payments)
        case Underflow => Underflow
  }

  function Total(payments: seq<nat>): nat
  {
    if payments == [] then 0 else payments[0] + Total(payments[1..])
  }

  ghost predicate NonDecreasing(times: seq<int>)
  {
    forall i, j :: 0 <= i <= j < |times| ==> times[i] <= times[j]
  }

  /** For any claim times in order the claims telescope: none underflows, and together they pay exactly what the last
      one entitles to, however often and whenever the dev claimed before. */
  lemma {:induction false} VestingTelescopes(supply: nat, start: int, end: int, claimed: nat, times: seq<int>)
    requires start < end && times != [] && NonDecreasing(times) && start <= times[0]
    requires claimed <= DevEntitled(supply, start, end, times[0])
    ensures forall i :: 0 <= i < |times| ==> start <= times[i]
    ensures var last := times[|times| - 1];
      match DevClaims(supply, start, end, claimed, times)
      case Paid(total, payments) =>
        && total == claimed + Total(payments) == DevEntitled(supply, start, end, last)
        && total <= Share(supply, 300)
        && (end <= last ==> total == Share(supply, 300))
      case Underflow => false
    decreases |times|
  {
    assert forall i :: 0 <= i < |times| ==> times[0] <= times[i];
    DevEntitledBounds(supply, start, end, times[0], times[0]);
    if |times| > 1 {
      hide DevEntitled;
      var rest := times[1..];
      assert forall i :: 0 <= i < |rest| ==> rest[i] == times[i + 1];
      DevEntitledBounds(supply, start, end, times[0], times[1]);
      VestingTelescopes(supply, start, end, DevEntitled(supply, start, end, times[0]), rest);
    }
  }
}

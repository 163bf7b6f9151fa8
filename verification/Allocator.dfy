/** Capped pro-rata allocation of one community pool by repeated redistribution, and what it amounts to. */
module Allocator {
  import opened Base
  import opened Floors
  import opened Sums

  const MAXIMUM_BPS: nat := 10_000

  datatype Cap = NoCap | AtMost(raw: nat)

  predicate Over(cap: Cap, amount: nat)
  {
    cap.AtMost? && cap.raw < amount
  }

  /** The amount under the cap. */
  function Capped(cap: Cap, amount: nat): nat
  {
    if Over(cap, amount) then cap.raw else amount
  }

  /** `floor(pool * bps / 10000)`, or no cap at 10000 basis points. */
  function CapOf(pool: nat, bps: nat): Cap
  {
    if MAXIMUM_BPS <= bps then NoCap else AtMost(ProRata(bps, pool, MAXIMUM_BPS))
  }

  /** The rate `p1 / b1` is at least the rate `p / b`. */
  ghost predicate RateNotBelow(p: nat, b: nat, p1: nat, b1: nat)
  {
    p * b1 <= p1 * b
  }

  /** A finished allocation: the owners fixed at the cap, everybody's amount, and the pool and balance left for the
      others. */
  datatype Fill = Fill(fixed: set<string>, amounts: map<string, nat>, pool: nat, balance: nat)

  ghost function CapTotal(cap: Cap, n: nat): nat
  {
    match cap
    case NoCap => 0
    case AtMost(raw) => raw * n
  }

  /** The rate `x.pool / x.balance` is consistent with itself: it is what remains for the owners it does not push over
      the cap, and exactly the others are fixed at the cap. It is at least the rate of the whole pool. */
  ghost predicate Filled(owners: map<string, nat>, pool: nat, cap: Cap, x: Fill)
  {
    && x.fixed <= owners.Keys && x.amounts.Keys == owners.Keys
    && pool == x.pool + CapTotal(cap, |x.fixed|)
    && x.balance == Sum(owners - x.fixed)
    && (x.fixed != {} ==> cap.AtMost?)
    && (forall o :: o in x.fixed ==> x.amounts[o] == cap.raw)
    && (x.balance == 0 ==> x.fixed == owners.Keys)
    && (0 < x.balance ==>
         && RateNotBelow(pool, Sum(owners), x.pool, x.balance)
         && AtRate(owners, cap, x))
  }

  /** Exactly the owners the rate pushes over the cap are fixed; the others get their floored share. */
  ghost predicate AtRate(owners: map<string, nat>, cap: Cap, x: Fill)
    requires 0 < x.balance && x.amounts.Keys == owners.Keys
  {
    forall o :: o in owners ==>
      && (o in x.fixed <==> Over(cap, ProRata(owners[o], x.pool, x.balance)))
      && (o !in x.fixed ==> x.amounts[o] == ProRata(owners[o], x.pool, x.balance))
  }

  /** The loop's result in one line: one rate for everybody, cut off at the cap; or everybody at the cap. */
  lemma SingleRate(owners: map<string, nat>, pool: nat, cap: Cap, x: Fill, o: string)
    requires Filled(owners, pool, cap, x) && o in owners
    ensures 0 < x.balance ==>
      var share := ProRata(owners[o], x.pool, x.balance);
      && x.amounts[o] == (if cap.AtMost? then Min(cap.raw, share) else share)
      && (o in x.fixed <==> cap.AtMost? && cap.raw < share)
      && x.pool == pool - (if cap.AtMost? then cap.raw * |x.fixed| else 0)
    ensures x.balance == 0 ==> cap.AtMost? && x.amounts[o] == cap.raw
  {
  }

  /** Redistribution never hurts: nobody gets less than the capped pro-rata share of the original pool. */
  lemma NeverBelowProRata(owners: map<string, nat>, pool: nat, cap: Cap, x: Fill, o: string)
    requires Filled(owners, pool, cap, x) && o in owners && 0 < Sum(owners)
    ensures Capped(cap, ProRata(owners[o], pool, Sum(owners))) <= x.amounts[o]
  {
    hide ProRata;
    SingleRate(owners, pool, cap, x, o);
    if 0 < x.balance {
      HigherRate(owners[o], pool, Sum(owners), x.pool, x.balance);
    }
  }

  /** A larger balance never receives a smaller amount, even when the two owners were fixed in different passes. */
  lemma LargerBalanceNeverLess(owners: map<string, nat>, pool: nat, cap: Cap, x: Fill, o: string, o': string)
    requires Filled(owners, pool, cap, x) && o in owners && o' in owners && owners[o] <= owners[o']
    ensures x.amounts[o] <= x.amounts[o']
  {
    hide ProRata;
    SingleRate(owners, pool, cap, x, o);
    SingleRate(owners, pool, cap, x, o');
    if 0 < x.balance {
      LargerBalance(owners[o], owners[o'], x.pool, x.balance);
    }
  }

  lemma FixedSum(x: Fill, cap: Cap)
    requires x.fixed <= x.amounts.Keys && (x.fixed != {} ==> cap.AtMost?)
    requires forall o :: o in x.fixed ==> x.amounts[o] == cap.raw
    ensures Sum(map o | o in x.fixed :: x.amounts[o]) == CapTotal(cap, |x.fixed|)
  {
    var m := map o | o in x.fixed :: x.amounts[o];
    assert m.Keys == x.fixed;
    if cap.AtMost? {
      SumConstant(m, cap.raw);
      assert |m| * cap.raw == cap.raw * |m|;
    } else {
      assert m == map[];
    }
  }

  lemma UncappedAreScaled(owners: map<string, nat>, pool: nat, cap: Cap, x: Fill)
    requires Filled(owners, pool, cap, x)
    ensures x.amounts - x.fixed == if x.balance == 0 then map[] else Scaled(owners - x.fixed, x.pool, x.balance)
    ensures x.balance == Sum(owners - x.fixed)
    ensures |owners - x.fixed| == |owners| - |x.fixed|
  {
    hide ProRata, Sum, CapTotal;
    var rest := owners - x.fixed;
    assert rest.Keys == owners.Keys - x.fixed;
    assert |rest.Keys| == |owners.Keys| - |x.fixed|;
  }

  lemma SplitAmounts(x: Fill)
    requires x.fixed <= x.amounts.Keys
    ensures Sum(x.amounts) == Sum(map o | o in x.fixed :: x.amounts[o]) + Sum(x.amounts - x.fixed)
  {
    hide Sum;
    var capped := map o | o in x.fixed :: x.amounts[o];
    var shares := x.amounts - x.fixed;
    assert capped + shares == x.amounts;
    SumUnion(capped, shares);
  }

  /** The amounts fit the pool; when somebody is uncapped, less is left over than there are uncapped owners. */
  lemma FilledWithinPool(owners: map<string, nat>, pool: nat, cap: Cap, x: Fill)
    requires Filled(owners, pool, cap, x)
    ensures Sum(x.amounts) <= pool
    ensures 0 < x.balance ==> pool - Sum(x.amounts) < |owners| - |x.fixed|
  {
    FixedSum(x, cap);
    SplitAmounts(x);
    UncappedAreScaled(owners, pool, cap, x);
    hide Filled, Scaled;
    if 0 < x.balance {
      ScaledSumOfWhole(owners - x.fixed, x.pool);
    }
  }

  /** Taking out the owners over the cap, with the cap each, raises the rate for those who stay. */
  lemma RateRises(open: map<string, nat>, over: map<string, nat>, pool: nat, cap: nat, balance: nat, taken: nat)
    requires 0 < balance == Sum(open) && over != map[] && over.Keys <= open.Keys && taken == cap * |over|
    requires forall o :: o in over ==> over[o] == open[o] && cap < ProRata(open[o], pool, balance)
    ensures taken < pool
    ensures RateNotBelow(pool, balance, pool - taken, Sum(open - over.Keys))
  {
    hide ProRata;
    var rest := open - over.Keys;
    assert over + rest == open;
    SumUnion(over, rest);
    ScaledSumBounds(over, pool, balance);
    var least: map<string, nat> := map o | o in over :: cap + 1;
    SumConstant(least, cap + 1);
    assert least.Keys == over.Keys;
    assert |least| == |over|;
    SumLe(least, Scaled(over, pool, balance));
    RateArithmetic(Sum(over), Sum(rest), Sum(Scaled(over, pool, balance)), |over|, cap, pool, balance);
  }

  lemma RateArithmetic(out: nat, rest: nat, taken: nat, n: nat, cap: nat, pool: nat, balance: nat)
    requires 0 < n && out + rest == balance && 0 < balance
    requires taken * balance <= out * pool && n * (cap + 1) <= taken
    ensures cap * n < pool
    ensures pool * rest <= (pool - cap * n) * balance
  {
    var k := cap * n;
    assert n * (cap + 1) == k + n;
    MulLe(k + 1, taken, balance);
    assert (k + 1) * balance == k * balance + balance;
    assert out * pool + rest * pool == balance * pool by { Distribute(out, rest, pool); }
    assert (pool - k) * balance == pool * balance - k * balance by { Distribute(pool - k, k, balance); }
    assert 0 <= rest * pool;
    MulLt(k, pool, balance);
  }

  lemma Distribute(a: int, b: int, c: int)
    ensures a * c + b * c == (a + b) * c
  {
  }

  method SumOf(m: map<string, nat>) returns (total: nat)
    ensures total == Sum(m)
  {
    total := 0;
    var left := m;
    while left != map[]
      invariant total + Sum(left) == Sum(m)
      decreases |left|
    {
      var k :| k in left;
      SumRemove(left, k);
      CardinalityRemove(left, k);
      total := total + left[k];
      left := left - {k};
    }
  }

  datatype Reason = NegativePool | CapOutOfRange | EmptyOwner | NegativeBalance | DidNotConverge | ExceededPool

  datatype Allocation =
    | Allocated(shares: map<string, nat>, remainder: nat, capped: nat)
    | Rejected(reason: Reason)

  /** The owners that take part: those with a positive balance. */
  function Positive(eligible: map<string, int>): map<string, nat>
  {
    map o | o in eligible && 0 < eligible[o] :: eligible[o]
  }

  predicate InputsOk(eligible: map<string, int>, pool: int, bps: int)
  {
    && 0 <= pool && 1 <= bps <= MAXIMUM_BPS
    && "" !in eligible && forall o :: o in eligible ==> 0 <= eligible[o]
  }

  /** The result is a fill of the pool, zero amounts left out, with the rest of the pool as remainder. */
  ghost predicate Fills(owners: map<string, nat>, pool: nat, cap: Cap, a: Allocation, x: Fill)
  {
    && Filled(owners, pool, cap, x)
    && a.Allocated?
    && a.shares == Positive(x.amounts)
    && a.remainder + Sum(x.amounts) == pool
    && a.capped == |x.fixed|
  }

  /** What `allocateCommunityPool` promises about a result: nothing is handed out of an empty pool or to nobody, else
      the pool is filled; only eligible owners are paid, and shares and remainder add up to the pool. */
  ghost predicate AllocationOk(eligible: map<string, int>, pool: nat, bps: nat, a: Allocation)
  {
    && a.Allocated?
    && (pool == 0 || Positive(eligible) == map[] ==> a == Allocated(map[], pool, 0))
    && (0 < pool && Positive(eligible) != map[] ==> exists x :: Fills(Positive(eligible), pool, CapOf(pool, bps), a, x))
    && a.shares.Keys <= eligible.Keys
    && Sum(a.shares) + a.remainder == pool
  }

  lemma PositiveWithout(m: map<string, nat>, k: string)
    requires k in m
    ensures m[k] == 0 ==> Positive(m) == Positive(m - {k})
    ensures 0 < m[k] ==> k in Positive(m) && Positive(m)[k] == m[k] && Positive(m) - {k} == Positive(m - {k})
  {
  }

  lemma {:induction false} DroppingZeros(m: map<string, nat>)
    ensures Sum(Positive(m)) == Sum(m)
    decreases |m|
  {
    if m != map[] {
      hide Positive;
      var k :| k in m;
      SumRemove(m, k);
      CardinalityRemove(m, k);
      DroppingZeros(m - {k});
      PositiveWithout(m, k);
      if 0 < m[k] {
        SumRemove(Positive(m), k);
      }
    } else {
      assert Positive(m) == map[];
    }
  }

  lemma PositiveSum(m: map<string, nat>)
    requires m != map[] && forall o :: o in m ==> 0 < m[o]
    ensures 0 < Sum(m)
  {
    var k :| k in m;
    SumElement(m, k);
  }

  /** The state of the redistribution between passes: owners already fixed at the cap, owners still open, and the pool
      and balance left for them at a rate that has only risen. */
  ghost predicate Between(owners: map<string, nat>, pool: nat, cap: Cap, fixed: map<string, nat>,
                          open: map<string, nat>, left: nat, balance: nat)
  {
    && Parted(owners, cap, fixed, open)
    && pool == left + CapTotal(cap, |fixed|)
    && balance == Sum(open)
    && RateNotBelow(pool, Sum(owners), left, balance)
    && StillOver(owners, cap, fixed, left, balance)
  }

  ghost predicate Parted(owners: map<string, nat>, cap: Cap, fixed: map<string, nat>, open: map<string, nat>)
  {
    && open.Keys == owners.Keys - fixed.Keys && fixed.Keys <= owners.Keys
    && (forall o :: o in open ==> open[o] == owners[o])
    && (fixed != map[] ==> cap.AtMost?)
    && (forall o :: o in fixed ==> fixed[o] == cap.raw)
  }

  /** Everyone fixed so far would still be over the cap at the current rate. */
  ghost predicate StillOver(owners: map<string, nat>, cap: Cap, fixed: map<string, nat>, left: nat, balance: nat)
    requires fixed.Keys <= owners.Keys
  {
    0 < balance ==> forall o :: o in fixed ==> Over(cap, ProRata(owners[o], left, balance))
  }

  function Fix(fixed: map<string, nat>, over: map<string, nat>, cap: nat): map<string, nat>
  {
    fixed + map o | o in over :: cap
  }

  lemma StartBetween(owners: map<string, nat>, pool: nat, cap: Cap)
    ensures Between(owners, pool, cap, map[], owners, pool, Sum(owners))
  {
  }

  lemma FixParts(owners: map<string, nat>, cap: Cap, fixed: map<string, nat>, open: map<string, nat>,
                 over: map<string, nat>)
    requires Parted(owners, cap, fixed, open) && cap.AtMost? && over.Keys <= open.Keys
    ensures Parted(owners, cap, Fix(fixed, over, cap.raw), open - over.Keys)
  {
    var fixed' := Fix(fixed, over, cap.raw);
    assert fixed'.Keys == fixed.Keys + over.Keys;
    assert (open - over.Keys).Keys == open.Keys - over.Keys;
  }

  lemma FixCounts(fixed: map<string, nat>, open: map<string, nat>, over: map<string, nat>, cap: nat)
    requires fixed.Keys !! open.Keys && over.Keys <= open.Keys
    ensures |Fix(fixed, over, cap)| == |fixed| + |over|
    ensures |open - over.Keys| == |open| - |over|
  {
    assert Fix(fixed, over, cap).Keys == fixed.Keys + over.Keys;
    assert (open - over.Keys).Keys == open.Keys - over.Keys;
    hide Fix;
    SetSizes(fixed.Keys, open.Keys, over.Keys);
  }

  lemma SetSizes(a: set<string>, b: set<string>, c: set<string>)
    requires a !! b && c <= b
    ensures |a + c| == |a| + |c| && |b - c| == |b| - |c|
  {
  }

  lemma FixStillOver(owners: map<string, nat>, cap: Cap, fixed: map<string, nat>, over: map<string, nat>,
                     left: nat, balance: nat, left': nat, balance': nat)
    requires fixed.Keys <= owners.Keys && over.Keys <= owners.Keys && 0 < balance && cap.AtMost?
    requires StillOver(owners, cap, fixed, left, balance)
    requires forall o :: o in over ==> cap.raw < ProRata(owners[o], left, balance)
    requires RateNotBelow(left, balance, left', balance')
    ensures StillOver(owners, cap, Fix(fixed, over, cap.raw), left', balance')
  {
    hide ProRata;
    if 0 < balance' {
      var fixed' := Fix(fixed, over, cap.raw);
      forall o | o in fixed' ensures Over(cap, ProRata(owners[o], left', balance')) {
        HigherRate(owners[o], left, balance, left', balance');
      }
    }
  }

  lemma PassParts(owners: map<string, nat>, pool: nat, cap: Cap, fixed: map<string, nat>, open: map<string, nat>,
                         left: nat, balance: nat, over: map<string, nat>, taken: nat, left': nat)
    requires Between(owners, pool, cap, fixed, open, left, balance) && 0 < balance && cap.AtMost?
    requires over != map[] && over.Keys <= open.Keys
    requires forall o :: o in over ==> over[o] == open[o] && cap.raw < ProRata(open[o], left, balance)
    requires taken == cap.raw * |over| && left == left' + taken
    ensures |Fix(fixed, over, cap.raw)| == |fixed| + |over| && |open - over.Keys| == |open| - |over|
    ensures Parted(owners, cap, Fix(fixed, over, cap.raw), open - over.Keys)
    ensures pool == left' + CapTotal(cap, |Fix(fixed, over, cap.raw)|)
  {
    hide ProRata, Fix, StillOver, CapTotal, Sum, RateNotBelow;
    PartsAreDisjoint(owners, cap, fixed, open);
    hide Parted;
    FixCounts(fixed, open, over, cap.raw);
    FixParts(owners, cap, fixed, open, over);
    PoolAfter(cap, |fixed|, |over|, |Fix(fixed, over, cap.raw)|, taken, pool, left, left');
  }

  lemma PassRates(owners: map<string, nat>, pool: nat, cap: Cap, fixed: map<string, nat>, open: map<string, nat>,
                         left: nat, balance: nat, over: map<string, nat>, taken: nat, left': nat)
    requires Between(owners, pool, cap, fixed, open, left, balance) && 0 < balance && cap.AtMost?
    requires over != map[] && over.Keys <= open.Keys
    requires forall o :: o in over ==> over[o] == open[o] && cap.raw < ProRata(open[o], left, balance)
    requires taken == cap.raw * |over| && left == left' + taken
    ensures RateNotBelow(pool, Sum(owners), left', Sum(open - over.Keys))
    ensures Fix(fixed, over, cap.raw).Keys <= owners.Keys
    ensures StillOver(owners, cap, Fix(fixed, over, cap.raw), left', Sum(open - over.Keys))
  {
    hide ProRata, StillOver, CapTotal, Sum, RateNotBelow;
    PartsAreDisjoint(owners, cap, fixed, open);
    hide Parted;
    RateRises(open, over, left, cap.raw, balance, taken);
    FixStillOver(owners, cap, fixed, over, left, balance, left', Sum(open - over.Keys));
    ChainRates(pool, Sum(owners), left, balance, left', Sum(open - over.Keys));
  }

  /** One pass that fixes the owners over the cap keeps the loop's state. */
  lemma PassKeepsBetween(owners: map<string, nat>, pool: nat, cap: Cap, fixed: map<string, nat>, open: map<string, nat>,
                         left: nat, balance: nat, over: map<string, nat>, taken: nat, left': nat)
    requires Between(owners, pool, cap, fixed, open, left, balance) && 0 < balance && cap.AtMost?
    requires over != map[] && over.Keys <= open.Keys
    requires forall o :: o in over ==> over[o] == open[o] && cap.raw < ProRata(open[o], left, balance)
    requires taken == cap.raw * |over| && left == left' + taken
    ensures Between(owners, pool, cap, Fix(fixed, over, cap.raw), open - over.Keys, left', Sum(open - over.Keys))
    ensures |Fix(fixed, over, cap.raw)| == |fixed| + |over| && |open - over.Keys| == |open| - |over|
  {
    hide *;
    PassParts(owners, pool, cap, fixed, open, left, balance, over, taken, left');
    PassRates(owners, pool, cap, fixed, open, left, balance, over, taken, left');
    MakeBetween(owners, pool, cap, Fix(fixed, over, cap.raw), open - over.Keys, left', Sum(open - over.Keys));
  }

  lemma MakeBetween(owners: map<string, nat>, pool: nat, cap: Cap, fixed: map<string, nat>, open: map<string, nat>,
                    left: nat, balance: nat)
    requires Parted(owners, cap, fixed, open)
    requires pool == left + CapTotal(cap, |fixed|)
    requires balance == Sum(open)
    requires RateNotBelow(pool, Sum(owners), left, balance)
    requires StillOver(owners, cap, fixed, left, balance)
    ensures Between(owners, pool, cap, fixed, open, left, balance)
  {
  }

  lemma TakenFitsPool(owners: map<string, nat>, pool: nat, cap: Cap, fixed: map<string, nat>, open: map<string, nat>,
                      left: nat, balance: nat, over: map<string, nat>, taken: nat)
    requires Between(owners, pool, cap, fixed, open, left, balance) && 0 < balance && cap.AtMost?
    requires over != map[] && over.Keys <= open.Keys && taken == cap.raw * |over|
    requires forall o :: o in over ==> over[o] == open[o] && cap.raw < ProRata(open[o], left, balance)
    ensures taken < left
  {
    hide ProRata, StillOver, Parted, CapTotal;
    RateRises(open, over, left, cap.raw, balance, taken);
  }

  lemma PartsAreDisjoint(owners: map<string, nat>, cap: Cap, fixed: map<string, nat>, open: map<string, nat>)
    requires Parted(owners, cap, fixed, open)
    ensures fixed.Keys !! open.Keys && fixed.Keys <= owners.Keys && open.Keys <= owners.Keys
    ensures forall o :: o in open ==> open[o] == owners[o]
  {
  }

  lemma PoolAfter(cap: Cap, n: nat, k: nat, n': nat, taken: nat, pool: nat, left: nat, left': nat)
    requires cap.AtMost? && n' == n + k && taken == cap.raw * k && left == left' + taken
    requires pool == left + CapTotal(cap, n)
    ensures pool == left' + CapTotal(cap, n')
  {
    assert cap.raw * (n + k) == cap.raw * n + cap.raw * k;
  }

  /** Rates rise transitively. */
  lemma ChainRates(p: nat, b: nat, p1: nat, b1: nat, p2: nat, b2: nat)
    requires 0 < b1
    requires RateNotBelow(p, b, p1, b1)
    requires RateNotBelow(p1, b1, p2, b2)
    ensures RateNotBelow(p, b, p2, b2)
  {
    MulLe(p * b1, p1 * b, b2);
    MulLe(p1 * b2, p2 * b1, b);
    MulSwap(p, b1, b2);
    MulSwap(p1, b, b2);
    MulSwap(p2, b1, b);
    RateStep(p * b2, p2 * b, b1);
  }

  lemma LastPassAtRate(owners: map<string, nat>, cap: Cap, fixed: map<string, nat>, open: map<string, nat>,
                       left: nat, balance: nat)
    requires Parted(owners, cap, fixed, open) && 0 < balance && StillOver(owners, cap, fixed, left, balance)
    requires forall o :: o in open ==> !Over(cap, ProRata(open[o], left, balance))
    ensures (fixed + Scaled(open, left, balance)).Keys == owners.Keys
    ensures AtRate(owners, cap, Fill(fixed.Keys, fixed + Scaled(open, left, balance), left, balance))
  {
    hide ProRata;
  }

  lemma PartedRest(owners: map<string, nat>, cap: Cap, fixed: map<string, nat>, open: map<string, nat>)
    requires Parted(owners, cap, fixed, open)
    ensures owners - fixed.Keys == open && |fixed| == |fixed.Keys| && fixed.Keys !! open.Keys
  {
  }

  /** When a pass finds nobody over the cap, the fixed and the proposed amounts together fill the pool. */
  lemma LastPassFills(owners: map<string, nat>, pool: nat, cap: Cap, fixed: map<string, nat>, open: map<string, nat>,
                      left: nat, balance: nat)
    requires Between(owners, pool, cap, fixed, open, left, balance) && 0 < balance
    requires forall o :: o in open ==> !Over(cap, ProRata(open[o], left, balance))
    ensures Filled(owners, pool, cap, Fill(fixed.Keys, fixed + Scaled(open, left, balance), left, balance))
    ensures fixed.Keys !! open.Keys
  {
    hide ProRata, Sum, CapTotal, RateNotBelow, AtRate, StillOver, Over;
    LastPassAtRate(owners, cap, fixed, open, left, balance);
    PartedRest(owners, cap, fixed, open);
  }

  lemma NobodyOpenFills(owners: map<string, nat>, pool: nat, cap: Cap, fixed: map<string, nat>, open: map<string, nat>,
                        left: nat, balance: nat)
    requires Between(owners, pool, cap, fixed, open, left, balance)
    requires forall o :: o in owners ==> 0 < owners[o]
    requires open == map[] || balance == 0
    ensures Filled(owners, pool, cap, Fill(fixed.Keys, fixed, left, 0))
  {
    if open != map[] {
      PositiveSum(open);
    }
    assert owners - fixed.Keys == map[];
    assert owners.Keys - fixed.Keys == {};
    assert fixed.Keys == owners.Keys;
  }

  /** The open owners whose proposed amount is over the cap. */
  function OverCap(open: map<string, nat>, cap: Cap, left: nat, balance: nat): map<string, nat>
    requires 0 < balance
  {
    map o | o in open && Over(cap, ProRata(open[o], left, balance)) :: open[o]
  }

  lemma OverCapIs(open: map<string, nat>, cap: Cap, left: nat, balance: nat)
    requires 0 < balance
    ensures var over := OverCap(open, cap, left, balance);
      && over.Keys <= open.Keys && (over != map[] ==> cap.AtMost?)
      && (forall o :: o in over ==> over[o] == open[o] && cap.AtMost? && cap.raw < ProRata(open[o], left, balance))
      && (over == map[] ==> forall o :: o in open ==> !Over(cap, ProRata(open[o], left, balance)))
  {
    hide ProRata;
    var over := OverCap(open, cap, left, balance);
    assert forall o :: o in open && Over(cap, ProRata(open[o], left, balance)) ==> o in over;
  }

  /** The redistribution loop, with its own pass limit. The limit is never hit. */
  method Redistribute(owners: map<string, nat>, pool: nat, cap: Cap, eligibleBalance: nat)
    returns (converged: bool, fixed: map<string, nat>, uncapped: map<string, nat>, ghost x: Fill)
    requires forall o :: o in owners ==> 0 < owners[o]
    requires eligibleBalance == Sum(owners)
    ensures converged
    ensures fixed.Keys !! uncapped.Keys && x.fixed == fixed.Keys && x.amounts == fixed + uncapped
    ensures Filled(owners, pool, cap, x)
  {
    hide ProRata, Between, Filled, Sum, OverCap, Over, Fix;
    fixed, uncapped := map[], map[];
    StartBetween(owners, pool, cap);
    var open, balance := owners, eligibleBalance;
    var left: nat := pool;
    var pass := 0;
    x := Fill({}, map[], 0, 0);
    while true
      invariant Between(owners, pool, cap, fixed, open, left, balance)
      invariant pass <= |fixed| && |fixed| + |open| == |owners|
      decreases |open|
    {
      if |owners| < pass {
        return false, fixed, uncapped, x;
      }
      if open == map[] || balance == 0 {
        NobodyOpenFills(owners, pool, cap, fixed, open, left, balance);
        uncapped := map[];
        x := Fill(fixed.Keys, fixed, left, 0);
        assert fixed + uncapped == fixed;
        break;
      }
      var proposed := map o | o in open :: ProRata(open[o], left, balance);
      assert proposed == Scaled(open, left, balance);
      var over := OverCap(open, cap, left, balance);
      OverCapIs(open, cap, left, balance);
      if over == map[] {
        LastPassFills(owners, pool, cap, fixed, open, left, balance);
        uncapped := proposed;
        x := Fill(fixed.Keys, fixed + uncapped, left, balance);
        break;
      }
      var taken := cap.raw * |over|;
      TakenFitsPool(owners, pool, cap, fixed, open, left, balance, over, taken);
      var left' := left - taken;
      PassKeepsBetween(owners, pool, cap, fixed, open, left, balance, over, taken, left');
      fixed := Fix(fixed, over, cap.raw);
      left := left';
      open := open - over.Keys;
      balance := SumOf(open);
      pass := pass + 1;
    }
    converged := true;
  }

  /** `allocateCommunityPool`. It is refused exactly for bad inputs; otherwise it fills the pool at one rate under the
      cap. The throws for a loop that does not converge and for an exceeded pool are never reached. */
  method AllocateCommunityPool(eligible: map<string, int>, pool: int, bps: int) returns (a: Allocation)
    ensures a.Rejected? <==> !InputsOk(eligible, pool, bps)
    ensures pool < 0 || bps < 1 || 10_000 < bps || "" in eligible ==> a.Rejected?
    ensures 0 <= pool && 1 <= bps <= 10_000 && "" !in eligible && (forall o :: o in eligible ==> 0 <= eligible[o]) ==>
      a.Allocated?
    ensures a.Rejected? ==> a.reason != DidNotConverge && a.reason != ExceededPool
    ensures a.Allocated? ==> AllocationOk(eligible, pool, bps, a)
  {
    if pool < 0 { return Rejected(NegativePool); }
    if bps < 1 || MAXIMUM_BPS < bps { return Rejected(CapOutOfRange); }
    if "" in eligible { return Rejected(EmptyOwner); }
    if exists o :: o in eligible && eligible[o] < 0 { return Rejected(NegativeBalance); }
    var owners := Positive(eligible);
    var eligibleBalance := SumOf(owners);
    if owners == map[] || eligibleBalance == 0 || pool == 0 {
      if owners != map[] {
        PositiveSum(owners);
      }
      return Allocated(map[], pool, 0);
    }
    var converged, fixed, uncapped, x := Redistribute(owners, pool, CapOf(pool, bps), eligibleBalance);
    if !converged { return Rejected(DidNotConverge); }
    var combined := Positive(fixed + uncapped);
    var given := SumOf(combined);
    DroppingZeros(x.amounts);
    FilledWithinPool(owners, pool, CapOf(pool, bps), x);
    if pool < given { return Rejected(ExceededPool); }
    a := Allocated(combined, pool - given, |fixed|);
    assert |fixed| == |fixed.Keys|;
    assert Fills(owners, pool, CapOf(pool, bps), a, x);
  }

  // ---------- the result in plain terms ----------

  /** `c` is the cap: the largest amount that is at most `bps` ten-thousandths of the pool. */
  ghost predicate CapShare(c: nat, pool: nat, bps: nat)
  {
    bps < 10_000 && c * 10_000 <= pool * bps < (c + 1) * 10_000
  }

  /** What an owner gets; whoever gets nothing is left out of the shares. */
  ghost function Given(shares: map<string, nat>, o: string): nat
  {
    if o in shares then shares[o] else 0
  }

  /** `share` is the floored part of `rest` in proportion to `balance` out of `total`. */
  ghost predicate PartOf(share: nat, balance: nat, rest: nat, total: nat)
  {
    share * total <= balance * rest < (share + 1) * total
  }

  /** The owners of `capped` have the cap `c`, what is then left is `rest`, and everybody else has the floored part
      of it in proportion to the balances that share it; nobody is over the cap, and the capped owners would be. */
  ghost predicate Fair(owners: map<string, nat>, pool: nat, bps: nat, a: Allocation, capped: set<string>, c: nat,
                       rest: nat)
  {
    && a.Allocated? && capped <= owners.Keys && |capped| == a.capped && pool == rest + c * |capped|
    && (forall o :: o in a.shares ==> 0 < a.shares[o])
    && forall o :: o in owners ==> FairTo(owners, pool, bps, a, capped, c, rest, o)
  }

  ghost predicate FairTo(owners: map<string, nat>, pool: nat, bps: nat, a: Allocation, capped: set<string>, c: nat,
                         rest: nat, o: string)
    requires o in owners && a.Allocated?
  {
    var share, total := Given(a.shares, o), Sum(owners - capped);
    && (bps < 10_000 ==> share * 10_000 <= pool * bps)
    && (o in capped ==> CapShare(c, pool, bps) && share == c && (0 < total ==> (c + 1) * total <= owners[o] * rest))
    && (o !in capped ==> 0 < total && PartOf(share, owners[o], rest, total))
  }

  lemma CapOfIsCapShare(pool: nat, bps: nat)
    requires bps < 10_000
    ensures CapOf(pool, bps).AtMost? && CapShare(CapOf(pool, bps).raw, pool, bps)
  {
    ShareBounds(bps, pool, 10_000);
    assert bps * pool == pool * bps;
  }

  /** Every allocation is fair in this sense; at ten thousand basis points nobody is capped. */
  lemma AllocationIsFair(eligible: map<string, int>, pool: nat, bps: nat, a: Allocation)
    returns (capped: set<string>, c: nat, rest: nat)
    requires AllocationOk(eligible, pool, bps, a) && bps <= 10_000 && 0 < pool && Positive(eligible) != map[]
    ensures Fair(Positive(eligible), pool, bps, a, capped, c, rest)
    ensures bps == 10_000 ==> a.capped == 0
  {
    hide Sum, ProRata, Filled, CapOf;
    var owners, cap := Positive(eligible), CapOf(pool, bps);
    var x :| Fills(owners, pool, cap, a, x);
    capped, c, rest := x.fixed, if cap.AtMost? then cap.raw else 0, x.pool;
    FillShape(owners, pool, cap, x);
    if bps < 10_000 {
      CapOfIsCapShare(pool, bps);
    } else {
      NoCapAtAll(pool, bps);
    }
    forall o | o in owners ensures FairTo(owners, pool, bps, a, capped, c, rest, o) {
      OwnerIsFair(eligible, pool, bps, a, x, o);
    }
  }

  lemma NoCapAtAll(pool: nat, bps: nat)
    requires 10_000 <= bps
    ensures CapOf(pool, bps) == NoCap
  {
  }

  lemma FillShape(owners: map<string, nat>, pool: nat, cap: Cap, x: Fill)
    requires Filled(owners, pool, cap, x)
    ensures x.fixed <= owners.Keys && x.amounts.Keys == owners.Keys && x.balance == Sum(owners - x.fixed)
    ensures x.fixed != {} ==> cap.AtMost?
    ensures pool == x.pool + (if cap.AtMost? then cap.raw else 0) * |x.fixed|
  {
    hide Sum;
  }

  lemma OwnerIsFair(eligible: map<string, int>, pool: nat, bps: nat, a: Allocation, x: Fill, o: string)
    requires var cap := CapOf(pool, bps);
      && Fills(Positive(eligible), pool, cap, a, x) && bps <= 10_000 && o in Positive(eligible)
    ensures FairTo(Positive(eligible), pool, bps, a, x.fixed,
                   if CapOf(pool, bps).AtMost? then CapOf(pool, bps).raw else 0, x.pool, o)
  {
    hide Sum, ProRata, Filled, CapOf;
    var owners, cap := Positive(eligible), CapOf(pool, bps);
    FillShape(owners, pool, cap, x);
    SingleRate(owners, pool, cap, x, o);
    if bps < 10_000 {
      CapOfIsCapShare(pool, bps);
    } else {
      NoCapAtAll(pool, bps);
    }
    assert Given(a.shares, o) == x.amounts[o];
    AllFixed(owners, pool, cap, x, o);
    if 0 < x.balance {
      ShareBounds(owners[o], x.pool, x.balance);
      if o in x.fixed {
        LargestShare(owners[o], x.pool, x.balance, cap.raw + 1);
      }
    }
    if cap.AtMost? {
      MulLe(x.amounts[o], cap.raw, 10_000);
    }
  }

  lemma AllFixed(owners: map<string, nat>, pool: nat, cap: Cap, x: Fill, o: string)
    requires Filled(owners, pool, cap, x) && o in owners
    ensures x.balance == 0 ==> o in x.fixed
    ensures o in x.fixed ==> cap.AtMost? && x.amounts[o] == cap.raw
  {
  }
}

/** Fee routing: collected SOL is allocated 98:20:25:25 cumulatively, coin-side fees are burned, and the two parent
    budgets buy and burn the coin. */
module Fees {
  import opened Base

  const MAX_SLICE: nat := 500_000_000

  datatype FeeState = FeeState(
    child: nat, total: nat, treasury: nat, dev: nat, parentA: nat, parentB: nat,
    spentA: nat, spentB: nat, burnedChild: nat)

  /** The fee account, its two custody balances, what the treasury and dev accounts received from it, the SOL anyone
      else sent to its custody, and the coin's mint supply. */
  datatype Ledger = Ledger(
    f: FeeState, wsol: nat, coins: nat, treasuryPaid: nat, devPaid: nat, donated: nat, mintSupply: nat)

  const FRESH := FeeState(0, 0, 0, 0, 0, 0, 0, 0, 0)

  /** The cumulative part of `total` for a weight out of 168. */
  function Entitlement(total: nat, weight: nat): nat
  {
    total * weight / 168
  }

  /** SOL the custody still owes; a checked subtraction of everything that left it. */
  function Liability(f: FeeState): Outcome<nat>
  {
    if f.total < f.treasury + f.dev + f.spentA + f.spentB then Refused(Custom(61))
    else Done(f.total - f.treasury - f.dev - f.spentA - f.spentB)
  }

  function PendingA(f: FeeState): Outcome<nat>
  {
    if f.parentA < f.spentA then Refused(Custom(61)) else Done(f.parentA - f.spentA)
  }

  function PendingB(f: FeeState): Outcome<nat>
  {
    if f.parentB < f.spentB then Refused(Custom(61)) else Done(f.parentB - f.spentB)
  }

  predicate SolCovered(f: FeeState, wsol: nat)
  {
    Liability(f).Done? && Liability(f).state <= wsol
  }

  /** Tag 21. The pool paid `gainedChild` coins and `gainedSol` lamports into custody. */
  function Collect(l: Ledger, gainedChild: nat, gainedSol: nat): Outcome<Ledger>
  {
    if l.mintSupply < l.coins + gainedChild then Refused(InvalidAccount)
    else if l.coins < l.f.child then Refused(Custom(60))
    else if Liability(l.f).Refused? then Refused(Custom(61))
    else if !SolCovered(l.f, l.wsol) then Refused(Custom(60))
    else if U64_MAX < l.f.child + gainedChild || U64_MAX < l.f.total + gainedSol then Refused(Custom(10))
    else Done(l.(f := l.f.(child := l.f.child + gainedChild, total := l.f.total + gainedSol),
                 coins := l.coins + gainedChild, wsol := l.wsol + gainedSol))
  }

  /** Tag 23. */
  function Distribute(l: Ledger): Outcome<Ledger>
  {
    if Liability(l.f).Refused? then Refused(Custom(61))
    else if !SolCovered(l.f, l.wsol) then Refused(Custom(60))
    else
      var treasury, dev := Entitlement(l.f.total, 98), Entitlement(l.f.total, 20);
      if treasury < l.f.treasury || dev < l.f.dev then Refused(Custom(61))
      else
        var t, d := treasury - l.f.treasury, dev - l.f.dev;
        if l.wsol < t + d then Refused(InsufficientFunds)
        else
          var f' := l.f.(treasury := treasury, dev := dev,
                         parentA := Entitlement(l.f.total, 25), parentB := Entitlement(l.f.total, 25));
          if Liability(f').Refused? then Refused(Custom(61))
          else if !SolCovered(f', l.wsol - t - d) then Refused(Custom(60))
          else Done(l.(f := f', wsol := l.wsol - t - d,
                       treasuryPaid := l.treasuryPaid + t, devPaid := l.devPaid + d))
  }

  /** A slice drains A's budget; only what it cannot cover falls on B's. */
  function SpendChildBuyback(f: FeeState, amount: nat): Outcome<FeeState>
  {
    if PendingA(f).Refused? then Refused(Custom(61))
    else
      var fromA := Min(amount, PendingA(f).state);
      var fromB := amount - fromA;
      if PendingB(f).Refused? then Refused(Custom(61))
      else if PendingB(f).state < fromB then Refused(Custom(60))
      else if U64_MAX < f.spentA + fromA || U64_MAX < f.spentB + fromB then Refused(Custom(10))
      else Done(f.(spentA := f.spentA + fromA, spentB := f.spentB + fromB))
  }

  /** Tag 27. `received` coins came back for the slice and are burned; `quoted` says the keeper's minimum respects the
      pool's sealed floor. */
  function Buyback(l: Ledger, amount: nat, minOut: nat, received: nat, quoted: bool): Outcome<Ledger>
  {
    if l.mintSupply < l.coins + received then Refused(InvalidAccount)
    else if amount == 0 || MAX_SLICE < amount then Refused(Custom(60))
    else if PendingA(l.f).Refused? || PendingB(l.f).Refused? then Refused(Custom(61))
    else if U64_MAX < PendingA(l.f).state + PendingB(l.f).state then Refused(Custom(10))
    else if PendingA(l.f).state + PendingB(l.f).state < amount then Refused(Custom(60))
    else if Liability(l.f).Refused? then Refused(Custom(61))
    else if !SolCovered(l.f, l.wsol) || l.coins < l.f.child || !quoted then Refused(Custom(60))
    else if l.wsol < amount then Refused(InsufficientFunds)
    else if received < minOut then Refused(Custom(60))
    else match SpendChildBuyback(l.f, amount)
      case Refused(e) => Refused(e)
      case Done(f) =>
        if U64_MAX < f.burnedChild + received then Refused(Custom(10))
        else
          var f' := f.(burnedChild := f.burnedChild + received);
          if Liability(f').Refused? then Refused(Custom(61))
          else if !SolCovered(f', l.wsol - amount) then Refused(Custom(60))
          else Done(l.(f := f', wsol := l.wsol - amount, mintSupply := l.mintSupply - received))
  }

  /** Tag 26. */
  function Burn(l: Ledger, amount: nat): Outcome<Ledger>
  {
    if amount == 0 || l.f.child < amount || l.coins < l.f.child || l.mintSupply < amount then Refused(Custom(60))
    else if U64_MAX < l.f.burnedChild + amount then Refused(Custom(10))
    else Done(l.(f := l.f.(child := l.f.child - amount, burnedChild := l.f.burnedChild + amount),
                 coins := l.coins - amount, mintSupply := l.mintSupply - amount))
  }

  datatype Action =
    | DoCollect(gainedChild: nat, gainedSol: nat)
    | DoDistribute
    | DoBuyback(amount: nat, minOut: nat, received: nat, quoted: bool)
    | DoBurn(amount: nat)
    | DonateSol(lamports: nat)
    | DonateCoins(coins: nat)

  function Perform(l: Ledger, a: Action): Outcome<Ledger>
  {
    match a
    case DoCollect(gainedChild, gainedSol) => Collect(l, gainedChild, gainedSol)
    case DoDistribute => Distribute(l)
    case DoBuyback(amount, minOut, received, quoted) => Buyback(l, amount, minOut, received, quoted)
    case DoBurn(amount) => Burn(l, amount)
    case DonateSol(lamports) => Done(l.(wsol := l.wsol + lamports, donated := l.donated + lamports))
    case DonateCoins(coins) =>
      if l.mintSupply < l.coins + coins then Refused(InvalidAccount) else Done(l.(coins := l.coins + coins))
  }

  function Step(l: Ledger, a: Action): Ledger
  {
    match Perform(l, a)
    case Done(l') => l'
    case Refused(_) => l
  }

  function Run(l: Ledger, actions: seq<Action>): Ledger
    decreases |actions|
  {
    if actions == [] then l else Run(Step(l, actions[0]), actions[1..])
  }

  // ---------- invariant ----------

  /** The four allocations are the floors of one cumulative total reached earlier. */
  ghost predicate AllocatedAt(f: FeeState, t: nat)
  {
    && f.treasury == Entitlement(t, 98) && f.dev == Entitlement(t, 20)
    && f.parentA == Entitlement(t, 25) && f.parentB == Entitlement(t, 25)
  }

  ghost predicate Valid(l: Ledger)
  {
    && (exists t: nat :: t <= l.f.total && AllocatedAt(l.f, t))
    && l.f.total <= U64_MAX
    && l.f.spentA <= l.f.parentA && l.f.spentB <= l.f.parentB
    && l.treasuryPaid == l.f.treasury && l.devPaid == l.f.dev
    && l.wsol + l.f.treasury + l.f.dev + l.f.spentA + l.f.spentB == l.f.total + l.donated
    && l.f.child <= l.coins <= l.mintSupply
    && l.f.burnedChild + l.mintSupply <= FIXED_SUPPLY
  }

  lemma FreshIsValid(wsol: nat, coins: nat, mintSupply: nat)
    requires coins <= mintSupply <= FIXED_SUPPLY
    ensures Valid(Ledger(FRESH, wsol, coins, 0, 0, wsol, mintSupply))
  {
    assert AllocatedAt(FRESH, 0);
  }

  /** The floors of a larger total are at least as large, and the four floors leave at most three lamports over. */
  lemma SplitBounds(t: nat, t': nat)
    requires t <= t'
    ensures Entitlement(t, 98) <= Entitlement(t', 98) && Entitlement(t, 20) <= Entitlement(t', 20)
    ensures Entitlement(t, 25) <= Entitlement(t', 25)
    ensures var sum := Entitlement(t, 98) + Entitlement(t, 20) + Entitlement(t, 25) + Entitlement(t, 25);
      sum <= t <= sum + 3
  {
  }

  /** Custody covers what is owed, and what is owed covers both parents' unspent budgets. */
  lemma CustodyCovers(l: Ledger)
    requires Valid(l)
    ensures Liability(l.f).Done? && PendingA(l.f).Done? && PendingB(l.f).Done?
    ensures PendingA(l.f).state + PendingB(l.f).state <= Liability(l.f).state <= l.wsol
    ensures l.f.child <= l.coins
  {
    hide Entitlement;
    var t: nat :| t <= l.f.total && AllocatedAt(l.f, t);
    SplitBounds(t, l.f.total);
  }

  /** A distribution is never refused: it allocates exactly the floors of the cumulative total, the treasury and dev
      accounts have then received exactly their floors, and at most three lamports stay unallocated. */
  lemma DistributeNeverRefused(l: Ledger)
    requires Valid(l)
    ensures Distribute(l).Done?
    ensures var l' := Distribute(l).state;
      && AllocatedAt(l'.f, l.f.total) && l'.f.total == l.f.total
      && l'.treasuryPaid == Entitlement(l.f.total, 98) && l'.devPaid == Entitlement(l.f.total, 20)
      && l'.f.treasury + l'.f.dev + l'.f.parentA + l'.f.parentB <= l.f.total
      && l.f.total <= l'.f.treasury + l'.f.dev + l'.f.parentA + l'.f.parentB + 3
  {
    hide Entitlement;
    var t: nat :| t <= l.f.total && AllocatedAt(l.f, t);
    SplitBounds(t, l.f.total);
    SplitBounds(l.f.total, l.f.total);
  }

  /** A buyback within the slice and the pending budgets is never refused for the books; it spends parent A first. */
  lemma BuybackNeverRefused(l: Ledger, amount: nat, minOut: nat, received: nat)
    requires Valid(l) && 0 < amount <= MAX_SLICE && minOut <= received && l.coins + received <= l.mintSupply
    requires amount <= (l.f.parentA - l.f.spentA) + (l.f.parentB - l.f.spentB)
    ensures Buyback(l, amount, minOut, received, true).Done?
    ensures var l' := Buyback(l, amount, minOut, received, true).state;
      && l'.f.spentA + l'.f.spentB == l.f.spentA + l.f.spentB + amount
      && (l.f.spentB < l'.f.spentB ==> l'.f.spentA == l.f.parentA)
      && l'.coins == l.coins && l'.mintSupply == l.mintSupply - received
  {
    hide Entitlement;
    CustodyCovers(l);
    var t: nat :| t <= l.f.total && AllocatedAt(l.f, t);
    SplitBounds(t, l.f.total);
  }

  lemma BurnNeverRefused(l: Ledger, amount: nat)
    requires Valid(l) && 0 < amount <= l.f.child
    ensures Burn(l, amount).Done?
  {
  }

  lemma StepKeepsValid(l: Ledger, a: Action)
    requires Valid(l)
    ensures Valid(Step(l, a))
  {
    hide Entitlement;
    var t: nat :| t <= l.f.total && AllocatedAt(l.f, t);
    var l' := Step(l, a);
    if a.DoDistribute? {
      DistributeNeverRefused(l);
      SplitBounds(t, l.f.total);
      assert AllocatedAt(l'.f, l'.f.total);
    } else {
      assert AllocatedAt(l'.f, t);
    }
  }

  /** No interleaving of collections, distributions, buybacks, burns and donations breaks the invariant. */
  lemma {:induction false} RunKeepsValid(l: Ledger, actions: seq<Action>)
    requires Valid(l)
    ensures Valid(Run(l, actions))
    decreases |actions|
  {
    if actions != [] {
      StepKeepsValid(l, actions[0]);
      RunKeepsValid(Step(l, actions[0]), actions[1..]);
    }
  }

  /** SOL collected over the accepted collections of a run. */
  function Collected(l: Ledger, actions: seq<Action>): nat
    decreases |actions|
  {
    if actions == [] then 0
    else
      var a := actions[0];
      (if a.DoCollect? && Perform(l, a).Done? then a.gainedSol else 0) + Collected(Step(l, a), actions[1..])
  }

  lemma {:induction false} TotalIsCollected(l: Ledger, actions: seq<Action>)
    ensures Run(l, actions).f.total == l.f.total + Collected(l, actions)
    decreases |actions|
  {
    if actions != [] {
      TotalIsCollected(Step(l, actions[0]), actions[1..]);
    }
  }

  lemma {:induction false} RunThenDistribute(l: Ledger, actions: seq<Action>)
    ensures Run(l, actions + [DoDistribute]) == Step(Run(l, actions), DoDistribute)
    decreases |actions|
  {
    if actions == [] {
      assert actions + [DoDistribute] == [DoDistribute];
      assert Run(l, [DoDistribute]) == Run(Step(l, DoDistribute), []);
    } else {
      assert (actions + [DoDistribute])[1..] == actions[1..] + [DoDistribute];
      RunThenDistribute(Step(l, actions[0]), actions[1..]);
    }
  }

  /** However the same SOL was split over collections, distributions, buybacks and burns, a final distribution leaves
      the same allocations and has paid the treasury and the dev the same amounts: the one-shot floors of the sum. */
  lemma PathIndependence(l: Ledger, actions: seq<Action>)
    requires Valid(l) && l.f.total == 0
    ensures var l', total := Run(l, actions + [DoDistribute]), Collected(l, actions);
      && l'.f.total == total && AllocatedAt(l'.f, total)
      && l'.treasuryPaid == Entitlement(total, 98) && l'.devPaid == Entitlement(total, 20)
      && l'.wsol + l'.treasuryPaid + l'.devPaid + l'.f.spentA + l'.f.spentB == total + l'.donated
  {
    hide Valid, AllocatedAt, Entitlement;
    RunKeepsValid(l, actions);
    TotalIsCollected(l, actions);
    RunThenDistribute(l, actions);
    DistributeNeverRefused(Run(l, actions));
    StepKeepsValid(Run(l, actions), DoDistribute);
    Conserved(Run(l, actions + [DoDistribute]));
  }

  lemma Conserved(l: Ledger)
    requires Valid(l)
    ensures l.wsol + l.treasuryPaid + l.devPaid + l.f.spentA + l.f.spentB == l.f.total + l.donated
  {
  }

  lemma AllocationsOnlyGrow(l: Ledger, a: Action)
    requires Valid(l)
    ensures var f' := Step(l, a).f;
      && l.f.total <= f'.total && l.f.treasury <= f'.treasury && l.f.dev <= f'.dev
      && l.f.parentA <= f'.parentA && l.f.parentB <= f'.parentB
      && l.f.spentA <= f'.spentA && l.f.spentB <= f'.spentB && l.f.burnedChild <= f'.burnedChild
  {
    hide Entitlement;
    if a.DoDistribute? {
      var t: nat :| t <= l.f.total && AllocatedAt(l.f, t);
      SplitBounds(t, l.f.total);
    }
  }

  /** Every coin counted as burned left the mint supply, and the custody's uncounted coins change only by donations. */
  lemma BurnsAreCounted(l: Ledger, a: Action)
    ensures var l' := Step(l, a);
      && l'.f.burnedChild + l'.mintSupply == l.f.burnedChild + l.mintSupply
      && (!a.DonateCoins? ==> l'.coins - l'.f.child == l.coins - l.f.child)
  {
  }

  /** Fee solvency over every run: custody covers the liability, the liability both pending budgets, and the coin
      custody its counter. */
  lemma EveryRunIsCovered(l: Ledger, actions: seq<Action>)
    requires Valid(l)
    ensures var l' := Run(l, actions);
      && Liability(l'.f).Done? && PendingA(l'.f).Done? && PendingB(l'.f).Done?
      && PendingA(l'.f).state + PendingB(l'.f).state <= Liability(l'.f).state <= l'.wsol
      && l'.f.child <= l'.coins
      && (l'.f.parentA - l'.f.spentA) + (l'.f.parentB - l'.f.spentB)
         <= l'.f.total - l'.f.treasury - l'.f.dev - l'.f.spentA - l'.f.spentB <= l'.wsol
      && Distribute(l').Done?
  {
    RunKeepsValid(l, actions);
    CustodyCovers(Run(l, actions));
    DistributeNeverRefused(Run(l, actions));
  }

  // ---------- exact effects ----------

  /** `part` is the floor of `total * weight / 168`. */
  ghost predicate FlooredPart(part: nat, total: nat, weight: nat)
  {
    part * 168 <= total * weight < (part + 1) * 168
  }

  lemma EntitlementIsFloor(total: nat, weight: nat)
    ensures FlooredPart(Entitlement(total, weight), total, weight)
  {
  }

  /** A collection is accepted exactly when the coins exist and the SOL total fits 64 bits; it books exactly what
      custody gained, on both sides. */
  lemma CollectIsExact(l: Ledger, gainedChild: nat, gainedSol: nat)
    requires Valid(l)
    ensures var out := Perform(l, DoCollect(gainedChild, gainedSol));
      && (out.Done? <==> l.coins + gainedChild <= l.mintSupply && l.f.total + gainedSol <= 0xFFFF_FFFF_FFFF_FFFF)
      && (out.Done? ==>
            out.state == l.(f := l.f.(child := l.f.child + gainedChild, total := l.f.total + gainedSol),
                            coins := l.coins + gainedChild, wsol := l.wsol + gainedSol))
  {
    CustodyCovers(l);
    hide AllocatedAt;
  }

  /** A distribution is always accepted. The four allocations become the floors for 98, 20, 25 and 25 out of 168, and
      exactly the difference for treasury and dev leaves custody. */
  lemma DistributeIsExact(l: Ledger)
    requires Valid(l)
    ensures var out := Perform(l, DoDistribute);
      && out.Done?
      && var l', f' := out.state, out.state.f;
         && FlooredPart(f'.treasury, l.f.total, 98) && FlooredPart(f'.dev, l.f.total, 20)
         && FlooredPart(f'.parentA, l.f.total, 25) && FlooredPart(f'.parentB, l.f.total, 25)
         && f' == l.f.(treasury := f'.treasury, dev := f'.dev, parentA := f'.parentA, parentB := f'.parentB)
         && l' == l.(f := f', wsol := l'.wsol, treasuryPaid := f'.treasury, devPaid := f'.dev)
         && l'.wsol == l.wsol - (f'.treasury - l.f.treasury) - (f'.dev - l.f.dev)
  {
    hide Entitlement, FlooredPart;
    DistributeNeverRefused(l);
    EntitlementIsFloor(l.f.total, 98);
    EntitlementIsFloor(l.f.total, 20);
    EntitlementIsFloor(l.f.total, 25);
  }

  /** A buyback is accepted exactly for a quoted slice of at most half a SOL within the unspent budgets that returned at
      least the minimum. It spends parent A's budget before parent B's and burns exactly what came back. */
  lemma BuybackIsExact(l: Ledger, amount: nat, minOut: nat, received: nat, quoted: bool)
    requires Valid(l)
    ensures var out := Perform(l, DoBuyback(amount, minOut, received, quoted));
      && (out.Done? <==>
            && quoted && 0 < amount <= 500_000_000 && minOut <= received && l.coins + received <= l.mintSupply
            && amount <= (l.f.parentA - l.f.spentA) + (l.f.parentB - l.f.spentB))
      && (out.Done? ==>
            var fromA := if amount <= l.f.parentA - l.f.spentA then amount else l.f.parentA - l.f.spentA;
            out.state == l.(f := l.f.(spentA := l.f.spentA + fromA, spentB := l.f.spentB + (amount - fromA),
                                      burnedChild := l.f.burnedChild + received),
                            wsol := l.wsol - amount, mintSupply := l.mintSupply - received))
  {
    CustodyCovers(l);
    if quoted && 0 < amount <= 500_000_000 && minOut <= received && l.coins + received <= l.mintSupply
      && amount <= (l.f.parentA - l.f.spentA) + (l.f.parentB - l.f.spentB) {
      BuybackNeverRefused(l, amount, minOut, received);
    }
    hide AllocatedAt;
  }

  /** Coin fees are burned exactly up to what was collected, to the unit. */
  lemma BurnIsExact(l: Ledger, amount: nat)
    requires Valid(l)
    ensures var out := Perform(l, DoBurn(amount));
      && (out.Done? <==> 0 < amount <= l.f.child)
      && (out.Done? ==>
            out.state == l.(f := l.f.(child := l.f.child - amount, burnedChild := l.f.burnedChild + amount),
                            coins := l.coins - amount, mintSupply := l.mintSupply - amount))
  {
    hide AllocatedAt;
  }

  /** Coins collected, burned by tag 26 and bought back in the accepted instructions of a run. */
  datatype CoinFlow = CoinFlow(collected: nat, burned: nat, bought: nat)

  function FlowOf(l: Ledger, a: Action): CoinFlow
  {
    if Perform(l, a).Refused? then CoinFlow(0, 0, 0)
    else match a
      case DoCollect(gainedChild, _) => CoinFlow(gainedChild, 0, 0)
      case DoBurn(amount) => CoinFlow(0, amount, 0)
      case DoBuyback(_, _, received, _) => CoinFlow(0, 0, received)
      case _ => CoinFlow(0, 0, 0)
  }

  function Flow(l: Ledger, actions: seq<Action>): CoinFlow
    decreases |actions|
  {
    if actions == [] then CoinFlow(0, 0, 0)
    else
      var one, rest := FlowOf(l, actions[0]), Flow(Step(l, actions[0]), actions[1..]);
      CoinFlow(one.collected + rest.collected, one.burned + rest.burned, one.bought + rest.bought)
  }

  lemma StepCountsCoins(l: Ledger, a: Action)
    ensures var l', flow := Step(l, a), FlowOf(l, a);
      && l'.f.child + flow.burned == l.f.child + flow.collected
      && l'.f.burnedChild == l.f.burnedChild + flow.burned + flow.bought
      && l'.mintSupply + flow.burned + flow.bought == l.mintSupply
  {
    hide Entitlement;
  }

  /** Over any run the coin counter is what was collected less what tag 26 burned, and the burn counter and the mint
      supply account for every coin burned or bought back. */
  lemma {:induction false} RunCountsCoins(l: Ledger, actions: seq<Action>)
    ensures var l', flow := Run(l, actions), Flow(l, actions);
      && l'.f.child + flow.burned == l.f.child + flow.collected
      && l'.f.burnedChild == l.f.burnedChild + flow.burned + flow.bought
      && l'.mintSupply + flow.burned + flow.bought == l.mintSupply
    decreases |actions|
  {
    hide Step, FlowOf;
    if actions != [] {
      StepCountsCoins(l, actions[0]);
      RunCountsCoins(Step(l, actions[0]), actions[1..]);
    }
  }
}

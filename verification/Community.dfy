/** Holder snapshots: aggregation by owner and the allocation of two community pools. */
module Community {
  import opened Sums
  import opened Allocator

  datatype Account = Account(address: string, owner: string, amount: int, frozen: bool, onCurve: bool)

  datatype Snapshot = Snapshot(mint: string, source: string, slot: int, decimals: int, supply: int,
                               accounts: seq<Account>)

  const MAX_SAFE_INTEGER := 0x1F_FFFF_FFFF_FFFF

  datatype Rules = Rules(version: int, minimum: int, capBps: int, excluded: seq<string>, excludeOffCurve: bool,
                         excludeFrozen: bool)

  predicate RulesOk(rules: Rules)
  {
    rules.version == 1 && 1 <= rules.capBps <= MAXIMUM_BPS && 0 <= rules.minimum && "" !in rules.excluded
  }

  function AmountTotal(accounts: seq<Account>): int
  {
    if accounts == [] then 0
    else AmountTotal(accounts[..|accounts| - 1]) + accounts[|accounts| - 1].amount
  }

  predicate HeaderOk(s: Snapshot)
  {
    && s.mint != "" && s.source != "" && 0 <= s.slot <= MAX_SAFE_INTEGER && 0 <= s.decimals <= 255
    && 0 <= s.supply
  }

  predicate SnapshotOk(s: Snapshot)
  {
    && HeaderOk(s)
    && (forall i :: 0 <= i < |s.accounts| ==>
          s.accounts[i].address != "" && s.accounts[i].owner != "" && 0 <= s.accounts[i].amount)
    && (forall i, j :: 0 <= i < j < |s.accounts| ==> s.accounts[i].address != s.accounts[j].address)
    && AmountTotal(s.accounts) <= s.supply
  }

  /** `assertSnapshot`, one pass over the accounts. */
  method CheckSnapshot(s: Snapshot) returns (ok: bool)
    ensures ok <==> SnapshotOk(s)
    ensures ok ==> s.mint != "" && s.source != "" && s.slot <= 9_007_199_254_740_991 && s.decimals <= 255
    ensures (&& s.mint != "" && s.source != "" && 0 <= s.slot <= 9_007_199_254_740_991 && 0 <= s.decimals <= 255
             && 0 <= s.supply && s.accounts == []) ==> ok
  {
    if s.mint == "" || s.source == "" { return false; }
    if s.slot < 0 || MAX_SAFE_INTEGER < s.slot || s.decimals < 0 || 255 < s.decimals || s.supply < 0 { return false; }
    var addresses: set<string> := {};
    var total := 0;
    for i := 0 to |s.accounts|
      invariant addresses == set k | 0 <= k < i :: s.accounts[k].address
      invariant total == AmountTotal(s.accounts[..i])
      invariant forall k :: 0 <= k < i ==>
        s.accounts[k].address != "" && s.accounts[k].owner != "" && 0 <= s.accounts[k].amount
      invariant forall k, j :: 0 <= k < j < i ==> s.accounts[k].address != s.accounts[j].address
    {
      var a := s.accounts[i];
      if a.address == "" || a.owner == "" || a.amount < 0 { return false; }
      if a.address in addresses { return false; }
      addresses := addresses + {a.address};
      total := total + a.amount;
      assert s.accounts[..i + 1][..i] == s.accounts[..i];
    }
    assert s.accounts[..|s.accounts|] == s.accounts;
    ok := total <= s.supply;
  }

  // ---------- aggregation ----------

  predicate Kept(rules: Rules, a: Account)
  {
    && a.amount != 0
    && a.owner !in rules.excluded
    && (rules.excludeOffCurve ==> a.onCurve)
    && (rules.excludeFrozen ==> !a.frozen)
  }

  /** What one owner holds in the accounts that are kept. */
  function OwnerTotal(rules: Rules, accounts: seq<Account>, owner: string): int
  {
    if accounts == [] then 0
    else
      var last := accounts[|accounts| - 1];
      OwnerTotal(rules, accounts[..|accounts| - 1], owner) +
        if last.owner == owner && Kept(rules, last) then last.amount else 0
  }

  /** How many of one owner's accounts are kept. */
  function OwnerCount(rules: Rules, accounts: seq<Account>, owner: string): nat
  {
    if accounts == [] then 0
    else
      var last := accounts[|accounts| - 1];
      OwnerCount(rules, accounts[..|accounts| - 1], owner) + if last.owner == owner && Kept(rules, last) then 1 else 0
  }

  datatype Holding = Holding(amount: nat, accounts: nat)

  /** `totals` holds exactly the owners with a kept account among `accounts`, each with their total and count. */
  ghost predicate Aggregated(rules: Rules, accounts: seq<Account>, totals: map<string, Holding>)
  {
    && (forall o :: o in totals <==> 0 < OwnerCount(rules, accounts, o))
    && (forall o :: o in totals ==>
          totals[o].amount == OwnerTotal(rules, accounts, o) && totals[o].accounts == OwnerCount(rules, accounts, o))
  }

  ghost function Counts(totals: map<string, Holding>): map<string, nat> { map o | o in totals :: totals[o].accounts }

  ghost function Amounts(totals: map<string, Holding>): map<string, nat> { map o | o in totals :: totals[o].amount }

  lemma {:induction false} NoAccountsNoTotal(rules: Rules, accounts: seq<Account>, owner: string)
    requires OwnerCount(rules, accounts, owner) == 0
    ensures OwnerTotal(rules, accounts, owner) == 0
  {
    if accounts != [] {
      NoAccountsNoTotal(rules, accounts[..|accounts| - 1], owner);
    }
  }

  lemma AggregateOne(rules: Rules, before: seq<Account>, a: Account, totals: map<string, Holding>)
    requires Aggregated(rules, before, totals) && 0 <= a.amount
    ensures !Kept(rules, a) ==> Aggregated(rules, before + [a], totals)
    ensures Kept(rules, a) ==>
      var was := if a.owner in totals then totals[a.owner] else Holding(0, 0);
      Aggregated(rules, before + [a], totals[a.owner := Holding(was.amount + a.amount, was.accounts + 1)])
  {
    assert (before + [a])[..|before|] == before;
    if a.owner !in totals {
      NoAccountsNoTotal(rules, before, a.owner);
    }
  }

  lemma AggregateNothing(rules: Rules)
    ensures Aggregated(rules, [], map[]) && Sum(Counts(map[])) == 0 && Sum(Amounts(map[])) == 0 && AmountTotal([]) == 0
  {
    assert Counts(map[]) == map[] && Amounts(map[]) == map[];
  }

  lemma AmountTotalStep(before: seq<Account>, a: Account)
    ensures AmountTotal(before + [a]) == AmountTotal(before) + a.amount
  {
    assert (before + [a])[..|before|] == before;
  }

  lemma TotalsAfter(totals: map<string, Holding>, owner: string, h: Holding)
    ensures var was := if owner in totals then totals[owner] else Holding(0, 0);
      && Sum(Counts(totals[owner := h])) == Sum(Counts(totals)) - was.accounts + h.accounts
      && Sum(Amounts(totals[owner := h])) == Sum(Amounts(totals)) - was.amount + h.amount
  {
    assert Counts(totals[owner := h]) == Counts(totals)[owner := h.accounts];
    SumUpdate(Counts(totals), owner, h.accounts);
    assert Amounts(totals[owner := h]) == Amounts(totals)[owner := h.amount];
    SumUpdate(Amounts(totals), owner, h.amount);
  }

  /** First half of `aggregateSnapshotByOwner`: drop accounts, add up the rest per owner. */
  method TotalByOwner(rules: Rules, accounts: seq<Account>) returns (totals: map<string, Holding>, dropped: nat)
    requires forall i :: 0 <= i < |accounts| ==> 0 <= accounts[i].amount
    ensures Aggregated(rules, accounts, totals)
    ensures Sum(Counts(totals)) + dropped == |accounts|
    ensures Sum(Amounts(totals)) <= AmountTotal(accounts)
  {
    hide Aggregated, Sum, Counts, Amounts, Kept, AmountTotal;
    totals, dropped := map[], 0;
    AggregateNothing(rules);
    for i := 0 to |accounts|
      invariant Aggregated(rules, accounts[..i], totals)
      invariant Sum(Counts(totals)) + dropped == i
      invariant Sum(Amounts(totals)) <= AmountTotal(accounts[..i])
    {
      var a := accounts[i];
      AggregateOne(rules, accounts[..i], a, totals);
      assert accounts[..i + 1] == accounts[..i] + [a];
      AmountTotalStep(accounts[..i], a);
      if !Kept(rules, a) {
        dropped := dropped + 1;
      } else {
        var was := if a.owner in totals then totals[a.owner] else Holding(0, 0);
        var current := Holding(was.amount + a.amount, was.accounts + 1);
        TotalsAfter(totals, a.owner, current);
        totals := totals[a.owner := current];
      }
    }
    assert accounts[..|accounts|] == accounts;
  }

  function Eligible(totals: map<string, Holding>, minimum: int): map<string, int>
  {
    map o | o in totals && minimum <= totals[o].amount :: totals[o].amount
  }

  ghost function EligibleHoldings(totals: map<string, Holding>, minimum: int): map<string, Holding>
  {
    map o | o in totals && minimum <= totals[o].amount :: totals[o]
  }

  lemma OneMoreEligible(done: map<string, Holding>, o: string, h: Holding, minimum: int)
    requires o !in done
    ensures Eligible(done[o := h], minimum)
         == if h.amount < minimum then Eligible(done, minimum) else Eligible(done, minimum)[o := h.amount]
    ensures |done[o := h]| == |done| + 1
  {
    assert done[o := h].Keys == done.Keys + {o};
  }

  lemma OneMoreHolding(done: map<string, Holding>, o: string, h: Holding, minimum: int)
    requires o !in done
    ensures EligibleHoldings(done[o := h], minimum)
         == if h.amount < minimum then EligibleHoldings(done, minimum) else EligibleHoldings(done, minimum)[o := h]
  {
  }

  /** Second half of `aggregateSnapshotByOwner`: owners below the floor are dropped with all their accounts. */
  method DropDust(totals: map<string, Holding>, minimum: int) returns (eligible: map<string, int>, dropped: nat)
    ensures eligible == Eligible(totals, minimum)
    ensures Sum(Counts(EligibleHoldings(totals, minimum))) + dropped == Sum(Counts(totals))
    ensures Sum(Amounts(EligibleHoldings(totals, minimum))) <= Sum(Amounts(totals))
  {
    hide Sum, Counts, Amounts;
    eligible, dropped := map[], 0;
    var done: map<string, Holding> := map[];
    while done != totals
      invariant done.Keys <= totals.Keys && forall o :: o in done ==> done[o] == totals[o]
      invariant eligible == Eligible(done, minimum)
      invariant Sum(Counts(EligibleHoldings(done, minimum))) + dropped == Sum(Counts(done))
      invariant Sum(Amounts(EligibleHoldings(done, minimum))) <= Sum(Amounts(done))
      decreases |totals| - |done|
    {
      PartMissesKey(done, totals);
      var o :| o in totals && o !in done;
      var h := totals[o];
      OneMoreEligible(done, o, h, minimum);
      OneMoreHolding(done, o, h, minimum);
      TotalsAfter(done, o, h);
      TotalsAfter(EligibleHoldings(done, minimum), o, h);
      if h.amount < minimum {
        dropped := dropped + h.accounts;
      } else {
        eligible := eligible[o := h.amount];
      }
      done := done[o := h];
    }
  }

  /** How many accounts stand behind the owners of `eligible`. */
  ghost function Behind(rules: Rules, accounts: seq<Account>, eligible: map<string, int>): map<string, nat>
  {
    map o | o in eligible :: OwnerCount(rules, accounts, o)
  }

  datatype Aggregation = Aggregation(eligible: map<string, int>, excludedAccounts: nat) | BadInput

  /** The eligible owners are exactly those whose kept accounts together reach the floor, with exactly that total;
      eligible accounts plus excluded accounts are all accounts of the snapshot. */
  ghost predicate AggregationOk(s: Snapshot, rules: Rules, eligible: map<string, int>, excludedAccounts: nat)
  {
    && (forall o :: o in eligible <==>
          0 < OwnerCount(rules, s.accounts, o) && rules.minimum <= OwnerTotal(rules, s.accounts, o))
    && (forall o :: o in eligible ==> o != "" && eligible[o] == OwnerTotal(rules, s.accounts, o) > 0)
    && Sum(Behind(rules, s.accounts, eligible)) + excludedAccounts == |s.accounts|
    && Sum(Positive(eligible)) <= s.supply
  }

  /** No kept account has an empty owner, so no eligible owner is empty. */
  lemma {:induction false} CountedOwnerIsNamed(rules: Rules, accounts: seq<Account>, owner: string)
    requires forall i :: 0 <= i < |accounts| ==> accounts[i].owner != ""
    requires 0 < OwnerCount(rules, accounts, owner)
    ensures owner != ""
  {
    if accounts[|accounts| - 1].owner != owner {
      CountedOwnerIsNamed(rules, accounts[..|accounts| - 1], owner);
    }
  }

  /** Empty accounts are not kept, so an owner with a kept account holds something. */
  lemma {:induction false} CountedOwnerHolds(rules: Rules, accounts: seq<Account>, owner: string)
    requires forall i :: 0 <= i < |accounts| ==> 0 <= accounts[i].amount
    ensures OwnerCount(rules, accounts, owner) <= OwnerTotal(rules, accounts, owner)
  {
    if accounts != [] {
      CountedOwnerHolds(rules, accounts[..|accounts| - 1], owner);
    }
  }

  /** `aggregateSnapshotByOwner`, refused exactly for bad rules or an inconsistent snapshot. */
  method AggregateSnapshotByOwner(s: Snapshot, rules: Rules) returns (a: Aggregation)
    ensures a.BadInput? <==> !(RulesOk(rules) && SnapshotOk(s))
    ensures a.Aggregation? ==> AggregationOk(s, rules, a.eligible, a.excludedAccounts)
  {
    var snapshotOk := CheckSnapshot(s);
    if !RulesOk(rules) || !snapshotOk { return BadInput; }
    hide *;
    var totals, dropped := TotalByOwner(rules, s.accounts);
    var eligible, dust := DropDust(totals, rules.minimum);
    AggregationHolds(s, rules, totals, dropped, dust);
    a := Aggregation(eligible, dropped + dust);
  }

  lemma AggregationHolds(s: Snapshot, rules: Rules, totals: map<string, Holding>, dropped: nat, dust: nat)
    requires SnapshotOk(s) && Aggregated(rules, s.accounts, totals)
    requires var kept := EligibleHoldings(totals, rules.minimum);
      && Sum(Counts(kept)) + dust + dropped == |s.accounts|
      && Sum(Amounts(kept)) <= AmountTotal(s.accounts)
    ensures AggregationOk(s, rules, Eligible(totals, rules.minimum), dropped + dust)
  {
    hide Sum, OwnerTotal, OwnerCount, AmountTotal;
    var kept, eligible := EligibleHoldings(totals, rules.minimum), Eligible(totals, rules.minimum);
    assert Counts(kept) == Behind(rules, s.accounts, eligible);
    DroppingZeros(Amounts(kept));
    assert Positive(eligible) == Positive(Amounts(kept));
    forall o | o in eligible ensures o != "" && 0 < OwnerTotal(rules, s.accounts, o) {
      CountedOwnerIsNamed(rules, s.accounts, o);
      CountedOwnerHolds(rules, s.accounts, o);
    }
  }

  // ---------- the rules in plain terms ----------

  /** What an owner holds, frozen and off-curve accounts included or not. */
  ghost function HeldBy(accounts: seq<Account>, owner: string, frozenToo: bool, offCurveToo: bool): int
  {
    if accounts == [] then 0
    else
      var last := accounts[|accounts| - 1];
      HeldBy(accounts[..|accounts| - 1], owner, frozenToo, offCurveToo)
      + if last.owner == owner && (frozenToo || !last.frozen) && (offCurveToo || last.onCurve) then last.amount else 0
  }

  lemma {:induction false} TotalIsHeld(rules: Rules, accounts: seq<Account>, owner: string)
    requires forall i :: 0 <= i < |accounts| ==> 0 <= accounts[i].amount
    ensures owner !in rules.excluded ==>
      OwnerTotal(rules, accounts, owner) == HeldBy(accounts, owner, !rules.excludeFrozen, !rules.excludeOffCurve)
    ensures OwnerCount(rules, accounts, owner) == 0 <==> OwnerTotal(rules, accounts, owner) == 0
    ensures owner in rules.excluded ==> OwnerTotal(rules, accounts, owner) == 0
    ensures 0 <= OwnerTotal(rules, accounts, owner)
  {
    if accounts != [] {
      TotalIsHeld(rules, accounts[..|accounts| - 1], owner);
    }
  }

  /** An owner is eligible exactly if the rules do not exclude them and what they hold, without frozen accounts and
      without off-curve accounts where the rules say so, is positive and reaches the floor; it counts with exactly
      that. */
  lemma EligibleAsRuled(s: Snapshot, rules: Rules, eligible: map<string, int>, excludedAccounts: nat, o: string)
    requires SnapshotOk(s) && AggregationOk(s, rules, eligible, excludedAccounts)
    ensures var held := HeldBy(s.accounts, o, !rules.excludeFrozen, !rules.excludeOffCurve);
      && (o in eligible <==> o !in rules.excluded && 0 < held && rules.minimum <= held)
      && (o in eligible ==> eligible[o] == held)
  {
    hide Sum, AmountTotal, HeldBy, OwnerTotal, OwnerCount;
    TotalIsHeld(rules, s.accounts, o);
  }
}

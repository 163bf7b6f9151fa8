/** The disclosed allocation for exactly two communities, merged into one entry per owner. */
module PairAllocation {
  import opened Sums
  import opened Allocator
  import opened Community

  datatype Input = Input(snapshot: Snapshot, pool: int)

  datatype Row = Row(mint: string, amount: nat, balance: int)

  datatype Entry = Entry(amount: nat, rows: seq<Row>)

  datatype Line = Line(mint: string, pool: nat, eligibleOwners: nat, eligibleBalance: nat, excludedAccounts: nat,
                       given: nat, remainder: nat, capped: nat)

  datatype PairResult =
    | PairResult(lines: seq<Line>, allocations: map<string, Entry>, totalGiven: nat, totalRemainder: nat)
    | BadRules | NotTwo | SameMint | BadPool | BadSnapshot | NotConserved | NotReconciled

  function EntryOf(byOwner: map<string, Entry>, o: string): Entry
  {
    if o in byOwner then byOwner[o] else Entry(0, [])
  }

  /** One more community paid to an owner. */
  function WithShare(e: Entry, mint: string, share: nat, balance: int): Entry
  {
    Entry(e.amount + share, e.rows + [Row(mint, share, balance)])
  }

  /** The entries after one community's shares are added. */
  function Merged(byOwner: map<string, Entry>, shares: map<string, nat>, mint: string,
                  eligible: map<string, int>): map<string, Entry>
    requires shares.Keys <= eligible.Keys
  {
    map o | o in byOwner.Keys + shares.Keys ::
      if o in shares then WithShare(EntryOf(byOwner, o), mint, shares[o], eligible[o]) else byOwner[o]
  }

  ghost function EntryAmounts(m: map<string, Entry>): map<string, nat> { map o | o in m :: m[o].amount }

  lemma EntriesAfter(m: map<string, Entry>, o: string, e: Entry)
    ensures Sum(EntryAmounts(m[o := e])) == Sum(EntryAmounts(m)) - EntryOf(m, o).amount + e.amount
  {
    assert EntryAmounts(m[o := e]) == EntryAmounts(m)[o := e.amount];
    SumUpdate(EntryAmounts(m), o, e.amount);
  }

  lemma MergeOneMore(byOwner: map<string, Entry>, done: map<string, nat>, o: string, share: nat, mint: string,
                     eligible: map<string, int>)
    requires done.Keys <= eligible.Keys && o in eligible && o !in done
    ensures Merged(byOwner, done[o := share], mint, eligible)
         == Merged(byOwner, done, mint, eligible)[o := WithShare(EntryOf(byOwner, o), mint, share, eligible[o])]
    ensures EntryOf(Merged(byOwner, done, mint, eligible), o) == EntryOf(byOwner, o)
  {
  }

  /** The inner loop of `computeCommunityAllocation`: what is added to the entries is exactly what was shared out. */
  method Merge(byOwner: map<string, Entry>, shares: map<string, nat>, mint: string, eligible: map<string, int>)
    returns (merged: map<string, Entry>)
    requires shares.Keys <= eligible.Keys
    ensures merged == Merged(byOwner, shares, mint, eligible)
    ensures Sum(EntryAmounts(merged)) == Sum(EntryAmounts(byOwner)) + Sum(shares)
  {
    hide Sum, EntryAmounts, Merged, WithShare, EntryOf;
    merged := byOwner;
    var done: map<string, nat> := map[];
    MergeNothing(byOwner, mint, eligible);
    while done != shares
      invariant done.Keys <= shares.Keys && forall o :: o in done ==> done[o] == shares[o]
      invariant merged == Merged(byOwner, done, mint, eligible)
      invariant Sum(EntryAmounts(merged)) == Sum(EntryAmounts(byOwner)) + Sum(done)
      decreases |shares| - |done|
    {
      PartMissesKey(done, shares);
      var o :| o in shares && o !in done;
      var e := WithShare(EntryOf(merged, o), mint, shares[o], eligible[o]);
      MergeOneMore(byOwner, done, o, shares[o], mint, eligible);
      EntriesAfter(merged, o, e);
      Added(EntryOf(merged, o), mint, shares[o], eligible[o]);
      SumUpdate(done, o, shares[o]);
      OneMoreKey(done, o, shares[o]);
      merged := merged[o := e];
      done := done[o := shares[o]];
    }
  }

  lemma Added(e: Entry, mint: string, share: nat, balance: int)
    ensures WithShare(e, mint, share, balance).amount == e.amount + share
  {
  }

  lemma OneMoreKey(m: map<string, nat>, o: string, n: nat)
    requires o !in m
    ensures |m[o := n]| == |m| + 1
  {
    assert m[o := n].Keys == m.Keys + {o};
  }

  lemma MergeNothing(byOwner: map<string, Entry>, mint: string, eligible: map<string, int>)
    ensures Merged(byOwner, map[], mint, eligible) == byOwner
    ensures var none: map<string, nat> := map[]; Sum(none) == 0
  {
  }

  predicate PairOk(inputs: seq<Input>, rules: Rules)
  {
    && RulesOk(rules) && |inputs| == 2
    && inputs[0].snapshot.mint != inputs[1].snapshot.mint
    && (forall i :: 0 <= i < 2 ==> 0 <= inputs[i].pool && SnapshotOk(inputs[i].snapshot))
  }

  /** One community's part: who is eligible, how many accounts are not, and the allocation of its pool. */
  datatype Part = Part(eligible: map<string, int>, excludedAccounts: nat, a: Allocation)

  ghost predicate PartOk(input: Input, rules: Rules, p: Part)
  {
    && 0 <= input.pool && 0 <= rules.capBps
    && AggregationOk(input.snapshot, rules, p.eligible, p.excludedAccounts)
    && AllocationOk(p.eligible, input.pool, rules.capBps, p.a)
  }

  ghost predicate LineOk(input: Input, p: Part, line: Line)
  {
    && p.a.Allocated?
    && line.mint == input.snapshot.mint && line.pool == input.pool
    && line.eligibleOwners == |p.eligible| && line.eligibleBalance == Sum(Positive(p.eligible))
    && line.excludedAccounts == p.excludedAccounts
    && line.given == Sum(p.a.shares) && line.remainder == p.a.remainder && line.capped == p.a.capped
    && line.given + line.remainder == line.pool
  }

  /** One pass of the outer loop: aggregate one snapshot and allocate its pool. */
  method AllocateOne(input: Input, rules: Rules) returns (ok: bool, p: Part, line: Line)
    requires RulesOk(rules) && 0 <= input.pool
    ensures ok <==> SnapshotOk(input.snapshot)
    ensures ok ==> PartOk(input, rules, p) && LineOk(input, p, line)
  {
    hide SnapshotOk;
    var g := AggregateSnapshotByOwner(input.snapshot, rules);
    if g.BadInput? {
      return false, Part(map[], 0, Allocated(map[], 0, 0)), Line("", 0, 0, 0, 0, 0, 0, 0);
    }
    var a := AllocateCommunityPool(g.eligible, input.pool, rules.capBps);
    p := Part(g.eligible, g.excludedAccounts, a);
    var given := SumOf(a.shares);
    var eligibleBalance := SumOf(Positive(g.eligible));
    line := Line(input.snapshot.mint, input.pool, |g.eligible|, eligibleBalance, g.excludedAccounts, given,
                 a.remainder, a.capped);
    ok := true;
  }

  ghost function MergedPair(inputs: seq<Input>, p: Part, q: Part): map<string, Entry>
    requires |inputs| == 2 && p.a.Allocated? && q.a.Allocated?
    requires p.a.shares.Keys <= p.eligible.Keys && q.a.shares.Keys <= q.eligible.Keys
  {
    Merged(Merged(map[], p.a.shares, inputs[0].snapshot.mint, p.eligible), q.a.shares,
           inputs[1].snapshot.mint, q.eligible)
  }

  /** The whole result: both communities' lines and the merged entries reconcile to the lamport. */
  ghost predicate PairResultOk(inputs: seq<Input>, rules: Rules, r: PairResult, p: Part, q: Part)
  {
    && |inputs| == 2 && r.PairResult? && |r.lines| == 2
    && PartOk(inputs[0], rules, p) && LineOk(inputs[0], p, r.lines[0])
    && PartOk(inputs[1], rules, q) && LineOk(inputs[1], q, r.lines[1])
    && r.allocations == MergedPair(inputs, p, q)
    && r.totalGiven == r.lines[0].given + r.lines[1].given == Sum(EntryAmounts(r.allocations))
    && r.totalRemainder == r.lines[0].remainder + r.lines[1].remainder
    && r.totalGiven + r.totalRemainder == inputs[0].pool + inputs[1].pool
  }

  method SumEntries(m: map<string, Entry>) returns (total: nat)
    ensures total == Sum(EntryAmounts(m))
  {
    total := SumOf(map o | o in m :: m[o].amount);
  }

  /** `computeCommunityAllocation`. It is refused exactly for bad inputs; both of its reconciliation throws are
      unreachable. */
  method ComputeCommunityAllocation(inputs: seq<Input>, rules: Rules)
    returns (r: PairResult, ghost p: Part, ghost q: Part)
    ensures r.PairResult? <==> PairOk(inputs, rules)
    ensures r != NotConserved && r != NotReconciled
    ensures r.PairResult? ==> PairResultOk(inputs, rules, r, p, q)
  {
    hide RulesOk, SnapshotOk, AllocationOk, AggregationOk, Sum, EntryAmounts, Merged;
    p := Part(map[], 0, Allocated(map[], 0, 0));
    q := p;
    if !RulesOk(rules) { r := BadRules; return; }
    if |inputs| != 2 { r := NotTwo; return; }
    if inputs[0].snapshot.mint == inputs[1].snapshot.mint { r := SameMint; return; }
    if inputs[0].pool < 0 { r := BadPool; return; }
    var ok, p', line := AllocateOne(inputs[0], rules);
    if !ok { r := BadSnapshot; return; }
    p := p';
    SharesAreEligible(inputs[0], rules, p');
    var byOwner := Merge(map[], p'.a.shares, inputs[0].snapshot.mint, p'.eligible);
    if inputs[1].pool < 0 { r := BadPool; return; }
    var ok2, q', line2 := AllocateOne(inputs[1], rules);
    if !ok2 { r := BadSnapshot; return; }
    q := q';
    SharesAreEligible(inputs[1], rules, q');
    byOwner := Merge(byOwner, q'.a.shares, inputs[1].snapshot.mint, q'.eligible);
    NoEntries();
    var totalGiven := line.given + line2.given;
    var totalRemainder := line.remainder + line2.remainder;
    if totalGiven + totalRemainder != line.pool + line2.pool { r := NotConserved; return; }
    var paid := SumEntries(byOwner);
    if paid != totalGiven { r := NotReconciled; return; }
    r := PairResult([line, line2], byOwner, totalGiven, totalRemainder);
  }

  lemma NoEntries()
    ensures var none: map<string, Entry> := map[]; Sum(EntryAmounts(none)) == 0
  {
    var none: map<string, Entry> := map[];
    assert EntryAmounts(none) == map[];
  }

  lemma SharesAreEligible(input: Input, rules: Rules, p: Part)
    requires PartOk(input, rules, p)
    ensures p.a.Allocated? && p.a.shares.Keys <= p.eligible.Keys
  {
  }

  function ShareOf(shares: map<string, nat>, o: string): nat
  {
    if o in shares then shares[o] else 0
  }

  /** An owner's published amount is the sum of their two community shares, with one row for each community that paid
      them, in input order; whoever got nothing has no entry. */
  lemma OwnerAmounts(inputs: seq<Input>, rules: Rules, r: PairResult, p: Part, q: Part, o: string)
    requires PairResultOk(inputs, rules, r, p, q)
    ensures o in r.allocations <==> o in p.a.shares || o in q.a.shares
    ensures o in r.allocations ==>
      && r.allocations[o].amount == ShareOf(p.a.shares, o) + ShareOf(q.a.shares, o)
      && r.allocations[o].rows ==
           (if o in p.a.shares then [Row(inputs[0].snapshot.mint, p.a.shares[o], p.eligible[o])] else []) +
           (if o in q.a.shares then [Row(inputs[1].snapshot.mint, q.a.shares[o], q.eligible[o])] else [])
  {
    hide AllocationOk, AggregationOk, LineOk, Sum;
    SharesAreEligible(inputs[0], rules, p);
    SharesAreEligible(inputs[1], rules, q);
  }
}

/** The distribution program run in place: every handler decodes the record, moves vault balances and writes only the
    counters back. */
module DistributionProgram {
  import opened Base
  import opened Floors
  import opened Escrow
  import opened EscrowInvariant
  import opened Calendar
  import opened Vesting
  import opened Custody
  import opened Merkle
  import opened ParentProofs
  import opened Record
  import opened Vaults
  import opened VaultSafety

  const BALANCE_MISMATCH: Status := Err(Custom(4))
  const OVERFLOW: Status := Err(Custom(10))

  function Prefix(q: seq<nat>, n: nat): nat
    requires n <= |q|
  {
    if n == 0 then 0 else Prefix(q, n - 1) + q[n - 1]
  }

  lemma PrefixMonotone(q: seq<nat>, n: nat)
    requires n <= |q|
    ensures Prefix(q, n) <= Prefix(q, |q|)
    decreases |q| - n
  {
    if n < |q| {
      PrefixMonotone(q, n + 1);
    }
  }

  lemma AllocationTotal(supply: U64)
    ensures Prefix(Allocations(supply), 4) == VaultTotal(supply) <= U64_MAX
  {
    SharesConserveSupply(supply);
    hide Share;
    var q := Allocations(supply);
    assert Prefix(q, 4) == Prefix(q, 3) + q[3] && Prefix(q, 3) == Prefix(q, 2) + q[2];
    assert Prefix(q, 2) == Prefix(q, 1) + q[1] && Prefix(q, 1) == q[0];
  }

  /** The funding loop of `activate`: whatever a vault held before is burned, then it receives its allocation from the
      source and must hold exactly that. The loop goes through exactly if the source covers the sum, whatever the vaults
      held. */
  method FundVaults(vaults: array<nat>, allocation: seq<nat>, source: nat, mintSupply: nat)
    returns (status: Status, source': nat, mintSupply': nat)
    requires vaults.Length == |allocation| == 4
    requires Prefix(vaults[..], 4) <= mintSupply
    modifies vaults
    ensures status == (if Prefix(allocation, 4) <= source then Ok else BALANCE_MISMATCH)
    ensures status == Ok ==> vaults[..] == allocation
    ensures status == Ok ==> source' + Prefix(allocation, 4) == source
    ensures status == Ok ==> mintSupply' + Prefix(old(vaults[..]), 4) == mintSupply
  {
    ghost var before := vaults[..];
    source', mintSupply' := source, mintSupply;
    for purpose := 0 to 4
      invariant forall k :: 0 <= k < 4 ==> vaults[k] == if k < purpose then allocation[k] else before[k]
      invariant source' + Prefix(allocation, purpose) == source
      invariant mintSupply' + Prefix(before, purpose) == mintSupply
    {
      PrefixMonotone(allocation, purpose + 1);
      PrefixMonotone(before, purpose + 1);
      var donated := vaults[purpose];
      if donated > 0 {
        vaults[purpose] := 0;
        mintSupply' := mintSupply' - donated;
      }
      var amount := allocation[purpose];
      if source' < amount { return BALANCE_MISMATCH, source', mintSupply'; }
      source' := source' - amount;
      vaults[purpose] := vaults[purpose] + amount;
      if vaults[purpose] != amount { return BALANCE_MISMATCH, source', mintSupply'; }
    }
    status := Ok;
  }

  lemma DevTerms(e: State, s: VaultState)
    requires VaultOk(e.c, e.receipts, e.clock, s)
    ensures s.d.devStart < s.d.devEnd && s.d.devStart <= e.clock
    ensures LinearEntitlement(s.d.supply, s.d.devStart, s.d.devEnd, e.clock,
                              DevEntitled(s.d.supply, s.d.devStart, s.d.devEnd, e.clock))
  {
    hide ThreeMonthEnd, Allocations, ClaimsMatch, VaultsSolvent;
    DevEntitledIsLinear(s.d.supply, s.d.devStart, s.d.devEnd, e.clock);
  }

  class Program {
    const record: array<Byte>
    const vaults: array<nat>
    var participants: map<Pubkey, nat>
    var parentA: map<Pubkey, nat>
    var parentB: map<Pubkey, nat>

    /** The record is well formed: it is the encoding of the value it decodes to. */
    ghost predicate WellFormed()
      reads this, record, vaults
    {
      && record.Length == LENGTH && vaults.Length == 4 && record as object != vaults as object
      && record[..] == Encode(Decode(record[..]))
    }

    ghost function View(): VaultState
      requires WellFormed()
      reads this, record, vaults
    {
      VaultState(Decode(record[..]), vaults[..], participants, parentA, parentB)
    }

    /** Every account has its size; the record may hold anything. */
    ghost predicate Allocated()
      reads this
    {
      record.Length == LENGTH && vaults.Length == 4 && record as object != vaults as object
    }

    /** The accounts before activation: an empty record, and vaults that anybody may have sent coins to. */
    constructor (balances: seq<nat>)
      requires |balances| == 4
      ensures Allocated() && vaults[..] == balances && fresh(record) && fresh(vaults)
    {
      var zero: Byte := 0;
      record := new Byte[LENGTH](_ => zero);
      var v := new nat[4] [balances[0], balances[1], balances[2], balances[3]];
      assert v[..] == balances;
      vaults := v;
      participants, parentA, parentB := map[], map[], map[];
    }

    /** Tag 0 on the launch path: every check, then the funding loop, then the record. Whatever the vaults held before
        is burned, so activation does not depend on it; after the checks nothing can fail any more. */
    method ActivateVaults(c: Campaign, t: Tokens, keys: Distribution, mintSupply: nat)
      returns (status: Status, custody: nat, mintSupply': nat)
      requires Allocated() && Prefix(vaults[..], 4) <= mintSupply
      modifies this, record, vaults
      ensures Allocated()
      ensures match Activate(c, t, keys)
        case Done((s, rest)) =>
          && status == Ok && WellFormed() && View() == s && custody == rest
          && mintSupply' + Prefix(old(vaults[..]), 4) == mintSupply
        case Refused(e) =>
          && status == Err(e) && record[..] == old(record[..]) && vaults[..] == old(vaults[..])
          && custody == t.balance && mintSupply' == mintSupply
    {
      hide Encode, Decode, ThreeMonthEnd, Share;
      custody, mintSupply' := t.balance, mintSupply;
      if c.phase != Launched || c.launchTime <= 0 { return Err(Custom(1)), custody, mintSupply'; }
      if t.a.claimed != 0 || t.b.claimed != 0 || t.devClaimed != 0 { return Err(Custom(3)), custody, mintSupply'; }
      if U64_MAX < c.supply || U64_MAX < c.settledAccepted { return OVERFLOW, custody, mintSupply'; }
      var allocation, owed := Allocations(c.supply), 0;
      AllocationTotal(c.supply);
      for purpose := 0 to 4
        modifies {}
        invariant owed == Prefix(allocation, purpose)
      {
        PrefixMonotone(allocation, purpose + 1);
        if U64_MAX < owed + allocation[purpose] { return OVERFLOW, custody, mintSupply'; }
        owed := owed + allocation[purpose];
      }
      if t.balance < owed { return BALANCE_MISMATCH, custody, mintSupply'; }
      if I64_MAX < c.launchTime + PARENT_EXPIRY_SECONDS { return OVERFLOW, custody, mintSupply'; }
      var end := ThreeMonthEnd(c.launchTime);
      if end.Refused? { return OVERFLOW, custody, mintSupply'; }
      var d := Terms(keys, t, c.supply, c.settledAccepted, c.launchTime, c.launchTime + PARENT_EXPIRY_SECONDS,
                     end.state);
      assert vaults[..] == old(vaults[..]);
      status, custody, mintSupply' := FundVaults(vaults, d.allocation, t.balance, mintSupply);
      participants, parentA, parentB := map[], map[], map[];
      EncodeInPlace(record, d);
      DecodeUndoesEncode(d);
    }

    /** Every vault holds what it owes under this state of the escrow. */
    ghost predicate Backed(e: State)
      requires WellFormed()
      reads this, record, vaults
    {
      VaultOk(e.c, e.receipts, e.clock, View())
    }

    /** Writes the changed counters of `d` back into the record. */
    method WriteBack(d: Distribution)
      requires WellFormed() && TermsKept(Decode(record[..]), d)
      modifies record
      ensures WellFormed() && Decode(record[..]) == d
    {
      WriteCountersInPlace(record, Decode(record[..]), d);
      DecodeUndoesEncode(d);
    }

    /** Participant claim, paid once; never refused to a settled owner that launch custody has not paid. */
    method ClaimParticipantShare(receipts: map<Pubkey, Receipt>, now: int, owner: Pubkey, ghost e: State)
      returns (status: Status)
      requires WellFormed()
      modifies this`participants, record, vaults
      ensures WellFormed()
      ensures Agrees(ClaimParticipant(old(View()), receipts, now, owner), status, old(View()), View())
      ensures Valid(e) && e.receipts == receipts && e.clock == now && old(Backed(e)) ==>
        && Backed(e)
        && (owner in receipts && !receipts[owner].claimed ==>
              var share := VaultShare(old(View()).d, receipts[owner].accepted);
              && status == Ok
              && PaidParticipant(old(View()), View(), owner, share, if owner in old(participants) then 0 else share))
    {
      hide Decode, Encode, ProRata, VaultOk, Valid, PaidParticipant;
      if Valid(e) && e.receipts == receipts && e.clock == now && Backed(e) {
        VaultParticipantKeepsOk(e, View(), owner);
        if owner in receipts && !receipts[owner].claimed {
          VaultParticipantNeverRefused(e, View(), owner);
        }
      }
      var d := Decode(record[..]);
      if now < d.launchTime { return Err(Custom(8)); }
      if owner !in receipts { return Err(InvalidAccount); }
      var r := receipts[owner];
      if !r.settled { return Err(Custom(6)); }
      if r.claimed { return Err(Custom(7)); }
      if owner in participants { return Ok; }
      if d.settledAccepted == 0 || d.settledAccepted < r.accepted { return Err(Custom(15)); }
      var amount := ProRata(r.accepted, d.allocation[0], d.settledAccepted);
      var claimed := d.claimed[0] + amount;
      if U64_MAX < claimed { return Err(Custom(10)); }
      if d.allocation[0] < claimed { return Err(Custom(16)); }
      if vaults[0] < amount { return Err(Custom(16)); }
      participants := participants[owner := amount];
      vaults[0] := vaults[0] - amount;
      WriteBack(d.(claimed := d.claimed[0 := claimed]));
      return Ok;
    }

    /** Parent claim, with the proof folded up to the frozen root. */
    method ClaimParentShare(h: Hasher, now: int, side: Side, owner: Pubkey, held: nat, allocation: nat,
                            proof: seq<Byte>, ghost e: State) returns (status: Status)
      requires WellFormed()
      modifies this`parentA, this`parentB, record, vaults
      ensures WellFormed()
      ensures var proved := ProvedBy(h, old(View()).d, side, owner, held, allocation, proof);
        Agrees(ClaimParent(old(View()), now, side, owner, held, allocation, proved), status, old(View()), View())
      ensures e.clock == now && old(Backed(e)) ==> Backed(e)
    {
      hide Decode, Encode, ProRata, VaultOk, Proves;
      if e.clock == now && Backed(e) {
        VaultParentKeepsOk(e.c, e.receipts, now, View(), side, owner, held, allocation,
                           ProvedBy(h, View().d, side, owner, held, allocation, proof));
      }
      var d := Decode(record[..]);
      var purpose, index := Purpose(side), Index(side);
      if now < d.launchTime { return Err(Custom(8)); }
      if d.parentExpiry <= now { return Err(Custom(9)); }
      if IsBurned(d, side) { return Err(Custom(9)); }
      if held < Threshold(d.parentSupply[index]) { return Err(Custom(14)); }
      if d.eligible[index] == 0 || d.eligible[index] < held { return Err(Custom(15)); }
      if allocation != ProRata(held, d.allocation[purpose], d.eligible[index]) { return Err(Custom(15)); }
      var root := ImpliedRoot(h, d.campaign, SideByte(side), owner, held, allocation, proof);
      if root != d.roots[index] { return Err(Custom(13)); }
      if owner in (if side == A then parentA else parentB) { return Ok; }
      var claimed := d.claimed[purpose] + allocation;
      if U64_MAX < claimed { return Err(Custom(10)); }
      if d.allocation[purpose] < claimed { return Err(Custom(16)); }
      if vaults[purpose] < allocation { return Err(Custom(16)); }
      if side == A {
        parentA := parentA[owner := allocation];
      } else {
        parentB := parentB[owner := allocation];
      }
      vaults[purpose] := vaults[purpose] - allocation;
      WriteBack(d.(claimed := d.claimed[purpose := claimed]));
      return Ok;
    }

    /** Dev claim, never refused: it pays exactly up to the entitlement of the moment. */
    method ClaimDevShare(now: int, ghost e: State) returns (status: Status)
      requires WellFormed()
      modifies record, vaults
      ensures WellFormed()
      ensures Agrees(ClaimDev(old(View()), now), status, old(View()), View())
      ensures e.clock == now && old(Backed(e)) ==>
        && Backed(e) && status == Ok && View().d.devStart < View().d.devEnd && View().d.devStart <= now
        && View().d.claimed[3] == DevEntitled(View().d.supply, View().d.devStart, View().d.devEnd, now)
        && LinearEntitlement(View().d.supply, View().d.devStart, View().d.devEnd, now, View().d.claimed[3])
    {
      hide Decode, Encode, DevEntitled, VaultOk, LinearEntitlement;
      if e.clock == now && Backed(e) {
        DevTerms(e, View());
        VaultDevKeepsOk(e.c, e.receipts, now, View());
        VaultDevNeverRefused(e.c, e.receipts, now, View());
      }
      var d := Decode(record[..]);
      if d.devStart <= 0 || d.devEnd <= d.devStart { return Err(Custom(10)); }
      if now < d.devStart { return Err(Custom(8)); }
      var entitled: nat := DevEntitled(d.supply, d.devStart, d.devEnd, now);
      if d.allocation[3] < entitled { return Err(Custom(16)); }
      if entitled < d.claimed[3] { return Err(Custom(10)); }
      var amount := entitled - d.claimed[3];
      if amount == 0 { return Ok; }
      if vaults[3] < amount { return Err(Custom(16)); }
      vaults[3] := vaults[3] - amount;
      WriteBack(d.(claimed := d.claimed[3 := entitled]));
      return Ok;
    }

    /** Burns the whole vault of an expired parent, once. */
    method BurnExpiredVault(now: int, side: Side, ghost e: State) returns (status: Status)
      requires WellFormed()
      modifies record, vaults
      ensures WellFormed()
      ensures Agrees(BurnVault(old(View()), now, side), status, old(View()), View())
      ensures e.clock == now && old(Backed(e)) ==> Backed(e)
    {
      hide Decode, Encode, VaultOk;
      if e.clock == now && Backed(e) {
        VaultBurnKeepsOk(e.c, e.receipts, now, View(), side);
      }
      var d := Decode(record[..]);
      if now < d.parentExpiry { return Err(Custom(11)); }
      if IsBurned(d, side) { return Err(Custom(12)); }
      var balance := vaults[Purpose(side)];
      if U64_MAX < balance { return Err(InvalidAccount); }
      vaults[Purpose(side)] := 0;
      d := d.(burned := d.burned[Index(side) := balance]);
      d := d.(flags := WithFlag(d.flags, BurnedFlag(side)));
      WriteBack(d);
      return Ok;
    }

    /** Burns what a vault holds above what it still owes, and leaves it holding exactly that. */
    method SweepDonation(purpose: nat, ghost e: State) returns (status: Status)
      requires WellFormed() && purpose < 4
      modifies vaults
      ensures WellFormed()
      ensures Agrees(Sweep(old(View()), purpose), status, old(View()), View())
      ensures old(Backed(e)) ==>
        Backed(e) && status == Ok && RemainingEntitled(View().d, purpose) == Done(vaults[purpose])
    {
      hide Decode, Encode, VaultOk;
      if Backed(e) {
        VaultBalanceKeepsOk(e.c, e.receipts, e.clock, View(), VSweep(purpose));
        VaultsAreSolvent(e.c, e.receipts, e.clock, View());
        SweepLeavesOwed(View(), purpose);
      }
      var d := Decode(record[..]);
      var owed := RemainingEntitled(d, purpose);
      if owed.Refused? { return Err(owed.error); }
      var balance := vaults[purpose];
      if balance <= owed.state { return Ok; }
      vaults[purpose] := balance - (balance - owed.state);
      return Ok;
    }
  }
}

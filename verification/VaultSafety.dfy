/** Every vault holds what it still owes, over every claim, burn, sweep and donation; the participant vault suffices
    because of what the escrow settled. */
module VaultSafety {
  import opened Base
  import opened Floors
  import opened Sums
  import opened Escrow
  import opened EscrowInvariant
  import opened EscrowOutcomes
  import opened Calendar
  import opened Vesting
  import opened Custody
  import opened Record
  import opened Vaults

  /** The terms copied from the campaign at activation. */
  ghost predicate TermsMatch(c: Campaign, d: Distribution)
  {
    && c.phase == Launched && 0 < c.settledAccepted
    && d.supply == c.supply && d.settledAccepted == c.settledAccepted
    && 0 < c.launchTime == d.launchTime == d.devStart
    && d.parentExpiry == d.launchTime + PARENT_EXPIRY_SECONDS
    && ThreeMonthEnd(d.launchTime) == Done(d.devEnd) && d.devStart < d.devEnd
    && d.allocation == Allocations(d.supply)
  }

  /** Each recorded participant claim is the owner's floored pro-rata part, and the counters are the sums of claims. */
  ghost predicate ClaimsMatch(rs: map<Pubkey, Receipt>, s: VaultState)
    requires 0 < s.d.settledAccepted
  {
    && s.participants.Keys <= rs.Keys
    && (forall o :: o in s.participants ==>
          s.participants[o] == ProRata(rs[o].accepted, s.d.allocation[0], s.d.settledAccepted))
    && s.d.claimed[0] == Sum(s.participants)
    && s.d.claimed[1] == Sum(s.parentA)
    && s.d.claimed[2] == Sum(s.parentB)
  }

  ghost predicate RecordOk(d: Distribution, now: int)
  {
    && d.claimed[0] <= d.allocation[0] && d.claimed[1] <= d.allocation[1]
    && d.claimed[2] <= d.allocation[2] && d.claimed[3] <= d.allocation[3]
    && d.devStart < d.devEnd && d.devStart <= now
    && d.claimed[3] <= DevEntitled(d.supply, d.devStart, d.devEnd, now)
    && (d.flags == 1 || d.flags == 3 || d.flags == 5 || d.flags == 7)
    && (d.flags != 1 ==> d.parentExpiry <= now)
  }

  /** Every vault holds at least what it still owes. */
  ghost predicate VaultsSolvent(s: VaultState)
  {
    && |s.balance| == 4
    && forall p: nat :: p < 4 ==> RemainingEntitled(s.d, p).Done? && RemainingEntitled(s.d, p).state <= s.balance[p]
  }

  ghost predicate VaultOk(c: Campaign, rs: map<Pubkey, Receipt>, now: int, s: VaultState)
  {
    && |s.balance| == 4
    && TermsMatch(c, s.d) && ClaimsMatch(rs, s) && RecordOk(s.d, now) && VaultsSolvent(s)
  }

  lemma VaultsAreSolvent(c: Campaign, rs: map<Pubkey, Receipt>, now: int, s: VaultState)
    requires VaultOk(c, rs, now, s)
    ensures VaultsSolvent(s)
  {
  }

  /** Activation on the launch path leaves every vault with exactly its allocation and the invariant in force. */
  lemma ActivationOk(e: State, t: Tokens, record: Distribution)
    requires Valid(e) && e.c.phase == Launched && Activate(e.c, t, record).Done?
    ensures var (s, custody) := Activate(e.c, t, record).state;
      && VaultOk(e.c, e.receipts, e.clock, s)
      && s.balance == Allocations(e.c.supply)
      && t.balance - custody == VaultTotal(e.c.supply)
  {
    ActivatedTerms(e.c, e.receipts, e.clock, t, record);
  }

  lemma ActivatedTerms(c: Campaign, rs: map<Pubkey, Receipt>, now: int, t: Tokens, record: Distribution)
    requires c.phase == Launched && 0 < c.settledAccepted && c.launchTime <= now && Activate(c, t, record).Done?
    ensures var (s, custody) := Activate(c, t, record).state;
      && VaultOk(c, rs, now, s)
      && s.balance == Allocations(c.supply)
      && t.balance - custody == VaultTotal(c.supply)
  {
    hide Allocations, ThreeMonthEnd, DevEntitled, VaultTotal, VaultsSolvent, ProRata, CivilFromDays, DaysFromCivil;
    var (s, custody) := Activate(c, t, record).state;
    ThreeMonthEndIsCalendar(c.launchTime);
    FullVaultsSolvent(s);
    assert TermsMatch(c, s.d);
    assert ClaimsMatch(rs, s);
  }

  lemma FullVaultsSolvent(s: VaultState)
    requires s.balance == s.d.allocation && s.d.claimed == [0, 0, 0, 0]
    ensures VaultsSolvent(s)
  {
  }

  /** All participant entitlements together fit the participant vault, because acceptances sum to the settled total. */
  lemma EntitlementsFitVault(e: State, d: Distribution)
    requires Valid(e) && TermsMatch(e.c, d)
    ensures Sum(Scaled(Accepteds(e.receipts), d.allocation[0], d.settledAccepted)) <= d.allocation[0]
  {
    hide ProRata, Allocations;
    ScaledSumOfWhole(Accepteds(e.receipts), d.allocation[0]);
  }

  lemma ParticipantRoom(e: State, s: VaultState, owner: Pubkey)
    requires Valid(e) && TermsMatch(e.c, s.d) && ClaimsMatch(e.receipts, s)
    requires owner in e.receipts && owner !in s.participants
    ensures s.d.claimed[0] + ProRata(e.receipts[owner].accepted, s.d.allocation[0], s.d.settledAccepted)
         <= s.d.allocation[0]
  {
    hide ProRata, Allocations, ThreeMonthEnd;
    var all := Scaled(Accepteds(e.receipts), s.d.allocation[0], s.d.settledAccepted);
    assert all.Keys == e.receipts.Keys;
    EntitlementsFitVault(e, s.d);
    RoomForOneMore(s.participants, all, owner);
  }

  /** The floored part of the participant allocation for an accepted amount. */
  ghost function VaultShare(d: Distribution, accepted: nat): nat
  {
    if 0 < d.settledAccepted then ProRata(accepted, d.allocation[0], d.settledAccepted) else 0
  }

  /** The participant vault paid `amount` and recorded the owner's claim as `share`. */
  ghost predicate PaidParticipant(s: VaultState, s': VaultState, owner: Pubkey, share: nat, amount: nat)
  {
    && s'.participants == s.participants[owner := share]
    && |s.balance| == |s'.balance| == 4 && s'.balance[0] + amount == s.balance[0]
  }

  /** The overdraw check of a participant claim is unreachable: a settled owner's claim pays exactly the floored part of
      the allocation, once, at any time after the launch. */
  lemma VaultParticipantNeverRefused(e: State, s: VaultState, owner: Pubkey)
    requires Valid(e) && VaultOk(e.c, e.receipts, e.clock, s)
    requires owner in e.receipts && !e.receipts[owner].claimed
    ensures ClaimParticipant(s, e.receipts, e.clock, owner).Done?
    ensures var share := VaultShare(s.d, e.receipts[owner].accepted);
      PaidParticipant(s, ClaimParticipant(s, e.receipts, e.clock, owner).state, owner, share,
                      if owner in s.participants then 0 else share)
  {
    hide ProRata, Allocations, Sum, ThreeMonthEnd, DevEntitled;
    assert ReceiptOk(e.c, e.clock, e.receipts[owner]);
    AcceptedWithinSettled(e, owner);
    if owner !in s.participants {
      ParticipantRoom(e, s, owner);
      assert RemainingEntitled(s.d, 0).state <= s.balance[0];
    } else {
      assert s.participants[owner := s.participants[owner]] == s.participants;
    }
  }

  lemma VaultParticipantKeepsOk(e: State, s: VaultState, owner: Pubkey)
    requires Valid(e) && VaultOk(e.c, e.receipts, e.clock, s)
    ensures var out := ClaimParticipant(s, e.receipts, e.clock, owner);
      out.Done? ==> VaultOk(e.c, e.receipts, e.clock, out.state)
  {
    hide ProRata, Allocations, ThreeMonthEnd, DevEntitled, Valid;
    var out := ClaimParticipant(s, e.receipts, e.clock, owner);
    if out.Done? && out.state != s {
      var s' := out.state;
      SumUpdate(s.participants, owner, s'.participants[owner]);
      PaidVaultSolvent(s, s', 0);
    }
  }

  /** Paying what is counted as claimed keeps the vaults solvent. */
  lemma PaidVaultSolvent(s: VaultState, s': VaultState, p: nat)
    requires VaultsSolvent(s) && p < 4
    requires s'.d.allocation == s.d.allocation && s'.d.flags == s.d.flags
    requires s'.d.claimed == s.d.claimed[p := s'.d.claimed[p]] && s.d.claimed[p] <= s'.d.claimed[p] <= s.d.allocation[p]
    requires p == 1 ==> !IsBurned(s.d, A)
    requires p == 2 ==> !IsBurned(s.d, B)
    requires s'.d.claimed[p] - s.d.claimed[p] <= s.balance[p]
    requires s'.balance == s.balance[p := s.balance[p] - (s'.d.claimed[p] - s.d.claimed[p])]
    ensures VaultsSolvent(s')
  {
    forall q: nat | q < 4
      ensures RemainingEntitled(s'.d, q).Done? && RemainingEntitled(s'.d, q).state <= s'.balance[q]
    {
      assert RemainingEntitled(s.d, q).Done? && RemainingEntitled(s.d, q).state <= s.balance[q];
    }
  }

  lemma VaultParentKeepsOk(c: Campaign, rs: map<Pubkey, Receipt>, now: int, s: VaultState, side: Side, owner: Pubkey,
                           held: nat, allocation: nat, proved: bool)
    requires VaultOk(c, rs, now, s)
    ensures var out := ClaimParent(s, now, side, owner, held, allocation, proved);
      out.Done? ==> VaultOk(c, rs, now, out.state)
  {
    hide ProRata, Allocations, ThreeMonthEnd, DevEntitled, VaultsSolvent;
    var out := ClaimParent(s, now, side, owner, held, allocation, proved);
    if out.Done? && out.state != s {
      SumUpdate(ClaimsOf(s, side), owner, allocation);
      PaidVaultSolvent(s, out.state, Purpose(side));
    }
  }

  /** A dev claim is never refused, and the dev has then been paid exactly the entitlement of that moment. */
  lemma VaultDevNeverRefused(c: Campaign, rs: map<Pubkey, Receipt>, now: int, s: VaultState)
    requires VaultOk(c, rs, now, s)
    ensures var out := ClaimDev(s, now);
      && out.Done?
      && out.state.d.claimed[3] == DevEntitled(s.d.supply, s.d.devStart, s.d.devEnd, now) <= Share(s.d.supply, 300)
      && s.balance[3] - out.state.balance[3] == out.state.d.claimed[3] - s.d.claimed[3]
  {
    hide ThreeMonthEnd;
    DevEntitledBounds(s.d.supply, s.d.devStart, s.d.devEnd, now, now);
    hide DevEntitled;
    assert RemainingEntitled(s.d, 3).state <= s.balance[3];
  }

  lemma VaultDevKeepsOk(c: Campaign, rs: map<Pubkey, Receipt>, now: int, s: VaultState)
    requires VaultOk(c, rs, now, s)
    ensures ClaimDev(s, now).Done? ==> VaultOk(c, rs, now, ClaimDev(s, now).state)
  {
    hide ProRata, Allocations, ThreeMonthEnd, DevEntitled, VaultsSolvent, Sum;
    var out := ClaimDev(s, now);
    if out.Done? && out.state != s {
      PaidVaultSolvent(s, out.state, 3);
    }
  }

  lemma VaultBurnKeepsOk(c: Campaign, rs: map<Pubkey, Receipt>, now: int, s: VaultState, side: Side)
    requires VaultOk(c, rs, now, s)
    ensures BurnVault(s, now, side).Done? ==> VaultOk(c, rs, now, BurnVault(s, now, side).state)
  {
    hide ProRata, Allocations, ThreeMonthEnd, DevEntitled, Sum;
    var out := BurnVault(s, now, side);
    if out.Done? {
      var s' := out.state;
      forall q: nat | q < 4
        ensures RemainingEntitled(s'.d, q).Done? && RemainingEntitled(s'.d, q).state <= s'.balance[q]
      {
        assert RemainingEntitled(s.d, q).Done? && RemainingEntitled(s.d, q).state <= s.balance[q];
      }
    }
  }

  lemma VaultBalanceKeepsOk(c: Campaign, rs: map<Pubkey, Receipt>, now: int, s: VaultState, a: VaultAction)
    requires VaultOk(c, rs, now, s) && (a.VSweep? || a.VDonate?)
    ensures Act(s, rs, now, a).Done? ==> VaultOk(c, rs, now, Act(s, rs, now, a).state)
  {
    hide ProRata, Allocations, ThreeMonthEnd, DevEntitled, Sum;
    var out := Act(s, rs, now, a);
    if out.Done? {
      var s' := out.state;
      assert s'.d == s.d;
      forall q: nat | q < 4
        ensures RemainingEntitled(s'.d, q).Done? && RemainingEntitled(s'.d, q).state <= s'.balance[q]
      {
        assert RemainingEntitled(s.d, q).Done? && RemainingEntitled(s.d, q).state <= s.balance[q];
      }
    }
  }

  /** Every instruction and donation keeps every vault able to pay what it owes. */
  lemma ActKeepsOk(e: State, s: VaultState, a: VaultAction)
    requires Valid(e) && VaultOk(e.c, e.receipts, e.clock, s)
    ensures Act(s, e.receipts, e.clock, a).Done? ==>
      VaultOk(e.c, e.receipts, e.clock, Act(s, e.receipts, e.clock, a).state)
  {
    hide VaultOk, Valid;
    match a
    case VParticipant(owner) => VaultParticipantKeepsOk(e, s, owner);
    case VParent(side, owner, held, allocation, proved) =>
      VaultParentKeepsOk(e.c, e.receipts, e.clock, s, side, owner, held, allocation, proved);
    case VDev => VaultDevKeepsOk(e.c, e.receipts, e.clock, s);
    case VBurn(side) => VaultBurnKeepsOk(e.c, e.receipts, e.clock, s, side);
    case _ => VaultBalanceKeepsOk(e.c, e.receipts, e.clock, s, a);
  }

  /** The frozen terms: no instruction changes anything but the counters and the flags. */
  lemma ActKeepsTerms(s: VaultState, receipts: map<Pubkey, Receipt>, now: int, a: VaultAction)
    requires |s.balance| == 4
    ensures Act(s, receipts, now, a).Done? ==> TermsKept(s.d, Act(s, receipts, now, a).state.d)
    ensures Act(s, receipts, now, a).Done? ==> |Act(s, receipts, now, a).state.balance| == 4
  {
    hide ProRata, DevEntitled;
  }

  /** A sweep leaves exactly what is owed whenever there was more. */
  lemma SweepLeavesOwed(s: VaultState, p: nat)
    requires VaultsSolvent(s) && p < 4
    ensures Sweep(s, p).Done?
    ensures Sweep(s, p).state.balance[p] == RemainingEntitled(s.d, p).state
  {
    assert RemainingEntitled(s.d, p).Done? && RemainingEntitled(s.d, p).state <= s.balance[p];
  }

  /** A parent vault can be claimed from or burned, never both; and it is burned at most once. */
  lemma ParentClaimOrBurn(s: VaultState, now: int, side: Side, owner: Pubkey, held: nat, allocation: nat, proved: bool)
    requires |s.balance| == 4 && (s.d.flags == 1 || s.d.flags == 3 || s.d.flags == 5 || s.d.flags == 7)
    ensures !(ClaimParent(s, now, side, owner, held, allocation, proved).Done? && BurnVault(s, now, side).Done?)
    ensures var out := BurnVault(s, now, side);
      out.Done? ==>
        && out.state.balance == s.balance[Purpose(side) := 0]
        && out.state.d.burned == s.d.burned[Index(side) := s.balance[Purpose(side)]]
        && BurnVault(out.state, now, side) == Refused(Custom(12))
        && ClaimParent(out.state, now, side, owner, held, allocation, proved).Refused?
  {
    hide ProRata;
  }

  /** A claim takes from each vault exactly what it adds to that purpose's claimed counter. */
  lemma ClaimsPayWhatTheyCount(s: VaultState, receipts: map<Pubkey, Receipt>, now: int, a: VaultAction, p: nat)
    requires |s.balance| == 4 && p < 4 && (a.VParticipant? || a.VParent? || a.VDev?)
    ensures var out := Act(s, receipts, now, a);
      out.Done? ==>
        |out.state.balance| == 4 && out.state.balance[p] + out.state.d.claimed[p] == s.balance[p] + s.d.claimed[p]
  {
    hide ProRata, DevEntitled;
  }

  // ---------- honest parent snapshots ----------

  /** Every claim recorded for a parent is the floored share of that owner's snapshot balance. */
  ghost predicate FromSnapshot(s: VaultState, side: Side, balances: map<Pubkey, nat>)
  {
    var p, i := Purpose(side), Index(side);
    && 0 < s.d.eligible[i]
    && ClaimsOf(s, side).Keys <= balances.Keys
    && forall o :: o in ClaimsOf(s, side) ==>
         ClaimsOf(s, side)[o] == ProRata(balances[o], s.d.allocation[p], s.d.eligible[i])
  }

  /** If the published root commits to holders whose balances sum to the eligible total at most, a claim is accepted
      exactly when it is proved, in time, over the threshold and for the floored share; it never meets the overdraw
      check, so late claimants lose nothing to early ones. */
  lemma HonestSnapshotNeverOverdraws(c: Campaign, rs: map<Pubkey, Receipt>, now: int, s: VaultState, side: Side,
                                     balances: map<Pubkey, nat>, owner: Pubkey, allocation: nat, proved: bool)
    requires VaultOk(c, rs, now, s) && FromSnapshot(s, side, balances) && Sum(balances) <= s.d.eligible[Index(side)]
    requires owner in balances
    ensures var out := ClaimParent(s, now, side, owner, balances[owner], allocation, proved);
      && (out.Done? <==>
            && proved && now < s.d.parentExpiry && Threshold(s.d.parentSupply[Index(side)]) <= balances[owner]
            && allocation == ProRata(balances[owner], s.d.allocation[Purpose(side)], s.d.eligible[Index(side)]))
      && (out.Done? ==> FromSnapshot(out.state, side, balances) && owner in ClaimsOf(out.state, side))
  {
    hide ProRata, Allocations, ThreeMonthEnd, DevEntitled, Threshold, Sum;
    var p, i := Purpose(side), Index(side);
    SumElement(balances, owner);
    if now < s.d.parentExpiry {
      NotBurnedYet(s.d, now);
    }
    if owner !in ClaimsOf(s, side) {
      SnapshotRoom(ClaimsOf(s, side), balances, owner, s.d.allocation[p], s.d.eligible[i]);
      assert RemainingEntitled(s.d, p).state <= s.balance[p];
    }
  }

  lemma NotBurnedYet(d: Distribution, now: int)
    requires RecordOk(d, now) && now < d.parentExpiry
    ensures !IsBurned(d, A) && !IsBurned(d, B)
  {
  }

  lemma SnapshotRoom(claims: map<Pubkey, nat>, balances: map<Pubkey, nat>, owner: Pubkey, pool: nat, eligible: nat)
    requires 0 < eligible && Sum(balances) <= eligible && owner in balances && owner !in claims
    requires claims.Keys <= balances.Keys
    requires forall o :: o in claims ==> claims[o] == ProRata(balances[o], pool, eligible)
    ensures Sum(claims) + ProRata(balances[owner], pool, eligible) <= pool
  {
    hide ProRata;
    var all := Scaled(balances, pool, eligible);
    RoomForOneMore(claims, all, owner);
    ScaledSplit(balances, pool, eligible);
    ShareAtMostPool(Sum(balances), pool, eligible);
  }
}

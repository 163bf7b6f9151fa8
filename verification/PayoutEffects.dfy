/** What each token instruction of the two programs does and when it is accepted, said from the accounts alone:
    shares as inequalities over the supply, slots and flags as numbers, and everything that stays as it was. */
module PayoutEffects {
  import opened Base
  import opened Floors
  import opened Escrow
  import opened EscrowInvariant
  import opened EscrowEffects
  import opened Calendar
  import opened Vesting
  import opened Custody
  import opened CustodySafety
  import opened Record
  import opened Merkle
  import opened ParentProofs
  import opened Vaults
  import opened VaultSafety
  import opened Protocol

  /** `share` is the floored part of `pool` in proportion to `part` out of `whole`. */
  ghost predicate PartOf(share: nat, part: nat, pool: nat, whole: nat)
  {
    share * whole <= part * pool < (share + 1) * whole
  }

  lemma ProRataIsPart(part: nat, pool: nat, whole: nat)
    requires 0 < whole
    ensures PartOf(ProRata(part, pool, whole), part, pool, whole)
  {
    ShareBounds(part, pool, whole);
  }

  lemma OnlyPart(share: nat, part: nat, pool: nat, whole: nat)
    requires 0 < whole
    ensures share == ProRata(part, pool, whole) <==> PartOf(share, part, pool, whole)
  {
    ShareBounds(part, pool, whole);
    LargestShare(part, pool, whole, share);
    LargestShare(part, pool, whole, share + 1);
  }

  // ---------- launch custody ----------

  /** A participant claim from custody is accepted exactly for a registered wallet of a launched campaign without
      vaults; it pays the floored part of 43.5 % of the supply, once, and changes nothing else. */
  lemma CustodyParticipantIsExact(e: State, t: Tokens, window: nat, owner: Pubkey)
    requires CustodyOk(e, t, window)
    ensures var out := Participant(e, t, owner);
      && (out.Done? <==> e.c.phase == Launched && !e.c.activated && owner in e.receipts)
      && (out.Done? ==>
            var (e', t') := out.state;
            if e.receipts[owner].claimed then e' == e && t' == t
            else
              && t'.balance <= t.balance && t' == t.(balance := t'.balance)
              && PartOf(t.balance - t'.balance, e.receipts[owner].accepted, e.c.supply / 10000 * 4350,
                        e.c.settledAccepted)
              && e' == e.(receipts := e.receipts[owner := e.receipts[owner].(claimed := true)]))
  {
    hide ProRata, PartOf, CustodyOk, Valid;
    if e.c.phase == Launched && !e.c.activated && owner in e.receipts {
      CustodyValid(e, t, window);
      SettledPositive(e);
      ParticipantNeverRefused(e, t, window, owner);
      ProRataIsPart(e.receipts[owner].accepted, e.c.supply / 10000 * 4350, e.c.settledAccepted);
    }
  }

  /** A dev claim from custody is accepted exactly once the campaign launched after 1970 and its vesting end fits a
      signed time; the dev then has had one percent plus the linear part of two percent, to the unit. */
  lemma CustodyDevIsExact(e: State, t: Tokens, window: nat)
    requires CustodyOk(e, t, window)
    ensures var out, end := Dev(e, t), ThreeMonthEnd(e.c.launchTime);
      && (out.Done? <==> e.c.phase == Launched && !e.c.activated && 0 < e.c.launchTime && end.Done?)
      && (out.Done? ==>
            && t.devClaimed <= out.state.devClaimed
            && LinearEntitlement(e.c.supply, e.c.launchTime, end.state, e.clock, out.state.devClaimed)
            && out.state == t.(devClaimed := out.state.devClaimed, balance := out.state.balance)
            && out.state.balance == t.balance - (out.state.devClaimed - t.devClaimed))
  {
    hide CustodyOk, ThreeMonthEnd, DevEntitled, LinearEntitlement;
    LaunchIsPast(e, t, window);
    if e.c.phase == Launched && !e.c.activated && DevDue(e.c, e.clock).Done? {
      DevNeverRefused(e, t, window);
      DevEntitledIsLinear(e.c.supply, e.c.launchTime, ThreeMonthEnd(e.c.launchTime).state, e.clock);
    }
  }

  lemma LaunchIsPast(e: State, t: Tokens, window: nat)
    requires CustodyOk(e, t, window)
    ensures e.c.phase == Launched ==> e.c.launchTime <= e.clock
  {
    hide CountersOk, ReceiptsOk, Covered;
  }

  /** Inside the claim window of a launched campaign without vaults. */
  ghost predicate WindowOpen(e: State, window: nat)
  {
    && e.c.phase == Launched && !e.c.activated && 0 < e.c.launchTime
    && e.c.launchTime + window <= 0x7FFF_FFFF_FFFF_FFFF && e.clock < e.c.launchTime + window
  }

  /** A balance of at least 0.05 % of the parent's supply, within the eligible total, for the floored part of `pool`. */
  ghost predicate ParentTerms(supply: nat, eligible: nat, pool: nat, held: nat, allocation: nat)
  {
    supply * 5 <= held * 10000 && held <= eligible && 0 < eligible && PartOf(allocation, held, pool, eligible)
  }

  lemma ParentTermsAre(supply: nat, eligible: nat, pool: nat, held: nat, allocation: nat)
    ensures ParentTerms(supply, eligible, pool, held, allocation) <==>
      Threshold(supply) <= held <= eligible && 0 < eligible && allocation == ProRata(held, pool, eligible)
  {
    hide ProRata, PartOf;
    ThresholdRoundsUp(supply, held);
    hide Threshold;
    if 0 < eligible {
      OnlyPart(allocation, held, pool, eligible);
    }
  }

  /** A parent claim from custody is accepted exactly inside the window, proved, on these terms for 5 % of the
      supply, and while the reserve lasts. */
  lemma CustodyParentAcceptance(e: State, t: Tokens, window: nat, side: Side, owner: Pubkey, held: nat, allocation: nat,
                                proved: bool)
    requires CustodyOk(e, t, window)
    ensures var r, reserve := (if side == A then t.a else t.b), e.c.supply / 10000 * 500;
      Parent(e, t, window, side, owner, held, allocation, proved).Done? <==>
      && WindowOpen(e, window) && proved && ParentTerms(r.supply, r.eligible, reserve, held, allocation)
      && ((side, owner) in t.paid || r.claimed + allocation + r.burned <= reserve)
  {
    var r := Of(t, side);
    ParentTermsAre(r.supply, r.eligible, e.c.supply / 10000 * 500, held, allocation);
    hide ProRata, ParentTerms, CustodyOk, SpareTokens, Threshold;
    if e.c.phase == Launched && !e.c.activated {
      ParentPaysWhatItOwes(e, t, window, side, owner, held, allocation, proved);
      hide Parent;
    }
  }

  /** It is paid once, from that parent's reserve, and nothing else changes. */
  lemma CustodyParentIsExact(e: State, t: Tokens, window: nat, side: Side, owner: Pubkey, held: nat, allocation: nat,
                             proved: bool)
    requires Parent(e, t, window, side, owner, held, allocation, proved).Done?
    ensures var t' := Parent(e, t, window, side, owner, held, allocation, proved).state;
      if (side, owner) in t.paid then t' == t
      else
        && t'.balance == t.balance - allocation && t'.paid == t.paid + {(side, owner)}
        && t' == t.(a := t'.a, b := t'.b, balance := t'.balance, paid := t'.paid)
        && t'.a == (if side == A then t.a.(claimed := t.a.claimed + allocation) else t.a)
        && t'.b == (if side == B then t.b.(claimed := t.b.claimed + allocation) else t.b)
  {
    hide ProRata, Threshold;
  }

  /** The expiry burn is accepted exactly from the end of the window on; it burns what of both reserves was neither
      claimed nor burned, and notes when the first one ran. */
  lemma CustodyBurnIsExact(e: State, t: Tokens, window: nat)
    requires CustodyOk(e, t, window)
    ensures var out, reserve := BurnExpired(e, t, window), e.c.supply / 10000 * 500;
      && (out.Done? <==>
            && e.c.phase == Launched && !e.c.activated && 0 < e.c.launchTime
            && e.c.launchTime + window <= 0x7FFF_FFFF_FFFF_FFFF && e.c.launchTime + window <= e.clock)
      && (out.Done? ==>
            && t.a.claimed <= reserve && t.b.claimed <= reserve
            && out.state == t.(a := t.a.(burned := reserve - t.a.claimed), b := t.b.(burned := reserve - t.b.claimed),
                               balance := out.state.balance,
                               burnedAt := if t.burnedAt == 0 then e.clock else t.burnedAt)
            && out.state.balance
               == t.balance - (reserve - t.a.claimed - t.a.burned) - (reserve - t.b.claimed - t.b.burned))
  {
    hide CustodyOk;
    if e.c.phase == Launched && !e.c.activated {
      ReservesCovered(e, t, window);
    }
  }

  // ---------- activation and launch ----------

  /** The four shares of the supply. */
  ghost predicate FourShares(q: seq<nat>, supply: nat)
  {
    var unit := supply / 10000;
    |q| == 4 && q[0] == unit * 4350 && q[1] == unit * 500 && q[2] == unit * 500 && q[3] == unit * 300
  }

  /** Activation on the launch path is accepted exactly for a launched campaign with nothing claimed, enough coins,
      and an expiry and vesting end that fit signed times. The record then has the campaign's and each parent's own
      figures, every vault its share, and custody keeps the rest. */
  lemma ActivationIsExact(c: Campaign, t: Tokens, keys: Distribution)
    requires c.supply <= U64_MAX && c.settledAccepted <= U64_MAX
    ensures var out, end := Activate(c, t, keys), ThreeMonthEnd(c.launchTime);
      && (out.Done? <==>
            && c.phase == Launched && 0 < c.launchTime
            && t.a.claimed == 0 && t.b.claimed == 0 && t.devClaimed == 0
            && c.supply / 10000 * 5650 <= t.balance
            && c.launchTime + 30 * 86400 <= 0x7FFF_FFFF_FFFF_FFFF && end.Done?)
      && (out.Done? ==>
            var (s, rest) := out.state;
            && FourShares(s.d.allocation, c.supply) && s.balance == s.d.allocation
            && rest == t.balance - c.supply / 10000 * 5650
            && s.participants == map[] && s.parentA == map[] && s.parentB == map[]
            && s.d.supply == c.supply && s.d.settledAccepted == c.settledAccepted
            && s.d.launchTime == s.d.devStart == c.launchTime && s.d.devEnd == end.state
            && s.d.parentExpiry == c.launchTime + 30 * 86400
            && s.d.claimed == [0, 0, 0, 0] && s.d.burned == [0, 0] && s.d.flags == 1 && s.d.devPrior == 0)
  {
    hide ThreeMonthEnd;
  }

  /** Parent A's figures go to the first slot and parent B's to the second, and the keys are those of the accounts. */
  lemma ActivationCopiesParents(c: Campaign, t: Tokens, keys: Distribution)
    requires Activate(c, t, keys).Done?
    ensures var d := Activate(c, t, keys).state.0.d;
      && d.roots[0] == t.a.root && d.parentSupply[0] == t.a.supply && d.eligible[0] == t.a.eligible
      && d.roots[1] == t.b.root && d.parentSupply[1] == t.b.supply && d.eligible[1] == t.b.eligible
      && d.campaign == keys.campaign && d.mint == keys.mint && d.launchProgram == keys.launchProgram
      && d.dev == keys.dev && d.bumps == keys.bumps
  {
    hide ThreeMonthEnd, Allocations;
  }

  /** A whole launch is accepted exactly when the other checks pass, custody holds the full supply, the campaign may
      launch and, with a distribution, the vaults can be activated. The liquidity share always leaves custody; with a
      distribution only the dust stays. */
  lemma LaunchAllIsExact(x: System, others: bool, held: nat, keys: Distribution)
    requires SystemOk(x) && held <= x.e.elsewhere
    ensures var out := LaunchAll(x, others, held, keys);
      && (out.Done? <==>
            && others && x.t.balance == x.e.c.supply && MayLaunch(x.e)
            && (x.e.c.distribution ==>
                  0 < x.e.clock && x.e.clock + 30 * 86400 <= 0x7FFF_FFFF_FFFF_FFFF && ThreeMonthEnd(x.e.clock).Done?))
      && (out.Done? ==>
            && out.state.e == Escrow.Step(x.e, DoLaunch(true, held))
            && out.state.t == x.t.(balance := if x.e.c.distribution then x.e.c.supply % 10000
                                              else x.e.c.supply - x.e.c.supply / 10000 * 4350)
            && (out.state.v.Active? <==> x.e.c.distribution) && out.state.window == x.window)
  {
    hide ThreeMonthEnd, MayLaunch, Activate, VaultOk, Covered, Valid;
    CustodyValid(x.e, x.t, x.window);
    var go := others && x.t.balance == x.e.c.supply;
    LaunchIsExact(x.e, go, held);
    FixedSupply(x.e);
    var launched := Launch(x.e, go, held);
    if launched.Done? {
      NothingClaimedYet(x, go, held);
      var rest: nat := x.e.c.supply - x.e.c.supply / 10000 * 4350;
      ActivationIsExact(launched.state.c, x.t.(balance := rest), keys);
      SharesConserveSupply(x.e.c.supply);
    }
  }

  lemma FixedSupply(e: State)
    requires Valid(e)
    ensures e.c.supply == FIXED_SUPPLY && e.c.settledAccepted <= U64_MAX
    ensures e.c.phase == Launched || e.c.activated ==> !MayLaunch(e)
  {
    hide ReceiptsOk;
    SettledFits(e);
  }

  lemma SettledFits(e: State)
    requires Valid(e)
    ensures e.c.settledAccepted <= U64_MAX
  {
    SettledWithinCap(e);
  }

  lemma NothingClaimedYet(x: System, go: bool, held: nat)
    requires SystemOk(x) && Launch(x.e, go, held).Done?
    ensures x.v.NotActive? && x.t.a.claimed == 0 && x.t.b.claimed == 0 && x.t.devClaimed == 0
  {
    hide VaultOk, Covered, CountersOk, ReceiptsOk;
  }

  // ---------- the vaults ----------

  /** The slot of a parent's figures and the number of its vault and flag. */
  ghost predicate Slots(side: Side, i: nat, p: nat, flag: nat)
  {
    if side == A then i == 0 && p == 1 && flag == 2 else i == 1 && p == 2 && flag == 4
  }

  /** The vaults after `amount` was claimed from vault `p`. */
  ghost predicate Claimed(s: VaultState, s': VaultState, p: nat, amount: nat)
  {
    && p < 4 && |s.balance| == |s'.balance| == 4 && amount <= s.balance[p]
    && s'.balance == s.balance[p := s.balance[p] - amount]
    && s'.d.claimed[p] == s.d.claimed[p] + amount
    && s'.d == s.d.(claimed := s.d.claimed[p := s'.d.claimed[p]])
  }

  /** A participant claim on the vaults is accepted exactly for a registered wallet that custody has not paid; it
      pays the floored part of the first vault's allocation, once. */
  lemma VaultParticipantIsExact(e: State, s: VaultState, owner: Pubkey)
    requires Valid(e) && VaultOk(e.c, e.receipts, e.clock, s)
    ensures var out := ClaimParticipant(s, e.receipts, e.clock, owner);
      && (out.Done? <==> owner in e.receipts && !e.receipts[owner].claimed)
      && (out.Done? ==>
            if owner in s.participants then out.state == s
            else
              && owner in out.state.participants
              && var share := out.state.participants[owner];
                 && PartOf(share, e.receipts[owner].accepted, s.d.allocation[0], s.d.settledAccepted)
                 && Claimed(s, out.state, 0, share)
                 && out.state == s.(d := out.state.d, balance := out.state.balance,
                                    participants := s.participants[owner := share]))
  {
    hide ProRata, PartOf, Valid, Allocations, ThreeMonthEnd, DevEntitled;
    if owner in e.receipts && !e.receipts[owner].claimed {
      VaultParticipantNeverRefused(e, s, owner);
      ProRataIsPart(e.receipts[owner].accepted, s.d.allocation[0], s.d.settledAccepted);
    }
  }

  /** A parent claim on the vaults is accepted exactly before expiry, proved, for a balance of at least 0.05 % of the
      parent's supply within the eligible total, for the floored part of the parent's allocation, and while the vault's
      allocation lasts; it is paid once, from that parent's vault. */
  lemma VaultParentIsExact(c: Campaign, rs: map<Pubkey, Receipt>, now: int, s: VaultState, side: Side, owner: Pubkey,
                           held: nat, allocation: nat, proved: bool, i: nat, p: nat, flag: nat)
    requires VaultOk(c, rs, now, s) && Slots(side, i, p, flag)
    ensures var out := ClaimParent(s, now, side, owner, held, allocation, proved);
      var before := if side == A then s.parentA else s.parentB;
      && (out.Done? <==>
            && now < s.d.parentExpiry && proved
            && ParentTerms(s.d.parentSupply[i], s.d.eligible[i], s.d.allocation[p], held, allocation)
            && (owner in before || s.d.claimed[p] + allocation <= s.d.allocation[p]))
      && (out.Done? ==>
            if owner in before then out.state == s
            else
              && Claimed(s, out.state, p, allocation)
              && out.state == s.(d := out.state.d, balance := out.state.balance,
                                 parentA := if side == A then before[owner := allocation] else s.parentA,
                                 parentB := if side == B then before[owner := allocation] else s.parentB))
  {
    hide ProRata, ParentTerms, Allocations, ThreeMonthEnd, DevEntitled, ClaimsMatch, Threshold;
    ParentTermsAre(s.d.parentSupply[i], s.d.eligible[i], s.d.allocation[p], held, allocation);
    if now < s.d.parentExpiry {
      NotBurnedYet(s.d, now);
    }
    assert RemainingEntitled(s.d, p).state <= s.balance[p];
  }

  /** A dev claim on the vaults is always accepted; the dev has then had one percent plus the linear part of two
      percent, to the unit. */
  lemma VaultDevIsExact(c: Campaign, rs: map<Pubkey, Receipt>, now: int, s: VaultState)
    requires VaultOk(c, rs, now, s)
    ensures var out := ClaimDev(s, now);
      && out.Done?
      && LinearEntitlement(s.d.supply, s.d.devStart, s.d.devEnd, now, out.state.d.claimed[3])
      && s.d.claimed[3] <= out.state.d.claimed[3]
      && Claimed(s, out.state, 3, out.state.d.claimed[3] - s.d.claimed[3])
      && out.state == s.(d := out.state.d, balance := out.state.balance)
  {
    hide ThreeMonthEnd, DevEntitled, LinearEntitlement, Allocations, ClaimsMatch;
    VaultDevNeverRefused(c, rs, now, s);
    DevEntitledIsLinear(s.d.supply, s.d.devStart, s.d.devEnd, now);
    DevMoves(s, now);
  }

  lemma DevMoves(s: VaultState, now: int)
    requires |s.balance| == 4 && ClaimDev(s, now).Done?
    ensures var s' := ClaimDev(s, now).state;
      && s.d.claimed[3] <= s'.d.claimed[3]
      && Claimed(s, s', 3, s'.d.claimed[3] - s.d.claimed[3])
      && s' == s.(d := s'.d, balance := s'.balance)
  {
    hide DevEntitled;
    var s' := ClaimDev(s, now).state;
    if s' == s {
      assert s.d.claimed[3 := s.d.claimed[3]] == s.d.claimed && s.balance[3 := s.balance[3]] == s.balance;
    }
  }

  /** An expired parent's vault can be burned from expiry on, exactly once: all of it, noted under that parent, with its
      flag added. */
  lemma VaultBurnIsExact(c: Campaign, rs: map<Pubkey, Receipt>, now: int, s: VaultState, side: Side, i: nat, p: nat,
                         flag: nat)
    requires VaultOk(c, rs, now, s) && Slots(side, i, p, flag) && s.balance[p] <= U64_MAX
    ensures var out := BurnVault(s, now, side);
      && (out.Done? <==> s.d.parentExpiry <= now && (s.d.flags == 1 || s.d.flags == 7 - flag))
      && (out.Done? ==>
            && s.d.flags + flag < 8
            && out.state == s.(d := s.d.(burned := s.d.burned[i := s.balance[p]], flags := s.d.flags + flag),
                               balance := s.balance[p := 0]))
  {
    hide Allocations, ThreeMonthEnd, DevEntitled, ClaimsMatch, VaultsSolvent;
  }

  /** A sweep is always accepted and leaves the vault exactly what it still owes: its allocation less what was
      claimed, or nothing once a parent's vault was burned. */
  lemma SweepIsExact(c: Campaign, rs: map<Pubkey, Receipt>, now: int, s: VaultState, p: nat)
    requires VaultOk(c, rs, now, s) && p < 4
    ensures var out := Sweep(s, p);
      var gone := (p == 1 && (s.d.flags == 3 || s.d.flags == 7)) || (p == 2 && (s.d.flags == 5 || s.d.flags == 7));
      && out.Done? && s.d.claimed[p] <= s.d.allocation[p]
      && out.state == s.(balance := s.balance[p := if gone then 0 else s.d.allocation[p] - s.d.claimed[p]])
  {
    hide Allocations, ThreeMonthEnd, DevEntitled, ClaimsMatch;
    assert RemainingEntitled(s.d, p).Done? && RemainingEntitled(s.d, p).state <= s.balance[p];
    if s.balance[p] <= RemainingEntitled(s.d, p).state {
      assert s.balance[p := s.balance[p]] == s.balance;
    }
  }

  lemma VaultDonationIsExact(s: VaultState, rs: map<Pubkey, Receipt>, now: int, p: nat, amount: nat)
    requires |s.balance| == 4 && p < 4
    ensures Act(s, rs, now, VDonate(p, amount)) == Done(s.(balance := s.balance[p := s.balance[p] + amount]))
  {
  }

  /** A proof for parent A is about index byte 0 and the first frozen root, one for parent B about 1 and the second. */
  lemma ProofIsForItsParent(h: Hasher, d: Distribution, owner: Pubkey, held: nat, allocation: nat, proof: seq<Byte>)
    ensures ProvedBy(h, d, A, owner, held, allocation, proof)
      <==> Proves(h, d.campaign, 0, owner, held, allocation, proof, d.roots[0])
    ensures ProvedBy(h, d, B, owner, held, allocation, proof)
      <==> Proves(h, d.campaign, 1, owner, held, allocation, proof, d.roots[1])
    ensures SideByte(A) == 0 && SideByte(B) == 1
  {
  }

  // ---------- refusals ----------

  /** Which error a claim or burn on custody gets, in the order of the checks. */
  lemma CustodyRefusals(e: State, t: Tokens, window: nat, owner: Pubkey, side: Side, held: nat, allocation: nat,
                        proved: bool)
    ensures var p, r := Participant(e, t, owner), Parent(e, t, window, side, owner, held, allocation, proved);
      var d, b := Dev(e, t), BurnExpired(e, t, window);
      && (e.c.activated ==> p == Refused(Custom(40)) && r == d == b == Refused(Custom(40)))
      && (!e.c.activated && e.c.phase != Launched ==> r == d == b == Refused(Custom(30)))
      && (!e.c.activated && owner !in e.receipts ==> p == Refused(InvalidAccount))
      && (!e.c.activated && e.c.phase != Launched && owner in e.receipts ==> p == Refused(Custom(30)))
      && (!e.c.activated && e.c.phase == Launched && 0 < e.c.launchTime && e.c.launchTime + window <= I64_MAX ==>
            && (e.c.launchTime + window <= e.clock ==> r == Refused(Custom(45)))
            && (e.clock < e.c.launchTime + window ==>
                  b == Refused(Custom(46)) && (!proved ==> r == Refused(Custom(30)))))
  {
    hide ProRata, DevDue;
  }

  /** Which error a participant claim or a burn on the vaults gets. */
  lemma VaultRefusals(c: Campaign, rs: map<Pubkey, Receipt>, now: int, s: VaultState, owner: Pubkey, side: Side, i: nat,
                      p: nat, flag: nat)
    requires VaultOk(c, rs, now, s) && Slots(side, i, p, flag)
    ensures owner !in rs ==> ClaimParticipant(s, rs, now, owner) == Refused(InvalidAccount)
    ensures owner in rs && !rs[owner].settled ==> ClaimParticipant(s, rs, now, owner) == Refused(Custom(6))
    ensures owner in rs && rs[owner].settled && rs[owner].claimed ==>
      ClaimParticipant(s, rs, now, owner) == Refused(Custom(7))
    ensures now < s.d.parentExpiry ==> BurnVault(s, now, side) == Refused(Custom(11))
    ensures s.d.parentExpiry <= now && (s.d.flags == 1 + flag || s.d.flags == 7) ==>
      BurnVault(s, now, side) == Refused(Custom(12))
  {
    hide ProRata, Allocations, ThreeMonthEnd, DevEntitled, ClaimsMatch, VaultsSolvent;
  }

  /** Which error a parent claim on the vaults gets, in the order of the checks. */
  lemma VaultParentRefusals(c: Campaign, rs: map<Pubkey, Receipt>, now: int, s: VaultState, owner: Pubkey, side: Side,
                            held: nat, allocation: nat, proved: bool, i: nat, p: nat, flag: nat)
    requires VaultOk(c, rs, now, s) && Slots(side, i, p, flag)
    ensures ParentRefusal(s, now, ClaimParent(s, now, side, owner, held, allocation, proved), held, allocation, proved,
                          i, p)
  {
    OpenBeforeExpiry(c, rs, now, s);
    hide VaultOk, ParentTerms;
    ParentTermsAre(s.d.parentSupply[i], s.d.eligible[i], s.d.allocation[p], held, allocation);
    ThresholdRoundsUp(s.d.parentSupply[i], held);
    hide ProRata, Threshold, IsBurned;
  }

  ghost predicate ParentRefusal(s: VaultState, now: int, out: Outcome<VaultState>, held: nat, allocation: nat,
                                proved: bool, i: nat, p: nat)
    requires i < 2 && p < 4
  {
    var supply: nat := s.d.parentSupply[i];
    if s.d.parentExpiry <= now then out == Refused(Custom(9))
    else if held * 10000 < supply * 5 then out == Refused(Custom(14))
    else if !ParentTerms(supply, s.d.eligible[i], s.d.allocation[p], held, allocation)
    then out == Refused(Custom(15))
    else !proved ==> out == Refused(Custom(13))
  }

  lemma OpenBeforeExpiry(c: Campaign, rs: map<Pubkey, Receipt>, now: int, s: VaultState)
    requires VaultOk(c, rs, now, s)
    ensures |s.balance| == 4 && s.d.launchTime <= now
    ensures now < s.d.parentExpiry ==> !IsBurned(s.d, A) && !IsBurned(s.d, B)
  {
    hide Allocations, ThreeMonthEnd, DevEntitled, ClaimsMatch, VaultsSolvent;
    if now < s.d.parentExpiry {
      NotBurnedYet(s.d, now);
    }
  }
}

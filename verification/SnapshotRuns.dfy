/** Parent claims over whole runs: against the root of a snapshot whose balances fit the eligible total, every claim
    that carries a proof pays a holder's own part and none is ever refused because others were paid first. */
module SnapshotRuns {
  import opened Base
  import opened Floors
  import opened Sums
  import opened Vesting
  import opened Custody
  import opened Record
  import opened Merkle
  import opened HashTrees
  import opened ParentProofs
  import opened Vaults
  import opened VaultSafety
  import opened Protocol

  /** The frozen root and eligible total are those of this snapshot. */
  ghost predicate Published(h: Hasher, d: Distribution, side: Side, snap: Snapshot)
  {
    var p, i := Purpose(side), Index(side);
    && Listed(snap, d.eligible[i]) && Sum(snap.balances) <= d.eligible[i]
    && d.roots[i] == SnapshotRoot(h, d.campaign, SideByte(side), snap, d.allocation[p], d.eligible[i])
  }

  /** Two of the strings hashed for a claim and for the snapshot's tree are different and have the same hash. */
  ghost predicate ClaimCollides(h: Hasher, d: Distribution, side: Side, snap: Snapshot, owner: Pubkey, held: nat,
                                allocation: nat, proof: seq<Byte>)
    requires Published(h, d, side, snap)
  {
    Collide(h, ParentClaimStrings(h, d.campaign, SideByte(side), owner, held, allocation, proof),
            TreeStrings(h, SnapshotTree(d.campaign, SideByte(side), snap, d.allocation[Purpose(side)],
                                        d.eligible[Index(side)])))
  }

  /** A claim on this parent that the program found proved. */
  predicate ClaimsProved(m: Move, side: Side)
  {
    m.OnVaults? && m.va.VParent? && m.va.side == side && m.va.proved
  }

  /** The program takes a claim for proved only if its proof leads to the frozen root. */
  ghost predicate CarriesProof(h: Hasher, d: Distribution, side: Side, m: Move, proof: seq<Byte>)
  {
    ClaimsProved(m, side) ==> ProvedBy(h, d, side, m.va.owner, m.va.held, m.va.allocation, proof)
  }

  ghost predicate MoveCollides(h: Hasher, d: Distribution, side: Side, snap: Snapshot, m: Move, proof: seq<Byte>)
    requires Published(h, d, side, snap)
  {
    ClaimsProved(m, side) && ClaimCollides(h, d, side, snap, m.va.owner, m.va.held, m.va.allocation, proof)
  }

  /** A proved claim is a holder's own, or two hashed strings collide. */
  lemma ProvedIsHolder(h: Hasher, d: Distribution, side: Side, snap: Snapshot, owner: Pubkey, held: nat,
                       allocation: nat, proof: seq<Byte>)
    requires Published(h, d, side, snap) && held <= U64_MAX && allocation <= U64_MAX
    requires ProvedBy(h, d, side, owner, held, allocation, proof)
    ensures (&& owner in snap.balances && held == snap.balances[owner]
             && allocation == ProRata(held, d.allocation[Purpose(side)], d.eligible[Index(side)]))
      || ClaimCollides(h, d, side, snap, owner, held, allocation, proof)
  {
    hide ProRata, Proves, Collide, ParentClaimStrings, TreeStrings, SnapshotTree, SnapshotRoot, Listed, Sum;
    ParentSoundness(h, d.campaign, SideByte(side), snap, d.allocation[Purpose(side)], d.eligible[Index(side)],
                    owner, held, allocation, proof);
  }

  /** A launch freezes the published roots and eligible totals, with nothing claimed yet: a snapshot whose root the
      campaign recorded before its launch is the one its vaults pay by. */
  lemma LaunchPublishes(h: Hasher, x: System, others: bool, held: nat, keys: Distribution, side: Side, snap: Snapshot)
    requires SystemOk(x) && x.e.c.distribution && LaunchAll(x, others, held, keys).Done?
    requires var r := Of(x.t, side);
      && Listed(snap, r.eligible) && Sum(snap.balances) <= r.eligible && x.e.c.supply <= U64_MAX
      && Share(x.e.c.supply, 500) <= U64_MAX
      && r.root == SnapshotRoot(h, keys.campaign, SideByte(side), snap, Share(x.e.c.supply, 500), r.eligible)
    ensures var x' := LaunchAll(x, others, held, keys).state;
      x'.v.Active? && Published(h, x'.v.s.d, side, snap) && FromSnapshot(x'.v.s, side, snap.balances)
  {
    hide Sum, SnapshotRoot, SystemOk, Share, Calendar.ThreeMonthEnd;
  }

  /** Moves other than a proved claim on this parent leave its claims alone. */
  lemma OtherMovesKeepClaims(x: System, m: Move, side: Side)
    requires SystemOk(x) && x.v.Active? && !ClaimsProved(m, side)
    ensures Step(x, m).v.Active? && ClaimsOf(Step(x, m).v.s, side) == ClaimsOf(x.v.s, side)
  {
    hide ProRata, DevEntitled, VaultOk, CustodyOk, DevDue;
    if m.OnVaults? {
      FourVaults(x);
    } else if m.LaunchCampaign? {
      NoSecondLaunch(x, m.others, m.held, m.record);
    }
  }

  lemma SameSnapshot(s: VaultState, s': VaultState, side: Side, balances: map<Pubkey, nat>)
    requires TermsKept(s.d, s'.d) && ClaimsOf(s', side) == ClaimsOf(s, side) && FromSnapshot(s, side, balances)
    ensures FromSnapshot(s', side, balances)
  {
    hide ProRata;
  }

  /** An accepted claim is for no more than the eligible total and for at most the vault's allocation. */
  lemma AcceptedFits(s: VaultState, now: int, side: Side, owner: Pubkey, held: nat, allocation: nat)
    requires |s.balance| == 4 && ClaimParent(s, now, side, owner, held, allocation, true).Done?
    ensures held <= U64_MAX && allocation <= U64_MAX
  {
    hide ProRata;
    ShareAtMostPool(held, s.d.allocation[Purpose(side)], s.d.eligible[Index(side)]);
  }

  lemma ClaimKeepsSnapshot(h: Hasher, x: System, side: Side, snap: Snapshot, m: Move, proof: seq<Byte>)
    requires SystemOk(x) && x.v.Active? && Published(h, x.v.s.d, side, snap) && FromSnapshot(x.v.s, side, snap.balances)
    requires ClaimsProved(m, side) && CarriesProof(h, x.v.s.d, side, m, proof)
    ensures Step(x, m).v.Active?
    ensures FromSnapshot(Step(x, m).v.s, side, snap.balances) || MoveCollides(h, x.v.s.d, side, snap, m, proof)
  {
    hide ProRata, ProvedBy, ClaimCollides, FromSnapshot, VaultOk, CustodyOk, ClaimParent;
    FourVaults(x);
    var s, now, a := x.v.s, x.e.clock, m.va;
    if ClaimParent(s, now, side, a.owner, a.held, a.allocation, true).Done? {
      AcceptedFits(s, now, side, a.owner, a.held, a.allocation);
      ProvedIsHolder(h, s.d, side, snap, a.owner, a.held, a.allocation, proof);
      if !MoveCollides(h, s.d, side, snap, m, proof) {
        HonestSnapshotNeverOverdraws(x.e.c, x.e.receipts, now, s, side, snap.balances, a.owner, a.allocation, true);
      }
    }
  }

  lemma SnapshotStep(h: Hasher, x: System, side: Side, snap: Snapshot, m: Move, proof: seq<Byte>)
    requires SystemOk(x) && x.v.Active? && Published(h, x.v.s.d, side, snap) && FromSnapshot(x.v.s, side, snap.balances)
    requires CarriesProof(h, x.v.s.d, side, m, proof)
    ensures Step(x, m).v.Active? && TermsKept(x.v.s.d, Step(x, m).v.s.d)
    ensures FromSnapshot(Step(x, m).v.s, side, snap.balances) || MoveCollides(h, x.v.s.d, side, snap, m, proof)
  {
    hide SystemOk, Step, FromSnapshot, Published, CarriesProof, MoveCollides;
    StepFreezes(x, m);
    if ClaimsProved(m, side) {
      ClaimKeepsSnapshot(h, x, side, snap, m, proof);
    } else {
      OtherMovesKeepClaims(x, m, side);
      SameSnapshot(x.v.s, Step(x, m).v.s, side, snap.balances);
    }
  }

  /** Some claim of the run collides. */
  ghost predicate RunCollides(h: Hasher, d: Distribution, side: Side, snap: Snapshot, moves: seq<Move>,
                              proofs: seq<seq<Byte>>)
    requires Published(h, d, side, snap) && |proofs| == |moves|
  {
    exists i :: 0 <= i < |moves| && MoveCollides(h, d, side, snap, moves[i], proofs[i])
  }

  ghost predicate AllCarryProofs(h: Hasher, d: Distribution, side: Side, moves: seq<Move>, proofs: seq<seq<Byte>>)
  {
    |proofs| == |moves| && forall i :: 0 <= i < |moves| ==> CarriesProof(h, d, side, moves[i], proofs[i])
  }

  lemma RestCarriesProofs(h: Hasher, d: Distribution, d': Distribution, side: Side, snap: Snapshot, moves: seq<Move>,
                          proofs: seq<seq<Byte>>)
    requires TermsKept(d, d') && Published(h, d, side, snap) && moves != [] && AllCarryProofs(h, d, side, moves, proofs)
    ensures CarriesProof(h, d, side, moves[0], proofs[0])
    ensures Published(h, d', side, snap) && AllCarryProofs(h, d', side, moves[1..], proofs[1..])
    ensures MoveCollides(h, d, side, snap, moves[0], proofs[0])
         || RunCollides(h, d', side, snap, moves[1..], proofs[1..])
      ==> RunCollides(h, d, side, snap, moves, proofs)
  {
    hide Proves, Collide, Listed, SnapshotRoot, SnapshotTree, ParentClaimStrings, TreeStrings, Sum;
    forall i | 0 <= i < |moves[1..]| ensures CarriesProof(h, d', side, moves[1..][i], proofs[1..][i]) {
      assert CarriesProof(h, d, side, moves[i + 1], proofs[i + 1]);
    }
    if RunCollides(h, d', side, snap, moves[1..], proofs[1..]) {
      var i :| 0 <= i < |moves[1..]| && MoveCollides(h, d', side, snap, moves[1..][i], proofs[1..][i]);
      assert MoveCollides(h, d, side, snap, moves[i + 1], proofs[i + 1]);
    }
  }

  /** Over any run whose proved claims carry proofs, every recorded parent claim is the floored part of that owner's
      snapshot balance, or two of the strings that were hashed collide. */
  lemma {:induction false} RunPaysSnapshot(h: Hasher, x: System, side: Side, snap: Snapshot, moves: seq<Move>,
                                           proofs: seq<seq<Byte>>)
    requires SystemOk(x) && x.v.Active? && Published(h, x.v.s.d, side, snap) && FromSnapshot(x.v.s, side, snap.balances)
    requires AllCarryProofs(h, x.v.s.d, side, moves, proofs)
    ensures Run(x, moves).v.Active?
    ensures FromSnapshot(Run(x, moves).v.s, side, snap.balances) || RunCollides(h, x.v.s.d, side, snap, moves, proofs)
    decreases |moves|
  {
    if moves == [] {
      hide SystemOk, FromSnapshot;
    } else {
      hide SystemOk, Step, FromSnapshot, Published, CarriesProof, MoveCollides, RunCollides;
      StepOk(x, moves[0]);
      assert CarriesProof(h, x.v.s.d, side, moves[0], proofs[0]);
      SnapshotStep(h, x, side, snap, moves[0], proofs[0]);
      var x1 := Step(x, moves[0]);
      RestCarriesProofs(h, x.v.s.d, x1.v.s.d, side, snap, moves, proofs);
      RunFreezesTerms(x1, moves[1..]);
      if FromSnapshot(x1.v.s, side, snap.balances) {
        RunPaysSnapshot(h, x1, side, snap, moves[1..], proofs[1..]);
      }
    }
  }

  /** A claim found proved is accepted exactly when it is in time and over the threshold. */
  ghost predicate OnlyTermsRefuse(y: System, side: Side, owner: Pubkey, held: nat, allocation: nat)
    requires y.v.Active? && |y.v.s.balance| == 4
  {
    ClaimParent(y.v.s, y.e.clock, side, owner, held, allocation, true).Done? <==>
    y.e.clock < y.v.s.d.parentExpiry && Threshold(y.v.s.d.parentSupply[Index(side)]) <= held
  }

  lemma HolderIsPaid(h: Hasher, y: System, side: Side, snap: Snapshot, owner: Pubkey)
    requires SystemOk(y) && y.v.Active? && Published(h, y.v.s.d, side, snap) && FromSnapshot(y.v.s, side, snap.balances)
    requires owner in snap.balances
    ensures |y.v.s.balance| == 4
    ensures OnlyTermsRefuse(y, side, owner, snap.balances[owner],
      ProRata(snap.balances[owner], y.v.s.d.allocation[Purpose(side)], y.v.s.d.eligible[Index(side)]))
  {
    hide ClaimParent, FromSnapshot, VaultOk, CustodyOk, Threshold, ProRata, SnapshotRoot, Sum;
    FourVaults(y);
    var share := ProRata(snap.balances[owner], y.v.s.d.allocation[Purpose(side)], y.v.s.d.eligible[Index(side)]);
    HonestSnapshotNeverOverdraws(y.e.c, y.e.receipts, y.e.clock, y.v.s, side, snap.balances, owner, share, true);
  }

  lemma SamePublication(h: Hasher, d: Distribution, d': Distribution, side: Side, snap: Snapshot)
    requires TermsKept(d, d') && Published(h, d, side, snap)
    ensures Published(h, d', side, snap)
    ensures d'.allocation == d.allocation && d'.eligible == d.eligible
  {
    hide Listed, SnapshotRoot, Sum;
  }

  /** After any such run a further claim with a proof is accepted exactly when it is in time and over the threshold:
      the overdraw check and the vault balance never refuse it, whoever claimed before, unless two hashed strings
      collide. */
  lemma ProvedClaimsNeverOverdraw(h: Hasher, x: System, side: Side, snap: Snapshot, moves: seq<Move>,
                                  proofs: seq<seq<Byte>>, owner: Pubkey, held: U64, allocation: U64, proof: seq<Byte>)
    requires SystemOk(x) && x.v.Active? && Published(h, x.v.s.d, side, snap) && FromSnapshot(x.v.s, side, snap.balances)
    requires AllCarryProofs(h, x.v.s.d, side, moves, proofs)
    requires ProvedBy(h, x.v.s.d, side, owner, held, allocation, proof)
    ensures var y := Run(x, moves);
      (y.v.Active? && |y.v.s.balance| == 4 && OnlyTermsRefuse(y, side, owner, held, allocation))
      || RunCollides(h, x.v.s.d, side, snap, moves, proofs)
      || ClaimCollides(h, x.v.s.d, side, snap, owner, held, allocation, proof)
  {
    assert |proofs| == |moves|;
    hide *;
    RunPaysSnapshot(h, x, side, snap, moves, proofs);
    RunFreezesTerms(x, moves);
    FrozenTerms(x.v.s, Run(x, moves).v.s);
    SamePublication(h, x.v.s.d, Run(x, moves).v.s.d, side, snap);
    ProvedIsHolder(h, x.v.s.d, side, snap, owner, held, allocation, proof);
    if FromSnapshot(Run(x, moves).v.s, side, snap.balances)
      && !ClaimCollides(h, x.v.s.d, side, snap, owner, held, allocation, proof) {
      HolderIsPaid(h, Run(x, moves), side, snap, owner);
    }
  }

  lemma FrozenTerms(s: VaultState, s': VaultState)
    requires Frozen(s, s')
    ensures TermsKept(s.d, s'.d)
  {
  }

  /** Every holder of the snapshot has such a proof, for exactly the floored part of the vault. */
  lemma HoldersHaveProofs(h: Hasher, d: Distribution, side: Side, snap: Snapshot, at: nat)
    requires Published(h, d, side, snap) && at < |snap.order|
    ensures exists proof :: ProvedBy(h, d, side, snap.order[at], snap.balances[snap.order[at]],
      ProRata(snap.balances[snap.order[at]], d.allocation[Purpose(side)], d.eligible[Index(side)]), proof)
  {
    hide ProRata, Proves, SnapshotRoot, HolderProof;
    var p, i := Purpose(side), Index(side);
    ParentCompleteness(h, d.campaign, SideByte(side), snap, d.allocation[p], d.eligible[i], at);
    var o := snap.order[at];
    assert ProvedBy(h, d, side, o, snap.balances[o], ProRata(snap.balances[o], d.allocation[p], d.eligible[i]),
                    HolderProof(h, d.campaign, SideByte(side), snap, d.allocation[p], d.eligible[i], at));
  }
}

/** The Merkle proofs the two programs check for parent claims: leaf strings, folding, and what a snapshot's root
    admits. */
module ParentProofs {
  import opened Base
  import opened Bytes
  import opened Floors
  import opened Merkle
  import opened HashTrees

  /** The text "kids-parent-v1". */
  const PARENT_TAG: seq<Byte> := [107, 105, 100, 115, 45, 112, 97, 114, 101, 110, 116, 45, 118, 49]

  function ParentLeafString(campaign: Bytes32, index: Byte, owner: Pubkey, held: nat, allocation: nat): (s: seq<Byte>)
    ensures |s| == 95
  {
    PARENT_TAG + campaign + [index] + owner + LittleEndian(held, 8) + LittleEndian(allocation, 8)
  }

  /** Where everything stands in a leaf: the fourteen characters, the campaign, the parent's index, the owner, and
      the two numbers as eight bytes each from the least significant on. */
  lemma ParentLeafLayout(campaign: Bytes32, index: Byte, owner: Pubkey, held: nat, allocation: nat, i: nat)
    ensures var s := ParentLeafString(campaign, index, owner, held, allocation);
      && (i < 14 ==> s[i] == "kids-parent-v1"[i] as int)
      && s[14..46] == campaign && s[46] == index && s[47..79] == owner
      && (i < 8 ==> s[79 + i] == held / Pow256(i) % 256 && s[87 + i] == allocation / Pow256(i) % 256)
  {
    var s := ParentLeafString(campaign, index, owner, held, allocation);
    if i < 8 {
      LittleEndianDigit(held, 8, i);
      LittleEndianDigit(allocation, 8, i);
      assert s[79 + i] == LittleEndian(held, 8)[i] && s[87 + i] == LittleEndian(allocation, 8)[i];
    }
  }

  /** The same string comes only from the same owner, balance and allocation. */
  lemma ParentLeafInjective(campaign: Bytes32, index: Byte, owner: Pubkey, held: nat, allocation: nat,
                            owner': Pubkey, held': nat, allocation': nat)
    requires held <= U64_MAX && allocation <= U64_MAX && held' <= U64_MAX && allocation' <= U64_MAX
    requires ParentLeafString(campaign, index, owner, held, allocation)
          == ParentLeafString(campaign, index, owner', held', allocation')
    ensures owner == owner' && held == held' && allocation == allocation'
  {
    var s := ParentLeafString(campaign, index, owner, held, allocation);
    assert s[47..79] == owner && s[47..79] == owner';
    assert s[79..87] == LittleEndian(held, 8) && s[79..87] == LittleEndian(held', 8);
    assert s[87..] == LittleEndian(allocation, 8) && s[87..] == LittleEndian(allocation', 8);
    SameWord(held, held');
    SameWord(allocation, allocation');
  }

  lemma SameWord(n: nat, n': nat)
    requires n <= U64_MAX && n' <= U64_MAX && LittleEndian(n, 8) == LittleEndian(n', 8)
    ensures n == n'
  {
    U64Fits(n);
    U64Fits(n');
    LittleEndianRoundTrip(n, 8);
    LittleEndianRoundTrip(n', 8);
  }

  /** The 32-byte siblings of a proof body; a shorter rest is ignored. */
  function Siblings(proof: seq<Byte>): seq<Bytes32>
    decreases |proof|
  {
    if |proof| < 32 then [] else [proof[..32]] + Siblings(proof[32..])
  }

  /** The proof leads from this claim to `root`. */
  predicate Proves(h: Hasher, campaign: Bytes32, index: Byte, owner: Pubkey, held: nat, allocation: nat,
                   proof: seq<Byte>, root: Bytes32)
  {
    Fold(h, h.digest(ParentLeafString(campaign, index, owner, held, allocation)), Siblings(proof)) == root
  }

  /** The root implied by a leaf and its sibling path. */
  method ImpliedRoot(h: Hasher, campaign: Bytes32, index: Byte, owner: Pubkey, held: nat, allocation: nat,
                     proof: seq<Byte>) returns (root: Bytes32)
    ensures forall r: Bytes32 :: Proves(h, campaign, index, owner, held, allocation, proof, r) <==> root == r
  {
    var hash := h.digest(ParentLeafString(campaign, index, owner, held, allocation));
    var at := 0;
    while 32 <= |proof| - at
      invariant 0 <= at <= |proof|
      invariant Fold(h, hash, Siblings(proof[at..]))
             == Fold(h, h.digest(ParentLeafString(campaign, index, owner, held, allocation)), Siblings(proof))
    {
      var sibling: Bytes32 := proof[at..at + 32];
      assert proof[at..][..32] == sibling && proof[at..][32..] == proof[at + 32..];
      assert Siblings(proof[at..])[1..] == Siblings(proof[at + 32..]);
      hash := PairHash(h, hash, sibling);
      at := at + 32;
    }
    root := hash;
  }

  // ---------- snapshots ----------

  /** The holders a publisher committed to: what each one holds, and the order of the tree's leaves. */
  datatype Snapshot = Snapshot(balances: map<Pubkey, nat>, order: seq<Pubkey>)

  /** The leaves list exactly the holders, and no balance exceeds the eligible total. */
  ghost predicate Listed(snap: Snapshot, eligible: U64)
  {
    && snap.order != [] && 0 < eligible
    && (forall o :: o in snap.balances <==> o in snap.order)
    && (forall o :: o in snap.balances ==> snap.balances[o] <= eligible)
  }

  /** The leaf of one holder: the floored part of the pool is committed with the balance. */
  ghost function HolderLeaf(campaign: Bytes32, index: Byte, snap: Snapshot, pool: U64, eligible: U64, o: Pubkey)
    : seq<Byte>
    requires 0 < eligible && o in snap.balances
  {
    ParentLeafString(campaign, index, o, snap.balances[o], ProRata(snap.balances[o], pool, eligible))
  }

  ghost function SnapshotLeaves(campaign: Bytes32, index: Byte, snap: Snapshot, pool: U64, eligible: U64): seq<Tree>
    requires Listed(snap, eligible)
  {
    seq(|snap.order|, i requires 0 <= i < |snap.order| =>
      Leaf(HolderLeaf(campaign, index, snap, pool, eligible, snap.order[i])))
  }

  ghost function SnapshotTree(campaign: Bytes32, index: Byte, snap: Snapshot, pool: U64, eligible: U64): Tree
    requires Listed(snap, eligible)
  {
    RootTree(SnapshotLeaves(campaign, index, snap, pool, eligible))
  }

  /** The root the publisher computes level by level, with an odd last node moving up unchanged. */
  ghost function SnapshotRoot(h: Hasher, campaign: Bytes32, index: Byte, snap: Snapshot, pool: U64, eligible: U64)
    : Bytes32
    requires Listed(snap, eligible)
  {
    Root(h, Values(h, SnapshotLeaves(campaign, index, snap, pool, eligible)))
  }

  lemma LeafIsHolder(campaign: Bytes32, index: Byte, snap: Snapshot, pool: U64, eligible: U64, leaf: Tree)
    returns (o: Pubkey)
    requires Listed(snap, eligible) && leaf.Leaf?
    requires leaf in Subtrees(SnapshotTree(campaign, index, snap, pool, eligible))
    ensures o in snap.balances && leaf == Leaf(HolderLeaf(campaign, index, snap, pool, eligible, o))
  {
    hide HolderLeaf, RootTree;
    var leaves := SnapshotLeaves(campaign, index, snap, pool, eligible);
    LeavesComeFromBelow(leaves, leaf);
    var i :| 0 <= i < |leaves| && leaf in Subtrees(leaves[i]);
    o := snap.order[i];
  }

  lemma SnapshotLeavesApart(campaign: Bytes32, index: Byte, snap: Snapshot, pool: U64, eligible: U64)
    requires Listed(snap, eligible)
    ensures LeavesApart(SnapshotTree(campaign, index, snap, pool, eligible))
  {
    hide SnapshotTree, ParentLeafString;
    forall sub | sub in Subtrees(SnapshotTree(campaign, index, snap, pool, eligible)) && sub.Leaf?
      ensures |sub.text| != 64
    {
      var o := LeafIsHolder(campaign, index, snap, pool, eligible, sub);
    }
  }

  /** Every string a program hashes for a parent claim. */
  ghost function ParentClaimStrings(h: Hasher, campaign: Bytes32, index: Byte, owner: Pubkey, held: nat,
                                    allocation: nat, proof: seq<Byte>): set<seq<Byte>>
  {
    var text := ParentLeafString(campaign, index, owner, held, allocation);
    {text} + FoldStrings(h, h.digest(text), Siblings(proof))
  }

  /** A claim proved against a snapshot's root is a holder's, for the balance in the snapshot and the floored part of
      the pool, or two of the hashed strings collide. */
  lemma ParentSoundness(h: Hasher, campaign: Bytes32, index: Byte, snap: Snapshot, pool: U64, eligible: U64,
                        owner: Pubkey, held: nat, allocation: nat, proof: seq<Byte>)
    requires Listed(snap, eligible) && held <= U64_MAX && allocation <= U64_MAX
    requires Proves(h, campaign, index, owner, held, allocation, proof,
                    SnapshotRoot(h, campaign, index, snap, pool, eligible))
    ensures (&& owner in snap.balances && held == snap.balances[owner]
             && allocation == ProRata(held, pool, eligible))
      || Collide(h, ParentClaimStrings(h, campaign, index, owner, held, allocation, proof),
                 TreeStrings(h, SnapshotTree(campaign, index, snap, pool, eligible)))
  {
    hide Fold, FoldStrings, TreeStrings, Collide, LeavesApart, Root, IsNodeValue, ParentLeafString, Subtrees, Value,
      RootTree, ProRata, HolderLeaf;
    var t := SnapshotTree(campaign, index, snap, pool, eligible);
    var text := ParentLeafString(campaign, index, owner, held, allocation);
    var claim := ParentClaimStrings(h, campaign, index, owner, held, allocation, proof);
    RootIsTreeValue(h, SnapshotLeaves(campaign, index, snap, pool, eligible));
    SnapshotLeavesApart(campaign, index, snap, pool, eligible);
    FoldToRoot(h, t, h.digest(text), Siblings(proof));
    if !IsNodeValue(h, t, h.digest(text)) {
      CollideMore(h, FoldStrings(h, h.digest(text), Siblings(proof)), claim, TreeStrings(h, t), TreeStrings(h, t));
    } else {
      LeafOfTree(h, t, text);
      if Leaf(text) !in Subtrees(t) {
        CollideMore(h, {text}, claim, TreeStrings(h, t), TreeStrings(h, t));
      } else {
        HolderOfLeaf(campaign, index, snap, pool, eligible, owner, held, allocation);
      }
    }
  }

  lemma HolderOfLeaf(campaign: Bytes32, index: Byte, snap: Snapshot, pool: U64, eligible: U64, owner: Pubkey,
                     held: nat, allocation: nat)
    requires Listed(snap, eligible) && held <= U64_MAX && allocation <= U64_MAX
    requires Leaf(ParentLeafString(campaign, index, owner, held, allocation))
          in Subtrees(SnapshotTree(campaign, index, snap, pool, eligible))
    ensures owner in snap.balances && held == snap.balances[owner]
    ensures allocation == ProRata(held, pool, eligible)
  {
    hide ParentLeafString, SnapshotTree, ProRata;
    var o := LeafIsHolder(campaign, index, snap, pool, eligible,
                          Leaf(ParentLeafString(campaign, index, owner, held, allocation)));
    ShareAtMostPool(snap.balances[o], pool, eligible);
    ParentLeafInjective(campaign, index, owner, held, allocation, o, snap.balances[o],
                        ProRata(snap.balances[o], pool, eligible));
  }

  // ---------- every holder has a proof ----------

  function Joined(siblings: seq<Bytes32>): seq<Byte>
  {
    if siblings == [] then [] else siblings[0] + Joined(siblings[1..])
  }

  lemma {:induction false} SiblingsOfJoined(siblings: seq<Bytes32>)
    ensures Siblings(Joined(siblings)) == siblings
    decreases |siblings|
  {
    if siblings != [] {
      SiblingsOfJoined(siblings[1..]);
      assert Joined(siblings)[..32] == siblings[0] && Joined(siblings)[32..] == Joined(siblings[1..]);
    }
  }

  /** The proof body of the leaf at a position of the snapshot tree. */
  ghost function HolderProof(h: Hasher, campaign: Bytes32, index: Byte, snap: Snapshot, pool: U64, eligible: U64,
                             at: nat): seq<Byte>
    requires Listed(snap, eligible) && at < |snap.order|
  {
    Joined(ProofFor(h, Values(h, SnapshotLeaves(campaign, index, snap, pool, eligible)), at))
  }

  /** Every holder of the snapshot can prove their balance and the floored part of the pool. */
  lemma ParentCompleteness(h: Hasher, campaign: Bytes32, index: Byte, snap: Snapshot, pool: U64, eligible: U64, at: nat)
    requires Listed(snap, eligible) && at < |snap.order|
    ensures var o := snap.order[at];
      Proves(h, campaign, index, o, snap.balances[o], ProRata(snap.balances[o], pool, eligible),
             HolderProof(h, campaign, index, snap, pool, eligible, at),
             SnapshotRoot(h, campaign, index, snap, pool, eligible))
  {
    hide Fold, Root, ParentLeafString, ProRata, ProofFor;
    var level := Values(h, SnapshotLeaves(campaign, index, snap, pool, eligible));
    SiblingsOfJoined(ProofFor(h, level, at));
    Completeness(h, level, at);
  }
}

/** `buildCommunityMerkleTree`: validation, owner order, levels and proofs. */
module MerkleBuilder {
  import opened Base
  import opened Bytes
  import opened Merkle
  import opened HashTrees
  import opened MerkleSoundness

  // ---------- owner order ----------

  /** Plain code-unit order of two owner texts. */
  predicate Before(a: string, b: string)
  {
    if b == "" then false
    else if a == "" then true
    else a[0] < b[0] || (a[0] == b[0] && Before(a[1..], b[1..]))
  }

  lemma {:induction false} BeforeTransitive(a: string, b: string, c: string)
    requires Before(a, b) && Before(b, c)
    ensures Before(a, c)
    decreases |a|
  {
    if a != "" && a[0] == b[0] == c[0] {
      BeforeTransitive(a[1..], b[1..], c[1..]);
    }
  }

  lemma {:induction false} BeforeTotal(a: string, b: string)
    ensures Before(a, b) || Before(b, a) || a == b
    decreases |a|
  {
    if a != "" && b != "" {
      BeforeTotal(a[1..], b[1..]);
      assert a == [a[0]] + a[1..] && b == [b[0]] + b[1..];
    }
  }

  /** Up to `k` the texts agree; there the first one ends, or has the smaller code unit. */
  ghost predicate TextFirst(a: string, b: string, k: nat)
  {
    && k <= |a| && k < |b| && a[..k] == b[..k]
    && (k == |a| || a[k] < b[k])
  }

  lemma {:induction false} BeforeIsLexicographic(a: string, b: string)
    ensures Before(a, b) <==> exists k :: TextFirst(a, b, k)
    decreases |b|
  {
    if b != "" {
      if a == "" {
        assert TextFirst(a, b, 0);
      } else {
        BeforeIsLexicographic(a[1..], b[1..]);
        if Before(a, b) {
          if a[0] < b[0] {
            assert TextFirst(a, b, 0);
          } else {
            var k: nat :| TextFirst(a[1..], b[1..], k);
            assert a[..k + 1] == [a[0]] + a[1..][..k] && b[..k + 1] == [b[0]] + b[1..][..k];
            assert TextFirst(a, b, k + 1);
          }
        }
        if k: nat :| TextFirst(a, b, k) {
          if k > 0 {
            assert a[0] == a[..k][0] == b[..k][0] == b[0];
            assert a[1..][..k - 1] == a[..k][1..] && b[1..][..k - 1] == b[..k][1..];
            assert TextFirst(a[1..], b[1..], k - 1);
          }
        }
      }
    }
  }

  function Insert(x: Input, s: seq<Input>): seq<Input>
  {
    if s == [] then [x]
    else if Before(s[0].owner, x.owner) then [s[0]] + Insert(x, s[1..])
    else [x] + s
  }

  function SortByOwner(inputs: seq<Input>): seq<Input>
  {
    if inputs == [] then [] else Insert(inputs[0], SortByOwner(inputs[1..]))
  }

  ghost predicate InOrder(s: seq<Input>)
  {
    forall i, j :: 0 <= i < j < |s| ==> Before(s[i].owner, s[j].owner)
  }

  ghost predicate OwnersDistinct(s: seq<Input>)
  {
    forall i, j :: 0 <= i < j < |s| ==> s[i].owner != s[j].owner
  }

  function Total(s: seq<Input>): nat
  {
    if s == [] then 0 else s[0].amount + Total(s[1..])
  }

  lemma {:induction false} InsertKeeps(x: Input, s: seq<Input>)
    ensures multiset(Insert(x, s)) == multiset(s) + multiset{x}
    ensures Total(Insert(x, s)) == x.amount + Total(s)
    ensures |Insert(x, s)| == |s| + 1
    decreases |s|
  {
    if s != [] {
      assert s == [s[0]] + s[1..];
      InsertKeeps(x, s[1..]);
    }
  }

  lemma {:induction false} InsertInOrder(x: Input, s: seq<Input>)
    requires InOrder(s) && forall i :: 0 <= i < |s| ==> s[i].owner != x.owner
    ensures InOrder(Insert(x, s))
    decreases |s|
  {
    if s != [] {
      var y, rest := s[0], s[1..];
      if Before(y.owner, x.owner) {
        InsertInOrder(x, rest);
        var out := Insert(x, rest);
        InsertKeeps(x, rest);
        forall j | 0 <= j < |out| ensures Before(y.owner, out[j].owner) {
          assert out[j] in multiset(out);
          assert out[j] == x || out[j] in rest;
        }
      } else {
        BeforeTotal(x.owner, y.owner);
        forall j | 0 <= j < |s| ensures Before(x.owner, s[j].owner) {
          if j > 0 {
            BeforeTransitive(x.owner, y.owner, s[j].owner);
          }
        }
      }
    }
  }

  lemma {:induction false} SortKeeps(inputs: seq<Input>)
    ensures multiset(SortByOwner(inputs)) == multiset(inputs)
    ensures |SortByOwner(inputs)| == |inputs| && Total(SortByOwner(inputs)) == Total(inputs)
    decreases |inputs|
  {
    hide Insert;
    if inputs != [] {
      assert inputs == [inputs[0]] + inputs[1..];
      SortKeeps(inputs[1..]);
      InsertKeeps(inputs[0], SortByOwner(inputs[1..]));
    }
  }

  lemma {:induction false} SortOrders(inputs: seq<Input>)
    requires OwnersDistinct(inputs)
    ensures InOrder(SortByOwner(inputs))
    decreases |inputs|
  {
    hide Insert, InOrder;
    if inputs != [] {
      var x, rest := inputs[0], inputs[1..];
      SortOrders(rest);
      SortKeeps(rest);
      var sorted := SortByOwner(rest);
      forall i | 0 <= i < |sorted| ensures sorted[i].owner != x.owner {
        assert sorted[i] in multiset(sorted);
        assert sorted[i] in rest;
      }
      InsertInOrder(x, sorted);
    } else {
      NothingInOrder();
    }
  }

  lemma NothingInOrder()
    ensures InOrder([])
  {
  }

  /** Sorting is a permutation, keeps the total and puts distinct owners in strict order. */
  lemma SortIsOrderedPermutation(inputs: seq<Input>)
    requires OwnersDistinct(inputs)
    ensures multiset(SortByOwner(inputs)) == multiset(inputs)
    ensures |SortByOwner(inputs)| == |inputs| && Total(SortByOwner(inputs)) == Total(inputs)
    ensures InOrder(SortByOwner(inputs))
  {
    SortKeeps(inputs);
    SortOrders(inputs);
  }

  // ---------- validation ----------

  datatype RawInput = RawInput(owner: string, amount: int)

  datatype Problem =
    | NoLeaves | EmptyOwner | DuplicateOwner | NonPositive | InvalidAddress | AmountTooLarge | TotalTooLarge

  predicate Acceptable(inputs: seq<RawInput>)
  {
    && (forall i :: 0 <= i < |inputs| ==> inputs[i].owner != "" && 0 < inputs[i].amount)
    && (forall i, j :: 0 <= i < j < |inputs| ==> inputs[i].owner != inputs[j].owner)
  }

  function Checked(inputs: seq<RawInput>): (s: seq<Input>)
    requires Acceptable(inputs)
    ensures |s| == |inputs| && OwnersDistinct(s)
  {
    seq(|inputs|, i requires 0 <= i < |inputs| => Input(inputs[i].owner, inputs[i].amount))
  }

  method Validate(inputs: seq<RawInput>) returns (ok: bool, problem: Problem)
    ensures ok <==> Acceptable(inputs)
  {
    problem := NoLeaves;
    var seen: set<string> := {};
    for i := 0 to |inputs|
      invariant seen == set k | 0 <= k < i :: inputs[k].owner
      invariant Acceptable(inputs[..i])
    {
      var input := inputs[i];
      if input.owner == "" { return false, EmptyOwner; }
      if input.owner in seen {
        var k :| 0 <= k < i && inputs[k].owner == input.owner;
        return false, DuplicateOwner;
      }
      seen := seen + {input.owner};
      if input.amount <= 0 { return false, NonPositive; }
    }
    assert inputs[..|inputs|] == inputs;
    ok := true;
  }

  /** Every owner text is an address. */
  predicate AllKeys(h: Hasher, inputs: seq<RawInput>)
  {
    forall i :: 0 <= i < |inputs| ==> h.isKey(inputs[i].owner)
  }

  predicate Hashable(h: Hasher, input: Input)
  {
    h.isKey(input.owner) && input.amount <= U64_MAX
  }

  /** Hashes every leaf, unless an owner text is no address or an amount does not fit 64 bits. */
  method HashLeaves(h: Hasher, ordered: seq<Input>) returns (ok: bool, hashes: seq<Bytes32>, problem: Problem)
    ensures ok <==> forall i :: 0 <= i < |ordered| ==> Hashable(h, ordered[i])
    ensures ok ==> hashes == LeafHashes(h, ordered)
  {
    hashes, problem := [], NoLeaves;
    for i := 0 to |ordered|
      invariant forall k :: 0 <= k < i ==> Hashable(h, ordered[k])
      invariant hashes == LeafHashes(h, ordered)[..i]
    {
      if !h.isKey(ordered[i].owner) { return false, [], InvalidAddress; }
      if U64_MAX < ordered[i].amount { return false, [], AmountTooLarge; }
      hashes := hashes + [LeafHash(h, ordered[i].owner, ordered[i].amount, IMMEDIATE)];
    }
    ok := true;
  }

  /** Sorted inputs can be hashed exactly when the given ones can. */
  lemma SortedHashable(h: Hasher, inputs: seq<RawInput>)
    requires Acceptable(inputs)
    ensures var ordered := SortByOwner(Checked(inputs));
      && ((forall i :: 0 <= i < |ordered| ==> h.isKey(ordered[i].owner)) <==> AllKeys(h, inputs))
      && (Total(Checked(inputs)) <= U64_MAX ==> forall i :: 0 <= i < |ordered| ==> ordered[i].amount <= U64_MAX)
  {
    hide SortByOwner, Total;
    var given := Checked(inputs);
    var ordered := SortByOwner(given);
    forall i | 0 <= i < |ordered|
      ensures ordered[i].amount <= Total(given) && (AllKeys(h, inputs) ==> h.isKey(ordered[i].owner))
    {
      SortedMember(given, i);
      var k :| 0 <= k < |given| && given[k] == ordered[i];
      assert inputs[k].owner == ordered[i].owner;
    }
    if forall i :: 0 <= i < |ordered| ==> h.isKey(ordered[i].owner) {
      forall i | 0 <= i < |inputs| ensures h.isKey(inputs[i].owner) {
        MemberSorted(given, i);
        assert given[i].owner == inputs[i].owner;
      }
    }
  }

  lemma SortedMember(given: seq<Input>, i: nat)
    requires OwnersDistinct(given) && i < |SortByOwner(given)|
    ensures SortByOwner(given)[i] in given && SortByOwner(given)[i].amount <= Total(given)
  {
    hide SortByOwner, Total, OwnersDistinct, InOrder;
    var ordered := SortByOwner(given);
    SortIsOrderedPermutation(given);
    EachWithinTotal(ordered, i);
    assert ordered[i] in multiset(ordered);
  }

  lemma MemberSorted(given: seq<Input>, i: nat)
    requires OwnersDistinct(given) && i < |given|
    ensures given[i] in SortByOwner(given)
  {
    hide SortByOwner, OwnersDistinct, InOrder;
    SortIsOrderedPermutation(given);
    assert given[i] in multiset(given);
  }

  // ---------- levels and proofs ----------

  ghost predicate Above(h: Hasher, levels: seq<seq<Bytes32>>, d: nat)
    requires d < |levels| - 1
  {
    1 < |levels[d]| && levels[d + 1] == NextLevel(h, levels[d])
  }

  /** Each level is the next level of the one below, up to a single node. */
  ghost predicate LevelsOk(h: Hasher, hashes: seq<Bytes32>, levels: seq<seq<Bytes32>>)
  {
    && levels != [] && levels[0] == hashes
    && (forall d :: 0 <= d < |levels| ==> levels[d] != [])
    && (forall d :: 0 <= d < |levels| - 1 ==> Above(h, levels, d))
    && Root(h, levels[|levels| - 1]) == Root(h, hashes)
  }

  method BuildLevels(h: Hasher, hashes: seq<Bytes32>) returns (levels: seq<seq<Bytes32>>)
    requires hashes != []
    ensures LevelsOk(h, hashes, levels) && |levels[|levels| - 1]| == 1
  {
    levels := [hashes];
    while |levels[|levels| - 1]| > 1
      invariant LevelsOk(h, hashes, levels)
      decreases |levels[|levels| - 1]|
    {
      var next := ComputeNextLevel(h, levels[|levels| - 1]);
      ghost var before := levels;
      levels := levels + [next];
      forall d | 0 <= d < |levels| - 1 ensures Above(h, levels, d) {
        assert d < |before| - 1 ==> Above(h, before, d);
      }
    }
  }

  /** Collects the siblings of one leaf over all levels but the last. */
  method CollectProof(h: Hasher, hashes: seq<Bytes32>, levels: seq<seq<Bytes32>>, index: nat)
    returns (proof: seq<Bytes32>)
    requires index < |hashes| && LevelsOk(h, hashes, levels) && |levels[|levels| - 1]| == 1
    ensures proof == ProofFor(h, hashes, index)
  {
    hide NextLevel, ProofFor;
    proof := [];
    var position: nat := index;
    assert proof + ProofFor(h, levels[0], position) == ProofFor(h, hashes, index);
    for depth := 0 to |levels| - 1
      invariant position < |levels[depth]|
      invariant proof + ProofFor(h, levels[depth], position) == ProofFor(h, hashes, index)
    {
      var level := levels[depth];
      assert Above(h, levels, depth);
      var at := SiblingAt(position);
      ProofStep(h, level, position, proof);
      if at < |level| {
        proof := proof + [level[at]];
      }
      position := position / 2;
    }
    LastProof(h, levels[|levels| - 1], position, proof);
  }

  /** Where the sibling of a position would be. */
  function SiblingAt(position: nat): nat
  {
    if position % 2 == 0 then position + 1 else position - 1
  }

  lemma SiblingIs(level: seq<Bytes32>, position: nat)
    requires position < |level|
    ensures Sibling(level, position) == if SiblingAt(position) < |level| then [level[SiblingAt(position)]] else []
  {
  }

  lemma ProofStep(h: Hasher, level: seq<Bytes32>, position: nat, proof: seq<Bytes32>)
    requires position < |level| && 1 < |level|
    ensures position / 2 < |NextLevel(h, level)|
    ensures proof + ProofFor(h, level, position)
         == (if SiblingAt(position) < |level| then proof + [level[SiblingAt(position)]] else proof)
            + ProofFor(h, NextLevel(h, level), position / 2)
  {
    hide PairHash, Sibling, SiblingAt;
    SiblingIs(level, position);
    var rest := ProofFor(h, NextLevel(h, level), position / 2);
    assert ProofFor(h, level, position) == Sibling(level, position) + rest;
    if SiblingAt(position) < |level| {
      Regroup(proof, Sibling(level, position), rest);
    } else {
      assert [] + rest == rest;
    }
  }

  lemma Regroup(a: seq<Bytes32>, b: seq<Bytes32>, c: seq<Bytes32>)
    ensures a + (b + c) == (a + b) + c
  {
  }

  lemma LastProof(h: Hasher, level: seq<Bytes32>, position: nat, proof: seq<Bytes32>)
    requires position < |level| && |level| == 1
    ensures proof + ProofFor(h, level, position) == proof
  {
  }

  datatype LeafRecord = LeafRecord(owner: string, amount: nat, index: nat, leafHash: Bytes32, proof: seq<Bytes32>)

  datatype Built = Built(root: Bytes32, total: nat, leaves: seq<LeafRecord>) | NotBuilt(problem: Problem)

  /** The leaf of an input at its place in the order, with a proof that any verifier accepts and that is short. */
  ghost predicate LeafOk(h: Hasher, ordered: seq<Input>, root: Bytes32, i: nat, leaf: LeafRecord)
    requires i < |ordered|
  {
    && leaf.owner == ordered[i].owner && leaf.amount == ordered[i].amount && leaf.index == i
    && leaf.leafHash == LeafHash(h, leaf.owner, leaf.amount, IMMEDIATE)
    && Fold(h, leaf.leafHash, leaf.proof) == root
    && forall k: nat :: |ordered| <= Pow2(k) ==> |leaf.proof| <= k
  }

  ghost predicate TreeOk(h: Hasher, ordered: seq<Input>, b: Built)
  {
    && b.Built? && ordered != []
    && b.root == Root(h, LeafHashes(h, ordered))
    && b.total == Total(ordered) <= U64_MAX
    && |b.leaves| == |ordered|
    && forall i :: 0 <= i < |b.leaves| ==> LeafOk(h, ordered, b.root, i, b.leaves[i])
  }

  lemma ProofIsGood(h: Hasher, ordered: seq<Input>, i: nat)
    requires i < |ordered|
    ensures var hashes := LeafHashes(h, ordered);
      LeafOk(h, ordered, Root(h, hashes), i,
             LeafRecord(ordered[i].owner, ordered[i].amount, i, hashes[i], ProofFor(h, hashes, i)))
  {
    var hashes := LeafHashes(h, ordered);
    hide LeafHash, Fold;
    Completeness(h, hashes, i);
    forall k: nat | |ordered| <= Pow2(k) ensures |ProofFor(h, hashes, i)| <= k {
      ProofIsShort(h, hashes, i, k);
    }
  }

  lemma {:induction false} TotalTake(s: seq<Input>, i: nat)
    requires i < |s|
    ensures Total(s[..i + 1]) == Total(s[..i]) + s[i].amount
    decreases |s|
  {
    if i == 0 {
      assert s[..1] == [s[0]] && s[..0] == [];
    } else {
      TotalTake(s[1..], i - 1);
      assert s[..i + 1][1..] == s[1..][..i] && s[..i][1..] == s[1..][..i - 1];
    }
  }

  lemma {:induction false} EachWithinTotal(s: seq<Input>, i: nat)
    requires i < |s|
    ensures s[i].amount <= Total(s)
    decreases |s|
  {
    if i > 0 {
      EachWithinTotal(s[1..], i - 1);
    }
  }

  /** The tree is refused exactly for an empty list, an empty or repeated owner, an owner text that is no address, a
      non-positive amount, or a total that does not fit 64 bits. Otherwise it holds exactly the inputs, in owner order,
      each with a proof that verifies. */
  method BuildCommunityMerkleTree(h: Hasher, inputs: seq<RawInput>) returns (b: Built)
    ensures b.Built? <==>
      inputs != [] && Acceptable(inputs) && AllKeys(h, inputs) && Total(Checked(inputs)) <= U64_MAX
    ensures b.Built? ==> forall i :: 0 <= i < |inputs| ==> inputs[i].owner != "" && 1 <= inputs[i].amount
    ensures b.Built? ==>
      var ordered := SortByOwner(Checked(inputs));
      TreeOk(h, ordered, b) && InOrder(ordered) && multiset(ordered) == multiset(Checked(inputs))
  {
    if inputs == [] { return NotBuilt(NoLeaves); }
    var ok, problem := Validate(inputs);
    if !ok { return NotBuilt(problem); }
    var ordered := SortByOwner(Checked(inputs));
    SortIsOrderedPermutation(Checked(inputs));
    SortedHashable(h, inputs);
    var hashable, hashes, unhashable := HashLeaves(h, ordered);
    if !hashable { return NotBuilt(unhashable); }
    hide SortByOwner, Acceptable, AllKeys, LeafOk, Total, LeafHashes, InOrder;
    LeafHashesAt(h, ordered);
    var root, total, leaves := BuildLeaves(h, ordered, hashes);
    if U64_MAX < total { return NotBuilt(TotalTooLarge); }
    b := Built(root, total, leaves);
  }

  /** The levels above the leaf hashes, the running total, and a proof for every leaf. */
  method BuildLeaves(h: Hasher, ordered: seq<Input>, hashes: seq<Bytes32>)
    returns (root: Bytes32, total: nat, leaves: seq<LeafRecord>)
    requires ordered != [] && hashes == LeafHashes(h, ordered)
    ensures root == Root(h, hashes) && total == Total(ordered) && |leaves| == |ordered|
    ensures forall i :: 0 <= i < |leaves| ==> LeafOk(h, ordered, root, i, leaves[i])
  {
    LeafHashesAt(h, ordered);
    var levels := BuildLevels(h, hashes);
    root := levels[|levels| - 1][0];
    total, leaves := 0, [];
    for index := 0 to |ordered|
      invariant total == Total(ordered[..index]) && |leaves| == index
      invariant forall i :: 0 <= i < index ==> LeafOk(h, ordered, root, i, leaves[i])
    {
      hide LeafOk, LevelsOk, Total, LeafHashes;
      var input := ordered[index];
      TotalTake(ordered, index);
      total := total + input.amount;
      var proof := CollectProof(h, hashes, levels, index);
      ProofIsGood(h, ordered, index);
      leaves := leaves + [LeafRecord(input.owner, input.amount, index, hashes[index], proof)];
    }
    assert ordered[..|ordered|] == ordered;
  }

  lemma LeafHashesAt(h: Hasher, ordered: seq<Input>)
    ensures |LeafHashes(h, ordered)| == |ordered|
  {
  }

  /** Soundness of a built tree: a proof of any length against its root shows one of the given inputs on the immediate
      schedule, or two different hashed strings collide. */
  lemma BuiltTreeIsSound(h: Hasher, inputs: seq<RawInput>, b: Built, owner: string, amount: nat, schedule: seq<Byte>,
                         proof: seq<seq<Byte>>)
    requires Acceptable(inputs) && TreeOk(h, SortByOwner(Checked(inputs)), b) && amount <= U64_MAX && All32(proof)
    requires Fold(h, LeafHash(h, owner, amount, schedule), proof) == b.root
    ensures (&& schedule == [0]
             && exists i :: 0 <= i < |inputs| && h.key(inputs[i].owner) == h.key(owner) && inputs[i].amount == amount)
      || Collide(h, ClaimStrings(h, owner, amount, schedule, proof), BuilderStrings(h, SortByOwner(Checked(inputs))))
  {
    var given := Checked(inputs);
    var ordered := SortByOwner(given);
    hide LeafHash, BuilderStrings, Collide, ClaimStrings, Root, LeafHashes, Fold, SortByOwner, LeafOk, Total;
    forall i | 0 <= i < |ordered| ensures ordered[i].amount <= U64_MAX {
      EachWithinTotal(ordered, i);
    }
    Soundness(h, ordered, owner, amount, schedule, proof);
    if IsInput(h, ordered, owner, amount, schedule) {
      var k :| 0 <= k < |ordered| && h.key(ordered[k].owner) == h.key(owner) && ordered[k].amount == amount;
      SortedMember(given, k);
      var i :| 0 <= i < |given| && given[i] == ordered[k];
      assert inputs[i].amount == amount;
    }
  }
}

/** Nothing but the inputs can be proved against a claim tree's root, unless two of the strings that were hashed
    collide. */
module MerkleSoundness {
  import opened Base
  import opened Bytes
  import opened Merkle
  import opened HashTrees

  datatype Input = Input(owner: string, amount: nat)

  function InputString(h: Hasher, input: Input): seq<Byte>
  {
    LeafString(h, input.owner, input.amount, IMMEDIATE)
  }

  function Leaves(h: Hasher, inputs: seq<Input>): seq<Tree>
  {
    seq(|inputs|, i requires 0 <= i < |inputs| => Leaf(InputString(h, inputs[i])))
  }

  function LeafHashes(h: Hasher, inputs: seq<Input>): seq<Bytes32>
  {
    seq(|inputs|, i requires 0 <= i < |inputs| => LeafHash(h, inputs[i].owner, inputs[i].amount, IMMEDIATE))
  }

  function ClaimTree(h: Hasher, inputs: seq<Input>): Tree
    requires inputs != []
  {
    RootTree(Leaves(h, inputs))
  }

  /** The root built from the leaf hashes is the tree's value, and its leaves are the inputs'. */
  lemma ClaimTreeRoot(h: Hasher, inputs: seq<Input>)
    requires inputs != []
    ensures Root(h, LeafHashes(h, inputs)) == Value(h, ClaimTree(h, inputs))
  {
    assert LeafHashes(h, inputs) == Values(h, Leaves(h, inputs));
    RootIsTreeValue(h, Leaves(h, inputs));
  }

  lemma LeafComesFromInput(h: Hasher, inputs: seq<Input>, leaf: Tree) returns (i: nat)
    requires inputs != [] && leaf.Leaf? && leaf in Subtrees(ClaimTree(h, inputs))
    ensures i < |inputs| && leaf == Leaf(InputString(h, inputs[i]))
  {
    hide InputString, RootTree;
    LeavesComeFromBelow(Leaves(h, inputs), leaf);
    i :| 0 <= i < |inputs| && leaf in Subtrees(Leaves(h, inputs)[i]);
  }

  lemma ClaimTreeLeavesApart(h: Hasher, inputs: seq<Input>)
    requires inputs != []
    ensures LeavesApart(ClaimTree(h, inputs))
  {
    hide ClaimTree;
    forall sub | sub in Subtrees(ClaimTree(h, inputs)) && sub.Leaf? ensures |sub.text| != 64 {
      var i := LeafComesFromInput(h, inputs, sub);
      assert |InputString(h, inputs[i])| == 33;
    }
  }

  /** Every string hashed while building the tree. */
  ghost function BuilderStrings(h: Hasher, inputs: seq<Input>): set<seq<Byte>>
    requires inputs != []
  {
    TreeStrings(h, ClaimTree(h, inputs))
    + set i | 0 <= i < |inputs| :: InnerString(h, inputs[i].owner, inputs[i].amount, IMMEDIATE)
  }

  /** Every string a verifier hashes for a claim. */
  ghost function ClaimStrings(h: Hasher, owner: string, amount: nat, schedule: seq<Byte>, proof: seq<seq<Byte>>)
    : set<seq<Byte>>
  {
    {InnerString(h, owner, amount, schedule), LeafString(h, owner, amount, schedule)}
    + FoldStrings(h, LeafHash(h, owner, amount, schedule), proof)
  }

  ghost predicate AmountsFit(inputs: seq<Input>)
  {
    forall i :: 0 <= i < |inputs| ==> inputs[i].amount <= U64_MAX
  }

  /** Some input has this key and this amount, and the schedule is the immediate one. */
  ghost predicate IsInput(h: Hasher, inputs: seq<Input>, owner: string, amount: nat, schedule: seq<Byte>)
  {
    schedule == IMMEDIATE
    && exists i :: 0 <= i < |inputs| && h.key(inputs[i].owner) == h.key(owner) && inputs[i].amount == amount
  }

  /** A leaf of the tree is an input's, or its inner string collides with an input's. */
  lemma LeafIsInput(h: Hasher, inputs: seq<Input>, owner: string, amount: nat, schedule: seq<Byte>)
    requires inputs != [] && AmountsFit(inputs) && amount <= U64_MAX
    requires Leaf(LeafString(h, owner, amount, schedule)) in Subtrees(ClaimTree(h, inputs))
    ensures IsInput(h, inputs, owner, amount, schedule)
      || Collide(h, {InnerString(h, owner, amount, schedule)}, BuilderStrings(h, inputs))
  {
    var outer := LeafString(h, owner, amount, schedule);
    var i := LeafComesFromInput(h, inputs, Leaf(outer));
    hide ClaimTree, TreeStrings;
    var inner := InnerString(h, owner, amount, schedule);
    var inner' := InnerString(h, inputs[i].owner, inputs[i].amount, IMMEDIATE);
    assert h.digest(inner) == outer[1..] && h.digest(inner') == InputString(h, inputs[i])[1..];
    if inner != inner' {
      assert inner in {inner} && inner' in BuilderStrings(h, inputs);
    } else {
      InnerStringInjective(h, owner, amount, schedule, inputs[i].owner, inputs[i].amount, IMMEDIATE);
    }
  }

  /** Soundness. If any proof of any length folds the leaf of (owner, amount, schedule) to the built root, then an input
      has exactly that key and amount and the schedule is the immediate one, or the verifier and the builder hashed two
      different strings to the same value. */
  lemma Soundness(h: Hasher, inputs: seq<Input>, owner: string, amount: nat, schedule: seq<Byte>, proof: seq<seq<Byte>>)
    requires inputs != [] && AmountsFit(inputs) && amount <= U64_MAX && All32(proof)
    requires Fold(h, LeafHash(h, owner, amount, schedule), proof) == Root(h, LeafHashes(h, inputs))
    ensures IsInput(h, inputs, owner, amount, schedule)
      || Collide(h, ClaimStrings(h, owner, amount, schedule, proof), BuilderStrings(h, inputs))
  {
    var t, text := ClaimTree(h, inputs), LeafString(h, owner, amount, schedule);
    assert |text| == 33;
    hide *;
    var claim, built := ClaimStrings(h, owner, amount, schedule, proof), BuilderStrings(h, inputs);
    StringsOfClaim(h, inputs, owner, amount, schedule, proof);
    ClaimTreeRoot(h, inputs);
    ClaimTreeLeavesApart(h, inputs);
    FoldToRoot(h, t, h.digest(text), proof);
    if IsNodeValue(h, t, h.digest(text)) {
      LeafOfTree(h, t, text);
      if Leaf(text) in Subtrees(t) {
        LeafIsInput(h, inputs, owner, amount, schedule);
        if !IsInput(h, inputs, owner, amount, schedule) {
          CollideMore(h, {InnerString(h, owner, amount, schedule)}, claim, built, built);
        }
      } else {
        CollideMore(h, {text}, claim, TreeStrings(h, t), built);
      }
    } else {
      CollideMore(h, FoldStrings(h, h.digest(text), proof), claim, TreeStrings(h, t), built);
    }
  }

  lemma StringsOfClaim(h: Hasher, inputs: seq<Input>, owner: string, amount: nat, schedule: seq<Byte>,
                       proof: seq<seq<Byte>>)
    requires inputs != []
    ensures LeafHash(h, owner, amount, schedule) == h.digest(LeafString(h, owner, amount, schedule))
    ensures InnerString(h, owner, amount, schedule) in ClaimStrings(h, owner, amount, schedule, proof)
    ensures LeafString(h, owner, amount, schedule) in ClaimStrings(h, owner, amount, schedule, proof)
    ensures FoldStrings(h, LeafHash(h, owner, amount, schedule), proof)
         <= ClaimStrings(h, owner, amount, schedule, proof)
    ensures TreeStrings(h, ClaimTree(h, inputs)) <= BuilderStrings(h, inputs)
  {
    hide FoldStrings, InnerString, ClaimTree, TreeStrings;
  }

  ghost predicate KeysDistinct(h: Hasher, inputs: seq<Input>)
  {
    forall i, j :: 0 <= i < j < |inputs| ==> h.key(inputs[i].owner) != h.key(inputs[j].owner)
  }

  /** Without a collision an owner of the tree can prove exactly one claim: their own amount, at once. */
  lemma OneAmountPerOwner(h: Hasher, inputs: seq<Input>, k: nat, amount: nat, schedule: seq<Byte>,
                          proof: seq<seq<Byte>>)
    requires k < |inputs| && AmountsFit(inputs) && KeysDistinct(h, inputs) && amount <= U64_MAX && All32(proof)
    requires !Collide(h, ClaimStrings(h, inputs[k].owner, amount, schedule, proof), BuilderStrings(h, inputs))
    requires Fold(h, LeafHash(h, inputs[k].owner, amount, schedule), proof) == Root(h, LeafHashes(h, inputs))
    ensures amount == inputs[k].amount && schedule == IMMEDIATE
  {
    hide LeafHash, BuilderStrings, Collide, ClaimStrings, Root, LeafHashes, Fold;
    Soundness(h, inputs, inputs[k].owner, amount, schedule, proof);
    var i :| 0 <= i < |inputs| && h.key(inputs[i].owner) == h.key(inputs[k].owner) && inputs[i].amount == amount;
    assert !(i < k) && !(k < i);
  }
}

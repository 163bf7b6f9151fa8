/** Trees of hashes: folding a proof can only start at a node of the tree, unless two of the strings that were hashed
    collide. Leaves are any strings that cannot be mistaken for a pair. */
module HashTrees {
  import opened Base
  import opened Bytes
  import opened Merkle

  /** The tree behind the levels of hashes; a leaf is the string hashed for it. */
  datatype Tree = Leaf(text: seq<Byte>) | Node(left: Tree, right: Tree)

  function Value(h: Hasher, t: Tree): Bytes32
  {
    match t
    case Leaf(text) => h.digest(text)
    case Node(left, right) => PairHash(h, Value(h, left), Value(h, right))
  }

  /** The string whose hash is the tree's value. */
  function TopString(h: Hasher, t: Tree): seq<Byte>
  {
    match t
    case Leaf(text) => text
    case Node(left, right) => PairString(Value(h, left), Value(h, right))
  }

  function Values(h: Hasher, trees: seq<Tree>): seq<Bytes32>
  {
    seq(|trees|, i requires 0 <= i < |trees| => Value(h, trees[i]))
  }

  function NextTrees(trees: seq<Tree>): seq<Tree>
  {
    seq((|trees| + 1) / 2, i requires 0 <= i < (|trees| + 1) / 2 =>
      if 2 * i + 1 < |trees| then Node(trees[2 * i], trees[2 * i + 1]) else trees[2 * i])
  }

  function RootTree(trees: seq<Tree>): Tree
    requires trees != []
    decreases |trees|
  {
    if |trees| == 1 then trees[0] else RootTree(NextTrees(trees))
  }

  lemma NextLevelIsNextTrees(h: Hasher, trees: seq<Tree>)
    ensures NextLevel(h, Values(h, trees)) == Values(h, NextTrees(trees))
  {
    hide PairHash;
  }

  /** The builder's root is the value of this tree. */
  lemma {:induction false} RootIsTreeValue(h: Hasher, trees: seq<Tree>)
    requires trees != []
    ensures Root(h, Values(h, trees)) == Value(h, RootTree(trees))
    decreases |trees|
  {
    if |trees| > 1 {
      NextLevelIsNextTrees(h, trees);
      RootIsTreeValue(h, NextTrees(trees));
    }
  }

  function Subtrees(t: Tree): set<Tree>
  {
    match t
    case Leaf(_) => {t}
    case Node(left, right) => {t} + Subtrees(left) + Subtrees(right)
  }

  ghost predicate Closed(trees: set<Tree>)
  {
    forall t :: t in trees && t.Node? ==> t.left in trees && t.right in trees
  }

  lemma {:induction false} SubtreesClosed(t: Tree)
    ensures t in Subtrees(t) && Closed(Subtrees(t))
  {
    if t.Node? {
      SubtreesClosed(t.left);
      SubtreesClosed(t.right);
    }
  }

  /** Every leaf of the root tree is a leaf of one of the trees it was built from. */
  lemma {:induction false} LeavesComeFromBelow(trees: seq<Tree>, leaf: Tree)
    requires trees != [] && leaf.Leaf? && leaf in Subtrees(RootTree(trees))
    ensures exists i :: 0 <= i < |trees| && leaf in Subtrees(trees[i])
    decreases |trees|
  {
    if |trees| == 1 {
      assert leaf in Subtrees(trees[0]);
    } else {
      var up := NextTrees(trees);
      LeavesComeFromBelow(up, leaf);
      var j :| 0 <= j < |up| && leaf in Subtrees(up[j]);
      if 2 * j + 1 < |trees| && leaf !in Subtrees(trees[2 * j]) {
        assert leaf in Subtrees(trees[2 * j + 1]);
      } else {
        assert leaf in Subtrees(trees[2 * j]);
      }
    }
  }

  // ---------- the strings that are hashed ----------

  /** Every string hashed while building the tree. */
  function TreeStrings(h: Hasher, t: Tree): set<seq<Byte>>
  {
    match t
    case Leaf(text) => {text}
    case Node(left, right) => {TopString(h, t)} + TreeStrings(h, left) + TreeStrings(h, right)
  }

  /** Every string hashed while folding a proof from `v`. */
  function FoldStrings(h: Hasher, v: seq<Byte>, proof: seq<seq<Byte>>): set<seq<Byte>>
    decreases |proof|
  {
    if proof == [] then {} else {PairString(v, proof[0])} + FoldStrings(h, PairHash(h, v, proof[0]), proof[1..])
  }

  /** A string of `a` and another string of `b` have the same hash. */
  ghost predicate Collide(h: Hasher, a: set<seq<Byte>>, b: set<seq<Byte>>)
  {
    exists x, y :: x in a && y in b && x != y && h.digest(x) == h.digest(y)
  }

  lemma {:induction false} StringsOfSubtree(h: Hasher, t: Tree, sub: Tree)
    requires sub in Subtrees(t)
    ensures TopString(h, sub) in TreeStrings(h, t) && TreeStrings(h, sub) <= TreeStrings(h, t)
    ensures Value(h, sub) == h.digest(TopString(h, sub))
  {
    if t.Node? && sub != t {
      if sub in Subtrees(t.left) {
        StringsOfSubtree(h, t.left, sub);
      } else {
        StringsOfSubtree(h, t.right, sub);
      }
    }
  }

  /** `v` is the value of some subtree of `t`. */
  ghost predicate IsNodeValue(h: Hasher, t: Tree, v: seq<Byte>)
  {
    exists sub :: sub in Subtrees(t) && Value(h, sub) == v
  }

  /** No leaf is as long as a pair of nodes. */
  ghost predicate LeavesApart(t: Tree)
  {
    forall sub :: sub in Subtrees(t) && sub.Leaf? ==> |sub.text| != 64
  }

  /** A pair whose hash is a node value of the tree is made of two node values of the tree, or collides. */
  lemma PairDescends(h: Hasher, t: Tree, v: Bytes32, w: Bytes32)
    requires LeavesApart(t) && IsNodeValue(h, t, PairHash(h, v, w))
    ensures IsNodeValue(h, t, v) || Collide(h, {PairString(v, w)}, TreeStrings(h, t))
  {
    var sub :| sub in Subtrees(t) && Value(h, sub) == PairHash(h, v, w);
    StringsOfSubtree(h, t, sub);
    var x, y := PairString(v, w), TopString(h, sub);
    if x != y {
      assert x in {x};
    } else {
      assert |x| == 64;
      assert sub.Node?;
      PairStringInjective(v, w, Value(h, sub.left), Value(h, sub.right));
      SubtreesClosed(t);
      assert sub.left in Subtrees(t) && sub.right in Subtrees(t);
    }
  }

  lemma CollideMore(h: Hasher, a: set<seq<Byte>>, a': set<seq<Byte>>, b: set<seq<Byte>>, b': set<seq<Byte>>)
    requires Collide(h, a, b) && a <= a' && b <= b'
    ensures Collide(h, a', b')
  {
    var x, y :| x in a && y in b && x != y && h.digest(x) == h.digest(y);
    assert x in a' && y in b';
  }

  /** If folding any proof from `v` reaches a node value, then `v` is a node value, or two hashed strings collide. */
  lemma {:induction false} FoldDescends(h: Hasher, t: Tree, v: Bytes32, proof: seq<seq<Byte>>)
    requires LeavesApart(t) && All32(proof) && IsNodeValue(h, t, Fold(h, v, proof))
    ensures IsNodeValue(h, t, v) || Collide(h, FoldStrings(h, v, proof), TreeStrings(h, t))
    decreases |proof|
  {
    if proof != [] {
      hide PairString, PairHash, TreeStrings, IsNodeValue, Collide, LeavesApart;
      var w: Bytes32 := proof[0];
      var rest := proof[1..];
      FoldDescends(h, t, PairHash(h, v, w), rest);
      if IsNodeValue(h, t, PairHash(h, v, w)) {
        PairDescends(h, t, v, w);
        if !IsNodeValue(h, t, v) {
          CollideMore(h, {PairString(v, w)}, FoldStrings(h, v, proof), TreeStrings(h, t), TreeStrings(h, t));
        }
      } else {
        CollideMore(h, FoldStrings(h, PairHash(h, v, w), rest), FoldStrings(h, v, proof),
                    TreeStrings(h, t), TreeStrings(h, t));
      }
    }
  }

  /** If folding any proof from `v` ends at the tree's value, `v` is a node value, or two hashed strings collide. */
  lemma FoldToRoot(h: Hasher, t: Tree, v: Bytes32, proof: seq<seq<Byte>>)
    requires LeavesApart(t) && All32(proof) && Fold(h, v, proof) == Value(h, t)
    ensures IsNodeValue(h, t, v) || Collide(h, FoldStrings(h, v, proof), TreeStrings(h, t))
  {
    hide Fold, FoldStrings, TreeStrings, Collide, LeavesApart;
    SubtreesClosed(t);
    assert IsNodeValue(h, t, Value(h, t));
    FoldDescends(h, t, v, proof);
  }

  /** A leaf's value is the value of a leaf with the same string, or hashes collide. */
  lemma LeafOfTree(h: Hasher, t: Tree, text: seq<Byte>)
    requires |text| != 64 && IsNodeValue(h, t, h.digest(text))
    ensures Leaf(text) in Subtrees(t) || Collide(h, {text}, TreeStrings(h, t))
  {
    var sub :| sub in Subtrees(t) && Value(h, sub) == h.digest(text);
    StringsOfSubtree(h, t, sub);
    if text != TopString(h, sub) {
      assert text in {text};
    } else {
      assert sub.Leaf?;
    }
  }
}

/** The claim tree: sorted-pair hashing with odd-node promotion, its proofs, and what a proof can and cannot show. */
module Merkle {
  import opened Base
  import opened Bytes

  /** What the tree takes from outside: the hash function, and which address texts decode to which 32 bytes. */
  datatype Hasher = Hasher(digest: seq<Byte> -> Bytes32, isKey: string -> bool, key: string -> Bytes32)

  // ---------- byte order ----------

  predicate Less(a: seq<Byte>, b: seq<Byte>)
  {
    if b == [] then false
    else if a == [] then true
    else a[0] < b[0] || (a[0] == b[0] && Less(a[1..], b[1..]))
  }

  /** `compareBytes`: negative exactly when `a` comes first, zero exactly when they are equal. */
  method CompareBytes(a: seq<Byte>, b: seq<Byte>) returns (d: int)
    ensures d < 0 <==> Less(a, b)
    ensures d == 0 <==> a == b
  {
    var n := Min(|a|, |b|);
    for i := 0 to n
      invariant a[..i] == b[..i]
      invariant Less(a, b) <==> Less(a[i..], b[i..])
    {
      if a[i] != b[i] {
        var x: int, y: int := a[i], b[i];
        return x - y;
      }
      assert a[i..][1..] == a[i + 1..] && b[i..][1..] == b[i + 1..];
    }
    assert a == a[..n] + a[n..] && b == b[..n] + b[n..];
    return |a| - |b|;
  }

  lemma {:induction false} LessIsTotal(a: seq<Byte>, b: seq<Byte>)
    ensures Less(a, b) || Less(b, a) || a == b
    ensures !(Less(a, b) && Less(b, a))
    decreases |a|
  {
    if a != [] && b != [] {
      LessIsTotal(a[1..], b[1..]);
      assert a == [a[0]] + a[1..] && b == [b[0]] + b[1..];
    }
  }

  /** Up to `k` the strings agree; there the first one ends, or has the smaller byte. */
  ghost predicate ComesFirst(a: seq<Byte>, b: seq<Byte>, k: nat)
  {
    && k <= |a| && k < |b| && a[..k] == b[..k]
    && (k == |a| || a[k] < b[k])
  }

  /** The order is the lexicographic one. */
  lemma {:induction false} LessIsLexicographic(a: seq<Byte>, b: seq<Byte>)
    ensures Less(a, b) <==> exists k :: ComesFirst(a, b, k)
    decreases |b|
  {
    if b != [] {
      if a == [] {
        assert ComesFirst(a, b, 0);
      } else {
        LessIsLexicographic(a[1..], b[1..]);
        if Less(a, b) {
          if a[0] < b[0] {
            assert ComesFirst(a, b, 0);
          } else {
            var k: nat :| ComesFirst(a[1..], b[1..], k);
            assert a[..k + 1] == [a[0]] + a[1..][..k] && b[..k + 1] == [b[0]] + b[1..][..k];
            assert ComesFirst(a, b, k + 1);
          }
        }
        if k: nat :| ComesFirst(a, b, k) {
          if k > 0 {
            assert a[0] == a[..k][0] == b[..k][0] == b[0];
            assert a[1..][..k - 1] == a[..k][1..] && b[1..][..k - 1] == b[..k][1..];
            assert ComesFirst(a[1..], b[1..], k - 1);
          }
        }
      }
    }
  }

  // ---------- hashing ----------

  /** The string hashed for a pair of nodes: the smaller first. */
  function PairString(a: seq<Byte>, b: seq<Byte>): seq<Byte>
  {
    if Less(a, b) then a + b else b + a
  }

  function PairHash(h: Hasher, a: seq<Byte>, b: seq<Byte>): Bytes32
  {
    h.digest(PairString(a, b))
  }

  lemma PairHashCommutes(h: Hasher, a: seq<Byte>, b: seq<Byte>)
    ensures PairString(a, b) == PairString(b, a)
    ensures PairHash(h, a, b) == PairHash(h, b, a)
  {
    LessIsTotal(a, b);
  }

  /** A pair of nodes is hashed as 64 bytes: both nodes, the one that comes first in byte order at the front. */
  lemma PairIsHashedInOrder(h: Hasher, a: Bytes32, b: Bytes32) returns (first: Bytes32, second: Bytes32)
    ensures multiset{first, second} == multiset{a, b} && !Less(second, first)
    ensures PairString(a, b) == first + second && PairHash(h, a, b) == h.digest(first + second)
  {
    LessIsTotal(a, b);
    first, second := if Less(a, b) then a else b, if Less(a, b) then b else a;
  }

  /** The same string comes only from the same two nodes. */
  lemma PairStringInjective(a: Bytes32, b: Bytes32, c: Bytes32, d: Bytes32)
    requires PairString(a, b) == PairString(c, d)
    ensures (a == c && b == d) || (a == d && b == c)
  {
    var s := PairString(a, b);
    assert s[..32] == if Less(a, b) then a else b;
    assert s[32..] == if Less(a, b) then b else a;
    assert s[..32] == if Less(c, d) then c else d;
    assert s[32..] == if Less(c, d) then d else c;
  }

  /** The schedule every leaf of a built tree carries: claimable at once. */
  const IMMEDIATE: seq<Byte> := [0]

  /** Claimant, amount and vesting schedule. */
  function InnerString(h: Hasher, owner: string, amount: nat, schedule: seq<Byte>): seq<Byte>
  {
    h.key(owner) + LittleEndian(amount, 8) + schedule
  }

  function LeafString(h: Hasher, owner: string, amount: nat, schedule: seq<Byte>): seq<Byte>
  {
    [0] + h.digest(InnerString(h, owner, amount, schedule))
  }

  function LeafHash(h: Hasher, owner: string, amount: nat, schedule: seq<Byte>): Bytes32
  {
    h.digest(LeafString(h, owner, amount, schedule))
  }

  /** The same string comes only from the same key, amount and schedule, however long the schedules are. */
  lemma InnerStringInjective(h: Hasher, owner: string, amount: nat, schedule: seq<Byte>,
                             owner': string, amount': nat, schedule': seq<Byte>)
    requires amount <= U64_MAX && amount' <= U64_MAX
    requires InnerString(h, owner, amount, schedule) == InnerString(h, owner', amount', schedule')
    ensures h.key(owner) == h.key(owner') && amount == amount' && schedule == schedule'
  {
    var s := InnerString(h, owner, amount, schedule);
    assert s[..32] == h.key(owner) && s[..32] == h.key(owner');
    assert s[32..40] == LittleEndian(amount, 8) && s[32..40] == LittleEndian(amount', 8);
    assert s[40..] == schedule && s[40..] == schedule';
    U64Fits(amount);
    U64Fits(amount');
    LittleEndianRoundTrip(amount, 8);
    LittleEndianRoundTrip(amount', 8);
  }

  /** A leaf is hashed twice: the claimant's 32 bytes, the amount as eight bytes from the least significant on and the
      schedule, then the result behind a zero byte. */
  lemma LeafIsHashedTwice(h: Hasher, owner: string, amount: nat, schedule: seq<Byte>) returns (inner: seq<Byte>)
    ensures |inner| == 40 + |schedule| && inner[..32] == h.key(owner) && inner[40..] == schedule
    ensures forall i: nat :: i < 8 ==> inner[32 + i] == amount / Pow256(i) % 256
    ensures LeafHash(h, owner, amount, schedule) == h.digest([0] + h.digest(inner))
  {
    inner := InnerString(h, owner, amount, schedule);
    forall i: nat | i < 8 ensures inner[32 + i] == amount / Pow256(i) % 256 {
      LittleEndianDigit(amount, 8, i);
      assert inner[32 + i] == LittleEndian(amount, 8)[i];
    }
  }

  // ---------- proofs ----------

  function Fold(h: Hasher, leaf: seq<Byte>, proof: seq<seq<Byte>>): seq<Byte>
    decreases |proof|
  {
    if proof == [] then leaf else Fold(h, PairHash(h, leaf, proof[0]), proof[1..])
  }

  datatype Verdict = Verified(ok: bool) | WrongLength

  predicate All32(proof: seq<seq<Byte>>)
  {
    forall i :: 0 <= i < |proof| ==> |proof[i]| == 32
  }

  /** `verifyCommunityProof`: true exactly when hashing the siblings in, one after the other, ends at the root. */
  method VerifyCommunityProof(h: Hasher, leaf: seq<Byte>, proof: seq<seq<Byte>>, root: seq<Byte>) returns (v: Verdict)
    ensures v.WrongLength? <==> |leaf| != 32 || |root| != 32 || !All32(proof)
    ensures v.Verified? ==> (v.ok <==> Fold(h, leaf, proof) == root)
  {
    if |leaf| != 32 { return WrongLength; }
    var hash := leaf;
    for i := 0 to |proof|
      invariant |hash| == 32 && All32(proof[..i])
      invariant Fold(h, hash, proof[i..]) == Fold(h, leaf, proof)
    {
      if |proof[i]| != 32 { return WrongLength; }
      assert proof[i..][1..] == proof[i + 1..];
      hash := PairHash(h, hash, proof[i]);
    }
    assert proof[..|proof|] == proof;
    if |root| != 32 { return WrongLength; }
    var d := CompareBytes(hash, root);
    return Verified(|hash| == |root| && d == 0);
  }

  // ---------- levels ----------

  /** Pairs are hashed; an odd last node moves up unchanged. */
  function NextLevel(h: Hasher, level: seq<Bytes32>): seq<Bytes32>
  {
    seq((|level| + 1) / 2, i requires 0 <= i < (|level| + 1) / 2 =>
      if 2 * i + 1 < |level| then PairHash(h, level[2 * i], level[2 * i + 1]) else level[2 * i])
  }

  method ComputeNextLevel(h: Hasher, level: seq<Bytes32>) returns (out: seq<Bytes32>)
    ensures out == NextLevel(h, level)
    ensures 2 * |out| == |level| + |level| % 2
    ensures forall i :: 0 <= i < |out| ==>
      out[i] == if 2 * i + 1 < |level| then PairHash(h, level[2 * i], level[2 * i + 1]) else level[2 * i]
  {
    out := [];
    var i := 0;
    while i < |level|
      invariant i % 2 == 0 && 0 <= i <= |level| + 1
      invariant |out| == i / 2 && i / 2 <= (|level| + 1) / 2
      invariant forall k :: 0 <= k < |out| ==> out[k] == NextLevel(h, level)[k]
    {
      if i + 1 < |level| {
        out := out + [PairHash(h, level[i], level[i + 1])];
      } else {
        out := out + [level[i]];
      }
      i := i + 2;
    }
  }

  function Root(h: Hasher, level: seq<Bytes32>): Bytes32
    requires level != []
    decreases |level|
  {
    if |level| == 1 then level[0] else Root(h, NextLevel(h, level))
  }

  /** The sibling of a position, if the level has one. */
  function Sibling(level: seq<Bytes32>, position: nat): seq<Bytes32>
    requires position < |level|
  {
    if position % 2 == 1 then [level[position - 1]]
    else if position + 1 < |level| then [level[position + 1]]
    else []
  }

  function ProofFor(h: Hasher, level: seq<Bytes32>, position: nat): seq<Bytes32>
    requires position < |level|
    decreases |level|
  {
    if |level| == 1 then [] else Sibling(level, position) + ProofFor(h, NextLevel(h, level), position / 2)
  }

  function Pow2(k: nat): nat
  {
    if k == 0 then 1 else 2 * Pow2(k - 1)
  }

  /** One level up: folding the sibling, if there is one, gives the parent. */
  lemma FoldSibling(h: Hasher, level: seq<Bytes32>, position: nat, rest: seq<seq<Byte>>)
    requires position < |level|
    ensures Fold(h, level[position], Sibling(level, position) + rest)
         == Fold(h, NextLevel(h, level)[position / 2], rest)
  {
    hide PairHash;
    var sibling := Sibling(level, position);
    if sibling == [] {
      assert sibling + rest == rest;
    } else {
      assert (sibling + rest)[1..] == rest;
      PairHashCommutes(h, level[position], sibling[0]);
    }
  }

  /** Whatever the hash function, every generated proof folds its leaf to the root, odd promotions included. */
  lemma {:induction false} Completeness(h: Hasher, level: seq<Bytes32>, position: nat)
    requires position < |level|
    ensures Fold(h, level[position], ProofFor(h, level, position)) == Root(h, level)
    decreases |level|
  {
    if |level| > 1 {
      var up := NextLevel(h, level);
      Completeness(h, up, position / 2);
      FoldSibling(h, level, position, ProofFor(h, up, position / 2));
    }
  }

  /** A proof is no longer than any `k` with `2^k >= n`. */
  lemma {:induction false} ProofIsShort(h: Hasher, level: seq<Bytes32>, position: nat, k: nat)
    requires position < |level| <= Pow2(k)
    ensures |ProofFor(h, level, position)| <= k
    decreases |level|
  {
    hide NextLevel, Sibling;
    if |level| > 1 {
      LevelHalves(h, level, position);
      ProofIsShort(h, NextLevel(h, level), position / 2, k - 1);
    }
  }

  lemma LevelHalves(h: Hasher, level: seq<Bytes32>, position: nat)
    requires position < |level|
    ensures |NextLevel(h, level)| == (|level| + 1) / 2
    ensures |Sibling(level, position)| <= 1
  {
  }

  /** Three leaves show the promotion: the third moves up and is paired with the hash of the first two. */
  lemma RootOfThree(h: Hasher, a: Bytes32, b: Bytes32, c: Bytes32)
    ensures Root(h, [a, b, c]) == PairHash(h, PairHash(h, a, b), c)
  {
    hide PairHash;
    assert NextLevel(h, [a, b, c]) == [PairHash(h, a, b), c];
    assert NextLevel(h, [PairHash(h, a, b), c]) == [PairHash(h, PairHash(h, a, b), c)];
    assert Root(h, [PairHash(h, a, b), c]) == Root(h, [PairHash(h, PairHash(h, a, b), c)]);
  }
}

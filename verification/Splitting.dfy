/** Dividing one commitment over several wallets never pays. */
module Splitting {
  import opened Base
  import opened Floors
  import opened Sums
  import opened Escrow
  import opened EscrowInvariant
  import opened EscrowOutcomes

  /** The floored acceptance of each commitment. */
  ghost function AcceptedOf(m: map<Pubkey, nat>, total: nat, hard: nat): map<Pubkey, nat>
  {
    map o | o in m :: Accepted(m[o], total, hard)
  }

  lemma SplitAcceptedAtMost(parts: map<Pubkey, nat>, total: nat, hard: nat)
    ensures Sum(AcceptedOf(parts, total, hard)) <= Accepted(Sum(parts), total, hard)
  {
    if total <= hard {
      assert AcceptedOf(parts, total, hard) == parts;
    } else {
      assert AcceptedOf(parts, total, hard) == Scaled(parts, hard, total);
      ScaledSplit(parts, hard, total);
    }
  }

  /** A smaller accepted amount is a smaller part of the settled whole, although the whole shrinks with it. */
  lemma SmallerPartOfSmallerWhole(a': nat, a: nat, rest: nat, reserve: nat)
    requires a' <= a && 0 < a' + rest
    ensures ProRata(a', reserve, a' + rest) <= ProRata(a, reserve, a + rest)
  {
    MulLe(a', a, rest);
    ProductSplits(a', a, rest);
    HigherRate(reserve, a', a' + rest, a, a + rest);
    Commute(a', reserve, a' + rest);
    Commute(a, reserve, a + rest);
  }

  lemma Commute(x: nat, p: nat, b: nat)
    requires 0 < b
    ensures ProRata(x, p, b) == ProRata(p, x, b)
  {
    assert x * p == p * x;
  }

  lemma ProductSplits(a': nat, a: nat, rest: nat)
    ensures a' * (a + rest) == a' * a + a' * rest && a * (a' + rest) == a' * a + a * rest
  {
  }

  lemma SplitTokensAtMost(parts: map<Pubkey, nat>, amount: nat, rest: nat, reserve: nat)
    requires Sum(parts) <= amount && 0 < Sum(parts) + rest
    ensures Sum(Scaled(parts, reserve, Sum(parts) + rest)) <= ProRata(amount, reserve, amount + rest)
  {
    ScaledSplit(parts, reserve, Sum(parts) + rest);
    SmallerPartOfSmallerWhole(Sum(parts), amount, rest, reserve);
  }

  ghost predicate FullySettled(s: State)
  {
    Valid(s) && 0 < s.c.receiptCount && s.c.settledCount == s.c.receiptCount
  }

  /** What the receipts of `who` were accepted for. */
  ghost function AcceptedBy(s: State, who: set<Pubkey>): map<Pubkey, nat>
  {
    map o | o in s.receipts && o in who :: s.receipts[o].accepted
  }

  /** The participant tokens owed to the receipts of `who`, out of `reserve`. */
  ghost function TokensOf(s: State, who: set<Pubkey>, reserve: nat): map<Pubkey, nat>
    requires 0 < s.c.settledAccepted
  {
    Scaled(AcceptedBy(s, who), reserve, s.c.settledAccepted)
  }

  lemma AcceptedByIs(s: State, m: map<Pubkey, nat>)
    requires FullySettled(s)
    requires forall o :: o in m ==> o in s.receipts && s.receipts[o].committed == m[o]
    ensures AcceptedBy(s, m.Keys) == AcceptedOf(m, s.c.total, s.c.hard)
  {
    forall o | o in m ensures s.receipts[o].accepted == Accepted(m[o], s.c.total, s.c.hard) {
      AllSettled(s, o);
      assert ReceiptOk(s.c, s.clock, s.receipts[o]);
    }
  }

  /** The settled total is the part accepted from `m` plus the part accepted from the others. */
  lemma SettledInTwoParts(s: State, m: map<Pubkey, nat>, others: map<Pubkey, nat>)
    requires FullySettled(s) && m.Keys !! others.Keys && Committed(s.receipts) == others + m
    ensures s.c.total == Sum(others) + Sum(m)
    ensures AcceptedBy(s, m.Keys) == AcceptedOf(m, s.c.total, s.c.hard)
    ensures s.c.settledAccepted == Sum(AcceptedBy(s, m.Keys)) + Sum(AcceptedOf(others, s.c.total, s.c.hard))
  {
    hide Accepted, Sum;
    var all := Committed(s.receipts);
    SumUnion(others, m);
    forall o | o in m ensures o in s.receipts && s.receipts[o].committed == m[o] {
      assert all[o] == m[o];
    }
    forall o | o in others ensures o in s.receipts && s.receipts[o].committed == others[o] {
      assert all[o] == others[o];
    }
    AcceptedByIs(s, m);
    var aM, aO := AcceptedOf(m, s.c.total, s.c.hard), AcceptedOf(others, s.c.total, s.c.hard);
    SumUnion(aO, aM);
    FullySettledTotal(s);
    assert AcceptedParts(s.receipts, s.c.total, s.c.hard) == aO + aM by {
      PartsOfUnion(s, others, m);
    }
  }

  lemma PartsOfUnion(s: State, others: map<Pubkey, nat>, m: map<Pubkey, nat>)
    requires m.Keys !! others.Keys && Committed(s.receipts) == others + m
    ensures AcceptedParts(s.receipts, s.c.total, s.c.hard)
         == AcceptedOf(others, s.c.total, s.c.hard) + AcceptedOf(m, s.c.total, s.c.hard)
  {
    hide Accepted;
    var all := Committed(s.receipts);
    assert s.receipts.Keys == all.Keys;
    assert forall o :: o in s.receipts ==> s.receipts[o].committed == all[o];
  }

  /** Two settled campaigns that differ only in `owner` having divided their commitment over `parts`: the divided
      wallets together are accepted for no more SOL and receive no more participant tokens. */
  lemma SplittingNeverGains(s: State, t: State, others: map<Pubkey, nat>, owner: Pubkey, parts: map<Pubkey, nat>,
                            reserve: nat)
    requires FullySettled(s) && FullySettled(t) && s.c.hard == t.c.hard
    requires owner !in others && parts.Keys !! others.Keys
    requires Committed(s.receipts) == others + map[owner := Sum(parts)]
    requires Committed(t.receipts) == others + parts
    requires 0 < t.c.settledAccepted
    ensures owner in s.receipts && 0 < s.c.settledAccepted
    ensures Sum(AcceptedBy(t, parts.Keys)) <= s.receipts[owner].accepted
    ensures Sum(TokensOf(t, parts.Keys, reserve)) <= ProRata(s.receipts[owner].accepted, reserve, s.c.settledAccepted)
  {
    hide Accepted, FullySettled, Scaled, Committed, ProRata, Sum, AcceptedOf, AcceptedBy;
    WholeCommitment(s, others, owner, Sum(parts));
    SettledInTwoParts(t, parts, others);
    SplitAcceptedAtMost(parts, t.c.total, t.c.hard);
    SplitTokensAtMost(AcceptedBy(t, parts.Keys), s.receipts[owner].accepted,
                      Sum(AcceptedOf(others, s.c.total, s.c.hard)), reserve);
  }

  lemma WholeCommitment(s: State, others: map<Pubkey, nat>, owner: Pubkey, amount: nat)
    requires FullySettled(s) && owner !in others && Committed(s.receipts) == others + map[owner := amount]
    ensures owner in s.receipts && s.c.total == Sum(others) + amount
    ensures s.receipts[owner].accepted == Accepted(amount, s.c.total, s.c.hard)
    ensures s.c.settledAccepted == s.receipts[owner].accepted + Sum(AcceptedOf(others, s.c.total, s.c.hard))
  {
    hide Accepted, FullySettled;
    var whole: map<Pubkey, nat> := map[owner := amount];
    assert owner in Committed(s.receipts);
    SettledInTwoParts(s, whole, others);
    Singleton(owner, amount);
    Singleton(owner, s.receipts[owner].accepted);
    assert AcceptedBy(s, whole.Keys) == map[owner := s.receipts[owner].accepted];
    assert AcceptedOf(whole, s.c.total, s.c.hard)[owner] == Accepted(amount, s.c.total, s.c.hard);
  }

  lemma Singleton(owner: Pubkey, n: nat)
    ensures Sum(map[owner := n]) == n
  {
    var m: map<Pubkey, nat> := map[owner := n];
    SumRemove(m, owner);
    assert m - {owner} == map[];
  }
}

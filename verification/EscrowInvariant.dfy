/** The escrow's invariant: receipt sums, frozen settlement amounts, phases and solvency. */
module EscrowInvariant {
  import opened Base
  import opened Sums
  import opened Escrow

  ghost function Committed(rs: map<Pubkey, Receipt>): map<Pubkey, nat> { map o | o in rs :: rs[o].committed }
  ghost function Refunds(rs: map<Pubkey, Receipt>): map<Pubkey, nat> { map o | o in rs :: rs[o].refunded }
  ghost function Accepteds(rs: map<Pubkey, Receipt>): map<Pubkey, nat> { map o | o in rs :: rs[o].accepted }
  ghost function Settleds(rs: map<Pubkey, Receipt>): map<Pubkey, nat>
  {
    map o | o in rs :: if rs[o].settled then 1 else 0
  }

  ghost predicate TermsOk(c: Campaign)
  {
    0 < c.soft <= c.hard && c.deadline < c.launchDeadline && c.supply == FIXED_SUPPLY
  }

  /** The campaign's counters are the sums over its receipts. */
  ghost predicate CountersOk(c: Campaign, rs: map<Pubkey, Receipt>)
  {
    && c.total == Sum(Committed(rs)) <= U64_MAX
    && c.refunded == Sum(Refunds(rs))
    && c.receiptCount == |rs| <= U64_MAX
    && c.settledCount == Sum(Settleds(rs))
    && c.settledAccepted == Sum(Accepteds(rs))
  }

  ghost predicate ReceiptOk(c: Campaign, now: int, r: Receipt)
  {
    && 0 < r.committed
    && r.accepted == (if r.settled then Accepted(r.committed, c.total, c.hard) else 0)
    && r.refunded <= r.committed
    && (c.phase != Failed ==> r.refunded == 0 || r.refunded == Refundable(r.committed, c.total, c.hard, false))
    && (now < c.deadline ==> !r.settled && r.refunded == 0)
    && (c.phase == Launched ==> r.settled)
    && (r.claimed ==> c.phase == Launched)
  }

  ghost predicate ReceiptsOk(c: Campaign, now: int, rs: map<Pubkey, Receipt>)
  {
    forall o :: o in rs ==> ReceiptOk(c, now, rs[o])
  }

  ghost predicate PhaseOk(c: Campaign, now: int)
  {
    && (now < c.deadline ==> c.phase == Open)
    && (c.phase == Closed ==> c.soft <= c.total)
    && (c.phase == Failed ==> HasFailed(c, now))
    && (c.phase == Launched ==> c.soft <= c.total && c.settledCount == c.receiptCount && c.soft <= c.settledAccepted)
    && (c.phase == Launched ==> c.launchTime <= now)
    && (c.activated <==> c.phase == Launched && c.distribution)
    && (0 < c.receiptCount ==> c.parentsConfigured)
  }

  /** What the escrow still holds for its receipts: commitments less refunds, less what the launch took. */
  ghost predicate Solvent(s: State)
  {
    && s.rent + s.c.total <= s.lamports + s.c.refunded + (if s.c.phase == Launched then s.c.settledAccepted else 0)
    && s.lamports + s.elsewhere <= U64_MAX
  }

  ghost predicate Valid(s: State)
  {
    && TermsOk(s.c)
    && CountersOk(s.c, s.receipts)
    && ReceiptsOk(s.c, s.clock, s.receipts)
    && PhaseOk(s.c, s.clock)
    && Solvent(s)
  }

  lemma CreateIsValid(soft: nat, hard: nat, deadline: int, launchDeadline: int, supply: nat, distribution: bool,
                      keysSet: bool, lamports: nat, elsewhere: nat, clock: int, rent: nat)
    requires rent <= lamports && lamports + elsewhere <= U64_MAX
    ensures var out := Create(soft, hard, deadline, launchDeadline, supply, distribution, keysSet, lamports, elsewhere,
                              clock, rent);
      && (out.Done? <==> supply == FIXED_SUPPLY && keysSet && 0 < soft <= hard && clock < deadline < launchDeadline)
      && (out.Done? ==>
            Valid(out.state) && out.state.c.phase == Open && !out.state.c.activated && out.state.receipts == map[])
  {
    var none: map<Pubkey, Receipt> := map[];
    assert Committed(none) == Refunds(none) == Accepteds(none) == Settleds(none) == map[];
  }

  ghost function Was(rs: map<Pubkey, Receipt>, o: Pubkey): Receipt { if o in rs then rs[o] else NEW_RECEIPT }

  /** Replacing one receipt moves every sum by that receipt's difference. */
  lemma SumsAfter(rs: map<Pubkey, Receipt>, o: Pubkey, r: Receipt)
    ensures Sum(Committed(rs[o := r])) == Sum(Committed(rs)) - Was(rs, o).committed + r.committed
    ensures Sum(Refunds(rs[o := r])) == Sum(Refunds(rs)) - Was(rs, o).refunded + r.refunded
  {
    assert Committed(rs[o := r]) == Committed(rs)[o := r.committed];
    SumUpdate(Committed(rs), o, r.committed);
    assert Refunds(rs[o := r]) == Refunds(rs)[o := r.refunded];
    SumUpdate(Refunds(rs), o, r.refunded);
  }

  lemma SettledSumsAfter(rs: map<Pubkey, Receipt>, o: Pubkey, r: Receipt)
    ensures Sum(Accepteds(rs[o := r])) == Sum(Accepteds(rs)) - Was(rs, o).accepted + r.accepted
    ensures Sum(Settleds(rs[o := r])) ==
      Sum(Settleds(rs)) - (if Was(rs, o).settled then 1 else 0) + (if r.settled then 1 else 0)
  {
    assert Accepteds(rs[o := r]) == Accepteds(rs)[o := r.accepted];
    SumUpdate(Accepteds(rs), o, r.accepted);
    var flag: nat := if r.settled then 1 else 0;
    assert Settleds(rs[o := r]) == Settleds(rs)[o := flag];
    SumUpdate(Settleds(rs), o, flag);
  }

  lemma CountAfter(rs: map<Pubkey, Receipt>, o: Pubkey, r: Receipt)
    ensures |rs[o := r]| == |rs| + if o in rs then 0 else 1
  {
    assert rs[o := r].Keys == rs.Keys + {o};
  }

  /** The floored pro-rata acceptances of a whole campaign, settled or not. */
  ghost function AcceptedParts(rs: map<Pubkey, Receipt>, total: nat, hard: nat): map<Pubkey, nat>
  {
    map o | o in rs :: Accepted(rs[o].committed, total, hard)
  }

  /** All acceptances together stay within the cap and the total, and lose less than a lamport each to rounding. */
  lemma AcceptedPartsBounds(rs: map<Pubkey, Receipt>, hard: nat)
    requires 0 < Sum(Committed(rs))
    ensures var total := Sum(Committed(rs)); var all := Sum(AcceptedParts(rs, total, hard));
      all <= Min(total, hard) < all + |rs|
  {
    var m := Committed(rs);
    var total := Sum(m);
    assert m != map[];
    assert m.Keys == rs.Keys;
    assert |m| == |rs|;
    if total <= hard {
      assert AcceptedParts(rs, total, hard) == m;
    } else {
      assert AcceptedParts(rs, total, hard) == Scaled(m, hard, total);
      ScaledSumOfWhole(m, hard);
    }
  }

  /** Settled acceptances are the acceptances of the settled receipts, so they never exceed the whole. */
  lemma SettledWithinCap(s: State)
    requires Valid(s)
    ensures s.c.settledAccepted <= Sum(AcceptedParts(s.receipts, s.c.total, s.c.hard)) <= Min(s.c.total, s.c.hard)
    ensures s.c.settledCount <= s.c.receiptCount
  {
    hide Sum, Accepted, Refundable;
    SettledWithinParts(s.c, s.clock, s.receipts);
    PartsWithinCap(s.receipts, s.c.total, s.c.hard);
    FlagsWithinCount(s.receipts);
  }

  lemma SettledWithinParts(c: Campaign, now: int, rs: map<Pubkey, Receipt>)
    requires ReceiptsOk(c, now, rs)
    ensures Sum(Accepteds(rs)) <= Sum(AcceptedParts(rs, c.total, c.hard))
  {
    hide Sum, Accepted, Refundable;
    forall o | o in rs ensures rs[o].accepted <= Accepted(rs[o].committed, c.total, c.hard) {
      assert ReceiptOk(c, now, rs[o]);
    }
    SumLe(Accepteds(rs), AcceptedParts(rs, c.total, c.hard));
  }

  lemma PartsWithinCap(rs: map<Pubkey, Receipt>, total: nat, hard: nat)
    requires total == Sum(Committed(rs))
    ensures Sum(AcceptedParts(rs, total, hard)) <= Min(total, hard)
  {
    if total > 0 {
      AcceptedPartsBounds(rs, hard);
    } else {
      SumLe(AcceptedParts(rs, total, hard), Committed(rs));
    }
  }

  lemma FlagsWithinCount(rs: map<Pubkey, Receipt>)
    ensures Sum(Settleds(rs)) <= |rs|
  {
    hide Sum;
    var ones: map<Pubkey, nat> := map o | o in rs :: 1;
    SumLe(Settleds(rs), ones);
    assert ones.Keys == rs.Keys;
    SumConstant(ones, 1);
  }

  lemma CommitKeepsValid(s: State, owner: Pubkey, amount: nat, sequence: nat, held: nat, receiptRent: nat)
    requires Valid(s)
    ensures var out := Commit(s, owner, amount, sequence, held, receiptRent); out.Done? ==> Valid(out.state)
  {
    hide CountersOk, ReceiptsOk, Sum;
    var out := Commit(s, owner, amount, sequence, held, receiptRent);
    if out.Done? {
      CommitCounts(s, out.state, owner, amount);
      CommitReceipts(s, out.state, owner, amount);
    }
  }

  /** The committed receipt, old or new, has grown by the amount. */
  ghost predicate Grown(s: State, s': State, owner: Pubkey, amount: nat)
  {
    var r := Was(s.receipts, owner);
    && owner in s'.receipts && s'.receipts == s.receipts[owner := s'.receipts[owner]]
    && s'.receipts[owner] == r.(committed := r.committed + amount, sequence := r.sequence + 1)
    && s'.c == s.c.(total := s.c.total + amount, receiptCount := s'.c.receiptCount)
  }

  lemma CommitCounts(s: State, s': State, owner: Pubkey, amount: nat)
    requires CountersOk(s.c, s.receipts) && Grown(s, s', owner, amount)
    requires s'.c.receiptCount == s.c.receiptCount + if owner in s.receipts then 0 else 1
    requires s'.c.total <= U64_MAX && (owner !in s.receipts ==> s'.c.receiptCount <= U64_MAX)
    ensures CountersOk(s'.c, s'.receipts)
  {
    hide Sum;
    SumsAfter(s.receipts, owner, s'.receipts[owner]);
    SettledSumsAfter(s.receipts, owner, s'.receipts[owner]);
    CountAfter(s.receipts, owner, s'.receipts[owner]);
  }

  /** Before the deadline nothing is settled or refunded, so a growing total leaves every receipt in order. */
  lemma CommitReceipts(s: State, s': State, owner: Pubkey, amount: nat)
    requires ReceiptsOk(s.c, s.clock, s.receipts) && Grown(s, s', owner, amount)
    requires 0 < amount && s.c.phase == Open && s.clock < s.c.deadline && s'.clock == s.clock
    ensures ReceiptsOk(s'.c, s'.clock, s'.receipts)
  {
    forall o | o in s'.receipts ensures ReceiptOk(s'.c, s'.clock, s'.receipts[o]) {
      if o in s.receipts {
        assert ReceiptOk(s.c, s.clock, s.receipts[o]);
      }
    }
  }

  lemma CloseKeepsValid(s: State)
    requires Valid(s)
    ensures Close(s).Done? ==> Valid(Close(s).state)
  {
    if Close(s).Done? {
      var s' := Close(s).state;
      forall o | o in s'.receipts ensures ReceiptOk(s'.c, s'.clock, s'.receipts[o]) {
        assert ReceiptOk(s.c, s.clock, s.receipts[o]);
      }
    }
  }

  /** No settlement amount changes and the phase does not leave an outcome. */
  ghost predicate SameTerms(c: Campaign, c': Campaign)
  {
    && c'.total == c.total && c'.hard == c.hard && c'.deadline == c.deadline
    && (c'.phase == c.phase || (c.phase != Failed && c.phase != Launched && c'.phase != Launched))
  }

  lemma StillOk(c: Campaign, c': Campaign, now: int, r: Receipt)
    requires SameTerms(c, c') && ReceiptOk(c, now, r)
    ensures ReceiptOk(c', now, r)
  {
  }

  lemma ReplaceReceiptOk(c: Campaign, c': Campaign, now: int, rs: map<Pubkey, Receipt>, owner: Pubkey, r': Receipt)
    requires SameTerms(c, c') && ReceiptsOk(c, now, rs) && ReceiptOk(c', now, r')
    ensures ReceiptsOk(c', now, rs[owner := r'])
  {
    var rs' := rs[owner := r'];
    forall o | o in rs' ensures ReceiptOk(c', now, rs'[o]) {
      if o != owner {
        StillOk(c, c', now, rs[o]);
      }
    }
  }

  /** Replacing one receipt by a good one keeps the receipt part of the invariant, if the counters move with it. */
  lemma ReplaceReceipt(s: State, c': Campaign, owner: Pubkey, r': Receipt)
    requires Valid(s) && owner in s.receipts && SameTerms(s.c, c')
    requires ReceiptOk(c', s.clock, r') && r'.committed == s.receipts[owner].committed
    requires c'.receiptCount == s.c.receiptCount
    requires c'.refunded == s.c.refunded - s.receipts[owner].refunded + r'.refunded
    requires c'.settledAccepted == s.c.settledAccepted - s.receipts[owner].accepted + r'.accepted
    requires c'.settledCount ==
      s.c.settledCount - (if s.receipts[owner].settled then 1 else 0) + (if r'.settled then 1 else 0)
    ensures CountersOk(c', s.receipts[owner := r'])
    ensures ReceiptsOk(c', s.clock, s.receipts[owner := r'])
  {
    SumsAfter(s.receipts, owner, r');
    SettledSumsAfter(s.receipts, owner, r');
    CountAfter(s.receipts, owner, r');
    ReplaceReceiptOk(s.c, c', s.clock, s.receipts, owner, r');
  }

  lemma RefundedReceiptOk(s: State, owner: Pubkey)
    requires Valid(s) && owner in s.receipts && s.c.deadline <= s.clock
    ensures var r := s.receipts[owner];
      ReceiptOk(s.c.(phase := RefundPhase(s)), s.clock, r.(refunded := Entitled(s, r)))
  {
    assert ReceiptOk(s.c, s.clock, s.receipts[owner]);
  }

  lemma RefundKeepsValid(s: State, owner: Pubkey, held: nat)
    requires Valid(s)
    ensures Refund(s, owner, held).Done? ==> Valid(Refund(s, owner, held).state)
  {
    var out := Refund(s, owner, held);
    if out.Done? && out.state != s {
      RefundedReceiptOk(s, owner);
      ReplaceReceipt(s, out.state.c, owner, out.state.receipts[owner]);
    }
  }

  lemma SettleKeepsValid(s: State, owner: Pubkey)
    requires Valid(s)
    ensures Settle(s, owner).Done? ==> Valid(Settle(s, owner).state)
  {
    var out := Settle(s, owner);
    if out.Done? && out.state != s {
      var r := s.receipts[owner];
      assert ReceiptOk(s.c, s.clock, r);
      assert ReceiptOk(out.state.c, s.clock, out.state.receipts[owner]);
      ReplaceReceipt(s, out.state.c, owner, out.state.receipts[owner]);
      SettledWithinCap(s);
    }
  }

  /** A launch-ready campaign has every receipt settled: the settled count leaves no receipt out. */
  lemma AllSettled(s: State, o: Pubkey)
    requires Valid(s) && s.c.settledCount == s.c.receiptCount && o in s.receipts
    ensures s.receipts[o].settled
  {
    hide Sum, ReceiptsOk;
    var ones: map<Pubkey, nat> := map k | k in s.receipts :: 1;
    assert ones.Keys == s.receipts.Keys;
    SumConstant(ones, 1);
    var flags := Settleds(s.receipts);
    SumRemove(ones, o);
    SumRemove(flags, o);
    SumLe(flags - {o}, ones - {o});
  }

  lemma LaunchKeepsValid(s: State, others: bool, held: nat)
    requires Valid(s)
    ensures Launch(s, others, held).Done? ==> Valid(Launch(s, others, held).state)
  {
    var out := Launch(s, others, held);
    if out.Done? {
      var s' := out.state;
      forall o | o in s'.receipts ensures ReceiptOk(s'.c, s'.clock, s'.receipts[o]) {
        assert ReceiptOk(s.c, s.clock, s.receipts[o]);
        AllSettled(s, o);
      }
    }
  }

  lemma OtherStepsKeepValid(s: State, a: Action)
    requires Valid(s) && (a.DoConfigure? || a.Pass? || a.Donate?)
    ensures Valid(Step(s, a))
  {
    var s' := Step(s, a);
    forall o | o in s'.receipts ensures ReceiptOk(s'.c, s'.clock, s'.receipts[o]) {
      assert ReceiptOk(s.c, s.clock, s.receipts[o]);
    }
  }

  lemma StepKeepsValid(s: State, a: Action)
    requires Valid(s)
    ensures Valid(Step(s, a))
  {
    match a
    case DoCommit(owner, amount, sequence, held, receiptRent) =>
      CommitKeepsValid(s, owner, amount, sequence, held, receiptRent);
    case DoClose => CloseKeepsValid(s);
    case DoRefund(owner, held) => RefundKeepsValid(s, owner, held);
    case DoSettle(owner) => SettleKeepsValid(s, owner);
    case DoLaunch(others, held) => LaunchKeepsValid(s, others, held);
    case _ => OtherStepsKeepValid(s, a);
  }

  /** Every interleaving of instructions, donations and passing time keeps the invariant. */
  lemma {:induction false} RunKeepsValid(s: State, actions: seq<Action>)
    requires Valid(s)
    ensures Valid(Run(s, actions))
    decreases |actions|
  {
    if actions != [] {
      StepKeepsValid(s, actions[0]);
      RunKeepsValid(Step(s, actions[0]), actions[1..]);
    }
  }
}

/** What each escrow instruction does and when it is accepted, said from the accounts alone: amounts to the lamport,
    roundings as inequalities, and everything that stays as it was. */
module EscrowEffects {
  import opened Base
  import opened Floors
  import opened Sums
  import opened Escrow
  import opened EscrowInvariant
  import opened EscrowOutcomes

  // ---------- creation, configuration, time ----------

  /** A created campaign has exactly the given terms and nothing else. */
  lemma CreateIsExact(soft: nat, hard: nat, deadline: int, launchDeadline: int, distribution: bool, lamports: nat,
                      elsewhere: nat, clock: int, rent: nat)
    requires 0 < soft <= hard && clock < deadline < launchDeadline
    ensures var out := Create(soft, hard, deadline, launchDeadline, 1_000_000_000_000_000, distribution, true, lamports,
                              elsewhere, clock, rent);
      && out.Done?
      && var s, c := out.state, out.state.c;
         && c.soft == soft && c.hard == hard && c.deadline == deadline && c.launchDeadline == launchDeadline
         && c.total == c.refunded == c.receiptCount == c.settledCount == c.settledAccepted == 0
         && c.phase == Open && c.supply == 1_000_000_000_000_000 && c.launchTime == 0
         && c.distribution == distribution && !c.activated && !c.parentsConfigured
         && s.receipts == map[] && s.lamports == lamports && s.elsewhere == elsewhere
         && s.clock == clock && s.rent == rent
  {
  }

  /** Parents can be configured exactly before the deadline and before the first commitment, and only that is noted. */
  lemma ConfigureIsExact(s: State, valid: bool)
    requires Valid(s)
    ensures var out := Perform(s, DoConfigure(valid));
      && (out.Done? <==> valid && s.clock < s.c.deadline && s.receipts == map[])
      && (out.Done? ==> out.state == s.(c := out.state.c) && out.state.c == s.c.(parentsConfigured := true))
  {
    hide Sum;
    if s.receipts == map[] {
      assert Committed(s.receipts) == map[];
      NothingSums();
    } else {
      var o :| o in s.receipts;
      assert ReceiptOk(s.c, s.clock, s.receipts[o]);
      SumElement(Committed(s.receipts), o);
    }
  }

  lemma NothingSums()
    ensures var none: map<Pubkey, nat> := map[]; Sum(none) == 0
  {
  }

  lemma PassAndDonateAreExact(s: State, n: nat)
    ensures Step(s, Pass(n)) == s.(clock := s.clock + n)
    ensures n <= s.elsewhere ==> Step(s, Donate(n)) == s.(lamports := s.lamports + n, elsewhere := s.elsewhere - n)
  {
  }

  // ---------- commitments ----------

  /** Before the deadline nothing was paid back, so the escrow holds every commitment. */
  lemma NothingRefundedYet(s: State)
    requires Valid(s) && s.clock < s.c.deadline
    ensures s.c.refunded == 0 && s.c.phase == Open && s.rent + s.c.total <= s.lamports
  {
    hide Sum;
    forall o | o in s.receipts ensures s.receipts[o].refunded == 0 {
      assert ReceiptOk(s.c, s.clock, s.receipts[o]);
    }
    SumConstant(Refunds(s.receipts), 0);
  }

  /** Every receipt holds at least a lamport, so there are no more receipts than lamports committed. */
  lemma ReceiptsWithinTotal(s: State)
    requires Valid(s)
    ensures s.c.receiptCount <= s.c.total
  {
    hide Sum;
    var ones: map<Pubkey, nat> := map o | o in s.receipts :: 1;
    forall o | o in s.receipts ensures 1 <= s.receipts[o].committed {
      assert ReceiptOk(s.c, s.clock, s.receipts[o]);
    }
    SumConstant(ones, 1);
    SumLe(ones, Committed(s.receipts));
    assert ones.Keys == s.receipts.Keys;
    assert |ones| == |ones.Keys|;
  }

  lemma CommittedWithinTotal(s: State, owner: Pubkey)
    requires Valid(s) && owner in s.receipts
    ensures s.receipts[owner].committed <= s.c.total
  {
    hide Sum;
    SumElement(Committed(s.receipts), owner);
  }

  /** The sequence number a wallet has to name next. */
  ghost function NextSequence(s: State, owner: Pubkey): nat
  {
    if owner in s.receipts then s.receipts[owner].sequence else 0
  }

  /** What a commitment costs the wallet: a new one also pays for its receipt. */
  ghost function Cost(s: State, owner: Pubkey, amount: nat, receiptRent: nat): nat
  {
    if owner in s.receipts then amount else amount + receiptRent
  }

  /** A commitment is accepted exactly before the deadline of a configured campaign, for a positive amount under the
      next sequence number that the wallet can pay. No other check can fail: totals and counts that fit the ledger's
      lamports fit 64 bits. */
  lemma CommitAcceptance(s: State, owner: Pubkey, amount: nat, sequence: nat, held: nat, receiptRent: nat)
    requires Valid(s) && held <= s.elsewhere
    ensures Perform(s, DoCommit(owner, amount, sequence, held, receiptRent)).Done? <==>
      && s.clock < s.c.deadline && s.c.parentsConfigured && 0 < amount
      && sequence == NextSequence(s, owner) && sequence < 0xFFFF_FFFF_FFFF_FFFF
      && Cost(s, owner, amount, receiptRent) <= held
  {
    if s.clock < s.c.deadline {
      NothingRefundedYet(s);
      ReceiptsWithinTotal(s);
      if owner in s.receipts {
        CommittedWithinTotal(s, owner);
      }
    }
    hide CountersOk, ReceiptsOk;
  }

  /** An accepted commitment books and takes exactly its amount, once: one receipt grows by it, the sequence advances by
      one, the count only for a new wallet; nothing else changes. */
  lemma CommitIsExact(s: State, owner: Pubkey, amount: nat, sequence: nat, held: nat, receiptRent: nat)
    requires Perform(s, DoCommit(owner, amount, sequence, held, receiptRent)).Done?
    ensures var s' := Step(s, DoCommit(owner, amount, sequence, held, receiptRent));
      && s'.lamports == s.lamports + amount && s'.elsewhere == s.elsewhere - amount
      && s'.clock == s.clock && s'.rent == s.rent
      && s'.c == s.c.(total := s.c.total + amount,
                      receiptCount := if owner in s.receipts then s.c.receiptCount else s.c.receiptCount + 1)
      && s'.receipts == s.receipts[owner :=
           if owner in s.receipts
           then s.receipts[owner].(committed := s.receipts[owner].committed + amount,
                                   sequence := s.receipts[owner].sequence + 1)
           else Receipt(amount, 0, 1, false, 0, false)]
  {
  }

  /** What a wallet has committed so far. */
  ghost function CommittedBy(s: State, owner: Pubkey): nat
  {
    if owner in s.receipts then s.receipts[owner].committed else 0
  }

  /** The amounts of a wallet's accepted commitments in a run. */
  ghost function Deposits(s: State, actions: seq<Action>, owner: Pubkey): nat
    decreases |actions|
  {
    if actions == [] then 0
    else
      var a := actions[0];
      (if a.DoCommit? && a.owner == owner && Perform(s, a).Done? then a.amount else 0)
      + Deposits(Step(s, a), actions[1..], owner)
  }

  lemma StepDeposits(s: State, a: Action, owner: Pubkey)
    ensures CommittedBy(Step(s, a), owner)
         == CommittedBy(s, owner) + if a.DoCommit? && a.owner == owner && Perform(s, a).Done? then a.amount else 0
  {
    hide Entitled, Accepted;
  }

  /** Over any run a receipt holds exactly what its wallet deposited: refunds, settlements and other wallets never
      change what was committed. */
  lemma {:induction false} RunBooksDeposits(s: State, actions: seq<Action>, owner: Pubkey)
    ensures CommittedBy(Run(s, actions), owner) == CommittedBy(s, owner) + Deposits(s, actions, owner)
    decreases |actions|
  {
    hide Step, Perform, CommittedBy;
    if actions != [] {
      StepDeposits(s, actions[0], owner);
      RunBooksDeposits(Step(s, actions[0]), actions[1..], owner);
    }
  }

  // ---------- closing, refunds ----------

  /** Whether a refund is full: the soft cap was missed, or the launch deadline passed without a launch. */
  ghost predicate Lost(s: State)
  {
    s.c.total < s.c.soft || (s.c.launchDeadline <= s.clock && s.c.phase != Launched)
  }

  /** Closing is accepted from the deadline on and only records the phase. */
  lemma CloseIsExact(s: State)
    requires Valid(s)
    ensures Perform(s, DoClose).Done? <==> s.c.deadline <= s.clock
    ensures var s' := Step(s, DoClose);
      && s' == s.(c := s'.c) && s'.c == s.c.(phase := s'.c.phase)
      && (s.c.deadline <= s.clock ==>
            s'.c.phase == if s.c.phase == Launched then Launched else if Lost(s) then Failed else Closed)
  {
    hide CountersOk, ReceiptsOk;
  }

  /** `kept` is the largest part of `committed` that the hard cap leaves in proportion. */
  ghost predicate Proportional(kept: nat, committed: nat, total: nat, hard: nat)
  {
    if total <= hard then kept == committed
    else kept * total <= committed * hard < (kept + 1) * total
  }

  lemma AcceptedIsProportional(committed: nat, total: nat, hard: nat)
    ensures Proportional(Accepted(committed, total, hard), committed, total, hard)
  {
    if hard < total {
      ShareBounds(committed, hard, total);
      ShareAtMostBalance(committed, hard, total);
    }
  }

  lemma EntitledIs(s: State, r: Receipt)
    ensures Entitled(s, r) <= r.committed
    ensures Lost(s) ==> Entitled(s, r) == r.committed
    ensures !Lost(s) ==> Proportional(r.committed - Entitled(s, r), r.committed, s.c.total, s.c.hard)
  {
    if !Lost(s) {
      AcceptedIsProportional(r.committed, s.c.total, s.c.hard);
    }
  }

  /** A refund is accepted exactly from the deadline on for a registered wallet. Afterwards the wallet has everything
      back if the campaign is lost, and otherwise all but its proportional part; the difference moved, and nothing
      else. */
  lemma RefundIsExact(s: State, owner: Pubkey, held: nat)
    requires Valid(s) && held <= s.elsewhere
    ensures var out := Perform(s, DoRefund(owner, held));
      && (out.Done? <==> s.c.deadline <= s.clock && owner in s.receipts)
      && (out.Done? ==>
            var s', r := out.state, s.receipts[owner];
            && owner in s'.receipts
            && var back := s'.receipts[owner].refunded;
               && r.refunded <= back <= r.committed
               && (Lost(s) ==> back == r.committed)
               && (!Lost(s) ==> Proportional(r.committed - back, r.committed, s.c.total, s.c.hard))
               && s'.receipts == s.receipts[owner := r.(refunded := back)]
               && s'.lamports == s.lamports - (back - r.refunded) && s'.elsewhere == s.elsewhere + (back - r.refunded)
               && s'.c == s.c.(refunded := s.c.refunded + (back - r.refunded), phase := s'.c.phase)
               && s'.clock == s.clock && s'.rent == s.rent)
  {
    if s.c.deadline <= s.clock && owner in s.receipts {
      RefundNeverRefused(s, owner, held);
      EntitlementCoversRefunds(s, owner);
      EntitledIs(s, s.receipts[owner]);
      RefundMoves(s, owner, held);
    }
    hide Valid, Entitled, Lost;
  }

  lemma RefundMoves(s: State, owner: Pubkey, held: nat)
    requires Refund(s, owner, held).Done?
    ensures var s', r := Refund(s, owner, held).state, s.receipts[owner];
      && s'.receipts == s.receipts[owner := r.(refunded := Entitled(s, r))]
      && s'.lamports == s.lamports - (Entitled(s, r) - r.refunded)
      && s'.elsewhere == s.elsewhere + (Entitled(s, r) - r.refunded)
      && s'.c == s.c.(refunded := s.c.refunded + (Entitled(s, r) - r.refunded), phase := s'.c.phase)
      && s'.clock == s.clock && s'.rent == s.rent
  {
    hide Entitled;
    var r := s.receipts[owner];
    if Entitled(s, r) == r.refunded {
      assert s.receipts[owner := r] == s.receipts;
    }
  }

  // ---------- settlement, launch ----------

  /** A settlement is accepted exactly from the deadline on for a registered wallet; it accepts the proportional part of
      the commitment, once, and counts it. */
  lemma SettleIsExact(s: State, owner: Pubkey)
    requires Valid(s)
    ensures var out := Perform(s, DoSettle(owner));
      && (out.Done? <==> s.c.deadline <= s.clock && owner in s.receipts)
      && (out.Done? ==>
            var s', r := out.state, s.receipts[owner];
            if r.settled then s' == s
            else
              && owner in s'.receipts
              && var accepted := s'.receipts[owner].accepted;
                 && Proportional(accepted, r.committed, s.c.total, s.c.hard)
                 && s'.receipts == s.receipts[owner := r.(settled := true, accepted := accepted)]
                 && s'.c == s.c.(settledCount := s.c.settledCount + 1,
                                 settledAccepted := s.c.settledAccepted + accepted)
                 && s' == s.(c := s'.c, receipts := s'.receipts))
  {
    if s.c.deadline <= s.clock && owner in s.receipts {
      SettleNeverRefused(s, owner);
      AcceptedIsProportional(s.receipts[owner].committed, s.c.total, s.c.hard);
    }
    hide Valid, Accepted;
  }

  lemma SettledIffCounted(s: State)
    requires Valid(s)
    ensures s.c.settledCount == s.c.receiptCount <==> forall o :: o in s.receipts ==> s.receipts[o].settled
    ensures 0 < s.c.receiptCount <==> s.receipts != map[]
  {
    if s.c.settledCount == s.c.receiptCount {
      forall o | o in s.receipts ensures s.receipts[o].settled {
        AllSettled(s, o);
      }
    }
    hide Sum, ReceiptsOk;
    if forall o :: o in s.receipts ==> s.receipts[o].settled {
      var flags := Settleds(s.receipts);
      SumConstant(flags, 1);
      assert flags.Keys == s.receipts.Keys;
      assert |flags| == |flags.Keys|;
    }
  }

  /** Between the deadlines, not yet decided, every receipt settled and enough accepted. */
  ghost predicate MayLaunch(s: State)
  {
    && s.c.deadline <= s.clock < s.c.launchDeadline
    && (s.c.phase == Open || s.c.phase == Closed)
    && s.receipts != map[] && (forall o :: o in s.receipts ==> s.receipts[o].settled)
    && s.c.soft <= s.c.total && s.c.soft <= s.c.settledAccepted
  }

  /** A launch is accepted exactly then, so only before the launch deadline; it moves exactly the settled SOL and stamps
      the time. */
  lemma LaunchIsExact(s: State, others: bool, held: nat)
    requires Valid(s) && held <= s.elsewhere
    ensures var out := Perform(s, DoLaunch(others, held));
      && (out.Done? <==> others && MayLaunch(s))
      && (out.Done? ==>
            out.state == s.(c := s.c.(phase := Launched, launchTime := s.clock, activated := s.c.distribution),
                            lamports := s.lamports - s.c.settledAccepted,
                            elsewhere := s.elsewhere + s.c.settledAccepted))
  {
    SettledIffCounted(s);
    ReadyIsMayLaunch(s);
    hide Valid, MayLaunch;
    if Ready(s.c, s.clock) {
      LaunchNeverUnderfunded(s, held);
    }
  }

  lemma ReadyIsMayLaunch(s: State)
    requires Valid(s)
    ensures Ready(s.c, s.clock) <==> MayLaunch(s)
    ensures MayLaunch(s) ==> s.c.parentsConfigured
  {
    SettledIffCounted(s);
    hide CountersOk, ReceiptsOk, Solvent;
  }

  // ---------- refusals ----------

  /** Which error a commitment gets, in the order of the checks. */
  lemma CommitRefusals(s: State, owner: Pubkey, amount: nat, sequence: nat, held: nat, receiptRent: nat)
    requires Valid(s) && held <= s.elsewhere
    ensures var out := Perform(s, DoCommit(owner, amount, sequence, held, receiptRent));
      if s.c.deadline <= s.clock then out == Refused(Custom(2))
      else if !s.c.parentsConfigured then out == Refused(Custom(22))
      else if amount == 0 then out == Refused(Custom(3))
      else if sequence != NextSequence(s, owner) then out == Refused(Custom(4))
      else if sequence == 0xFFFF_FFFF_FFFF_FFFF then out == Refused(Custom(10))
      else Cost(s, owner, amount, receiptRent) <= held || out == Refused(InsufficientFunds)
           || out == Refused(Custom(10))
  {
    if s.clock < s.c.deadline {
      NothingRefundedYet(s);
    }
    hide CountersOk, ReceiptsOk;
  }

  /** Before the deadline closing, refunding and settling get error 5; unknown wallets are no accounts of the
      campaign; a launch that may not happen gets error 21. */
  lemma OtherRefusals(s: State, owner: Pubkey, held: nat, others: bool)
    requires Valid(s) && held <= s.elsewhere
    ensures s.clock < s.c.deadline ==> Perform(s, DoClose) == Refused(Custom(5))
    ensures owner !in s.receipts ==>
      Perform(s, DoRefund(owner, held)) == Perform(s, DoSettle(owner)) == Refused(InvalidAccount)
    ensures owner in s.receipts && s.clock < s.c.deadline ==>
      Perform(s, DoRefund(owner, held)) == Perform(s, DoSettle(owner)) == Refused(Custom(5))
    ensures !(others && MayLaunch(s)) ==> Perform(s, DoLaunch(others, held)) == Refused(Custom(21))
  {
    SettledIffCounted(s);
    hide CountersOk, ReceiptsOk;
  }
}

/** What the escrow guarantees over whole runs: refunds are always payable, settlement cannot get stuck and does not
    depend on its order, launching and failing exclude each other. */
module EscrowOutcomes {
  import opened Base
  import opened Sums
  import opened Escrow
  import opened EscrowInvariant

  // ---------- refunds ----------

  /** What one receipt could still withdraw at this moment. */
  ghost function OwedTo(s: State, r: Receipt): nat
  {
    if r.refunded <= Entitled(s, r) then Entitled(s, r) - r.refunded else 0
  }

  ghost function Owed(s: State): map<Pubkey, nat>
  {
    map o | o in s.receipts :: OwedTo(s, s.receipts[o])
  }

  /** The subtraction in tag 3 never underflows. */
  lemma EntitlementCoversRefunds(s: State, o: Pubkey)
    requires Valid(s) && o in s.receipts
    ensures s.receipts[o].refunded <= Entitled(s, s.receipts[o])
  {
    assert ReceiptOk(s.c, s.clock, s.receipts[o]);
  }

  ghost function Entitlements(s: State): map<Pubkey, nat>
  {
    map o | o in s.receipts :: Entitled(s, s.receipts[o])
  }

  lemma EntitlementsBound(s: State)
    requires Valid(s)
    ensures Sum(Entitlements(s)) + (if s.c.phase == Launched then s.c.settledAccepted else 0) <= s.c.total
  {
    if s.c.phase == Launched {
      forall o | o in s.receipts
        ensures s.receipts[o].committed == s.receipts[o].accepted + Entitled(s, s.receipts[o])
      {
        assert ReceiptOk(s.c, s.clock, s.receipts[o]);
      }
      SumAdd(Accepteds(s.receipts), Entitlements(s), Committed(s.receipts));
    } else {
      SumLe(Entitlements(s), Committed(s.receipts));
    }
  }

  /** The escrow holds its rent plus everything it could be asked to pay back, all receipts together. */
  lemma OwedIsCovered(s: State)
    requires Valid(s)
    ensures s.rent + Sum(Owed(s)) <= s.lamports
    ensures Sum(Owed(s)) + s.c.refunded <= s.c.total
  {
    forall o | o in s.receipts ensures s.receipts[o].refunded <= Entitled(s, s.receipts[o]) {
      EntitlementCoversRefunds(s, o);
    }
    SumAdd(Owed(s), Refunds(s.receipts), Entitlements(s));
    EntitlementsBound(s);
  }

  lemma OneIsCovered(s: State, owner: Pubkey)
    requires Valid(s) && owner in s.receipts
    ensures var amount := Entitled(s, s.receipts[owner]) - s.receipts[owner].refunded;
      0 <= amount && s.rent + amount <= s.lamports && s.c.refunded + amount <= U64_MAX
  {
    EntitlementCoversRefunds(s, owner);
    OwedIsCovered(s);
    SumElement(Owed(s), owner);
  }

  /** After the deadline a registered receipt's refund is never refused: not for funds, not for underflow, not for the
      destination's balance. It pays exactly what is missing up to the entitlement and leaves the rent in place. */
  lemma RefundNeverRefused(s: State, owner: Pubkey, held: nat)
    requires Valid(s) && s.c.deadline <= s.clock && owner in s.receipts && held <= s.elsewhere
    ensures Refund(s, owner, held).Done?
    ensures var s', r := Refund(s, owner, held).state, s.receipts[owner];
      && s'.receipts == s.receipts[owner := Paid(s, r)]
      && s'.lamports + s'.c.refunded == s.lamports + s.c.refunded
      && s'.elsewhere - s.elsewhere == s.lamports - s'.lamports == Entitled(s, r) - r.refunded
      && s.rent <= s'.lamports
      && s'.c == s.c.(phase := s'.c.phase, refunded := s'.c.refunded) && s'.clock == s.clock
      && s.elsewhere <= s'.elsewhere
      && (forall r: Receipt :: Entitled(s', r) == Entitled(s, r))
  {
    OneIsCovered(s, owner);
    RefundPays(s, owner, held);
  }

  lemma RefundPays(s: State, owner: Pubkey, held: nat)
    requires s.c.deadline <= s.clock && owner in s.receipts && held <= s.elsewhere
    requires s.lamports + s.elsewhere <= U64_MAX
    requires var amount := Entitled(s, s.receipts[owner]) - s.receipts[owner].refunded;
      0 <= amount && s.rent + amount <= s.lamports && s.c.refunded + amount <= U64_MAX
    ensures Refund(s, owner, held).Done?
    ensures var s', r := Refund(s, owner, held).state, s.receipts[owner];
      && s'.receipts == s.receipts[owner := Paid(s, r)]
      && s'.lamports + s'.c.refunded == s.lamports + s.c.refunded
      && s'.elsewhere - s.elsewhere == s.lamports - s'.lamports == Entitled(s, r) - r.refunded
      && s.rent <= s'.lamports
      && s'.c == s.c.(phase := s'.c.phase, refunded := s'.c.refunded) && s'.clock == s.clock
      && s.elsewhere <= s'.elsewhere
      && (forall r: Receipt :: Entitled(s', r) == Entitled(s, r))
  {
    assert s.receipts[owner := s.receipts[owner]] == s.receipts;
  }

  /** Every instruction of the run is accepted. */
  ghost predicate AllDone(s: State, actions: seq<Action>)
    decreases |actions|
  {
    actions == [] || (Perform(s, actions[0]).Done? && AllDone(Step(s, actions[0]), actions[1..]))
  }

  datatype Request = Request(owner: Pubkey, held: nat)

  function Refunding(requests: seq<Request>): (actions: seq<Action>)
    ensures |actions| == |requests|
  {
    if requests == [] then [] else [DoRefund(requests[0].owner, requests[0].held)] + Refunding(requests[1..])
  }

  ghost predicate Registered(s: State, requests: seq<Request>)
  {
    forall q :: q in requests ==> q.owner in s.receipts && q.held <= s.elsewhere
  }

  ghost function Named(requests: seq<Request>): set<Pubkey>
  {
    if requests == [] then {} else {requests[0].owner} + Named(requests[1..])
  }

  ghost function Paid(s: State, r: Receipt): Receipt
  {
    r.(refunded := Entitled(s, r))
  }

  ghost function PaidOut(s: State, who: set<Pubkey>): map<Pubkey, Receipt>
  {
    map o | o in s.receipts :: if o in who then Paid(s, s.receipts[o]) else s.receipts[o]
  }

  /** Paying one receipt and then others is paying them all; entitlements do not move meanwhile. */
  lemma PaidOutOneMore(s: State, s1: State, owner: Pubkey, who: set<Pubkey>)
    requires owner in s.receipts && s1.receipts == s.receipts[owner := Paid(s, s.receipts[owner])]
    requires forall r: Receipt :: Entitled(s1, r) == Entitled(s, r)
    ensures PaidOut(s1, who) == PaidOut(s, {owner} + who)
  {
  }

  /** Refunds in any order, repeated or not, are all accepted, and each named receipt ends with its full entitlement. */
  lemma {:induction false} RefundsInAnyOrder(s: State, requests: seq<Request>)
    requires Valid(s) && s.c.deadline <= s.clock && Registered(s, requests)
    ensures AllDone(s, Refunding(requests))
    ensures Run(s, Refunding(requests)).receipts == PaidOut(s, Named(requests))
    decreases |requests|
  {
    hide Valid, Entitled, HasFailed, Refund, Refundable;
    if requests == [] {
      assert PaidOut(s, {}) == s.receipts;
    } else {
      var q, rest := requests[0], requests[1..];
      var s1 := Step(s, DoRefund(q.owner, q.held));
      RefundNeverRefused(s, q.owner, q.held);
      RefundKeepsValid(s, q.owner, q.held);
      assert Registered(s1, rest);
      RefundsInAnyOrder(s1, rest);
      PaidOutOneMore(s, s1, q.owner, Named(rest));
      assert Refunding(requests)[1..] == Refunding(rest);
    }
  }

  /** A failed campaign whose receipts were all refunded has paid back every committed lamport. */
  lemma FailureRefundsEverything(s: State, requests: seq<Request>)
    requires Valid(s) && s.c.deadline <= s.clock && HasFailed(s.c, s.clock) && Registered(s, requests)
    requires Named(requests) == s.receipts.Keys
    ensures Run(s, Refunding(requests)).c.refunded == s.c.total
  {
    hide Valid, Entitled, Run, AllDone, Sum;
    RefundsInAnyOrder(s, requests);
    RunKeepsValid(s, Refunding(requests));
    RefundedIsSum(s);
    RefundedIsSum(Run(s, Refunding(requests)));
    AllPaidInFull(s);
  }

  lemma RefundedIsSum(s: State)
    requires Valid(s)
    ensures s.c.refunded == Sum(Refunds(s.receipts)) && s.c.total == Sum(Committed(s.receipts))
  {
  }

  lemma AllPaidInFull(s: State)
    requires HasFailed(s.c, s.clock)
    ensures Refunds(PaidOut(s, s.receipts.Keys)) == Committed(s.receipts)
  {
  }

  // ---------- settlement ----------

  /** Errors 10 and 11 of tag 4 are unreachable: a registered receipt can always be settled after the deadline. */
  lemma SettleNeverRefused(s: State, owner: Pubkey)
    requires Valid(s) && s.c.deadline <= s.clock && owner in s.receipts
    ensures Settle(s, owner).Done?
  {
    if !s.receipts[owner].settled {
      RoomToSettle(s, owner);
    }
  }

  lemma RoomToSettle(s: State, owner: Pubkey)
    requires Valid(s) && owner in s.receipts && !s.receipts[owner].settled
    ensures s.c.settledCount + 1 <= s.c.receiptCount
    ensures s.c.settledAccepted + Accepted(s.receipts[owner].committed, s.c.total, s.c.hard) <= Min(s.c.total, s.c.hard)
  {
    hide Accepted, Refundable;
    var r := s.receipts[owner];
    assert ReceiptOk(s.c, s.clock, r);
    var done := s.receipts[owner := SettledReceipt(s.c, r)];
    SettledSumsAfter(s.receipts, owner, done[owner]);
    forall o | o in s.receipts ensures done[o].accepted <= Accepted(s.receipts[o].committed, s.c.total, s.c.hard) {
      assert ReceiptOk(s.c, s.clock, s.receipts[o]);
    }
    CountersBound(done, s.receipts, s.c.total, s.c.hard);
    SettledWithinCap(s);
  }

  lemma CountersBound(done: map<Pubkey, Receipt>, rs: map<Pubkey, Receipt>, total: nat, hard: nat)
    requires done.Keys == rs.Keys
    requires forall o :: o in rs ==> done[o].accepted <= Accepted(rs[o].committed, total, hard)
    ensures Sum(Accepteds(done)) <= Sum(AcceptedParts(rs, total, hard))
    ensures Sum(Settleds(done)) <= |rs|
  {
    SumLe(Accepteds(done), AcceptedParts(rs, total, hard));
    var ones: map<Pubkey, nat> := map o | o in rs :: 1;
    assert ones.Keys == rs.Keys;
    SumConstant(ones, 1);
    SumLe(Settleds(done), ones);
  }

  ghost function SettledReceipt(c: Campaign, r: Receipt): Receipt
  {
    if r.settled then r else r.(settled := true, accepted := Accepted(r.committed, c.total, c.hard))
  }

  /** The state in which exactly the receipts of `who` have been settled on top of `s`. */
  ghost function SettledBy(s: State, who: set<Pubkey>): State
  {
    var rs := map o | o in s.receipts :: if o in who then SettledReceipt(s.c, s.receipts[o]) else s.receipts[o];
    s.(receipts := rs, c := s.c.(settledCount := Sum(Settleds(rs)), settledAccepted := Sum(Accepteds(rs))))
  }

  function Settlements(order: seq<Pubkey>): (actions: seq<Action>)
    ensures |actions| == |order|
  {
    if order == [] then [] else [DoSettle(order[0])] + Settlements(order[1..])
  }

  lemma SettledOneReceipts(s: State, owner: Pubkey)
    requires owner in s.receipts
    ensures SettledBy(s, {owner}).receipts == s.receipts[owner := SettledReceipt(s.c, s.receipts[owner])]
    ensures s.receipts[owner := s.receipts[owner]] == s.receipts
  {
    hide Accepted;
  }

  lemma SettleOne(s: State, owner: Pubkey)
    requires Valid(s) && s.c.deadline <= s.clock && owner in s.receipts
    ensures Step(s, DoSettle(owner)) == SettledBy(s, {owner})
  {
    hide Accepted, Refundable, Sum;
    SettleNeverRefused(s, owner);
    var r := s.receipts[owner];
    SettledSumsAfter(s.receipts, owner, SettledReceipt(s.c, r));
    assert !r.settled ==> r.accepted == 0 by {
      assert ReceiptOk(s.c, s.clock, r);
    }
    SettledOneReceipts(s, owner);
  }

  lemma SettledByBoth(s: State, a: set<Pubkey>, b: set<Pubkey>)
    ensures SettledBy(SettledBy(s, a), b) == SettledBy(s, a + b)
  {
    hide Accepted, Sum;
    assert SettledBy(SettledBy(s, a), b).receipts == SettledBy(s, a + b).receipts;
  }

  ghost function Members(order: seq<Pubkey>): set<Pubkey>
  {
    set o | o in order
  }

  /** Settling in any order, with repeats, reaches the state that depends only on which receipts were settled. */
  lemma {:induction false} SettlementOrderIsIrrelevant(s: State, order: seq<Pubkey>)
    requires Valid(s) && s.c.deadline <= s.clock && Members(order) <= s.receipts.Keys
    ensures Run(s, Settlements(order)) == SettledBy(s, Members(order))
    decreases |order|
  {
    hide Valid, Members, Settle;
    if order == [] {
      NothingSettled(s);
      FirstOfOrder(order);
    } else {
      var first, rest := order[0], order[1..];
      FirstOfOrder(order);
      SettleOne(s, first);
      SettleKeepsValid(s, first);
      SettleNeverRefused(s, first);
      SettlementOrderIsIrrelevant(SettledBy(s, {first}), rest);
      SettledByBoth(s, {first}, Members(rest));
    }
  }

  lemma FirstOfOrder(order: seq<Pubkey>)
    ensures order == [] ==> Members(order) == {}
    ensures order != [] ==> Members(order) == {order[0]} + Members(order[1..])
    ensures order != [] ==>
      Settlements(order)[0] == DoSettle(order[0]) && Settlements(order)[1..] == Settlements(order[1..])
  {
    if order != [] {
      assert order == [order[0]] + order[1..];
    }
  }

  lemma NothingSettled(s: State)
    requires Valid(s)
    ensures SettledBy(s, {}) == s
  {
    hide Accepted, Sum, ReceiptsOk;
    assert SettledBy(s, {}).receipts == s.receipts;
  }

  /** Once every receipt is settled, the settled total is the sum of the floored acceptances: a function of the
      commitments alone. It is within `receiptCount - 1` lamports below the smaller of total and hard cap. */
  lemma FullySettledTotal(s: State)
    requires Valid(s) && s.c.settledCount == s.c.receiptCount && 0 < s.c.receiptCount
    ensures s.c.settledAccepted == Sum(AcceptedParts(s.receipts, s.c.total, s.c.hard))
    ensures Min(s.c.total, s.c.hard) - (s.c.receiptCount - 1) <= s.c.settledAccepted <= Min(s.c.total, s.c.hard)
  {
    forall o | o in s.receipts
      ensures s.receipts[o].accepted == Accepted(s.receipts[o].committed, s.c.total, s.c.hard)
    {
      AllSettled(s, o);
      assert ReceiptOk(s.c, s.clock, s.receipts[o]);
    }
    assert Accepteds(s.receipts) == AcceptedParts(s.receipts, s.c.total, s.c.hard);
    assert s.receipts != map[];
    var o :| o in s.receipts;
    assert ReceiptOk(s.c, s.clock, s.receipts[o]);
    SumElement(Committed(s.receipts), o);
    AcceptedPartsBounds(s.receipts, s.c.hard);
  }

  lemma SettledByAll(s: State)
    requires Valid(s)
    ensures var s' := SettledBy(s, s.receipts.Keys);
      && s'.c.settledCount == s'.c.receiptCount
      && s'.receipts.Keys == s.receipts.Keys
      && AcceptedParts(s'.receipts, s.c.total, s.c.hard) == AcceptedParts(s.receipts, s.c.total, s.c.hard)
  {
    hide ReceiptsOk, Accepted, Sum;
    var s' := SettledBy(s, s.receipts.Keys);
    var flags := Settleds(s'.receipts);
    SumConstant(flags, 1);
    assert flags.Keys == s.receipts.Keys;
    assert |flags| == |flags.Keys| == |s.receipts|;
  }

  /** In short: what the receipt has been refunded is afterwards what it is entitled to, and that much has moved. */
  lemma RefundPaysEntitlement(s: State, owner: Pubkey, held: nat)
    requires Valid(s) && s.c.deadline <= s.clock && owner in s.receipts && held <= s.elsewhere
    ensures Refund(s, owner, held).Done?
    ensures var s' := Refund(s, owner, held).state;
      && owner in s'.receipts && s'.receipts[owner].refunded == Entitled(s, s.receipts[owner])
      && s.lamports - s'.lamports == s'.receipts[owner].refunded - s.receipts[owner].refunded
  {
    hide Valid, Entitled, Refund;
    RefundNeverRefused(s, owner, held);
  }

  /** An accepted refund leaves the phase it computed exactly if it paid something or that phase was already recorded.
      */
  lemma RefundRecordsPhase(s: State, owner: Pubkey, held: nat)
    requires Refund(s, owner, held).Done?
    ensures Refund(s, owner, held).state.c.phase == RefundPhase(s)
      <==> s.receipts[owner].refunded < Entitled(s, s.receipts[owner]) || s.c.phase == RefundPhase(s)
  {
    hide Entitled;
  }

  /** Settling every receipt of a closed campaign, in any order, makes it launch-ready exactly when the rounded total
      still reaches the soft cap. */
  lemma SettledCampaignIsReady(s: State, order: seq<Pubkey>)
    requires Valid(s) && s.c.deadline <= s.clock < s.c.launchDeadline && s.c.phase != Failed && s.c.phase != Launched
    requires s.c.soft <= s.c.total && 0 < s.c.receiptCount
    requires Members(order) == s.receipts.Keys
    ensures Ready(Run(s, Settlements(order)).c, s.clock)
      <==> s.c.soft <= Sum(AcceptedParts(s.receipts, s.c.total, s.c.hard))
    ensures s.c.soft + s.c.receiptCount - 1 <= s.c.hard && s.c.soft + s.c.receiptCount - 1 <= s.c.total
      ==> Ready(Run(s, Settlements(order)).c, s.clock)
  {
    hide Valid, AcceptedParts, Sum, Members;
    SettlementOrderIsIrrelevant(s, order);
    RunKeepsValid(s, Settlements(order));
    SettledByAll(s);
    FullySettledTotal(SettledBy(s, s.receipts.Keys));
  }

  /** After the deadline every receipt is settled, yet less than the soft cap was accepted. */
  ghost predicate Shortfall(s: State)
  {
    && s.c.deadline <= s.clock && s.c.phase != Launched
    && s.c.settledCount == s.c.receiptCount && s.c.settledAccepted < s.c.soft
  }

  lemma ShortfallStays(s: State, a: Action)
    requires Valid(s) && Shortfall(s)
    ensures Shortfall(Step(s, a))
  {
    hide Entitled, Accepted, CountersOk, ReceiptsOk, Solvent;
    if a.DoSettle? && a.owner in s.receipts {
      AllSettled(s, a.owner);
    }
  }

  /** Such a campaign never launches, over any run; its commitments can only be refunded. */
  lemma {:induction false} ShortfallNeverLaunches(s: State, actions: seq<Action>)
    requires Valid(s) && Shortfall(s)
    ensures Shortfall(Run(s, actions)) && Run(s, actions).c.phase != Launched
    decreases |actions|
  {
    if actions != [] {
      hide Step, Valid, Shortfall;
      ShortfallStays(s, actions[0]);
      StepKeepsValid(s, actions[0]);
      ShortfallNeverLaunches(Step(s, actions[0]), actions[1..]);
    }
  }

  // ---------- launch and failure ----------

  lemma KeptWithinCommitted(s: State)
    requires Valid(s) && s.c.phase != Failed
    ensures s.c.settledAccepted + s.c.refunded <= s.c.total
  {
    hide Accepted, Refundable, Sum;
    forall o | o in s.receipts ensures s.receipts[o].accepted + s.receipts[o].refunded <= s.receipts[o].committed {
      OneKeptWithinCommitted(s.c, s.clock, s.receipts[o]);
    }
    var kept: map<Pubkey, nat> := map o | o in s.receipts :: s.receipts[o].accepted + s.receipts[o].refunded;
    SumAdd(Accepteds(s.receipts), Refunds(s.receipts), kept);
    SumLe(kept, Committed(s.receipts));
  }

  lemma OneKeptWithinCommitted(c: Campaign, now: int, r: Receipt)
    requires ReceiptOk(c, now, r) && c.phase != Failed
    ensures r.accepted + r.refunded <= r.committed
  {
  }

  /** A ready campaign's launch is never blocked by its own lamport accounting, and moves exactly the settled SOL. */
  lemma LaunchNeverUnderfunded(s: State, held: nat)
    requires Valid(s) && Ready(s.c, s.clock) && held <= s.elsewhere
    ensures Launch(s, true, held).Done?
    ensures var s' := Launch(s, true, held).state;
      && s.lamports - s'.lamports == s.c.settledAccepted
      && s'.c.phase == Launched && s'.c.launchTime == s.clock
      && s'.receipts == s.receipts && s'.c.settledAccepted == s.c.settledAccepted
  {
    hide Sum, ReceiptsOk;
    KeptWithinCommitted(s);
  }

  /** In a launched campaign a receipt's accepted part and refund never exceed its commitment, and paying its refund
      makes them equal. */
  lemma LaunchedReceiptConserved(s: State, owner: Pubkey, held: nat)
    requires Valid(s) && s.c.phase == Launched && s.c.deadline <= s.clock && owner in s.receipts && held <= s.elsewhere
    ensures s.receipts[owner].accepted + s.receipts[owner].refunded <= s.receipts[owner].committed
    ensures var s' := Step(s, DoRefund(owner, held));
      && owner in s'.receipts
      && var r' := s'.receipts[owner];
         r'.accepted == s.receipts[owner].accepted && r'.accepted + r'.refunded == r'.committed
  {
    assert ReceiptOk(s.c, s.clock, s.receipts[owner]);
    RefundNeverRefused(s, owner, held);
  }

  lemma StepKeepsOutcome(s: State, a: Action)
    requires Valid(s) && (s.c.phase == Failed || s.c.phase == Launched)
    ensures Step(s, a).c.phase == s.c.phase
  {
    hide Entitled, Refundable, Accepted, CountersOk, ReceiptsOk, Solvent;
  }

  /** Failed and launched are absorbing. */
  lemma {:induction false} RunKeepsOutcome(s: State, actions: seq<Action>)
    requires Valid(s) && (s.c.phase == Failed || s.c.phase == Launched)
    ensures Run(s, actions).c.phase == s.c.phase
    decreases |actions|
  {
    if actions != [] {
      StepKeepsOutcome(s, actions[0]);
      StepKeepsValid(s, actions[0]);
      RunKeepsOutcome(Step(s, actions[0]), actions[1..]);
    }
  }

  lemma {:induction false} RunConcat(s: State, a: seq<Action>, b: seq<Action>)
    ensures Run(s, a + b) == Run(Run(s, a), b)
    decreases |a|
  {
    if a == [] {
      assert a + b == b;
    } else {
      assert (a + b)[1..] == a[1..] + b;
      RunConcat(Step(s, a[0]), a[1..], b);
    }
  }

  /** A refund that pays something while the campaign counts as failed. */
  ghost predicate FailurePayout(s: State, a: Action)
  {
    a.DoRefund? && HasFailed(s.c, s.clock) && Step(s, a).c.refunded > s.c.refunded
  }

  ghost predicate Launches(s: State, a: Action)
  {
    a.DoLaunch? && Perform(s, a).Done?
  }

  /** The state in which step `i` of the run happens. */
  ghost function At(s: State, actions: seq<Action>, i: nat): State
    requires i < |actions|
  {
    Run(s, actions[..i])
  }

  lemma LaterPhase(s: State, actions: seq<Action>, i: nat, j: nat)
    requires Valid(s) && i < j < |actions|
    ensures Valid(At(s, actions, i)) && Valid(At(s, actions, j))
    ensures var p := Step(At(s, actions, i), actions[i]).c.phase;
      (p == Failed || p == Launched) ==> At(s, actions, j).c.phase == p
  {
    RunKeepsValid(s, actions[..i]);
    RunKeepsValid(s, actions[..j]);
    var si := At(s, actions, i);
    StepKeepsValid(si, actions[i]);
    var s1 := Step(si, actions[i]);
    var mid := actions[i + 1..j];
    assert actions[..j] == actions[..i] + ([actions[i]] + mid);
    RunConcat(s, actions[..i], [actions[i]] + mid);
    assert ([actions[i]] + mid)[1..] == mid;
    if s1.c.phase == Failed || s1.c.phase == Launched {
      RunKeepsOutcome(s1, mid);
    }
  }

  lemma FailurePayoutFails(s: State, a: Action)
    requires Valid(s) && FailurePayout(s, a)
    ensures Step(s, a).c.phase == Failed && s.c.phase != Launched
  {
  }

  lemma LaunchingLaunches(s: State, a: Action)
    requires Valid(s) && Launches(s, a)
    ensures Step(s, a).c.phase == Launched && s.c.phase != Failed
  {
  }

  /** No run both pays a failure refund and launches, in either order. */
  lemma OutcomesExcludeEachOther(s: State, actions: seq<Action>, i: nat, j: nat)
    requires Valid(s) && i < |actions| && j < |actions|
    ensures !(FailurePayout(At(s, actions, i), actions[i]) && Launches(At(s, actions, j), actions[j]))
  {
    if FailurePayout(At(s, actions, i), actions[i]) && Launches(At(s, actions, j), actions[j]) && i != j {
      hide Valid, FailurePayout, Launches, Step, At;
      LaterPhase(s, actions, if i < j then i else j, if i < j then j else i);
      FailurePayoutFails(At(s, actions, i), actions[i]);
      LaunchingLaunches(At(s, actions, j), actions[j]);
    }
  }

  /** Only what was refunded may differ. */
  ghost predicate SettlementUnchanged(s: State, s': State)
  {
    && s'.c.(refunded := s.c.refunded) == s.c
    && s'.receipts.Keys == s.receipts.Keys
    && forall o :: o in s.receipts ==> s'.receipts[o].(refunded := s.receipts[o].refunded) == s.receipts[o]
  }

  lemma LaunchedStep(s: State, a: Action)
    requires Valid(s) && s.c.phase == Launched
    ensures SettlementUnchanged(s, Step(s, a))
  {
    hide Entitled, Refundable, Accepted, Solvent, CountersOk;
    if a.DoSettle? && a.owner in s.receipts {
      assert ReceiptOk(s.c, s.clock, s.receipts[a.owner]);
    }
  }

  lemma UnchangedIsTransitive(s: State, s1: State, s2: State)
    requires SettlementUnchanged(s, s1) && SettlementUnchanged(s1, s2)
    ensures SettlementUnchanged(s, s2)
  {
    forall o | o in s.receipts ensures s2.receipts[o].(refunded := s.receipts[o].refunded) == s.receipts[o] {
      assert s1.receipts[o].(refunded := s.receipts[o].refunded) == s.receipts[o];
    }
  }

  /** After the launch the settlement figures never move again. */
  lemma {:induction false} LaunchFreezesSettlement(s: State, actions: seq<Action>)
    requires Valid(s) && s.c.phase == Launched
    ensures SettlementUnchanged(s, Run(s, actions))
    decreases |actions|
  {
    if actions != [] {
      var s1 := Step(s, actions[0]);
      StepKeepsValid(s, actions[0]);
      LaunchedStep(s, actions[0]);
      hide Valid, Step;
      LaunchFreezesSettlement(s1, actions[1..]);
      hide SettlementUnchanged;
      UnchangedIsTransitive(s, s1, Run(s1, actions[1..]));
    }
  }

  // ---------- conservation, closing, replay ----------

  /** Lamports the campaign account holds beyond commitments not yet refunded and not yet moved into the pool. */
  ghost function Surplus(s: State): int
  {
    s.lamports + s.c.refunded + (if s.c.phase == Launched then s.c.settledAccepted else 0) - s.c.total
  }

  /** Every step moves lamports one for one: none appear or vanish, and only a donation changes the surplus. */
  lemma StepConservesLamports(s: State, a: Action)
    requires Valid(s)
    ensures var s' := Step(s, a);
      && s'.lamports + s'.elsewhere == s.lamports + s.elsewhere
      && Surplus(s') == Surplus(s) + if a.Donate? && a.amount <= s.elsewhere then a.amount else 0
  {
    hide Entitled, Refundable, CountersOk;
    if a.DoSettle? && a.owner in s.receipts {
      assert ReceiptOk(s.c, s.clock, s.receipts[a.owner]);
    }
  }

  /** Closing after the deadline decides the outcome: a campaign that has not launched is then failed exactly if it
      missed its soft cap or its launch deadline, and closed otherwise. */
  lemma CloseDecides(s: State)
    requires Valid(s) && s.c.deadline <= s.clock
    ensures Close(s).Done?
    ensures s.c.phase == Launched ==> Close(s).state == s
    ensures s.c.phase != Launched ==>
      Close(s).state.c.phase == if HasFailed(s.c, s.clock) then Failed else Closed
  {
  }

  lemma StepKeepsSequence(s: State, a: Action, owner: Pubkey)
    requires owner in s.receipts
    ensures owner in Step(s, a).receipts && s.receipts[owner].sequence <= Step(s, a).receipts[owner].sequence
  {
    hide Entitled, Accepted;
  }

  lemma {:induction false} RunKeepsSequence(s: State, actions: seq<Action>, owner: Pubkey)
    requires owner in s.receipts
    ensures owner in Run(s, actions).receipts && s.receipts[owner].sequence <= Run(s, actions).receipts[owner].sequence
    decreases |actions|
  {
    if actions != [] {
      hide Step;
      StepKeepsSequence(s, actions[0], owner);
      RunKeepsSequence(Step(s, actions[0]), actions[1..], owner);
    }
  }

  /** A commitment that was accepted once is refused when replayed, however much happened in between. */
  lemma CommitCannotBeReplayed(s: State, a: Action, actions: seq<Action>)
    requires a.DoCommit? && Perform(s, a).Done?
    ensures Perform(Run(Step(s, a), actions), a).Refused?
  {
    RunKeepsSequence(Step(s, a), actions, a.owner);
  }

  /** Escrow solvency over every run: whatever happened since creation, the escrow holds its rent plus everything it
      could be asked for, and each registered owner's refund is accepted. */
  lemma EveryRunPaysRefunds(s: State, actions: seq<Action>, owner: Pubkey, held: nat)
    requires Valid(s)
    ensures var s' := Run(s, actions);
      && s'.rent + Sum(Owed(s')) <= s'.lamports
      && (s'.c.deadline <= s'.clock && owner in s'.receipts && held <= s'.elsewhere ==>
            && Refund(s', owner, held).Done?
            && Refund(s', owner, held).state.receipts[owner].refunded == Entitled(s', s'.receipts[owner]))
  {
    hide Valid, Refund, Entitled, Owed, Sum, Run;
    var s' := Run(s, actions);
    RunKeepsValid(s, actions);
    OwedIsCovered(s');
    if s'.c.deadline <= s'.clock && owner in s'.receipts && held <= s'.elsewhere {
      RefundNeverRefused(s', owner, held);
    }
  }
}

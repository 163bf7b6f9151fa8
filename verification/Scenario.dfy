/** Concrete runs: a campaign that goes all the way to funded vaults, one that reaches its soft cap and cannot launch,
    and a refund that leaves the phase unrecorded. */
module Scenario {
  import opened Base
  import opened Bytes
  import opened Escrow
  import opened EscrowInvariant
  import opened EscrowOutcomes
  import opened Calendar
  import opened Custody
  import opened Record
  import opened Protocol

  /** The state tag 0 leaves behind for these caps. */
  function Created(soft: nat, hard: nat): State
  {
    State(Campaign(soft, hard, 10, 20, 0, 0, Open, 0, 0, 0, FIXED_SUPPLY, 0, true, false, false), map[], 1, 1000, 7, 1)
  }

  lemma CreatedIsValid(soft: nat, hard: nat)
    requires 0 < soft <= hard
    ensures Create(soft, hard, 10, 20, FIXED_SUPPLY, true, true, 1, 1000, 7, 1) == Done(Created(soft, hard))
    ensures Valid(Created(soft, hard))
  {
    hide Valid;
    CreateIsValid(soft, hard, 10, 20, FIXED_SUPPLY, true, true, 1, 1000, 7, 1);
  }

  // ---------- a launch ----------

  /** Custody holds the whole supply and nothing was claimed. */
  function Supplied(root: Bytes32): Tokens
  {
    Tokens(FIXED_SUPPLY, 0, Reserve(1, 1, root, 0, 0), Reserve(1, 1, root, 0, 0), 0, {})
  }

  function Start(root: Bytes32, window: nat): System
  {
    System(Created(5, 5), Supplied(root), NotActive, window)
  }

  lemma StartIsOk(root: Bytes32, window: nat)
    ensures SystemOk(Start(root, window))
  {
    hide Valid;
    CreatedIsValid(5, 5);
    CreatedIsOk(Created(5, 5), Supplied(root), window);
  }

  /** Configured, committed by one wallet, the deadline passed, settled: five lamports were accepted. */
  function Settled(wallet: Pubkey, amount: nat): State
    requires amount <= 1000
  {
    var c := Campaign(5, 5, 10, 20, amount, 0, Open, 1, 1, 5, FIXED_SUPPLY, 0, true, false, true);
    State(c, map[wallet := Receipt(amount, 0, 1, true, 5, false)], 1 + amount, 1000 - amount, 12, 1)
  }

  function Preparation(wallet: Pubkey, amount: nat): seq<Action>
  {
    [DoConfigure(true), DoCommit(wallet, amount, 0, 100, 2), Pass(5), DoSettle(wallet)]
  }

  /** The same before the receipt is settled. */
  function Unsettled(wallet: Pubkey, amount: nat): State
    requires amount <= 1000
  {
    var c := Campaign(5, 5, 10, 20, amount, 0, Open, 1, 0, 0, FIXED_SUPPLY, 0, true, false, true);
    State(c, map[wallet := Receipt(amount, 0, 1, false, 0, false)], 1 + amount, 1000 - amount, 12, 1)
  }

  lemma CommitOnce(wallet: Pubkey, amount: nat)
    requires 0 < amount <= 98
    ensures Escrow.Step(Escrow.Step(Escrow.Step(Created(5, 5), DoConfigure(true)), DoCommit(wallet, amount, 0, 100, 2)),
                        Pass(5)) == Unsettled(wallet, amount)
  {
    var s1 := Escrow.Step(Created(5, 5), DoConfigure(true));
    var s2 := Escrow.Step(s1, DoCommit(wallet, amount, 0, 100, 2));
    assert s2.receipts == map[wallet := Receipt(amount, 0, 1, false, 0, false)];
  }

  lemma SettleFirst(s: State, owner: Pubkey, accepted: nat)
    requires owner in s.receipts && !s.receipts[owner].settled && s.c.deadline <= s.clock
    requires accepted == Accepted(s.receipts[owner].committed, s.c.total, s.c.hard)
    requires accepted <= Min(s.c.total, s.c.hard) <= U64_MAX
    requires s.c.settledCount == 0 < s.c.receiptCount && s.c.settledAccepted == 0
    ensures Settle(s, owner) == Done(s.(c := s.c.(settledCount := 1, settledAccepted := accepted),
      receipts := s.receipts[owner := s.receipts[owner].(settled := true, accepted := accepted)]))
  {
    hide Accepted;
  }

  lemma SettleOnly(wallet: Pubkey, amount: nat)
    requires amount == 5 || amount == 8
    ensures Settle(Unsettled(wallet, amount), wallet) == Done(Settled(wallet, amount))
  {
    hide Accepted, Settle;
    AcceptsFive(amount);
    SettleFirst(Unsettled(wallet, amount), wallet, 5);
    var r := Receipt(amount, 0, 1, false, 0, false);
    assert map[wallet := r][wallet := r.(settled := true, accepted := 5)] == Settled(wallet, amount).receipts;
  }

  lemma AcceptsFive(amount: nat)
    requires amount == 5 || amount == 8
    ensures Accepted(amount, amount, 5) == 5
  {
    if amount == 5 {
      assert Accepted(5, 5, 5) == 5;
    } else {
      assert Accepted(8, 8, 5) == 5;
    }
  }

  lemma PreparationSettles(wallet: Pubkey, amount: nat)
    requires amount == 5 || amount == 8
    ensures Escrow.Run(Created(5, 5), Preparation(wallet, amount)) == Settled(wallet, amount)
  {
    hide Created, Settled, Unsettled, Settle, Commit, Configure;
    CommitOnce(wallet, amount);
    SettleOnly(wallet, amount);
    assert Escrow.Step(Unsettled(wallet, amount), DoSettle(wallet)) == Settled(wallet, amount);
    RunOfFour(Created(5, 5), DoConfigure(true), DoCommit(wallet, amount, 0, 100, 2), Pass(5), DoSettle(wallet));
  }

  lemma RunOfFour(s: State, a: Action, b: Action, c: Action, d: Action)
    ensures Escrow.Run(s, [a, b, c, d]) == Escrow.Step(Escrow.Step(Escrow.Step(Escrow.Step(s, a), b), c), d)
  {
    hide Escrow.Step;
    assert [a, b, c, d][1..] == [b, c, d] && [b, c, d][1..] == [c, d] && [c, d][1..] == [d] && [d][1..] == [];
    assert Escrow.Run(Escrow.Step(Escrow.Step(Escrow.Step(s, a), b), c), [d])
        == Escrow.Step(Escrow.Step(Escrow.Step(Escrow.Step(s, a), b), c), d);
    assert Escrow.Run(Escrow.Step(Escrow.Step(s, a), b), [c, d])
        == Escrow.Run(Escrow.Step(Escrow.Step(Escrow.Step(s, a), b), c), [d]);
  }

  function LaunchMoves(wallet: Pubkey, keys: Distribution): seq<Move>
  {
    OnEscrows(Preparation(wallet, 8)) + [LaunchCampaign(true, 0, keys)]
  }

  lemma LaunchGoesThrough(wallet: Pubkey, keys: Distribution, root: Bytes32, window: nat)
    ensures var out := LaunchAll(Start(root, window).(e := Settled(wallet, 8)), true, 0, keys);
      out.Done? && out.state.e.c.phase == Launched && out.state.e.lamports == 4
  {
    hide ThreeMonthEnd;
    VestingEndFits();
    assert Ready(Settled(wallet, 8).c, 12);
    assert Launch(Settled(wallet, 8), true, 0).Done?;
  }

  /** A run of the whole system from a fresh campaign ends launched: the settled SOL has moved, the excess is still
      there to be refunded, and all four vaults are funded. */
  lemma LaunchIsReachable(wallet: Pubkey, keys: Distribution, root: Bytes32, window: nat)
    ensures Create(5, 5, 10, 20, FIXED_SUPPLY, true, true, 1, 1000, 7, 1) == Done(Created(5, 5))
    ensures SystemOk(Start(root, window))
    ensures var x := Protocol.Run(Start(root, window), LaunchMoves(wallet, keys));
      && x.e.c.phase == Launched && x.e.lamports == 4
      && x.v.Active?
      && x.v.s.balance == [435_000_000_000_000, 50_000_000_000_000, 50_000_000_000_000, 30_000_000_000_000]
  {
    hide SystemOk, Valid, LaunchAll, Escrow.Run, Protocol.Run, Protocol.Step, Settled, Created;
    CreatedIsValid(5, 5);
    StartIsOk(root, window);
    PreparationSettles(wallet, 8);
    EscrowRun(Start(root, window), Preparation(wallet, 8));
    RunThen(Start(root, window), OnEscrows(Preparation(wallet, 8)), LaunchCampaign(true, 0, keys));
    LaunchStepFunds(wallet, keys, root, window);
  }

  lemma LaunchStepFunds(wallet: Pubkey, keys: Distribution, root: Bytes32, window: nat)
    requires SystemOk(Start(root, window).(e := Settled(wallet, 8)))
    ensures var x := Protocol.Step(Start(root, window).(e := Settled(wallet, 8)), LaunchCampaign(true, 0, keys));
      && x.e.c.phase == Launched && x.e.lamports == 4
      && x.v.Active?
      && x.v.s.balance == [435_000_000_000_000, 50_000_000_000_000, 50_000_000_000_000, 30_000_000_000_000]
  {
    hide SystemOk, LaunchAll;
    LaunchGoesThrough(wallet, keys, root, window);
    ActivationLeavesDust(Start(root, window).(e := Settled(wallet, 8)), true, 0, keys);
  }

  lemma VestingEndFits()
    ensures ThreeMonthEnd(12).Done?
  {
    hide CivilFromDays, DaysFromCivil, ThreeMonthsLater;
    ThreeMonthEndIsCalendar(12);
    DaysRoundTrip(0);
    ThreeMonthsSpan(CivilFromDays(0));
  }

  // ---------- a soft cap that is reached and missed ----------

  function TwoCommits(a: Pubkey, b: Pubkey): seq<Action>
  {
    [DoConfigure(true), DoCommit(a, 2, 0, 100, 2), DoCommit(b, 2, 0, 100, 2), Pass(5)]
  }

  /** Two wallets commit two lamports each to a campaign whose caps are both three. */
  function Oversubscribed(a: Pubkey, b: Pubkey): State
  {
    var c := Campaign(3, 3, 10, 20, 4, 0, Open, 2, 0, 0, FIXED_SUPPLY, 0, true, false, true);
    State(c, map[a := Receipt(2, 0, 1, false, 0, false), b := Receipt(2, 0, 1, false, 0, false)], 5, 996, 12, 1)
  }

  lemma TwoCommitsOversubscribe(a: Pubkey, b: Pubkey)
    requires a != b
    ensures Escrow.Run(Created(3, 3), TwoCommits(a, b)) == Oversubscribed(a, b)
  {
    var s1 := Escrow.Step(Created(3, 3), DoConfigure(true));
    var s2 := Escrow.Step(s1, DoCommit(a, 2, 0, 100, 2));
    assert s2.receipts == map[a := Receipt(2, 0, 1, false, 0, false)];
    var s3 := Escrow.Step(s2, DoCommit(b, 2, 0, 100, 2));
    RunOfFour(Created(3, 3), DoConfigure(true), DoCommit(a, 2, 0, 100, 2), DoCommit(b, 2, 0, 100, 2), Pass(5));
  }

  /** Reaching the soft cap is not enough: with every receipt settled and the launch still in time, each commitment lost
      half a lamport to rounding, and no later run launches the campaign. */
  lemma SoftCapReachedButNotReady(a: Pubkey, b: Pubkey, later: seq<Action>)
    requires a != b
    ensures Create(3, 3, 10, 20, FIXED_SUPPLY, true, true, 1, 1000, 7, 1) == Done(Created(3, 3))
    ensures var s := Escrow.Run(Escrow.Run(Created(3, 3), TwoCommits(a, b)), Settlements([a, b]));
      && s.c.soft <= s.c.total && s.c.settledCount == s.c.receiptCount == 2
      && s.c.deadline <= s.clock < s.c.launchDeadline && s.c.phase == Open
      && s.c.settledAccepted == 2 && !Ready(s.c, s.clock)
      && Escrow.Run(s, later).c.phase != Launched
  {
    hide Escrow.Run, Valid;
    CreatedIsValid(3, 3);
    TwoCommitsOversubscribe(a, b);
    SettleBoth(a, b);
    EscrowInvariant.RunKeepsValid(Created(3, 3), TwoCommits(a, b));
    EscrowInvariant.RunKeepsValid(Oversubscribed(a, b), Settlements([a, b]));
    ShortfallNeverLaunches(Escrow.Run(Oversubscribed(a, b), Settlements([a, b])), later);
  }

  lemma SettleBoth(a: Pubkey, b: Pubkey)
    requires a != b
    ensures var s0 := Oversubscribed(a, b);
      Escrow.Run(s0, Settlements([a, b])).c == s0.c.(settledCount := 2, settledAccepted := 2)
    ensures Escrow.Run(Oversubscribed(a, b), Settlements([a, b])).clock == 12
  {
    assert Accepted(2, 4, 3) == 1;
    hide Accepted;
    var s1 := Escrow.Step(Oversubscribed(a, b), DoSettle(a));
    var s2 := Escrow.Step(s1, DoSettle(b));
    assert s2.c.settledAccepted == 2;
    hide Escrow.Step;
    assert Settlements([a, b]) == [DoSettle(a), DoSettle(b)];
    assert [DoSettle(a), DoSettle(b)][1..] == [DoSettle(b)] && [DoSettle(b)][1..] == [];
    assert Escrow.Run(s1, [DoSettle(b)]) == s2;
  }

  // ---------- a refund that records nothing ----------

  /** A refund of an exactly filled campaign is accepted and pays nothing; the campaign stays open after its deadline,
      although the refund computed that it is closed. */
  lemma EmptyRefundLeavesPhaseOpen(wallet: Pubkey)
    ensures Create(5, 5, 10, 20, FIXED_SUPPLY, true, true, 1, 1000, 7, 1) == Done(Created(5, 5))
    ensures var s := Escrow.Run(Created(5, 5), Preparation(wallet, 5));
      Refund(s, wallet, 95) == Done(s) && s.c.phase == Open && RefundPhase(s) == Closed
  {
    hide Valid, Escrow.Run;
    CreatedIsValid(5, 5);
    PreparationSettles(wallet, 5);
  }
}

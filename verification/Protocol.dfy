/** Both programs together: one campaign from its creation through launch, refunds, claims and burns, in any order. */
module Protocol {
  import opened Base
  import opened Floors
  import opened Sums
  import opened Escrow
  import opened EscrowInvariant
  import opened EscrowOutcomes
  import opened Vesting
  import opened Custody
  import opened CustodySafety
  import opened Record
  import opened Vaults
  import opened VaultSafety

  datatype Distributed = NotActive | Active(s: VaultState)

  /** The escrow, launch custody, the claim vaults once activated, and the length of the custody claim window. */
  datatype System = System(e: State, t: Tokens, v: Distributed, window: nat)

  datatype Move =
    | OnEscrow(a: Action)
    | LaunchCampaign(others: bool, held: nat, record: Distribution)
    | CustodyParticipant(owner: Pubkey)
    | CustodyDev
    | CustodyParent(side: Side, owner: Pubkey, held: nat, allocation: nat, proved: bool)
    | CustodyBurn
    | CustodyDonate(amount: nat)
    | OnVaults(va: VaultAction)

  /** Tag 6 with its token side: all coins must be in custody, the liquidity share leaves it, and a recorded
      distribution is activated in the same instruction or the launch does not happen. */
  function LaunchAll(x: System, others: bool, held: nat, record: Distribution): Outcome<System>
  {
    match Launch(x.e, others && x.t.balance == x.e.c.supply, held)
    case Refused(error) => Refused(error)
    case Done(e) =>
      SharesFit(e.c.supply);
      var rest := e.c.supply - Share(e.c.supply, 4350);
      if !e.c.distribution then Done(x.(e := e, t := x.t.(balance := rest)))
      else match Activate(e.c, x.t.(balance := rest), record)
        case Refused(error) => Refused(error)
        case Done((s, custody)) => Done(x.(e := e, t := x.t.(balance := custody), v := Active(s)))
  }

  function Perform(x: System, m: Move): Outcome<System>
    requires x.v.Active? ==> |x.v.s.balance| == 4
  {
    match m
    case OnEscrow(a) => if a.DoLaunch? then Refused(InvalidAccount) else Done(x.(e := Escrow.Step(x.e, a)))
    case LaunchCampaign(others, held, record) => LaunchAll(x, others, held, record)
    case CustodyParticipant(owner) =>
      (match Participant(x.e, x.t, owner)
       case Refused(error) => Refused(error)
       case Done((e, t)) => Done(x.(e := e, t := t)))
    case CustodyDev => WithTokens(x, Dev(x.e, x.t))
    case CustodyParent(side, owner, held, allocation, proved) =>
      WithTokens(x, Parent(x.e, x.t, x.window, side, owner, held, allocation, proved))
    case CustodyBurn => WithTokens(x, BurnExpired(x.e, x.t, x.window))
    case CustodyDonate(amount) => Done(x.(t := x.t.(balance := x.t.balance + amount)))
    case OnVaults(a) =>
      if x.v.NotActive? then Refused(InvalidAccount)
      else match Act(x.v.s, x.e.receipts, x.e.clock, a)
        case Refused(error) => Refused(error)
        case Done(s) => Done(x.(v := Active(s)))
  }

  function WithTokens(x: System, out: Outcome<Tokens>): Outcome<System>
  {
    match out
    case Refused(error) => Refused(error)
    case Done(t) => Done(x.(t := t))
  }

  // ---------- invariant ----------

  ghost predicate SystemOk(x: System)
  {
    && CustodyOk(x.e, x.t, x.window)
    && (x.v.Active? <==> x.e.c.activated)
    && (x.v.Active? ==> VaultOk(x.e.c, x.e.receipts, x.e.clock, x.v.s))
  }

  ghost function Step(x: System, m: Move): System
    requires SystemOk(x)
  {
    match Perform(x, m)
    case Done(x') => x'
    case Refused(_) => x
  }

  /** A freshly created campaign, before anything was claimed. */
  lemma CreatedIsOk(e: State, t: Tokens, window: nat)
    requires Valid(e) && e.c.phase == Open && !e.c.activated && e.receipts == map[] && Untouched(t)
    ensures SystemOk(System(e, t, NotActive, window))
  {
  }

  lemma VaultOkLater(e: State, e': State, s: VaultState)
    requires VaultOk(e.c, e.receipts, e.clock, s) && SettlementUnchanged(e, e') && e.clock <= e'.clock
    ensures VaultOk(e'.c, e'.receipts, e'.clock, s)
  {
    hide ProRata, Calendar.ThreeMonthEnd, Allocations, VaultsSolvent, Sum;
    DevEntitledBounds(s.d.supply, s.d.devStart, s.d.devEnd, e.clock, e'.clock);
    hide DevEntitled;
    forall o | o in s.participants
      ensures s.participants[o] == ProRata(e'.receipts[o].accepted, s.d.allocation[0], s.d.settledAccepted)
    {
      assert e'.receipts[o].(refunded := e.receipts[o].refunded) == e.receipts[o];
    }
  }

  /** Only a launch launches. */
  lemma EscrowNeverLaunches(e: State, a: Action)
    requires Valid(e) && !a.DoLaunch? && e.c.phase != Launched
    ensures Escrow.Step(e, a).c.phase != Launched
  {
    hide Entitled, Refundable, Accepted, CountersOk, ReceiptsOk, Solvent;
  }

  lemma EscrowStepOk(x: System, a: Action)
    requires SystemOk(x) && !a.DoLaunch?
    ensures SystemOk(x.(e := Escrow.Step(x.e, a)))
  {
    hide Escrow.Step, VaultOk, Covered;
    var e' := Escrow.Step(x.e, a);
    StepKeepsValid(x.e, a);
    if x.e.c.phase == Launched {
      LaunchedStepKeepsOk(x.e, x.t, x.window, a);
      LaunchedStep(x.e, a);
      ClockOnlyAdvances(x.e, a);
      if x.v.Active? {
        VaultOkLater(x.e, e', x.v.s);
      }
    } else {
      EscrowNeverLaunches(x.e, a);
      StepKeepsCustody(x.e, x.t, x.window, a, x.t);
    }
  }

  lemma LaunchStepOk(x: System, others: bool, held: nat, record: Distribution)
    requires SystemOk(x)
    ensures LaunchAll(x, others, held, record).Done? ==> SystemOk(LaunchAll(x, others, held, record).state)
  {
    hide VaultOk, CustodyOk, Valid, Escrow.Launch, Activate;
    var out := LaunchAll(x, others, held, record);
    if out.Done? {
      CustodyValid(x.e, x.t, x.window);
      var x' := out.state;
      var a := DoLaunch(others && x.t.balance == x.e.c.supply, held);
      assert x'.e == Escrow.Step(x.e, a);
      LaunchedByLaunch(x.e, a);
      StepKeepsCustody(x.e, x.t, x.window, a, x'.t);
      CustodyValid(x'.e, x'.t, x.window);
      if x'.e.c.distribution {
        ActivationOk(x'.e, x.t.(balance := x'.e.c.supply - Share(x'.e.c.supply, 4350)), record);
      }
    }
  }

  lemma LaunchedByLaunch(e: State, a: Action)
    requires Valid(e) && a.DoLaunch? && Escrow.Perform(e, a).Done?
    ensures e.c.phase != Launched && !e.c.activated
    ensures var c := Escrow.Step(e, a).c;
      c.phase == Launched && c.activated == c.distribution == e.c.distribution && c.supply == e.c.supply
  {
  }

  lemma CustodyStepOk(x: System, m: Move)
    requires SystemOk(x)
    requires m.CustodyParticipant? || m.CustodyDev? || m.CustodyParent? || m.CustodyBurn? || m.CustodyDonate?
    ensures Perform(x, m).Done? ==> SystemOk(Perform(x, m).state)
  {
    hide VaultOk, DevDue, Valid, ProRata, Unpaid;
    match m
    case CustodyParticipant(owner) => ParticipantKeepsOk(x.e, x.t, x.window, owner);
    case CustodyDev => DevKeepsOk(x.e, x.t, x.window);
    case CustodyParent(side, owner, held, allocation, proved) =>
      ParentKeepsOk(x.e, x.t, x.window, side, owner, held, allocation, proved);
    case CustodyBurn => BurnKeepsOk(x.e, x.t, x.window);
    case CustodyDonate(_) =>
  }

  lemma StepOk(x: System, m: Move)
    requires SystemOk(x)
    ensures SystemOk(Step(x, m))
  {
    match m
    case OnEscrow(a) =>
      if !a.DoLaunch? {
        EscrowStepOk(x, a);
      }
    case LaunchCampaign(others, held, record) => LaunchStepOk(x, others, held, record);
    case OnVaults(a) =>
      if x.v.Active? {
        ActKeepsOk(x.e, x.v.s, a);
      }
    case _ => CustodyStepOk(x, m);
  }

  // ---------- runs ----------

  /** Any interleaving of both programs' instructions, donations and passing time keeps the whole invariant. */
  ghost function Run(x: System, moves: seq<Move>): (x': System)
    requires SystemOk(x)
    ensures SystemOk(x')
    decreases |moves|
  {
    if moves == [] then x
    else
      StepOk(x, moves[0]);
      Run(Step(x, moves[0]), moves[1..])
  }

  lemma {:induction false} RunThen(x: System, moves: seq<Move>, m: Move)
    requires SystemOk(x)
    ensures Run(x, moves + [m]) == Step(Run(x, moves), m)
    decreases |moves|
  {
    hide SystemOk, Step;
    if moves == [] {
      assert [] + [m] == [m] && [m][1..] == [];
      StepOk(x, m);
    } else {
      StepOk(x, moves[0]);
      RunThen(Step(x, moves[0]), moves[1..], m);
      assert (moves + [m])[1..] == moves[1..] + [m];
    }
  }

  function OnEscrows(actions: seq<Action>): seq<Move>
  {
    seq(|actions|, i requires 0 <= i < |actions| => OnEscrow(actions[i]))
  }

  /** Escrow instructions alone move the system as they move the escrow. */
  lemma {:induction false} EscrowRun(x: System, actions: seq<Action>)
    requires SystemOk(x) && forall i :: 0 <= i < |actions| ==> !actions[i].DoLaunch?
    ensures Run(x, OnEscrows(actions)) == x.(e := Escrow.Run(x.e, actions))
    decreases |actions|
  {
    hide SystemOk, Escrow.Step;
    if actions != [] {
      StepOk(x, OnEscrow(actions[0]));
      EscrowRun(Step(x, OnEscrow(actions[0])), actions[1..]);
      assert OnEscrows(actions)[1..] == OnEscrows(actions[1..]);
    }
  }

  /** From the creation of a campaign on, over every run: the escrow covers all refunds, and once launched either
      custody or every single vault covers all that is still to be claimed from it. */
  lemma EveryRunIsSolvent(e: State, t: Tokens, window: nat, moves: seq<Move>, p: nat)
    requires Valid(e) && e.c.phase == Open && !e.c.activated && e.receipts == map[] && Untouched(t) && p < 4
    ensures SystemOk(System(e, t, NotActive, window))
    ensures var x := Run(System(e, t, NotActive, window), moves);
      && x.e.rent + Sum(EscrowOutcomes.Owed(x.e)) <= x.e.lamports
      && (x.e.c.phase == Launched && !x.e.c.distribution ==>
            x.v.NotActive? && 0 < x.e.c.settledAccepted && TokensOwed(x.e, x.t) <= x.t.balance)
      && (x.e.c.phase == Launched && x.e.c.distribution ==>
            && x.v.Active? && |x.v.s.balance| == 4
            && RemainingEntitled(x.v.s.d, p).Done? && RemainingEntitled(x.v.s.d, p).state <= x.v.s.balance[p])
  {
    CreatedIsOk(e, t, window);
    hide Run;
    var x := Run(System(e, t, NotActive, window), moves);
    OwedIsCovered(x.e);
    LaunchedIsCovered(x, p);
  }

  lemma LaunchedIsCovered(x: System, p: nat)
    requires SystemOk(x) && p < 4
    ensures x.e.c.phase == Launched && !x.e.c.distribution ==>
      x.v.NotActive? && 0 < x.e.c.settledAccepted && TokensOwed(x.e, x.t) <= x.t.balance
    ensures x.e.c.phase == Launched && x.e.c.distribution ==>
      && x.v.Active? && |x.v.s.balance| == 4
      && RemainingEntitled(x.v.s.d, p).Done? && RemainingEntitled(x.v.s.d, p).state <= x.v.s.balance[p]
  {
    hide TokensOwed, CountersOk, ReceiptsOk, RemainingEntitled, ClaimsMatch, RecordOk, TermsMatch;
  }

  /** A launched campaign that recorded a distribution has been activated, and launch custody pays nothing for it. */
  lemma HandOver(x: System, owner: Pubkey, side: Side, held: nat, allocation: nat, proved: bool)
    requires SystemOk(x) && x.e.c.phase == Launched && x.e.c.distribution
    ensures x.v.Active? && x.e.c.activated
    ensures Perform(x, CustodyParticipant(owner)) == Refused(Custom(40))
    ensures Perform(x, CustodyDev) == Refused(Custom(40))
    ensures Perform(x, CustodyParent(side, owner, held, allocation, proved)) == Refused(Custom(40))
    ensures Perform(x, CustodyBurn) == Refused(Custom(40))
  {
    hide VaultOk, ProRata, DevDue;
  }

  /** Activation moves exactly the four allocations into the vaults; with the liquidity share gone, custody keeps only
      the dust of the supply. */
  lemma ActivationLeavesDust(x: System, others: bool, held: nat, record: Distribution)
    requires SystemOk(x) && x.e.c.distribution && LaunchAll(x, others, held, record).Done?
    ensures var x' := LaunchAll(x, others, held, record).state;
      && x'.v.Active?
      && x'.v.s.balance == [Share(x.e.c.supply, 4350), Share(x.e.c.supply, 500),
                            Share(x.e.c.supply, 500), Share(x.e.c.supply, 300)]
      && x'.t.balance == x.e.c.supply % 10000
  {
    hide VaultOk, Covered, Escrow.Launch, Activate, Valid;
    var a := DoLaunch(others && x.t.balance == x.e.c.supply, held);
    var x' := LaunchAll(x, others, held, record).state;
    assert x'.e == Escrow.Step(x.e, a);
    LaunchedByLaunch(x.e, a);
    StepKeepsValid(x.e, a);
    ActivationOk(x'.e, x.t.(balance := x'.e.c.supply - Share(x'.e.c.supply, 4350)), record);
    SharesConserveSupply(x.e.c.supply);
  }

  /** Where participants are paid from, and whether an owner was paid. */
  ghost predicate WasPaid(x: System, owner: Pubkey)
  {
    if x.v.Active? then owner in x.v.s.participants else owner in x.e.receipts && x.e.receipts[owner].claimed
  }

  function ClaimMove(x: System, owner: Pubkey): Move
  {
    if x.v.Active? then OnVaults(VParticipant(owner)) else CustodyParticipant(owner)
  }

  function ParticipantFund(x: System): nat
    requires x.v.Active? ==> |x.v.s.balance| == 4
  {
    if x.v.Active? then x.v.s.balance[0] else x.t.balance
  }

  /** In every reachable launched state an unpaid participant's claim is accepted and pays exactly the floored pro-rata
      part of the 43.5 % pool; a paid one gets nothing more. Purchased claims do not expire. */
  lemma PurchasedClaimsNeverExpire(x: System, moves: seq<Move>, owner: Pubkey)
    requires SystemOk(x)
    ensures var y := Run(x, moves);
      y.e.c.phase == Launched && owner in y.e.receipts ==>
        && 0 < y.e.c.settledAccepted
        && Perform(y, ClaimMove(y, owner)).Done?
        && var y' := Perform(y, ClaimMove(y, owner)).state;
           && WasPaid(y', owner) && SystemOk(y')
           && ParticipantFund(y) - ParticipantFund(y')
              == if WasPaid(y, owner) then 0
                 else ProRata(y.e.receipts[owner].accepted, Share(y.e.c.supply, 4350), y.e.c.settledAccepted)
  {
    var y := Run(x, moves);
    if y.e.c.phase == Launched && owner in y.e.receipts {
      ClaimIsPaid(y, owner);
      StepOk(y, ClaimMove(y, owner));
    }
  }

  lemma ClaimIsPaid(y: System, owner: Pubkey)
    requires SystemOk(y) && y.e.c.phase == Launched && owner in y.e.receipts
    ensures 0 < y.e.c.settledAccepted
    ensures Perform(y, ClaimMove(y, owner)).Done?
    ensures var y' := Perform(y, ClaimMove(y, owner)).state;
      && WasPaid(y', owner)
      && (y'.v.Active? ==> |y'.v.s.balance| == 4)
      && ParticipantFund(y) - ParticipantFund(y')
         == if WasPaid(y, owner) then 0
            else ProRata(y.e.receipts[owner].accepted, Share(y.e.c.supply, 4350), y.e.c.settledAccepted)
  {
    hide ProRata, Covered, Valid, ClaimsMatch, RecordOk, VaultsSolvent, ClaimParticipant, Calendar.ThreeMonthEnd;
    SettledPositive(y.e);
    if y.v.Active? {
      VaultParticipantNeverRefused(y.e, y.v.s, owner);
      ActKeepsTerms(y.v.s, y.e.receipts, y.e.clock, VParticipant(owner));
    } else {
      ParticipantNeverRefused(y.e, y.t, y.window, owner);
    }
  }

  // ---------- frozen terms ----------

  ghost predicate Frozen(s: VaultState, s': VaultState)
  {
    && TermsKept(s.d, s'.d)
    && s.participants.Keys <= s'.participants.Keys
    && forall o :: o in s.participants ==> s'.participants[o] == s.participants[o]
  }

  lemma FrozenIsTransitive(s: VaultState, s1: VaultState, s2: VaultState)
    requires Frozen(s, s1) && Frozen(s1, s2)
    ensures Frozen(s, s2)
  {
  }

  lemma StepFreezes(x: System, m: Move)
    requires SystemOk(x) && x.v.Active?
    ensures Step(x, m).v.Active? && Frozen(x.v.s, Step(x, m).v.s)
  {
    hide ProRata, DevEntitled, VaultOk, CustodyOk, DevDue;
    if m.OnVaults? {
      FourVaults(x);
      ActKeepsTerms(x.v.s, x.e.receipts, x.e.clock, m.va);
    } else if m.LaunchCampaign? {
      NoSecondLaunch(x, m.others, m.held, m.record);
    }
  }

  lemma FourVaults(x: System)
    requires SystemOk(x) && x.v.Active?
    ensures |x.v.s.balance| == 4
  {
  }

  lemma NoSecondLaunch(x: System, others: bool, held: nat, record: Distribution)
    requires SystemOk(x) && x.v.Active?
    ensures LaunchAll(x, others, held, record).Refused?
  {
    hide VaultOk, Covered, Activate;
  }

  /** After activation, over any run: every term decodes to its activation value, no participant payment is undone or
      repeated, and no byte of the record changes except the claimed and burned words and the flags. */
  lemma {:induction false} RunFreezesTerms(x: System, moves: seq<Move>)
    requires SystemOk(x) && x.v.Active?
    ensures Run(x, moves).v.Active? && Frozen(x.v.s, Run(x, moves).v.s)
    decreases |moves|
  {
    if moves != [] {
      hide SystemOk, Step, Frozen;
      StepOk(x, moves[0]);
      StepFreezes(x, moves[0]);
      var x1 := Step(x, moves[0]);
      RunFreezesTerms(x1, moves[1..]);
      FrozenIsTransitive(x.v.s, x1.v.s, Run(x1, moves[1..]).v.s);
    } else {
      hide SystemOk;
    }
  }

  lemma RunFreezesBytes(x: System, moves: seq<Move>, i: nat)
    requires SystemOk(x) && x.v.Active? && i < LENGTH && !CounterByte(i)
    ensures Run(x, moves).v.Active?
    ensures Encode(Run(x, moves).v.s.d)[i] == Encode(x.v.s.d)[i]
    ensures TermsKept(Decode(Encode(x.v.s.d)), Decode(Encode(Run(x, moves).v.s.d)))
  {
    hide SystemOk, Encode, Decode, CounterByte;
    RunFreezesTerms(x, moves);
    OnlyCounterBytesDiffer(x.v.s.d, Run(x, moves).v.s.d, i);
    DecodeUndoesEncode(x.v.s.d);
    DecodeUndoesEncode(Run(x, moves).v.s.d);
  }

  // ---------- paid once ----------

  /** Before activation a paid receipt stays paid, and custody then never hands over to vaults. */
  lemma StepKeepsPaid(x: System, m: Move, owner: Pubkey)
    requires SystemOk(x)
    ensures WasPaid(x, owner) ==> WasPaid(Step(x, m), owner)
    ensures x.t.paid <= Step(x, m).t.paid
  {
    if x.v.Active? {
      CustodyPaidKept(x, m);
      hide SystemOk, Step;
      StepFreezes(x, m);
    } else {
      CustodyPaidKept(x, m);
      if WasPaid(x, owner) {
        ReceiptStaysPaid(x, m, owner);
      }
    }
  }

  lemma CustodyPaidKept(x: System, m: Move)
    requires SystemOk(x)
    ensures x.t.paid <= Step(x, m).t.paid
  {
    hide ProRata, DevDue, VaultOk, CustodyOk, Act, Launch, Activate, Escrow.Step;
  }

  lemma ReceiptStaysPaid(x: System, m: Move, owner: Pubkey)
    requires SystemOk(x) && x.v.NotActive? && owner in x.e.receipts && x.e.receipts[owner].claimed
    ensures var x' := Step(x, m);
      x'.v.NotActive? && owner in x'.e.receipts && x'.e.receipts[owner].claimed
  {
    hide ProRata, DevDue, VaultOk, Covered, Valid, Activate, Entitled, Accepted;
    assert x.e.c.phase == Launched;
    CustodyValid(x.e, x.t, x.window);
    if m.OnEscrow? {
      LaunchedStep(x.e, m.a);
    } else if m.LaunchCampaign? {
      assert !Ready(x.e.c, x.e.clock);
    }
  }

  /** Payments are never undone, whichever program made them: over any run a paid participant stays paid, so each is
      paid once, and every parent claim from custody stays recorded. */
  lemma {:induction false} RunKeepsPaid(x: System, moves: seq<Move>, owner: Pubkey)
    requires SystemOk(x)
    ensures WasPaid(x, owner) ==> WasPaid(Run(x, moves), owner)
    ensures x.t.paid <= Run(x, moves).t.paid
    decreases |moves|
  {
    hide SystemOk, Step, WasPaid;
    if moves != [] {
      StepOk(x, moves[0]);
      StepKeepsPaid(x, moves[0], owner);
      RunKeepsPaid(Step(x, moves[0]), moves[1..], owner);
    }
  }
}

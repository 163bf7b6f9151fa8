/** Every claim and burn keeps launch custody solvent, and what follows for claims, burns and the claim window. */
module CustodySafety {
  import opened Base
  import opened Floors
  import opened Sums
  import opened Escrow
  import opened EscrowInvariant
  import opened EscrowOutcomes
  import opened Vesting
  import opened Custody

  lemma MarkedReceiptsOk(e: State, owner: Pubkey)
    requires Valid(e) && e.c.phase == Launched && owner in e.receipts
    ensures Valid(e.(receipts := e.receipts[owner := e.receipts[owner].(claimed := true)]))
  {
    var r := e.receipts[owner];
    assert ReceiptOk(e.c, e.clock, r);
    ReplaceReceipt(e, e.c, owner, r.(claimed := true));
  }

  lemma UnpaidAfter(e: State, owner: Pubkey)
    requires 0 < e.c.settledAccepted && owner in e.receipts
    ensures var e' := e.(receipts := e.receipts[owner := e.receipts[owner].(claimed := true)]);
      Sum(Unpaid(e')) == Sum(Unpaid(e)) - Claimable(e, e.receipts[owner])
  {
    hide ProRata;
    var e' := e.(receipts := e.receipts[owner := e.receipts[owner].(claimed := true)]);
    assert Unpaid(e') == Unpaid(e)[owner := 0];
    SumUpdate(Unpaid(e), owner, 0);
  }

  lemma ParticipantKeepsOk(e: State, t: Tokens, window: nat, owner: Pubkey)
    requires CustodyOk(e, t, window)
    ensures var out := Participant(e, t, owner);
      out.Done? ==> CustodyOk(out.state.0, out.state.1, window)
  {
    hide ProRata, Valid, Unpaid, DevOk, Sum;
    var out := Participant(e, t, owner);
    if out.Done? && out.state != (e, t) {
      MarkedReceiptsOk(e, owner);
      UnpaidAfter(e, owner);
    }
  }

  lemma DevKeepsOk(e: State, t: Tokens, window: nat)
    requires CustodyOk(e, t, window)
    ensures var out := Dev(e, t); out.Done? ==> CustodyOk(e, out.state, window)
  {
    hide ProRata, Valid, Unpaid, DevDue, Sum;
  }

  lemma ParentKeepsOk(e: State, t: Tokens, window: nat, side: Side, owner: Pubkey, held: nat, allocation: nat,
                      proved: bool)
    requires CustodyOk(e, t, window)
    ensures var out := Parent(e, t, window, side, owner, held, allocation, proved);
      out.Done? ==> CustodyOk(e, out.state, window)
  {
    hide ProRata, Valid, Unpaid, DevDue, Sum;
  }

  lemma BurnKeepsOk(e: State, t: Tokens, window: nat)
    requires CustodyOk(e, t, window)
    ensures var out := BurnExpired(e, t, window); out.Done? ==> CustodyOk(e, out.state, window)
  {
    hide ProRata, Valid, Unpaid, DevDue, Sum;
  }

  /** Before the launch, and while the outcome is open, escrow steps never mark a receipt as claimed. */
  lemma StepClaimsNothing(e: State, a: Action)
    requires forall o :: o in e.receipts ==> !e.receipts[o].claimed
    ensures forall o :: o in Step(e, a).receipts ==> !Step(e, a).receipts[o].claimed
  {
    hide Entitled, Accepted, Refundable;
  }

  /** Escrow steps of a launched campaign do not touch what custody owes. */
  lemma LaunchedStepKeepsOk(e: State, t: Tokens, window: nat, a: Action)
    requires CustodyOk(e, t, window) && e.c.phase == Launched
    ensures CustodyOk(Step(e, a), t, window)
  {
    hide Valid, ProRata, Step;
    var e' := Step(e, a);
    StepKeepsValid(e, a);
    LaunchedStep(e, a);
    ClockOnlyAdvances(e, a);
    if !e.c.activated {
      SettledPositive(e);
      assert Unpaid(e') == Unpaid(e);
      DevOnlyGrows(e.c, e.clock, e'.clock, t.devClaimed);
      SameDue(e.c, e'.c, e'.clock);
    }
  }

  lemma CustodyValid(e: State, t: Tokens, window: nat)
    requires CustodyOk(e, t, window)
    ensures Valid(e)
  {
  }

  lemma SettledPositive(e: State)
    requires Valid(e) && e.c.phase == Launched
    ensures 0 < e.c.settledAccepted
  {
  }

  lemma SameDue(c: Campaign, c': Campaign, now: int)
    requires c'.(refunded := c.refunded) == c
    ensures DevDue(c', now) == DevDue(c, now) && DevPool(c') == DevPool(c)
  {
  }

  lemma ClockOnlyAdvances(e: State, a: Action)
    ensures e.clock <= Step(e, a).clock
  {
  }

  /** The other escrow steps leave custody alone; a launch that leaves all but the liquidity share in custody covers
      it. */
  lemma StepKeepsCustody(e: State, t: Tokens, window: nat, a: Action, t': Tokens)
    requires CustodyOk(e, t, window)
    requires e.c.phase == Launched ==> t' == t
    requires e.c.phase != Launched ==> t' == t.(balance := t'.balance)
    requires e.c.phase != Launched && Step(e, a).c.phase == Launched && !Step(e, a).c.activated ==>
      e.c.supply - Share(e.c.supply, 4350) <= t'.balance
    ensures CustodyOk(Step(e, a), t', window)
  {
    if e.c.phase == Launched {
      LaunchedStepKeepsOk(e, t, window, a);
    } else {
      hide Covered, TokensOwed, Step;
      StepKeepsValid(e, a);
      StepClaimsNothing(e, a);
      if Step(e, a).c.phase == Launched && !Step(e, a).c.activated {
        SupplyFixed(e, a);
        LaunchCovers(Step(e, a), t', window);
      }
    }
  }

  lemma SupplyFixed(e: State, a: Action)
    ensures Step(e, a).c.supply == e.c.supply
  {
  }

  // ---------- consequences ----------

  /** A dev claim is never refused for its books or for lack of coins once the vesting end is known. */
  lemma DevNeverRefused(e: State, t: Tokens, window: nat)
    requires CustodyOk(e, t, window) && e.c.phase == Launched && !e.c.activated && DevDue(e.c, e.clock).Done?
    ensures Dev(e, t).Done?
    ensures Dev(e, t).state.devClaimed == DevDue(e.c, e.clock).state <= DevPool(e.c)
    ensures t.balance - Dev(e, t).state.balance == DevDue(e.c, e.clock).state - t.devClaimed
  {
    hide DevDue;
    SettledPositive(e);
    DevWithinPool(e.c, e.clock, t.devClaimed);
    assert 0 <= Sum(Unpaid(e));
  }

  /** Parent claims and the expiry burn are never both possible: one needs the window open, the other closed. */
  lemma ClaimOrBurn(e: State, t: Tokens, window: nat, side: Side, owner: Pubkey, held: nat, allocation: nat,
                    proved: bool)
    ensures !(Parent(e, t, window, side, owner, held, allocation, proved).Done? && BurnExpired(e, t, window).Done?)
  {
    hide ProRata;
  }

  /** With this build's window of zero no parent claim can ever pay, whatever is proved: launch time has passed. */
  lemma ZeroWindowNeverPays(e: State, t: Tokens, side: Side, owner: Pubkey, held: nat, allocation: nat, proved: bool)
    requires Valid(e)
    ensures Parent(e, t, 0, side, owner, held, allocation, proved).Refused?
  {
    hide ProRata;
  }

  /** The expiry burn is never refused once the window has closed. It empties both reserves exactly, and a second run
      burns nothing. */
  lemma BurnEmptiesReserves(e: State, t: Tokens, window: nat)
    requires CustodyOk(e, t, window) && e.c.phase == Launched && !e.c.activated
    requires 0 < e.c.launchTime && e.c.launchTime + window <= Min(e.clock, I64_MAX)
    ensures BurnExpired(e, t, window).Done?
    ensures var t' := BurnExpired(e, t, window).state;
      && t'.a.claimed == t.a.claimed && t'.b.claimed == t.b.claimed
      && t'.a.claimed + t'.a.burned == t'.b.claimed + t'.b.burned == ParentReserve(e.c)
      && t.balance - t'.balance == (t'.a.burned - t.a.burned) + (t'.b.burned - t.b.burned)
      && BurnExpired(e, t', window) == Done(t')
  {
    hide Valid, Covered;
    ReservesCovered(e, t, window);
    BurnTakesTheRest(e, t, window);
  }

  lemma BurnNeverRefused(e: State, t: Tokens, window: nat)
    requires CustodyOk(e, t, window) && e.c.phase == Launched && !e.c.activated
    requires 0 < e.c.launchTime && e.c.launchTime + window <= Min(e.clock, I64_MAX)
    ensures BurnExpired(e, t, window).Done?
    ensures var t' := BurnExpired(e, t, window).state;
      t'.a.claimed + t'.a.burned == t'.b.claimed + t'.b.burned == ParentReserve(e.c)
  {
    hide CustodyOk, BurnExpired;
    BurnEmptiesReserves(e, t, window);
  }

  lemma ReservesCovered(e: State, t: Tokens, window: nat)
    requires CustodyOk(e, t, window) && e.c.phase == Launched && !e.c.activated
    ensures t.a.claimed + t.a.burned <= ParentReserve(e.c) && t.b.claimed + t.b.burned <= ParentReserve(e.c)
    ensures ParentReserve(e.c) + ParentReserve(e.c) <= t.balance + t.a.claimed + t.a.burned + t.b.claimed + t.b.burned
    ensures ParentReserve(e.c) + ParentReserve(e.c) <= U64_MAX
  {
    hide DevDue;
    SettledPositive(e);
    DevWithinPool(e.c, e.clock, t.devClaimed);
    assert 0 <= Sum(Unpaid(e));
  }

  lemma BurnTakesTheRest(e: State, t: Tokens, window: nat)
    requires e.c.phase == Launched && !e.c.activated
    requires 0 < e.c.launchTime && e.c.launchTime + window <= Min(e.clock, I64_MAX)
    requires t.a.claimed + t.a.burned <= ParentReserve(e.c) && t.b.claimed + t.b.burned <= ParentReserve(e.c)
    requires ParentReserve(e.c) + ParentReserve(e.c) <= t.balance + t.a.claimed + t.a.burned + t.b.claimed + t.b.burned
    requires ParentReserve(e.c) + ParentReserve(e.c) <= U64_MAX
    ensures BurnExpired(e, t, window).Done?
    ensures var t' := BurnExpired(e, t, window).state;
      && t'.a.claimed == t.a.claimed && t'.b.claimed == t.b.claimed
      && t'.a.claimed + t'.a.burned == t'.b.claimed + t'.b.burned == ParentReserve(e.c)
      && t.balance - t'.balance == (t'.a.burned - t.a.burned) + (t'.b.burned - t.b.burned)
      && BurnExpired(e, t', window) == Done(t')
  {
    hide ParentReserve;
  }

  /** What custody holds beyond what it owes. */
  ghost function SpareTokens(e: State, t: Tokens): int
  {
    if 0 < e.c.settledAccepted then t.balance - TokensOwed(e, t) else 0
  }

  /** Every custody instruction pays out or burns exactly what it stops owing: what is spare does not change. */
  lemma ParticipantPaysWhatItOwes(e: State, t: Tokens, window: nat, owner: Pubkey)
    requires CustodyOk(e, t, window) && e.c.phase == Launched && !e.c.activated
    ensures var out := Participant(e, t, owner);
      out.Done? ==> SpareTokens(out.state.0, out.state.1) == SpareTokens(e, t)
  {
    hide ProRata, Valid, Covered, Unpaid, DevDue, Sum;
    SettledPositive(e);
    if owner in e.receipts {
      UnpaidAfter(e, owner);
    }
  }

  lemma DevAndBurnPayWhatTheyOwe(e: State, t: Tokens, window: nat)
    requires CustodyOk(e, t, window) && e.c.phase == Launched && !e.c.activated
    ensures Dev(e, t).Done? ==> SpareTokens(e, Dev(e, t).state) == SpareTokens(e, t)
    ensures BurnExpired(e, t, window).Done? ==> SpareTokens(e, BurnExpired(e, t, window).state) == SpareTokens(e, t)
  {
    hide ProRata, Valid, Covered, Unpaid, DevDue, Sum, ParentReserve, DevPool;
    SettledPositive(e);
  }

  /** What tag 10 asks of a parent claim before it looks at what was already paid. */
  ghost predicate ParentEntitled(e: State, t: Tokens, window: nat, side: Side, held: nat, allocation: nat, proved: bool)
  {
    var r, expiry := Of(t, side), ClaimsExpireAt(e.c, window);
    && proved && expiry.Done? && e.clock < expiry.state
    && Threshold(r.supply) <= held <= r.eligible && 0 < r.eligible
    && allocation == ProRata(held, ParentReserve(e.c), r.eligible)
  }

  /** A parent claim is accepted exactly when it is entitled and, unless it was paid before, the reserve still covers
      it; custody itself never runs short. It is paid once. */
  lemma ParentPaysWhatItOwes(e: State, t: Tokens, window: nat, side: Side, owner: Pubkey, held: nat,
                             allocation: nat, proved: bool)
    requires CustodyOk(e, t, window) && e.c.phase == Launched && !e.c.activated
    ensures var out := Parent(e, t, window, side, owner, held, allocation, proved);
      && (out.Done? <==>
            && ParentEntitled(e, t, window, side, held, allocation, proved)
            && ((side, owner) in t.paid
                || Of(t, side).claimed + allocation + Of(t, side).burned <= ParentReserve(e.c)))
      && (out.Done? ==>
            && SpareTokens(e, out.state) == SpareTokens(e, t)
            && out.state.paid == t.paid + {(side, owner)}
            && t.balance - out.state.balance == if (side, owner) in t.paid then 0 else allocation)
  {
    hide ProRata, Valid, Unpaid, DevDue, Sum;
    SettledPositive(e);
    ReservesCovered(e, t, window);
    ParentCovered(e, t, window, side);
  }

  lemma ParentCovered(e: State, t: Tokens, window: nat, side: Side)
    requires CustodyOk(e, t, window) && e.c.phase == Launched && !e.c.activated
    ensures ParentReserve(e.c) <= t.balance + Of(t, side).claimed + Of(t, side).burned
  {
    hide ParentReserve;
    ReservesCovered(e, t, window);
  }
}

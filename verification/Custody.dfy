/** Token claims paid from launch custody, for campaigns without a distribution program: participants, dev, parents,
    and the burn of expired parent reserves. */
module Custody {
  import opened Base
  import opened Bytes
  import opened Floors
  import opened Sums
  import opened Escrow
  import opened EscrowInvariant
  import opened Calendar
  import opened Vesting

  datatype Side = A | B

  /** One parent: its snapshot supply, eligible total and Merkle root, and what was claimed from and burned of its
      reserve. */
  datatype Reserve = Reserve(supply: U64, eligible: U64, root: Bytes32, claimed: nat, burned: nat)

  /** Launch custody's coin balance, the dev's claimed total, both parent reserves, when the first expiry burn ran, and
      which parent claims exist. */
  datatype Tokens = Tokens(balance: nat, devClaimed: nat, a: Reserve, b: Reserve, burnedAt: int,
                           paid: set<(Side, Pubkey)>)

  function Of(t: Tokens, side: Side): Reserve
  {
    if side == A then t.a else t.b
  }

  /** The index byte of a parent, as leaves carry it. */
  function SideByte(side: Side): Byte { if side == A then 0 else 1 }

  function With(t: Tokens, side: Side, r: Reserve): Tokens
  {
    if side == A then t.(a := r) else t.(b := r)
  }

  function ParentReserve(c: Campaign): nat { Share(c.supply, 500) }

  function ParticipantPool(c: Campaign): nat { Share(c.supply, 4350) }

  function DevPool(c: Campaign): nat { Share(c.supply, 300) }

  /** 0.05 % of a parent's snapshot supply, rounded up. */
  function Threshold(supply: nat): nat { (supply * 5 + 9999) / 10000 }

  lemma ThresholdRoundsUp(supply: nat, n: nat)
    ensures Threshold(supply) <= n <==> supply * 5 <= n * 10000
  {
  }

  /** First second at which parent claims are refused and the expiry burn is allowed. */
  function ClaimsExpireAt(c: Campaign, window: nat): Outcome<int>
  {
    if c.launchTime <= 0 || I64_MAX < c.launchTime + window then Refused(Custom(10)) else Done(c.launchTime + window)
  }

  /** What the dev may have claimed by now, if the vesting end can be computed. */
  function DevDue(c: Campaign, now: int): Outcome<nat>
  {
    if c.launchTime <= 0 || now < c.launchTime then Refused(Custom(30))
    else match ThreeMonthEnd(c.launchTime)
      case Refused(e) => Refused(e)
      case Done(end) =>
        Done(DevEntitled(c.supply, c.launchTime, end, now))
  }

  /** Tag 7. */
  function Participant(e: State, t: Tokens, owner: Pubkey): Outcome<(State, Tokens)>
  {
    if e.c.activated then Refused(Custom(40))
    else if owner !in e.receipts then Refused(InvalidAccount)
    else
      var r := e.receipts[owner];
      if e.c.phase != Launched || !r.settled then Refused(Custom(30))
      else if r.claimed then Done((e, t))
      else if e.c.settledAccepted == 0 || e.c.settledAccepted < r.accepted then Refused(Custom(30))
      else
        var amount := ProRata(r.accepted, ParticipantPool(e.c), e.c.settledAccepted);
        if t.balance < amount then Refused(Custom(30))
        else Done((e.(receipts := e.receipts[owner := r.(claimed := true)]), t.(balance := t.balance - amount)))
  }

  /** Tag 8. */
  function Dev(e: State, t: Tokens): Outcome<Tokens>
  {
    if e.c.activated then Refused(Custom(40))
    else if e.c.phase != Launched then Refused(Custom(30))
    else match DevDue(e.c, e.clock)
      case Refused(error) => Refused(error)
      case Done(entitled) =>
        if entitled < t.devClaimed then Refused(Custom(10))
        else if t.balance < entitled - t.devClaimed then Refused(Custom(30))
        else Done(t.(balance := t.balance - (entitled - t.devClaimed), devClaimed := entitled))
  }

  /** Tag 10. `proved` says the Merkle proof leads from this claim to the published root. */
  function Parent(e: State, t: Tokens, window: nat, side: Side, owner: Pubkey, held: nat, allocation: nat, proved: bool)
    : Outcome<Tokens>
  {
    var r := Of(t, side);
    if e.c.activated then Refused(Custom(40))
    else if e.c.phase != Launched then Refused(Custom(30))
    else match ClaimsExpireAt(e.c, window)
      case Refused(error) => Refused(error)
      case Done(expiry) =>
        if expiry <= e.clock then Refused(Custom(45))
        else if held < Threshold(r.supply) || r.eligible == 0 || r.eligible < held then Refused(Custom(30))
        else if allocation != ProRata(held, ParentReserve(e.c), r.eligible) || !proved then Refused(Custom(30))
        else if (side, owner) in t.paid then Done(t)
        else if U64_MAX < r.claimed + allocation || U64_MAX < r.claimed + allocation + r.burned then Refused(Custom(10))
        else if ParentReserve(e.c) < r.claimed + allocation + r.burned then Refused(Custom(30))
        else if t.balance < allocation then Refused(Custom(30))
        else Done(With(t, side, r.(claimed := r.claimed + allocation))
                  .(balance := t.balance - allocation, paid := t.paid + {(side, owner)}))
  }

  /** What the expiry burn takes of one reserve. */
  function UnclaimedRemainder(r: Reserve, reserve: nat): Outcome<nat>
  {
    if reserve < r.claimed + r.burned then Refused(Custom(10)) else Done(reserve - r.claimed - r.burned)
  }

  /** Tag 11. */
  function BurnExpired(e: State, t: Tokens, window: nat): Outcome<Tokens>
  {
    var reserve := ParentReserve(e.c);
    if e.c.activated then Refused(Custom(40))
    else if e.c.phase != Launched then Refused(Custom(30))
    else match ClaimsExpireAt(e.c, window)
      case Refused(error) => Refused(error)
      case Done(expiry) =>
        if e.clock < expiry then Refused(Custom(46))
        else if UnclaimedRemainder(t.a, reserve).Refused? || UnclaimedRemainder(t.b, reserve).Refused?
        then Refused(Custom(10))
        else
          var restA, restB := UnclaimedRemainder(t.a, reserve).state, UnclaimedRemainder(t.b, reserve).state;
          if U64_MAX < restA + restB then Refused(Custom(10))
          else if t.balance < restA + restB then Refused(Custom(30))
          else if U64_MAX < t.a.burned + restA || U64_MAX < t.b.burned + restB then Refused(Custom(10))
          else Done(t.(a := t.a.(burned := t.a.burned + restA), b := t.b.(burned := t.b.burned + restB),
                       balance := t.balance - restA - restB,
                       burnedAt := if t.burnedAt == 0 then e.clock else t.burnedAt))
  }

  // ---------- invariant ----------

  /** What each receipt's participant claim will still pay. */
  ghost function Unpaid(e: State): map<Pubkey, nat>
    requires 0 < e.c.settledAccepted
  {
    map o | o in e.receipts :: Claimable(e, e.receipts[o])
  }

  ghost function Claimable(e: State, r: Receipt): nat
    requires 0 < e.c.settledAccepted
  {
    if r.claimed then 0 else ProRata(r.accepted, ParticipantPool(e.c), e.c.settledAccepted)
  }

  /** Everything custody still owes: unpaid participants, the rest of the dev pool, and both parents' open reserves. */
  ghost function TokensOwed(e: State, t: Tokens): int
    requires 0 < e.c.settledAccepted
  {
    Sum(Unpaid(e)) + (DevPool(e.c) - t.devClaimed)
    + (ParentReserve(e.c) - t.a.claimed - t.a.burned) + (ParentReserve(e.c) - t.b.claimed - t.b.burned)
  }

  ghost predicate DevOk(c: Campaign, now: int, claimed: nat)
  {
    claimed == 0 || (DevDue(c, now).Done? && claimed <= DevDue(c, now).state)
  }

  ghost predicate Untouched(t: Tokens)
  {
    t.devClaimed == 0 && t.a.claimed == t.a.burned == t.b.claimed == t.b.burned == 0 && t.paid == {} && t.burnedAt == 0
  }

  /** Custody covers what it owes; reserves are never overdrawn; expiry burns happened only after expiry. */
  ghost predicate Covered(e: State, t: Tokens, window: nat)
    requires 0 < e.c.settledAccepted
  {
    && TokensOwed(e, t) <= t.balance
    && t.a.claimed + t.a.burned <= ParentReserve(e.c)
    && t.b.claimed + t.b.burned <= ParentReserve(e.c)
    && DevOk(e.c, e.clock, t.devClaimed)
    && (0 < t.a.burned || 0 < t.b.burned || t.burnedAt != 0 ==> e.c.launchTime + window <= e.clock)
  }

  ghost predicate CustodyOk(e: State, t: Tokens, window: nat)
  {
    && Valid(e)
    && (e.c.phase != Launched || e.c.activated ==>
          Untouched(t) && forall o :: o in e.receipts ==> !e.receipts[o].claimed)
    && (e.c.phase == Launched && !e.c.activated ==> Covered(e, t, window))
  }

  /** All participant claims together fit the participant pool: the settled sums make it so. */
  lemma ParticipantsFitPool(e: State)
    requires Valid(e) && 0 < e.c.settledAccepted
    ensures Sum(Unpaid(e)) <= ParticipantPool(e.c)
  {
    var m := Accepteds(e.receipts);
    var all := Scaled(m, ParticipantPool(e.c), e.c.settledAccepted);
    SumLe(Unpaid(e), all);
    ScaledSumOfWhole(m, ParticipantPool(e.c));
  }

  /** Right after the launch, custody covers everything it will owe. */
  lemma LaunchCovers(e: State, t: Tokens, window: nat)
    requires Valid(e) && e.c.phase == Launched && Untouched(t)
    requires e.c.supply - Share(e.c.supply, 4350) <= t.balance
    ensures Covered(e, t, window)
  {
    ParticipantsFitPool(e);
    SharesConserveSupply(e.c.supply);
  }

  lemma AcceptedWithinSettled(e: State, owner: Pubkey)
    requires Valid(e) && owner in e.receipts
    ensures e.receipts[owner].accepted <= e.c.settledAccepted
  {
    SumElement(Accepteds(e.receipts), owner);
  }

  /** A participant claim is never refused for lack of coins, at any time after the launch: it pays exactly the floored
      pro-rata part of the participant pool, once. */
  lemma ParticipantNeverRefused(e: State, t: Tokens, window: nat, owner: Pubkey)
    requires CustodyOk(e, t, window) && e.c.phase == Launched && !e.c.activated && owner in e.receipts
    ensures Participant(e, t, owner).Done?
    ensures var (e', t') := Participant(e, t, owner).state;
      && owner in e'.receipts && e'.receipts[owner].claimed
      && 0 < e.c.settledAccepted && t.balance - t'.balance == Claimable(e, e.receipts[owner])
  {
    hide ProRata, Sum, DevDue;
    assert ReceiptOk(e.c, e.clock, e.receipts[owner]);
    AcceptedWithinSettled(e, owner);
    SumElement(Unpaid(e), owner);
    DevWithinPool(e.c, e.clock, t.devClaimed);
  }

  /** What is due is one percent and the linear part of two percent, to the unit. */
  lemma DevDueIsLinear(c: Campaign, now: int)
    requires DevDue(c, now).Done?
    ensures ThreeMonthEnd(c.launchTime).Done?
    ensures LinearEntitlement(c.supply, c.launchTime, ThreeMonthEnd(c.launchTime).state, now, DevDue(c, now).state)
  {
    hide ThreeMonthEnd, DevEntitled;
    DevEntitledIsLinear(c.supply, c.launchTime, ThreeMonthEnd(c.launchTime).state, now);
  }

  lemma DevWithinPool(c: Campaign, now: int, claimed: nat)
    requires DevOk(c, now, claimed)
    ensures claimed <= DevPool(c)
    ensures DevDue(c, now).Done? ==> DevDue(c, now).state <= DevPool(c)
  {
    if DevDue(c, now).Done? {
      ThreeMonthEndIsCalendar(c.launchTime);
      DevEntitledBounds(c.supply, c.launchTime, ThreeMonthEnd(c.launchTime).state, now, now);
    }
  }

  lemma DevOnlyGrows(c: Campaign, now: int, later: int, claimed: nat)
    requires DevOk(c, now, claimed) && now <= later
    ensures DevOk(c, later, claimed)
  {
    if claimed != 0 {
      ThreeMonthEndIsCalendar(c.launchTime);
      DevEntitledBounds(c.supply, c.launchTime, ThreeMonthEnd(c.launchTime).state, now, later);
    }
  }
}

/** The launch program run in place: each tag reads its accounts, updates the copies step by step and writes them
    back. */
module LaunchProgram {
  import opened Base
  import opened Floors
  import opened Escrow
  import opened EscrowInvariant
  import opened EscrowOutcomes
  import opened EscrowEffects
  import opened Calendar
  import opened Vesting
  import opened Custody
  import opened CustodySafety
  import opened Bytes
  import opened Merkle
  import opened ParentProofs

  class Program {
    var campaign: Campaign
    var receipts: map<Pubkey, Receipt>
    var lamports: nat
    var elsewhere: nat
    var clock: int
    const rent: nat
    var tokens: Tokens

    ghost function View(): State
      reads this
    {
      State(campaign, receipts, lamports, elsewhere, clock, rent)
    }

    /** A launched campaign whose coins are claimed from launch custody. */
    ghost predicate Paying(window: nat)
      reads this
    {
      CustodyOk(View(), tokens, window) && campaign.phase == Launched && !campaign.activated
    }

    /** A created campaign account, from the state tag 0 leaves behind. */
    constructor (s: State, t: Tokens)
      requires Valid(s)
      ensures View() == s && tokens == t
    {
      campaign, receipts, lamports, elsewhere, clock, rent := s.c, s.receipts, s.lamports, s.elsewhere, s.clock, s.rent;
      tokens := t;
    }

    /** Takes exactly the amount from the wallet and books it on its receipt, once per sequence number. */
    method CommitSol(owner: Pubkey, amount: nat, sequence: nat, held: nat, receiptRent: nat) returns (status: Status)
      modifies this`campaign, this`receipts, this`lamports, this`elsewhere
      ensures Agrees(Commit(old(View()), owner, amount, sequence, held, receiptRent), status, old(View()), View())
      ensures old(Valid(View())) ==> Valid(View())
      ensures old(Valid(View())) && held <= old(elsewhere) ==>
        (status == Ok <==>
          && clock < old(campaign).deadline && old(campaign).parentsConfigured && 0 < amount
          && sequence == NextSequence(old(View()), owner) && sequence < U64_MAX
          && Cost(old(View()), owner, amount, receiptRent) <= held)
      ensures status == Ok ==>
        && lamports == old(lamports) + amount && elsewhere == old(elsewhere) - amount
        && campaign.total == old(campaign).total + amount
        && CommittedBy(View(), owner) == CommittedBy(old(View()), owner) + amount
    {
      hide Valid;
      if Valid(View()) {
        CommitKeepsValid(View(), owner, amount, sequence, held, receiptRent);
        if held <= elsewhere {
          CommitAcceptance(View(), owner, amount, sequence, held, receiptRent);
        }
      }
      if elsewhere < held { return Err(InvalidAccount); }
      var c := campaign;
      if c.phase != Open || c.deadline <= clock { return Err(Custom(2)); }
      if !c.parentsConfigured { return Err(Custom(22)); }
      if amount == 0 { return Err(Custom(3)); }
      var r := NEW_RECEIPT;
      var wallet := held;
      if owner !in receipts {
        if sequence != 0 { return Err(Custom(4)); }
        if wallet < receiptRent { return Err(InsufficientFunds); }
        wallet := wallet - receiptRent;
        if U64_MAX < c.receiptCount + 1 { return Err(Custom(10)); }
        c := c.(receiptCount := c.receiptCount + 1);
      } else {
        r := receipts[owner];
      }
      if r.sequence != sequence { return Err(Custom(4)); }
      if U64_MAX < c.total + amount { return Err(Custom(10)); }
      c := c.(total := c.total + amount);
      if U64_MAX < r.committed + amount { return Err(Custom(10)); }
      r := r.(committed := r.committed + amount);
      if U64_MAX < r.sequence + 1 { return Err(Custom(10)); }
      r := r.(sequence := r.sequence + 1);
      if wallet < amount { return Err(InsufficientFunds); }
      elsewhere, lamports := elsewhere - amount, lamports + amount;
      campaign := c;
      receipts := receipts[owner := r];
      return Ok;
    }

    method CloseCampaign() returns (status: Status)
      modifies this`campaign
      ensures Agrees(Close(old(View())), status, old(View()), View())
      ensures old(Valid(View())) ==> Valid(View())
    {
      hide Valid;
      if Valid(View()) { CloseKeepsValid(View()); }
      var c := campaign;
      if clock < c.deadline { return Err(Custom(5)); }
      if c.phase == Open {
        c := c.(phase := if c.total < c.soft then Failed else Closed);
      }
      if c.launchDeadline <= clock && c.phase != Launched {
        c := c.(phase := Failed);
      }
      campaign := c;
      return Ok;
    }

    /** Anyone may have a receipt's refund paid to its owner; a second payout changes nothing. */
    method RefundReceipt(owner: Pubkey, held: nat) returns (status: Status)
      modifies this`campaign, this`receipts, this`lamports, this`elsewhere
      ensures Agrees(Refund(old(View()), owner, held), status, old(View()), View())
      ensures old(Valid(View())) ==> Valid(View())
      ensures old(Valid(View())) && campaign.deadline <= clock && owner in old(receipts) && held <= old(elsewhere) ==>
        && status == Ok && owner in receipts && receipts[owner].refunded == Entitled(old(View()), old(receipts)[owner])
        && old(lamports) - lamports == receipts[owner].refunded - old(receipts)[owner].refunded
    {
      hide Valid, Refundable;
      if Valid(View()) {
        RefundKeepsValid(View(), owner, held);
        if campaign.deadline <= clock && owner in receipts && held <= elsewhere {
          RefundPaysEntitlement(View(), owner, held);
        }
      }
      if elsewhere < held || owner !in receipts { return Err(InvalidAccount); }
      var c, r := campaign, receipts[owner];
      if clock < c.deadline { return Err(Custom(5)); }
      var failed := c.total < c.soft || (c.launchDeadline <= clock && c.phase != Launched);
      if failed {
        c := c.(phase := Failed);
      } else if c.phase == Open {
        c := c.(phase := Closed);
      }
      var entitled := Refundable(r.committed, c.total, c.hard, failed);
      if entitled < r.refunded { return Err(Custom(10)); }
      var amount := entitled - r.refunded;
      if amount == 0 { return Ok; }
      if lamports < amount || lamports - amount < rent { return Err(InsufficientFunds); }
      if U64_MAX < held + amount { return Err(Custom(10)); }
      if U64_MAX < c.refunded + amount { return Err(Custom(10)); }
      lamports, elsewhere := lamports - amount, elsewhere + amount;
      c := c.(refunded := c.refunded + amount);
      r := r.(refunded := entitled);
      campaign := c;
      receipts := receipts[owner := r];
      return Ok;
    }

    method SettleReceipt(owner: Pubkey) returns (status: Status)
      modifies this`campaign, this`receipts
      ensures Agrees(Settle(old(View()), owner), status, old(View()), View())
      ensures old(Valid(View())) ==> Valid(View())
      ensures old(Valid(View())) && campaign.deadline <= clock && owner in old(receipts) ==>
        status == Ok && owner in receipts && receipts[owner].settled
    {
      hide Valid, Refundable;
      if Valid(View()) {
        SettleKeepsValid(View(), owner);
        if campaign.deadline <= clock && owner in receipts {
          SettleNeverRefused(View(), owner);
        }
      }
      if owner !in receipts { return Err(InvalidAccount); }
      var c, r := campaign, receipts[owner];
      if clock < c.deadline { return Err(Custom(5)); }
      if r.settled { return Ok; }
      var accepted := r.committed - Refundable(r.committed, c.total, c.hard, false);
      var count, aggregate := c.settledCount + 1, c.settledAccepted + accepted;
      if U64_MAX < count || U64_MAX < aggregate { return Err(Custom(10)); }
      if c.receiptCount < count || Min(c.total, c.hard) < aggregate { return Err(Custom(11)); }
      c := c.(settledCount := count, settledAccepted := aggregate);
      r := r.(accepted := accepted, settled := true);
      campaign := c;
      receipts := receipts[owner := r];
      return Ok;
    }

    /** The lamport side of the launch. */
    method LaunchSol(others: bool, held: nat) returns (status: Status)
      modifies this`campaign, this`lamports, this`elsewhere
      ensures Agrees(Launch(old(View()), others, held), status, old(View()), View())
      ensures old(Valid(View())) ==> Valid(View())
      ensures old(Valid(View())) && others && held <= old(elsewhere) ==> (status == Ok <==> Ready(old(campaign), clock))
    {
      hide Valid;
      if Valid(View()) {
        LaunchKeepsValid(View(), others, held);
        if Ready(campaign, clock) && held <= elsewhere {
          LaunchNeverUnderfunded(View(), held);
        }
      }
      var c := campaign;
      if elsewhere < held { return Err(InvalidAccount); }
      if !Ready(c, clock) || !c.parentsConfigured || !others { return Err(Custom(21)); }
      if c.total < c.settledAccepted || c.total - c.settledAccepted < c.refunded { return Err(Custom(10)); }
      var liability := c.total - c.settledAccepted - c.refunded;
      var reserve := rent + liability;
      if U64_MAX < reserve { return Err(Custom(10)); }
      if lamports < c.settledAccepted { return Err(InsufficientFunds); }
      var balance := lamports - c.settledAccepted;
      if balance < reserve { return Err(Custom(21)); }
      if U64_MAX < held + c.settledAccepted { return Err(Custom(10)); }
      lamports, elsewhere := balance, elsewhere + c.settledAccepted;
      c := c.(phase := Launched, launchTime := clock);
      if c.distribution {
        c := c.(activated := true);
      } else {
        c := c.(activated := false);
      }
      campaign := c;
      return Ok;
    }

    /** Participant claim from launch custody, paid once; never refused to a registered owner of a launched campaign. */
    method ClaimParticipant(owner: Pubkey, ghost window: nat) returns (status: Status)
      modifies this`receipts, this`tokens
      ensures Agrees(Participant(old(View()), old(tokens), owner), status, (old(View()), old(tokens)), (View(), tokens))
      ensures old(CustodyOk(View(), tokens, window)) ==> CustodyOk(View(), tokens, window)
      ensures old(Paying(window)) && owner in old(receipts) ==>
        && status == Ok && 0 < campaign.settledAccepted
        && old(tokens).balance - tokens.balance == Claimable(old(View()), old(receipts)[owner])
    {
      hide CustodyOk, ProRata, ParticipantPool, Valid;
      if CustodyOk(View(), tokens, window) {
        ParticipantKeepsOk(View(), tokens, window, owner);
        if Paying(window) && owner in receipts {
          CustodyValid(View(), tokens, window);
          SettledPositive(View());
          ParticipantNeverRefused(View(), tokens, window, owner);
        }
      }
      var c, t := campaign, tokens;
      if c.activated { return Err(Custom(40)); }
      if owner !in receipts { return Err(InvalidAccount); }
      var r := receipts[owner];
      if c.phase != Launched || !r.settled { return Err(Custom(30)); }
      if r.claimed { return Ok; }
      if c.settledAccepted == 0 || c.settledAccepted < r.accepted { return Err(Custom(30)); }
      var amount := ProRata(r.accepted, ParticipantPool(c), c.settledAccepted);
      if t.balance < amount { return Err(Custom(30)); }
      tokens := t.(balance := t.balance - amount);
      r := r.(claimed := true);
      receipts := receipts[owner := r];
      return Ok;
    }

    /** Dev claim; once the vesting end can be computed it pays exactly up to the entitlement of the moment. */
    method ClaimDev(ghost window: nat) returns (status: Status)
      modifies this`tokens
      ensures Agrees(Dev(old(View()), old(tokens)), status, old(tokens), tokens)
      ensures old(CustodyOk(View(), tokens, window)) ==> CustodyOk(View(), tokens, window)
      ensures old(Paying(window)) && DevDue(campaign, clock).Done? ==>
        && status == Ok && tokens.devClaimed == DevDue(campaign, clock).state
        && ThreeMonthEnd(campaign.launchTime).Done?
        && LinearEntitlement(campaign.supply, campaign.launchTime, ThreeMonthEnd(campaign.launchTime).state, clock,
                             tokens.devClaimed)
        && old(tokens).balance - tokens.balance == tokens.devClaimed - old(tokens).devClaimed
    {
      hide CustodyOk, DevDue, Valid, LinearEntitlement, ThreeMonthEnd;
      if CustodyOk(View(), tokens, window) {
        DevKeepsOk(View(), tokens, window);
        if Paying(window) && DevDue(campaign, clock).Done? {
          DevNeverRefused(View(), tokens, window);
          DevDueIsLinear(campaign, clock);
        }
      }
      var c, t := campaign, tokens;
      if c.activated { return Err(Custom(40)); }
      if c.phase != Launched { return Err(Custom(30)); }
      var due := DevDue(c, clock);
      if due.Refused? { return Err(due.error); }
      if due.state < t.devClaimed { return Err(Custom(10)); }
      var amount := due.state - t.devClaimed;
      if t.balance < amount { return Err(Custom(30)); }
      t := t.(balance := t.balance - amount);
      t := t.(devClaimed := due.state);
      tokens := t;
      return Ok;
    }

    /** Parent claim from launch custody, with the proof folded up to the published root. */
    method ClaimParent(h: Hasher, address: Bytes32, window: nat, side: Side, owner: Pubkey, held: nat, allocation: nat,
                       proof: seq<Byte>) returns (status: Status)
      modifies this`tokens
      ensures var root := Of(old(tokens), side).root;
        var proved := Proves(h, address, SideByte(side), owner, held, allocation, proof, root);
        Agrees(Parent(old(View()), old(tokens), window, side, owner, held, allocation, proved),
               status, old(tokens), tokens)
      ensures old(CustodyOk(View(), tokens, window)) ==> CustodyOk(View(), tokens, window)
      ensures old(Paying(window)) ==> SpareTokens(View(), tokens) == SpareTokens(View(), old(tokens))
    {
      hide CustodyOk, ProRata, Proves, Valid, SpareTokens;
      ghost var proves := Proves(h, address, SideByte(side), owner, held, allocation, proof, Of(tokens, side).root);
      if CustodyOk(View(), tokens, window) {
        ParentKeepsOk(View(), tokens, window, side, owner, held, allocation, proves);
        if Paying(window) {
          ParentPaysWhatItOwes(View(), tokens, window, side, owner, held, allocation, proves);
        }
      }
      var c, t := campaign, tokens;
      if c.activated { return Err(Custom(40)); }
      if c.phase != Launched { return Err(Custom(30)); }
      var expiry := ClaimsExpireAt(c, window);
      if expiry.Refused? { return Err(expiry.error); }
      if expiry.state <= clock { return Err(Custom(45)); }
      var reserve, r := ParentReserve(c), Of(t, side);
      if held < Threshold(r.supply) || r.eligible == 0 || r.eligible < held { return Err(Custom(30)); }
      if allocation != ProRata(held, reserve, r.eligible) { return Err(Custom(30)); }
      var root := ImpliedRoot(h, address, SideByte(side), owner, held, allocation, proof);
      if root != r.root { return Err(Custom(30)); }
      if (side, owner) in t.paid { return Ok; }
      var claimed := r.claimed + allocation;
      if U64_MAX < claimed || U64_MAX < claimed + r.burned { return Err(Custom(10)); }
      if reserve < claimed + r.burned { return Err(Custom(30)); }
      if t.balance < allocation { return Err(Custom(30)); }
      t := t.(paid := t.paid + {(side, owner)}, balance := t.balance - allocation);
      r := r.(claimed := claimed);
      tokens := With(t, side, r);
      return Ok;
    }

    /** Burns the unclaimed rest of both parent reserves once the window has closed. */
    method BurnExpiredParentReserves(window: nat) returns (status: Status)
      modifies this`tokens
      ensures Agrees(BurnExpired(old(View()), old(tokens), window), status, old(tokens), tokens)
      ensures old(CustodyOk(View(), tokens, window)) ==> CustodyOk(View(), tokens, window)
      ensures old(Paying(window)) && 0 < campaign.launchTime && campaign.launchTime + window <= Min(clock, I64_MAX) ==>
        && status == Ok
        && tokens.a.claimed + tokens.a.burned == tokens.b.claimed + tokens.b.burned == ParentReserve(campaign)
    {
      hide CustodyOk, Valid;
      if CustodyOk(View(), tokens, window) {
        BurnKeepsOk(View(), tokens, window);
        if Paying(window) && 0 < campaign.launchTime && campaign.launchTime + window <= Min(clock, I64_MAX) {
          BurnNeverRefused(View(), tokens, window);
        }
      }
      var c, t := campaign, tokens;
      if c.activated { return Err(Custom(40)); }
      if c.phase != Launched { return Err(Custom(30)); }
      var expiry := ClaimsExpireAt(c, window);
      if expiry.Refused? { return Err(expiry.error); }
      if clock < expiry.state { return Err(Custom(46)); }
      var reserve := ParentReserve(c);
      var restA, restB := UnclaimedRemainder(t.a, reserve), UnclaimedRemainder(t.b, reserve);
      if restA.Refused? || restB.Refused? { return Err(Custom(10)); }
      var total := restA.state + restB.state;
      if U64_MAX < total { return Err(Custom(10)); }
      if total > 0 {
        if t.balance < total { return Err(Custom(30)); }
        t := t.(balance := t.balance - total);
      }
      if U64_MAX < t.a.burned + restA.state || U64_MAX < t.b.burned + restB.state { return Err(Custom(10)); }
      t := t.(a := t.a.(burned := t.a.burned + restA.state));
      t := t.(b := t.b.(burned := t.b.burned + restB.state));
      if t.burnedAt == 0 {
        t := t.(burnedAt := clock);
      }
      tokens := t;
      return Ok;
    }
  }
}

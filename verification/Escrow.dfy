/** The SOL escrow of the launch program: what each instruction does to the campaign, its receipts and its lamports. */
module Escrow {
  import opened Base
  import opened Floors

  datatype Phase = Open | Closed | Failed | Launched

  datatype Campaign = Campaign(
    soft: nat, hard: nat, deadline: int, launchDeadline: int,
    total: nat, refunded: nat, phase: Phase,
    receiptCount: nat, settledCount: nat, settledAccepted: nat,
    supply: nat, launchTime: int,
    distribution: bool,       // a distribution program was recorded at creation
    activated: bool,          // its claim vaults were funded by the launch
    parentsConfigured: bool)

  datatype Receipt = Receipt(
    committed: nat, refunded: nat, sequence: nat, settled: bool, accepted: nat, claimed: bool)

  /** The campaign account, its receipts, its lamport balance, the lamports held by every other account, the
      cluster clock and the campaign account's rent-exempt minimum. */
  datatype State = State(
    c: Campaign, receipts: map<Pubkey, Receipt>, lamports: nat, elsewhere: nat, clock: int, rent: nat)

  /** What a commitment is owed back: everything after a failure, else the excess over its floored pro-rata part. */
  function Refundable(committed: nat, total: nat, hard: nat, failed: bool): (r: nat)
    ensures r <= committed
  {
    if failed then committed
    else if total <= hard then 0
    else
      ShareAtMostBalance(committed, hard, total);
      committed - ProRata(committed, hard, total)
  }

  function Accepted(committed: nat, total: nat, hard: nat): nat
  {
    committed - Refundable(committed, total, hard, false)
  }

  predicate Ready(c: Campaign, now: int)
  {
    && c.deadline <= now < c.launchDeadline
    && c.phase != Failed && c.phase != Launched
    && c.soft <= c.total
    && 0 < c.receiptCount && c.settledCount == c.receiptCount
    && c.soft <= c.settledAccepted
  }

  /** The campaign can no longer launch, so refunds are paid in full. */
  predicate HasFailed(c: Campaign, now: int)
  {
    c.total < c.soft || (c.launchDeadline <= now && c.phase != Launched)
  }

  /** Tag 0. `lamports` is what the campaign address holds once it has been made rent exempt. */
  function Create(soft: nat, hard: nat, deadline: int, launchDeadline: int, supply: nat, distribution: bool,
                  keysSet: bool, lamports: nat, elsewhere: nat, clock: int, rent: nat): Outcome<State>
  {
    if supply != FIXED_SUPPLY || !keysSet then Refused(Custom(20))
    else if soft == 0 || hard < soft || deadline <= clock || launchDeadline <= deadline then Refused(Custom(1))
    else
      var c := Campaign(soft, hard, deadline, launchDeadline, 0, 0, Open, 0, 0, 0, supply, 0, distribution, false,
                        false);
      Done(State(c, map[], lamports, elsewhere, clock, rent))
  }

  /** Tag 9, the part that unlocks commitments. `valid` stands for its checks on the parent mints and roots. */
  function Configure(s: State, valid: bool): Outcome<State>
  {
    if !valid || s.c.phase != Open || s.c.total != 0 || s.c.receiptCount != 0 || s.c.deadline <= s.clock
    then Refused(Custom(30))
    else Done(s.(c := s.c.(parentsConfigured := true)))
  }

  const NEW_RECEIPT := Receipt(0, 0, 0, false, 0, false)

  /** Tag 1. `held` is the committing wallet's balance, `receiptRent` what creating its receipt would cost it. */
  function Commit(s: State, owner: Pubkey, amount: nat, sequence: nat, held: nat, receiptRent: nat): Outcome<State>
  {
    var c := s.c;
    var isNew := owner !in s.receipts;
    var r := if isNew then NEW_RECEIPT else s.receipts[owner];
    if s.elsewhere < held then Refused(InvalidAccount)
    else if c.phase != Open || c.deadline <= s.clock then Refused(Custom(2))
    else if !c.parentsConfigured then Refused(Custom(22))
    else if amount == 0 then Refused(Custom(3))
    else if r.sequence != sequence then Refused(Custom(4))
    else if isNew && (held < receiptRent || U64_MAX < c.receiptCount + 1) then
      Refused(if held < receiptRent then InsufficientFunds else Custom(10))
    else if U64_MAX < c.total + amount || U64_MAX < r.committed + amount || U64_MAX < r.sequence + 1 then
      Refused(Custom(10))
    else if held < amount + (if isNew then receiptRent else 0) then Refused(InsufficientFunds)
    else
      var c' := c.(total := c.total + amount, receiptCount := c.receiptCount + if isNew then 1 else 0);
      var r' := r.(committed := r.committed + amount, sequence := r.sequence + 1);
      Done(s.(c := c', receipts := s.receipts[owner := r'],
              lamports := s.lamports + amount, elsewhere := s.elsewhere - amount))
  }

  /** Tag 2. */
  function Close(s: State): Outcome<State>
  {
    if s.clock < s.c.deadline then Refused(Custom(5))
    else
      var p := if s.c.phase == Open then (if s.c.total < s.c.soft then Failed else Closed) else s.c.phase;
      var p' := if s.c.launchDeadline <= s.clock && p != Launched then Failed else p;
      Done(s.(c := s.c.(phase := p')))
  }

  /** What the receipt is entitled to get back at this moment, counting what was already paid. */
  function Entitled(s: State, r: Receipt): nat
  {
    Refundable(r.committed, s.c.total, s.c.hard, HasFailed(s.c, s.clock))
  }

  /** The phase a refund records: failed, or at least closed. */
  function RefundPhase(s: State): Phase
  {
    if HasFailed(s.c, s.clock) then Failed else if s.c.phase == Open then Closed else s.c.phase
  }

  /** Tag 3. `held` is the balance of the receipt owner's wallet, the only destination a refund can have. A payout of
      nothing changes nothing, not even the phase. */
  function Refund(s: State, owner: Pubkey, held: nat): Outcome<State>
  {
    if s.elsewhere < held || owner !in s.receipts then Refused(InvalidAccount)
    else if s.clock < s.c.deadline then Refused(Custom(5))
    else
      var r := s.receipts[owner];
      var entitled := Entitled(s, r);
      if entitled < r.refunded then Refused(Custom(10))
      else if entitled == r.refunded then Done(s)
      else
        var amount := entitled - r.refunded;
        if s.lamports < amount + s.rent then Refused(InsufficientFunds)
        else if U64_MAX < held + amount || U64_MAX < s.c.refunded + amount then Refused(Custom(10))
        else
          Done(s.(c := s.c.(phase := RefundPhase(s), refunded := s.c.refunded + amount),
                  receipts := s.receipts[owner := r.(refunded := entitled)],
                  lamports := s.lamports - amount, elsewhere := s.elsewhere + amount))
  }

  /** Tag 4. */
  function Settle(s: State, owner: Pubkey): Outcome<State>
  {
    if owner !in s.receipts then Refused(InvalidAccount)
    else if s.clock < s.c.deadline then Refused(Custom(5))
    else
      var r := s.receipts[owner];
      if r.settled then Done(s)
      else
        var accepted := Accepted(r.committed, s.c.total, s.c.hard);
        var count := s.c.settledCount + 1;
        var aggregate := s.c.settledAccepted + accepted;
        if U64_MAX < count || U64_MAX < aggregate then Refused(Custom(10))
        else if s.c.receiptCount < count || Min(s.c.total, s.c.hard) < aggregate then Refused(Custom(11))
        else
          Done(s.(c := s.c.(settledCount := count, settledAccepted := aggregate),
                  receipts := s.receipts[owner := r.(settled := true, accepted := accepted)]))
  }

  /** Tag 6, its lamport side. `others` stands for every check that is not about lamports (pool creation, liquidity
      lock, mint, token custody, vault activation); `held` is the launch authority's balance before the transfer. */
  function Launch(s: State, others: bool, held: nat): Outcome<State>
  {
    var c := s.c;
    if s.elsewhere < held then Refused(InvalidAccount)
    else if !Ready(c, s.clock) || !c.parentsConfigured || !others then Refused(Custom(21))
    else if c.total < c.settledAccepted + c.refunded then Refused(Custom(10))
    else
      var reserve := s.rent + (c.total - c.settledAccepted - c.refunded);
      if U64_MAX < reserve then Refused(Custom(10))
      else if s.lamports < c.settledAccepted then Refused(InsufficientFunds)
      else if s.lamports - c.settledAccepted < reserve then Refused(Custom(21))
      else if U64_MAX < held + c.settledAccepted then Refused(Custom(10))
      else
        Done(s.(c := c.(phase := Launched, launchTime := s.clock, activated := c.distribution),
                lamports := s.lamports - c.settledAccepted, elsewhere := s.elsewhere + c.settledAccepted))
  }

  /** Everything that can happen to a campaign: its instructions, time passing, and lamports sent to its address. */
  datatype Action =
    | DoConfigure(valid: bool)
    | DoCommit(owner: Pubkey, amount: nat, sequence: nat, held: nat, receiptRent: nat)
    | DoClose
    | DoRefund(owner: Pubkey, held: nat)
    | DoSettle(owner: Pubkey)
    | DoLaunch(others: bool, held: nat)
    | Pass(seconds: nat)
    | Donate(amount: nat)

  function Perform(s: State, a: Action): Outcome<State>
  {
    match a
    case DoConfigure(valid) => Configure(s, valid)
    case DoCommit(owner, amount, sequence, held, receiptRent) => Commit(s, owner, amount, sequence, held, receiptRent)
    case DoClose => Close(s)
    case DoRefund(owner, held) => Refund(s, owner, held)
    case DoSettle(owner) => Settle(s, owner)
    case DoLaunch(others, held) => Launch(s, others, held)
    case Pass(seconds) => Done(s.(clock := s.clock + seconds))
    case Donate(amount) =>
      if s.elsewhere < amount then Refused(InsufficientFunds)
      else Done(s.(lamports := s.lamports + amount, elsewhere := s.elsewhere - amount))
  }

  /** An instruction is atomic: a refused one leaves the state as it was. */
  function Step(s: State, a: Action): State
  {
    match Perform(s, a)
    case Done(s') => s'
    case Refused(_) => s
  }

  function Run(s: State, actions: seq<Action>): State
    decreases |actions|
  {
    if actions == [] then s else Run(Step(s, actions[0]), actions[1..])
  }
}

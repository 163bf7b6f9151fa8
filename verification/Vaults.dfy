/** The claim vaults of the distribution program: four purposes, fixed terms, claims, expiry burns and sweeps. */
module Vaults {
  import opened Base
  import opened Floors
  import opened Escrow
  import opened Calendar
  import opened Vesting
  import opened Custody
  import opened Record
  import opened Merkle
  import opened ParentProofs

  const PARENT_EXPIRY_SECONDS: int := 2_592_000

  /** The record, the balance of each vault, and the claim receipts: who was paid how much from which vault. */
  datatype VaultState = VaultState(d: Distribution, balance: seq<nat>, participants: map<Pubkey, nat>,
                                   parentA: map<Pubkey, nat>, parentB: map<Pubkey, nat>)

  /** Participants 43.5 %, each parent 5 %, dev 3 %. */
  function Allocations(supply: U64): Quad
  {
    SharesFit(supply);
    [Share(supply, 4350), Share(supply, 500), Share(supply, 500), Share(supply, 300)]
  }

  lemma SharesFit(supply: nat)
    ensures Share(supply, 4350) <= supply && Share(supply, 500) <= supply && Share(supply, 300) <= supply
  {
    SharesConserveSupply(supply);
  }

  /** Bit 1 marks parent A's vault as burned, bit 2 parent B's. */
  function BurnedFlag(side: Side): Byte { if side == A then 2 else 4 }

  predicate IsBurned(d: Distribution, side: Side)
  {
    d.flags / BurnedFlag(side) % 2 == 1
  }

  function WithFlag(flags: Byte, bit: Byte): Byte
    requires bit == 2 || bit == 4
  {
    if flags / bit % 2 == 1 then flags else flags + bit
  }

  function Purpose(side: Side): nat { if side == A then 1 else 2 }

  function Index(side: Side): nat { if side == A then 0 else 1 }

  function ClaimsOf(s: VaultState, side: Side): map<Pubkey, nat> { if side == A then s.parentA else s.parentB }

  /** Coins still owed from a vault: allocation less claimed, or nothing once a parent vault was burned. */
  function RemainingEntitled(d: Distribution, purpose: nat): Outcome<nat>
    requires purpose < 4
  {
    if (purpose == 1 && IsBurned(d, A)) || (purpose == 2 && IsBurned(d, B)) then Done(0)
    else if d.allocation[purpose] < d.claimed[purpose] then Refused(Custom(10))
    else Done(d.allocation[purpose] - d.claimed[purpose])
  }

  /** The terms frozen at activation, with the roots and parent figures copied from the launch program. Only the keys
      and bumps of `keys` are kept. */
  function Terms(keys: Distribution, t: Tokens, supply: U64, settledAccepted: U64, launchTime: I64, expiry: I64,
                 end: I64): Distribution
  {
    keys.(supply := supply, settledAccepted := settledAccepted, launchTime := launchTime, parentExpiry := expiry,
          devStart := launchTime, devEnd := end, roots := [t.a.root, t.b.root],
          parentSupply := [t.a.supply, t.b.supply], eligible := [t.a.eligible, t.b.eligible],
          allocation := Allocations(supply),
          claimed := [0, 0, 0, 0], burned := [0, 0], devPrior := 0, flags := 1)
  }

  /** Everything the four vaults are funded with. */
  function VaultTotal(supply: nat): nat
  {
    Share(supply, 4350) + Share(supply, 500) + Share(supply, 500) + Share(supply, 300)
  }

  /** Tag 0 on the launch path, where every prior counter is zero. Returns the vaults, each holding exactly its
      allocation, and what stays in custody. */
  function Activate(c: Campaign, t: Tokens, keys: Distribution): Outcome<(VaultState, nat)>
  {
    if c.phase != Launched || c.launchTime <= 0 then Refused(Custom(1))
    else if t.a.claimed != 0 || t.b.claimed != 0 || t.devClaimed != 0 then Refused(Custom(3))
    else if U64_MAX < c.supply || U64_MAX < c.settledAccepted then Refused(Custom(10))
    else if t.balance < VaultTotal(c.supply) then Refused(Custom(4))
    else if I64_MAX < c.launchTime + PARENT_EXPIRY_SECONDS then Refused(Custom(10))
    else
      var rest: nat := t.balance - VaultTotal(c.supply);
      match ThreeMonthEnd(c.launchTime)
      case Refused(_) => Refused(Custom(10))
      case Done(end) =>
        Done((Funded(Terms(keys, t, c.supply, c.settledAccepted, c.launchTime,
                           c.launchTime + PARENT_EXPIRY_SECONDS, end)), rest))
  }

  /** Every vault holds exactly its allocation and nobody has claimed. */
  function Funded(d: Distribution): VaultState
  {
    VaultState(d, d.allocation, map[], map[], map[])
  }

  /** `pay_from_vault`: exactly `amount` leaves the vault, or nothing. */
  function Pay(balance: seq<nat>, purpose: nat, amount: nat): Outcome<seq<nat>>
    requires purpose < |balance|
  {
    if balance[purpose] < amount then Refused(Custom(16)) else Done(balance[purpose := balance[purpose] - amount])
  }

  /** Tag 1. The launch program's receipts are read, never written. */
  function ClaimParticipant(s: VaultState, receipts: map<Pubkey, Receipt>, now: int, owner: Pubkey): Outcome<VaultState>
    requires |s.balance| == 4
  {
    if now < s.d.launchTime then Refused(Custom(8))
    else if owner !in receipts then Refused(InvalidAccount)
    else
      var r := receipts[owner];
      if !r.settled then Refused(Custom(6))
      else if r.claimed then Refused(Custom(7))
      else if owner in s.participants then Done(s)
      else if s.d.settledAccepted == 0 || s.d.settledAccepted < r.accepted then Refused(Custom(15))
      else
        var amount := ProRata(r.accepted, s.d.allocation[0], s.d.settledAccepted);
        var claimed := s.d.claimed[0] + amount;
        if U64_MAX < claimed then Refused(Custom(10))
        else if s.d.allocation[0] < claimed then Refused(Custom(16))
        else match Pay(s.balance, 0, amount)
          case Refused(e) => Refused(e)
          case Done(balance) =>
            Done(s.(d := s.d.(claimed := s.d.claimed[0 := claimed]), balance := balance,
                    participants := s.participants[owner := amount]))
  }

  /** Tag 2. `proved` says the Merkle proof leads from this claim to the frozen root. */
  function ClaimParent(s: VaultState, now: int, side: Side, owner: Pubkey, held: nat, allocation: nat, proved: bool)
    : Outcome<VaultState>
    requires |s.balance| == 4
  {
    var p, i := Purpose(side), Index(side);
    if now < s.d.launchTime then Refused(Custom(8))
    else if s.d.parentExpiry <= now || IsBurned(s.d, side) then Refused(Custom(9))
    else if held < Threshold(s.d.parentSupply[i]) then Refused(Custom(14))
    else if s.d.eligible[i] == 0 || s.d.eligible[i] < held then Refused(Custom(15))
    else if allocation != ProRata(held, s.d.allocation[p], s.d.eligible[i]) then Refused(Custom(15))
    else if !proved then Refused(Custom(13))
    else if owner in ClaimsOf(s, side) then Done(s)
    else
      var claimed := s.d.claimed[p] + allocation;
      if U64_MAX < claimed then Refused(Custom(10))
      else if s.d.allocation[p] < claimed then Refused(Custom(16))
      else match Pay(s.balance, p, allocation)
        case Refused(e) => Refused(e)
        case Done(balance) =>
          var s' := s.(d := s.d.(claimed := s.d.claimed[p := claimed]), balance := balance);
          Done(if side == A then s'.(parentA := s.parentA[owner := allocation])
               else s'.(parentB := s.parentB[owner := allocation]))
  }

  /** The proof leads from a parent claim to the frozen root. */
  predicate ProvedBy(h: Hasher, d: Distribution, side: Side, owner: Pubkey, held: nat, allocation: nat,
                     proof: seq<Byte>)
  {
    Proves(h, d.campaign, SideByte(side), owner, held, allocation, proof, d.roots[Index(side)])
  }

  /** Tag 3. */
  function ClaimDev(s: VaultState, now: int): Outcome<VaultState>
    requires |s.balance| == 4
  {
    if s.d.devStart <= 0 || s.d.devEnd <= s.d.devStart then Refused(Custom(10))
    else if now < s.d.devStart then Refused(Custom(8))
    else
      var entitled := DevEntitled(s.d.supply, s.d.devStart, s.d.devEnd, now);
      if s.d.allocation[3] < entitled then Refused(Custom(16))
      else if entitled < s.d.claimed[3] then Refused(Custom(10))
      else if entitled == s.d.claimed[3] then Done(s)
      else match Pay(s.balance, 3, entitled - s.d.claimed[3])
        case Refused(e) => Refused(e)
        case Done(balance) => Done(s.(d := s.d.(claimed := s.d.claimed[3 := entitled]), balance := balance))
  }

  /** Tag 4: from expiry on, burns the whole vault of a parent, once. */
  function BurnVault(s: VaultState, now: int, side: Side): Outcome<VaultState>
    requires |s.balance| == 4
  {
    if now < s.d.parentExpiry then Refused(Custom(11))
    else if IsBurned(s.d, side) then Refused(Custom(12))
    else if U64_MAX < s.balance[Purpose(side)] then Refused(InvalidAccount)
    else
      var d := s.d.(burned := s.d.burned[Index(side) := s.balance[Purpose(side)]],
                    flags := WithFlag(s.d.flags, BurnedFlag(side)));
      Done(s.(d := d, balance := s.balance[Purpose(side) := 0]))
  }

  /** Tag 5: burns what a vault holds above what it still owes. */
  function Sweep(s: VaultState, purpose: nat): Outcome<VaultState>
    requires |s.balance| == 4 && purpose < 4
  {
    match RemainingEntitled(s.d, purpose)
    case Refused(e) => Refused(e)
    case Done(owed) => if s.balance[purpose] <= owed then Done(s) else Done(s.(balance := s.balance[purpose := owed]))
  }

  datatype VaultAction =
    | VParticipant(owner: Pubkey)
    | VParent(side: Side, owner: Pubkey, held: nat, allocation: nat, proved: bool)
    | VDev
    | VBurn(side: Side)
    | VSweep(purpose: nat)
    | VDonate(purpose: nat, amount: nat)

  function Act(s: VaultState, receipts: map<Pubkey, Receipt>, now: int, a: VaultAction): Outcome<VaultState>
    requires |s.balance| == 4
  {
    match a
    case VParticipant(owner) => ClaimParticipant(s, receipts, now, owner)
    case VParent(side, owner, held, allocation, proved) => ClaimParent(s, now, side, owner, held, allocation, proved)
    case VDev => ClaimDev(s, now)
    case VBurn(side) => BurnVault(s, now, side)
    case VSweep(purpose) => if purpose < 4 then Sweep(s, purpose) else Refused(Custom(19))
    case VDonate(purpose, amount) =>
      if purpose < 4 then Done(s.(balance := s.balance[purpose := s.balance[purpose] + amount]))
      else Refused(Custom(19))
  }
}

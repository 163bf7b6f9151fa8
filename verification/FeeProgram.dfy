/** The fee account run in place: each instruction reads the state, moves custody step by step and writes back. */
module FeeProgram {
  import opened Base
  import opened Fees

  class FeeAccount {
    var state: FeeState
    var wsol: nat
    var coins: nat
    var treasuryPaid: nat
    var devPaid: nat
    var donated: nat
    var mintSupply: nat

    ghost function View(): Ledger
      reads this
    {
      Ledger(state, wsol, coins, treasuryPaid, devPaid, donated, mintSupply)
    }

    /** Tag 20: a fresh fee account over custody that may already hold donations. */
    constructor (wsol: nat, coins: nat, mintSupply: nat)
      requires coins <= mintSupply <= FIXED_SUPPLY
      ensures View() == Ledger(FRESH, wsol, coins, 0, 0, wsol, mintSupply) && Valid(View())
    {
      state := FRESH;
      this.wsol, this.coins, this.mintSupply := wsol, coins, mintSupply;
      treasuryPaid, devPaid, donated := 0, 0, wsol;
      new;
      FreshIsValid(wsol, coins, mintSupply);
    }

    method Collect(gainedChild: nat, gainedSol: nat) returns (status: Status)
      modifies this
      ensures Agrees(Fees.Collect(old(View()), gainedChild, gainedSol), status, old(View()), View())
      ensures old(Valid(View())) ==>
        Valid(View())
        && (status == Ok <==> old(coins) + gainedChild <= old(mintSupply) && old(state).total + gainedSol <= U64_MAX)
      ensures status == Ok ==>
        && state.child == old(state).child + gainedChild && coins == old(coins) + gainedChild
        && state.total == old(state).total + gainedSol && wsol == old(wsol) + gainedSol
    {
      if Valid(View()) {
        StepKeepsValid(View(), DoCollect(gainedChild, gainedSol));
        CollectIsExact(View(), gainedChild, gainedSol);
      }
      var s := state;
      if mintSupply < coins + gainedChild { return Err(InvalidAccount); }
      if coins < s.child { return Err(Custom(60)); }
      var liability := Liability(s);
      if liability.Refused? { return Err(Custom(61)); }
      if wsol < liability.state { return Err(Custom(60)); }
      var child := s.child + gainedChild;
      if U64_MAX < child { return Err(Custom(10)); }
      s := s.(child := child);
      var total := s.total + gainedSol;
      if U64_MAX < total { return Err(Custom(10)); }
      s := s.(total := total);
      coins, wsol := coins + gainedChild, wsol + gainedSol;
      state := s;
      return Ok;
    }

    /** Pays the treasury and the dev up to the floors of the cumulative total. From a valid state it cannot fail. */
    method Distribute() returns (status: Status)
      modifies this
      ensures Agrees(Fees.Distribute(old(View())), status, old(View()), View())
      ensures old(Valid(View())) ==> Valid(View()) && status == Ok && AllocatedAt(state, old(state.total))
    {
      if Valid(View()) {
        StepKeepsValid(View(), DoDistribute);
        DistributeNeverRefused(View());
      }
      var s := state;
      var liability := Liability(s);
      if liability.Refused? { return Err(Custom(61)); }
      if wsol < liability.state { return Err(Custom(60)); }
      var treasury := Entitlement(s.total, 98);
      var dev := Entitlement(s.total, 20);
      if treasury < s.treasury || dev < s.dev { return Err(Custom(61)); }
      var t, d := treasury - s.treasury, dev - s.dev;
      if wsol < t || wsol - t < d { return Err(InsufficientFunds); }
      s := s.(treasury := treasury, dev := dev);
      s := s.(parentA := Entitlement(s.total, 25), parentB := Entitlement(s.total, 25));
      liability := Liability(s);
      if liability.Refused? { return Err(Custom(61)); }
      if wsol - t - d < liability.state { return Err(Custom(60)); }
      wsol, treasuryPaid := wsol - t, treasuryPaid + t;
      wsol, devPaid := wsol - d, devPaid + d;
      state := s;
      return Ok;
    }

    /** Buys `received` coins for `amount` lamports and burns them, booking parent A's budget before parent B's. */
    method Buyback(amount: nat, minOut: nat, received: nat, quoted: bool) returns (status: Status)
      modifies this
      ensures Agrees(Fees.Buyback(old(View()), amount, minOut, received, quoted), status, old(View()), View())
      ensures old(Valid(View())) ==> Valid(View())
      ensures status == Ok ==>
        && minOut <= received && wsol == old(wsol) - amount && coins == old(coins)
        && mintSupply == old(mintSupply) - received
    {
      hide Valid;
      if Valid(View()) { StepKeepsValid(View(), DoBuyback(amount, minOut, received, quoted)); }
      if mintSupply < coins + received { return Err(InvalidAccount); }
      if amount == 0 || MAX_SLICE < amount { return Err(Custom(60)); }
      var s := state;
      if s.parentA < s.spentA || s.parentB < s.spentB { return Err(Custom(61)); }
      var pendingA, pendingB := s.parentA - s.spentA, s.parentB - s.spentB;
      if U64_MAX < pendingA + pendingB { return Err(Custom(10)); }
      if pendingA + pendingB < amount { return Err(Custom(60)); }
      var liability := Liability(s);
      if liability.Refused? { return Err(Custom(61)); }
      if wsol < liability.state || coins < s.child || !quoted { return Err(Custom(60)); }
      if wsol < amount { return Err(InsufficientFunds); }
      if received < minOut { return Err(Custom(60)); }
      var spent := SpendChildBuyback(s, amount);
      if spent.Refused? { return Err(spent.error); }
      s := spent.state;
      if U64_MAX < s.burnedChild + received { return Err(Custom(10)); }
      s := s.(burnedChild := s.burnedChild + received);
      liability := Liability(s);
      if liability.Refused? { return Err(Custom(61)); }
      if wsol - amount < liability.state { return Err(Custom(60)); }
      wsol := wsol - amount;
      coins := coins + received;
      coins, mintSupply := coins - received, mintSupply - received;
      state := s;
      return Ok;
    }

    method Burn(amount: nat) returns (status: Status)
      modifies this
      ensures Agrees(Fees.Burn(old(View()), amount), status, old(View()), View())
      ensures old(Valid(View())) ==> Valid(View()) && (status == Ok <==> 0 < amount <= old(state.child))
    {
      if Valid(View()) { StepKeepsValid(View(), DoBurn(amount)); }
      var s := state;
      if amount == 0 || s.child < amount || coins < s.child || mintSupply < amount { return Err(Custom(60)); }
      if U64_MAX < s.burnedChild + amount { return Err(Custom(10)); }
      s := s.(child := s.child - amount, burnedChild := s.burnedChild + amount);
      coins, mintSupply := coins - amount, mintSupply - amount;
      state := s;
      return Ok;
    }
  }
}

/** Machine integers, keys and instruction outcomes shared by every program model. */
module Base {

  const U64_MAX: int := 0xFFFF_FFFF_FFFF_FFFF
  const I64_MAX: int := 0x7FFF_FFFF_FFFF_FFFF

  /** The one supply a campaign may have: a billion coins with six decimals. */
  const FIXED_SUPPLY: nat := 1_000_000_000_000_000

  type Byte = x: int | 0 <= x < 256
  type U64 = x: int | 0 <= x <= U64_MAX
  type I64 = x: int | -I64_MAX - 1 <= x <= I64_MAX

  /** A 32-byte account address. */
  type Pubkey = k: seq<Byte> | |k| == 32 witness seq(32, _ => 0)

  /** Why an instruction was refused: a program's own numbered code, or one of the runtime's. */
  datatype Error =
    | Custom(code: nat)
    | InsufficientFunds
    | InvalidAccount

  /** An instruction either commits a new state or is refused and changes nothing. */
  datatype Outcome<+S> = Done(state: S) | Refused(error: Error)

  /** What a caller sees of an instruction. */
  datatype Status = Ok | Err(error: Error)

  /** An instruction run in place did what its specification says: the specified new state, or nothing at all. */
  ghost predicate Agrees<S>(spec: Outcome<S>, status: Status, before: S, after: S)
  {
    match spec
    case Done(s) => status == Ok && after == s
    case Refused(e) => status == Err(e) && after == before
  }

  function Min(a: int, b: int): (r: int)
  {
    if a <= b then a else b
  }
}

/** Results, errors and the identifiers that all contracts share. */
module Basics {

  datatype Option<+T> = None | Some(value: T)

  /** Why a message is rejected. A rejected message, and a panic, undoes its whole transaction. */
  datatype Error =
    | Unauthorized
    | Overflow
    | DivideByZero
    | NotFound
    | WindowClosed
    | WindowOpen
    | InvalidAmount
    | InvalidDuration
    | TooManyPositions
    | AlreadyWithdrawn
    | LimitExceeded
    | StillLocked
    | AlreadyClaimed
    | NothingToClaim
    | InsufficientFunds
    | NotConfigured
    | AlreadySet
    | BadSchedule
    | BadPriceFeed
    | WrongPeriod

  datatype Result<+T> = Ok(value: T) | Err(error: Error) {
    predicate IsFailure() {
      Err?
    }

    function PropagateFailure<U>(): Result<U>
      requires Err?
    {
      Err(error)
    }

    function Extract(): T
      requires Ok?
    {
      value
    }
  }

  /** Account and contract addresses; storage iterates over them in ascending order. */
  type Addr = nat

  /** The two liquidity pools, NTRN/USDC and NTRN/ATOM. */
  datatype Pool = USDC | ATOM

  /** One value for each pool. */
  datatype PerPool<T> = PerPool(usdc: T, atom: T) {
    function Get(p: Pool): T {
      if p == USDC then usdc else atom
    }

    function Set(p: Pool, value: T): PerPool<T> {
      if p == USDC then PerPool(value, atom) else PerPool(usdc, value)
    }
  }

  /** A lockup position. */
  datatype Key = Key(pool: Pool, user: Addr, duration: nat)
}

/** The messages with which the auction hands a batch of users over to the vesting contracts of its two LP tokens. */
module HandOver {
  import opened Basics
  import opened Auction
  import Vesting

  /** The part of u's entitlement that is not locked. */
  function Rest(a: State, u: Addr, p: Pool): nat {
    if a.User(u).locked.Get(p) <= Entitlement(a, u, p) then Entitlement(a, u, p) - a.User(u).locked.Get(p) else 0
  }

  /** A user's schedule: nothing at first, the whole amount after the vesting duration. */
  function ScheduleFor(now: nat, duration: nat, amount: nat): Vesting.Schedule {
    Vesting.Schedule(Vesting.Point(now, 0), Some(Vesting.Point(now + duration, amount)))
  }

  /** The accounts to register for a batch; users without a rest are left out. */
  function Accounts(a: State, batch: seq<Addr>, p: Pool, now: nat): seq<Vesting.Account> {
    if batch == [] then []
    else if Rest(a, batch[0], p) == 0 then Accounts(a, batch[1..], p, now)
    else [Vesting.Account(batch[0], [ScheduleFor(now, a.config.vestingDuration, Rest(a, batch[0], p))])] + Accounts(a, batch[1..], p, now)
  }

  /** The LP tokens sent along. */
  function Amount(a: State, batch: seq<Addr>, p: Pool): nat {
    if batch == [] then 0 else Rest(a, batch[0], p) + Amount(a, batch[1..], p)
  }

  /** One of the two messages: nothing is sent if there is nothing to vest. */
  function SendRests(v: Vesting.State, a: State, batch: seq<Addr>, p: Pool, now: nat): Result<Vesting.State> {
    if Amount(a, batch, p) == 0 then Ok(v) else Vesting.Register(v, Accounts(a, batch, p, now), Amount(a, batch, p))
  }

  function Send(vesting: PerPool<Vesting.State>, a: State, batch: seq<Addr>, now: nat): Result<PerPool<Vesting.State>> {
    var atom :- SendRests(vesting.atom, a, batch, ATOM, now);
    var usdc :- SendRests(vesting.usdc, a, batch, USDC, now);
    Ok(PerPool(usdc, atom))
  }
}

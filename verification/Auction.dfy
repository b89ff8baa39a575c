/** The auction contract: deposits, the pool sizes, locking of LP shares, pool initialisation and the hand-over to vesting. */
module Auction {
  import opened Basics
  import opened FixedPoint
  import Ordered
  import Windows

  const MINIMUM_LIQUIDITY: nat := 1_000

  datatype Config = Config(initTime: nat, depositWindow: nat, withdrawalWindow: nat, lockWindow: nat,
                           maxRateAge: nat, minNtrn: nat, packSize: nat, vestingDuration: nat)
  {
    function DepositEnd(): nat {
      initTime + depositWindow
    }

    function WindowsEnd(): nat {
      initTime + depositWindow + withdrawalWindow
    }

    function LockEnd(): nat {
      initTime + depositWindow + withdrawalWindow + lockWindow
    }
  }

  datatype UserInfo = UserInfo(deposited: PerPool<nat>, withdrawn: bool, locked: PerPool<nat>, vested: bool)

  /** LP tokens that the auction holds, and those it has sent to the reserve, to the lockdrop and to vest for users. */
  datatype Ledger = Ledger(held: PerPool<nat>, reserve: PerPool<nat>, toLockdrop: PerPool<nat>, vesting: PerPool<map<Addr, nat>>)

  datatype State = State(config: Config, users: map<Addr, UserInfo>, deposited: PerPool<nat>,
                         minted: Option<PerPool<nat>>, poolInitTime: nat,
                         ntrnSize: PerPool<nat>, lpSize: PerPool<nat>, locked: PerPool<nat>,
                         ledger: Ledger)
  {
    function User(u: Addr): UserInfo {
      if u in users then users[u] else UserInfo(PerPool(0, 0), false, PerPool(0, 0), false)
    }
  }

  // Deposits

  function Deposit(a: State, now: nat, u: Addr, amount: PerPool<nat>): Result<State> {
    if !(a.config.initTime <= now < a.config.DepositEnd()) then Err(WindowClosed)
    else if amount.usdc == 0 && amount.atom == 0 then Err(InvalidAmount)
    else
      var user := a.User(u);
      var usdc :- Checked(a.deposited.usdc + amount.usdc);
      var atom :- Checked(a.deposited.atom + amount.atom);
      Ok(a.(deposited := PerPool(usdc, atom),
            users := a.users[u := user.(deposited := PerPool(user.deposited.usdc + amount.usdc, user.deposited.atom + amount.atom))]))
  }

  function MaxWithdrawal(a: State, now: nat, deposited: nat): nat {
    Windows.AllowedAmount(deposited, now, a.config.DepositEnd(), a.config.withdrawalWindow)
  }

  function Withdraw(a: State, now: nat, u: Addr, amount: PerPool<nat>): Result<State> {
    if u !in a.users then Err(NotFound)
    else if a.users[u].withdrawn then Err(AlreadyWithdrawn)
    else
      var user := a.users[u];
      if amount.usdc > MaxWithdrawal(a, now, user.deposited.usdc) || amount.atom > MaxWithdrawal(a, now, user.deposited.atom) then Err(LimitExceeded)
      else if amount.usdc == 0 && amount.atom == 0 then Err(InvalidAmount)
      else
        var usdc :- CheckedSub(a.deposited.usdc, amount.usdc);
        var atom :- CheckedSub(a.deposited.atom, amount.atom);
        var userUsdc :- CheckedSub(user.deposited.usdc, amount.usdc);
        var userAtom :- CheckedSub(user.deposited.atom, amount.atom);
        Ok(a.(deposited := PerPool(usdc, atom),
              users := a.users[u := user.(deposited := PerPool(userUsdc, userAtom),
                                          withdrawn := user.withdrawn || now >= a.config.DepositEnd())]))
  }

  // Pool sizes

  datatype Rate = Rate(rate: nat, resolveTime: nat)

  /** The largest integer whose square is at most n. */
  function Isqrt(n: nat): (r: nat)
    ensures r * r <= n < (r + 1) * (r + 1)
  {
    if n == 0 then 0
    else
      var r := Isqrt(n - 1);
      if (r + 1) * (r + 1) <= n then
        SquareStep(r);
        r + 1
      else r
  }

  lemma SquareStep(r: nat)
    ensures (r + 2) * (r + 2) > (r + 1) * (r + 1) + 1
  {
  }

  /** The LP tokens that the first provider of the two amounts receives. */
  function LpSize(a: nat, b: nat): Result<nat> {
    if Isqrt(a * b) < MINIMUM_LIQUIDITY then Err(Overflow) else Ok(Isqrt(a * b) - MINIMUM_LIQUIDITY)
  }

  /** The part of the NTRN that goes to the USDC pool: both deposits are valued in USDC at the oracle's rates. */
  function UsdcNtrnSize(deposited: PerPool<nat>, ntrn: nat, rates: seq<Rate>): Result<nat>
    requires |rates| == 2
  {
    var usdcToAtom :- CheckedRatio(rates[1].rate, rates[0].rate);
    var atomDecimal :- Checked(deposited.atom * ONE);
    var atomInUsdc :- CheckedRatio(atomDecimal, usdcToAtom);
    var allInUsdc :- Checked(deposited.usdc + atomInUsdc / ONE);
    var ratio :- CheckedRatio(deposited.usdc, allInUsdc);
    Ok(MulFloor(ratio, ntrn))
  }

  function SetPoolSize(a: State, now: nat, ntrn: nat, rates: seq<Rate>): Result<State> {
    if a.minted.Some? then Err(AlreadySet)
    else if now < a.config.WindowsEnd() then Err(WindowOpen)
    else if a.ntrnSize.usdc != 0 || a.ntrnSize.atom != 0 then Err(AlreadySet)
    else if |rates| != 2 || now < a.config.maxRateAge || rates[0].resolveTime < now - a.config.maxRateAge then Err(BadPriceFeed)
    else if ntrn < a.config.minNtrn then Err(InsufficientFunds)
    else
      var usdcNtrn :- UsdcNtrnSize(a.deposited, ntrn, rates);
      var atomNtrn :- CheckedSub(ntrn, usdcNtrn);
      var atomLp :- LpSize(atomNtrn, a.deposited.atom);
      var usdcLp :- LpSize(usdcNtrn, a.deposited.usdc);
      Ok(a.(ntrnSize := PerPool(usdcNtrn, atomNtrn), lpSize := PerPool(usdcLp, atomLp)))
  }

  // Locking LP shares

  /** A user's part of half of the LP tokens of a pool, rounded down three times. */
  function LpPart(deposited: nat, total: nat, lpSize: nat): nat {
    if total == 0 then 0 else MulFloor(Ratio(deposited, total), lpSize) / 2
  }

  function Entitlement(a: State, u: Addr, p: Pool): nat {
    LpPart(a.User(u).deposited.Get(p), a.deposited.Get(p), a.lpSize.Get(p))
  }

  function LockLp(a: State, now: nat, u: Addr, p: Pool, amount: nat): Result<State> {
    if u !in a.users then Err(NotFound)
    else if a.ntrnSize.atom == 0 || a.ntrnSize.usdc == 0 then Err(NotConfigured)
    else if now >= a.config.LockEnd() then Err(WindowClosed)
    else
      var user := a.users[u];
      if user.deposited.Get(p) == 0 then Err(InsufficientFunds)
      else
        var available :- CheckedSub(Entitlement(a, u, p), user.locked.Get(p));
        if amount > available then Err(InsufficientFunds)
        else
          var total :- Checked(a.locked.Get(p) + amount);
          Ok(a.(locked := a.locked.Set(p, total),
                users := a.users[u := user.(locked := user.locked.Set(p, user.locked.Get(p) + amount))]))
  }

  function WithdrawLp(a: State, now: nat, u: Addr, p: Pool, amount: nat): Result<State> {
    if u !in a.users then Err(NotFound)
    else if a.ntrnSize.atom == 0 || a.ntrnSize.usdc == 0 then Err(NotConfigured)
    else if now >= a.config.LockEnd() then Err(WindowClosed)
    else
      var user := a.users[u];
      var locked :- CheckedSub(user.locked.Get(p), amount);
      var total :- CheckedSub(a.locked.Get(p), amount);
      Ok(a.(locked := a.locked.Set(p, total),
            users := a.users[u := user.(locked := user.locked.Set(p, locked))]))
  }

  // Initialising the pools

  /** InitPool and its FinalizePoolInitialization callback: the pairs mint LP tokens, half of them goes to the reserve
      and the locked ones to the lockdrop. */
  function InitPool(a: State, now: nat, minted: PerPool<nat>): Result<State> {
    if a.minted.Some? then Err(AlreadySet)
    else if a.lpSize.usdc == 0 && a.lpSize.atom == 0 then Err(NotConfigured)
    else if now < a.config.LockEnd() then Err(WindowOpen)
    else
      var reserve := PerPool(minted.usdc / 2, minted.atom / 2);
      if a.ledger.held.usdc + minted.usdc - reserve.usdc < a.locked.usdc || a.ledger.held.atom + minted.atom - reserve.atom < a.locked.atom then
        Err(InsufficientFunds)
      else
        var held := PerPool(a.ledger.held.usdc + minted.usdc - reserve.usdc - a.locked.usdc,
                            a.ledger.held.atom + minted.atom - reserve.atom - a.locked.atom);
        Ok(a.(minted := Some(minted), poolInitTime := now,
              ledger := a.ledger.(held := held, reserve := reserve, toLockdrop := a.locked)))
  }

  // The hand-over to vesting

  /** The users whose rest is not vested yet. */
  function Unvested(a: State): set<Addr> {
    set u | u in a.users && !a.users[u].vested
  }

  /** The next users to hand over: the first ones in storage order, at most packSize of them. */
  ghost function Batch(a: State): seq<Addr> {
    var waiting := Ordered.Ascending(Unvested(a));
    if |waiting| <= a.config.packSize then waiting else waiting[..a.config.packSize]
  }

  /** What vests for a user: the part of the entitlement that is not locked. */
  function ToVest(a: State, u: Addr, p: Pool): Result<nat> {
    CheckedSub(Entitlement(a, u, p), a.User(u).locked.Get(p))
  }

  function Vested(a: State, u: Addr, p: Pool): nat {
    if u in a.ledger.vesting.Get(p) then a.ledger.vesting.Get(p)[u] else 0
  }

  /** Hands one user over: the LP tokens leave the auction and the user is marked. */
  function VestUser(a: State, u: Addr): Result<State> {
    if u !in a.users then Err(NotFound)
    else
      var atom :- ToVest(a, u, ATOM);
      var usdc :- ToVest(a, u, USDC);
      if a.ledger.held.atom < atom || a.ledger.held.usdc < usdc then Err(InsufficientFunds)
      else
        Ok(a.(users := a.users[u := a.users[u].(vested := true)],
              ledger := a.ledger.(held := PerPool(a.ledger.held.usdc - usdc, a.ledger.held.atom - atom),
                                  vesting := PerPool(a.ledger.vesting.usdc[u := Vested(a, u, USDC) + usdc],
                                                     a.ledger.vesting.atom[u := Vested(a, u, ATOM) + atom]))))
  }

  function VestUsers(a: State, batch: seq<Addr>): Result<State>
    decreases |batch|
  {
    if batch == [] then Ok(a)
    else
      var a1 :- VestUser(a, batch[0]);
      VestUsers(a1, batch[1..])
  }

  ghost function MigrateToVesting(a: State): Result<State> {
    if a.poolInitTime == 0 then Err(NotConfigured)
    else if Batch(a) == [] then Err(NotFound)
    else VestUsers(a, Batch(a))
  }
}

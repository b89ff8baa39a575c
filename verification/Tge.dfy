/** The token generation event: auction, both lockdrops and the two vesting contracts for LP tokens, exchanging messages
    within atomic transactions. */
module Tge {
  import opened Basics
  import opened PositionKeys
  import Auction
  import Xyk = LockdropXyk
  import Pcl = LockdropPcl
  import HandOver
  import Vesting

  datatype World = World(now: nat, auction: Auction.State, xyk: Xyk.State, pcl: Pcl.State, vesting: PerPool<Vesting.State>)

  /** What happens outside during the migration of one position: the pending generator rewards of the XYK pool, and the
      LP tokens that the PCL pair mints for the withdrawn liquidity. */
  datatype Leg = Leg(pending: Option<nat>, minted: nat)

  datatype Tx =
    | Deposit(user: Addr, amount: PerPool<nat>)
    | WithdrawDeposit(user: Addr, amount: PerPool<nat>)
    | SetPoolSize(ntrn: nat, rates: seq<Auction.Rate>)
    | LockLp(key: Key, units: nat)
    | WithdrawLp(key: Key, units: nat)
    | InitPool(minted: PerPool<nat>)
    | MigrateToVesting
    | IncreaseIncentives(ntrn: nat)
    | Claim(key: Key, withdraw: bool, pending: Option<nat>)
    | MigrateLiquidity(user: Addr, legs: map<Key, Leg>)
    | ClaimVested(pool: Pool, user: Addr, claimed: Option<nat>)
    | ClaimPcl(key: Key, withdraw: bool, rewards: seq<(Pcl.Token, nat)>, tokens: seq<Pcl.Token>)

  /** A transaction, and how much time has passed since the one before. */
  datatype Event = Event(elapsed: nat, tx: Tx)

  /** Claims and migrations start once the pools are initialised and the lockdrop windows have closed. */
  predicate Started(w: World) {
    w.auction.minted.Some? && w.xyk.config.WindowsEnd() <= w.now
  }

  /** The lockdrop's part of pool initialisation: a pool is initialised only if something was locked in it. */
  function SendLocked(x: Xyk.State, p: Pool, share: nat, locked: nat): Result<Xyk.State> {
    if locked == 0 then Ok(x) else Xyk.InitializePool(x, p, share, locked)
  }

  function LegOf(legs: map<Key, Leg>, k: Key): Leg {
    if k in legs then legs[k] else Leg(None, 0)
  }

  /** Moves the listed positions to the PCL lockdrop one after the other, skipping closed ones. The PCL lockdrop stakes
      when the generator holds no more LP tokens of the pool. */
  function MigratePositions(x: Xyk.State, c: Pcl.State, keys: seq<Key>, legs: map<Key, Leg>): Result<(Xyk.State, Pcl.State)>
    decreases |keys|
  {
    if keys == [] then Ok((x, c))
    else if keys[0] !in x.lockups then Err(NotFound)
    else if !Xyk.Open(x.lockups[keys[0]]) then MigratePositions(x, c, keys[1..], legs)
    else
      var (x1, c1) :- MigrateOne(x, c, keys[0], LegOf(legs, keys[0]));
      MigratePositions(x1, c1, keys[1..], legs)
  }

  function MigrateOne(x: Xyk.State, c: Pcl.State, k: Key, leg: Leg): Result<(Xyk.State, Pcl.State)>
    requires k in x.lockups
  {
    var x1 :- Xyk.MigratePosition(x, k, leg.pending);
    if k !in x1.lockups then Err(NotFound)
    else
      var c1 :- Pcl.FinishMigration(c, k, x1.User(k.user), x1.lockups[k], leg.minted, x1.ledger.staked.Get(k.pool) == 0);
      Ok((x1, c1))
  }

  ghost function Execute(w: World, tx: Tx): Result<World> {
    match tx
    case Deposit(user, amount) =>
      var a :- Auction.Deposit(w.auction, w.now, user, amount);
      Ok(w.(auction := a))
    case WithdrawDeposit(user, amount) =>
      var a :- Auction.Withdraw(w.auction, w.now, user, amount);
      Ok(w.(auction := a))
    case SetPoolSize(ntrn, rates) =>
      var a :- Auction.SetPoolSize(w.auction, w.now, ntrn, rates);
      Ok(w.(auction := a))
    case LockLp(k, units) =>
      var a :- Auction.LockLp(w.auction, w.now, k.user, k.pool, units);
      var x :- Xyk.IncreaseLockup(w.xyk, w.now, k, units);
      Ok(w.(auction := a, xyk := x))
    case WithdrawLp(k, units) =>
      var a :- Auction.WithdrawLp(w.auction, w.now, k.user, k.pool, units);
      var x :- Xyk.WithdrawLockup(w.xyk, w.now, k, units);
      Ok(w.(auction := a, xyk := x))
    case InitPool(minted) =>
      var a :- Auction.InitPool(w.auction, w.now, minted);
      var x1 :- SendLocked(w.xyk, ATOM, a.ntrnSize.atom, a.locked.atom);
      var x2 :- SendLocked(x1, USDC, a.ntrnSize.usdc, a.locked.usdc);
      Ok(w.(auction := a, xyk := x2))
    case MigrateToVesting =>
      var a :- Auction.MigrateToVesting(w.auction);
      var vesting :- HandOver.Send(w.vesting, w.auction, Auction.Batch(w.auction), w.now);
      Ok(w.(auction := a, vesting := vesting))
    case IncreaseIncentives(ntrn) =>
      var x :- Xyk.IncreaseIncentives(w.xyk, w.now, ntrn);
      Ok(w.(xyk := x))
    case Claim(k, withdraw, pending) =>
      if !Started(w) then Err(NotConfigured)
      else
        var x :- Xyk.Claim(w.xyk, w.now, k, withdraw, pending);
        Ok(w.(xyk := x))
    case MigrateLiquidity(user, legs) =>
      if !Started(w) then Err(NotConfigured)
      else
        var x :- Xyk.FinalizeRewards(w.xyk, user);
        var (x1, c1) :- MigratePositions(x, w.pcl, UserKeys(x.lockups, user), legs);
        Ok(w.(xyk := x1, pcl := c1))
    case ClaimVested(p, user, claimed) =>
      if !Vesting.AllValid(w.vesting.Get(p)) then Err(BadSchedule)
      else
        var (v, _) :- Vesting.Claim(w.vesting.Get(p), w.now, user, claimed);
        Ok(w.(vesting := w.vesting.Set(p, v)))
    case ClaimPcl(k, withdraw, rewards, tokens) =>
      var c :- Pcl.Claim(w.pcl, w.now, k, withdraw, rewards, tokens);
      Ok(w.(pcl := c))
  }

  /** A transaction takes effect as a whole or not at all. */
  ghost function Apply(w: World, tx: Tx): World {
    var r := Execute(w, tx);
    if r.Ok? then r.value else w
  }

  function Later(w: World, elapsed: nat): World {
    w.(now := w.now + elapsed)
  }

  ghost function Next(w: World, e: Event): World {
    Apply(Later(w, e.elapsed), e.tx)
  }

  ghost function Run(w: World, events: seq<Event>): World
    decreases |events|
  {
    if events == [] then w else Run(Next(w, events[0]), events[1..])
  }

  /** The contracts as they are set up: no deposits, positions, users or tokens; configurations as instantiated. */
  ghost predicate Initial(w: World) {
    var none := PerPool(0, 0);
    var emptyPool := Xyk.PoolInfo(0, 0, 0, 0, false);
    && w.auction == Auction.State(w.auction.config, map[], none, None, 0, none, none, none,
                                  Auction.Ledger(none, none, none, PerPool(map[], map[])))
    && w.auction.config.withdrawalWindow > 0
    && w.xyk == Xyk.State(w.xyk.config, w.xyk.incentives, 0, PerPool(emptyPool, emptyPool), map[], map[], map[],
                          Xyk.Ledger(none, none, none, none, map[], none, none))
    && w.pcl == Pcl.State(w.pcl.rewards, w.pcl.pools, map[], map[], map[], Pcl.Ledger(none, none, map[], map[], map[], none))
    && w.pcl.pools.usdc == Pcl.PoolInfo(0, w.pcl.pools.usdc.weightedAmount, [], false)
    && w.pcl.pools.atom == Pcl.PoolInfo(0, w.pcl.pools.atom.weightedAmount, [], false)
    && Vesting.Empty(w.vesting.usdc) && Vesting.Empty(w.vesting.atom)
  }
}

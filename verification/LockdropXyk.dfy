/** The lockdrop contract of the XYK pools: what each message does to its storage. */
module LockdropXyk {
  import opened Basics
  import opened FixedPoint
  import opened Sums
  import Windows

  /** The extra weight, as a decimal, that a lockup of this duration earns. */
  datatype RewardsInfo = RewardsInfo(duration: nat, coefficient: nat)

  datatype Config = Config(initTime: nat, lockWindow: nat, withdrawalWindow: nat,
                           minDuration: nat, maxDuration: nat, maxPositions: nat,
                           rewards: seq<RewardsInfo>)
  {
    function LockEnd(): nat {
      initTime + lockWindow
    }

    function WindowsEnd(): nat {
      initTime + lockWindow + withdrawalWindow
    }
  }

  datatype PoolInfo = PoolInfo(amountInLockups: nat, incentivesShare: nat, weightedAmount: nat,
                               perShare: nat, isStaked: bool)

  datatype Lockup = Lockup(units: nat, transferred: Option<nat>, ntrnRewards: nat, unlockTime: nat,
                           debt: nat, withdrawalFlag: bool)

  datatype UserInfo = UserInfo(totalRewards: nat, ntrnTransferred: bool, positions: nat)

  /** What other contracts hold for the lockdrop or have exchanged with it: LP staked in the generator, LP still in
      its own balance, generator rewards received and paid on, one-time NTRN payments, and how many times the
      positions of a pool were increased or reduced. */
  datatype Ledger = Ledger(staked: PerPool<nat>, unstaked: PerPool<nat>,
                           received: PerPool<nat>, paid: PerPool<nat>,
                           oneTime: map<Addr, seq<nat>>,
                           increases: PerPool<nat>, withdrawals: PerPool<nat>)

  datatype State = State(config: Config, incentives: nat, totalShare: nat,
                         pools: PerPool<PoolInfo>,
                         lockups: map<Key, Lockup>,
                         users: map<Addr, UserInfo>,
                         userTotals: map<(Pool, Addr), nat>,
                         ledger: Ledger)
  {
    function User(u: Addr): UserInfo {
      if u in users then users[u] else UserInfo(0, false, 0)
    }

    function UserTotal(p: Pool, u: Addr): nat {
      if (p, u) in userTotals then userTotals[(p, u)] else 0
    }

    function Payments(u: Addr): seq<nat> {
      if u in ledger.oneTime then ledger.oneTime[u] else []
    }
  }

  // Weights and one-time rewards

  /** 1 + coefficient for the first entry with this duration, or 0 if the duration is not offered. */
  function Multiplier(rewards: seq<RewardsInfo>, duration: nat): nat {
    if rewards == [] then 0
    else if rewards[0].duration == duration then ONE + rewards[0].coefficient
    else Multiplier(rewards[1..], duration)
  }

  function Weight(c: Config, amount: nat, duration: nat): nat {
    MulFloor(Multiplier(c.rewards, duration), amount)
  }

  function CheckedWeight(c: Config, amount: nat, duration: nat): Result<nat> {
    if Multiplier(c.rewards, duration) == 0 then Err(InvalidDuration) else Checked(Weight(c, amount, duration))
  }

  /** The share of all incentives for a position of the given weight: the fraction is rounded down to a Decimal256
      and its product with the incentives to an integer. */
  function Incentives(weight: nat, totalWeight: nat, share: nat, totalShare: nat, incentives: nat): nat {
    if totalShare == 0 || totalWeight == 0 then 0
    else
      Positive(totalShare, totalWeight);
      MulFloor(Ratio(share * weight, totalShare * totalWeight), incentives)
  }

  lemma Positive(a: nat, b: nat)
    requires a != 0 && b != 0
    ensures a * b > 0
  {
  }

  /** What the one-time rewards depend on besides the positions. */
  datatype RewardTerms = RewardTerms(config: Config, weights: PerPool<nat>, shares: PerPool<nat>, totalShare: nat, incentives: nat)

  function Terms(x: State): RewardTerms {
    RewardTerms(x.config,
                PerPool(x.pools.usdc.weightedAmount, x.pools.atom.weightedAmount),
                PerPool(x.pools.usdc.incentivesShare, x.pools.atom.incentivesShare),
                x.totalShare, x.incentives)
  }

  /** The one-time reward of a position with the given units. */
  function Due(t: RewardTerms, k: Key, units: nat): nat {
    Incentives(Weight(t.config, units, k.duration), t.weights.Get(k.pool), t.shares.Get(k.pool), t.totalShare, t.incentives)
  }

  // Measures of the positions

  predicate Open(l: Lockup) {
    l.transferred.None?
  }

  function OpenUnits(p: Pool): (Key, Lockup) -> int {
    (k: Key, l: Lockup) => if k.pool == p && Open(l) then l.units else 0
  }

  function UserUnits(p: Pool, u: Addr): (Key, Lockup) -> int {
    (k: Key, l: Lockup) => if k.pool == p && k.user == u && Open(l) then l.units else 0
  }

  function UserRewards(u: Addr): (Key, Lockup) -> int {
    (k: Key, l: Lockup) => if k.user == u then l.ntrnRewards else 0
  }

  // Messages

  /** IncreaseLockupFor, sent by the auction. */
  function IncreaseLockup(x: State, now: nat, k: Key, amount: nat): Result<State> {
    if now >= x.config.LockEnd() then Err(WindowClosed)
    else if Multiplier(x.config.rewards, k.duration) == 0 then Err(InvalidDuration)
    else if k.duration > x.config.maxDuration || k.duration < x.config.minDuration then Err(InvalidDuration)
    else
      var weight :- CheckedWeight(x.config, amount, k.duration);
      var locked :- Checked(x.pools.Get(k.pool).amountInLockups + amount);
      if k !in x.lockups && x.config.maxPositions == x.User(k.user).positions then Err(TooManyPositions)
      else Ok(Increased(x, k, amount, weight))
  }

  /** The position grows, or is opened, together with the totals of its pool and its user. */
  function Increased(x: State, k: Key, amount: nat, weight: nat): State {
    var pool := x.pools.Get(k.pool);
    var user := x.User(k.user);
    var unlockTime := x.config.initTime + x.config.lockWindow + k.duration + x.config.withdrawalWindow;
    var lockup :=
      if k in x.lockups then x.lockups[k].(units := x.lockups[k].units + amount)
      else Lockup(amount, None, 0, unlockTime, 0, false);
    var user' := if k in x.lockups then user else user.(positions := user.positions + 1);
    var pool' := pool.(weightedAmount := pool.weightedAmount + weight, amountInLockups := pool.amountInLockups + amount);
    x.(pools := x.pools.Set(k.pool, pool'),
       lockups := x.lockups[k := lockup],
       users := x.users[k.user := user'],
       userTotals := x.userTotals[(k.pool, k.user) := x.UserTotal(k.pool, k.user) + amount],
       ledger := x.ledger.(increases := x.ledger.increases.Set(k.pool, x.ledger.increases.Get(k.pool) + 1)))
  }

  function MaxWithdrawal(x: State, now: nat, units: nat): nat {
    Windows.AllowedAmount(units, now, x.config.LockEnd(), x.config.withdrawalWindow)
  }

  /** WithdrawFromLockup, sent by the auction. */
  function WithdrawLockup(x: State, now: nat, k: Key, amount: nat): Result<State> {
    if now >= x.config.WindowsEnd() then Err(WindowClosed)
    else if amount == 0 then Err(InvalidAmount)
    else if k !in x.lockups then Err(NotFound)
    else if x.lockups[k].withdrawalFlag then Err(AlreadyWithdrawn)
    else
      var lockup := x.lockups[k];
      var _ :- Checked(lockup.units * ONE);
      if amount > MaxWithdrawal(x, now, lockup.units) then Err(LimitExceeded)
      else
        var units :- CheckedSub(lockup.units, amount);
        var weight :- CheckedWeight(x.config, amount, k.duration);
        var weighted :- CheckedSub(x.pools.Get(k.pool).weightedAmount, weight);
        var locked :- CheckedSub(x.pools.Get(k.pool).amountInLockups, amount);
        var _ :- if units == 0 && x.User(k.user).positions == 0 then Err(Overflow) else Ok(());
        var _ :- if (k.pool, k.user) in x.userTotals then CheckedSub(x.userTotals[(k.pool, k.user)], amount) else Ok(0);
        Ok(Reduced(x, now, k, amount, weight))
  }

  /** The position shrinks, or disappears, together with the totals of its pool and its user. */
  function Reduced(x: State, now: nat, k: Key, amount: nat, weight: nat): State
    requires k in x.lockups && amount <= x.lockups[k].units
    requires weight <= x.pools.Get(k.pool).weightedAmount && amount <= x.pools.Get(k.pool).amountInLockups
    requires amount == x.lockups[k].units ==> x.User(k.user).positions > 0
    requires (k.pool, k.user) in x.userTotals ==> amount <= x.userTotals[(k.pool, k.user)]
  {
    var pool := x.pools.Get(k.pool);
    var user := x.User(k.user);
    var lockup := x.lockups[k];
    var units := lockup.units - amount;
    var lockup' := lockup.(units := units, withdrawalFlag := lockup.withdrawalFlag || now >= x.config.LockEnd());
    var pool' := pool.(weightedAmount := pool.weightedAmount - weight, amountInLockups := pool.amountInLockups - amount);
    var total := if (k.pool, k.user) in x.userTotals then x.userTotals[(k.pool, k.user)] - amount else 0;
    x.(pools := x.pools.Set(k.pool, pool'),
       lockups := if units == 0 then x.lockups - {k} else x.lockups[k := lockup'],
       users := if units == 0 then x.users[k.user := user.(positions := user.positions - 1)] else x.users,
       userTotals := x.userTotals[(k.pool, k.user) := total],
       ledger := x.ledger.(withdrawals := x.ledger.withdrawals.Set(k.pool, x.ledger.withdrawals.Get(k.pool) + 1)))
  }

  /** InitializePool, with the LP tokens that the auction sends along; they are staked at once. */
  function InitializePool(x: State, p: Pool, share: nat, amount: nat): Result<State> {
    var pool := x.pools.Get(p);
    var total :- Checked(x.totalShare + share);
    Ok(x.(pools := x.pools.Set(p, pool.(incentivesShare := share, isStaked := true)),
          totalShare := total,
          ledger := x.ledger.(staked := x.ledger.staked.Set(p, x.ledger.staked.Get(p) + amount))))
  }

  function IncreaseIncentives(x: State, now: nat, amount: nat): Result<State> {
    if now >= x.config.WindowsEnd() then Err(WindowClosed)
    else
      var total :- Checked(x.incentives + amount);
      Ok(x.(incentives := total))
  }

  // Claims

  /** Fixes the one-time rewards of all positions of u and their total, unless a total is already recorded. */
  ghost function FinalizeRewards(x: State, u: Addr): Result<State> {
    if u !in x.users then Err(NotFound)
    else if x.users[u].totalRewards != 0 then Ok(x)
    else if exists k :: k in x.lockups && k.user == u && x.lockups[k].ntrnRewards == 0 && !RewardFits(x, k, x.lockups[k].units) then Err(Overflow)
    else
      var lockups := WithRewards(x, u);
      var total := Total(lockups, UserRewards(u));
      UserRewardsNonNeg(lockups, u);
      if total > U128_MAX then Err(Overflow)
      else Ok(x.(lockups := lockups, users := x.users[u := x.users[u].(totalRewards := total)]))
  }

  predicate RewardFits(x: State, k: Key, units: nat) {
    CheckedWeight(x.config, units, k.duration).Ok? && Due(Terms(x), k, units) <= U128_MAX
  }

  lemma UserRewardsNonNeg(lockups: map<Key, Lockup>, u: Addr)
    ensures Total(lockups, UserRewards(u)) >= 0
  {
    forall k | k in lockups
      ensures UserRewards(u)(k, lockups[k]) >= 0
    {
      var l := lockups[k];
      assert l.ntrnRewards >= 0;
      assert UserRewards(u)(k, l) == if k.user == u then l.ntrnRewards else 0;
    }
    TotalNonNeg(lockups, UserRewards(u));
  }

  function WithRewards(x: State, u: Addr): map<Key, Lockup> {
    map k | k in x.lockups ::
      if k.user == u && x.lockups[k].ntrnRewards == 0 then x.lockups[k].(ntrnRewards := Due(Terms(x), k, x.lockups[k].units))
      else x.lockups[k]
  }

  /** Claims the pending generator rewards of a pool, if there are any, and spreads them over the staked LP tokens. */
  function Accrue(x: State, p: Pool, pending: Option<nat>): Result<State> {
    match pending
    case None => Ok(x)
    case Some(received) =>
      var pool := x.pools.Get(p);
      var gain :- CheckedRatio(received, x.ledger.staked.Get(p));
      var perShare :- Checked(pool.perShare + gain);
      Ok(x.(pools := x.pools.Set(p, pool.(perShare := perShare)),
            ledger := x.ledger.(received := x.ledger.received.Set(p, x.ledger.received.Get(p) + received))))
  }

  /** The LP tokens behind a position: its part of what the contract has staked or, before that, holds. */
  function LpShare(x: State, p: Pool, units: nat): Result<nat> {
    var pool := x.pools.Get(p);
    var balance := if pool.isStaked then x.ledger.staked.Get(p) else x.ledger.unstaked.Get(p);
    if pool.amountInLockups == 0 then Err(DivideByZero)
    else Checked(units * balance / pool.amountInLockups)
  }

  /** Sends the one-time NTRN rewards to u unless they were sent before. */
  function PayOneTime(x: State, u: Addr): State {
    var user := x.User(u);
    if user.ntrnTransferred then x
    else
      x.(users := x.users[u := user.(ntrnTransferred := true)],
         ledger := if user.totalRewards == 0 then x.ledger
                   else x.ledger.(oneTime := x.ledger.oneTime[u := x.Payments(u) + [user.totalRewards]]))
  }

  /** Marks a position as closed with lp tokens handed out for it and takes it off the totals. */
  function Close(x: State, k: Key, lp: nat): Result<State>
    requires k in x.lockups
  {
    var pool := x.pools.Get(k.pool);
    var lockup := x.lockups[k];
    var locked :- CheckedSub(pool.amountInLockups, lockup.units);
    var _ :- if (k.pool, k.user) in x.userTotals then CheckedSub(x.userTotals[(k.pool, k.user)], lockup.units) else Ok(0);
    var total := if (k.pool, k.user) in x.userTotals then x.userTotals[(k.pool, k.user)] - lockup.units else 0;
    Ok(x.(pools := x.pools.Set(k.pool, pool.(amountInLockups := locked)),
          lockups := x.lockups[k := lockup.(transferred := Some(lp))],
          userTotals := x.userTotals[(k.pool, k.user) := total]))
  }

  /** Takes lp tokens of pool p out of the generator. */
  function Unstake(x: State, p: Pool, lp: nat): Result<State> {
    if x.ledger.staked.Get(p) < lp then Err(InsufficientFunds)
    else Ok(x.(ledger := x.ledger.(staked := x.ledger.staked.Set(p, x.ledger.staked.Get(p) - lp))))
  }

  /** Sends lp tokens of pool p that were never staked. */
  function SendUnstaked(x: State, p: Pool, lp: nat): Result<State> {
    if x.ledger.unstaked.Get(p) < lp then Err(InsufficientFunds)
    else Ok(x.(ledger := x.ledger.(unstaked := x.ledger.unstaked.Set(p, x.ledger.unstaked.Get(p) - lp))))
  }

  /** Pays the rewards that position k has earned since its debt was last set. */
  function PayPending(x: State, k: Key, lp: nat): Result<(State, nat)>
    requires k in x.lockups
  {
    var earned :- CheckedMulFloor(x.pools.Get(k.pool).perShare, lp);
    var pending :- CheckedSub(earned, x.lockups[k].debt);
    Ok((x.(ledger := x.ledger.(paid := x.ledger.paid.Set(k.pool, x.ledger.paid.Get(k.pool) + pending))), pending))
  }

  function SetDebt(x: State, k: Key, debt: nat): State
    requires k in x.lockups
  {
    x.(lockups := x.lockups[k := x.lockups[k].(debt := debt)])
  }

  /** The WithdrawUserLockupRewards callback: pays what position k has earned and closes it if asked to. */
  function WithdrawRewards(x: State, k: Key, withdraw: bool): Result<State>
    requires k in x.lockups
  {
    var pool := x.pools.Get(k.pool);
    var lp :- LpShare(x, k.pool, x.lockups[k].units);
    if pool.isStaked then
      var (x1, pending) :- PayPending(x, k, lp);
      if !withdraw && x.User(k.user).ntrnTransferred && pending == 0 then Err(NothingToClaim)
      else
        var x2 := SetDebt(x1, k, MulFloor(pool.perShare, lp));
        if withdraw then
          var x3 :- Unstake(x2, k.pool, lp);
          var x4 :- Close(x3, k, lp);
          Ok(PayOneTime(x4, k.user))
        else Ok(PayOneTime(x2, k.user))
    else if withdraw then
      var x1 :- SendUnstaked(x, k.pool, lp);
      var x2 :- Close(x1, k, lp);
      Ok(PayOneTime(x2, k.user))
    else Ok(PayOneTime(x, k.user))
  }

  /** ClaimRewardsAndOptionallyUnlock; pending is what the generator owes the contract for this pool. */
  ghost function Claim(x: State, now: nat, k: Key, withdraw: bool, pending: Option<nat>): Result<State> {
    if now < x.config.WindowsEnd() then Err(WindowOpen)
    else
      var x1 :- FinalizeRewards(x, k.user);
      if k !in x1.lockups then Err(NotFound)
      else if withdraw && now < x1.lockups[k].unlockTime then Err(StillLocked)
      else if x1.lockups[k].transferred.Some? then Err(AlreadyClaimed)
      else if !x1.pools.Get(k.pool).isStaked && x1.User(k.user).ntrnTransferred && !withdraw then Err(NothingToClaim)
      else
        var x2 :- if x1.pools.Get(k.pool).isStaked then Accrue(x1, k.pool, pending) else Ok(x1);
        WithdrawRewards(x2, k, withdraw)
  }

  // Migration to the PCL lockdrop

  /** The callbacks that take one open position out of this contract: claim the pool's rewards, pay the user
      everything owed, and withdraw the LP tokens. The new debt is computed but, as in the code, not stored. */
  function MigratePosition(x: State, k: Key, pending: Option<nat>): Result<State>
    requires k in x.lockups
  {
    var _ :- LpShare(x, k.pool, x.lockups[k].units);
    var x1 :- Accrue(x, k.pool, pending);
    var lp :- LpShare(x1, k.pool, x1.lockups[k].units);
    var (x2, _) :- PayPending(x1, k, lp);
    var x3 := PayOneTime(x2, k.user);
    var x4 :- Unstake(x3, k.pool, lp);
    Close(x4, k, lp)
  }
}

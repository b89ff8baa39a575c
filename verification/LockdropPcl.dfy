/** The lockdrop contract of the PCL pools: it takes over migrated positions and passes on several reward tokens. */
module LockdropPcl {
  import opened Basics
  import opened FixedPoint
  import opened Sums
  import opened RestrictedVector
  import Xyk = LockdropXyk

  type Token = nat

  datatype PoolInfo = PoolInfo(amountInLockups: nat, weightedAmount: nat, perShare: Vec<Token>, isStaked: bool)

  datatype Lockup = Lockup(units: nat, transferred: Option<nat>, ntrnRewards: nat, debts: Vec<Token>, unlockTime: nat, withdrawalFlag: bool)

  datatype UserInfo = UserInfo(totalRewards: nat, ntrnTransferred: bool, positions: nat)

  /** What other contracts hold for the PCL lockdrop or have exchanged with it, and how often each pool was staked. */
  datatype Ledger = Ledger(staked: PerPool<nat>, unstaked: PerPool<nat>,
                           received: map<(Pool, Token), nat>, paid: map<(Pool, Token), nat>,
                           oneTime: map<Addr, seq<nat>>, stakes: PerPool<nat>)

  /** The durations that the contract offers are fixed when it is instantiated. */
  datatype State = State(rewards: seq<Xyk.RewardsInfo>,
                         pools: PerPool<PoolInfo>,
                         lockups: map<Key, Lockup>,
                         users: map<Addr, UserInfo>,
                         userTotals: map<(Pool, Addr), nat>,
                         ledger: Ledger)
  {
    function User(u: Addr): UserInfo {
      if u in users then users[u] else UserInfo(0, false, 0)
    }

    function UserTotal(p: Pool, u: Addr): nat {
      if (p, u) in userTotals then userTotals[(p, u)] else 0
    }

    function Received(p: Pool, t: Token): nat {
      if (p, t) in ledger.received then ledger.received[(p, t)] else 0
    }

    function Paid(p: Pool, t: Token): nat {
      if (p, t) in ledger.paid then ledger.paid[(p, t)] else 0
    }

    function Payments(u: Addr): seq<nat> {
      if u in ledger.oneTime then ledger.oneTime[u] else []
    }
  }

  predicate Open(l: Lockup) {
    l.transferred.None?
  }

  function OpenUnits(p: Pool): (Key, Lockup) -> int {
    (k: Key, l: Lockup) => if k.pool == p && Open(l) then l.units else 0
  }

  function UserUnits(p: Pool, u: Addr): (Key, Lockup) -> int {
    (k: Key, l: Lockup) => if k.pool == p && k.user == u && Open(l) then l.units else 0
  }

  function UserRewards(u: Addr): (Key, Lockup) -> int {
    (k: Key, l: Lockup) => if k.user == u then l.ntrnRewards else 0
  }

  // Migration

  /** The record of a user as the XYK lockdrop hands it over. */
  function FromXykUser(i: Xyk.UserInfo): UserInfo {
    UserInfo(i.totalRewards, i.ntrnTransferred, i.positions)
  }

  /** The record of a position as the XYK lockdrop hands it over, now with the LP tokens that the PCL pool minted. */
  function FromXykLockup(i: Xyk.Lockup, units: nat): Lockup {
    Lockup(units, None, i.ntrnRewards, [], i.unlockTime, i.withdrawalFlag)
  }

  /** 1 + coefficient of the duration times the amount; a duration that this contract does not offer is refused. */
  function CheckedWeight(rewards: seq<Xyk.RewardsInfo>, amount: nat, duration: nat): Result<nat> {
    if Xyk.Multiplier(rewards, duration) == 0 then Err(InvalidDuration) else Checked(MulFloor(Xyk.Multiplier(rewards, duration), amount))
  }

  /** FinishLockupMigrationCallback: records the position, and stakes all LP tokens if it is the last of its pool. */
  function FinishMigration(c: State, k: Key, user: Xyk.UserInfo, lockup: Xyk.Lockup, minted: nat, stake: bool): Result<State> {
    var pool := c.pools.Get(k.pool);
    var weight :- CheckedWeight(c.rewards, minted, k.duration);
    var locked :- Checked(pool.amountInLockups + minted);
    var total :- Checked(c.UserTotal(k.pool, k.user) + minted);
    Ok(c.(pools := c.pools.Set(k.pool, pool.(weightedAmount := pool.weightedAmount + weight, amountInLockups := locked, isStaked := stake || pool.isStaked)),
          lockups := c.lockups[k := FromXykLockup(lockup, minted)],
          users := c.users[k.user := FromXykUser(user)],
          userTotals := c.userTotals[(k.pool, k.user) := total],
          ledger := LpReceived(c.ledger, k.pool, minted, stake)))
  }

  function LpReceived(ledger: Ledger, p: Pool, minted: nat, stake: bool): Ledger {
    var lpTokens := ledger.unstaked.Get(p) + minted;
    if stake then
      ledger.(unstaked := ledger.unstaked.Set(p, 0),
              staked := ledger.staked.Set(p, ledger.staked.Get(p) + lpTokens),
              stakes := ledger.stakes.Set(p, ledger.stakes.Get(p) + 1))
    else ledger.(unstaked := ledger.unstaked.Set(p, lpTokens))
  }

  // Claims

  /** Records the sum of the user's one-time rewards unless a total is already recorded. No new reward can arise here,
      because this contract's total incentives share is zero. */
  ghost function FinalizeRewards(c: State, u: Addr): Result<State> {
    if u !in c.users then Err(NotFound)
    else if c.users[u].totalRewards != 0 then Ok(c)
    else
      var total := Total(c.lockups, UserRewards(u));
      UserRewardsNonNeg(c.lockups, u);
      if total > U128_MAX then Err(Overflow)
      else Ok(c.(users := c.users[u := c.users[u].(totalRewards := total)]))
  }

  lemma UserRewardsNonNeg(lockups: map<Key, Lockup>, u: Addr)
    ensures Total(lockups, UserRewards(u)) >= 0
  {
    forall k | k in lockups
      ensures UserRewards(u)(k, lockups[k]) >= 0
    {
      var l := lockups[k];
      assert UserRewards(u)(k, l) == if k.user == u then l.ntrnRewards else 0;
    }
    TotalNonNeg(lockups, UserRewards(u));
  }

  /** Spreads the received amount of one token over the staked LP tokens. */
  function AccrueToken(c: State, p: Pool, t: Token, received: nat): Result<State> {
    var pool := c.pools.Get(p);
    var gain :- CheckedRatio(received, c.ledger.staked.Get(p));
    var perShare :- Increase(pool.perShare, t, gain);
    Ok(c.(pools := c.pools.Set(p, pool.(perShare := perShare)),
          ledger := c.ledger.(received := c.ledger.received[(p, t) := c.Received(p, t) + received])))
  }

  function AccrueTokens(c: State, p: Pool, rewards: seq<(Token, nat)>): (r: Result<State>)
    ensures r.Ok? ==> r.value.lockups == c.lockups
    decreases |rewards|
  {
    if rewards == [] then Ok(c)
    else
      var c1 :- AccrueToken(c, p, rewards[0].0, rewards[0].1);
      AccrueTokens(c1, p, rewards[1..])
  }

  /** Claims the pending rewards of a pool if any of them is not zero. */
  function Accrue(c: State, p: Pool, rewards: seq<(Token, nat)>): Result<State> {
    if exists i :: 0 <= i < |rewards| && rewards[i].1 != 0 then AccrueTokens(c, p, rewards) else Ok(c)
  }

  function LpShare(c: State, p: Pool, units: nat): Result<nat> {
    var pool := c.pools.Get(p);
    var balance := if pool.isStaked then c.ledger.staked.Get(p) else c.ledger.unstaked.Get(p);
    if pool.amountInLockups == 0 then Err(DivideByZero)
    else Checked(units * balance / pool.amountInLockups)
  }

  /** Pays what position k has earned of token t, and adds the payment to its debt. */
  function PayToken(c: State, k: Key, lp: nat, t: Token): Result<(State, nat)>
    requires k in c.lockups
  {
    var perShare := Amount(c.pools.Get(k.pool).perShare, t);
    if perShare == 0 then Ok((c, 0))
    else
      var earned :- CheckedMulFloor(perShare, lp);
      var pending :- CheckedSub(earned, Amount(c.lockups[k].debts, t));
      var debts :- Increase(c.lockups[k].debts, t, pending);
      Ok((c.(lockups := c.lockups[k := c.lockups[k].(debts := debts)],
             ledger := c.ledger.(paid := c.ledger.paid[(k.pool, t) := c.Paid(k.pool, t) + pending])), pending))
  }

  /** Pays the listed tokens one after the other, and returns how much was paid of all of them. */
  function PayTokens(c: State, k: Key, lp: nat, tokens: seq<Token>): (r: Result<(State, nat)>)
    requires k in c.lockups
    ensures r.Ok? ==> r.value.0.lockups.Keys == c.lockups.Keys
    decreases |tokens|
  {
    if tokens == [] then Ok((c, 0))
    else
      var (c1, first) :- PayToken(c, k, lp, tokens[0]);
      var (c2, rest) :- PayTokens(c1, k, lp, tokens[1..]);
      Ok((c2, first + rest))
  }

  function PayOneTime(c: State, u: Addr): State {
    var user := c.User(u);
    if user.ntrnTransferred then c
    else
      c.(users := c.users[u := user.(ntrnTransferred := true)],
         ledger := if user.totalRewards == 0 then c.ledger
                   else c.ledger.(oneTime := c.ledger.oneTime[u := c.Payments(u) + [user.totalRewards]]))
  }

  function Unstake(c: State, p: Pool, lp: nat): Result<State> {
    if c.ledger.staked.Get(p) < lp then Err(InsufficientFunds)
    else Ok(c.(ledger := c.ledger.(staked := c.ledger.staked.Set(p, c.ledger.staked.Get(p) - lp))))
  }

  function SendUnstaked(c: State, p: Pool, lp: nat): Result<State> {
    if c.ledger.unstaked.Get(p) < lp then Err(InsufficientFunds)
    else Ok(c.(ledger := c.ledger.(unstaked := c.ledger.unstaked.Set(p, c.ledger.unstaked.Get(p) - lp))))
  }

  function Close(c: State, k: Key, lp: nat): Result<State>
    requires k in c.lockups
  {
    var pool := c.pools.Get(k.pool);
    var lockup := c.lockups[k];
    var locked :- CheckedSub(pool.amountInLockups, lockup.units);
    var _ :- if (k.pool, k.user) in c.userTotals then CheckedSub(c.userTotals[(k.pool, k.user)], lockup.units) else Ok(0);
    var total := if (k.pool, k.user) in c.userTotals then c.userTotals[(k.pool, k.user)] - lockup.units else 0;
    Ok(c.(pools := c.pools.Set(k.pool, pool.(amountInLockups := locked)),
          lockups := c.lockups[k := lockup.(transferred := Some(lp))],
          userTotals := c.userTotals[(k.pool, k.user) := total]))
  }

  /** The WithdrawUserLockupRewards callback; tokens are the reward tokens that the incentives contract lists. */
  function WithdrawRewards(c: State, k: Key, withdraw: bool, tokens: seq<Token>): Result<State>
    requires k in c.lockups
  {
    var lp :- LpShare(c, k.pool, c.lockups[k].units);
    if c.pools.Get(k.pool).isStaked then
      var (c1, pending) :- PayTokens(c, k, lp, tokens);
      if !withdraw && c.User(k.user).ntrnTransferred && pending == 0 then Err(NothingToClaim)
      else if withdraw then UnlockStaked(c1, k, lp)
      else Ok(PayOneTime(c1, k.user))
    else if withdraw then
      var c1 :- SendUnstaked(c, k.pool, lp);
      var c2 :- Close(c1, k, lp);
      Ok(PayOneTime(c2, k.user))
    else Ok(PayOneTime(c, k.user))
  }

  function UnlockStaked(c: State, k: Key, lp: nat): Result<State>
    requires k in c.lockups
  {
    var c1 :- Unstake(c, k.pool, lp);
    var c2 :- Close(c1, k, lp);
    Ok(PayOneTime(c2, k.user))
  }

  /** ClaimRewardsAndOptionallyUnlock. */
  ghost function Claim(c: State, now: nat, k: Key, withdraw: bool, rewards: seq<(Token, nat)>, tokens: seq<Token>): Result<State> {
    var c1 :- FinalizeRewards(c, k.user);
    if k !in c1.lockups then Err(NotFound)
    else if withdraw && now < c1.lockups[k].unlockTime then Err(StillLocked)
    else if c1.lockups[k].transferred.Some? then Err(AlreadyClaimed)
    else
      var c2 :- if c1.pools.Get(k.pool).isStaked then Accrue(c1, k.pool, rewards) else Ok(c1);
      WithdrawRewards(c2, k, withdraw, tokens)
  }
}

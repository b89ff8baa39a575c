/** The PCL lockdrop in its own form: stored fields, message handlers and callbacks. A message that fails undoes all that
    it and its callbacks have stored. */
module LockdropPclContract {
  import opened Basics
  import opened FixedPoint
  import opened Sums
  import opened PositionKeys
  import opened RestrictedVector
  import L = LockdropPcl
  import LockdropPclSolvency
  import Xyk = LockdropXyk

  // The loop over a user's positions

  /** The recorded rewards of the listed positions, added up. */
  function RewardSum(m: map<Key, L.Lockup>, keys: seq<Key>, total: nat): Result<nat> {
    if keys == [] then Ok(total)
    else if keys[0] !in m then Err(NotFound)
    else
      var total' :- Checked(total + m[keys[0]].ntrnRewards);
      RewardSum(m, keys[1..], total')
  }

  lemma {:induction false} RewardSumIs(m: map<Key, L.Lockup>, u: Addr, keys: seq<Key>, total: nat)
    requires total <= U128_MAX && forall k :: k in keys ==> k in m && k.user == u
    ensures var sum := ListSum(keys, m, L.UserRewards(u));
            sum >= 0 && RewardSum(m, keys, total) == if total + sum <= U128_MAX then Ok(total + sum) else Err(Overflow)
    decreases |keys|
  {
    if keys != [] {
      assert Part(m, L.UserRewards(u), keys[0]) == m[keys[0]].ntrnRewards;
      if total + m[keys[0]].ntrnRewards <= U128_MAX {
        RewardSumIs(m, u, keys[1..], total + m[keys[0]].ntrnRewards);
      } else {
        RewardSumIs(m, u, keys[1..], 0);
      }
    }
  }

  lemma LoopSums(m: map<Key, L.Lockup>, u: Addr)
    ensures var sum := Total(m, L.UserRewards(u));
            sum >= 0 && RewardSum(m, UserKeys(m, u), 0) == if sum <= U128_MAX then Ok(sum) else Err(Overflow)
  {
    UserKeysComplete(m, u);
    RewardSumIs(m, u, UserKeys(m, u), 0);
    TotalIsListed(UserKeys(m, u), m, L.UserRewards(u));
  }

  // The steps of a withdrawal

  function Unlocked(c: L.State, k: Key, lp: nat, staked: bool): Result<L.State>
    requires k in c.lockups
  {
    var c1 :- if staked then L.Unstake(c, k.pool, lp) else L.SendUnstaked(c, k.pool, lp);
    var c2 :- L.Close(c1, k, lp);
    Ok(L.PayOneTime(c2, k.user))
  }

  lemma WithdrawalSteps(c: L.State, k: Key, withdraw: bool, tokens: seq<L.Token>, lp: nat)
    requires k in c.lockups && L.LpShare(c, k.pool, c.lockups[k].units) == Ok(lp)
    ensures var staked := c.pools.Get(k.pool).isStaked;
            L.WithdrawRewards(c, k, withdraw, tokens) ==
            match if staked then L.PayTokens(c, k, lp, tokens) else Ok((c, 0))
            case Err(e) => Err(e)
            case Ok((c1, paid)) =>
              if staked && !withdraw && c1.User(k.user).ntrnTransferred && paid == 0 then Err(NothingToClaim)
              else if withdraw then Unlocked(c1, k, lp, staked)
              else Ok(L.PayOneTime(c1, k.user))
  {
    if L.PayTokens(c, k, lp, tokens).Ok? {
      LockdropPclSolvency.PayTokensFrame(c, k, lp, tokens);
    }
  }

  /** Payments of a loop that go on after total was paid. */
  function Added(total: nat, r: Result<(L.State, nat)>): Result<(L.State, nat)> {
    if r.Ok? then Ok((r.value.0, total + r.value.1)) else r
  }

  lemma PayTokensNext(c: L.State, k: Key, lp: nat, tokens: seq<L.Token>, total: nat)
    requires tokens != [] && k in c.lockups
    ensures var first := L.PayToken(c, k, lp, tokens[0]);
            Added(total, L.PayTokens(c, k, lp, tokens)) ==
            if first.Ok? then Added(total + first.value.1, L.PayTokens(first.value.0, k, lp, tokens[1..])) else Err(first.error)
  {
  }

  class Contract {
    var rewards: seq<Xyk.RewardsInfo>
    var pools: PerPool<L.PoolInfo>
    var lockups: map<Key, L.Lockup>
    var users: map<Addr, L.UserInfo>
    var userTotals: map<(Pool, Addr), nat>
    var ledger: L.Ledger

    function State(): L.State
      reads this
    {
      L.State(rewards, pools, lockups, users, userTotals, ledger)
    }

    constructor (rewards: seq<Xyk.RewardsInfo>, weights: PerPool<nat>)
      ensures lockups == map[] && users == map[] && userTotals == map[]
      ensures forall p :: pools.Get(p) == L.PoolInfo(0, weights.Get(p), [], false)
      ensures ledger.staked == ledger.unstaked == ledger.stakes == PerPool(0, 0)
      ensures ledger.received == map[] && ledger.paid == map[] && ledger.oneTime == map[]
    {
      var none := PerPool(0, 0);
      this.rewards := rewards;
      pools := PerPool(L.PoolInfo(0, weights.usdc, [], false), L.PoolInfo(0, weights.atom, [], false));
      lockups, users, userTotals := map[], map[], map[];
      ledger := L.Ledger(none, none, map[], map[], map[], none);
    }

    /** What the chain does when a message fails. */
    method Rollback(c: L.State)
      modifies this
      ensures State() == c
    {
      rewards, pools, lockups, users, userTotals, ledger := c.rewards, c.pools, c.lockups, c.users, c.userTotals, c.ledger;
    }

    method UserOrDefault(u: Addr) returns (user: L.UserInfo)
      ensures user == State().User(u)
    {
      user := if u in users then users[u] else L.UserInfo(0, false, 0);
    }

    /** 1 + coefficient for the first offered entry with this duration, times the amount. */
    method CalculateWeight(amount: nat, duration: nat) returns (r: Result<nat>)
      ensures r == L.CheckedWeight(rewards, amount, duration)
    {
      for i := 0 to |rewards|
        invariant Xyk.Multiplier(rewards, duration) == Xyk.Multiplier(rewards[i..], duration)
      {
        assert rewards[i..][0] == rewards[i] && rewards[i..][1..] == rewards[i + 1..];
        if rewards[i].duration == duration {
          return Checked(MulFloor(ONE + rewards[i].coefficient, amount));
        }
      }
      return Err(InvalidDuration);
    }

    /** LP tokens arrive, and all that are there are staked when told to. */
    method ReceiveLp(p: Pool, minted: nat, stake: bool)
      modifies this`ledger
      ensures ledger == L.LpReceived(old(ledger), p, minted, stake)
    {
      var lpTokens := ledger.unstaked.Get(p) + minted;
      if stake {
        ledger := ledger.(unstaked := ledger.unstaked.Set(p, 0),
                          staked := ledger.staked.Set(p, ledger.staked.Get(p) + lpTokens),
                          stakes := ledger.stakes.Set(p, ledger.stakes.Get(p) + 1));
      } else {
        ledger := ledger.(unstaked := ledger.unstaked.Set(p, lpTokens));
      }
    }

    /** MigrateXYKLiquidity and its FinishLockupMigration callback. */
    method FinishMigration(k: Key, user: Xyk.UserInfo, lockup: Xyk.Lockup, minted: nat, stake: bool) returns (r: Result<()>)
      modifies this
      ensures match L.FinishMigration(old(State()), k, user, lockup, minted, stake)
              case Ok(c) => r == Ok(()) && State() == c
              case Err(e) => r == Err(e) && State() == old(State())
    {
      var pool := pools.Get(k.pool);
      var weight := CalculateWeight(minted, k.duration);
      if weight.Err? {
        return Err(weight.error);
      }
      pool := pool.(weightedAmount := pool.weightedAmount + weight.value);
      var total := if (k.pool, k.user) in userTotals then userTotals[(k.pool, k.user)] else 0;
      if pool.amountInLockups + minted > U128_MAX || total + minted > U128_MAX {
        return Err(Overflow);
      }
      pool := pool.(amountInLockups := pool.amountInLockups + minted);
      if stake {
        pool := pool.(isStaked := true);
      }
      ReceiveLp(k.pool, minted, stake);
      pools := pools.Set(k.pool, pool);
      lockups := lockups[k := L.FromXykLockup(lockup, minted)];
      users := users[k.user := L.FromXykUser(user)];
      userTotals := userTotals[(k.pool, k.user) := total + minted];
      return Ok(());
    }

    method FinalizeRewards(u: Addr) returns (r: Result<()>)
      modifies this
      ensures match L.FinalizeRewards(old(State()), u)
              case Ok(c) => r == Ok(()) && State() == c
              case Err(e) => r == Err(e) && State() == old(State())
    {
      if u !in users {
        return Err(NotFound);
      }
      if users[u].totalRewards == 0 {
        var total: nat := 0;
        var keys := ListKeys(lockups, u);
        LoopSums(lockups, u);
        for i := 0 to |keys|
          invariant State() == old(State())
          invariant RewardSum(lockups, keys, 0) == RewardSum(lockups, keys[i..], total)
        {
          assert keys[i..][0] == keys[i] && keys[i..][1..] == keys[i + 1..];
          if keys[i] !in lockups {
            return Err(NotFound);
          }
          total := total + lockups[keys[i]].ntrnRewards;
          if total > U128_MAX {
            return Err(Overflow);
          }
        }
        users := users[u := users[u].(totalRewards := total)];
      }
      return Ok(());
    }

    // Claims

    method AccrueToken(p: Pool, t: L.Token, received: nat) returns (r: Result<()>)
      modifies this
      ensures match L.AccrueToken(old(State()), p, t, received)
              case Ok(c) => r == Ok(()) && State() == c
              case Err(e) => r == Err(e) && State() == old(State())
    {
      var pool := pools.Get(p);
      var gain := CheckedRatio(received, ledger.staked.Get(p));
      if gain.Err? {
        return Err(gain.error);
      }
      var perShare := Update(pool.perShare, t, gain.value);
      if perShare.Err? {
        return Err(perShare.error);
      }
      pools := pools.Set(p, pool.(perShare := perShare.value));
      var earlier := if (p, t) in ledger.received then ledger.received[(p, t)] else 0;
      ledger := ledger.(received := ledger.received[(p, t) := earlier + received]);
      return Ok(());
    }

    /** The UpdatePoolOnDualRewardsClaim callback, sent if one of the pending rewards is not zero. */
    method Accrue(p: Pool, rewards: seq<(L.Token, nat)>) returns (r: Result<()>)
      modifies this
      ensures match L.Accrue(old(State()), p, rewards)
              case Ok(c) => r == Ok(()) && State() == c
              case Err(e) => r == Err(e) && State() == old(State())
    {
      var before := State();
      if exists i :: 0 <= i < |rewards| && rewards[i].1 != 0 {
        for i := 0 to |rewards|
          invariant L.AccrueTokens(before, p, rewards) == L.AccrueTokens(State(), p, rewards[i..])
        {
          assert rewards[i..][0] == rewards[i] && rewards[i..][1..] == rewards[i + 1..];
          r := AccrueToken(p, rewards[i].0, rewards[i].1);
          if r.Err? {
            Rollback(before);
            return r;
          }
        }
      }
      return Ok(());
    }

    method LpShare(p: Pool, units: nat) returns (r: Result<nat>)
      ensures r == L.LpShare(State(), p, units)
    {
      var pool := pools.Get(p);
      var balance := if pool.isStaked then ledger.staked.Get(p) else ledger.unstaked.Get(p);
      if pool.amountInLockups == 0 {
        return Err(DivideByZero);
      }
      return Checked(units * balance / pool.amountInLockups);
    }

    method PayToken(k: Key, lp: nat, t: L.Token) returns (r: Result<nat>)
      requires k in lockups
      modifies this
      ensures match L.PayToken(old(State()), k, lp, t)
              case Ok(p) => r == Ok(p.1) && State() == p.0
              case Err(e) => r == Err(e) && State() == old(State())
    {
      var perShare := Amount(pools.Get(k.pool).perShare, t);
      if perShare == 0 {
        return Ok(0);
      }
      var earned := CheckedMulFloor(perShare, lp);
      if earned.Err? {
        return earned;
      }
      var debt := Amount(lockups[k].debts, t);
      if earned.value < debt {
        return Err(Overflow);
      }
      var pending := earned.value - debt;
      var debts := Update(lockups[k].debts, t, pending);
      if debts.Err? {
        return Err(debts.error);
      }
      lockups := lockups[k := lockups[k].(debts := debts.value)];
      var earlier := if (k.pool, t) in ledger.paid then ledger.paid[(k.pool, t)] else 0;
      ledger := ledger.(paid := ledger.paid[(k.pool, t) := earlier + pending]);
      return Ok(pending);
    }

    /** The loop over the reward tokens. */
    method PayTokens(k: Key, lp: nat, tokens: seq<L.Token>) returns (r: Result<nat>)
      requires k in lockups
      modifies this
      ensures match L.PayTokens(old(State()), k, lp, tokens)
              case Ok(p) => r == Ok(p.1) && State() == p.0
              case Err(e) => r == Err(e) && State() == old(State())
    {
      var before := State();
      var total: nat := 0;
      for i := 0 to |tokens|
        invariant k in lockups
        invariant L.PayTokens(before, k, lp, tokens) == Added(total, L.PayTokens(State(), k, lp, tokens[i..]))
      {
        assert tokens[i..][0] == tokens[i] && tokens[i..][1..] == tokens[i + 1..];
        PayTokensNext(State(), k, lp, tokens[i..], total);
        var paid := PayToken(k, lp, tokens[i]);
        if paid.Err? {
          Rollback(before);
          return paid;
        }
        total := total + paid.value;
      }
      return Ok(total);
    }

    method PayOneTime(u: Addr)
      modifies this
      ensures State() == L.PayOneTime(old(State()), u)
    {
      var user := UserOrDefault(u);
      if !user.ntrnTransferred {
        if user.totalRewards > 0 {
          var earlier := if u in ledger.oneTime then ledger.oneTime[u] else [];
          ledger := ledger.(oneTime := ledger.oneTime[u := earlier + [user.totalRewards]]);
        }
        users := users[u := user.(ntrnTransferred := true)];
      }
    }

    method Close(k: Key, lp: nat) returns (r: Result<()>)
      requires k in lockups
      modifies this
      ensures match L.Close(old(State()), k, lp)
              case Ok(c) => r == Ok(()) && State() == c
              case Err(e) => r == Err(e) && State() == old(State())
    {
      var pool := pools.Get(k.pool);
      var lockup := lockups[k];
      if pool.amountInLockups < lockup.units {
        return Err(Overflow);
      }
      var total := 0;
      if (k.pool, k.user) in userTotals {
        if userTotals[(k.pool, k.user)] < lockup.units {
          return Err(Overflow);
        }
        total := userTotals[(k.pool, k.user)] - lockup.units;
      }
      pools := pools.Set(k.pool, pool.(amountInLockups := pool.amountInLockups - lockup.units));
      lockups := lockups[k := lockup.(transferred := Some(lp))];
      userTotals := userTotals[(k.pool, k.user) := total];
      return Ok(());
    }

    /** The incentives contract returns lp tokens, or the contract sends lp tokens that were never staked. */
    method TakeLp(p: Pool, lp: nat, staked: bool) returns (r: Result<()>)
      modifies this
      ensures match if staked then L.Unstake(old(State()), p, lp) else L.SendUnstaked(old(State()), p, lp)
              case Ok(c) => r == Ok(()) && State() == c
              case Err(e) => r == Err(e) && State() == old(State())
    {
      if staked {
        if ledger.staked.Get(p) < lp {
          return Err(InsufficientFunds);
        }
        ledger := ledger.(staked := ledger.staked.Set(p, ledger.staked.Get(p) - lp));
      } else {
        if ledger.unstaked.Get(p) < lp {
          return Err(InsufficientFunds);
        }
        ledger := ledger.(unstaked := ledger.unstaked.Set(p, ledger.unstaked.Get(p) - lp));
      }
      return Ok(());
    }

    /** Returns the LP tokens of a position, closes it, and pays the one-time rewards. */
    method Unlock(k: Key, lp: nat, staked: bool) returns (r: Result<()>)
      requires k in lockups
      modifies this
      ensures match Unlocked(old(State()), k, lp, staked)
              case Ok(c) => r == Ok(()) && State() == c
              case Err(e) => r == Err(e) && State() == old(State())
    {
      var before := State();
      r := TakeLp(k.pool, lp, staked);
      if r.Ok? {
        r := Close(k, lp);
      }
      if r.Err? {
        Rollback(before);
      } else {
        PayOneTime(k.user);
      }
    }

    /** The WithdrawUserLockupRewards callback. */
    method WithdrawRewards(k: Key, withdraw: bool, tokens: seq<L.Token>) returns (r: Result<()>)
      requires k in lockups
      modifies this
      ensures match L.WithdrawRewards(old(State()), k, withdraw, tokens)
              case Ok(c) => r == Ok(()) && State() == c
              case Err(e) => r == Err(e) && State() == old(State())
    {
      var before := State();
      var staked := pools.Get(k.pool).isStaked;
      var lp := LpShare(k.pool, lockups[k].units);
      if lp.Err? {
        return Err(lp.error);
      }
      WithdrawalSteps(before, k, withdraw, tokens, lp.value);
      var paid: nat := 0;
      if staked {
        var pending := PayTokens(k, lp.value, tokens);
        if pending.Err? {
          return Err(pending.error);
        }
        paid := pending.value;
      }
      var user := UserOrDefault(k.user);
      if staked && !withdraw && user.ntrnTransferred && paid == 0 {
        Rollback(before);
        return Err(NothingToClaim);
      }
      if withdraw {
        r := Unlock(k, lp.value, staked);
        if r.Err? {
          Rollback(before);
        }
      } else {
        PayOneTime(k.user);
        r := Ok(());
      }
    }

    /** ClaimRewardsAndOptionallyUnlock, with its callbacks. */
    method ClaimRewardsAndOptionallyUnlock(now: nat, k: Key, withdraw: bool, rewards: seq<(L.Token, nat)>, tokens: seq<L.Token>) returns (r: Result<()>)
      modifies this
      ensures match L.Claim(old(State()), now, k, withdraw, rewards, tokens)
              case Ok(c) => r == Ok(()) && State() == c
              case Err(e) => r == Err(e) && State() == old(State())
    {
      var before := State();
      r := FinalizeRewards(k.user);
      if r.Ok? {
        r := if k !in lockups then Err(NotFound)
             else if withdraw && now < lockups[k].unlockTime then Err(StillLocked)
             else if lockups[k].transferred.Some? then Err(AlreadyClaimed)
             else Ok(());
      }
      if r.Ok? && pools.Get(k.pool).isStaked {
        r := Accrue(k.pool, rewards);
      }
      if r.Ok? {
        r := WithdrawRewards(k, withdraw, tokens);
      }
      if r.Err? {
        Rollback(before);
      }
    }
  }
}

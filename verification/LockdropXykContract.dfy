/** The XYK lockdrop in its own form: stored fields, message handlers and callbacks. A message that fails undoes all that
    it and its callbacks have stored. */
module LockdropXykContract {
  import opened Basics
  import opened FixedPoint
  import opened Sums
  import opened PositionKeys
  import Windows
  import X = LockdropXyk

  // The loop over a user's positions

  predicate Fits(x: X.State, k: Key) {
    k in x.lockups && x.lockups[k].ntrnRewards == 0 ==> X.RewardFits(x, k, x.lockups[k].units)
  }

  /** A position with its one-time reward, which is computed unless it has been before. */
  function Rewarded(x: X.State, k: Key): Result<X.Lockup>
    requires k in x.lockups
  {
    if x.lockups[k].ntrnRewards != 0 then Ok(x.lockups[k])
    else
      var _ :- X.CheckedWeight(x.config, x.lockups[k].units, k.duration);
      var rewards :- Checked(X.Due(X.Terms(x), k, x.lockups[k].units));
      Ok(x.lockups[k].(ntrnRewards := rewards))
  }

  lemma RewardedIs(x: X.State, k: Key)
    requires k in x.lockups
    ensures Rewarded(x, k).Ok? <==> Fits(x, k)
    ensures Rewarded(x, k).Ok? ==> Rewarded(x, k).value == X.WithRewards(x, k.user)[k]
  {
  }

  /** The listed positions get their rewards one after the other; the rewards are added up. */
  function RewardedAll(x: X.State, m: map<Key, X.Lockup>, keys: seq<Key>, total: nat): Result<(map<Key, X.Lockup>, nat)>
    decreases |keys|
  {
    if keys == [] then Ok((m, total))
    else if keys[0] !in x.lockups then Err(NotFound)
    else
      var lockup :- Rewarded(x, keys[0]);
      var total' :- Checked(total + lockup.ntrnRewards);
      RewardedAll(x, m[keys[0] := lockup], keys[1..], total')
  }

  lemma RewardedFirst(x: X.State, m: map<Key, X.Lockup>, keys: seq<Key>, total: nat)
    requires keys != [] && keys[0] in x.lockups
    ensures var first := Rewarded(x, keys[0]);
            RewardedAll(x, m, keys, total) ==
            if first.Err? then Err(first.error)
            else if total + first.value.ntrnRewards > U128_MAX then Err(Overflow)
            else RewardedAll(x, m[keys[0] := first.value], keys[1..], total + first.value.ntrnRewards)
  {
  }

  ghost predicate RewardsOf(m: map<Key, X.Lockup>, w: map<Key, X.Lockup>, keys: seq<Key>, m': map<Key, X.Lockup>)
    requires m.Keys == w.Keys
  {
    m'.Keys == m.Keys && forall k :: k in m ==> m'[k] == if k in keys then w[k] else m[k]
  }

  lemma RewardsOfNext(m: map<Key, X.Lockup>, w: map<Key, X.Lockup>, keys: seq<Key>, m': map<Key, X.Lockup>)
    requires keys != [] && keys[0] in m && keys[0] !in keys[1..] && m.Keys == w.Keys
    requires RewardsOf(m[keys[0] := w[keys[0]]], w, keys[1..], m')
    ensures RewardsOf(m, w, keys, m')
  {
    forall k | k in m
      ensures m'[k] == if k in keys then w[k] else m[k]
    {
      assert k in keys <==> k == keys[0] || k in keys[1..];
    }
  }

  lemma {:induction false} RewardedAllIs(x: X.State, u: Addr, w: map<Key, X.Lockup>, m: map<Key, X.Lockup>, keys: seq<Key>, total: nat)
    requires w == X.WithRewards(x, u) && m.Keys == x.lockups.Keys && total <= U128_MAX
    requires (forall i, j :: 0 <= i < j < |keys| ==> keys[i] != keys[j]) && forall k :: k in keys ==> k in x.lockups && k.user == u
    ensures var r, sum := RewardedAll(x, m, keys, total), ListSum(keys, w, X.UserRewards(u));
            && (r.Ok? <==> (forall k :: k in keys ==> Fits(x, k)) && total + sum <= U128_MAX)
            && (r.Ok? ==> r.value.1 == total + sum && RewardsOf(m, w, keys, r.value.0))
            && sum >= 0
    decreases |keys|
  {
    if keys != [] {
      var k := keys[0];
      assert Part(w, X.UserRewards(u), k) == w[k].ntrnRewards;
      assert forall j :: j in keys <==> j == k || j in keys[1..];
      RewardedIs(x, k);
      RewardedFirst(x, m, keys, total);
      if Fits(x, k) && total + w[k].ntrnRewards <= U128_MAX {
        RewardedAllIs(x, u, w, m[k := w[k]], keys[1..], total + w[k].ntrnRewards);
        if RewardedAll(x, m, keys, total).Ok? {
          RewardsOfNext(m, w, keys, RewardedAll(x, m, keys, total).value.0);
        }
      } else {
        SumOfRewards(u, w, keys[1..]);
      }
    }
  }

  lemma SumOfRewards(u: Addr, w: map<Key, X.Lockup>, keys: seq<Key>)
    ensures ListSum(keys, w, X.UserRewards(u)) >= 0
  {
    forall k | k in w
      ensures X.UserRewards(u)(k, w[k]) >= 0
    {
      assert w[k].ntrnRewards >= 0;
    }
    ListSumNonNeg(keys, w, X.UserRewards(u));
  }

  lemma RewardsOfAll(m: map<Key, X.Lockup>, w: map<Key, X.Lockup>, keys: seq<Key>, m': map<Key, X.Lockup>)
    requires m.Keys == w.Keys && RewardsOf(m, w, keys, m') && forall k :: k in m && k !in keys ==> w[k] == m[k]
    ensures m' == w
  {
  }

  lemma UserRewardsSum(u: Addr, m: map<Key, X.Lockup>, w: map<Key, X.Lockup>, keys: seq<Key>)
    requires m.Keys == w.Keys && keys == UserKeys(m, u)
    ensures Total(w, X.UserRewards(u)) == ListSum(keys, w, X.UserRewards(u))
  {
    UserKeysComplete(m, u);
    TotalIsListed(keys, w, X.UserRewards(u));
  }

  lemma UserRewardsAreListed(x: X.State, u: Addr, w: map<Key, X.Lockup>, keys: seq<Key>)
    requires w == X.WithRewards(x, u) && keys == UserKeys(x.lockups, u)
    ensures var r, sum := RewardedAll(x, x.lockups, keys, 0), Total(w, X.UserRewards(u));
            && sum >= 0
            && (r.Ok? <==> (forall k :: k in keys ==> Fits(x, k)) && sum <= U128_MAX)
            && (r.Ok? ==> r.value.0 == w && r.value.1 == sum)
  {
    UserKeysComplete(x.lockups, u);
    RewardedAllIs(x, u, w, x.lockups, keys, 0);
    UserRewardsSum(u, x.lockups, w, keys);
    if RewardedAll(x, x.lockups, keys, 0).Ok? {
      RewardsOfAll(x.lockups, w, keys, RewardedAll(x, x.lockups, keys, 0).value.0);
    }
  }

  /** The loop over the user's keys does exactly what FinalizeRewards says. */
  lemma LoopFinalizes(x: X.State, u: Addr)
    requires u in x.users && x.users[u].totalRewards == 0
    ensures var r := RewardedAll(x, x.lockups, UserKeys(x.lockups, u), 0);
            match X.FinalizeRewards(x, u)
            case Ok(x') => r.Ok? && x' == x.(lockups := r.value.0, users := x.users[u := x.users[u].(totalRewards := r.value.1)])
            case Err(_) => r.Err?
  {
    UserRewardsAreListed(x, u, X.WithRewards(x, u), UserKeys(x.lockups, u));
    UserKeysComplete(x.lockups, u);
  }

  class Contract {
    var config: X.Config
    var incentives: nat
    var totalShare: nat
    var pools: PerPool<X.PoolInfo>
    var lockups: map<Key, X.Lockup>
    var users: map<Addr, X.UserInfo>
    var userTotals: map<(Pool, Addr), nat>
    var ledger: X.Ledger

    function State(): X.State
      reads this
    {
      X.State(config, incentives, totalShare, pools, lockups, users, userTotals, ledger)
    }

    constructor (config: X.Config)
      ensures this.config == config && incentives == totalShare == 0
      ensures lockups == map[] && users == map[] && userTotals == map[]
      ensures forall p :: pools.Get(p) == X.PoolInfo(0, 0, 0, 0, false)
      ensures ledger.staked == ledger.unstaked == ledger.received == ledger.paid == ledger.increases == ledger.withdrawals == PerPool(0, 0)
      ensures ledger.oneTime == map[]
    {
      var none := PerPool(0, 0);
      var empty := X.PoolInfo(0, 0, 0, 0, false);
      this.config := config;
      incentives, totalShare, pools := 0, 0, PerPool(empty, empty);
      lockups, users, userTotals := map[], map[], map[];
      ledger := X.Ledger(none, none, none, none, map[], none, none);
    }

    /** What the chain does when a message fails. */
    method Rollback(x: X.State)
      modifies this
      ensures State() == x
    {
      config, incentives, totalShare, pools := x.config, x.incentives, x.totalShare, x.pools;
      lockups, users, userTotals, ledger := x.lockups, x.users, x.userTotals, x.ledger;
    }

    /** 1 + coefficient for the first offered entry with this duration, times the amount. */
    method CalculateWeight(amount: nat, duration: nat) returns (r: Result<nat>)
      ensures r == X.CheckedWeight(config, amount, duration)
    {
      for i := 0 to |config.rewards|
        invariant X.Multiplier(config.rewards, duration) == X.Multiplier(config.rewards[i..], duration)
      {
        assert config.rewards[i..][0] == config.rewards[i] && config.rewards[i..][1..] == config.rewards[i + 1..];
        if config.rewards[i].duration == duration {
          var weight := MulFloor(ONE + config.rewards[i].coefficient, amount);
          return Checked(weight);
        }
      }
      return Err(InvalidDuration);
    }

    method UserOrDefault(u: Addr) returns (user: X.UserInfo)
      ensures user == State().User(u)
    {
      user := if u in users then users[u] else X.UserInfo(0, false, 0);
    }

    /** The checks before a lockup is increased; the result is the added weight. */
    method CheckIncrease(now: nat, k: Key, amount: nat) returns (r: Result<nat>)
      ensures match X.IncreaseLockup(State(), now, k, amount)
              case Ok(_) => r == Ok(X.Weight(config, amount, k.duration))
              case Err(e) => r == Err(e)
    {
      if now >= config.initTime + config.lockWindow {
        return Err(WindowClosed);
      }
      if X.Multiplier(config.rewards, k.duration) == 0 || k.duration > config.maxDuration || k.duration < config.minDuration {
        return Err(InvalidDuration);
      }
      var weight := CalculateWeight(amount, k.duration);
      if weight.Err? {
        return weight;
      }
      if pools.Get(k.pool).amountInLockups + amount > U128_MAX {
        return Err(Overflow);
      }
      var user := UserOrDefault(k.user);
      if k !in lockups && config.maxPositions == user.positions {
        return Err(TooManyPositions);
      }
      return weight;
    }

    method IncreaseLockupFor(now: nat, k: Key, amount: nat) returns (r: Result<()>)
      modifies this
      ensures match X.IncreaseLockup(old(State()), now, k, amount)
              case Ok(x) => r == Ok(()) && State() == x
              case Err(e) => r == Err(e) && State() == old(State())
    {
      var weight := CheckIncrease(now, k, amount);
      if weight.Err? {
        return Err(weight.error);
      }
      Increase(k, amount, weight.value);
      return Ok(());
    }

    method Increase(k: Key, amount: nat, weight: nat)
      modifies this
      ensures State() == X.Increased(old(State()), k, amount, weight)
    {
      var pool := pools.Get(k.pool);
      pool := pool.(weightedAmount := pool.weightedAmount + weight, amountInLockups := pool.amountInLockups + amount);
      var user := UserOrDefault(k.user);
      var lockup: X.Lockup;
      if k in lockups {
        lockup := lockups[k];
        lockup := lockup.(units := lockup.units + amount);
      } else {
        var unlockTime := config.initTime + config.lockWindow + k.duration + config.withdrawalWindow;
        lockup := X.Lockup(amount, None, 0, unlockTime, 0, false);
        user := user.(positions := user.positions + 1);
      }
      var total := if (k.pool, k.user) in userTotals then userTotals[(k.pool, k.user)] else 0;
      lockups := lockups[k := lockup];
      userTotals := userTotals[(k.pool, k.user) := total + amount];
      pools := pools.Set(k.pool, pool);
      users := users[k.user := user];
      ledger := ledger.(increases := ledger.increases.Set(k.pool, ledger.increases.Get(k.pool) + 1));
    }

    /** The checks before a lockup is reduced; the result is the weight taken off. */
    method CheckWithdrawal(now: nat, k: Key, amount: nat) returns (r: Result<nat>)
      ensures match X.WithdrawLockup(State(), now, k, amount)
              case Ok(_) => r == Ok(X.Weight(config, amount, k.duration))
              case Err(e) => r == Err(e)
    {
      if now >= config.initTime + config.lockWindow + config.withdrawalWindow {
        return Err(WindowClosed);
      }
      if amount == 0 {
        return Err(InvalidAmount);
      }
      if k !in lockups {
        return Err(NotFound);
      }
      var lockup := lockups[k];
      if lockup.withdrawalFlag {
        return Err(AlreadyWithdrawn);
      }
      if lockup.units * ONE > U128_MAX {
        return Err(Overflow);
      }
      var percent := Windows.AllowedPercent(now, config.LockEnd(), config.withdrawalWindow);
      var maximum := MulFloor(percent, lockup.units);
      if amount > maximum {
        return Err(LimitExceeded);
      }
      if lockup.units < amount {
        return Err(Overflow);
      }
      var weight := CalculateWeight(amount, k.duration);
      if weight.Err? {
        return weight;
      }
      var pool := pools.Get(k.pool);
      var user := UserOrDefault(k.user);
      if || pool.weightedAmount < weight.value || pool.amountInLockups < amount
         || (lockup.units == amount && user.positions == 0)
         || ((k.pool, k.user) in userTotals && userTotals[(k.pool, k.user)] < amount)
      {
        return Err(Overflow);
      }
      return weight;
    }

    method WithdrawFromLockup(now: nat, k: Key, amount: nat) returns (r: Result<()>)
      modifies this
      ensures match X.WithdrawLockup(old(State()), now, k, amount)
              case Ok(x) => r == Ok(()) && State() == x
              case Err(e) => r == Err(e) && State() == old(State())
    {
      var weight := CheckWithdrawal(now, k, amount);
      if weight.Err? {
        return Err(weight.error);
      }
      Reduce(now, k, amount, weight.value);
      return Ok(());
    }

    /** A position without units is removed, and its user has one position less. */
    method SaveOrRemove(k: Key, lockup: X.Lockup)
      requires lockup.units == 0 ==> State().User(k.user).positions > 0
      modifies this`lockups, this`users
      ensures lockups == if lockup.units == 0 then old(lockups) - {k} else old(lockups)[k := lockup]
      ensures users == if lockup.units == 0 then old(users)[k.user := old(State().User(k.user)).(positions := old(State().User(k.user)).positions - 1)] else old(users)
    {
      if lockup.units == 0 {
        var user := UserOrDefault(k.user);
        lockups := lockups - {k};
        users := users[k.user := user.(positions := user.positions - 1)];
      } else {
        lockups := lockups[k := lockup];
      }
    }

    method Reduce(now: nat, k: Key, amount: nat, weight: nat)
      requires k in lockups && amount <= lockups[k].units
      requires weight <= pools.Get(k.pool).weightedAmount && amount <= pools.Get(k.pool).amountInLockups
      requires amount == lockups[k].units ==> State().User(k.user).positions > 0
      requires (k.pool, k.user) in userTotals ==> amount <= userTotals[(k.pool, k.user)]
      modifies this
      ensures State() == X.Reduced(old(State()), now, k, amount, weight)
    {
      var pool := pools.Get(k.pool);
      pool := pool.(weightedAmount := pool.weightedAmount - weight, amountInLockups := pool.amountInLockups - amount);
      var lockup := lockups[k];
      lockup := lockup.(units := lockup.units - amount);
      if now >= config.LockEnd() {
        lockup := lockup.(withdrawalFlag := true);
      }
      var total := if (k.pool, k.user) in userTotals then userTotals[(k.pool, k.user)] - amount else 0;
      userTotals := userTotals[(k.pool, k.user) := total];
      SaveOrRemove(k, lockup);
      pools := pools.Set(k.pool, pool);
      ledger := ledger.(withdrawals := ledger.withdrawals.Set(k.pool, ledger.withdrawals.Get(k.pool) + 1));
    }

    method InitializePool(p: Pool, share: nat, amount: nat) returns (r: Result<()>)
      modifies this
      ensures match X.InitializePool(old(State()), p, share, amount)
              case Ok(x) => r == Ok(()) && State() == x
              case Err(e) => r == Err(e) && State() == old(State())
    {
      if totalShare + share > U128_MAX {
        return Err(Overflow);
      }
      totalShare := totalShare + share;
      pools := pools.Set(p, pools.Get(p).(incentivesShare := share, isStaked := true));
      ledger := ledger.(staked := ledger.staked.Set(p, ledger.staked.Get(p) + amount));
      return Ok(());
    }

    method IncreaseIncentives(now: nat, amount: nat) returns (r: Result<()>)
      modifies this
      ensures match X.IncreaseIncentives(old(State()), now, amount)
              case Ok(x) => r == Ok(()) && State() == x
              case Err(e) => r == Err(e) && State() == old(State())
    {
      if now >= config.WindowsEnd() {
        return Err(WindowClosed);
      }
      if incentives + amount > U128_MAX {
        return Err(Overflow);
      }
      incentives := incentives + amount;
      return Ok(());
    }

    method RewardPosition(k: Key) returns (r: Result<X.Lockup>)
      requires k in lockups
      ensures r == Rewarded(State(), k)
    {
      var lockup := lockups[k];
      if lockup.ntrnRewards == 0 {
        var pool := pools.Get(k.pool);
        var weight := CalculateWeight(lockup.units, k.duration);
        if weight.Err? {
          return Err(weight.error);
        }
        var rewards := X.Incentives(weight.value, pool.weightedAmount, pool.incentivesShare, totalShare, incentives);
        if rewards > U128_MAX {
          return Err(Overflow);
        }
        lockup := lockup.(ntrnRewards := rewards);
      }
      return Ok(lockup);
    }

    /** The loop over all positions of a user, which fixes their one-time rewards and adds them up. */
    method UpdateUserLockupPositions(u: Addr) returns (r: Result<nat>)
      modifies this
      ensures match RewardedAll(old(State()), old(lockups), UserKeys(old(lockups), u), 0)
              case Ok(p) => r == Ok(p.1) && State() == old(State()).(lockups := p.0)
              case Err(e) => r == Err(e) && State() == old(State())
    {
      ghost var x := State();
      var keys := ListKeys(lockups, u);
      var m: map<Key, X.Lockup>, total: nat := lockups, 0;
      for i := 0 to |keys|
        invariant State() == x
        invariant RewardedAll(x, x.lockups, keys, 0) == RewardedAll(x, m, keys[i..], total)
      {
        assert keys[i..][0] == keys[i] && keys[i..][1..] == keys[i + 1..];
        if keys[i] !in lockups {
          return Err(NotFound);
        }
        var lockup := RewardPosition(keys[i]);
        if lockup.Err? {
          return Err(lockup.error);
        }
        m := m[keys[i] := lockup.value];
        total := total + lockup.value.ntrnRewards;
        if total > U128_MAX {
          return Err(Overflow);
        }
      }
      lockups := m;
      return Ok(total);
    }

    /** The first step of claims and migrations. */
    method FinalizeRewards(u: Addr) returns (r: Result<()>)
      modifies this
      ensures match X.FinalizeRewards(old(State()), u)
              case Ok(x) => r == Ok(()) && State() == x
              case Err(_) => r.Err? && State() == old(State())
    {
      if u !in users {
        return Err(NotFound);
      }
      if users[u].totalRewards == 0 {
        LoopFinalizes(State(), u);
        var total := UpdateUserLockupPositions(u);
        if total.Err? {
          return Err(total.error);
        }
        users := users[u := users[u].(totalRewards := total.value)];
      }
      return Ok(());
    }

    // Claims

    /** The UpdatePoolOnDualRewardsClaim callback, sent if the generator owes rewards for this pool. */
    method Accrue(p: Pool, pending: Option<nat>) returns (r: Result<()>)
      modifies this
      ensures match X.Accrue(old(State()), p, pending)
              case Ok(x) => r == Ok(()) && State() == x
              case Err(e) => r == Err(e) && State() == old(State())
    {
      if pending.Some? {
        var pool := pools.Get(p);
        var gain := CheckedRatio(pending.value, ledger.staked.Get(p));
        if gain.Err? {
          return Err(gain.error);
        }
        if pool.perShare + gain.value > U128_MAX {
          return Err(Overflow);
        }
        pools := pools.Set(p, pool.(perShare := pool.perShare + gain.value));
        ledger := ledger.(received := ledger.received.Set(p, ledger.received.Get(p) + pending.value));
      }
      return Ok(());
    }

    method LpShare(p: Pool, units: nat) returns (r: Result<nat>)
      ensures r == X.LpShare(State(), p, units)
    {
      var pool := pools.Get(p);
      var balance := if pool.isStaked then ledger.staked.Get(p) else ledger.unstaked.Get(p);
      if pool.amountInLockups == 0 {
        return Err(DivideByZero);
      }
      return Checked(units * balance / pool.amountInLockups);
    }

    method PayPending(k: Key, lp: nat) returns (r: Result<nat>)
      requires k in lockups
      modifies this
      ensures match X.PayPending(old(State()), k, lp)
              case Ok(p) => r == Ok(p.1) && State() == p.0
              case Err(e) => r == Err(e) && State() == old(State())
    {
      var earned := CheckedMulFloor(pools.Get(k.pool).perShare, lp);
      if earned.Err? {
        return earned;
      }
      if earned.value < lockups[k].debt {
        return Err(Overflow);
      }
      var pending := earned.value - lockups[k].debt;
      ledger := ledger.(paid := ledger.paid.Set(k.pool, ledger.paid.Get(k.pool) + pending));
      return Ok(pending);
    }

    method PayOneTime(u: Addr)
      modifies this
      ensures State() == X.PayOneTime(old(State()), u)
    {
      var user := UserOrDefault(u);
      if !user.ntrnTransferred {
        if user.totalRewards > 0 {
          var earlier := if u in ledger.oneTime then ledger.oneTime[u] else [];
          ledger := ledger.(oneTime := ledger.oneTime[u := earlier + [user.totalRewards]]);
        }
        users := users[u := user.(ntrnTransferred := true)];
      }
    }

    method Close(k: Key, lp: nat) returns (r: Result<()>)
      requires k in lockups
      modifies this
      ensures match X.Close(old(State()), k, lp)
              case Ok(x) => r == Ok(()) && State() == x
              case Err(e) => r == Err(e) && State() == old(State())
    {
      var pool := pools.Get(k.pool);
      var lockup := lockups[k];
      if pool.amountInLockups < lockup.units {
        return Err(Overflow);
      }
      var total := 0;
      if (k.pool, k.user) in userTotals {
        if userTotals[(k.pool, k.user)] < lockup.units {
          return Err(Overflow);
        }
        total := userTotals[(k.pool, k.user)] - lockup.units;
      }
      pools := pools.Set(k.pool, pool.(amountInLockups := pool.amountInLockups - lockup.units));
      lockups := lockups[k := lockup.(transferred := Some(lp))];
      userTotals := userTotals[(k.pool, k.user) := total];
      return Ok(());
    }

    /** The generator returns lp tokens, or the contract sends lp tokens that were never staked. */
    method TakeLp(p: Pool, lp: nat, staked: bool) returns (r: Result<()>)
      modifies this
      ensures match if staked then X.Unstake(old(State()), p, lp) else X.SendUnstaked(old(State()), p, lp)
              case Ok(x) => r == Ok(()) && State() == x
              case Err(e) => r == Err(e) && State() == old(State())
    {
      if staked {
        if ledger.staked.Get(p) < lp {
          return Err(InsufficientFunds);
        }
        ledger := ledger.(staked := ledger.staked.Set(p, ledger.staked.Get(p) - lp));
      } else {
        if ledger.unstaked.Get(p) < lp {
          return Err(InsufficientFunds);
        }
        ledger := ledger.(unstaked := ledger.unstaked.Set(p, ledger.unstaked.Get(p) - lp));
      }
      return Ok(());
    }

    /** The WithdrawUserLockupRewards callback. */
    method WithdrawRewards(k: Key, withdraw: bool) returns (r: Result<()>)
      requires k in lockups
      modifies this
      ensures match X.WithdrawRewards(old(State()), k, withdraw)
              case Ok(x) => r == Ok(()) && State() == x
              case Err(e) => r == Err(e) && State() == old(State())
    {
      var before := State();
      var staked := pools.Get(k.pool).isStaked;
      var lp := LpShare(k.pool, lockups[k].units);
      if lp.Err? {
        return Err(lp.error);
      }
      if staked {
        var earned := MulFloor(pools.Get(k.pool).perShare, lp.value);
        var pending := PayPending(k, lp.value);
        if pending.Err? {
          return Err(pending.error);
        }
        var user := UserOrDefault(k.user);
        if !withdraw && user.ntrnTransferred && pending.value == 0 {
          Rollback(before);
          return Err(NothingToClaim);
        }
        lockups := lockups[k := lockups[k].(debt := earned)];
      }
      if withdraw {
        r := TakeLp(k.pool, lp.value, staked);
        if r.Ok? {
          r := Close(k, lp.value);
        }
        if r.Err? {
          Rollback(before);
          return r;
        }
      }
      PayOneTime(k.user);
      return Ok(());
    }

    /** ClaimRewardsAndOptionallyUnlock, with its callbacks. */
    method ClaimRewardsAndOptionallyUnlock(now: nat, k: Key, withdraw: bool, pending: Option<nat>) returns (r: Result<()>)
      modifies this
      ensures match X.Claim(old(State()), now, k, withdraw, pending)
              case Ok(x) => r == Ok(()) && State() == x
              case Err(_) => r.Err? && State() == old(State())
    {
      if now < config.WindowsEnd() {
        return Err(WindowOpen);
      }
      var before := State();
      r := FinalizeRewards(k.user);
      if r.Ok? {
        r := CheckClaim(now, k, withdraw);
      }
      if r.Ok? && pools.Get(k.pool).isStaked {
        r := Accrue(k.pool, pending);
      }
      if r.Ok? {
        r := WithdrawRewards(k, withdraw);
      }
      if r.Err? {
        Rollback(before);
      }
    }

    method CheckClaim(now: nat, k: Key, withdraw: bool) returns (r: Result<()>)
      ensures r.Ok? <==>
                && k in lockups && (withdraw ==> lockups[k].unlockTime <= now) && lockups[k].transferred.None?
                && (pools.Get(k.pool).isStaked || withdraw || !State().User(k.user).ntrnTransferred)
    {
      if k !in lockups {
        return Err(NotFound);
      }
      if withdraw && now < lockups[k].unlockTime {
        return Err(StillLocked);
      }
      if lockups[k].transferred.Some? {
        return Err(AlreadyClaimed);
      }
      var user := UserOrDefault(k.user);
      if !pools.Get(k.pool).isStaked && user.ntrnTransferred && !withdraw {
        return Err(NothingToClaim);
      }
      return Ok(());
    }

    // Migration

    /** The callbacks InitMigrateLockup, TransferAllRewardsBeforeMigration and WithdrawUserLockup. */
    method MigratePosition(k: Key, pending: Option<nat>) returns (r: Result<()>)
      requires k in lockups
      modifies this
      ensures match X.MigratePosition(old(State()), k, pending)
              case Ok(x) => r == Ok(()) && State() == x
              case Err(e) => r == Err(e) && State() == old(State())
    {
      var before := State();
      var lp := LpShare(k.pool, lockups[k].units);
      if lp.Err? {
        return Err(lp.error);
      }
      r := Accrue(k.pool, pending);
      if r.Err? {
        return r;
      }
      lp := LpShare(k.pool, lockups[k].units);
      if lp.Err? {
        Rollback(before);
        return Err(lp.error);
      }
      var paid := PayPending(k, lp.value);
      if paid.Err? {
        Rollback(before);
        return Err(paid.error);
      }
      PayOneTime(k.user);
      r := TakeLp(k.pool, lp.value, true);
      if r.Ok? {
        r := Close(k, lp.value);
      }
      if r.Err? {
        Rollback(before);
      }
    }
  }
}

/** Everything that each step of the XYK lockdrop keeps, before and after its pools are initialised. */
module LockdropXykRun {
  import opened Basics
  import opened FixedPoint
  import opened LockdropXyk
  import opened LockdropXykSolvency
  import opened LockdropXykPositions
  import opened LockdropXykRewards

  /** Before initialisation: nothing is staked, closed or claimed, and no pool has a share of the incentives. */
  ghost predicate Fresh(x: State) {
    && !x.pools.usdc.isStaked && !x.pools.atom.isStaked
    && x.pools.usdc.incentivesShare == x.pools.atom.incentivesShare == 0
    && (forall k :: k in x.lockups ==> Open(x.lockups[k]))
    && Unclaimed(x)
  }

  /** A closed position handed out exactly the LP tokens that were locked in it. */
  ghost predicate ClosedExact(x: State) {
    forall k :: k in x.lockups && !Open(x.lockups[k]) ==> x.lockups[k].transferred == Some(x.lockups[k].units)
  }

  /** An initialised pool is staked, unless nothing was locked in it. */
  predicate Initialised(pool: PoolInfo) {
    pool.isStaked || pool.amountInLockups == 0
  }

  ghost predicate WeightInv(x: State, p: Pool) {
    DriftInv(x, p) && (WholeCoefficients(x.config) ==> NoDriftInv(x, p))
  }

  ghost predicate XykInv(x: State, ready: bool, now: nat) {
    && (forall p :: PoolInv(x, p))
    && (forall p :: WeightInv(x, p))
    && UserTotalsInv(x)
    && OneTimeInv(x)
    && ClosedExact(x)
    && x.pools.usdc.incentivesShare + x.pools.atom.incentivesShare == x.totalShare
    && (!ready ==> Fresh(x))
    && (ready ==> Initialised(x.pools.usdc) && Initialised(x.pools.atom))
    && (now < x.config.WindowsEnd() ==> Unclaimed(x))
  }

  lemma IncreaseKeeps(x: State, now: nat, k: Key, amount: nat)
    requires XykInv(x, false, now) && IncreaseLockup(x, now, k, amount).Ok?
    ensures XykInv(IncreaseLockup(x, now, k, amount).value, false, now)
  {
    var x' := IncreaseLockup(x, now, k, amount).value;
    IncreaseResizes(x, now, k, amount);
    ResizeKeepsUserTotals(x, x', k, amount);
    forall p
      ensures PoolInv(x', p) && WeightInv(x', p)
    {
      ResizeKeepsPool(x, x', k, amount, p);
      assert WeightInv(x, p);
      IncreaseDrift(x, now, k, amount, p);
    }
    IncreaseKeepsFresh(x, now, k, amount);
    UnclaimedIsFine(x');
  }

  lemma IncreaseKeepsFresh(x: State, now: nat, k: Key, amount: nat)
    requires Fresh(x) && IncreaseLockup(x, now, k, amount).Ok?
    ensures Fresh(IncreaseLockup(x, now, k, amount).value)
    ensures IncreaseLockup(x, now, k, amount).value.config == x.config
  {
  }

  lemma WithdrawKeeps(x: State, now: nat, k: Key, amount: nat)
    requires XykInv(x, false, now) && WithdrawLockup(x, now, k, amount).Ok?
    ensures XykInv(WithdrawLockup(x, now, k, amount).value, false, now)
  {
    var x' := WithdrawLockup(x, now, k, amount).value;
    WithdrawResizes(x, now, k, amount);
    ResizeKeepsUserTotals(x, x', k, 0 - amount);
    forall p
      ensures PoolInv(x', p) && WeightInv(x', p)
    {
      ResizeKeepsPool(x, x', k, 0 - amount, p);
      assert WeightInv(x, p);
      WithdrawDrift(x, now, k, amount, p);
    }
    WithdrawKeepsFresh(x, now, k, amount);
    UnclaimedIsFine(x');
  }

  lemma WithdrawKeepsFresh(x: State, now: nat, k: Key, amount: nat)
    requires Fresh(x) && WithdrawLockup(x, now, k, amount).Ok?
    ensures Fresh(WithdrawLockup(x, now, k, amount).value)
    ensures WithdrawLockup(x, now, k, amount).value.config == x.config
  {
  }

  /** Initialising one pool with exactly what is locked in it. */
  lemma InitializeKeeps(x: State, p: Pool, share: nat, now: nat)
    requires (forall q :: PoolInv(x, q) && WeightInv(x, q)) && UserTotalsInv(x) && ClosedExact(x) && Unclaimed(x)
    requires !x.pools.Get(p).isStaked && x.pools.Get(p).incentivesShare == 0 && (forall k :: k in x.lockups ==> Open(x.lockups[k]))
    requires x.pools.usdc.incentivesShare + x.pools.atom.incentivesShare == x.totalShare
    requires InitializePool(x, p, share, x.pools.Get(p).amountInLockups).Ok?
    ensures var x' := InitializePool(x, p, share, x.pools.Get(p).amountInLockups).value;
            && (forall q :: PoolInv(x', q) && WeightInv(x', q)) && UserTotalsInv(x') && ClosedExact(x') && Unclaimed(x')
            && (forall k :: k in x'.lockups ==> Open(x'.lockups[k]))
            && x'.pools.usdc.incentivesShare + x'.pools.atom.incentivesShare == x'.totalShare
            && x'.pools.Get(p).isStaked
            && x'.ledger.staked.Get(p) == x.pools.Get(p).amountInLockups
            && (forall q :: q != p ==> x'.pools.Get(q) == x.pools.Get(q))
            && x'.lockups == x.lockups && x'.config == x.config && x'.incentives == x.incentives && x'.userTotals == x.userTotals
  {
    var x' := InitializePool(x, p, share, x.pools.Get(p).amountInLockups).value;
    assert PoolInv(x, p);
    SamePositionsKeepUserTotals(x, x');
    forall q
      ensures PoolInv(x', q) && WeightInv(x', q)
    {
      InitializeKeepsPool(x, p, share, x.pools.Get(p).amountInLockups, q);
      assert WeightInv(x, q);
    }
  }

  lemma IncentivesKeep(x: State, now: nat, amount: nat, ready: bool)
    requires XykInv(x, ready, now) && IncreaseIncentives(x, now, amount).Ok?
    ensures XykInv(IncreaseIncentives(x, now, amount).value, ready, now)
  {
    var x' := IncreaseIncentives(x, now, amount).value;
    SamePositionsKeepUserTotals(x, x');
    UnclaimedIsFine(x');
    forall p
      ensures PoolInv(x', p) && WeightInv(x', p)
    {
      assert PoolInv(x, p) && WeightInv(x, p);
    }
  }

  /** What claims and migrations leave alone: weights, units, shares, and what was handed out for closed positions. */
  ghost predicate Settled(x: State, x': State) {
    && x'.config == x.config && x'.incentives == x.incentives && x'.totalShare == x.totalShare
    && SettledPool(x.pools.usdc, x'.pools.usdc) && SettledPool(x.pools.atom, x'.pools.atom)
    && x'.ledger.increases == x.ledger.increases && x'.ledger.withdrawals == x.ledger.withdrawals
    && x'.lockups.Keys == x.lockups.Keys
    && forall k :: k in x.lockups ==> SettledPosition(x.lockups[k], x'.lockups[k])
  }

  predicate SettledPool(pool: PoolInfo, pool': PoolInfo) {
    && pool'.weightedAmount == pool.weightedAmount && pool'.incentivesShare == pool.incentivesShare && pool'.isStaked == pool.isStaked
    && pool'.amountInLockups <= pool.amountInLockups
  }

  predicate SettledPosition(l: Lockup, l': Lockup) {
    && l'.units == l.units && l'.withdrawalFlag == l.withdrawalFlag && l'.unlockTime == l.unlockTime
    && (l'.transferred == l.transferred || (Open(l) && l'.transferred == Some(l.units)))
  }

  lemma SettledKeeps(x: State, x': State)
    requires Settled(x, x') && ClosedExact(x) && forall p :: WeightInv(x, p)
    ensures ClosedExact(x') && forall p :: WeightInv(x', p)
  {
    forall k | k in x'.lockups && !Open(x'.lockups[k])
      ensures x'.lockups[k].transferred == Some(x'.lockups[k].units)
    {
      assert SettledPosition(x.lockups[k], x'.lockups[k]);
    }
    forall p
      ensures WeightInv(x', p)
    {
      assert WeightInv(x, p);
      forall k | k in x.lockups
        ensures x.lockups[k].units == x'.lockups[k].units
      {
        assert SettledPosition(x.lockups[k], x'.lockups[k]);
      }
      SameUnitsSameWeight(x.config, x.lockups, x'.lockups, p);
    }
  }

  lemma FinalizeSettles(x: State, u: Addr)
    requires FinalizeRewards(x, u).Ok?
    ensures Settled(x, FinalizeRewards(x, u).value)
  {
  }

  lemma AccrueSettles(x: State, p: Pool, pending: Option<nat>)
    requires Accrue(x, p, pending).Ok?
    ensures Settled(x, Accrue(x, p, pending).value)
  {
  }

  lemma SettlesTwice(x: State, y: State, z: State)
    requires Settled(x, y) && Settled(y, z)
    ensures Settled(x, z)
  {
    forall k | k in x.lockups
      ensures SettledPosition(x.lockups[k], z.lockups[k])
    {
      assert SettledPosition(x.lockups[k], y.lockups[k]) && SettledPosition(y.lockups[k], z.lockups[k]);
    }
  }

  lemma WithdrawRewardsSettles(x: State, k: Key, withdraw: bool)
    requires PoolInv(x, k.pool) && k in x.lockups && Open(x.lockups[k]) && Initialised(x.pools.Get(k.pool))
    requires WithdrawRewards(x, k, withdraw).Ok?
    ensures Settled(x, WithdrawRewards(x, k, withdraw).value)
  {
    LpShareIsUnits(x, k);
    var lp := x.lockups[k].units;
    var x2 := SetDebt(PayPending(x, k, lp).value.0, k, MulFloor(x.pools.Get(k.pool).perShare, lp));
    assert Settled(x, x2);
    if withdraw {
      CloseSettles(x2, Unstake(x2, k.pool, lp).value, k);
      SettlesTwice(x, x2, PayOneTime(Close(Unstake(x2, k.pool, lp).value, k, lp).value, k.user));
    }
  }

  lemma CloseSettles(x: State, x': State, k: Key)
    requires k in x.lockups && Open(x.lockups[k])
    requires x'.config == x.config && x'.incentives == x.incentives && x'.totalShare == x.totalShare
    requires x'.pools == x.pools && x'.lockups == x.lockups && x'.ledger.increases == x.ledger.increases && x'.ledger.withdrawals == x.ledger.withdrawals
    requires Close(x', k, x.lockups[k].units).Ok?
    ensures Settled(x, PayOneTime(Close(x', k, x.lockups[k].units).value, k.user))
    ensures Settled(x, Close(x', k, x.lockups[k].units).value)
  {
  }

  lemma MigrateSettles(x: State, k: Key, pending: Option<nat>)
    requires PoolInv(x, k.pool) && k in x.lockups && Open(x.lockups[k]) && x.pools.Get(k.pool).isStaked
    requires MigratePosition(x, k, pending).Ok?
    ensures Settled(x, MigratePosition(x, k, pending).value)
  {
    var x1 := Accrue(x, k.pool, pending).value;
    AccrueSettles(x, k.pool, pending);
    AccrueKeepsPool(x, k.pool, pending, k.pool);
    MigrateAccrued(x, k, pending);
    LeaveSettles(x1, k);
    SettlesTwice(x, x1, MigratePosition(x, k, pending).value);
  }

  lemma LeaveSettles(x: State, k: Key)
    requires PoolInv(x, k.pool) && k in x.lockups && Open(x.lockups[k]) && x.pools.Get(k.pool).isStaked
    requires MigratePosition(x, k, None).Ok?
    ensures Settled(x, MigratePosition(x, k, None).value)
  {
    LpShareIsUnits(x, k);
    var lp := x.lockups[k].units;
    CloseSettles(x, Unstake(PayOneTime(PayPending(x, k, lp).value.0, k.user), k.pool, lp).value, k);
  }

  lemma ClaimSettles(x: State, now: nat, k: Key, withdraw: bool, pending: Option<nat>)
    requires PoolInv(x, k.pool) && Initialised(x.pools.Get(k.pool)) && Claim(x, now, k, withdraw, pending).Ok?
    ensures Settled(x, Claim(x, now, k, withdraw, pending).value)
  {
    var x1 := FinalizeRewards(x, k.user).value;
    FinalizeSettles(x, k.user);
    FinalizeKeepsPool(x, k.user, k.pool);
    var x2 := if x1.pools.Get(k.pool).isStaked then Accrue(x1, k.pool, pending).value else x1;
    AccrueSettles(x1, k.pool, pending);
    AccrueSettles(x1, k.pool, None);
    AccrueKeepsPool(x1, k.pool, pending, k.pool);
    SettlesTwice(x, x1, x2);
    WithdrawRewardsSettles(x2, k, withdraw);
    SettlesTwice(x, x2, Claim(x, now, k, withdraw, pending).value);
  }

  lemma ClaimKeeps(x: State, now: nat, k: Key, withdraw: bool, pending: Option<nat>)
    requires XykInv(x, true, now) && Claim(x, now, k, withdraw, pending).Ok?
    ensures XykInv(Claim(x, now, k, withdraw, pending).value, true, now)
    ensures Settled(x, Claim(x, now, k, withdraw, pending).value)
  {
    var x' := Claim(x, now, k, withdraw, pending).value;
    assert PoolInv(x, k.pool);
    ClaimSettles(x, now, k, withdraw, pending);
    SettledKeeps(x, x');
    ClaimKeepsUserTotals(x, now, k, withdraw, pending);
    ClaimKeepsOneTime(x, now, k, withdraw, pending);
    forall p
      ensures PoolInv(x', p)
    {
      ClaimKeepsPool(x, now, k, withdraw, pending, p);
    }
  }

  /** Finalizing a user's rewards on the way to a migration. */
  lemma FinalizeKeeps(x: State, now: nat, u: Addr)
    requires XykInv(x, true, now) && x.config.WindowsEnd() <= now && FinalizeRewards(x, u).Ok?
    ensures var x' := FinalizeRewards(x, u).value;
            XykInv(x', true, now) && u in x'.users && x'.users[u].totalRewards == TotalDue(x', u)
  {
    var x' := FinalizeRewards(x, u).value;
    FinalizeSettles(x, u);
    SettledKeeps(x, x');
    SamePositionsKeepUserTotals(x, x');
    FinalizeKeepsOneTime(x, u);
    forall p
      ensures PoolInv(x', p)
    {
      FinalizeKeepsPool(x, u, p);
    }
  }

  lemma MigrateKeeps(x: State, now: nat, k: Key, pending: Option<nat>)
    requires XykInv(x, true, now) && x.config.WindowsEnd() <= now && k in x.lockups && Open(x.lockups[k])
    requires k.user in x.users && x.users[k.user].totalRewards == TotalDue(x, k.user)
    requires MigratePosition(x, k, pending).Ok?
    ensures var x' := MigratePosition(x, k, pending).value;
            && XykInv(x', true, now) && Settled(x, x')
            && k.user in x'.users && x'.users[k.user].totalRewards == TotalDue(x', k.user) && x'.users[k.user].ntrnTransferred
  {
    var x' := MigratePosition(x, k, pending).value;
    assert PoolInv(x, k.pool);
    MigrateSettles(x, k, pending);
    SettledKeeps(x, x');
    MigrateKeepsUserTotals(x, k, pending);
    MigrateKeepsOneTime(x, k, pending);
    forall p
      ensures PoolInv(x', p)
    {
      MigrateKeepsPool(x, k, pending, p);
    }
  }

  lemma TimePasses(x: State, ready: bool, now: nat, later: nat)
    requires XykInv(x, ready, now) && now <= later
    ensures XykInv(x, ready, later)
  {
  }
}

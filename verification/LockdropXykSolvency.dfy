/** Generator rewards of the XYK lockdrop: every pool can always pay what its open positions have earned. */
module LockdropXykSolvency {
  import opened Basics
  import opened FixedPoint
  import opened Sums
  import opened LockdropXyk

  /** What position k may still claim from pool p, as a decimal, when perShare has been earned by each LP token. */
  function Claimable(p: Pool, perShare: nat): (Key, Lockup) -> int {
    (k: Key, l: Lockup) => if k.pool == p && Open(l) then perShare * l.units - ONE * l.debt else 0
  }

  /** The pool's total counts its open positions, all of it is staked once the pool is initialised, no debt exceeds
      what its position has earned, and what was paid and what is still claimable was received. */
  ghost predicate PoolInv(x: State, p: Pool) {
    var pool := x.pools.Get(p);
    && pool.amountInLockups == Total(x.lockups, OpenUnits(p))
    && x.ledger.staked.Get(p) == (if pool.isStaked then pool.amountInLockups else 0)
    && (!pool.isStaked ==> pool.perShare == 0)
    && (forall k :: k in x.lockups ==> Claimable(p, pool.perShare)(k, x.lockups[k]) >= 0)
    && ONE * x.ledger.paid.Get(p) + Total(x.lockups, Claimable(p, pool.perShare)) <= ONE * x.ledger.received.Get(p)
  }

  /** The per-user totals count the open positions of each user. */
  ghost predicate UserTotalsInv(x: State) {
    forall p, u :: x.UserTotal(p, u) == Total(x.lockups, UserUnits(p, u))
  }

  // Steps that leave units, debts and openness alone

  ghost predicate SamePositions(m: map<Key, Lockup>, n: map<Key, Lockup>) {
    && m.Keys == n.Keys
    && forall k :: k in m ==> m[k].units == n[k].units && m[k].transferred == n[k].transferred && m[k].debt == n[k].debt
  }

  lemma SamePositionsSameTotals(m: map<Key, Lockup>, n: map<Key, Lockup>, p: Pool, perShare: nat)
    requires SamePositions(m, n)
    ensures Total(m, OpenUnits(p)) == Total(n, OpenUnits(p))
    ensures Total(m, Claimable(p, perShare)) == Total(n, Claimable(p, perShare))
    ensures forall k :: k in m ==> Claimable(p, perShare)(k, m[k]) == Claimable(p, perShare)(k, n[k])
  {
    forall k | k in m
      ensures OpenUnits(p)(k, m[k]) == OpenUnits(p)(k, n[k]) && Claimable(p, perShare)(k, m[k]) == Claimable(p, perShare)(k, n[k])
    {
      SamePositionSameMeasures(k, m[k], n[k], p, perShare);
    }
    TotalSame(m, OpenUnits(p), n, OpenUnits(p));
    TotalSame(m, Claimable(p, perShare), n, Claimable(p, perShare));
  }

  lemma SamePositionSameMeasures(k: Key, l: Lockup, l': Lockup, p: Pool, perShare: nat)
    requires l.units == l'.units && l.transferred == l'.transferred && l.debt == l'.debt
    ensures OpenUnits(p)(k, l) == OpenUnits(p)(k, l')
    ensures Claimable(p, perShare)(k, l) == Claimable(p, perShare)(k, l')
  {
  }

  lemma FinalizeKeepsPool(x: State, u: Addr, p: Pool)
    requires PoolInv(x, p) && FinalizeRewards(x, u).Ok?
    ensures PoolInv(FinalizeRewards(x, u).value, p)
  {
    var x' := FinalizeRewards(x, u).value;
    SamePositionsSameTotals(x.lockups, x'.lockups, p, x.pools.Get(p).perShare);
  }

  lemma PayOneTimeKeepsPool(x: State, u: Addr, p: Pool)
    requires PoolInv(x, p)
    ensures PoolInv(PayOneTime(x, u), p)
  {
  }

  // Rewards arrive

  lemma AccrueKeepsPool(x: State, q: Pool, pending: Option<nat>, p: Pool)
    requires PoolInv(x, p) && Accrue(x, q, pending).Ok?
    ensures PoolInv(Accrue(x, q, pending).value, p)
  {
    if p == q && pending.Some? {
      var perShare, staked := x.pools.Get(p).perShare, x.ledger.staked.Get(p);
      var gain := Ratio(pending.value, staked);
      RatioBounds(pending.value, staked);
      ClaimableGrows(x.lockups, p, perShare, gain);
      MulMono(gain, staked, Total(x.lockups, OpenUnits(p)));
    }
  }

  /** A gain per LP token adds the gain times the open units to what is claimable. */
  lemma ClaimableGrows(m: map<Key, Lockup>, p: Pool, perShare: nat, gain: nat)
    ensures Total(m, Claimable(p, perShare + gain)) == Total(m, Claimable(p, perShare)) + gain * Total(m, OpenUnits(p))
    ensures forall k :: k in m ==> Claimable(p, perShare)(k, m[k]) <= Claimable(p, perShare + gain)(k, m[k])
  {
    forall k | k in m
      ensures Claimable(p, perShare + gain)(k, m[k]) == Claimable(p, perShare)(k, m[k]) + gain * OpenUnits(p)(k, m[k])
      ensures Claimable(p, perShare)(k, m[k]) <= Claimable(p, perShare + gain)(k, m[k])
    {
      var l := m[k];
      Distribute(l.units, perShare, gain);
      assert gain * l.units >= 0;
    }
    TotalLinear(m, Claimable(p, perShare), OpenUnits(p), gain, Claimable(p, perShare + gain));
  }

  // Rewards leave and positions close

  /** With everything staked, the LP behind a position is exactly its units. */
  lemma LpShareIsUnits(x: State, k: Key)
    requires PoolInv(x, k.pool) && x.pools.Get(k.pool).isStaked && k in x.lockups
    requires LpShare(x, k.pool, x.lockups[k].units).Ok?
    ensures LpShare(x, k.pool, x.lockups[k].units).value == x.lockups[k].units
  {
    MulDivCancel(x.lockups[k].units, x.pools.Get(k.pool).amountInLockups);
  }

  /** Storing a new debt for an open position whose pending rewards are paid changes nothing in the balance of the pool. */
  lemma SettleKeepsPool(x: State, k: Key, lp: nat, p: Pool)
    requires PoolInv(x, p) && k in x.lockups && Open(x.lockups[k])
    requires k.pool == p ==> lp == x.lockups[k].units
    requires PayPending(x, k, lp).Ok?
    ensures PoolInv(SetDebt(PayPending(x, k, lp).value.0, k, MulFloor(x.pools.Get(k.pool).perShare, lp)), p)
  {
    var perShare, l := x.pools.Get(k.pool).perShare, x.lockups[k];
    var l' := l.(debt := MulFloor(perShare, lp));
    MulFloorBounds(perShare, lp);
    TotalSet(x.lockups, OpenUnits(p), k, l');
    TotalSet(x.lockups, Claimable(p, x.pools.Get(p).perShare), k, l');
  }

  /** Closing an open position and taking its LP out of the generator leaves the other positions covered, whether or
      not its debt was stored before. */
  lemma CloseKeepsPool(x: State, x': State, k: Key, lp: nat, p: Pool)
    requires PoolInv(x, p) && k in x.lockups && Open(x.lockups[k])
    requires x'.pools == x.pools && x'.lockups == x.lockups
    requires x'.ledger.received == x.ledger.received
    requires forall q :: x'.ledger.staked.Get(q) == x.ledger.staked.Get(q) - (if q == k.pool && x.pools.Get(q).isStaked then x.lockups[k].units else 0)
    requires forall q :: x'.ledger.paid.Get(q) >= x.ledger.paid.Get(q)
    requires ONE * (x'.ledger.paid.Get(p) - x.ledger.paid.Get(p)) <= (if p == k.pool then x.pools.Get(p).perShare * x.lockups[k].units - ONE * x.lockups[k].debt else 0)
    requires Close(x', k, lp).Ok?
    ensures PoolInv(Close(x', k, lp).value, p)
  {
    var perShare, l' := x.pools.Get(p).perShare, x.lockups[k].(transferred := Some(lp));
    TotalSet(x.lockups, OpenUnits(p), k, l');
    TotalSet(x.lockups, Claimable(p, perShare), k, l');
  }

  /** Unstaking a settled position's LP and closing it. */
  lemma UnstakeCloseKeepsPool(x: State, k: Key, lp: nat, p: Pool)
    requires PoolInv(x, p) && k in x.lockups && Open(x.lockups[k])
    requires x.pools.Get(k.pool).isStaked && lp == x.lockups[k].units
    requires ONE * x.lockups[k].debt <= x.pools.Get(k.pool).perShare * lp
    requires Unstake(x, k.pool, lp).Ok? && Close(Unstake(x, k.pool, lp).value, k, lp).Ok?
    ensures PoolInv(Close(Unstake(x, k.pool, lp).value, k, lp).value, p)
  {
    CloseKeepsPool(x, Unstake(x, k.pool, lp).value, k, lp, p);
  }

  lemma WithdrawRewardsKeepsPool(x: State, k: Key, withdraw: bool, p: Pool)
    requires PoolInv(x, p) && PoolInv(x, k.pool) && k in x.lockups && Open(x.lockups[k])
    requires WithdrawRewards(x, k, withdraw).Ok?
    ensures PoolInv(WithdrawRewards(x, k, withdraw).value, p)
  {
    if x.pools.Get(k.pool).isStaked {
      ClaimStakedKeepsPool(x, k, withdraw, p);
    } else {
      ClaimUnstakedKeepsPool(x, k, withdraw, p);
    }
  }

  lemma ClaimStakedKeepsPool(x: State, k: Key, withdraw: bool, p: Pool)
    requires PoolInv(x, p) && PoolInv(x, k.pool) && k in x.lockups && Open(x.lockups[k]) && x.pools.Get(k.pool).isStaked
    requires WithdrawRewards(x, k, withdraw).Ok?
    ensures PoolInv(WithdrawRewards(x, k, withdraw).value, p)
  {
    var pool := x.pools.Get(k.pool);
    var lp := LpShare(x, k.pool, x.lockups[k].units).value;
    LpShareIsUnits(x, k);
    SettleKeepsPool(x, k, lp, p);
    MulFloorBounds(pool.perShare, lp);
    var x2 := SetDebt(PayPending(x, k, lp).value.0, k, MulFloor(pool.perShare, lp));
    if withdraw {
      UnstakeCloseKeepsPool(x2, k, lp, p);
      PayOneTimeKeepsPool(Close(Unstake(x2, k.pool, lp).value, k, lp).value, k.user, p);
    } else {
      PayOneTimeKeepsPool(x2, k.user, p);
    }
  }

  lemma SendCloseKeepsPool(x: State, k: Key, lp: nat, p: Pool)
    requires PoolInv(x, p) && k in x.lockups && Open(x.lockups[k]) && !x.pools.Get(k.pool).isStaked
    requires p == k.pool ==> Claimable(p, x.pools.Get(p).perShare)(k, x.lockups[k]) >= 0
    requires SendUnstaked(x, k.pool, lp).Ok? && Close(SendUnstaked(x, k.pool, lp).value, k, lp).Ok?
    ensures PoolInv(Close(SendUnstaked(x, k.pool, lp).value, k, lp).value, p)
  {
    CloseKeepsPool(x, SendUnstaked(x, k.pool, lp).value, k, lp, p);
  }

  lemma ClaimUnstakedKeepsPool(x: State, k: Key, withdraw: bool, p: Pool)
    requires PoolInv(x, p) && k in x.lockups && Open(x.lockups[k]) && !x.pools.Get(k.pool).isStaked
    requires WithdrawRewards(x, k, withdraw).Ok?
    ensures PoolInv(WithdrawRewards(x, k, withdraw).value, p)
  {
    if withdraw {
      var lp := LpShare(x, k.pool, x.lockups[k].units).value;
      SendCloseKeepsPool(x, k, lp, p);
      PayOneTimeKeepsPool(Close(SendUnstaked(x, k.pool, lp).value, k, lp).value, k.user, p);
    } else {
      PayOneTimeKeepsPool(x, k.user, p);
    }
  }

  lemma ClaimKeepsPool(x: State, now: nat, k: Key, withdraw: bool, pending: Option<nat>, p: Pool)
    requires PoolInv(x, p) && PoolInv(x, k.pool) && Claim(x, now, k, withdraw, pending).Ok?
    ensures PoolInv(Claim(x, now, k, withdraw, pending).value, p)
  {
    var x1 := FinalizeRewards(x, k.user).value;
    FinalizeKeepsPool(x, k.user, p);
    FinalizeKeepsPool(x, k.user, k.pool);
    var x2 := if x1.pools.Get(k.pool).isStaked then Accrue(x1, k.pool, pending).value else x1;
    if x1.pools.Get(k.pool).isStaked {
      AccrueKeepsPool(x1, k.pool, pending, p);
      AccrueKeepsPool(x1, k.pool, pending, k.pool);
    }
    WithdrawRewardsKeepsPool(x2, k, withdraw, p);
  }

  lemma MigrateKeepsPool(x: State, k: Key, pending: Option<nat>, p: Pool)
    requires PoolInv(x, p) && PoolInv(x, k.pool) && k in x.lockups && Open(x.lockups[k]) && x.pools.Get(k.pool).isStaked
    requires MigratePosition(x, k, pending).Ok?
    ensures PoolInv(MigratePosition(x, k, pending).value, p)
  {
    var x1 := Accrue(x, k.pool, pending).value;
    AccrueKeepsPool(x, k.pool, pending, p);
    AccrueKeepsPool(x, k.pool, pending, k.pool);
    LpShareIsUnits(x1, k);
    TakeOutKeepsPool(x1, k, x1.lockups[k].units, p);
  }

  lemma TakeOutKeepsPool(x: State, k: Key, lp: nat, p: Pool)
    requires PoolInv(x, p) && k in x.lockups && Open(x.lockups[k]) && x.pools.Get(k.pool).isStaked && lp == x.lockups[k].units
    requires PayPending(x, k, lp).Ok?
    requires var x' := PayOneTime(PayPending(x, k, lp).value.0, k.user);
             Unstake(x', k.pool, lp).Ok? && Close(Unstake(x', k.pool, lp).value, k, lp).Ok?
    ensures PoolInv(Close(Unstake(PayOneTime(PayPending(x, k, lp).value.0, k.user), k.pool, lp).value, k, lp).value, p)
  {
    var x' := Unstake(PayOneTime(PayPending(x, k, lp).value.0, k.user), k.pool, lp).value;
    MulFloorBounds(x.pools.Get(k.pool).perShare, lp);
    CloseKeepsPool(x, x', k, lp, p);
  }

  // Positions grow and shrink before the pool is initialised

  /** The position at k grew or shrank by delta units; a position that shrank to nothing may be gone. */
  ghost predicate Resized(x: State, x': State, k: Key, delta: int) {
    var pool, pool' := x.pools.Get(k.pool), x'.pools.Get(k.pool);
    var units := if k in x.lockups then x.lockups[k].units else 0;
    && x'.pools == x.pools.Set(k.pool, pool.(amountInLockups := pool'.amountInLockups, weightedAmount := pool'.weightedAmount))
    && pool'.amountInLockups == pool.amountInLockups + delta
    && x'.UserTotal(k.pool, k.user) >= 0
    && x'.userTotals == x.userTotals[(k.pool, k.user) := x'.UserTotal(k.pool, k.user)]
    && ((k.pool, k.user) in x.userTotals || delta >= 0 ==> x'.UserTotal(k.pool, k.user) == x.UserTotal(k.pool, k.user) + delta)
    && (k in x.lockups ==> Open(x.lockups[k]))
    && (if k in x'.lockups then
          && x'.lockups == x.lockups[k := x'.lockups[k]]
          && x'.lockups[k].units == units + delta && Open(x'.lockups[k])
          && x'.lockups[k].debt == (if k in x.lockups then x.lockups[k].debt else 0)
        else
          k in x.lockups && x'.lockups == x.lockups - {k} && units + delta == 0)
    && x'.ledger.(increases := x.ledger.increases, withdrawals := x.ledger.withdrawals) == x.ledger
  }

  lemma IncreaseResizes(x: State, now: nat, k: Key, amount: nat)
    requires (k in x.lockups ==> Open(x.lockups[k])) && IncreaseLockup(x, now, k, amount).Ok?
    ensures Resized(x, IncreaseLockup(x, now, k, amount).value, k, amount)
  {
  }

  lemma WithdrawResizes(x: State, now: nat, k: Key, amount: nat)
    requires (k in x.lockups ==> Open(x.lockups[k])) && WithdrawLockup(x, now, k, amount).Ok?
    ensures Resized(x, WithdrawLockup(x, now, k, amount).value, k, 0 - amount)
    ensures 0 < amount <= x.lockups[k].units
  {
  }

  lemma ResizeKeepsPool(x: State, x': State, k: Key, delta: int, p: Pool)
    requires PoolInv(x, p) && !x.pools.Get(k.pool).isStaked && Resized(x, x', k, delta)
    ensures PoolInv(x', p)
  {
    var perShare := x.pools.Get(p).perShare;
    if k in x'.lockups {
      TotalSet(x.lockups, OpenUnits(p), k, x'.lockups[k]);
      TotalSet(x.lockups, Claimable(p, perShare), k, x'.lockups[k]);
      assert k in x.lockups ==> Claimable(p, perShare)(k, x.lockups[k]) >= 0;
    } else {
      TotalDrop(x.lockups, OpenUnits(p), k);
      TotalDrop(x.lockups, Claimable(p, perShare), k);
    }
  }

  lemma InitializeKeepsPool(x: State, q: Pool, share: nat, amount: nat, p: Pool)
    requires PoolInv(x, p) && !x.pools.Get(q).isStaked && amount == x.pools.Get(q).amountInLockups
    requires InitializePool(x, q, share, amount).Ok?
    ensures PoolInv(InitializePool(x, q, share, amount).value, p)
  {
  }

  // What the invariant is for

  /** No pool has paid out more generator rewards than it received. */
  lemma PaidWithinReceived(x: State, p: Pool)
    requires PoolInv(x, p)
    ensures x.ledger.paid.Get(p) <= x.ledger.received.Get(p)
  {
    TotalNonNeg(x.lockups, Claimable(p, x.pools.Get(p).perShare));
  }

  /** What a claim finds pending is never negative, and the contract has received enough to pay it. */
  lemma PendingIsCovered(x: State, k: Key)
    requires PoolInv(x, k.pool) && k in x.lockups && Open(x.lockups[k])
    ensures x.lockups[k].debt <= MulFloor(x.pools.Get(k.pool).perShare, x.lockups[k].units)
    ensures x.ledger.paid.Get(k.pool) + MulFloor(x.pools.Get(k.pool).perShare, x.lockups[k].units) - x.lockups[k].debt <= x.ledger.received.Get(k.pool)
  {
    var p, perShare, l := k.pool, x.pools.Get(k.pool).perShare, x.lockups[k];
    DivIsLargest(perShare * l.units, ONE, l.debt);
    MulFloorBounds(perShare, l.units);
    TotalNonNeg(x.lockups, Claimable(p, perShare));
    assert Claimable(p, perShare)(k, l) == perShare * l.units - ONE * l.debt;
  }
}

/** When claims and migrations in the XYK lockdrop succeed: no subtraction and no transfer in them can fail, so what remains
    are checks that can be made before the call. */
module LockdropXykProgress {
  import opened Basics
  import opened FixedPoint
  import opened Sums
  import opened LockdropXyk
  import opened LockdropXykSolvency
  import opened LockdropXykPositions
  import XykRun = LockdropXykRun

  /** The pool's reward per share after the generator has paid what it owes. */
  function PerShareAfter(perShare: nat, staked: nat, pending: Option<nat>): Result<nat> {
    match pending
    case None => Ok(perShare)
    case Some(received) =>
      var gain :- CheckedRatio(received, staked);
      Checked(perShare + gain)
  }

  /** What a position has earned can be computed in 128 bits. */
  predicate Fits(perShare: nat, units: nat) {
    units * ONE <= U128_MAX && perShare * units <= U128_MAX
  }

  /** The one-time rewards of u are recorded, or can be. */
  ghost predicate Recordable(x: State, u: Addr) {
    && u in x.users
    && (|| x.users[u].totalRewards != 0
        || (&& (forall k :: k in x.lockups && k.user == u && x.lockups[k].ntrnRewards == 0 ==> RewardFits(x, k, x.lockups[k].units))
            && Total(WithRewards(x, u), UserRewards(u)) <= U128_MAX))
  }

  lemma FinalizeSucceeds(x: State, u: Addr)
    ensures FinalizeRewards(x, u).Ok? <==> Recordable(x, u)
  {
  }

  /** What every reachable state gives for an open position. */
  ghost predicate Sound(x: State, k: Key) {
    && PoolInv(x, k.pool) && UserTotalsInv(x) && XykRun.Initialised(x.pools.Get(k.pool))
    && k in x.lockups && Open(x.lockups[k])
  }

  lemma UnitsAreThere(x: State, k: Key)
    requires Sound(x, k)
    ensures x.lockups[k].units <= x.pools.Get(k.pool).amountInLockups && x.lockups[k].units <= x.UserTotal(k.pool, k.user)
  {
    forall j | j in x.lockups
      ensures OpenUnits(k.pool)(j, x.lockups[j]) >= 0
    {
      assert x.lockups[j].units >= 0;
    }
    TotalNonNeg(x.lockups, OpenUnits(k.pool));
    UserUnitsNonNeg(x, k.pool, k.user);
    assert OpenUnits(k.pool)(k, x.lockups[k]) == UserUnits(k.pool, k.user)(k, x.lockups[k]) == x.lockups[k].units;
    assert x.UserTotal(k.pool, k.user) == Total(x.lockups, UserUnits(k.pool, k.user));
  }

  lemma LpShareSucceeds(x: State, k: Key)
    requires Sound(x, k)
    ensures LpShare(x, k.pool, x.lockups[k].units).Ok? <==> x.pools.Get(k.pool).amountInLockups > 0 && x.lockups[k].units <= U128_MAX
    ensures LpShare(x, k.pool, x.lockups[k].units).Ok? ==> x.pools.Get(k.pool).isStaked && LpShare(x, k.pool, x.lockups[k].units) == Ok(x.lockups[k].units)
  {
    var amount := x.pools.Get(k.pool).amountInLockups;
    if amount > 0 {
      MulDivCancel(x.lockups[k].units, amount);
    }
  }

  lemma PayPendingSucceeds(x: State, k: Key)
    requires Sound(x, k)
    ensures PayPending(x, k, x.lockups[k].units).Ok? <==> Fits(x.pools.Get(k.pool).perShare, x.lockups[k].units)
  {
    PendingIsCovered(x, k);
  }

  lemma PayAndCloseSucceeds(x: State, k: Key)
    requires Sound(x, k) && x.pools.Get(k.pool).isStaked
    ensures PayAndClose(x, k, x.lockups[k].units).Ok? <==> Fits(x.pools.Get(k.pool).perShare, x.lockups[k].units)
  {
    PayPendingSucceeds(x, k);
    UnitsAreThere(x, k);
  }

  lemma AccrueSucceeds(x: State, k: Key, pending: Option<nat>)
    requires Sound(x, k) && x.pools.Get(k.pool).isStaked
    ensures var pool, a := x.pools.Get(k.pool), Accrue(x, k.pool, pending);
            var after := PerShareAfter(pool.perShare, pool.amountInLockups, pending);
            && (a.Ok? <==> after.Ok?)
            && (a.Ok? ==>
                  && Sound(a.value, k) && a.value.lockups == x.lockups && a.value.users == x.users
                  && a.value.pools == x.pools.Set(k.pool, pool.(perShare := after.value)))
  {
    if Accrue(x, k.pool, pending).Ok? {
      AccrueKeepsPool(x, k.pool, pending, k.pool);
      SamePositionsKeepUserTotals(x, Accrue(x, k.pool, pending).value);
    }
  }

  // Migrations

  /** Position k can leave its pool. */
  predicate CanLeave(x: State, k: Key, pending: Option<nat>)
    requires k in x.lockups
  {
    var pool := x.pools.Get(k.pool);
    var after := PerShareAfter(pool.perShare, pool.amountInLockups, pending);
    pool.amountInLockups > 0 && after.Ok? && Fits(after.value, x.lockups[k].units)
  }

  /** Migrating a position takes exactly its units from its pool. */
  lemma MigrateSucceeds(x: State, k: Key, pending: Option<nat>)
    requires Sound(x, k)
    ensures MigratePosition(x, k, pending).Ok? <==> CanLeave(x, k, pending)
    ensures MigratePosition(x, k, pending).Ok? ==>
              var x', pool := MigratePosition(x, k, pending).value, x.pools.Get(k.pool);
              && x.lockups[k].units <= pool.amountInLockups
              && x'.pools == x.pools.Set(k.pool, pool.(perShare := PerShareAfter(pool.perShare, pool.amountInLockups, pending).value,
                                                       amountInLockups := pool.amountInLockups - x.lockups[k].units))
              && x'.lockups == x.lockups[k := x.lockups[k].(transferred := Some(x.lockups[k].units))]
  {
    LpShareSucceeds(x, k);
    UnitsAreThere(x, k);
    MigrateAccrued(x, k, pending);
    if x.pools.Get(k.pool).isStaked {
      AccrueSucceeds(x, k, pending);
      if Accrue(x, k.pool, pending).Ok? {
        var x1 := Accrue(x, k.pool, pending).value;
        LeaveSucceeds(x1, k);
        FitsBits(PerShareAfter(x.pools.Get(k.pool).perShare, x.pools.Get(k.pool).amountInLockups, pending).value, x.lockups[k].units);
      }
    }
  }

  lemma FitsBits(perShare: nat, units: nat)
    ensures Fits(perShare, units) ==> units <= U128_MAX
  {
  }

  lemma LeaveSucceeds(x: State, k: Key)
    requires Sound(x, k) && x.pools.Get(k.pool).isStaked
    ensures MigratePosition(x, k, None).Ok? <==> x.pools.Get(k.pool).amountInLockups > 0 && Fits(x.pools.Get(k.pool).perShare, x.lockups[k].units)
    ensures MigratePosition(x, k, None).Ok? ==>
              var x', pool, units := MigratePosition(x, k, None).value, x.pools.Get(k.pool), x.lockups[k].units;
              && units <= pool.amountInLockups
              && x'.pools == x.pools.Set(k.pool, pool.(amountInLockups := pool.amountInLockups - units))
              && x'.lockups == x.lockups[k := x.lockups[k].(transferred := Some(units))]
  {
    LpShareSucceeds(x, k);
    UnitsAreThere(x, k);
    FitsBits(x.pools.Get(k.pool).perShare, x.lockups[k].units);
    if x.pools.Get(k.pool).amountInLockups > 0 && x.lockups[k].units <= U128_MAX {
      MigrateCloses(x, k, x.lockups[k].units);
      PayAndCloseSucceeds(x, k);
      if PayAndClose(x, k, x.lockups[k].units).Ok? {
        PayAndCloseTakes(x, k, x.lockups[k].units);
      }
    }
  }

  lemma PayAndCloseTakes(x: State, k: Key, lp: nat)
    requires k in x.lockups && PayAndClose(x, k, lp).Ok?
    ensures var x', pool := PayOneTime(PayAndClose(x, k, lp).value, k.user), x.pools.Get(k.pool);
            && x.lockups[k].units <= pool.amountInLockups
            && x'.pools == x.pools.Set(k.pool, pool.(amountInLockups := pool.amountInLockups - x.lockups[k].units))
            && x'.lockups == x.lockups[k := x.lockups[k].(transferred := Some(lp))]
  {
  }

  // Claims

  /** The checks of a claim, once the user's rewards are recorded. */
  predicate CanClaim(x: State, now: nat, k: Key, withdraw: bool, pending: Option<nat>) {
    && k in x.lockups && Open(x.lockups[k]) && (withdraw ==> x.lockups[k].unlockTime <= now)
    && CanLeave(x, k, pending)
    && (withdraw || !x.User(k.user).ntrnTransferred || Earns(x, k, pending))
  }

  /** There are generator rewards to pay for position k. */
  predicate Earns(x: State, k: Key, pending: Option<nat>)
    requires k in x.lockups && CanLeave(x, k, pending)
  {
    var pool := x.pools.Get(k.pool);
    MulFloor(PerShareAfter(pool.perShare, pool.amountInLockups, pending).value, x.lockups[k].units) > x.lockups[k].debt
  }

  lemma WithdrawRewardsSucceeds(x: State, k: Key, withdraw: bool)
    requires Sound(x, k) && x.pools.Get(k.pool).isStaked
    ensures var pool, l := x.pools.Get(k.pool), x.lockups[k];
            WithdrawRewards(x, k, withdraw).Ok? <==>
              && pool.amountInLockups > 0 && Fits(pool.perShare, l.units)
              && (withdraw || !x.User(k.user).ntrnTransferred || MulFloor(pool.perShare, l.units) > l.debt)
  {
    var units := x.lockups[k].units;
    LpShareSucceeds(x, k);
    FitsBits(x.pools.Get(k.pool).perShare, units);
    PayPendingSucceeds(x, k);
    PendingIsCovered(x, k);
    PayAndCloseSucceeds(x, k);
    if withdraw && LpShare(x, k.pool, units).Ok? {
      UnlockCloses(x, k, units);
    }
  }

  /** Exactly when a claim succeeds in a reachable state, with or without unlock. */
  lemma ClaimSucceeds(x: State, now: nat, k: Key, withdraw: bool, pending: Option<nat>)
    requires UserTotalsInv(x) && PoolInv(x, k.pool) && XykRun.Initialised(x.pools.Get(k.pool))
    ensures Claim(x, now, k, withdraw, pending).Ok? <==>
              WindowsOver(x.config, now) && Recordable(x, k.user) && CanClaim(x, now, k, withdraw, pending)
  {
    FinalizeSucceeds(x, k.user);
    if FinalizeRewards(x, k.user).Ok? {
      var x1 := FinalizeRewards(x, k.user).value;
      FinalizeKeepsPool(x, k.user, k.pool);
      SamePositionsKeepUserTotals(x, x1);
      FinalizeLeavesChecks(x, now, k, withdraw, pending);
      ClaimAfterFinalize(x, now, k, withdraw, pending);
      if k in x1.lockups && Open(x1.lockups[k]) {
        FinalizedClaimSucceeds(x1, k, withdraw, pending);
      }
    }
  }

  /** The lock window and the withdrawal window have closed. */
  predicate WindowsOver(c: Config, now: nat) {
    c.initTime + c.lockWindow + c.withdrawalWindow <= now
  }

  lemma FinalizeLeavesChecks(x: State, now: nat, k: Key, withdraw: bool, pending: Option<nat>)
    requires FinalizeRewards(x, k.user).Ok?
    ensures var x1 := FinalizeRewards(x, k.user).value;
            && x1.pools == x.pools && x1.config == x.config
            && (CanClaim(x1, now, k, withdraw, pending) <==> CanClaim(x, now, k, withdraw, pending))
  {
  }

  lemma ClaimAfterFinalize(x: State, now: nat, k: Key, withdraw: bool, pending: Option<nat>)
    requires FinalizeRewards(x, k.user).Ok? && XykRun.Initialised(x.pools.Get(k.pool))
    ensures var x1 := FinalizeRewards(x, k.user).value;
            Claim(x, now, k, withdraw, pending).Ok? <==>
              && WindowsOver(x.config, now) && k in x1.lockups && Open(x1.lockups[k]) && (withdraw ==> x1.lockups[k].unlockTime <= now)
              && var x2 := if x1.pools.Get(k.pool).isStaked then Accrue(x1, k.pool, pending) else Ok(x1);
              x2.Ok? && k in x2.value.lockups && WithdrawRewards(x2.value, k, withdraw).Ok?
  {
  }

  lemma FinalizedClaimSucceeds(x: State, k: Key, withdraw: bool, pending: Option<nat>)
    requires Sound(x, k)
    ensures var x2 := if x.pools.Get(k.pool).isStaked then Accrue(x, k.pool, pending) else Ok(x);
            x2.Ok? && k in x2.value.lockups && WithdrawRewards(x2.value, k, withdraw).Ok? <==>
              CanLeave(x, k, pending) && (withdraw || !x.User(k.user).ntrnTransferred || Earns(x, k, pending))
  {
    if x.pools.Get(k.pool).isStaked {
      AccrueSucceeds(x, k, pending);
      if Accrue(x, k.pool, pending).Ok? {
        WithdrawRewardsSucceeds(Accrue(x, k.pool, pending).value, k, withdraw);
      }
    }
  }

  /** A claim with unlock takes exactly the position's units from its pool, and leaves the other pool alone. */
  lemma UnlockTakes(x: State, now: nat, k: Key, pending: Option<nat>)
    requires UserTotalsInv(x) && PoolInv(x, k.pool) && XykRun.Initialised(x.pools.Get(k.pool)) && Claim(x, now, k, true, pending).Ok?
    ensures k in x.lockups && Taken(x.pools, Claim(x, now, k, true, pending).value.pools, k.pool, x.lockups[k].units)
  {
    var x1 := FinalizeRewards(x, k.user).value;
    FinalizeKeepsPool(x, k.user, k.pool);
    SamePositionsKeepUserTotals(x, x1);
    ClaimEnds(x, now, k, pending);
    FinalizedUnlockTakes(x1, k, pending);
  }

  /** The given units are taken from the one pool. */
  predicate Taken(pools: PerPool<PoolInfo>, pools': PerPool<PoolInfo>, p: Pool, units: nat) {
    && units <= pools.Get(p).amountInLockups
    && pools'.Get(p).amountInLockups == pools.Get(p).amountInLockups - units
    && forall q :: q != p ==> pools'.Get(q).amountInLockups == pools.Get(q).amountInLockups
  }

  lemma ClaimEnds(x: State, now: nat, k: Key, pending: Option<nat>)
    requires Claim(x, now, k, true, pending).Ok?
    ensures var x1 := FinalizeRewards(x, k.user).value;
            && k in x.lockups && k in x1.lockups && Open(x1.lockups[k]) && x1.lockups[k].units == x.lockups[k].units && x1.pools == x.pools
            && var x2 := if x1.pools.Get(k.pool).isStaked then Accrue(x1, k.pool, pending) else Ok(x1);
            x2.Ok? && k in x2.value.lockups && Claim(x, now, k, true, pending) == WithdrawRewards(x2.value, k, true)
  {
  }

  lemma FinalizedUnlockTakes(x: State, k: Key, pending: Option<nat>)
    requires Sound(x, k)
    requires var x2 := if x.pools.Get(k.pool).isStaked then Accrue(x, k.pool, pending) else Ok(x);
             x2.Ok? && k in x2.value.lockups && WithdrawRewards(x2.value, k, true).Ok?
    ensures var x2 := if x.pools.Get(k.pool).isStaked then Accrue(x, k.pool, pending) else Ok(x);
            Taken(x.pools, WithdrawRewards(x2.value, k, true).value.pools, k.pool, x.lockups[k].units)
  {
    assert x.pools.Get(k.pool).isStaked;
    AccrueSucceeds(x, k, pending);
    var x2 := Accrue(x, k.pool, pending).value;
    LpShareSucceeds(x2, k);
    UnlockCloses(x2, k, x2.lockups[k].units);
    PayAndCloseTakes(x2, k, x2.lockups[k].units);
    assert Taken(x2.pools, WithdrawRewards(x2, k, true).value.pools, k.pool, x.lockups[k].units);
  }
}

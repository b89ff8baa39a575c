/** Positions of the XYK lockdrop: user totals, the withdrawal rule, accumulated weights, migration against unlock. */
module LockdropXykPositions {
  import opened Basics
  import opened FixedPoint
  import opened Sums
  import opened LockdropXyk
  import opened LockdropXykSolvency
  import Windows

  // User totals

  lemma UserUnitsNonNeg(x: State, p: Pool, u: Addr)
    ensures forall k :: k in x.lockups ==> UserUnits(p, u)(k, x.lockups[k]) <= Total(x.lockups, UserUnits(p, u))
  {
    forall k | k in x.lockups
      ensures UserUnits(p, u)(k, x.lockups[k]) >= 0
    {
      var l := x.lockups[k];
      assert l.units >= 0;
      assert UserUnits(p, u)(k, l) == if k.pool == p && k.user == u && Open(l) then l.units else 0;
    }
    TotalNonNeg(x.lockups, UserUnits(p, u));
  }

  lemma ResizeKeepsUserTotals(x: State, x': State, k: Key, delta: int)
    requires UserTotalsInv(x) && Resized(x, x', k, delta)
    ensures UserTotalsInv(x')
  {
    forall p, u
      ensures x'.UserTotal(p, u) == Total(x'.lockups, UserUnits(p, u))
    {
      UserUnitsNonNeg(x, p, u);
      if k in x'.lockups {
        TotalSet(x.lockups, UserUnits(p, u), k, x'.lockups[k]);
      } else {
        TotalDrop(x.lockups, UserUnits(p, u), k);
      }
      assert x.UserTotal(p, u) == Total(x.lockups, UserUnits(p, u));
    }
  }

  lemma CloseKeepsUserTotals(x: State, k: Key, lp: nat)
    requires UserTotalsInv(x) && k in x.lockups && Open(x.lockups[k]) && Close(x, k, lp).Ok?
    ensures UserTotalsInv(Close(x, k, lp).value)
  {
    var x' := Close(x, k, lp).value;
    forall p, u
      ensures x'.UserTotal(p, u) == Total(x'.lockups, UserUnits(p, u))
    {
      assert x.UserTotal(p, u) == Total(x.lockups, UserUnits(p, u));
      CloseKeepsUserTotal(x, k, lp, p, u);
    }
  }

  lemma UserUnitsOf(p: Pool, u: Addr, k: Key, l: Lockup)
    ensures UserUnits(p, u)(k, l) == if k.pool == p && k.user == u && Open(l) then l.units else 0
  {
  }

  lemma CloseKeepsUserTotal(x: State, k: Key, lp: nat, p: Pool, u: Addr)
    requires x.UserTotal(p, u) == Total(x.lockups, UserUnits(p, u))
    requires k in x.lockups && Open(x.lockups[k]) && Close(x, k, lp).Ok?
    ensures var x' := Close(x, k, lp).value;
            x'.UserTotal(p, u) == Total(x'.lockups, UserUnits(p, u))
  {
    var x', f := Close(x, k, lp).value, UserUnits(p, u);
    var l' := x'.lockups[k];
    UserUnitsNonNeg(x, p, u);
    TotalSet(x.lockups, f, k, l');
    UserUnitsOf(p, u, k, l');
    UserUnitsOf(p, u, k, x.lockups[k]);
  }

  /** Steps that keep every position's units and openness keep the user totals. */
  lemma SamePositionsKeepUserTotals(x: State, x': State)
    requires UserTotalsInv(x) && x'.userTotals == x.userTotals && x.lockups.Keys == x'.lockups.Keys
    requires forall k :: k in x.lockups ==> x.lockups[k].units == x'.lockups[k].units && x.lockups[k].transferred == x'.lockups[k].transferred
    ensures UserTotalsInv(x')
  {
    forall p, u
      ensures x'.UserTotal(p, u) == Total(x'.lockups, UserUnits(p, u))
    {
      forall k | k in x.lockups
        ensures UserUnits(p, u)(k, x.lockups[k]) == UserUnits(p, u)(k, x'.lockups[k])
      {
        var l, l' := x.lockups[k], x'.lockups[k];
        assert UserUnits(p, u)(k, l) == if k.pool == p && k.user == u && Open(l) then l.units else 0;
        assert UserUnits(p, u)(k, l') == if k.pool == p && k.user == u && Open(l') then l'.units else 0;
      }
      TotalSame(x.lockups, UserUnits(p, u), x'.lockups, UserUnits(p, u));
      assert x.UserTotal(p, u) == Total(x.lockups, UserUnits(p, u));
    }
  }

  lemma ClaimKeepsUserTotals(x: State, now: nat, k: Key, withdraw: bool, pending: Option<nat>)
    requires UserTotalsInv(x) && Claim(x, now, k, withdraw, pending).Ok?
    ensures UserTotalsInv(Claim(x, now, k, withdraw, pending).value)
  {
    var x1 := FinalizeRewards(x, k.user).value;
    var x2 := if x1.pools.Get(k.pool).isStaked then Accrue(x1, k.pool, pending).value else x1;
    SamePositionsKeepUserTotals(x, x2);
    WithdrawRewardsKeepsUserTotals(x2, k, withdraw);
  }

  lemma WithdrawRewardsKeepsUserTotals(x: State, k: Key, withdraw: bool)
    requires UserTotalsInv(x) && k in x.lockups && Open(x.lockups[k]) && WithdrawRewards(x, k, withdraw).Ok?
    ensures UserTotalsInv(WithdrawRewards(x, k, withdraw).value)
  {
    var lp := LpShare(x, k.pool, x.lockups[k].units).value;
    if x.pools.Get(k.pool).isStaked {
      var x2 := SetDebt(PayPending(x, k, lp).value.0, k, MulFloor(x.pools.Get(k.pool).perShare, lp));
      SamePositionsKeepUserTotals(x, x2);
      if withdraw {
        CloseAndPayKeepsUserTotals(x2, Unstake(x2, k.pool, lp).value, k, lp);
      } else {
        SamePositionsKeepUserTotals(x2, PayOneTime(x2, k.user));
      }
    } else if withdraw {
      CloseAndPayKeepsUserTotals(x, SendUnstaked(x, k.pool, lp).value, k, lp);
    } else {
      SamePositionsKeepUserTotals(x, PayOneTime(x, k.user));
    }
  }

  lemma CloseAndPayKeepsUserTotals(x: State, x': State, k: Key, lp: nat)
    requires UserTotalsInv(x) && k in x.lockups && Open(x.lockups[k])
    requires x'.lockups == x.lockups && x'.userTotals == x.userTotals && Close(x', k, lp).Ok?
    ensures UserTotalsInv(PayOneTime(Close(x', k, lp).value, k.user))
  {
    SamePositionsKeepUserTotals(x, x');
    CloseKeepsUserTotals(x', k, lp);
    SamePositionsKeepUserTotals(Close(x', k, lp).value, PayOneTime(Close(x', k, lp).value, k.user));
  }

  lemma MigrateKeepsUserTotals(x: State, k: Key, pending: Option<nat>)
    requires UserTotalsInv(x) && k in x.lockups && Open(x.lockups[k]) && MigratePosition(x, k, pending).Ok?
    ensures UserTotalsInv(MigratePosition(x, k, pending).value)
  {
    var x1 := Accrue(x, k.pool, pending).value;
    var lp := LpShare(x1, k.pool, x1.lockups[k].units).value;
    var x4 := Unstake(PayOneTime(PayPending(x1, k, lp).value.0, k.user), k.pool, lp).value;
    SamePositionsKeepUserTotals(x, x4);
    CloseKeepsUserTotals(x4, k, lp);
  }

  // The withdrawal rule

  /** A position l as it may be found later than l0, once the lock window has closed: it is still there, and it shrank
      at most once, to no less than half. */
  predicate Held(l0: Lockup, l: Lockup) {
    && (l0.withdrawalFlag ==> l.withdrawalFlag)
    && (if l.withdrawalFlag && !l0.withdrawalFlag then 2 * l.units >= l0.units && l.units <= l0.units else l.units == l0.units)
  }

  lemma WithdrawOnceKeepsHalf(x: State, now: nat, k: Key, amount: nat)
    requires x.config.LockEnd() <= now && WithdrawLockup(x, now, k, amount).Ok?
    ensures !x.lockups[k].withdrawalFlag
    ensures var x' := WithdrawLockup(x, now, k, amount).value;
            k in x'.lockups && x'.lockups[k].withdrawalFlag && Held(x.lockups[k], x'.lockups[k]) && x'.lockups[k].units + amount == x.lockups[k].units
  {
    Windows.KeepsHalf(x.lockups[k].units, now, x.config.LockEnd(), x.config.withdrawalWindow);
  }

  // Accumulated weights

  /** The weight of a position as a decimal, before it is rounded. */
  function ExactWeight(c: Config, p: Pool): (Key, Lockup) -> int {
    (k: Key, l: Lockup) => if k.pool == p then Multiplier(c.rewards, k.duration) * l.units else 0
  }

  function FlooredWeight(c: Config, p: Pool): (Key, Lockup) -> int {
    (k: Key, l: Lockup) => if k.pool == p then Weight(c, l.units, k.duration) else 0
  }

  /** Each increase loses less than one unit of weight, and each withdrawal takes off less than one unit too little. */
  ghost predicate DriftInv(x: State, p: Pool) {
    var weighted, exact := x.pools.Get(p).weightedAmount, Total(x.lockups, ExactWeight(x.config, p));
    exact - ONE * x.ledger.increases.Get(p) <= ONE * weighted <= exact + ONE * x.ledger.withdrawals.Get(p)
  }

  predicate WholeCoefficients(c: Config) {
    forall i :: 0 <= i < |c.rewards| ==> c.rewards[i].coefficient % ONE == 0
  }

  /** With whole-number coefficients nothing is ever lost. */
  ghost predicate NoDriftInv(x: State, p: Pool) {
    ONE * x.pools.Get(p).weightedAmount == Total(x.lockups, ExactWeight(x.config, p))
  }

  /** Each duration counts with the coefficient of its first entry, and a duration without an entry not at all. */
  lemma {:induction false} FirstEntryCounts(rewards: seq<RewardsInfo>, i: nat, duration: nat)
    requires i <= |rewards| && forall j :: 0 <= j < i ==> rewards[j].duration != duration
    ensures i < |rewards| && rewards[i].duration == duration ==> Multiplier(rewards, duration) == ONE + rewards[i].coefficient
    ensures i == |rewards| ==> Multiplier(rewards, duration) == 0
  {
    if i > 0 {
      assert forall j :: 0 <= j < i - 1 ==> rewards[1..][j] == rewards[j + 1];
      FirstEntryCounts(rewards[1..], i - 1, duration);
    }
  }

  lemma {:induction false} WholeMultiplier(rewards: seq<RewardsInfo>, duration: nat)
    requires forall i :: 0 <= i < |rewards| ==> rewards[i].coefficient % ONE == 0
    ensures Multiplier(rewards, duration) % ONE == 0
  {
    if rewards != [] && rewards[0].duration != duration {
      assert forall i :: 0 <= i < |rewards[1..]| ==> rewards[1..][i] == rewards[i + 1];
      WholeMultiplier(rewards[1..], duration);
    }
  }

  lemma WholeWeight(c: Config, amount: nat, duration: nat)
    requires WholeCoefficients(c)
    ensures ONE * Weight(c, amount, duration) == Multiplier(c.rewards, duration) * amount
  {
    var m := Multiplier(c.rewards, duration);
    WholeMultiplier(c.rewards, duration);
    var q := m / ONE;
    assert m == q * ONE;
    Regroup(q, amount);
    MulDivCancel(q * amount, ONE);
  }

  lemma Regroup(q: nat, amount: nat)
    ensures q * ONE * amount == q * amount * ONE
  {
  }

  lemma ResizeChangesWeight(x: State, x': State, k: Key, delta: int, p: Pool)
    requires Resized(x, x', k, delta)
    ensures Total(x'.lockups, ExactWeight(x.config, p)) ==
            Total(x.lockups, ExactWeight(x.config, p)) + if p == k.pool then Multiplier(x.config.rewards, k.duration) * delta else 0
  {
    var m := Multiplier(x.config.rewards, k.duration);
    Distribute(m, if k in x.lockups then x.lockups[k].units else 0, delta);
    if k in x'.lockups {
      TotalSet(x.lockups, ExactWeight(x.config, p), k, x'.lockups[k]);
    } else {
      TotalDrop(x.lockups, ExactWeight(x.config, p), k);
    }
  }

  lemma IncreaseDrift(x: State, now: nat, k: Key, amount: nat, p: Pool)
    requires (k in x.lockups ==> Open(x.lockups[k])) && IncreaseLockup(x, now, k, amount).Ok?
    ensures var x' := IncreaseLockup(x, now, k, amount).value;
            (DriftInv(x, p) ==> DriftInv(x', p)) && (WholeCoefficients(x.config) && NoDriftInv(x, p) ==> NoDriftInv(x', p))
  {
    IncreaseResizes(x, now, k, amount);
    WeightBounds(x.config, amount, k.duration);
    ResizeChangesWeight(x, IncreaseLockup(x, now, k, amount).value, k, amount, p);
  }

  lemma WithdrawDrift(x: State, now: nat, k: Key, amount: nat, p: Pool)
    requires (k in x.lockups ==> Open(x.lockups[k])) && WithdrawLockup(x, now, k, amount).Ok?
    ensures var x' := WithdrawLockup(x, now, k, amount).value;
            (DriftInv(x, p) ==> DriftInv(x', p)) && (WholeCoefficients(x.config) && NoDriftInv(x, p) ==> NoDriftInv(x', p))
  {
    var x' := WithdrawLockup(x, now, k, amount).value;
    WithdrawResizes(x, now, k, amount);
    WeightBounds(x.config, amount, k.duration);
    ResizeChangesWeight(x, x', k, 0 - amount, p);
    Distribute(Multiplier(x.config.rewards, k.duration), amount, 0 - amount);
    WithdrawCounts(x, now, k, amount, p);
  }

  lemma WithdrawCounts(x: State, now: nat, k: Key, amount: nat, p: Pool)
    requires WithdrawLockup(x, now, k, amount).Ok?
    ensures var x', n := WithdrawLockup(x, now, k, amount).value, if p == k.pool then 1 else 0;
            && x'.config == x.config
            && x'.pools.Get(p).weightedAmount == x.pools.Get(p).weightedAmount - n * Weight(x.config, amount, k.duration)
            && x'.ledger.increases.Get(p) == x.ledger.increases.Get(p)
            && x'.ledger.withdrawals.Get(p) == x.ledger.withdrawals.Get(p) + n
  {
  }

  lemma WeightBounds(c: Config, amount: nat, duration: nat)
    ensures ONE * Weight(c, amount, duration) <= Multiplier(c.rewards, duration) * amount < ONE * Weight(c, amount, duration) + ONE
    ensures WholeCoefficients(c) ==> ONE * Weight(c, amount, duration) == Multiplier(c.rewards, duration) * amount
  {
    MulFloorBounds(Multiplier(c.rewards, duration), amount);
    if WholeCoefficients(c) {
      WholeWeight(c, amount, duration);
    }
  }

  /** Steps that keep the units of all positions keep their exact weight. */
  lemma SameUnitsSameWeight(c: Config, m: map<Key, Lockup>, n: map<Key, Lockup>, p: Pool)
    requires m.Keys == n.Keys && forall k :: k in m ==> m[k].units == n[k].units
    ensures Total(m, ExactWeight(c, p)) == Total(n, ExactWeight(c, p))
  {
    TotalSame(m, ExactWeight(c, p), n, ExactWeight(c, p));
  }

  // Migration against unlock

  /** Migrating a position of a staked pool is possible exactly when unlocking it is, and it leaves the same state behind
      except for the debt of the closed position, which only the unlock stores. */
  lemma MigrationRefinesUnlock(x: State, k: Key, pending: Option<nat>)
    requires k in x.lockups && x.pools.Get(k.pool).isStaked
    ensures MigratePosition(x, k, pending).Ok? <==> Accrue(x, k.pool, pending).Ok? && WithdrawRewards(Accrue(x, k.pool, pending).value, k, true).Ok?
    ensures MigratePosition(x, k, pending).Ok? ==>
              var migrated, unlocked := MigratePosition(x, k, pending).value, WithdrawRewards(Accrue(x, k.pool, pending).value, k, true).value;
              && k in unlocked.lockups
              && migrated == unlocked.(lockups := unlocked.lockups[k := unlocked.lockups[k].(debt := x.lockups[k].debt)])
  {
    if Accrue(x, k.pool, pending).Ok? {
      var x1 := Accrue(x, k.pool, pending).value;
      assert LpShare(x1, k.pool, x.lockups[k].units) == LpShare(x, k.pool, x.lockups[k].units);
      if LpShare(x, k.pool, x.lockups[k].units).Ok? {
        MigrationRefinesUnlockAccrued(x1, k, LpShare(x, k.pool, x.lockups[k].units).value);
      }
    }
  }

  /** A migration in two steps: rewards arrive, then the position leaves. */
  lemma MigrateAccrued(x: State, k: Key, pending: Option<nat>)
    requires k in x.lockups
    ensures var a := Accrue(x, k.pool, pending);
            && (a.Ok? ==> k in a.value.lockups)
            && (MigratePosition(x, k, pending).Ok? <==> a.Ok? && MigratePosition(a.value, k, None).Ok?)
            && (MigratePosition(x, k, pending).Ok? ==> MigratePosition(x, k, pending) == MigratePosition(a.value, k, None))
  {
    if Accrue(x, k.pool, pending).Ok? {
      var x1 := Accrue(x, k.pool, pending).value;
      assert LpShare(x1, k.pool, x.lockups[k].units) == LpShare(x, k.pool, x.lockups[k].units);
    }
  }

  lemma MigrationRefinesUnlockAccrued(x: State, k: Key, lp: nat)
    requires k in x.lockups && x.pools.Get(k.pool).isStaked && LpShare(x, k.pool, x.lockups[k].units) == Ok(lp)
    ensures MigratePosition(x, k, None).Ok? <==> WithdrawRewards(x, k, true).Ok?
    ensures MigratePosition(x, k, None).Ok? ==>
              var migrated, unlocked := MigratePosition(x, k, None).value, WithdrawRewards(x, k, true).value;
              && k in unlocked.lockups
              && migrated == unlocked.(lockups := unlocked.lockups[k := unlocked.lockups[k].(debt := x.lockups[k].debt)])
  {
    MigrateCloses(x, k, lp);
    UnlockCloses(x, k, lp);
    if PayAndClose(x, k, lp).Ok? {
      PayAndCloseKeepsDebt(x, k, lp);
      PayAfterDebt(PayAndClose(x, k, lp).value, k, MulFloor(x.pools.Get(k.pool).perShare, lp));
    }
  }

  lemma PayAndCloseKeepsDebt(x: State, k: Key, lp: nat)
    requires k in x.lockups && PayAndClose(x, k, lp).Ok?
    ensures k in PayAndClose(x, k, lp).value.lockups && PayAndClose(x, k, lp).value.lockups[k].debt == x.lockups[k].debt
  {
  }

  lemma PayAfterDebt(x: State, k: Key, debt: nat)
    requires k in x.lockups
    ensures var y := PayOneTime(SetDebt(x, k, debt), k.user);
            k in y.lockups && PayOneTime(x, k.user) == y.(lockups := y.lockups[k := y.lockups[k].(debt := x.lockups[k].debt)])
  {
    var y := PayOneTime(SetDebt(x, k, debt), k.user);
    assert y.lockups[k := y.lockups[k].(debt := x.lockups[k].debt)] == x.lockups;
  }

  /** Pending rewards are paid, the LP tokens unstaked and the position closed, and last comes the one-time payment. */
  function PayAndClose(x: State, k: Key, lp: nat): Result<State>
    requires k in x.lockups
  {
    var (paid, _) :- PayPending(x, k, lp);
    var unstaked :- Unstake(paid, k.pool, lp);
    Close(unstaked, k, lp)
  }

  lemma MigrateCloses(x: State, k: Key, lp: nat)
    requires k in x.lockups && LpShare(x, k.pool, x.lockups[k].units) == Ok(lp)
    ensures MigratePosition(x, k, None).Ok? <==> PayAndClose(x, k, lp).Ok?
    ensures MigratePosition(x, k, None).Ok? ==> MigratePosition(x, k, None).value == PayOneTime(PayAndClose(x, k, lp).value, k.user)
  {
    if PayPending(x, k, lp).Ok? {
      var paid := PayPending(x, k, lp).value.0;
      UnstakePayCommute(paid, k, lp);
      if Unstake(paid, k.pool, lp).Ok? {
        ClosePayCommute(Unstake(paid, k.pool, lp).value, k, lp);
      }
    }
  }

  lemma UnlockCloses(x: State, k: Key, lp: nat)
    requires k in x.lockups && x.pools.Get(k.pool).isStaked && LpShare(x, k.pool, x.lockups[k].units) == Ok(lp)
    ensures WithdrawRewards(x, k, true).Ok? <==> PayAndClose(x, k, lp).Ok?
    ensures WithdrawRewards(x, k, true).Ok? ==>
              WithdrawRewards(x, k, true).value ==
              PayOneTime(SetDebt(PayAndClose(x, k, lp).value, k, MulFloor(x.pools.Get(k.pool).perShare, lp)), k.user)
  {
    if PayPending(x, k, lp).Ok? {
      var paid := PayPending(x, k, lp).value.0;
      if Unstake(paid, k.pool, lp).Ok? {
        CloseDebtCommute(paid, k, lp, MulFloor(x.pools.Get(k.pool).perShare, lp));
      }
    }
  }

  lemma UnstakePayCommute(x: State, k: Key, lp: nat)
    ensures Unstake(PayOneTime(x, k.user), k.pool, lp) ==
            if Unstake(x, k.pool, lp).Ok? then Ok(PayOneTime(Unstake(x, k.pool, lp).value, k.user)) else Err(InsufficientFunds)
  {
  }

  lemma ClosePayCommute(x: State, k: Key, lp: nat)
    requires k in x.lockups
    ensures Close(PayOneTime(x, k.user), k, lp) ==
            if Close(x, k, lp).Ok? then Ok(PayOneTime(Close(x, k, lp).value, k.user)) else Err(Overflow)
  {
  }

  /** Unstaking and closing a position do not depend on its debt, and keep it. */
  lemma CloseDebtCommute(x: State, k: Key, lp: nat, debt: nat)
    requires k in x.lockups && Unstake(x, k.pool, lp).Ok?
    ensures Unstake(SetDebt(x, k, debt), k.pool, lp).Ok?
    ensures var x1, x2 := Unstake(x, k.pool, lp).value, Unstake(SetDebt(x, k, debt), k.pool, lp).value;
            && (Close(x1, k, lp).Ok? <==> Close(x2, k, lp).Ok?)
            && (Close(x1, k, lp).Ok? ==>
                  && Close(x1, k, lp).value.lockups[k].debt == x.lockups[k].debt
                  && Close(x2, k, lp).value == SetDebt(Close(x1, k, lp).value, k, debt))
  {
    var x1, x2 := Unstake(x, k.pool, lp).value, Unstake(SetDebt(x, k, debt), k.pool, lp).value;
    if Close(x1, k, lp).Ok? {
      assert Close(x2, k, lp).value.lockups == SetDebt(Close(x1, k, lp).value, k, debt).lockups;
    }
  }
}

/** When a lockup may be reduced: only the rounding of weights can stand in the way of an allowed withdrawal. */
module LockupWithdrawals {
  import opened Basics
  import opened FixedPoint
  import opened Sums
  import opened LockdropXyk
  import opened LockdropXykSolvency
  import opened LockdropXykPositions
  import XykRun = LockdropXykRun
  import Auction
  import Windows
  import opened Tge
  import opened TgeTheorems

  function CountOf(u: Addr): (Key, Lockup) -> int {
    (k: Key, l: Lockup) => if k.user == u then 1 else 0
  }

  predicate CountedUser(x: State, u: Addr, count: int) {
    x.User(u).positions == count && count <= x.config.maxPositions
  }

  /** Every user's number of positions is counted and within the limit, and every position's duration is on offer. */
  ghost predicate CountInv(x: State) {
    && (forall u :: CountedUser(x, u, Total(x.lockups, CountOf(u))))
    && forall k :: k in x.lockups ==> Multiplier(x.config.rewards, k.duration) > 0
  }

  lemma IncreaseKeepsCount(x: State, now: nat, k: Key, amount: nat)
    requires CountInv(x) && IncreaseLockup(x, now, k, amount).Ok?
    ensures CountInv(IncreaseLockup(x, now, k, amount).value)
  {
    var x' := IncreaseLockup(x, now, k, amount).value;
    forall u
      ensures CountedUser(x', u, Total(x'.lockups, CountOf(u)))
    {
      assert CountedUser(x, u, Total(x.lockups, CountOf(u)));
      TotalSet(x.lockups, CountOf(u), k, x'.lockups[k]);
    }
  }

  lemma WithdrawKeepsCount(x: State, now: nat, k: Key, amount: nat)
    requires CountInv(x) && WithdrawLockup(x, now, k, amount).Ok?
    ensures CountInv(WithdrawLockup(x, now, k, amount).value)
  {
    var x' := WithdrawLockup(x, now, k, amount).value;
    forall u
      ensures CountedUser(x', u, Total(x'.lockups, CountOf(u)))
    {
      assert CountedUser(x, u, Total(x.lockups, CountOf(u)));
      if k in x'.lockups {
        TotalSet(x.lockups, CountOf(u), k, x'.lockups[k]);
      } else {
        TotalDrop(x.lockups, CountOf(u), k);
      }
    }
  }

  lemma SamePositionsKeepCount(x: State, x': State)
    requires CountInv(x) && x'.lockups == x.lockups && x'.users == x.users && x'.config == x.config
    ensures CountInv(x')
  {
    forall u
      ensures CountedUser(x', u, Total(x'.lockups, CountOf(u)))
    {
      assert CountedUser(x, u, Total(x.lockups, CountOf(u)));
    }
  }

  ghost predicate Counted(w: World) {
    w.auction.minted.None? ==> CountInv(w.xyk)
  }

  lemma NextKeepsCount(w: World, e: Event)
    requires Counted(w)
    ensures Counted(Next(w, e))
  {
    var l := Later(w, e.elapsed);
    if Execute(l, e.tx).Ok? {
      ExecuteKeepsCount(l, e.tx);
    }
  }

  lemma ExecuteKeepsCount(w: World, tx: Tx)
    requires Counted(w) && Execute(w, tx).Ok?
    ensures Counted(Execute(w, tx).value)
  {
    if tx.LockLp? && w.auction.minted.None? {
      IncreaseKeepsCount(w.xyk, w.now, tx.key, tx.units);
    } else if tx.WithdrawLp? && w.auction.minted.None? {
      WithdrawKeepsCount(w.xyk, w.now, tx.key, tx.units);
    } else if Execute(w, tx).value.auction.minted.None? {
      OthersKeepPositions(w, tx);
      SamePositionsKeepCount(w.xyk, Execute(w, tx).value.xyk);
    }
  }

  /** Until initialisation no other transaction touches the positions. */
  lemma OthersKeepPositions(w: World, tx: Tx)
    requires Execute(w, tx).Ok? && Execute(w, tx).value.auction.minted.None?
    requires tx.LockLp? || tx.WithdrawLp? ==> w.auction.minted.Some?
    ensures var x, x' := w.xyk, Execute(w, tx).value.xyk;
            w.auction.minted.None? && x'.lockups == x.lockups && x'.users == x.users && x'.config == x.config
  {
    if tx.MigrateToVesting? {
      HandOverKeepsMinted(w.auction, Auction.Batch(w.auction));
    }
  }

  lemma {:induction false} HandOverKeepsMinted(a: Auction.State, batch: seq<Addr>)
    ensures Auction.VestUsers(a, batch).Ok? ==> Auction.VestUsers(a, batch).value.minted == a.minted
    decreases |batch|
  {
    if batch != [] && Auction.VestUser(a, batch[0]).Ok? {
      HandOverKeepsMinted(Auction.VestUser(a, batch[0]).value, batch[1..]);
    }
  }

  lemma {:induction false} RunKeepsCount(w: World, events: seq<Event>)
    requires Counted(w)
    ensures Counted(Run(w, events))
    decreases |events|
  {
    if events != [] {
      NextKeepsCount(w, events[0]);
      RunKeepsCount(Next(w, events[0]), events[1..]);
    }
  }

  /** A position's units are within all totals that count them. */
  lemma UnitsWithinTotals(x: State, k: Key)
    requires PoolInv(x, k.pool) && UserTotalsInv(x) && CountInv(x) && k in x.lockups && Open(x.lockups[k])
    ensures x.lockups[k].units <= x.pools.Get(k.pool).amountInLockups
    ensures x.lockups[k].units <= x.UserTotal(k.pool, k.user)
    ensures x.User(k.user).positions > 0 && Multiplier(x.config.rewards, k.duration) > 0
  {
    forall j | j in x.lockups
      ensures OpenUnits(k.pool)(j, x.lockups[j]) >= 0 && UserUnits(k.pool, k.user)(j, x.lockups[j]) >= 0 && CountOf(k.user)(j, x.lockups[j]) >= 0
    {
      assert x.lockups[j].units >= 0;
    }
    TotalNonNeg(x.lockups, OpenUnits(k.pool));
    TotalNonNeg(x.lockups, UserUnits(k.pool, k.user));
    TotalNonNeg(x.lockups, CountOf(k.user));
    assert OpenUnits(k.pool)(k, x.lockups[k]) == UserUnits(k.pool, k.user)(k, x.lockups[k]) == x.lockups[k].units;
    assert CountOf(k.user)(k, x.lockups[k]) == 1;
    assert CountedUser(x, k.user, Total(x.lockups, CountOf(k.user)));
    assert x.UserTotal(k.pool, k.user) == Total(x.lockups, UserUnits(k.pool, k.user));
  }

  /** The withdrawal is allowed by the rules that users know: windows, limit, one withdrawal after the lock window. */
  predicate Allowed(x: State, now: nat, k: Key, amount: nat) {
    var lockEnd := x.config.initTime + x.config.lockWindow;
    && now < lockEnd + x.config.withdrawalWindow && 0 < amount && k in x.lockups && !x.lockups[k].withdrawalFlag
    && x.lockups[k].units * ONE <= U128_MAX && amount <= Windows.AllowedAmount(x.lockups[k].units, now, lockEnd, x.config.withdrawalWindow)
  }

  lemma AllowedSucceeds(x: State, now: nat, k: Key, amount: nat)
    requires PoolInv(x, k.pool) && UserTotalsInv(x) && CountInv(x) && (k in x.lockups ==> Open(x.lockups[k]))
    ensures WithdrawLockup(x, now, k, amount).Ok? <==>
              Allowed(x, now, k, amount) && Weight(x.config, amount, k.duration) <= Min(x.pools.Get(k.pool).weightedAmount, U128_MAX)
  {
    if Allowed(x, now, k, amount) {
      Windows.AtMostAll(x.lockups[k].units, now, x.config.LockEnd(), x.config.withdrawalWindow);
      UnitsWithinTotals(x, k);
    }
  }

  lemma WholeWeightsSuffice(x: State, k: Key, amount: nat)
    requires WholeCoefficients(x.config) && NoDriftInv(x, k.pool) && k in x.lockups && amount <= x.lockups[k].units
    ensures Weight(x.config, amount, k.duration) <= x.pools.Get(k.pool).weightedAmount
  {
    var m := Multiplier(x.config.rewards, k.duration);
    forall j | j in x.lockups
      ensures ExactWeight(x.config, k.pool)(j, x.lockups[j]) >= 0
    {
      assert ExactWeight(x.config, k.pool)(j, x.lockups[j]) == if j.pool == k.pool then Multiplier(x.config.rewards, j.duration) * x.lockups[j].units else 0;
    }
    TotalNonNeg(x.lockups, ExactWeight(x.config, k.pool));
    assert ExactWeight(x.config, k.pool)(k, x.lockups[k]) == m * x.lockups[k].units;
    WholeWeight(x.config, amount, k.duration);
    MulMono(m, amount, x.lockups[k].units);
    Cancel(ONE, Weight(x.config, amount, k.duration), x.pools.Get(k.pool).weightedAmount);
  }

  /** In every run up to initialisation: a user has exactly the counted number of positions, within the limit. An allowed
      withdrawal from a lockup succeeds if and only if its weight is within the pool's accumulated weight and fits; with
      whole-number coefficients it always is within. */
  lemma AllowedWithdrawals(start: World, events: seq<Event>, k: Key, amount: nat)
    requires Initial(start)
    ensures var w := Run(start, events);
            w.auction.minted.None? ==>
              var x, weight := w.xyk, Weight(w.xyk.config, amount, k.duration);
              && x.User(k.user).positions == Total(x.lockups, CountOf(k.user)) <= x.config.maxPositions
              && (WithdrawLockup(x, w.now, k, amount).Ok? <==> Allowed(x, w.now, k, amount) && weight <= Min(x.pools.Get(k.pool).weightedAmount, U128_MAX))
              && (WholeCoefficients(x.config) && Allowed(x, w.now, k, amount) ==> weight <= x.pools.Get(k.pool).weightedAmount)
  {
    Reached(start, events);
    RunKeepsCount(start, events);
    if Run(start, events).auction.minted.None? {
      AllowedInState(Run(start, events).xyk, Run(start, events).now, k, amount);
    }
  }

  lemma AllowedInState(x: State, now: nat, k: Key, amount: nat)
    requires XykRun.XykInv(x, false, now) && CountInv(x)
    ensures var weight := Weight(x.config, amount, k.duration);
            && x.User(k.user).positions == Total(x.lockups, CountOf(k.user)) <= x.config.maxPositions
            && (WithdrawLockup(x, now, k, amount).Ok? <==> Allowed(x, now, k, amount) && weight <= Min(x.pools.Get(k.pool).weightedAmount, U128_MAX))
            && (WholeCoefficients(x.config) && Allowed(x, now, k, amount) ==> weight <= x.pools.Get(k.pool).weightedAmount)
  {
    assert PoolInv(x, k.pool) && XykRun.WeightInv(x, k.pool);
    assert CountedUser(x, k.user, Total(x.lockups, CountOf(k.user)));
    AllowedSucceeds(x, now, k, amount);
    if WholeCoefficients(x.config) && Allowed(x, now, k, amount) {
      Windows.AtMostAll(x.lockups[k].units, now, x.config.LockEnd(), x.config.withdrawalWindow);
      WholeWeightsSuffice(x, k, amount);
    }
  }

  /** With a coefficient of one half an allowed withdrawal can fail: one unit locked twice weighs 1 + 1 in the pool, but
      taking out both at once would take off 3. */
  lemma AllowedWithdrawalCanFail(x: State, k: Key)
    requires x.config == Config(0, 10, 10, 1, 1, 1, [RewardsInfo(1, ONE / 2)]) && k == Key(USDC, 7, 1)
    requires x.lockups == map[] && x.users == map[] && x.userTotals == map[] && x.pools.usdc == PoolInfo(0, 0, 0, 0, false)
    ensures IncreaseLockup(x, 0, k, 1).Ok?
    ensures var x1 := IncreaseLockup(x, 0, k, 1).value;
            && IncreaseLockup(x1, 0, k, 1).Ok?
            && var x2 := IncreaseLockup(x1, 0, k, 1).value;
            Allowed(x2, 0, k, 2) && WithdrawLockup(x2, 0, k, 2) == Err(Overflow)
  {
    assert Multiplier(x.config.rewards, 1) == ONE + ONE / 2;
    assert Weight(x.config, 1, 1) == 1;
    assert Weight(x.config, 2, 1) == 3;
  }
}

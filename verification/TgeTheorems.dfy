/** What holds in every run of the token generation event. */
module TgeTheorems {
  import opened Basics
  import opened FixedPoint
  import opened Sums
  import opened Tge
  import opened TgeInvariant
  import opened PositionKeys
  import Auction
  import AuctionProofs
  import AuctionVesting
  import Xyk = LockdropXyk
  import XykSolvency = LockdropXykSolvency
  import XykPositions = LockdropXykPositions
  import XykRewards = LockdropXykRewards
  import XykRun = LockdropXykRun
  import Pcl = LockdropPcl
  import PclSolvency = LockdropPclSolvency
  import RestrictedVector
  import Windows

  lemma Reached(start: World, events: seq<Event>)
    requires Initial(start)
    ensures Inv(Run(start, events))
  {
    InitialInv(start);
    RunKeeps(start, events);
  }

  // Generator and incentives rewards

  /** In every run the XYK lockdrop pays each pool no more generator rewards than it received; what an open position
      would be paid next is never negative, and is covered by what is left. */
  lemma XykRewardsAreCovered(start: World, events: seq<Event>)
    requires Initial(start)
    ensures var x := Run(start, events).xyk;
            && (forall p :: x.ledger.paid.Get(p) <= x.ledger.received.Get(p))
            && (forall k :: k in x.lockups && Xyk.Open(x.lockups[k]) ==>
                  var earned := MulFloor(x.pools.Get(k.pool).perShare, x.lockups[k].units);
                  0 <= earned - x.lockups[k].debt <= x.ledger.received.Get(k.pool) - x.ledger.paid.Get(k.pool))
  {
    Reached(start, events);
    var x := Run(start, events).xyk;
    forall p
      ensures x.ledger.paid.Get(p) <= x.ledger.received.Get(p)
    {
      XykSolvency.PaidWithinReceived(x, p);
    }
    forall k | k in x.lockups && Xyk.Open(x.lockups[k])
      ensures var earned := MulFloor(x.pools.Get(k.pool).perShare, x.lockups[k].units);
              0 <= earned - x.lockups[k].debt <= x.ledger.received.Get(k.pool) - x.ledger.paid.Get(k.pool)
    {
      XykSolvency.PendingIsCovered(x, k);
    }
  }

  /** The same for every pool and reward token of the PCL lockdrop; paying a token leaves the debt equal to what the
      position has earned of it. */
  lemma PclRewardsAreCovered(start: World, events: seq<Event>, p: Pool, t: Pcl.Token)
    requires Initial(start)
    ensures var c := Run(start, events).pcl;
            && c.Paid(p, t) <= c.Received(p, t)
            && (forall k :: k in c.lockups && k.pool == p && Pcl.Open(c.lockups[k]) ==> PendingCovered(c, k, t))
  {
    Reached(start, events);
    PclCovered(Run(start, events).pcl, p, t);
  }

  /** What an open position has earned of a token and not been paid is in the contract, and a payment settles it. */
  predicate PendingCovered(c: Pcl.State, k: Key, t: Pcl.Token)
    requires k in c.lockups
  {
    var earned, debt := MulFloor(PclSolvency.PerShare(c, k.pool, t), c.lockups[k].units), RestrictedVector.Amount(c.lockups[k].debts, t);
    && 0 <= earned - debt <= c.Received(k.pool, t) - c.Paid(k.pool, t)
    && (Pcl.PayToken(c, k, c.lockups[k].units, t).Ok? ==>
          RestrictedVector.Amount(Pcl.PayToken(c, k, c.lockups[k].units, t).value.0.lockups[k].debts, t) == earned)
  }

  lemma PclCovered(c: Pcl.State, p: Pool, t: Pcl.Token)
    requires TgeInvariant.PclInv(c)
    ensures c.Paid(p, t) <= c.Received(p, t)
    ensures forall k :: k in c.lockups && k.pool == p && Pcl.Open(c.lockups[k]) ==> PendingCovered(c, k, t)
  {
    assert PclSolvency.TokenInv(c, p, t);
    PclSolvency.PaidWithinReceived(c, p, t);
    forall k | k in c.lockups && k.pool == p && Pcl.Open(c.lockups[k])
      ensures PendingCovered(c, k, t)
    {
      PclSolvency.PayTokenSettles(c, k, t);
    }
  }

  // Books of the three contracts

  /** Until initialisation the auction's locked total, the sum of its users' locked tokens, the lockdrop's pool total and
      the sum of the open positions are the same, and so are the amounts of each user. */
  lemma LockedAmountsAgree(start: World, events: seq<Event>, p: Pool, u: Addr)
    requires Initial(start)
    ensures var w := Run(start, events);
            w.auction.minted.None? ==>
              && w.auction.locked.Get(p) == Total(w.auction.users, AuctionProofs.LockedIn(p))
              && w.auction.locked.Get(p) == w.xyk.pools.Get(p).amountInLockups
              && w.auction.locked.Get(p) == Total(w.xyk.lockups, Xyk.OpenUnits(p))
              && w.auction.User(u).locked.Get(p) == Total(w.xyk.lockups, Xyk.UserUnits(p, u))
  {
    Reached(start, events);
    var w := Run(start, events);
    assert AuctionProofs.PoolInv(w.auction, p) && XykSolvency.PoolInv(w.xyk, p);
    assert w.xyk.UserTotal(p, u) == Total(w.xyk.lockups, Xyk.UserUnits(p, u));
    if w.auction.minted.None? {
      FreshUnitsAreOpen(w.auction, w.xyk, p);
    }
  }

  /** The auction's deposit totals are the sums over its users. */
  lemma DepositTotalsAreSums(start: World, events: seq<Event>, p: Pool)
    requires Initial(start)
    ensures var a := Run(start, events).auction;
            a.deposited.Get(p) == Total(a.users, AuctionProofs.DepositedIn(p))
  {
    Reached(start, events);
    assert AuctionProofs.PoolInv(Run(start, events).auction, p);
  }

  /** Initialisation stakes exactly the locked amounts. */
  lemma InitPoolStakesLocked(start: World, events: seq<Event>, minted: PerPool<nat>)
    requires Initial(start) && Execute(Run(start, events), InitPool(minted)).Ok?
    ensures var w, w' := Run(start, events), Execute(Run(start, events), InitPool(minted)).value;
            w'.xyk.ledger.staked == w.auction.locked && w'.auction.ledger.toLockdrop == w.auction.locked
  {
    Reached(start, events);
    InitPoolKeepsXyk(Run(start, events), minted);
  }

  /** After initialisation the generator holds exactly the units of the open positions, each closed position has handed
      out exactly its units, and open and closed ones together are still what the auction counts as locked. */
  lemma UnlocksAreExact(start: World, events: seq<Event>, p: Pool)
    requires Initial(start)
    ensures var w := Run(start, events);
            w.auction.minted.Some? ==>
              && w.xyk.ledger.staked.Get(p) == Total(w.xyk.lockups, Xyk.OpenUnits(p))
              && w.auction.locked.Get(p) == Total(w.xyk.lockups, AllUnits(p))
              && (forall k :: k in w.xyk.lockups && w.xyk.lockups[k].transferred.Some? ==> w.xyk.lockups[k].transferred.value == w.xyk.lockups[k].units)
  {
    Reached(start, events);
    var w := Run(start, events);
    assert XykSolvency.PoolInv(w.xyk, p);
    assert w.auction.minted.Some? ==> XykRun.Initialised(w.xyk.pools.Get(p));
  }

  /** The PCL lockdrop's totals are the sums of its open positions and exactly the LP tokens it has; each of its
      positions is closed in the XYK lockdrop; a pool was staked at most once, and only when the XYK lockdrop had no open
      units of it left. */
  lemma MigratedBooksAgree(start: World, events: seq<Event>, p: Pool, u: Addr)
    requires Initial(start)
    ensures var w := Run(start, events);
            && w.pcl.pools.Get(p).amountInLockups == Total(w.pcl.lockups, Pcl.OpenUnits(p))
            && w.pcl.ledger.staked.Get(p) + w.pcl.ledger.unstaked.Get(p) == w.pcl.pools.Get(p).amountInLockups
            && w.pcl.UserTotal(p, u) == Total(w.pcl.lockups, Pcl.UserUnits(p, u))
            && w.xyk.UserTotal(p, u) == Total(w.xyk.lockups, Xyk.UserUnits(p, u))
            && (forall k :: k in w.pcl.lockups ==> k in w.xyk.lockups && w.xyk.lockups[k].transferred.Some?)
            && w.pcl.ledger.stakes.Get(p) <= 1
            && (w.pcl.pools.Get(p).isStaked ==> Total(w.xyk.lockups, Xyk.OpenUnits(p)) == 0)
  {
    Reached(start, events);
    var w := Run(start, events);
    assert PclSolvency.PoolInv(w.pcl, p) && XykSolvency.PoolInv(w.xyk, p);
    assert w.pcl.UserTotal(p, u) == Total(w.pcl.lockups, Pcl.UserUnits(p, u));
    assert w.xyk.UserTotal(p, u) == Total(w.xyk.lockups, Xyk.UserUnits(p, u));
    assert StakedOnce(w.xyk.pools.Get(p), w.pcl.pools.Get(p), w.pcl.ledger.stakes.Get(p));
  }

  /** Migrating a user closes all of the user's positions and leaves both user totals at zero. */
  lemma MigrationClosesAll(start: World, events: seq<Event>, u: Addr, legs: map<Key, Leg>)
    requires Initial(start) && Execute(Run(start, events), MigrateLiquidity(u, legs)).Ok?
    ensures var x := Execute(Run(start, events), MigrateLiquidity(u, legs)).value.xyk;
            && (forall k :: k in x.lockups && k.user == u ==> x.lockups[k].transferred.Some?)
            && x.UserTotal(USDC, u) == 0 && x.UserTotal(ATOM, u) == 0
  {
    Reached(start, events);
    MigrateLiquidityKeeps(Run(start, events), u, legs);
    var x := Execute(Run(start, events), MigrateLiquidity(u, legs)).value.xyk;
    NoOpenUnits(x, u, USDC);
    NoOpenUnits(x, u, ATOM);
  }

  lemma NoOpenUnits(x: Xyk.State, u: Addr, p: Pool)
    requires XykSolvency.UserTotalsInv(x) && forall k :: k in x.lockups && k.user == u ==> !Xyk.Open(x.lockups[k])
    ensures x.UserTotal(p, u) == 0
  {
    forall k | k in x.lockups
      ensures 1 * Xyk.UserUnits(p, u)(k, x.lockups[k]) <= 0 * Xyk.UserUnits(p, u)(k, x.lockups[k])
    {
    }
    TotalScaledMono(x.lockups, 1, Xyk.UserUnits(p, u), 0, Xyk.UserUnits(p, u));
    assert x.UserTotal(p, u) == Total(x.lockups, Xyk.UserUnits(p, u));
  }

  // LP tokens of the auction

  /** The minted LP tokens are at the reserve, which got half, at the lockdrop, which got what was locked, with the
      vesting contracts, or still held by the auction. */
  lemma LpTokensAreConserved(start: World, events: seq<Event>, p: Pool)
    requires Initial(start) && Run(start, events).auction.minted.Some?
    ensures var a := Run(start, events).auction;
            && a.ledger.reserve.Get(p) == a.minted.value.Get(p) / 2 && a.ledger.toLockdrop.Get(p) == a.locked.Get(p)
            && a.ledger.reserve.Get(p) + a.ledger.toLockdrop.Get(p) + Total(a.ledger.vesting.Get(p), AuctionVesting.Vests()) + a.ledger.held.Get(p) == a.minted.value.Get(p)
  {
    Reached(start, events);
    var a := Run(start, events).auction;
    assert AuctionVesting.LpInv(a, p);
  }

  /** If the pairs mint at least the computed sizes, sending the reserve's half and the locked tokens cannot fail. */
  lemma InitPoolCannotRunShort(start: World, events: seq<Event>, minted: PerPool<nat>)
    requires Initial(start)
    requires var a := Run(start, events).auction;
             && a.minted.None? && a.config.LockEnd() <= Run(start, events).now && (a.lpSize.usdc != 0 || a.lpSize.atom != 0)
             && a.lpSize.usdc <= minted.usdc && a.lpSize.atom <= minted.atom
    ensures Auction.InitPool(Run(start, events).auction, Run(start, events).now, minted).Ok?
  {
    Reached(start, events);
    assert AuctionProofs.PoolInv(Run(start, events).auction, USDC) && AuctionProofs.PoolInv(Run(start, events).auction, ATOM);
    AuctionVesting.InitPoolNeverShort(Run(start, events).auction, Run(start, events).now, minted);
  }

  /** In every run nobody has locked more than the entitlement. */
  lemma LockedWithinEntitlement(start: World, events: seq<Event>, u: Addr, p: Pool)
    requires Initial(start)
    ensures var a := Run(start, events).auction;
            u in a.users ==> a.users[u].locked.Get(p) <= Auction.Entitlement(a, u, p)
  {
    Reached(start, events);
    assert AuctionProofs.PoolInv(Run(start, events).auction, p);
  }

  // Weights and one-time rewards

  /** The accumulated weight of a pool differs from the exact weight of its positions by less than one unit for each
      increase and each withdrawal, and not at all if all coefficients are whole numbers. */
  lemma WeightDriftIsBounded(start: World, events: seq<Event>, p: Pool)
    requires Initial(start)
    ensures var x := Run(start, events).xyk;
            var exact := Total(x.lockups, XykPositions.ExactWeight(x.config, p));
            && exact - ONE * x.ledger.increases.Get(p) <= ONE * x.pools.Get(p).weightedAmount <= exact + ONE * x.ledger.withdrawals.Get(p)
            && (XykPositions.WholeCoefficients(x.config) ==> ONE * x.pools.Get(p).weightedAmount == exact)
  {
    Reached(start, events);
    assert XykRun.WeightInv(Run(start, events).xyk, p);
  }

  /** Whenever the accumulated weights cover the floored weights of the positions, and always with whole coefficients,
      all one-time rewards due, all recorded ones, and all payments made are within the incentives. */
  lemma OneTimeRewardsWithinIncentives(start: World, events: seq<Event>)
    requires Initial(start)
    requires var x := Run(start, events).xyk;
             || XykPositions.WholeCoefficients(x.config)
             || forall p :: Total(x.lockups, XykPositions.FlooredWeight(x.config, p)) <= x.pools.Get(p).weightedAmount
    ensures var x := Run(start, events).xyk;
            && Total(x.lockups, XykRewards.DueAll(Xyk.Terms(x))) <= x.incentives
            && Total(x.lockups, Recorded()) <= x.incentives
            && Total(x.ledger.oneTime, XykRewards.FirstPayment()) <= x.incentives
  {
    Reached(start, events);
    WithinIncentives(Run(start, events).xyk);
  }

  lemma WithinIncentives(x: Xyk.State)
    requires (forall p :: XykRun.WeightInv(x, p)) && XykRewards.OneTimeInv(x)
    requires x.pools.usdc.incentivesShare + x.pools.atom.incentivesShare <= x.totalShare
    requires || XykPositions.WholeCoefficients(x.config)
             || forall p :: Total(x.lockups, XykPositions.FlooredWeight(x.config, p)) <= x.pools.Get(p).weightedAmount
    ensures Total(x.lockups, XykRewards.DueAll(Xyk.Terms(x))) <= x.incentives
    ensures Total(x.lockups, Recorded()) <= x.incentives
    ensures Total(x.ledger.oneTime, XykRewards.FirstPayment()) <= x.incentives
  {
    forall p
      ensures Total(x.lockups, XykPositions.FlooredWeight(x.config, p)) <= Xyk.Terms(x).weights.Get(p)
    {
      assert XykRun.WeightInv(x, p);
      XykRewards.FlooredWithinDrift(x, p);
      assert Xyk.Terms(x).weights.Get(p) == x.pools.Get(p).weightedAmount;
    }
    XykRewards.Budget(Xyk.Terms(x), x.lockups);
    XykRewards.PaymentsWithinIncentives(x);
    RecordedWithinDue(x);
  }

  lemma RecordedWithinDue(x: Xyk.State)
    requires XykRewards.OneTimeInv(x)
    ensures Total(x.lockups, Recorded()) <= Total(x.lockups, XykRewards.DueAll(Xyk.Terms(x)))
  {
    var t := Xyk.Terms(x);
    forall k | k in x.lockups
      ensures Recorded()(k, x.lockups[k]) <= XykRewards.DueAll(t)(k, x.lockups[k])
    {
      var l := x.lockups[k];
      assert Recorded()(k, l) == l.ntrnRewards;
      assert XykRewards.DueAll(t)(k, l) == Xyk.Due(t, k, l.units);
      assert l.ntrnRewards == 0 || l.ntrnRewards == Xyk.Due(t, k, l.units);
    }
    TotalMono(x.lockups, Recorded(), x.lockups, XykRewards.DueAll(t));
  }

  /** The converse, in every run: when the floored weights exceed the accumulated ones beyond the rounding, over both pools,
      the one-time rewards due exceed the incentives. */
  lemma OneTimeRewardsBeyondIncentives(start: World, events: seq<Event>, e: PerPool<int>)
    requires Initial(start)
    ensures var x := Run(start, events).xyk;
            var t := Xyk.Terms(x);
            && x.totalShare == x.pools.usdc.incentivesShare + x.pools.atom.incentivesShare
            && (&& x.totalShare > 0 && e.usdc + e.atom > 0
                && XykRewards.WeightsExceed(t, x.lockups, USDC, e.usdc) && XykRewards.WeightsExceed(t, x.lockups, ATOM, e.atom) ==>
                  Total(x.lockups, XykRewards.DueAll(t)) > x.incentives)
  {
    Reached(start, events);
    BeyondIncentives(Run(start, events).xyk, e);
  }

  lemma BeyondIncentives(x: Xyk.State, e: PerPool<int>)
    requires x.pools.usdc.incentivesShare + x.pools.atom.incentivesShare == x.totalShare
    ensures var t := Xyk.Terms(x);
            && x.totalShare > 0 && e.usdc + e.atom > 0
            && XykRewards.WeightsExceed(t, x.lockups, USDC, e.usdc) && XykRewards.WeightsExceed(t, x.lockups, ATOM, e.atom) ==>
              Total(x.lockups, XykRewards.DueAll(t)) > x.incentives
  {
    var t := Xyk.Terms(x);
    if && x.totalShare > 0 && e.usdc + e.atom > 0
       && XykRewards.WeightsExceed(t, x.lockups, USDC, e.usdc) && XykRewards.WeightsExceed(t, x.lockups, ATOM, e.atom) {
      XykRewards.BudgetExceeded(t, x.lockups, e);
    }
  }

  function Recorded(): (Key, Xyk.Lockup) -> int {
    (k: Key, l: Xyk.Lockup) => l.ntrnRewards
  }

  /** For any coefficients: a pool's rewards exceed its part of the incentives at most by the factor (W + n) / W, where W
      is its accumulated weight and n the number of increases. */
  lemma OneTimeRewardsWithDrift(start: World, events: seq<Event>, p: Pool)
    requires Initial(start)
    ensures var x := Run(start, events).xyk;
            x.totalShare * x.pools.Get(p).weightedAmount * Total(x.lockups, XykRewards.DueIn(Xyk.Terms(x), p)) <=
            x.pools.Get(p).incentivesShare * x.incentives * (x.pools.Get(p).weightedAmount + x.ledger.increases.Get(p))
  {
    WeightsReached(start, events, p);
    XykRewards.PoolBudgetWithDrift(Run(start, events).xyk, p);
  }

  lemma WeightsReached(start: World, events: seq<Event>, p: Pool)
    requires Initial(start)
    ensures XykPositions.DriftInv(Run(start, events).xyk, p)
  {
    Reached(start, events);
    assert XykRun.WeightInv(Run(start, events).xyk, p);
  }

  /** Across all claims and migrations in both lockdrops a user gets the one-time payment at most once; it is the sum of
      the rewards due for all positions of the user, and the PCL lockdrop never pays it. */
  lemma OneTimePaidOnce(start: World, events: seq<Event>, u: Addr)
    requires Initial(start)
    ensures var w := Run(start, events);
            var due := XykRewards.TotalDue(w.xyk, u);
            && due >= 0
            && w.pcl.Payments(u) == []
            && (w.xyk.User(u).ntrnTransferred ==> w.xyk.Payments(u) == if due == 0 then [] else [due as nat])
            && (!w.xyk.User(u).ntrnTransferred ==> w.xyk.Payments(u) == [])
            && (u in w.pcl.users ==> w.pcl.users[u].ntrnTransferred)
  {
    Reached(start, events);
    var w := Run(start, events);
    forall k | k in w.xyk.lockups
      ensures XykRewards.DueTo(Xyk.Terms(w.xyk), u)(k, w.xyk.lockups[k]) >= 0
    {
    }
    TotalNonNeg(w.xyk.lockups, XykRewards.DueTo(Xyk.Terms(w.xyk), u));
    assert if w.xyk.User(u).ntrnTransferred then XykRewards.PaidExactly(w.xyk, u, XykRewards.TotalDue(w.xyk, u)) else w.xyk.Payments(u) == [];
  }

  // The withdrawal rule and other things that stay

  /** A user's deposit as it may be found later, once the deposit window has closed. */
  predicate HeldDeposit(i0: Auction.UserInfo, i: Auction.UserInfo) {
    && (i0.withdrawn ==> i.withdrawn)
    && (if i.withdrawn && !i0.withdrawn then
          && 2 * i.deposited.usdc >= i0.deposited.usdc && i.deposited.usdc <= i0.deposited.usdc
          && 2 * i.deposited.atom >= i0.deposited.atom && i.deposited.atom <= i0.deposited.atom
        else i.deposited == i0.deposited)
  }

  /** What is never undone between an earlier world w and a later one. */
  ghost predicate Lasting(w: World, w': World) {
    && w.now <= w'.now && w'.auction.config == w.auction.config && w'.xyk.config == w.xyk.config
    && (w.xyk.config.LockEnd() <= w.now ==>
          forall k :: k in w.xyk.lockups ==> k in w'.xyk.lockups && XykPositions.Held(w.xyk.lockups[k], w'.xyk.lockups[k]))
    && (w.auction.config.DepositEnd() <= w.now ==>
          w'.auction.users.Keys == w.auction.users.Keys && forall u :: u in w.auction.users ==> HeldDeposit(w.auction.users[u], w'.auction.users[u]))
    && (w.auction.config.WindowsEnd() <= w.now ==>
          w'.auction.deposited == w.auction.deposited && forall u :: u in w.auction.users ==> w'.auction.users[u].deposited == w.auction.users[u].deposited)
    && PclSolvency.SameRecords(w.pcl.lockups, w'.pcl.lockups)
  }

  lemma LastingIsTransitive(w: World, w1: World, w2: World)
    requires Lasting(w, w1) && Lasting(w1, w2)
    ensures Lasting(w, w2)
  {
    PclSolvency.SameRecordsTwice(w.pcl.lockups, w1.pcl.lockups, w2.pcl.lockups);
    if w.xyk.config.LockEnd() <= w.now {
      forall k | k in w.xyk.lockups
        ensures k in w2.xyk.lockups && XykPositions.Held(w.xyk.lockups[k], w2.xyk.lockups[k])
      {
        assert XykPositions.Held(w.xyk.lockups[k], w1.xyk.lockups[k]) && XykPositions.Held(w1.xyk.lockups[k], w2.xyk.lockups[k]);
      }
    }
    if w.auction.config.DepositEnd() <= w.now {
      forall u | u in w.auction.users
        ensures HeldDeposit(w.auction.users[u], w2.auction.users[u])
      {
        assert HeldDeposit(w.auction.users[u], w1.auction.users[u]) && HeldDeposit(w1.auction.users[u], w2.auction.users[u]);
      }
    }
  }

  /** A transaction touches the auction's users only in ways that last. */
  ghost predicate AuctionLasts(a: Auction.State, a': Auction.State, now: nat) {
    && a'.config == a.config
    && (a.config.DepositEnd() <= now ==>
          a'.users.Keys == a.users.Keys && forall u :: u in a.users ==> HeldDeposit(a.users[u], a'.users[u]))
    && (a.config.WindowsEnd() <= now ==>
          a'.deposited == a.deposited && forall u :: u in a.users ==> a'.users[u].deposited == a.users[u].deposited)
  }

  ghost predicate XykLasts(x: Xyk.State, x': Xyk.State, now: nat) {
    && x'.config == x.config
    && (x.config.LockEnd() <= now ==> forall k :: k in x.lockups ==> k in x'.lockups && XykPositions.Held(x.lockups[k], x'.lockups[k]))
  }

  lemma WithdrawDepositLasts(a: Auction.State, now: nat, u: Addr, amount: PerPool<nat>)
    requires AuctionProofs.PhaseInv(a, now) && Auction.Withdraw(a, now, u, amount).Ok?
    ensures AuctionLasts(a, Auction.Withdraw(a, now, u, amount).value, now)
  {
    AuctionProofs.WithdrawInWindow(a, now, u, amount);
    if a.config.DepositEnd() <= now {
      Windows.KeepsHalf(a.users[u].deposited.usdc, now, a.config.DepositEnd(), a.config.withdrawalWindow);
      Windows.KeepsHalf(a.users[u].deposited.atom, now, a.config.DepositEnd(), a.config.withdrawalWindow);
    }
  }

  lemma HandOverLasts(w: World)
    requires Inv(w) && Auction.MigrateToVesting(w.auction).Ok?
    ensures AuctionLasts(w.auction, Auction.MigrateToVesting(w.auction).value, w.now)
  {
    VestingNeedsInit(w.auction, w.now);
    AuctionVesting.MigrateKeeps(w.auction);
  }

  lemma DepositLasts(a: Auction.State, now: nat, u: Addr, amount: PerPool<nat>)
    requires AuctionProofs.PhaseInv(a, now) && Auction.Deposit(a, now, u, amount).Ok?
    ensures AuctionLasts(a, Auction.Deposit(a, now, u, amount).value, now)
  {
  }

  /** The other auction messages leave deposits alone. */
  lemma LockStepsLast(a: Auction.State, now: nat, u: Addr, p: Pool, amount: nat)
    ensures Auction.LockLp(a, now, u, p, amount).Ok? ==> AuctionLasts(a, Auction.LockLp(a, now, u, p, amount).value, now)
    ensures Auction.WithdrawLp(a, now, u, p, amount).Ok? ==> AuctionLasts(a, Auction.WithdrawLp(a, now, u, p, amount).value, now)
  {
  }

  lemma PoolStepsLast(a: Auction.State, now: nat, ntrn: nat, rates: seq<Auction.Rate>, minted: PerPool<nat>)
    ensures Auction.SetPoolSize(a, now, ntrn, rates).Ok? ==> AuctionLasts(a, Auction.SetPoolSize(a, now, ntrn, rates).value, now)
    ensures Auction.InitPool(a, now, minted).Ok? ==> AuctionLasts(a, Auction.InitPool(a, now, minted).value, now)
  {
  }

  lemma AuctionStepLasts(w: World, tx: Tx)
    requires Inv(w) && Execute(w, tx).Ok?
    ensures AuctionLasts(w.auction, Execute(w, tx).value.auction, w.now)
  {
    if tx.Deposit? {
      DepositLasts(w.auction, w.now, tx.user, tx.amount);
    } else if tx.WithdrawDeposit? {
      WithdrawDepositLasts(w.auction, w.now, tx.user, tx.amount);
    } else if tx.MigrateToVesting? {
      HandOverLasts(w);
    } else if tx.LockLp? || tx.WithdrawLp? {
      LockStepsLast(w.auction, w.now, tx.key.user, tx.key.pool, tx.units);
    } else if tx.SetPoolSize? {
      PoolStepsLast(w.auction, w.now, tx.ntrn, tx.rates, PerPool(0, 0));
    } else if tx.InitPool? {
      PoolStepsLast(w.auction, w.now, 0, [], tx.minted);
    } else {
      OthersLeaveAuction(w, tx);
    }
  }

  lemma OthersLeaveAuction(w: World, tx: Tx)
    requires Execute(w, tx).Ok?
    requires tx.IncreaseIncentives? || tx.Claim? || tx.MigrateLiquidity? || tx.ClaimVested? || tx.ClaimPcl?
    ensures Execute(w, tx).value.auction == w.auction
  {
  }

  lemma SettledLasts(x: Xyk.State, x': Xyk.State, now: nat)
    requires XykRun.Settled(x, x')
    ensures XykLasts(x, x', now)
  {
    forall k | k in x.lockups
      ensures k in x'.lockups && XykPositions.Held(x.lockups[k], x'.lockups[k])
    {
      assert XykRun.SettledPosition(x.lockups[k], x'.lockups[k]);
    }
  }

  lemma ResizeLasts(x: Xyk.State, now: nat, k: Key, units: nat)
    ensures Xyk.IncreaseLockup(x, now, k, units).Ok? ==> XykLasts(x, Xyk.IncreaseLockup(x, now, k, units).value, now)
    ensures Xyk.WithdrawLockup(x, now, k, units).Ok? ==> XykLasts(x, Xyk.WithdrawLockup(x, now, k, units).value, now)
  {
    if Xyk.WithdrawLockup(x, now, k, units).Ok? && x.config.LockEnd() <= now {
      XykPositions.WithdrawOnceKeepsHalf(x, now, k, units);
    }
  }

  lemma InitPoolLasts(w: World, minted: PerPool<nat>)
    requires Execute(w, InitPool(minted)).Ok?
    ensures XykLasts(w.xyk, Execute(w, InitPool(minted)).value.xyk, w.now)
  {
  }

  lemma ClaimLasts(w: World, tx: Tx)
    requires Inv(w) && Execute(w, tx).Ok? && (tx.Claim? || tx.MigrateLiquidity?)
    ensures XykLasts(w.xyk, Execute(w, tx).value.xyk, w.now)
  {
    if tx.Claim? {
      XykRun.ClaimKeeps(w.xyk, w.now, tx.key, tx.withdraw, tx.pending);
    } else {
      MigrateLiquidityKeeps(w, tx.user, tx.legs);
    }
    SettledLasts(w.xyk, Execute(w, tx).value.xyk, w.now);
  }

  lemma XykStepLasts(w: World, tx: Tx)
    requires Inv(w) && Execute(w, tx).Ok?
    ensures XykLasts(w.xyk, Execute(w, tx).value.xyk, w.now)
  {
    if tx.LockLp? || tx.WithdrawLp? {
      ResizeLasts(w.xyk, w.now, tx.key, tx.units);
    } else if tx.Claim? || tx.MigrateLiquidity? {
      ClaimLasts(w, tx);
    } else if tx.InitPool? {
      InitPoolLasts(w, tx.minted);
    }
  }

  // Records of migrated positions

  lemma FinishLasts(c: Pcl.State, k: Key, user: Xyk.UserInfo, lockup: Xyk.Lockup, minted: nat, stake: bool)
    requires k !in c.lockups && Pcl.FinishMigration(c, k, user, lockup, minted, stake).Ok?
    ensures PclSolvency.SameRecords(c.lockups, Pcl.FinishMigration(c, k, user, lockup, minted, stake).value.lockups)
  {
  }

  lemma MigrateOneLasts(x: Xyk.State, c: Pcl.State, now: nat, k: Key, leg: Leg)
    requires Migrating(x, c, now, k.user) && k in x.lockups && Xyk.Open(x.lockups[k]) && MigrateOne(x, c, k, leg).Ok?
    ensures PclSolvency.SameRecords(c.lockups, MigrateOne(x, c, k, leg).value.1.lockups)
  {
    MigrateOneKeeps(x, c, now, k, leg);
    var x1 := Xyk.MigratePosition(x, k, leg.pending).value;
    FinishLasts(c, k, x1.User(k.user), x1.lockups[k], leg.minted, x1.ledger.staked.Get(k.pool) == 0);
  }

  lemma {:induction false} MigratePositionsLast(x: Xyk.State, c: Pcl.State, now: nat, u: Addr, keys: seq<Key>, legs: map<Key, Leg>)
    requires Migrating(x, c, now, u) && (forall i :: 0 <= i < |keys| ==> keys[i].user == u)
    requires MigratePositions(x, c, keys, legs).Ok?
    ensures PclSolvency.SameRecords(c.lockups, MigratePositions(x, c, keys, legs).value.1.lockups)
    decreases |keys|
  {
    if keys != [] {
      if Xyk.Open(x.lockups[keys[0]]) {
        var (x1, c1) := MigrateOne(x, c, keys[0], LegOf(legs, keys[0])).value;
        MigrateOneKeeps(x, c, now, keys[0], LegOf(legs, keys[0]));
        MigrateOneLasts(x, c, now, keys[0], LegOf(legs, keys[0]));
        MigratePositionsLast(x1, c1, now, u, keys[1..], legs);
        PclSolvency.SameRecordsTwice(c.lockups, c1.lockups, MigratePositions(x1, c1, keys[1..], legs).value.1.lockups);
      } else {
        MigratePositionsLast(x, c, now, u, keys[1..], legs);
      }
    }
  }

  lemma PclStepLasts(w: World, tx: Tx)
    requires Inv(w) && Execute(w, tx).Ok?
    ensures PclSolvency.SameRecords(w.pcl.lockups, Execute(w, tx).value.pcl.lockups)
  {
    if tx.MigrateLiquidity? {
      MigrateLiquidityLasts(w, tx.user, tx.legs);
    } else if tx.ClaimPcl? {
      PclSolvency.ClaimKeepsRecords(w.pcl, w.now, tx.key, tx.withdraw, tx.rewards, tx.tokens);
    }
  }

  lemma MigrateLiquidityLasts(w: World, u: Addr, legs: map<Key, Leg>)
    requires Inv(w) && Execute(w, MigrateLiquidity(u, legs)).Ok?
    ensures PclSolvency.SameRecords(w.pcl.lockups, Execute(w, MigrateLiquidity(u, legs)).value.pcl.lockups)
  {
    var x := Xyk.FinalizeRewards(w.xyk, u).value;
    XykRun.FinalizeKeeps(w.xyk, w.now, u);
    XykRun.FinalizeSettles(w.xyk, u);
    SettledKeepsLinks(w.auction, w.xyk, x, w.pcl);
    UserKeysComplete(x.lockups, u);
    MigratePositionsLast(x, w.pcl, w.now, u, UserKeys(x.lockups, u), legs);
  }

  lemma ApplyLasts(w: World, tx: Tx)
    requires Inv(w)
    ensures Lasting(w, Apply(w, tx))
  {
    if Execute(w, tx).Ok? {
      AuctionStepLasts(w, tx);
      XykStepLasts(w, tx);
      PclStepLasts(w, tx);
      NowStays(w, tx);
    }
  }

  lemma NowStays(w: World, tx: Tx)
    requires Execute(w, tx).Ok?
    ensures Execute(w, tx).value.now == w.now
  {
  }

  lemma NextLasts(w: World, e: Event)
    requires Inv(w)
    ensures Lasting(w, Next(w, e))
  {
    var later := Later(w, e.elapsed);
    TimePasses(w, e.elapsed);
    ApplyLasts(later, e.tx);
    LastingIsTransitive(w, later, Apply(later, e.tx));
  }

  /** In every run: after the deposit window each auction user, and after the lock window each lockdrop position,
      withdraws at most once and keeps at least half, and no position disappears; once the auction's windows have closed
      deposits are frozen; and no record of a migrated position is ever replaced: its debts,
      which say what was paid for it, never fall. */
  lemma {:induction false} RunLasts(w: World, events: seq<Event>)
    requires Inv(w)
    ensures Lasting(w, Run(w, events))
    decreases |events|
  {
    if events != [] {
      var next := Next(w, events[0]);
      NextLasts(w, events[0]);
      NextKeeps(w, events[0]);
      RunLasts(next, events[1..]);
      LastingIsTransitive(w, next, Run(next, events[1..]));
    }
  }

  /** The withdrawal rule between any two moments of a run. */
  lemma WithdrawalRule(start: World, before: seq<Event>, after: seq<Event>)
    requires Initial(start)
    ensures Lasting(Run(start, before), Run(Run(start, before), after))
  {
    Reached(start, before);
    RunLasts(Run(start, before), after);
  }
}

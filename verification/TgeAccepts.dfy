/** Exactly when the messages of the auction, with what they cause in the lockdrop, are accepted: only checks that a user can make
    before the call are left, because in a run no subtraction in them can fail. */
module TgeAccepts {
  import opened Basics
  import opened FixedPoint
  import opened Sums
  import opened Tge
  import opened TgeInvariant
  import Auction
  import AuctionProofs
  import LockupWithdrawals
  import TgeProgress
  import TgeTheorems
  import Windows
  import Xyk = LockdropXyk
  import XykPositions = LockdropXykPositions
  import XykSolvency = LockdropXykSolvency

  // Deposits

  predicate CanDeposit(a: Auction.State, now: nat, amount: PerPool<nat>) {
    && a.config.initTime <= now < a.config.initTime + a.config.depositWindow
    && amount != PerPool(0, 0)
    && a.deposited.usdc + amount.usdc <= U128_MAX && a.deposited.atom + amount.atom <= U128_MAX
  }

  predicate CanWithdraw(a: Auction.State, now: nat, u: Addr, amount: PerPool<nat>) {
    && u in a.users && !a.users[u].withdrawn
    && amount != PerPool(0, 0)
    && forall p :: amount.Get(p) <=
         Windows.AllowedAmount(a.users[u].deposited.Get(p), now, a.config.initTime + a.config.depositWindow, a.config.withdrawalWindow)
  }

  lemma DepositedWithinTotal(a: Auction.State, u: Addr, p: Pool)
    requires AuctionProofs.PoolInv(a, p) && u in a.users
    ensures a.users[u].deposited.Get(p) <= a.deposited.Get(p) && a.users[u].locked.Get(p) <= a.locked.Get(p)
  {
    forall v | v in a.users
      ensures AuctionProofs.DepositedIn(p)(v, a.users[v]) >= 0 && AuctionProofs.LockedIn(p)(v, a.users[v]) >= 0
    {
    }
    TotalNonNeg(a.users, AuctionProofs.DepositedIn(p));
    TotalNonNeg(a.users, AuctionProofs.LockedIn(p));
    assert AuctionProofs.DepositedIn(p)(u, a.users[u]) == a.users[u].deposited.Get(p);
    assert AuctionProofs.LockedIn(p)(u, a.users[u]) == a.users[u].locked.Get(p);
  }

  lemma WithdrawAccepted(a: Auction.State, now: nat, u: Addr, amount: PerPool<nat>)
    requires AuctionProofs.PoolInv(a, USDC) && AuctionProofs.PoolInv(a, ATOM)
    ensures Auction.Withdraw(a, now, u, amount).Ok? <==> CanWithdraw(a, now, u, amount)
  {
    if u in a.users {
      DepositedWithinTotal(a, u, USDC);
      DepositedWithinTotal(a, u, ATOM);
      Windows.AtMostAll(a.users[u].deposited.usdc, now, a.config.DepositEnd(), a.config.withdrawalWindow);
      Windows.AtMostAll(a.users[u].deposited.atom, now, a.config.DepositEnd(), a.config.withdrawalWindow);
      assert amount.Get(USDC) == amount.usdc && amount.Get(ATOM) == amount.atom;
      if Auction.Withdraw(a, now, u, amount).Ok? {
        forall p
          ensures amount.Get(p) <= Windows.AllowedAmount(a.users[u].deposited.Get(p), now, a.config.DepositEnd(), a.config.withdrawalWindow)
        {
        }
      }
    }
  }

  // Pool sizes

  /** The deposits have a value at these rates, within 128 bits. */
  predicate CanValue(deposited: PerPool<nat>, rates: seq<Auction.Rate>)
    requires |rates| == 2
  {
    && rates[0].rate > 0
    && var price := Ratio(rates[1].rate, rates[0].rate);
    && 0 < price <= U128_MAX && deposited.atom * ONE <= U128_MAX && Ratio(deposited.atom * ONE, price) <= U128_MAX
    && 0 < deposited.usdc + AuctionProofs.AtomValue(deposited.atom, price) <= U128_MAX
  }

  lemma ValueAccepted(deposited: PerPool<nat>, ntrn: nat, rates: seq<Auction.Rate>)
    requires |rates| == 2
    ensures Auction.UsdcNtrnSize(deposited, ntrn, rates).Ok? <==> CanValue(deposited, rates)
  {
    if CanValue(deposited, rates) {
      var all := deposited.usdc + AuctionProofs.AtomValue(deposited.atom, Ratio(rates[1].rate, rates[0].rate));
      AuctionProofs.RatioAtMostOne(deposited.usdc, all);
    }
  }

  /** Once, after the windows, with fresh rates and enough NTRN, if both pools get at least the minimum liquidity. */
  predicate CanSize(a: Auction.State, now: nat, ntrn: nat, rates: seq<Auction.Rate>) {
    && a.ntrnSize == PerPool(0, 0) && a.config.initTime + a.config.depositWindow + a.config.withdrawalWindow <= now
    && |rates| == 2 && a.config.maxRateAge <= now <= rates[0].resolveTime + a.config.maxRateAge
    && a.config.minNtrn <= ntrn
    && CanValue(a.deposited, rates) && Auction.UsdcNtrnSize(a.deposited, ntrn, rates).Ok?
    && var usdc := Auction.UsdcNtrnSize(a.deposited, ntrn, rates).value;
    && 1_000_000 <= usdc * a.deposited.usdc && 1_000_000 <= (ntrn - usdc) * a.deposited.atom
  }

  lemma MeanAccepted(a: nat, b: nat)
    ensures Auction.LpSize(a, b).Ok? <==> 1_000_000 <= a * b
  {
    var r := Auction.Isqrt(a * b);
    if r >= 1_000 {
      MulMono(r, 1_000, r);
    } else {
      MulMono(r + 1, r + 1, 1_000);
    }
  }

  lemma SizeAccepted(a: Auction.State, now: nat, ntrn: nat, rates: seq<Auction.Rate>)
    requires AuctionProofs.PhaseInv(a, now)
    ensures Auction.SetPoolSize(a, now, ntrn, rates).Ok? <==> CanSize(a, now, ntrn, rates)
  {
    if |rates| == 2 {
      ValueAccepted(a.deposited, ntrn, rates);
      if CanValue(a.deposited, rates) {
        AuctionProofs.UsdcPartFits(a.deposited, ntrn, rates);
        var usdc := Auction.UsdcNtrnSize(a.deposited, ntrn, rates).value;
        MeanAccepted(usdc, a.deposited.usdc);
        MeanAccepted(ntrn - usdc, a.deposited.atom);
      }
    }
  }

  // Locking

  predicate Offered(c: Xyk.Config, duration: nat) {
    && c.minDuration <= duration <= c.maxDuration
    && exists i :: 0 <= i < |c.rewards| && c.rewards[i].duration == duration
  }

  predicate BothSized(a: Auction.State) {
    a.ntrnSize.usdc > 0 && a.ntrnSize.atom > 0
  }

  /** The end of the auction's lock window. */
  function LocksEnd(c: Auction.Config): nat {
    c.initTime + c.depositWindow + c.withdrawalWindow + c.lockWindow
  }

  /** Before either contract's lock window ends: the user has a deposit in the pool and enough left of the entitlement, and the
      lockdrop offers the duration and has the position or room for one more. */
  predicate CanLock(a: Auction.State, x: Xyk.State, now: nat, k: Key, units: nat) {
    && now < LocksEnd(a.config) && now < x.config.initTime + x.config.lockWindow && BothSized(a)
    && k.user in a.users && a.users[k.user].deposited.Get(k.pool) > 0
    && a.users[k.user].locked.Get(k.pool) + units <= Auction.Entitlement(a, k.user, k.pool)
    && Offered(x.config, k.duration)
    && (k in x.lockups || x.User(k.user).positions < x.config.maxPositions)
    && a.locked.Get(k.pool) + units <= U128_MAX && Xyk.Weight(x.config, units, k.duration) <= U128_MAX
  }

  lemma LockAccepted(w: World, k: Key, units: nat)
    requires AuctionProofs.PoolInv(w.auction, k.pool) && w.auction.locked.Get(k.pool) == w.xyk.pools.Get(k.pool).amountInLockups
    requires w.xyk.User(k.user).positions <= w.xyk.config.maxPositions
    ensures Execute(w, LockLp(k, units)).Ok? <==> CanLock(w.auction, w.xyk, w.now, k, units)
  {
    TgeProgress.OfferedHasWeight(w.xyk.config.rewards, k.duration);
    LockInSteps(w, k, units);
  }

  lemma LockInSteps(w: World, k: Key, units: nat)
    ensures Execute(w, LockLp(k, units)).Ok? <==>
            Auction.LockLp(w.auction, w.now, k.user, k.pool, units).Ok? && Xyk.IncreaseLockup(w.xyk, w.now, k, units).Ok?
  {
  }

  /** A withdrawal that the lockdrop's rules allow, see LockupWithdrawals, while the auction still accepts any. */
  predicate CanTakeBack(a: Auction.State, x: Xyk.State, now: nat, k: Key, units: nat) {
    && now < LocksEnd(a.config) && BothSized(a)
    && LockupWithdrawals.Allowed(x, now, k, units)
    && Xyk.Weight(x.config, units, k.duration) <= Min(x.pools.Get(k.pool).weightedAmount, U128_MAX)
  }

  lemma TakeBackInSteps(w: World, k: Key, units: nat)
    ensures Execute(w, WithdrawLp(k, units)).Ok? <==>
            Auction.WithdrawLp(w.auction, w.now, k.user, k.pool, units).Ok? && Xyk.WithdrawLockup(w.xyk, w.now, k, units).Ok?
  {
  }

  lemma TakeBackCovered(a: Auction.State, x: Xyk.State, now: nat, k: Key, units: nat)
    requires AuctionProofs.PoolInv(a, k.pool) && LinkInv(a, x) && a.minted.None?
    requires XykSolvency.UserTotalsInv(x) && k in x.lockups && Xyk.Open(x.lockups[k]) && 0 < units <= x.lockups[k].units
    ensures k.user in a.users && units <= a.users[k.user].locked.Get(k.pool) <= a.locked.Get(k.pool)
  {
    XykPositions.UserUnitsNonNeg(x, k.pool, k.user);
    assert Xyk.UserUnits(k.pool, k.user)(k, x.lockups[k]) == x.lockups[k].units;
    assert x.UserTotal(k.pool, k.user) == Total(x.lockups, Xyk.UserUnits(k.pool, k.user));
    assert a.User(k.user).locked.Get(k.pool) == x.UserTotal(k.pool, k.user);
    DepositedWithinTotal(a, k.user, k.pool);
  }

  // Initialisation

  /** After the lock window, with sizes set, and half of the minted LP tokens enough for what is locked. */
  predicate CanInit(a: Auction.State, now: nat, minted: PerPool<nat>) {
    && a.minted.None? && a.lpSize != PerPool(0, 0) && LocksEnd(a.config) <= now
    && minted.usdc / 2 + a.locked.usdc <= minted.usdc && minted.atom / 2 + a.locked.atom <= minted.atom
    && SharesOf(a, USDC) + SharesOf(a, ATOM) <= U128_MAX
  }

  function SharesOf(a: Auction.State, p: Pool): nat {
    if a.locked.Get(p) > 0 then a.ntrnSize.Get(p) else 0
  }

  lemma InitAccepted(w: World, minted: PerPool<nat>)
    requires Inv(w)
    ensures Execute(w, InitPool(minted)).Ok? <==> CanInit(w.auction, w.now, minted)
  {
    if w.auction.minted.None? {
      NothingHeld(w);
      InitInSteps(w, minted);
      SendAccepted(w.xyk, w.auction.ntrnSize, w.auction.locked);
    }
  }

  lemma NothingHeld(w: World)
    requires Inv(w) && w.auction.minted.None?
    ensures w.auction.ledger.held == PerPool(0, 0) && w.xyk.totalShare == 0
  {
  }

  lemma InitInSteps(w: World, minted: PerPool<nat>)
    requires w.auction.ledger.held == PerPool(0, 0)
    ensures Execute(w, InitPool(minted)).Ok? <==>
              && w.auction.minted.None? && w.auction.lpSize != PerPool(0, 0) && w.auction.config.LockEnd() <= w.now
              && minted.usdc / 2 + w.auction.locked.usdc <= minted.usdc && minted.atom / 2 + w.auction.locked.atom <= minted.atom
              && SendBoth(w.xyk, w.auction.ntrnSize, w.auction.locked)
  {
  }

  predicate SendBoth(x: Xyk.State, sizes: PerPool<nat>, locked: PerPool<nat>) {
    var x1 := SendLocked(x, ATOM, sizes.atom, locked.atom);
    x1.Ok? && SendLocked(x1.value, USDC, sizes.usdc, locked.usdc).Ok?
  }

  lemma SendAccepted(x: Xyk.State, sizes: PerPool<nat>, locked: PerPool<nat>)
    requires x.totalShare == 0
    ensures SendBoth(x, sizes, locked) <==> (if locked.usdc > 0 then sizes.usdc else 0) + (if locked.atom > 0 then sizes.atom else 0) <= U128_MAX
  {
  }

  // Runs

  /** Everything that such a message needs. */
  predicate Accepted(w: World, tx: Tx)
    requires tx.Deposit? || tx.WithdrawDeposit? || tx.SetPoolSize? || tx.LockLp? || tx.WithdrawLp? || tx.InitPool? || tx.IncreaseIncentives?
  {
    match tx
    case Deposit(_, amount) => CanDeposit(w.auction, w.now, amount)
    case WithdrawDeposit(u, amount) => CanWithdraw(w.auction, w.now, u, amount)
    case SetPoolSize(ntrn, rates) => CanSize(w.auction, w.now, ntrn, rates)
    case LockLp(k, units) => CanLock(w.auction, w.xyk, w.now, k, units)
    case WithdrawLp(k, units) => CanTakeBack(w.auction, w.xyk, w.now, k, units)
    case InitPool(minted) => CanInit(w.auction, w.now, minted)
    case IncreaseIncentives(ntrn) =>
      w.now < w.xyk.config.initTime + w.xyk.config.lockWindow + w.xyk.config.withdrawalWindow && w.xyk.incentives + ntrn <= U128_MAX
  }

  lemma DepositStepAccepted(w: World, tx: Tx)
    requires Inv(w) && (tx.Deposit? || tx.WithdrawDeposit? || tx.SetPoolSize? || tx.IncreaseIncentives?)
    ensures Execute(w, tx).Ok? <==> Accepted(w, tx)
  {
    assert AuctionProofs.PoolInv(w.auction, USDC) && AuctionProofs.PoolInv(w.auction, ATOM);
    if tx.WithdrawDeposit? {
      WithdrawAccepted(w.auction, w.now, tx.user, tx.amount);
    } else if tx.SetPoolSize? {
      SizeAccepted(w.auction, w.now, tx.ntrn, tx.rates);
    }
  }

  lemma LockStepAccepted(w: World, k: Key, units: nat)
    requires Inv(w) && (w.auction.minted.None? ==> w.xyk.User(k.user).positions <= w.xyk.config.maxPositions)
    ensures Execute(w, LockLp(k, units)).Ok? <==> CanLock(w.auction, w.xyk, w.now, k, units)
  {
    assert AuctionProofs.PoolInv(w.auction, k.pool) && XykSolvency.PoolInv(w.xyk, k.pool);
    if w.auction.minted.None? {
      FreshUnitsAreOpen(w.auction, w.xyk, k.pool);
      LockAccepted(w, k, units);
    } else {
      LocksAreOver(w.auction, w.now);
      LockInSteps(w, k, units);
    }
  }

  lemma TakeBackStepAccepted(w: World, k: Key, units: nat)
    requires Inv(w) && (w.auction.minted.None? ==> LockupWithdrawals.CountInv(w.xyk))
    ensures Execute(w, WithdrawLp(k, units)).Ok? <==> CanTakeBack(w.auction, w.xyk, w.now, k, units)
  {
    assert AuctionProofs.PoolInv(w.auction, k.pool) && XykSolvency.PoolInv(w.xyk, k.pool);
    TakeBackInSteps(w, k, units);
    if w.auction.minted.None? {
      LockupWithdrawals.AllowedSucceeds(w.xyk, w.now, k, units);
      if Xyk.WithdrawLockup(w.xyk, w.now, k, units).Ok? {
        TakeBackCovered(w.auction, w.xyk, w.now, k, units);
      }
    } else {
      LocksAreOver(w.auction, w.now);
    }
  }

  /** In every run, each of these messages takes effect exactly if its conditions hold: nothing else can go wrong in either
      contract. */
  lemma AcceptedExactly(start: World, events: seq<Event>, tx: Tx)
    requires Initial(start)
    requires tx.Deposit? || tx.WithdrawDeposit? || tx.SetPoolSize? || tx.LockLp? || tx.WithdrawLp? || tx.InitPool? || tx.IncreaseIncentives?
    ensures Execute(Run(start, events), tx).Ok? <==> Accepted(Run(start, events), tx)
  {
    var w := Run(start, events);
    TgeTheorems.Reached(start, events);
    LockupWithdrawals.RunKeepsCount(start, events);
    if tx.LockLp? {
      if w.auction.minted.None? {
        assert LockupWithdrawals.CountedUser(w.xyk, tx.key.user, Total(w.xyk.lockups, LockupWithdrawals.CountOf(tx.key.user)));
      }
      LockStepAccepted(w, tx.key, tx.units);
    } else if tx.WithdrawLp? {
      TakeBackStepAccepted(w, tx.key, tx.units);
    } else if tx.InitPool? {
      InitAccepted(w, tx.minted);
    } else {
      DepositStepAccepted(w, tx);
    }
  }
}

/** The invariant of all three contracts and the agreements between them, kept by every event of every run. */
module TgeInvariant {
  import opened Basics
  import opened Sums
  import opened Tge
  import opened PositionKeys
  import Auction
  import AuctionProofs
  import AuctionVesting
  import Xyk = LockdropXyk
  import XykSolvency = LockdropXykSolvency
  import XykPositions = LockdropXykPositions
  import XykRewards = LockdropXykRewards
  import XykRun = LockdropXykRun
  import Pcl = LockdropPcl
  import PclSolvency = LockdropPclSolvency

  ghost predicate AuctionInv(a: Auction.State, now: nat) {
    && (forall p :: AuctionProofs.PoolInv(a, p) && AuctionVesting.LpInv(a, p))
    && AuctionProofs.PhaseInv(a, now)
  }

  function AllUnits(p: Pool): (Key, Xyk.Lockup) -> int {
    (k: Key, l: Xyk.Lockup) => if k.pool == p then l.units else 0
  }

  /** What the auction counts as locked is in the lockdrop's positions, in total and, until initialisation, per user. */
  ghost predicate LinkInv(a: Auction.State, x: Xyk.State) {
    && (forall p :: a.locked.Get(p) == Total(x.lockups, AllUnits(p)))
    && (a.minted.None? ==> forall p, u :: a.User(u).locked.Get(p) == x.UserTotal(p, u))
  }

  ghost predicate PclInv(c: Pcl.State) {
    && (forall p :: PclSolvency.PoolInv(c, p))
    && (forall p, t :: PclSolvency.TokenInv(c, p, t))
    && PclSolvency.UserTotalsInv(c)
  }

  /** Positions of the PCL lockdrop are closed in the XYK lockdrop, their users have had the one-time payment, and a
      staked PCL pool, which was staked once, has no open counterpart left. */
  ghost predicate MigrationInv(x: Xyk.State, c: Pcl.State, ready: bool) {
    && (forall k :: k in c.lockups ==> k in x.lockups && !Xyk.Open(x.lockups[k]))
    && (forall u :: u in c.users ==> c.users[u].ntrnTransferred)
    && c.ledger.oneTime == map[]
    && StakedOnce(x.pools.usdc, c.pools.usdc, c.ledger.stakes.usdc)
    && StakedOnce(x.pools.atom, c.pools.atom, c.ledger.stakes.atom)
    && (!ready ==> c.lockups == map[] && !c.pools.usdc.isStaked && !c.pools.atom.isStaked)
  }

  predicate StakedOnce(xykPool: Xyk.PoolInfo, pclPool: Pcl.PoolInfo, stakes: nat) {
    && stakes == (if pclPool.isStaked then 1 else 0)
    && (pclPool.isStaked ==> xykPool.amountInLockups == 0)
  }

  ghost predicate Inv(w: World) {
    && AuctionInv(w.auction, w.now)
    && XykRun.XykInv(w.xyk, w.auction.minted.Some?, w.now)
    && LinkInv(w.auction, w.xyk)
    && PclInv(w.pcl)
    && MigrationInv(w.xyk, w.pcl, w.auction.minted.Some?)
  }

  lemma InitialInv(w: World)
    requires Initial(w)
    ensures Inv(w)
  {
  }

  lemma TimePasses(w: World, elapsed: nat)
    requires Inv(w)
    ensures Inv(Later(w, elapsed))
  {
    AuctionProofs.TimePasses(w.auction, w.now, w.now + elapsed);
    XykRun.TimePasses(w.xyk, w.auction.minted.Some?, w.now, w.now + elapsed);
  }

  // Auction messages

  /** Nothing that the lockdrop knows of has changed in the auction. */
  ghost predicate SameLocks(a: Auction.State, a': Auction.State) {
    a'.locked == a.locked && a'.minted == a.minted && forall v :: a'.User(v).locked == a.User(v).locked
  }

  lemma AuctionStepKeeps(w: World, w': World)
    requires Inv(w) && w'.now == w.now && w'.xyk == w.xyk && w'.pcl == w.pcl
    requires AuctionInv(w'.auction, w.now) && SameLocks(w.auction, w'.auction)
    ensures Inv(w')
  {
  }

  lemma DepositKeeps(w: World, u: Addr, amount: PerPool<nat>)
    requires Inv(w) && Execute(w, Deposit(u, amount)).Ok?
    ensures Inv(Execute(w, Deposit(u, amount)).value)
  {
    DepositKeepsAuction(w.auction, w.now, u, amount);
    AuctionStepKeeps(w, Execute(w, Deposit(u, amount)).value);
  }

  lemma DepositKeepsAuction(a: Auction.State, now: nat, u: Addr, amount: PerPool<nat>)
    requires AuctionInv(a, now) && Auction.Deposit(a, now, u, amount).Ok?
    ensures AuctionInv(Auction.Deposit(a, now, u, amount).value, now) && SameLocks(a, Auction.Deposit(a, now, u, amount).value)
  {
    var a' := Auction.Deposit(a, now, u, amount).value;
    AuctionProofs.WindowStepsKeepPhase(a, a', now);
    forall p
      ensures AuctionProofs.PoolInv(a', p) && AuctionVesting.LpInv(a', p)
    {
      AuctionProofs.DepositKeepsPool(a, now, u, amount, p);
    }
  }

  lemma WithdrawDepositKeeps(w: World, u: Addr, amount: PerPool<nat>)
    requires Inv(w) && Execute(w, WithdrawDeposit(u, amount)).Ok?
    ensures Inv(Execute(w, WithdrawDeposit(u, amount)).value)
  {
    WithdrawDepositKeepsAuction(w.auction, w.now, u, amount);
    AuctionStepKeeps(w, Execute(w, WithdrawDeposit(u, amount)).value);
  }

  lemma WithdrawDepositKeepsAuction(a: Auction.State, now: nat, u: Addr, amount: PerPool<nat>)
    requires AuctionInv(a, now) && Auction.Withdraw(a, now, u, amount).Ok?
    ensures AuctionInv(Auction.Withdraw(a, now, u, amount).value, now) && SameLocks(a, Auction.Withdraw(a, now, u, amount).value)
  {
    var a' := Auction.Withdraw(a, now, u, amount).value;
    AuctionProofs.WindowStepsKeepPhase(a, a', now);
    AuctionProofs.WithdrawInWindow(a, now, u, amount);
    forall p
      ensures AuctionProofs.PoolInv(a', p) && AuctionVesting.LpInv(a', p)
    {
      AuctionProofs.WithdrawKeepsPool(a, now, u, amount, p);
    }
  }

  lemma SetPoolSizeKeeps(w: World, ntrn: nat, rates: seq<Auction.Rate>)
    requires Inv(w) && Execute(w, SetPoolSize(ntrn, rates)).Ok?
    ensures Inv(Execute(w, SetPoolSize(ntrn, rates)).value)
  {
    SetPoolSizeKeepsAuction(w.auction, w.now, ntrn, rates);
    AuctionStepKeeps(w, Execute(w, SetPoolSize(ntrn, rates)).value);
  }

  lemma SetPoolSizeKeepsAuction(a: Auction.State, now: nat, ntrn: nat, rates: seq<Auction.Rate>)
    requires AuctionInv(a, now) && Auction.SetPoolSize(a, now, ntrn, rates).Ok?
    ensures AuctionInv(Auction.SetPoolSize(a, now, ntrn, rates).value, now) && SameLocks(a, Auction.SetPoolSize(a, now, ntrn, rates).value)
  {
    var a' := Auction.SetPoolSize(a, now, ntrn, rates).value;
    AuctionProofs.WindowStepsKeepPhase(a, a', now);
    forall p
      ensures AuctionProofs.PoolInv(a', p) && AuctionVesting.LpInv(a', p)
    {
      AuctionProofs.SetPoolSizeKeepsPool(a, now, ntrn, rates, p);
    }
  }

  lemma ResizeChangesUnits(x: Xyk.State, x': Xyk.State, k: Key, delta: int, p: Pool)
    requires XykSolvency.Resized(x, x', k, delta)
    ensures Total(x'.lockups, AllUnits(p)) == Total(x.lockups, AllUnits(p)) + if p == k.pool then delta else 0
  {
    if k in x'.lockups {
      TotalSet(x.lockups, AllUnits(p), k, x'.lockups[k]);
    } else {
      TotalDrop(x.lockups, AllUnits(p), k);
    }
  }

  /** In a' user u has delta more units of pool q locked than in a, and nothing else is locked differently. */
  ghost predicate LockedBy(a: Auction.State, a': Auction.State, u: Addr, q: Pool, delta: int) {
    && a.minted.None? && a'.minted.None?
    && (forall p :: a'.locked.Get(p) == a.locked.Get(p) + if p == q then delta else 0)
    && (forall p, v :: a'.User(v).locked.Get(p) == a.User(v).locked.Get(p) + if p == q && v == u then delta else 0)
  }

  lemma LockKeepsAuction(a: Auction.State, now: nat, u: Addr, q: Pool, units: nat)
    requires AuctionInv(a, now) && Auction.LockLp(a, now, u, q, units).Ok?
    ensures AuctionInv(Auction.LockLp(a, now, u, q, units).value, now)
    ensures LockedBy(a, Auction.LockLp(a, now, u, q, units).value, u, q, units)
  {
    var a' := Auction.LockLp(a, now, u, q, units).value;
    AuctionProofs.LockStepsKeepPhase(a, a', now);
    forall p
      ensures AuctionProofs.PoolInv(a', p) && AuctionVesting.LpInv(a', p)
    {
      AuctionProofs.LockKeepsPool(a, now, u, q, units, p);
    }
  }

  lemma WithdrawKeepsAuction(a: Auction.State, now: nat, u: Addr, q: Pool, units: nat)
    requires AuctionInv(a, now) && Auction.WithdrawLp(a, now, u, q, units).Ok?
    ensures AuctionInv(Auction.WithdrawLp(a, now, u, q, units).value, now)
    ensures LockedBy(a, Auction.WithdrawLp(a, now, u, q, units).value, u, q, 0 - units)
  {
    var a' := Auction.WithdrawLp(a, now, u, q, units).value;
    AuctionProofs.LockStepsKeepPhase(a, a', now);
    forall p
      ensures AuctionProofs.PoolInv(a', p) && AuctionVesting.LpInv(a', p)
    {
      AuctionProofs.WithdrawLpKeepsPool(a, now, u, q, units, p);
    }
  }

  lemma LockLpKeeps(w: World, k: Key, units: nat)
    requires Inv(w) && Execute(w, LockLp(k, units)).Ok?
    ensures Inv(Execute(w, LockLp(k, units)).value)
  {
    var a' := Auction.LockLp(w.auction, w.now, k.user, k.pool, units).value;
    var x' := Xyk.IncreaseLockup(w.xyk, w.now, k, units).value;
    LockKeepsAuction(w.auction, w.now, k.user, k.pool, units);
    XykRun.IncreaseKeeps(w.xyk, w.now, k, units);
    XykSolvency.IncreaseResizes(w.xyk, w.now, k, units);
    LinkResized(w.auction, a', w.xyk, x', k, units);
  }

  lemma WithdrawLpKeeps(w: World, k: Key, units: nat)
    requires Inv(w) && Execute(w, WithdrawLp(k, units)).Ok?
    ensures Inv(Execute(w, WithdrawLp(k, units)).value)
  {
    var a' := Auction.WithdrawLp(w.auction, w.now, k.user, k.pool, units).value;
    var x' := Xyk.WithdrawLockup(w.xyk, w.now, k, units).value;
    WithdrawKeepsAuction(w.auction, w.now, k.user, k.pool, units);
    XykRun.WithdrawKeeps(w.xyk, w.now, k, units);
    XykSolvency.WithdrawResizes(w.xyk, w.now, k, units);
    LinkResized(w.auction, a', w.xyk, x', k, 0 - units);
  }

  /** Both contracts count the same change for the same user. */
  lemma LinkResized(a: Auction.State, a': Auction.State, x: Xyk.State, x': Xyk.State, k: Key, delta: int)
    requires LinkInv(a, x) && LockedBy(a, a', k.user, k.pool, delta) && XykSolvency.Resized(x, x', k, delta)
    requires XykSolvency.UserTotalsInv(x) && XykSolvency.UserTotalsInv(x')
    ensures LinkInv(a', x')
  {
    forall p
      ensures a'.locked.Get(p) == Total(x'.lockups, AllUnits(p))
    {
      ResizeChangesUnits(x, x', k, delta, p);
      assert a.locked.Get(p) == Total(x.lockups, AllUnits(p));
    }
    forall p, u
      ensures a'.User(u).locked.Get(p) == x'.UserTotal(p, u)
    {
      assert a.User(u).locked.Get(p) == x.UserTotal(p, u);
      ResizeChangesUserUnits(x, x', k, delta, p, u);
    }
  }

  lemma ResizeChangesUserUnits(x: Xyk.State, x': Xyk.State, k: Key, delta: int, p: Pool, u: Addr)
    requires XykSolvency.Resized(x, x', k, delta) && XykSolvency.UserTotalsInv(x) && XykSolvency.UserTotalsInv(x')
    ensures x'.UserTotal(p, u) == x.UserTotal(p, u) + if p == k.pool && u == k.user then delta else 0
  {
    if k in x'.lockups {
      TotalSet(x.lockups, Xyk.UserUnits(p, u), k, x'.lockups[k]);
    } else {
      TotalDrop(x.lockups, Xyk.UserUnits(p, u), k);
    }
    assert x.UserTotal(p, u) == Total(x.lockups, Xyk.UserUnits(p, u));
    assert x'.UserTotal(p, u) == Total(x'.lockups, Xyk.UserUnits(p, u));
  }

  // Initialisation

  /** Until initialisation every unit is in an open position, so the lockdrop's totals are the auction's. */
  lemma FreshUnitsAreOpen(a: Auction.State, x: Xyk.State, p: Pool)
    requires LinkInv(a, x) && XykSolvency.PoolInv(x, p) && forall k :: k in x.lockups ==> Xyk.Open(x.lockups[k])
    ensures a.locked.Get(p) == x.pools.Get(p).amountInLockups
  {
    TotalSame(x.lockups, AllUnits(p), x.lockups, Xyk.OpenUnits(p));
    assert a.locked.Get(p) == Total(x.lockups, AllUnits(p));
  }

  /** What sending the locked tokens of pool p does to the lockdrop. */
  ghost predicate Sent(x: Xyk.State, x': Xyk.State, p: Pool, locked: nat) {
    && (forall q :: XykSolvency.PoolInv(x', q) && XykRun.WeightInv(x', q))
    && XykSolvency.UserTotalsInv(x') && XykRun.ClosedExact(x') && XykRewards.Unclaimed(x')
    && (forall k :: k in x'.lockups ==> Xyk.Open(x'.lockups[k]))
    && x'.pools.usdc.incentivesShare + x'.pools.atom.incentivesShare == x'.totalShare
    && XykRun.Initialised(x'.pools.Get(p)) && x'.ledger.staked.Get(p) == locked
    && (forall q :: q != p ==> x'.pools.Get(q) == x.pools.Get(q))
    && x'.lockups == x.lockups && x'.userTotals == x.userTotals && x'.config == x.config
  }

  lemma SendLockedKeeps(x: Xyk.State, p: Pool, share: nat, locked: nat, now: nat)
    requires (forall q :: XykSolvency.PoolInv(x, q) && XykRun.WeightInv(x, q)) && XykSolvency.UserTotalsInv(x) && XykRun.ClosedExact(x) && XykRewards.Unclaimed(x)
    requires !x.pools.Get(p).isStaked && x.pools.Get(p).incentivesShare == 0 && (forall k :: k in x.lockups ==> Xyk.Open(x.lockups[k]))
    requires x.pools.usdc.incentivesShare + x.pools.atom.incentivesShare == x.totalShare
    requires locked == x.pools.Get(p).amountInLockups && SendLocked(x, p, share, locked).Ok?
    ensures Sent(x, SendLocked(x, p, share, locked).value, p, locked)
  {
    assert XykSolvency.PoolInv(x, p);
    if locked != 0 {
      XykRun.InitializeKeeps(x, p, share, now);
    }
  }

  lemma InitPoolKeepsXyk(w: World, minted: PerPool<nat>)
    requires Inv(w) && Execute(w, InitPool(minted)).Ok?
    ensures var w' := Execute(w, InitPool(minted)).value;
            && XykRun.XykInv(w'.xyk, true, w.now) && w'.xyk.lockups == w.xyk.lockups
            && w'.xyk.ledger.staked == w'.auction.locked && w'.auction.locked == w.auction.locked
  {
    var a := Auction.InitPool(w.auction, w.now, minted).value;
    FreshUnitsAreOpen(w.auction, w.xyk, ATOM);
    FreshUnitsAreOpen(w.auction, w.xyk, USDC);
    SendLockedKeeps(w.xyk, ATOM, a.ntrnSize.atom, a.locked.atom, w.now);
    var x1 := SendLocked(w.xyk, ATOM, a.ntrnSize.atom, a.locked.atom).value;
    assert x1.pools.Get(USDC) == w.xyk.pools.Get(USDC);
    SendLockedKeeps(x1, USDC, a.ntrnSize.usdc, a.locked.usdc, w.now);
    var x2 := SendLocked(x1, USDC, a.ntrnSize.usdc, a.locked.usdc).value;
    XykRewards.UnclaimedIsFine(x2);
    assert x2.pools.Get(ATOM) == x1.pools.Get(ATOM);
    assert XykSolvency.PoolInv(x2, ATOM) && XykSolvency.PoolInv(x2, USDC) && XykSolvency.PoolInv(x1, ATOM);
  }

  lemma InitPoolKeeps(w: World, minted: PerPool<nat>)
    requires Inv(w) && Execute(w, InitPool(minted)).Ok?
    ensures Inv(Execute(w, InitPool(minted)).value)
  {
    var a, a' := w.auction, Auction.InitPool(w.auction, w.now, minted).value;
    AuctionProofs.LockStepsKeepPhase(a, a', w.now);
    forall p
      ensures AuctionProofs.PoolInv(a', p) && AuctionVesting.LpInv(a', p)
    {
      AuctionVesting.InitPoolEstablishes(a, w.now, minted, p);
    }
    InitPoolKeepsXyk(w, minted);
  }

  lemma MigrateToVestingKeeps(w: World)
    requires Inv(w) && Execute(w, MigrateToVesting).Ok?
    ensures Inv(Execute(w, MigrateToVesting).value)
  {
    HandOverKeepsAuction(w.auction, w.now);
    AuctionStepKeeps(w, Execute(w, MigrateToVesting).value);
  }

  lemma HandOverKeepsAuction(a: Auction.State, now: nat)
    requires AuctionInv(a, now) && Auction.MigrateToVesting(a).Ok?
    ensures AuctionInv(Auction.MigrateToVesting(a).value, now) && SameLocks(a, Auction.MigrateToVesting(a).value)
  {
    VestingNeedsInit(a, now);
    AuctionVesting.MigrateKeeps(a);
  }

  /** Nobody waits for a pool that is not initialised. */
  lemma VestingNeedsInit(a: Auction.State, now: nat)
    requires AuctionInv(a, now) && Auction.MigrateToVesting(a).Ok?
    ensures a.minted.Some?
  {
  }

  lemma LocksAreOver(a: Auction.State, now: nat)
    requires AuctionInv(a, now) && a.minted.Some?
    ensures a.config.LockEnd() <= now
  {
  }

  // Claims and migrations

  /** Claims and migrations change neither the units that the auction counts as locked nor reopen positions. */
  lemma SettledKeepsLinks(a: Auction.State, x: Xyk.State, x': Xyk.State, c: Pcl.State)
    requires XykRun.Settled(x, x') && a.minted.Some?
    ensures LinkInv(a, x) ==> LinkInv(a, x')
    ensures MigrationInv(x, c, true) ==> MigrationInv(x', c, true)
  {
    forall p
      ensures Total(x.lockups, AllUnits(p)) == Total(x'.lockups, AllUnits(p))
    {
      forall k | k in x.lockups
        ensures AllUnits(p)(k, x.lockups[k]) == AllUnits(p)(k, x'.lockups[k])
      {
        SamePositionUnits(k, x.lockups[k], x'.lockups[k], p);
      }
      TotalSame(x.lockups, AllUnits(p), x'.lockups, AllUnits(p));
    }
    if MigrationInv(x, c, true) {
      forall k | k in c.lockups
        ensures k in x'.lockups && !Xyk.Open(x'.lockups[k])
      {
        assert XykRun.SettledPosition(x.lockups[k], x'.lockups[k]);
      }
    }
  }

  lemma SamePositionUnits(k: Key, l: Xyk.Lockup, l': Xyk.Lockup, p: Pool)
    requires XykRun.SettledPosition(l, l')
    ensures AllUnits(p)(k, l) == AllUnits(p)(k, l')
  {
  }

  lemma ClaimKeeps(w: World, k: Key, withdraw: bool, pending: Option<nat>)
    requires Inv(w) && Execute(w, Claim(k, withdraw, pending)).Ok?
    ensures Inv(Execute(w, Claim(k, withdraw, pending)).value)
  {
    XykRun.ClaimKeeps(w.xyk, w.now, k, withdraw, pending);
    SettledKeepsLinks(w.auction, w.xyk, Xyk.Claim(w.xyk, w.now, k, withdraw, pending).value, w.pcl);
  }

  lemma IncentivesKeep(w: World, ntrn: nat)
    requires Inv(w) && Execute(w, IncreaseIncentives(ntrn)).Ok?
    ensures Inv(Execute(w, IncreaseIncentives(ntrn)).value)
  {
    XykRun.IncentivesKeep(w.xyk, w.now, ntrn, w.auction.minted.Some?);
  }

  lemma ClaimPclKeeps(w: World, k: Key, withdraw: bool, rewards: seq<(Pcl.Token, nat)>, tokens: seq<Pcl.Token>)
    requires Inv(w) && Execute(w, ClaimPcl(k, withdraw, rewards, tokens)).Ok?
    ensures Inv(Execute(w, ClaimPcl(k, withdraw, rewards, tokens)).value)
  {
    ClaimKeepsPcl(w.pcl, w.now, k, withdraw, rewards, tokens);
    PclSolvency.ClaimFrame(w.pcl, w.now, k, withdraw, rewards, tokens);
  }

  lemma ClaimKeepsPcl(c: Pcl.State, now: nat, k: Key, withdraw: bool, rewards: seq<(Pcl.Token, nat)>, tokens: seq<Pcl.Token>)
    requires PclInv(c) && Pcl.Claim(c, now, k, withdraw, rewards, tokens).Ok?
    ensures PclInv(Pcl.Claim(c, now, k, withdraw, rewards, tokens).value)
  {
    var c' := Pcl.Claim(c, now, k, withdraw, rewards, tokens).value;
    forall p
      ensures PclSolvency.PoolInv(c', p)
    {
      assert PclSolvency.TokenInv(c, p, 0) && PclSolvency.TokenInv(c, k.pool, 0) && PclSolvency.PoolInv(c, k.pool);
      PclSolvency.ClaimKeeps(c, now, k, withdraw, rewards, tokens, p, 0);
    }
    forall p, t
      ensures PclSolvency.TokenInv(c', p, t)
    {
      assert PclSolvency.TokenInv(c, p, t) && PclSolvency.TokenInv(c, k.pool, t) && PclSolvency.PoolInv(c, k.pool);
      PclSolvency.ClaimKeeps(c, now, k, withdraw, rewards, tokens, p, t);
    }
    PclSolvency.ClaimKeepsUserTotals(c, now, k, withdraw, rewards, tokens);
  }

  /** What a migration keeps while it goes through the positions of user u. */
  ghost predicate Migrating(x: Xyk.State, c: Pcl.State, now: nat, u: Addr) {
    && XykRun.XykInv(x, true, now) && PclInv(c) && MigrationInv(x, c, true)
    && x.config.WindowsEnd() <= now
    && u in x.users && x.users[u].totalRewards == XykRewards.TotalDue(x, u)
  }

  lemma MigrateOneKeeps(x: Xyk.State, c: Pcl.State, now: nat, k: Key, leg: Leg)
    requires Migrating(x, c, now, k.user) && k in x.lockups && Xyk.Open(x.lockups[k]) && MigrateOne(x, c, k, leg).Ok?
    ensures var (x', c') := MigrateOne(x, c, k, leg).value;
            && Migrating(x', c', now, k.user) && XykRun.Settled(x, x') && !Xyk.Open(x'.lockups[k])
            && k !in c.lockups && k in c'.lockups
  {
    var x1 := Xyk.MigratePosition(x, k, leg.pending).value;
    XykRun.MigrateKeeps(x, now, k, leg.pending);
    MigratedIsClosed(x, k, leg.pending);
    NothingStaked(x1, now, k.pool);
    NotYetMigrated(x, c, k);
    FinishKeepsPcl(c, k, x1.User(k.user), x1.lockups[k], leg.minted, x1.ledger.staked.Get(k.pool) == 0);
    FinishKeepsMigration(x, x1, c, k, leg.minted);
  }

  lemma NothingStaked(x: Xyk.State, now: nat, p: Pool)
    requires XykRun.XykInv(x, true, now)
    ensures x.ledger.staked.Get(p) == 0 ==> x.pools.Get(p).amountInLockups == 0
  {
    assert XykSolvency.PoolInv(x, p);
  }

  lemma NotYetMigrated(x: Xyk.State, c: Pcl.State, k: Key)
    requires MigrationInv(x, c, true) && k in x.lockups && Xyk.Open(x.lockups[k]) && x.pools.Get(k.pool).amountInLockups != 0
    ensures k !in c.lockups && !c.pools.Get(k.pool).isStaked
  {
  }

  lemma MigratedIsClosed(x: Xyk.State, k: Key, pending: Option<nat>)
    requires k in x.lockups && Xyk.MigratePosition(x, k, pending).Ok?
    ensures var x' := Xyk.MigratePosition(x, k, pending).value;
            k in x'.lockups && !Xyk.Open(x'.lockups[k]) && x.pools.Get(k.pool).amountInLockups != 0
  {
    assert Xyk.LpShare(x, k.pool, x.lockups[k].units).Ok?;
    XykPositions.MigrateAccrued(x, k, pending);
    var x1 := Xyk.Accrue(x, k.pool, pending).value;
    var lp := Xyk.LpShare(x1, k.pool, x1.lockups[k].units).value;
    XykPositions.MigrateCloses(x1, k, lp);
    PaidAndClosed(x1, k, lp);
  }

  lemma PaidAndClosed(x: Xyk.State, k: Key, lp: nat)
    requires k in x.lockups && XykPositions.PayAndClose(x, k, lp).Ok?
    ensures var x' := Xyk.PayOneTime(XykPositions.PayAndClose(x, k, lp).value, k.user);
            k in x'.lockups && !Xyk.Open(x'.lockups[k])
  {
  }

  lemma FinishKeepsPcl(c: Pcl.State, k: Key, user: Xyk.UserInfo, lockup: Xyk.Lockup, minted: nat, stake: bool)
    requires PclInv(c) && k !in c.lockups && !c.pools.Get(k.pool).isStaked
    requires Pcl.FinishMigration(c, k, user, lockup, minted, stake).Ok?
    ensures PclInv(Pcl.FinishMigration(c, k, user, lockup, minted, stake).value)
  {
    var c' := Pcl.FinishMigration(c, k, user, lockup, minted, stake).value;
    forall p
      ensures PclSolvency.PoolInv(c', p)
    {
      assert PclSolvency.PoolInv(c, p);
      PclSolvency.FinishKeepsPool(c, k, user, lockup, minted, stake, p);
    }
    forall p, t
      ensures PclSolvency.TokenInv(c', p, t)
    {
      assert PclSolvency.TokenInv(c, p, t) && PclSolvency.PoolInv(c, k.pool);
      PclSolvency.FinishKeepsToken(c, k, user, lockup, minted, stake, p, t);
    }
    PclSolvency.FinishKeepsUserTotals(c, k, user, lockup, minted, stake);
  }

  lemma FinishKeepsMigration(x: Xyk.State, x1: Xyk.State, c: Pcl.State, k: Key, minted: nat)
    requires MigrationInv(x, c, true) && XykRun.Settled(x, x1) && k in x1.lockups && !Xyk.Open(x1.lockups[k])
    requires !c.pools.Get(k.pool).isStaked && x1.User(k.user).ntrnTransferred
    requires x1.ledger.staked.Get(k.pool) == 0 ==> x1.pools.Get(k.pool).amountInLockups == 0
    requires Pcl.FinishMigration(c, k, x1.User(k.user), x1.lockups[k], minted, x1.ledger.staked.Get(k.pool) == 0).Ok?
    ensures MigrationInv(x1, Pcl.FinishMigration(c, k, x1.User(k.user), x1.lockups[k], minted, x1.ledger.staked.Get(k.pool) == 0).value, true)
  {
    forall j | j in c.lockups
      ensures j in x1.lockups && !Xyk.Open(x1.lockups[j])
    {
      assert XykRun.SettledPosition(x.lockups[j], x1.lockups[j]);
    }
  }

  lemma {:induction false} MigratePositionsKeep(x: Xyk.State, c: Pcl.State, now: nat, u: Addr, keys: seq<Key>, legs: map<Key, Leg>)
    requires Migrating(x, c, now, u) && (forall i :: 0 <= i < |keys| ==> keys[i].user == u)
    requires MigratePositions(x, c, keys, legs).Ok?
    ensures var (x', c') := MigratePositions(x, c, keys, legs).value;
            && Migrating(x', c', now, u) && XykRun.Settled(x, x')
            && forall i :: 0 <= i < |keys| ==> keys[i] in x'.lockups && !Xyk.Open(x'.lockups[keys[i]])
    decreases |keys|
  {
    if keys != [] {
      var k := keys[0];
      var (x1, c1) := if Xyk.Open(x.lockups[k]) then MigrateOne(x, c, k, LegOf(legs, k)).value else (x, c);
      if Xyk.Open(x.lockups[k]) {
        MigrateOneKeeps(x, c, now, k, LegOf(legs, k));
      }
      MigratePositionsKeep(x1, c1, now, u, keys[1..], legs);
      var (x', c') := MigratePositions(x1, c1, keys[1..], legs).value;
      XykRun.SettlesTwice(x, x1, x');
      AllClosed(x1, x', keys);
    }
  }

  lemma AllClosed(x: Xyk.State, x': Xyk.State, keys: seq<Key>)
    requires XykRun.Settled(x, x') && keys != [] && keys[0] in x.lockups && !Xyk.Open(x.lockups[keys[0]])
    requires forall i :: 0 <= i < |keys[1..]| ==> keys[1..][i] in x'.lockups && !Xyk.Open(x'.lockups[keys[1..][i]])
    ensures forall i :: 0 <= i < |keys| ==> keys[i] in x'.lockups && !Xyk.Open(x'.lockups[keys[i]])
  {
    assert XykRun.SettledPosition(x.lockups[keys[0]], x'.lockups[keys[0]]);
    forall i | 0 <= i < |keys|
      ensures keys[i] in x'.lockups && !Xyk.Open(x'.lockups[keys[i]])
    {
      assert i > 0 ==> keys[i] == keys[1..][i - 1];
    }
  }

  lemma MigrateLiquidityKeeps(w: World, u: Addr, legs: map<Key, Leg>)
    requires Inv(w) && Execute(w, MigrateLiquidity(u, legs)).Ok?
    ensures Inv(Execute(w, MigrateLiquidity(u, legs)).value)
    ensures var w' := Execute(w, MigrateLiquidity(u, legs)).value;
            && XykRun.Settled(w.xyk, w'.xyk)
            && (forall k :: k in w'.xyk.lockups && k.user == u ==> !Xyk.Open(w'.xyk.lockups[k]))
  {
    var x := Xyk.FinalizeRewards(w.xyk, u).value;
    XykRun.FinalizeKeeps(w.xyk, w.now, u);
    XykRun.FinalizeSettles(w.xyk, u);
    SettledKeepsLinks(w.auction, w.xyk, x, w.pcl);
    MigrateUserKeeps(w.auction, x, w.pcl, w.now, u, legs);
    XykRun.SettlesTwice(w.xyk, x, Execute(w, MigrateLiquidity(u, legs)).value.xyk);
  }

  lemma MigrateUserKeeps(a: Auction.State, x: Xyk.State, c: Pcl.State, now: nat, u: Addr, legs: map<Key, Leg>)
    requires a.minted.Some? && LinkInv(a, x) && Migrating(x, c, now, u) && MigratePositions(x, c, UserKeys(x.lockups, u), legs).Ok?
    ensures var (x', c') := MigratePositions(x, c, UserKeys(x.lockups, u), legs).value;
            && LinkInv(a, x') && Migrating(x', c', now, u) && XykRun.Settled(x, x')
            && (forall k :: k in x'.lockups && k.user == u ==> !Xyk.Open(x'.lockups[k]))
  {
    UserKeysComplete(x.lockups, u);
    MigratePositionsKeep(x, c, now, u, UserKeys(x.lockups, u), legs);
    var (x', c') := MigratePositions(x, c, UserKeys(x.lockups, u), legs).value;
    SettledKeepsLinks(a, x, x', c');
    forall k | k in x'.lockups && k.user == u
      ensures !Xyk.Open(x'.lockups[k])
    {
      assert k in UserKeys(x.lockups, u);
    }
  }

  // Every event

  lemma ExecuteKeeps(w: World, tx: Tx)
    requires Inv(w) && Execute(w, tx).Ok?
    ensures Inv(Execute(w, tx).value)
  {
    match tx
    case Deposit(user, amount) => DepositKeeps(w, user, amount);
    case WithdrawDeposit(user, amount) => WithdrawDepositKeeps(w, user, amount);
    case SetPoolSize(ntrn, rates) => SetPoolSizeKeeps(w, ntrn, rates);
    case LockLp(k, units) => LockLpKeeps(w, k, units);
    case WithdrawLp(k, units) => WithdrawLpKeeps(w, k, units);
    case InitPool(minted) => InitPoolKeeps(w, minted);
    case MigrateToVesting => MigrateToVestingKeeps(w);
    case IncreaseIncentives(ntrn) => IncentivesKeep(w, ntrn);
    case Claim(k, withdraw, pending) => ClaimKeeps(w, k, withdraw, pending);
    case MigrateLiquidity(user, legs) => MigrateLiquidityKeeps(w, user, legs);
    case ClaimVested(p, user, claimed) =>
    case ClaimPcl(k, withdraw, rewards, tokens) => ClaimPclKeeps(w, k, withdraw, rewards, tokens);
  }

  lemma ApplyKeeps(w: World, tx: Tx)
    requires Inv(w)
    ensures Inv(Apply(w, tx))
  {
    if Execute(w, tx).Ok? {
      ExecuteKeeps(w, tx);
    }
  }

  lemma NextKeeps(w: World, e: Event)
    requires Inv(w)
    ensures Inv(Next(w, e))
  {
    TimePasses(w, e.elapsed);
    ApplyKeeps(Later(w, e.elapsed), e.tx);
  }

  lemma {:induction false} RunKeeps(w: World, events: seq<Event>)
    requires Inv(w)
    ensures Inv(Run(w, events))
    decreases |events|
  {
    if events != [] {
      NextKeeps(w, events[0]);
      RunKeeps(Next(w, events[0]), events[1..]);
    }
  }
}

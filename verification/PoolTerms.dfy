/** The pool sizes in runs: the stored sizes split the NTRN by the value of the final deposits, and the lockdrop's shares of the
    incentives are the sizes of the pools that something was locked in. */
module PoolTerms {
  import opened Basics
  import opened Tge
  import opened TgeInvariant
  import Auction
  import AuctionProofs
  import Xyk = LockdropXyk
  import XykRun = LockdropXykRun

  /** If the sizes are set, they split the NTRN by the value of the deposits. */
  ghost predicate Sized(a: Auction.State) {
    a.ntrnSize != PerPool(0, 0) ==> exists rates, price, v :: AuctionProofs.SplitsByValue(a.deposited, a.ntrnSize, a.lpSize, rates, price, v)
  }

  predicate SharedIn(a: Auction.State, x: Xyk.State, p: Pool) {
    x.pools.Get(p).incentivesShare == if a.minted.Some? && a.locked.Get(p) > 0 then a.ntrnSize.Get(p) else 0
  }

  ghost predicate Terms(w: World) {
    Sized(w.auction) && forall p :: SharedIn(w.auction, w.xyk, p)
  }

  predicate SameSizes(a: Auction.State, a': Auction.State) {
    a'.ntrnSize == a.ntrnSize && a'.lpSize == a.lpSize && (a.ntrnSize != PerPool(0, 0) ==> a'.deposited == a.deposited)
  }

  lemma SameSizesStay(a: Auction.State, a': Auction.State)
    requires Sized(a) && SameSizes(a, a')
    ensures Sized(a')
  {
    if a'.ntrnSize != PerPool(0, 0) {
      var rates, price, v :| AuctionProofs.SplitsByValue(a.deposited, a.ntrnSize, a.lpSize, rates, price, v);
      assert AuctionProofs.SplitsByValue(a'.deposited, a'.ntrnSize, a'.lpSize, rates, price, v);
    }
  }

  lemma SetPoolSizeSizes(a: Auction.State, now: nat, ntrn: nat, rates: seq<Auction.Rate>)
    requires Auction.SetPoolSize(a, now, ntrn, rates).Ok?
    ensures Sized(Auction.SetPoolSize(a, now, ntrn, rates).value)
  {
    var price, v := AuctionProofs.SetPoolSizeSplits(a, now, ntrn, rates);
    var a' := Auction.SetPoolSize(a, now, ntrn, rates).value;
    assert AuctionProofs.SplitsByValue(a'.deposited, a'.ntrnSize, a'.lpSize, rates, price, v);
  }

  /** Once the sizes are set, nothing is deposited or withdrawn. */
  lemma DepositsAreFinal(a: Auction.State, now: nat, u: Addr, amount: PerPool<nat>)
    requires AuctionProofs.PhaseInv(a, now)
    ensures Auction.Deposit(a, now, u, amount).Ok? ==> SameSizes(a, Auction.Deposit(a, now, u, amount).value)
    ensures Auction.Withdraw(a, now, u, amount).Ok? ==> SameSizes(a, Auction.Withdraw(a, now, u, amount).value)
  {
    if Auction.Withdraw(a, now, u, amount).Ok? {
      AuctionProofs.WithdrawInWindow(a, now, u, amount);
    }
  }

  lemma {:induction false} HandOverKeepsSizes(a: Auction.State, batch: seq<Addr>)
    ensures Auction.VestUsers(a, batch).Ok? ==>
              var a' := Auction.VestUsers(a, batch).value;
              SameSizes(a, a') && a'.locked == a.locked && a'.minted == a.minted
    decreases |batch|
  {
    if batch != [] && Auction.VestUser(a, batch[0]).Ok? {
      HandOverKeepsSizes(Auction.VestUser(a, batch[0]).value, batch[1..]);
    }
  }

  lemma LocksKeepSizes(a: Auction.State, now: nat, u: Addr, p: Pool, units: nat, minted: PerPool<nat>)
    ensures Auction.LockLp(a, now, u, p, units).Ok? ==> SameSizes(a, Auction.LockLp(a, now, u, p, units).value)
    ensures Auction.WithdrawLp(a, now, u, p, units).Ok? ==> SameSizes(a, Auction.WithdrawLp(a, now, u, p, units).value)
    ensures Auction.InitPool(a, now, minted).Ok? ==>
              SameSizes(a, Auction.InitPool(a, now, minted).value) && Auction.InitPool(a, now, minted).value.locked == a.locked
  {
  }

  lemma StepKeepsSizes(w: World, tx: Tx)
    requires AuctionProofs.PhaseInv(w.auction, w.now) && Execute(w, tx).Ok? && !tx.SetPoolSize?
    ensures SameSizes(w.auction, Execute(w, tx).value.auction)
  {
    if tx.Deposit? || tx.WithdrawDeposit? {
      DepositsAreFinal(w.auction, w.now, tx.user, tx.amount);
    } else if tx.LockLp? || tx.WithdrawLp? {
      LocksKeepSizes(w.auction, w.now, tx.key.user, tx.key.pool, tx.units, PerPool(0, 0));
    } else if tx.InitPool? {
      LocksKeepSizes(w.auction, w.now, 0, USDC, 0, tx.minted);
    } else if tx.MigrateToVesting? {
      HandOverKeepsSizes(w.auction, Auction.Batch(w.auction));
    }
  }

  lemma StepKeepsSized(w: World, tx: Tx)
    requires AuctionProofs.PhaseInv(w.auction, w.now) && Sized(w.auction) && Execute(w, tx).Ok?
    ensures Sized(Execute(w, tx).value.auction)
  {
    if tx.SetPoolSize? {
      SetPoolSizeSizes(w.auction, w.now, tx.ntrn, tx.rates);
    } else {
      StepKeepsSizes(w, tx);
      SameSizesStay(w.auction, Execute(w, tx).value.auction);
    }
  }

  // Shares

  lemma InitPoolShares(w: World, minted: PerPool<nat>)
    requires Inv(w) && Execute(w, InitPool(minted)).Ok?
    ensures var w' := Execute(w, InitPool(minted)).value; forall p :: SharedIn(w'.auction, w'.xyk, p)
  {
    var a' := Auction.InitPool(w.auction, w.now, minted).value;
    FreshHasNoShares(w);
    LocksKeepSizes(w.auction, w.now, 0, USDC, 0, minted);
    SendingShares(w.xyk, a');
  }

  lemma FreshHasNoShares(w: World)
    requires Inv(w) && w.auction.minted.None?
    ensures w.xyk.pools.usdc.incentivesShare == w.xyk.pools.atom.incentivesShare == 0
  {
  }

  lemma SendingShares(x: Xyk.State, a: Auction.State)
    requires x.pools.usdc.incentivesShare == x.pools.atom.incentivesShare == 0 && a.minted.Some?
    requires SendLocked(x, ATOM, a.ntrnSize.atom, a.locked.atom).Ok?
    requires SendLocked(SendLocked(x, ATOM, a.ntrnSize.atom, a.locked.atom).value, USDC, a.ntrnSize.usdc, a.locked.usdc).Ok?
    ensures var x' := SendLocked(SendLocked(x, ATOM, a.ntrnSize.atom, a.locked.atom).value, USDC, a.ntrnSize.usdc, a.locked.usdc).value;
            forall p :: SharedIn(a, x', p)
  {
  }

  /** What decides the shares is as it was. */
  predicate SameShares(a: Auction.State, x: Xyk.State, a': Auction.State, x': Xyk.State) {
    && x'.pools.usdc.incentivesShare == x.pools.usdc.incentivesShare && x'.pools.atom.incentivesShare == x.pools.atom.incentivesShare
    && a'.minted == a.minted
    && (a.minted.Some? ==> a'.locked == a.locked && a'.ntrnSize == a.ntrnSize)
  }

  lemma SameSharesStay(a: Auction.State, x: Xyk.State, a': Auction.State, x': Xyk.State, p: Pool)
    requires SameShares(a, x, a', x') && SharedIn(a, x, p)
    ensures SharedIn(a', x', p)
  {
  }

  lemma DepositStepKeepsShares(w: World, tx: Tx)
    requires Execute(w, tx).Ok? && (tx.Deposit? || tx.WithdrawDeposit? || tx.SetPoolSize?)
    ensures SameShares(w.auction, w.xyk, Execute(w, tx).value.auction, Execute(w, tx).value.xyk)
  {
  }

  /** Nothing is locked after initialisation. */
  lemma LockStepKeepsShares(w: World, tx: Tx)
    requires Inv(w) && Execute(w, tx).Ok? && (tx.LockLp? || tx.WithdrawLp?)
    ensures SameShares(w.auction, w.xyk, Execute(w, tx).value.auction, Execute(w, tx).value.xyk)
  {
    if w.auction.minted.Some? {
      LocksAreOver(w.auction, w.now);
    } else {
      ResizeKeepsShares(w, tx);
    }
  }

  lemma ResizeKeepsShares(w: World, tx: Tx)
    requires w.auction.minted.None? && Execute(w, tx).Ok? && (tx.LockLp? || tx.WithdrawLp?)
    ensures SameShares(w.auction, w.xyk, Execute(w, tx).value.auction, Execute(w, tx).value.xyk)
  {
  }

  lemma SettledKeepsShares(a: Auction.State, x: Xyk.State, x': Xyk.State)
    requires XykRun.Settled(x, x')
    ensures SameShares(a, x, a, x')
  {
  }

  lemma ClaimStepKeepsShares(w: World, tx: Tx)
    requires Inv(w) && Execute(w, tx).Ok? && (tx.Claim? || tx.MigrateLiquidity?)
    ensures SameShares(w.auction, w.xyk, Execute(w, tx).value.auction, Execute(w, tx).value.xyk)
  {
    if tx.Claim? {
      XykRun.ClaimKeeps(w.xyk, w.now, tx.key, tx.withdraw, tx.pending);
    } else {
      MigrateLiquidityKeeps(w, tx.user, tx.legs);
    }
    SettledKeepsShares(w.auction, w.xyk, Execute(w, tx).value.xyk);
  }

  lemma OtherStepKeepsShares(w: World, tx: Tx)
    requires Execute(w, tx).Ok? && (tx.MigrateToVesting? || tx.IncreaseIncentives? || tx.ClaimVested? || tx.ClaimPcl?)
    ensures SameShares(w.auction, w.xyk, Execute(w, tx).value.auction, Execute(w, tx).value.xyk)
  {
    if tx.MigrateToVesting? {
      HandOverKeepsSizes(w.auction, Auction.Batch(w.auction));
    }
  }

  lemma StepKeepsShares(w: World, tx: Tx, p: Pool)
    requires Inv(w) && SharedIn(w.auction, w.xyk, p) && Execute(w, tx).Ok?
    ensures SharedIn(Execute(w, tx).value.auction, Execute(w, tx).value.xyk, p)
  {
    var w' := Execute(w, tx).value;
    if tx.InitPool? {
      InitPoolShares(w, tx.minted);
    } else {
      if tx.Deposit? || tx.WithdrawDeposit? || tx.SetPoolSize? {
        DepositStepKeepsShares(w, tx);
      } else if tx.LockLp? || tx.WithdrawLp? {
        LockStepKeepsShares(w, tx);
      } else if tx.Claim? || tx.MigrateLiquidity? {
        ClaimStepKeepsShares(w, tx);
      } else {
        OtherStepKeepsShares(w, tx);
      }
      SameSharesStay(w.auction, w.xyk, w'.auction, w'.xyk, p);
    }
  }

  // Runs

  lemma ApplyKeepsTerms(w: World, tx: Tx)
    requires Inv(w) && Terms(w)
    ensures Terms(Apply(w, tx))
  {
    if Execute(w, tx).Ok? {
      StepKeepsSized(w, tx);
      forall p
        ensures SharedIn(Execute(w, tx).value.auction, Execute(w, tx).value.xyk, p)
      {
        assert SharedIn(w.auction, w.xyk, p);
        StepKeepsShares(w, tx, p);
      }
    }
  }

  lemma LaterKeepsTerms(w: World, elapsed: nat)
    requires Terms(w)
    ensures Terms(Later(w, elapsed))
  {
    forall p
      ensures SharedIn(Later(w, elapsed).auction, Later(w, elapsed).xyk, p)
    {
      assert SharedIn(w.auction, w.xyk, p);
    }
  }

  lemma {:induction false} RunKeepsTerms(w: World, events: seq<Event>)
    requires Inv(w) && Terms(w)
    ensures Terms(Run(w, events))
    decreases |events|
  {
    if events != [] {
      TimePasses(w, events[0].elapsed);
      LaterKeepsTerms(w, events[0].elapsed);
      ApplyKeepsTerms(Later(w, events[0].elapsed), events[0].tx);
      NextKeeps(w, events[0]);
      RunKeepsTerms(Next(w, events[0]), events[1..]);
    }
  }

  /** In every run, sizes that are set split the NTRN by the value of the deposits as they are now, and the LP sizes are the
      geometric means of the matching amounts. After initialisation each pool with locked tokens has its own NTRN size as its
      share of the incentives, and any other pool none. */
  lemma SizesAndShares(start: World, events: seq<Event>, p: Pool)
    requires Initial(start)
    ensures var w := Run(start, events);
            && (w.auction.ntrnSize != PerPool(0, 0) ==>
                  exists rates, price, v :: AuctionProofs.SplitsByValue(w.auction.deposited, w.auction.ntrnSize, w.auction.lpSize, rates, price, v))
            && w.xyk.pools.Get(p).incentivesShare == if w.auction.minted.Some? && w.auction.locked.Get(p) > 0 then w.auction.ntrnSize.Get(p) else 0
  {
    InitialInv(start);
    forall q
      ensures SharedIn(start.auction, start.xyk, q)
    {
      assert q == USDC || q == ATOM;
    }
    RunKeepsTerms(start, events);
    assert SharedIn(Run(start, events).auction, Run(start, events).xyk, p);
  }
}

/** When the LP tokens of a PCL pool are staked: only a migration that takes the last units out of the XYK pool stakes them.
    If a user unlocks the last units instead, the pool is never staked, and earns nothing. */
module TgeStaking {
  import opened Basics
  import opened Tge
  import opened TgeInvariant
  import opened PositionKeys
  import Auction
  import LockupWithdrawals
  import MigratedRecords
  import TgeProgress
  import TgeTheorems
  import Progress = LockdropXykProgress
  import Xyk = LockdropXyk
  import XykSolvency = LockdropXykSolvency
  import XykRun = LockdropXykRun
  import Pcl = LockdropPcl
  import PclSolvency = LockdropPclSolvency

  function Units(x: Xyk.State, p: Pool): nat {
    x.pools.Get(p).amountInLockups
  }

  predicate Emptied(x: Xyk.State, x': Xyk.State, p: Pool) {
    Units(x, p) > 0 && Units(x', p) == 0
  }

  // Migrations

  /** What a migration does to the stake of pool p. */
  predicate StakedIfEmptied(x: Xyk.State, c: Pcl.State, x': Xyk.State, c': Pcl.State, p: Pool) {
    && Units(x', p) <= Units(x, p)
    && (c'.pools.Get(p).isStaked <==> c.pools.Get(p).isStaked || Emptied(x, x', p))
  }

  lemma MigrateOneStakes(x: Xyk.State, c: Pcl.State, now: nat, k: Key, leg: Leg, p: Pool)
    requires XykRun.XykInv(x, true, now) && k in x.lockups && Xyk.Open(x.lockups[k]) && MigrateOne(x, c, k, leg).Ok?
    ensures StakedIfEmptied(x, c, MigrateOne(x, c, k, leg).value.0, MigrateOne(x, c, k, leg).value.1, p)
  {
    var x1 := Xyk.MigratePosition(x, k, leg.pending).value;
    PositionLeaves(x, now, k, leg.pending);
    FinishStakes(c, k, x1.User(k.user), x1.lockups[k], leg.minted, x1.ledger.staked.Get(k.pool) == 0, p);
  }

  /** A position leaves a pool that has open units; what is left there is staked in the generator. */
  lemma PositionLeaves(x: Xyk.State, now: nat, k: Key, pending: Option<nat>)
    requires XykRun.XykInv(x, true, now) && k in x.lockups && Xyk.Open(x.lockups[k]) && Xyk.MigratePosition(x, k, pending).Ok?
    ensures var x1 := Xyk.MigratePosition(x, k, pending).value;
            && Units(x, k.pool) > 0 && Units(x1, k.pool) <= Units(x, k.pool) && x1.ledger.staked.Get(k.pool) == Units(x1, k.pool)
            && (forall p :: p != k.pool ==> Units(x1, p) == Units(x, p))
            && k in x1.lockups
  {
    assert XykSolvency.PoolInv(x, k.pool) && XykRun.Initialised(x.pools.Get(k.pool));
    Progress.MigrateSucceeds(x, k, pending);
    XykSolvency.MigrateKeepsPool(x, k, pending, k.pool);
  }

  lemma FinishStakes(c: Pcl.State, k: Key, user: Xyk.UserInfo, lockup: Xyk.Lockup, minted: nat, stake: bool, p: Pool)
    requires Pcl.FinishMigration(c, k, user, lockup, minted, stake).Ok?
    ensures Pcl.FinishMigration(c, k, user, lockup, minted, stake).value.pools.Get(p).isStaked <==>
            c.pools.Get(p).isStaked || (p == k.pool && stake)
  {
  }

  lemma StakedTwice(x: Xyk.State, c: Pcl.State, x1: Xyk.State, c1: Pcl.State, x2: Xyk.State, c2: Pcl.State, p: Pool)
    requires StakedIfEmptied(x, c, x1, c1, p) && StakedIfEmptied(x1, c1, x2, c2, p)
    ensures StakedIfEmptied(x, c, x2, c2, p)
  {
  }

  lemma {:induction false} MigratePositionsStake(x: Xyk.State, c: Pcl.State, now: nat, u: Addr, keys: seq<Key>, legs: map<Key, Leg>, p: Pool)
    requires Migrating(x, c, now, u) && (forall i :: 0 <= i < |keys| ==> keys[i].user == u) && MigratePositions(x, c, keys, legs).Ok?
    ensures StakedIfEmptied(x, c, MigratePositions(x, c, keys, legs).value.0, MigratePositions(x, c, keys, legs).value.1, p)
    decreases |keys|
  {
    if keys != [] {
      var k := keys[0];
      if Xyk.Open(x.lockups[k]) {
        var (x1, c1) := MigrateOne(x, c, k, LegOf(legs, k)).value;
        MigrateOneKeeps(x, c, now, k, LegOf(legs, k));
        MigrateOneStakes(x, c, now, k, LegOf(legs, k), p);
        MigratePositionsStake(x1, c1, now, u, keys[1..], legs, p);
        StakedTwice(x, c, x1, c1, MigratePositions(x, c, keys, legs).value.0, MigratePositions(x, c, keys, legs).value.1, p);
      } else {
        MigratePositionsStake(x, c, now, u, keys[1..], legs, p);
      }
    }
  }

  lemma MigrationStakes(w: World, u: Addr, legs: map<Key, Leg>, p: Pool)
    requires Inv(w) && Execute(w, MigrateLiquidity(u, legs)).Ok?
    ensures var w' := Execute(w, MigrateLiquidity(u, legs)).value;
            StakedIfEmptied(w.xyk, w.pcl, w'.xyk, w'.pcl, p)
  {
    TgeProgress.ReadyToMigrate(w, u);
    var x := Xyk.FinalizeRewards(w.xyk, u).value;
    assert x.pools == w.xyk.pools;
    UserKeysComplete(x.lockups, u);
    MigratePositionsStake(x, w.pcl, w.now, u, UserKeys(x.lockups, u), legs, p);
  }

  // Steps

  /** The transaction is a migration and takes the last open units out of pool p. */
  ghost predicate EmptiesByMigration(w: World, tx: Tx, p: Pool) {
    tx.MigrateLiquidity? && Emptied(w.xyk, Apply(w, tx).xyk, p)
  }

  lemma StepStakes(w: World, tx: Tx, p: Pool)
    requires Inv(w)
    ensures Apply(w, tx).pcl.pools.Get(p).isStaked <==> w.pcl.pools.Get(p).isStaked || EmptiesByMigration(w, tx, p)
  {
    if Execute(w, tx).Ok? {
      if tx.MigrateLiquidity? {
        MigrationStakes(w, tx.user, tx.legs, p);
      } else if tx.ClaimPcl? {
        PclSolvency.ClaimFrame(w.pcl, w.now, tx.key, tx.withdraw, tx.rewards, tx.tokens);
      } else {
        MigratedRecords.OthersLeavePcl(w, tx);
      }
    }
  }

  /** After initialisation no position is opened or grows. */
  lemma UnitsShrink(w: World, tx: Tx, p: Pool)
    requires Inv(w) && w.auction.minted.Some?
    ensures Units(Apply(w, tx).xyk, p) <= Units(w.xyk, p)
    ensures Emptied(w.xyk, Apply(w, tx).xyk, p) ==> tx.MigrateLiquidity? || (tx.Claim? && tx.withdraw)
    ensures Apply(w, tx).auction.minted.Some?
  {
    if Execute(w, tx).Ok? {
      if tx.MigrateLiquidity? {
        MigrationStakes(w, tx.user, tx.legs, p);
      } else if tx.Claim? {
        ClaimShrinks(w, tx.key, tx.withdraw, tx.pending, p);
      } else {
        OthersLeaveUnits(w, tx, p);
      }
      MintedStays(w, tx);
    }
  }

  lemma ClaimShrinks(w: World, k: Key, withdraw: bool, pending: Option<nat>, p: Pool)
    requires Inv(w) && Execute(w, Claim(k, withdraw, pending)).Ok?
    ensures var x' := Execute(w, Claim(k, withdraw, pending)).value.xyk;
            Units(x', p) <= Units(w.xyk, p) && (!withdraw ==> Units(x', p) == Units(w.xyk, p))
  {
    XykRun.ClaimKeeps(w.xyk, w.now, k, withdraw, pending);
    var x' := Execute(w, Claim(k, withdraw, pending)).value.xyk;
    SettledUnits(w.xyk, x', p);
    if !withdraw {
      ClaimKeepsUnits(w.xyk, w.now, k, pending, p);
    }
  }

  lemma SettledUnits(x: Xyk.State, x': Xyk.State, p: Pool)
    requires XykRun.Settled(x, x')
    ensures Units(x', p) <= Units(x, p)
  {
  }

  lemma ClaimKeepsUnits(x: Xyk.State, now: nat, k: Key, pending: Option<nat>, p: Pool)
    requires Xyk.Claim(x, now, k, false, pending).Ok?
    ensures Units(Xyk.Claim(x, now, k, false, pending).value, p) == Units(x, p)
  {
    var x1 := Xyk.FinalizeRewards(x, k.user).value;
    var x2 := if x1.pools.Get(k.pool).isStaked then Xyk.Accrue(x1, k.pool, pending).value else x1;
    assert Units(x2, p) == Units(x, p);
  }

  lemma OthersLeaveUnits(w: World, tx: Tx, p: Pool)
    requires Inv(w) && w.auction.minted.Some? && Execute(w, tx).Ok? && !tx.MigrateLiquidity? && !tx.Claim?
    ensures Units(Execute(w, tx).value.xyk, p) == Units(w.xyk, p)
  {
    LocksAreOver(w.auction, w.now);
  }

  lemma MintedStays(w: World, tx: Tx)
    requires w.auction.minted.Some? && Execute(w, tx).Ok?
    ensures Execute(w, tx).value.auction.minted == w.auction.minted
  {
    if tx.MigrateToVesting? {
      LockupWithdrawals.HandOverKeepsMinted(w.auction, Auction.Batch(w.auction));
    }
  }

  // Runs

  ghost predicate EmptiedByMigration(w: World, events: seq<Event>, p: Pool)
    decreases |events|
  {
    events != []
    && (EmptiesByMigration(Later(w, events[0].elapsed), events[0].tx, p) || EmptiedByMigration(Next(w, events[0]), events[1..], p))
  }

  lemma {:induction false} RunStakes(w: World, events: seq<Event>, p: Pool)
    requires Inv(w)
    ensures Run(w, events).pcl.pools.Get(p).isStaked <==> w.pcl.pools.Get(p).isStaked || EmptiedByMigration(w, events, p)
    decreases |events|
  {
    if events != [] {
      TimePasses(w, events[0].elapsed);
      StepStakes(Later(w, events[0].elapsed), events[0].tx, p);
      NextKeeps(w, events[0]);
      RunStakes(Next(w, events[0]), events[1..], p);
    }
  }

  /** In every run a PCL pool is staked if and only if some migration took the last open units out of its XYK pool. */
  lemma StakedByMigration(start: World, events: seq<Event>, p: Pool)
    requires Initial(start)
    ensures Run(start, events).pcl.pools.Get(p).isStaked <==> EmptiedByMigration(start, events, p)
  {
    InitialInv(start);
    RunStakes(start, events, p);
  }

  lemma {:induction false} StaysEmpty(w: World, events: seq<Event>, p: Pool)
    requires Inv(w) && w.auction.minted.Some? && Units(w.xyk, p) == 0
    ensures Units(Run(w, events).xyk, p) == 0 && !EmptiedByMigration(w, events, p)
    decreases |events|
  {
    if events != [] {
      TimePasses(w, events[0].elapsed);
      UnitsShrink(Later(w, events[0].elapsed), events[0].tx, p);
      NextKeeps(w, events[0]);
      StaysEmpty(Next(w, events[0]), events[1..], p);
    }
  }

  /** In every run: once the last units have left an XYK pool after initialisation, by a migration or by a claim with unlock,
      none ever come back, and the PCL pool is and stays staked if and only if it was a migration. */
  lemma LastOneDecides(start: World, events: seq<Event>, e: Event, later: seq<Event>, p: Pool)
    requires Initial(start)
    ensures var w := Run(start, events);
            w.auction.minted.Some? && Emptied(w.xyk, Next(w, e).xyk, p) ==>
              var w' := Run(Next(w, e), later);
              && (e.tx.MigrateLiquidity? || (e.tx.Claim? && e.tx.withdraw))
              && Units(w'.xyk, p) == 0
              && (w'.pcl.pools.Get(p).isStaked <==> e.tx.MigrateLiquidity?)
  {
    TgeTheorems.Reached(start, events);
    var w := Run(start, events);
    if w.auction.minted.Some? && Emptied(w.xyk, Next(w, e).xyk, p) {
      EmptyingDecides(w, e, later, p);
    }
  }

  lemma EmptyingDecides(w: World, e: Event, later: seq<Event>, p: Pool)
    requires Inv(w) && w.auction.minted.Some? && Emptied(w.xyk, Next(w, e).xyk, p)
    ensures var w' := Run(Next(w, e), later);
            && (e.tx.MigrateLiquidity? || (e.tx.Claim? && e.tx.withdraw))
            && Units(w'.xyk, p) == 0
            && (w'.pcl.pools.Get(p).isStaked <==> e.tx.MigrateLiquidity?)
  {
    TimePasses(w, e.elapsed);
    UnitsShrink(Later(w, e.elapsed), e.tx, p);
    StepStakes(Later(w, e.elapsed), e.tx, p);
    NotStakedYet(w, p);
    NextKeeps(w, e);
    StaysEmpty(Next(w, e), later, p);
    RunStakes(Next(w, e), later, p);
  }

  lemma NotStakedYet(w: World, p: Pool)
    requires Inv(w) && Units(w.xyk, p) > 0
    ensures !w.pcl.pools.Get(p).isStaked
  {
    assert StakedOnce(w.xyk.pools.Get(p), w.pcl.pools.Get(p), w.pcl.ledger.stakes.Get(p));
  }

  // What an unstaked pool earns

  /** Nothing was ever received or paid for pool p. */
  ghost predicate Idle(c: Pcl.State, p: Pool) {
    c.pools.Get(p).perShare == [] && forall t :: c.Received(p, t) == 0 && c.Paid(p, t) == 0
  }

  ghost predicate SameRewards(c: Pcl.State, c': Pcl.State, p: Pool) {
    c'.pools.Get(p).perShare == c.pools.Get(p).perShare && forall t :: c'.Received(p, t) == c.Received(p, t) && c'.Paid(p, t) == c.Paid(p, t)
  }

  lemma {:induction false} AccrueElsewhere(c: Pcl.State, q: Pool, rewards: seq<(Pcl.Token, nat)>, p: Pool)
    requires p != q && Pcl.AccrueTokens(c, q, rewards).Ok?
    ensures SameRewards(c, Pcl.AccrueTokens(c, q, rewards).value, p)
    decreases |rewards|
  {
    if rewards != [] {
      AccrueElsewhere(Pcl.AccrueToken(c, q, rewards[0].0, rewards[0].1).value, q, rewards[1..], p);
    }
  }

  lemma {:induction false} PayElsewhere(c: Pcl.State, k: Key, lp: nat, tokens: seq<Pcl.Token>, p: Pool)
    requires p != k.pool && k in c.lockups && Pcl.PayTokens(c, k, lp, tokens).Ok?
    ensures SameRewards(c, Pcl.PayTokens(c, k, lp, tokens).value.0, p)
    decreases |tokens|
  {
    if tokens != [] {
      PayElsewhere(Pcl.PayToken(c, k, lp, tokens[0]).value.0, k, lp, tokens[1..], p);
    }
  }

  lemma UnlockPaysNothing(c: Pcl.State, k: Key, withdraw: bool, tokens: seq<Pcl.Token>, p: Pool)
    requires k in c.lockups && Pcl.WithdrawRewards(c, k, withdraw, tokens).Ok? && (p != k.pool || !c.pools.Get(p).isStaked)
    ensures SameRewards(c, Pcl.WithdrawRewards(c, k, withdraw, tokens).value, p)
  {
    var lp := Pcl.LpShare(c, k.pool, c.lockups[k].units).value;
    if c.pools.Get(k.pool).isStaked {
      PayElsewhere(c, k, lp, tokens, p);
      var c1 := Pcl.PayTokens(c, k, lp, tokens).value.0;
      PclSolvency.PayTokensFrame(c, k, lp, tokens);
      AfterPayments(c1, Pcl.WithdrawRewards(c, k, withdraw, tokens).value, k, lp, withdraw);
    } else {
      AfterPayments(c, Pcl.WithdrawRewards(c, k, withdraw, tokens).value, k, lp, withdraw);
    }
  }

  predicate SameBooks(c: Pcl.State, c': Pcl.State) {
    && c'.ledger.received == c.ledger.received && c'.ledger.paid == c.ledger.paid
    && c'.pools.usdc.perShare == c.pools.usdc.perShare && c'.pools.atom.perShare == c.pools.atom.perShare
  }

  lemma TakeLpKeepsBooks(c: Pcl.State, p: Pool, lp: nat)
    ensures Pcl.Unstake(c, p, lp).Ok? ==> SameBooks(c, Pcl.Unstake(c, p, lp).value)
    ensures Pcl.SendUnstaked(c, p, lp).Ok? ==> SameBooks(c, Pcl.SendUnstaked(c, p, lp).value)
  {
  }

  lemma CloseKeepsBooks(c: Pcl.State, k: Key, lp: nat)
    requires k in c.lockups && Pcl.Close(c, k, lp).Ok?
    ensures SameBooks(c, Pcl.Close(c, k, lp).value)
  {
  }

  lemma OneTimeKeepsBooks(c: Pcl.State, u: Addr)
    ensures SameBooks(c, Pcl.PayOneTime(c, u))
  {
  }

  /** The rest of the callback: the position may be closed, and one-time rewards may be paid. */
  lemma AfterPayments(c: Pcl.State, c': Pcl.State, k: Key, lp: nat, withdraw: bool)
    requires k in c.lockups
    requires if !withdraw then c' == Pcl.PayOneTime(c, k.user)
             else || Pcl.UnlockStaked(c, k, lp) == Ok(c')
                  || (Pcl.SendUnstaked(c, k.pool, lp).Ok? && Pcl.Close(Pcl.SendUnstaked(c, k.pool, lp).value, k, lp).Ok?
                      && c' == Pcl.PayOneTime(Pcl.Close(Pcl.SendUnstaked(c, k.pool, lp).value, k, lp).value, k.user))
    ensures SameBooks(c, c')
  {
    if !withdraw {
      OneTimeKeepsBooks(c, k.user);
    } else {
      TakeLpKeepsBooks(c, k.pool, lp);
      var c1 := if Pcl.UnlockStaked(c, k, lp) == Ok(c') then Pcl.Unstake(c, k.pool, lp).value else Pcl.SendUnstaked(c, k.pool, lp).value;
      CloseKeepsBooks(c1, k, lp);
      OneTimeKeepsBooks(Pcl.Close(c1, k, lp).value, k.user);
    }
  }

  lemma ClaimPaysNothing(c: Pcl.State, now: nat, k: Key, withdraw: bool, rewards: seq<(Pcl.Token, nat)>, tokens: seq<Pcl.Token>, p: Pool)
    requires Pcl.Claim(c, now, k, withdraw, rewards, tokens).Ok? && !c.pools.Get(p).isStaked
    ensures SameRewards(c, Pcl.Claim(c, now, k, withdraw, rewards, tokens).value, p)
  {
    var c1 := Pcl.FinalizeRewards(c, k.user).value;
    var c2 := if c1.pools.Get(k.pool).isStaked then Pcl.Accrue(c1, k.pool, rewards).value else c1;
    if c2 != c1 {
      PclSolvency.AccrueTokensFrame(c1, k.pool, rewards);
      AccrueElsewhere(c1, k.pool, rewards, p);
    }
    assert SameRewards(c, c2, p) && !c2.pools.Get(p).isStaked;
    UnlockPaysNothing(c2, k, withdraw, tokens, p);
  }

  lemma MigrateOneKeepsBooks(x: Xyk.State, c: Pcl.State, k: Key, leg: Leg)
    requires k in x.lockups && MigrateOne(x, c, k, leg).Ok?
    ensures SameBooks(c, MigrateOne(x, c, k, leg).value.1)
  {
    var x1 := Xyk.MigratePosition(x, k, leg.pending).value;
    FinishKeepsBooks(c, k, x1.User(k.user), x1.lockups[k], leg.minted, x1.ledger.staked.Get(k.pool) == 0);
  }

  lemma FinishKeepsBooks(c: Pcl.State, k: Key, user: Xyk.UserInfo, lockup: Xyk.Lockup, minted: nat, stake: bool)
    requires Pcl.FinishMigration(c, k, user, lockup, minted, stake).Ok?
    ensures SameBooks(c, Pcl.FinishMigration(c, k, user, lockup, minted, stake).value)
  {
  }

  lemma {:induction false} MigrationPaysNothing(x: Xyk.State, c: Pcl.State, keys: seq<Key>, legs: map<Key, Leg>)
    requires MigratePositions(x, c, keys, legs).Ok?
    ensures SameBooks(c, MigratePositions(x, c, keys, legs).value.1)
    decreases |keys|
  {
    if keys != [] {
      if Xyk.Open(x.lockups[keys[0]]) {
        var (x1, c1) := MigrateOne(x, c, keys[0], LegOf(legs, keys[0])).value;
        MigrateOneKeepsBooks(x, c, keys[0], LegOf(legs, keys[0]));
        MigrationPaysNothing(x1, c1, keys[1..], legs);
      } else {
        MigrationPaysNothing(x, c, keys[1..], legs);
      }
    }
  }

  lemma StaysIdle(c: Pcl.State, c': Pcl.State, p: Pool)
    requires Idle(c, p) && (SameBooks(c, c') || SameRewards(c, c', p))
    ensures Idle(c', p)
  {
    assert c'.pools.Get(p).perShare == c.pools.Get(p).perShare;
    forall t
      ensures c'.Received(p, t) == 0 && c'.Paid(p, t) == 0
    {
      assert c.Received(p, t) == 0 && c.Paid(p, t) == 0;
    }
  }

  lemma MigrationStaysIdle(w: World, u: Addr, legs: map<Key, Leg>, p: Pool)
    requires Execute(w, MigrateLiquidity(u, legs)).Ok? && Idle(w.pcl, p)
    ensures Idle(Execute(w, MigrateLiquidity(u, legs)).value.pcl, p)
  {
    var x := Xyk.FinalizeRewards(w.xyk, u).value;
    MigrationPaysNothing(x, w.pcl, UserKeys(x.lockups, u), legs);
    StaysIdle(w.pcl, Execute(w, MigrateLiquidity(u, legs)).value.pcl, p);
  }

  lemma StepStaysIdle(w: World, tx: Tx, p: Pool)
    requires Inv(w) && (!w.pcl.pools.Get(p).isStaked ==> Idle(w.pcl, p))
    ensures !Apply(w, tx).pcl.pools.Get(p).isStaked ==> Idle(Apply(w, tx).pcl, p)
  {
    StepStakes(w, tx, p);
    if Execute(w, tx).Ok? && !w.pcl.pools.Get(p).isStaked {
      if tx.MigrateLiquidity? {
        MigrationStaysIdle(w, tx.user, tx.legs, p);
      } else if tx.ClaimPcl? {
        ClaimPaysNothing(w.pcl, w.now, tx.key, tx.withdraw, tx.rewards, tx.tokens, p);
        StaysIdle(w.pcl, Execute(w, tx).value.pcl, p);
      } else {
        MigratedRecords.OthersLeavePcl(w, tx);
      }
    }
  }

  lemma {:induction false} RunStaysIdle(w: World, events: seq<Event>, p: Pool)
    requires Inv(w) && (!w.pcl.pools.Get(p).isStaked ==> Idle(w.pcl, p))
    ensures !Run(w, events).pcl.pools.Get(p).isStaked ==> Idle(Run(w, events).pcl, p)
    decreases |events|
  {
    if events != [] {
      TimePasses(w, events[0].elapsed);
      StepStaysIdle(Later(w, events[0].elapsed), events[0].tx, p);
      NextKeeps(w, events[0]);
      RunStaysIdle(Next(w, events[0]), events[1..], p);
    }
  }

  /** In every run, a PCL pool that is not staked has never received or paid any reward token, whatever its positions. */
  lemma UnstakedEarnsNothing(start: World, events: seq<Event>, p: Pool)
    requires Initial(start)
    ensures !Run(start, events).pcl.pools.Get(p).isStaked ==> Idle(Run(start, events).pcl, p)
  {
    InitialInv(start);
    RunStaysIdle(start, events, p);
  }
}

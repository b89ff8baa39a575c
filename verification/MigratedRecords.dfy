/** Positions carry their terms over from the XYK to the PCL lockdrop. */
module MigratedRecords {
  import opened Basics
  import opened FixedPoint
  import opened Sums
  import opened PositionKeys
  import opened Tge
  import opened TgeInvariant
  import TgeProgress
  import TgeTheorems
  import Xyk = LockdropXyk
  import XykRun = LockdropXykRun
  import Pcl = LockdropPcl
  import PclSolvency = LockdropPclSolvency

  /** A PCL position unlocks when the XYK position would have, and has the same withdrawal flag. */
  predicate Carried(l: Xyk.Lockup, m: Pcl.Lockup) {
    m.unlockTime == l.unlockTime && m.withdrawalFlag == l.withdrawalFlag
  }

  ghost predicate Match(x: Xyk.State, c: Pcl.State) {
    forall k :: k in c.lockups ==> k in x.lockups && Carried(x.lockups[k], c.lockups[k])
  }

  lemma SettledKeepsMatch(x: Xyk.State, x': Xyk.State, c: Pcl.State)
    requires Match(x, c) && XykRun.Settled(x, x')
    ensures Match(x', c)
  {
    forall k | k in c.lockups
      ensures k in x'.lockups && Carried(x'.lockups[k], c.lockups[k])
    {
      assert XykRun.SettledPosition(x.lockups[k], x'.lockups[k]);
    }
  }

  lemma SameRecordsKeepMatch(x: Xyk.State, c: Pcl.State, c': Pcl.State)
    requires Match(x, c) && PclSolvency.SameRecords(c.lockups, c'.lockups) && c'.lockups.Keys == c.lockups.Keys
    ensures Match(x, c')
  {
    forall k | k in c'.lockups
      ensures k in x.lockups && Carried(x.lockups[k], c'.lockups[k])
    {
      assert k in c.lockups && PclSolvency.SameRecord(c.lockups[k], c'.lockups[k]);
    }
  }

  lemma FinishMatches(x: Xyk.State, c: Pcl.State, k: Key, minted: nat, stake: bool)
    requires Match(x, c) && k in x.lockups && Pcl.FinishMigration(c, k, x.User(k.user), x.lockups[k], minted, stake).Ok?
    ensures Match(x, Pcl.FinishMigration(c, k, x.User(k.user), x.lockups[k], minted, stake).value)
  {
  }

  /** In the middle of a migration. */
  ghost predicate Moving(x: Xyk.State, c: Pcl.State, now: nat, u: Addr) {
    Migrating(x, c, now, u) && Match(x, c)
  }

  lemma MigrateOneMatches(x: Xyk.State, c: Pcl.State, now: nat, k: Key, leg: Leg)
    requires Moving(x, c, now, k.user) && k in x.lockups && Xyk.Open(x.lockups[k]) && MigrateOne(x, c, k, leg).Ok?
    ensures Moving(MigrateOne(x, c, k, leg).value.0, MigrateOne(x, c, k, leg).value.1, now, k.user)
  {
    var x1 := Xyk.MigratePosition(x, k, leg.pending).value;
    MigrateOneKeeps(x, c, now, k, leg);
    SettledKeepsMatch(x, x1, c);
    FinishMatches(x1, c, k, leg.minted, x1.ledger.staked.Get(k.pool) == 0);
  }

  lemma {:induction false} MigratePositionsMatch(x: Xyk.State, c: Pcl.State, now: nat, u: Addr, keys: seq<Key>, legs: map<Key, Leg>)
    requires Moving(x, c, now, u) && (forall i :: 0 <= i < |keys| ==> keys[i].user == u)
    requires MigratePositions(x, c, keys, legs).Ok?
    ensures Moving(MigratePositions(x, c, keys, legs).value.0, MigratePositions(x, c, keys, legs).value.1, now, u)
    decreases |keys|
  {
    if keys != [] {
      var (x1, c1) := (x, c);
      if Xyk.Open(x.lockups[keys[0]]) {
        MigrateOneMatches(x, c, now, keys[0], LegOf(legs, keys[0]));
        x1, c1 := MigrateOne(x, c, keys[0], LegOf(legs, keys[0])).value.0, MigrateOne(x, c, keys[0], LegOf(legs, keys[0])).value.1;
      }
      MigratePositionsMatch(x1, c1, now, u, keys[1..], legs);
    }
  }

  lemma MigrateLiquidityMatches(w: World, u: Addr, legs: map<Key, Leg>)
    requires Inv(w) && Match(w.xyk, w.pcl) && Execute(w, MigrateLiquidity(u, legs)).Ok?
    ensures var w' := Execute(w, MigrateLiquidity(u, legs)).value; Match(w'.xyk, w'.pcl)
  {
    var x := Xyk.FinalizeRewards(w.xyk, u).value;
    TgeProgress.ReadyToMigrate(w, u);
    XykRun.FinalizeSettles(w.xyk, u);
    SettledKeepsMatch(w.xyk, x, w.pcl);
    UserKeysComplete(x.lockups, u);
    MigratePositionsMatch(x, w.pcl, w.now, u, UserKeys(x.lockups, u), legs);
  }

  lemma ClaimMatches(w: World, tx: Tx)
    requires Inv(w) && Match(w.xyk, w.pcl) && (tx.Claim? || tx.ClaimPcl?) && Execute(w, tx).Ok?
    ensures var w' := Execute(w, tx).value; Match(w'.xyk, w'.pcl)
  {
    if tx.Claim? {
      XykRun.ClaimKeeps(w.xyk, w.now, tx.key, tx.withdraw, tx.pending);
      SettledKeepsMatch(w.xyk, Execute(w, tx).value.xyk, w.pcl);
    } else {
      PclSolvency.ClaimKeepsRecords(w.pcl, w.now, tx.key, tx.withdraw, tx.rewards, tx.tokens);
      PclSolvency.ClaimFrame(w.pcl, w.now, tx.key, tx.withdraw, tx.rewards, tx.tokens);
      SameRecordsKeepMatch(w.xyk, w.pcl, Execute(w, tx).value.pcl);
    }
  }

  /** Locks change only before initialisation, when the PCL lockdrop is empty. */
  lemma LocksPrecedeMigration(w: World, tx: Tx)
    requires Inv(w) && (tx.LockLp? || tx.WithdrawLp? || tx.InitPool?) && Execute(w, tx).Ok?
    ensures w.pcl.lockups == map[] && Execute(w, tx).value.pcl == w.pcl
  {
    assert w.auction.minted.None?;
  }

  lemma NextMatches(w: World, e: Event)
    requires Inv(w) && Match(w.xyk, w.pcl)
    ensures Match(Next(w, e).xyk, Next(w, e).pcl)
  {
    var l := Later(w, e.elapsed);
    TimePasses(w, e.elapsed);
    if Execute(l, e.tx).Ok? {
      if e.tx.MigrateLiquidity? {
        MigrateLiquidityMatches(l, e.tx.user, e.tx.legs);
      } else if e.tx.Claim? || e.tx.ClaimPcl? {
        ClaimMatches(l, e.tx);
      } else if e.tx.LockLp? || e.tx.WithdrawLp? || e.tx.InitPool? {
        LocksPrecedeMigration(l, e.tx);
      }
    }
  }

  lemma {:induction false} RunMatches(w: World, events: seq<Event>)
    requires Inv(w) && Match(w.xyk, w.pcl)
    ensures Match(Run(w, events).xyk, Run(w, events).pcl)
    decreases |events|
  {
    if events != [] {
      NextMatches(w, events[0]);
      NextKeeps(w, events[0]);
      RunMatches(Next(w, events[0]), events[1..]);
    }
  }

  /** In every run, each position of the PCL lockdrop has the unlock time and the withdrawal flag of the position that it
      comes from. */
  lemma TermsAreCarriedOver(start: World, events: seq<Event>, k: Key)
    requires Initial(start)
    ensures var w := Run(start, events);
            k in w.pcl.lockups ==> k in w.xyk.lockups && Carried(w.xyk.lockups[k], w.pcl.lockups[k])
  {
    InitialInv(start);
    RunMatches(start, events);
  }

  // Weights

  function WeightIn(rewards: seq<Xyk.RewardsInfo>, p: Pool): (Key, Pcl.Lockup) -> int {
    (k: Key, l: Pcl.Lockup) => if k.pool == p then MulFloor(Xyk.Multiplier(rewards, k.duration), l.units) else 0
  }

  /** A pool's accumulated weight is what it was at the start and the weights of its positions. */
  ghost predicate Weighs(c: Pcl.State, p: Pool, base: nat) {
    c.pools.Get(p).weightedAmount == base + Total(c.lockups, WeightIn(c.rewards, p))
  }

  lemma SameRecordsWeigh(c: Pcl.State, c': Pcl.State, p: Pool, base: nat)
    requires Weighs(c, p, base) && c'.lockups.Keys == c.lockups.Keys && PclSolvency.SameRecords(c.lockups, c'.lockups)
    requires c'.rewards == c.rewards && c'.pools.Get(p).weightedAmount == c.pools.Get(p).weightedAmount
    ensures Weighs(c', p, base)
  {
    forall k | k in c.lockups
      ensures WeightIn(c.rewards, p)(k, c.lockups[k]) == WeightIn(c.rewards, p)(k, c'.lockups[k])
    {
      assert PclSolvency.SameRecord(c.lockups[k], c'.lockups[k]);
    }
    TotalSame(c.lockups, WeightIn(c.rewards, p), c'.lockups, WeightIn(c.rewards, p));
  }

  lemma FinishWeighs(c: Pcl.State, k: Key, user: Xyk.UserInfo, lockup: Xyk.Lockup, minted: nat, stake: bool, p: Pool, base: nat)
    requires Weighs(c, p, base) && k !in c.lockups && Pcl.FinishMigration(c, k, user, lockup, minted, stake).Ok?
    ensures Weighs(Pcl.FinishMigration(c, k, user, lockup, minted, stake).value, p, base)
  {
    TotalSet(c.lockups, WeightIn(c.rewards, p), k, Pcl.FromXykLockup(lockup, minted));
  }

  lemma MigrateOneWeighs(x: Xyk.State, c: Pcl.State, k: Key, leg: Leg, p: Pool, base: nat)
    requires Weighs(c, p, base) && k in x.lockups && k !in c.lockups && MigrateOne(x, c, k, leg).Ok?
    ensures Weighs(MigrateOne(x, c, k, leg).value.1, p, base)
  {
    var x1 := Xyk.MigratePosition(x, k, leg.pending).value;
    FinishWeighs(c, k, x1.User(k.user), x1.lockups[k], leg.minted, x1.ledger.staked.Get(k.pool) == 0, p, base);
  }

  lemma {:induction false} MigratePositionsWeigh(x: Xyk.State, c: Pcl.State, now: nat, u: Addr, keys: seq<Key>, legs: map<Key, Leg>, p: Pool, base: nat)
    requires Migrating(x, c, now, u) && Weighs(c, p, base) && (forall i :: 0 <= i < |keys| ==> keys[i].user == u)
    requires MigratePositions(x, c, keys, legs).Ok?
    ensures Weighs(MigratePositions(x, c, keys, legs).value.1, p, base)
    decreases |keys|
  {
    if keys != [] {
      var k := keys[0];
      if Xyk.Open(x.lockups[k]) {
        var (x1, c1) := MigrateOne(x, c, k, LegOf(legs, k)).value;
        MigrateOneKeeps(x, c, now, k, LegOf(legs, k));
        MigrateOneWeighs(x, c, k, LegOf(legs, k), p, base);
        MigratePositionsWeigh(x1, c1, now, u, keys[1..], legs, p, base);
      } else {
        MigratePositionsWeigh(x, c, now, u, keys[1..], legs, p, base);
      }
    }
  }

  lemma CallbackKeepsWeights(c: Pcl.State, k: Key, withdraw: bool, tokens: seq<Pcl.Token>, p: Pool)
    requires k in c.lockups && Pcl.WithdrawRewards(c, k, withdraw, tokens).Ok?
    ensures var c' := Pcl.WithdrawRewards(c, k, withdraw, tokens).value;
            c'.rewards == c.rewards && c'.pools.Get(p).weightedAmount == c.pools.Get(p).weightedAmount
  {
    var lp := Pcl.LpShare(c, k.pool, c.lockups[k].units).value;
    if c.pools.Get(k.pool).isStaked {
      PclSolvency.PayTokensFrame(c, k, lp, tokens);
      PayTokensKeepRewards(c, k, lp, tokens);
    }
  }

  lemma {:induction false} PayTokensKeepRewards(c: Pcl.State, k: Key, lp: nat, tokens: seq<Pcl.Token>)
    requires k in c.lockups && Pcl.PayTokens(c, k, lp, tokens).Ok?
    ensures Pcl.PayTokens(c, k, lp, tokens).value.0.rewards == c.rewards
    decreases |tokens|
  {
    if tokens != [] {
      PayTokensKeepRewards(Pcl.PayToken(c, k, lp, tokens[0]).value.0, k, lp, tokens[1..]);
    }
  }

  lemma {:induction false} AccrueTokensKeepRewards(c: Pcl.State, p: Pool, rewards: seq<(Pcl.Token, nat)>)
    requires Pcl.AccrueTokens(c, p, rewards).Ok?
    ensures Pcl.AccrueTokens(c, p, rewards).value.rewards == c.rewards
    decreases |rewards|
  {
    if rewards != [] {
      AccrueTokensKeepRewards(Pcl.AccrueToken(c, p, rewards[0].0, rewards[0].1).value, p, rewards[1..]);
    }
  }

  lemma ClaimKeepsWeights(c: Pcl.State, now: nat, k: Key, withdraw: bool, rewards: seq<(Pcl.Token, nat)>, tokens: seq<Pcl.Token>, p: Pool)
    requires Pcl.Claim(c, now, k, withdraw, rewards, tokens).Ok?
    ensures var c' := Pcl.Claim(c, now, k, withdraw, rewards, tokens).value;
            c'.rewards == c.rewards && c'.pools.Get(p).weightedAmount == c.pools.Get(p).weightedAmount
  {
    var c1 := Pcl.FinalizeRewards(c, k.user).value;
    var c2 := if c1.pools.Get(k.pool).isStaked then Pcl.Accrue(c1, k.pool, rewards).value else c1;
    if c2 != c1 {
      PclSolvency.AccrueTokensFrame(c1, k.pool, rewards);
      AccrueTokensKeepRewards(c1, k.pool, rewards);
    }
    CallbackKeepsWeights(c2, k, withdraw, tokens, p);
  }

  lemma MigrationWeighs(w: World, u: Addr, legs: map<Key, Leg>, p: Pool, base: nat)
    requires Inv(w) && Weighs(w.pcl, p, base) && Execute(w, MigrateLiquidity(u, legs)).Ok?
    ensures Weighs(Execute(w, MigrateLiquidity(u, legs)).value.pcl, p, base)
  {
    var x := Xyk.FinalizeRewards(w.xyk, u).value;
    TgeProgress.ReadyToMigrate(w, u);
    UserKeysComplete(x.lockups, u);
    MigratePositionsWeigh(x, w.pcl, w.now, u, UserKeys(x.lockups, u), legs, p, base);
  }

  lemma ApplyWeighs(w: World, tx: Tx, p: Pool, base: nat)
    requires Inv(w) && Weighs(w.pcl, p, base)
    ensures Weighs(Apply(w, tx).pcl, p, base)
  {
    if Execute(w, tx).Ok? {
      if tx.MigrateLiquidity? {
        MigrationWeighs(w, tx.user, tx.legs, p, base);
      } else if tx.ClaimPcl? {
        PclSolvency.ClaimKeepsRecords(w.pcl, w.now, tx.key, tx.withdraw, tx.rewards, tx.tokens);
        PclSolvency.ClaimFrame(w.pcl, w.now, tx.key, tx.withdraw, tx.rewards, tx.tokens);
        ClaimKeepsWeights(w.pcl, w.now, tx.key, tx.withdraw, tx.rewards, tx.tokens, p);
        SameRecordsWeigh(w.pcl, Execute(w, tx).value.pcl, p, base);
      } else {
        OthersLeavePcl(w, tx);
      }
    }
  }

  lemma OthersLeavePcl(w: World, tx: Tx)
    requires Execute(w, tx).Ok? && !tx.MigrateLiquidity? && !tx.ClaimPcl?
    ensures Execute(w, tx).value.pcl == w.pcl
  {
  }

  lemma {:induction false} RunWeighs(w: World, events: seq<Event>, p: Pool, base: nat)
    requires Inv(w) && Weighs(w.pcl, p, base)
    ensures Weighs(Run(w, events).pcl, p, base)
    decreases |events|
  {
    if events != [] {
      TimePasses(w, events[0].elapsed);
      ApplyWeighs(Later(w, events[0].elapsed), events[0].tx, p, base);
      NextKeeps(w, events[0]);
      RunWeighs(Next(w, events[0]), events[1..], p, base);
    }
  }

  /** In every run the accumulated weight of a PCL pool has risen by the sum of the weights of its positions, open and closed,
      each as its duration weighs in the PCL lockdrop. */
  lemma WeightsAddUp(start: World, events: seq<Event>, p: Pool)
    requires Initial(start)
    ensures Weighs(Run(start, events).pcl, p, start.pcl.pools.Get(p).weightedAmount)
  {
    InitialInv(start);
    RunWeighs(start, events, p, start.pcl.pools.Get(p).weightedAmount);
  }

  // Units

  /** The LP tokens that the PCL pair mints for a position. */
  function Minted(legs: map<Key, Leg>, k: Key): nat {
    if k in legs then legs[k].minted else 0
  }

  predicate Arrived(c: Pcl.State, legs: map<Key, Leg>, k: Key) {
    k in c.lockups && c.lockups[k].units == Minted(legs, k)
  }

  lemma OneArrives(x: Xyk.State, c: Pcl.State, k: Key, legs: map<Key, Leg>)
    requires k in x.lockups && MigrateOne(x, c, k, LegOf(legs, k)).Ok?
    ensures Arrived(MigrateOne(x, c, k, LegOf(legs, k)).value.1, legs, k)
  {
  }

  lemma SameRecordsArrived(c: Pcl.State, c': Pcl.State, legs: map<Key, Leg>, k: Key)
    requires Arrived(c, legs, k) && PclSolvency.SameRecords(c.lockups, c'.lockups)
    ensures Arrived(c', legs, k)
  {
    assert PclSolvency.SameRecord(c.lockups[k], c'.lockups[k]);
  }

  lemma FirstArrives(x: Xyk.State, c: Pcl.State, now: nat, u: Addr, keys: seq<Key>, legs: map<Key, Leg>)
    requires Migrating(x, c, now, u) && TgeProgress.Listed(x.lockups, u, keys) && keys != [] && keys[0] in x.lockups && Xyk.Open(x.lockups[keys[0]])
    requires MigratePositions(x, c, keys, legs).Ok?
    ensures Arrived(MigratePositions(x, c, keys, legs).value.1, legs, keys[0])
  {
    TgeProgress.ListedRest(x.lockups, u, keys);
    var (x1, c1) := MigrateOne(x, c, keys[0], LegOf(legs, keys[0])).value;
    TgeProgress.StepSucceeds(x, c, now, keys[0], LegOf(legs, keys[0]));
    TgeProgress.ListedAfter(x.lockups, x1.lockups, u, keys);
    OneArrives(x, c, keys[0], legs);
    UsersAre(x1.lockups, u, keys[1..]);
    TgeTheorems.MigratePositionsLast(x1, c1, now, u, keys[1..], legs);
    SameRecordsArrived(c1, MigratePositions(x1, c1, keys[1..], legs).value.1, legs, keys[0]);
  }

  lemma UsersAre(m: map<Key, Xyk.Lockup>, u: Addr, keys: seq<Key>)
    requires TgeProgress.Listed(m, u, keys)
    ensures forall i :: 0 <= i < |keys| ==> keys[i].user == u
  {
    forall i | 0 <= i < |keys|
      ensures keys[i].user == u
    {
      assert keys[i] in keys;
    }
  }

  lemma {:induction false} PositionsArrive(x: Xyk.State, c: Pcl.State, now: nat, u: Addr, keys: seq<Key>, legs: map<Key, Leg>, k: Key)
    requires Migrating(x, c, now, u) && TgeProgress.Listed(x.lockups, u, keys) && k in keys && k in x.lockups && Xyk.Open(x.lockups[k])
    requires MigratePositions(x, c, keys, legs).Ok?
    ensures Arrived(MigratePositions(x, c, keys, legs).value.1, legs, k)
    decreases |keys|
  {
    TgeProgress.ListedRest(x.lockups, u, keys);
    if k == keys[0] {
      FirstArrives(x, c, now, u, keys, legs);
    } else if Xyk.Open(x.lockups[keys[0]]) {
      var (x1, c1) := MigrateOne(x, c, keys[0], LegOf(legs, keys[0])).value;
      TgeProgress.StepSucceeds(x, c, now, keys[0], LegOf(legs, keys[0]));
      TgeProgress.ListedAfter(x.lockups, x1.lockups, u, keys);
      assert k in keys[1..];
      PositionsArrive(x1, c1, now, u, keys[1..], legs, k);
    } else {
      assert k in keys[1..];
      PositionsArrive(x, c, now, u, keys[1..], legs, k);
    }
  }

  /** In every run, a migration of user u records each open position in the PCL lockdrop with just the LP tokens that the PCL
      pair minted for it. */
  lemma MigrationBringsMinted(start: World, events: seq<Event>, u: Addr, legs: map<Key, Leg>, k: Key)
    requires Initial(start) && Execute(Run(start, events), MigrateLiquidity(u, legs)).Ok?
    requires var x := Run(start, events).xyk; k.user == u && k in x.lockups && Xyk.Open(x.lockups[k])
    ensures var c' := Execute(Run(start, events), MigrateLiquidity(u, legs)).value.pcl;
            k in c'.lockups && c'.lockups[k].units == if k in legs then legs[k].minted else 0
  {
    TgeTheorems.Reached(start, events);
    MigrationArrives(Run(start, events), u, legs, k);
  }

  lemma MigrationArrives(w: World, u: Addr, legs: map<Key, Leg>, k: Key)
    requires Inv(w) && Execute(w, MigrateLiquidity(u, legs)).Ok? && k.user == u && k in w.xyk.lockups && Xyk.Open(w.xyk.lockups[k])
    ensures Arrived(Execute(w, MigrateLiquidity(u, legs)).value.pcl, legs, k)
  {
    var x := Xyk.FinalizeRewards(w.xyk, u).value;
    TgeProgress.ReadyToMigrate(w, u);
    TgeProgress.MigrationSteps(w, u, legs);
    OpenStays(w.xyk, u, k);
    UserKeysComplete(x.lockups, u);
    PositionsArrive(x, w.pcl, w.now, u, UserKeys(x.lockups, u), legs, k);
  }

  lemma OpenStays(x: Xyk.State, u: Addr, k: Key)
    requires Xyk.FinalizeRewards(x, u).Ok? && k in x.lockups && Xyk.Open(x.lockups[k])
    ensures var x' := Xyk.FinalizeRewards(x, u).value; k in x'.lockups && Xyk.Open(x'.lockups[k])
  {
  }
}

/** Positions without units: they are accepted, and once their pool has no open units they can never leave it, nor can their
    user migrate any other position. */
module TgeBlocked {
  import opened Basics
  import opened Tge
  import opened TgeInvariant
  import opened TgeProgress
  import opened TgeStaking
  import opened PositionKeys
  import Progress = LockdropXykProgress
  import TgeTheorems
  import Xyk = LockdropXyk
  import Pcl = LockdropPcl
  import MigrationRefinement

  /** After initialisation, position k is open in a pool without open units. */
  predicate Stuck(w: World, k: Key) {
    w.auction.minted.Some? && k in w.xyk.lockups && Xyk.Open(w.xyk.lockups[k]) && Units(w.xyk, k.pool) == 0
  }

  lemma StuckIsEmpty(w: World, k: Key)
    requires Inv(w) && Stuck(w, k)
    ensures w.xyk.lockups[k].units == 0
  {
    XykSound(w.xyk, w.now, k.pool);
    Progress.UnitsAreThere(w.xyk, k);
  }

  lemma {:induction false} AllLeaveNeedsUnits(m: map<Key, Xyk.Lockup>, rewards: seq<Xyk.RewardsInfo>, books: PerPool<Book>,
                                              keys: seq<Key>, legs: map<Key, Leg>, k: Key)
    requires AllLeave(m, rewards, books, keys, legs) && k in keys && k in m && Xyk.Open(m[k])
    ensures books.Get(k.pool).open > 0
    decreases |keys|
  {
    if keys[0] != k {
      assert k in keys[1..];
      if Xyk.Open(m[keys[0]]) {
        var b := Leave(books.Get(keys[0].pool), rewards, keys[0].duration, m[keys[0]].units, LegOf(legs, keys[0])).value;
        AllLeaveNeedsUnits(m, rewards, books.Set(keys[0].pool, b), keys[1..], legs, k);
      } else {
        AllLeaveNeedsUnits(m, rewards, books, keys[1..], legs, k);
      }
    }
  }

  lemma StuckFails(w: World, k: Key, withdraw: bool, pending: Option<nat>, legs: map<Key, Leg>)
    requires Inv(w) && Stuck(w, k)
    ensures Execute(w, Claim(k, withdraw, pending)).Err? && Execute(w, MigrateLiquidity(k.user, legs)).Err?
  {
    ClaimInState(w, k, withdraw, pending);
    MigrationInState(w, k.user, legs);
    var keys := UserKeys(w.xyk.lockups, k.user);
    UserKeysComplete(w.xyk.lockups, k.user);
    assert k in keys && Books(w.xyk, w.pcl, k.user).Get(k.pool).open == 0;
    if AllLeave(w.xyk.lockups, w.pcl.rewards, Books(w.xyk, w.pcl, k.user), keys, legs) {
      AllLeaveNeedsUnits(w.xyk.lockups, w.pcl.rewards, Books(w.xyk, w.pcl, k.user), keys, legs, k);
    }
  }

  // Nobody else can close it

  predicate StillOpen(x: Xyk.State, x': Xyk.State, j: Key) {
    j in x.lockups && Xyk.Open(x.lockups[j]) ==> j in x'.lockups && Xyk.Open(x'.lockups[j])
  }

  lemma ClaimClosesOne(x: Xyk.State, now: nat, k: Key, withdraw: bool, pending: Option<nat>, j: Key)
    requires Xyk.Claim(x, now, k, withdraw, pending).Ok? && j != k
    ensures StillOpen(x, Xyk.Claim(x, now, k, withdraw, pending).value, j)
  {
    var x1 := Xyk.FinalizeRewards(x, k.user).value;
    var x2 := if x1.pools.Get(k.pool).isStaked then Xyk.Accrue(x1, k.pool, pending).value else x1;
    assert StillOpen(x, x2, j);
    CallbackClosesOne(x2, k, withdraw, j);
  }

  lemma CallbackClosesOne(x: Xyk.State, k: Key, withdraw: bool, j: Key)
    requires k in x.lockups && Xyk.WithdrawRewards(x, k, withdraw).Ok? && j != k
    ensures StillOpen(x, Xyk.WithdrawRewards(x, k, withdraw).value, j)
  {
  }

  lemma {:induction false} MigrationClosesOwn(x: Xyk.State, c: Pcl.State, keys: seq<Key>, legs: map<Key, Leg>, j: Key)
    requires MigratePositions(x, c, keys, legs).Ok? && j !in keys
    ensures StillOpen(x, MigratePositions(x, c, keys, legs).value.0, j)
    decreases |keys|
  {
    if keys != [] {
      assert keys[0] in keys;
      assert forall i :: i in keys[1..] ==> i in keys;
      if Xyk.Open(x.lockups[keys[0]]) {
        var (x1, c1) := MigrateOne(x, c, keys[0], LegOf(legs, keys[0])).value;
        MigrationRefinement.MigrateLeaves(x, keys[0], LegOf(legs, keys[0]).pending);
        MigrationClosesOwn(x1, c1, keys[1..], legs, j);
      } else {
        MigrationClosesOwn(x, c, keys[1..], legs, j);
      }
    }
  }

  lemma OthersMigrate(w: World, u: Addr, legs: map<Key, Leg>, j: Key)
    requires Execute(w, MigrateLiquidity(u, legs)).Ok? && j.user != u
    ensures StillOpen(w.xyk, Execute(w, MigrateLiquidity(u, legs)).value.xyk, j)
  {
    var x := Xyk.FinalizeRewards(w.xyk, u).value;
    NotTheirs(x.lockups, u, j);
    FinalizeKeepsOpen(w.xyk, u, j);
    MigrationClosesOwn(x, w.pcl, UserKeys(x.lockups, u), legs, j);
  }

  lemma NotTheirs(m: map<Key, Xyk.Lockup>, u: Addr, j: Key)
    requires j.user != u
    ensures j !in UserKeys(m, u)
  {
    UserKeysComplete(m, u);
  }

  lemma FinalizeKeepsOpen(x: Xyk.State, u: Addr, j: Key)
    requires Xyk.FinalizeRewards(x, u).Ok?
    ensures StillOpen(x, Xyk.FinalizeRewards(x, u).value, j)
  {
  }

  lemma OtherTransactions(w: World, tx: Tx, j: Key)
    requires Inv(w) && w.auction.minted.Some? && Execute(w, tx).Ok? && !tx.Claim? && !tx.MigrateLiquidity?
    ensures StillOpen(w.xyk, Execute(w, tx).value.xyk, j)
  {
    LocksAreOver(w.auction, w.now);
  }

  lemma StepStaysStuck(w: World, tx: Tx, k: Key)
    requires Inv(w) && Stuck(w, k)
    ensures Stuck(Apply(w, tx), k)
  {
    UnitsShrink(w, tx, k.pool);
    if Execute(w, tx).Ok? {
      StuckFails(w, k, if tx.Claim? then tx.withdraw else false, if tx.Claim? then tx.pending else None,
                 if tx.MigrateLiquidity? then tx.legs else map[]);
      if tx.Claim? {
        ClaimClosesOne(w.xyk, w.now, tx.key, tx.withdraw, tx.pending, k);
      } else if tx.MigrateLiquidity? {
        OthersMigrate(w, tx.user, tx.legs, k);
      } else {
        OtherTransactions(w, tx, k);
      }
    }
  }

  lemma {:induction false} RunStaysStuck(w: World, events: seq<Event>, k: Key)
    requires Inv(w) && Stuck(w, k)
    ensures Stuck(Run(w, events), k) && Inv(Run(w, events))
    decreases |events|
  {
    if events != [] {
      TimePasses(w, events[0].elapsed);
      StepStaysStuck(Later(w, events[0].elapsed), events[0].tx, k);
      NextKeeps(w, events[0]);
      RunStaysStuck(Next(w, events[0]), events[1..], k);
    }
  }

  /** In every run: a position that is open after initialisation in a pool without open units has no units, and for ever
      after neither a claim for it nor a migration of its user succeeds. */
  lemma BlockedForEver(start: World, events: seq<Event>, later: seq<Event>, k: Key, withdraw: bool, pending: Option<nat>, legs: map<Key, Leg>)
    requires Initial(start)
    ensures var w, w' := Run(start, events), Run(Run(start, events), later);
            Stuck(w, k) ==>
              && w.xyk.lockups[k].units == 0 && Stuck(w', k)
              && Execute(w', Claim(k, withdraw, pending)).Err? && Execute(w', MigrateLiquidity(k.user, legs)).Err?
  {
    TgeTheorems.Reached(start, events);
    var w := Run(start, events);
    if Stuck(w, k) {
      StuckIsEmpty(w, k);
      RunStaysStuck(w, later, k);
      StuckFails(Run(w, later), k, withdraw, pending, legs);
    }
  }
}

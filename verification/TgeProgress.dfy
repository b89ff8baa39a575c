/** When claims and migrations succeed in runs, and what can block a user for ever. */
module TgeProgress {
  import opened Basics
  import opened FixedPoint
  import opened Tge
  import opened TgeInvariant
  import opened PositionKeys
  import opened Progress = LockdropXykProgress
  import TgeTheorems
  import Xyk = LockdropXyk
  import XykSolvency = LockdropXykSolvency
  import XykRun = LockdropXykRun
  import Pcl = LockdropPcl

  // Claims

  /** In every run a claim succeeds exactly if claims have started, the user's one-time rewards are recorded or can be, and
      the position is open, out of its lock if it is to be unlocked, in a pool with open units, with amounts that fit into
      128 bits, and with something to pay. Nothing else can go wrong. */
  lemma ClaimSucceeds(start: World, events: seq<Event>, k: Key, withdraw: bool, pending: Option<nat>)
    requires Initial(start)
    ensures var w := Run(start, events);
            Execute(w, Claim(k, withdraw, pending)).Ok? <==>
              Started(w) && Recordable(w.xyk, k.user) && CanClaim(w.xyk, w.now, k, withdraw, pending)
  {
    TgeTheorems.Reached(start, events);
    ClaimInState(Run(start, events), k, withdraw, pending);
  }

  lemma ClaimInState(w: World, k: Key, withdraw: bool, pending: Option<nat>)
    requires Inv(w)
    ensures Execute(w, Claim(k, withdraw, pending)).Ok? <==>
              Started(w) && Recordable(w.xyk, k.user) && CanClaim(w.xyk, w.now, k, withdraw, pending)
  {
    if Started(w) {
      XykSound(w.xyk, w.now, k.pool);
      Progress.ClaimSucceeds(w.xyk, w.now, k, withdraw, pending);
    }
  }

  lemma XykSound(x: Xyk.State, now: nat, p: Pool)
    requires XykRun.XykInv(x, true, now)
    ensures XykSolvency.PoolInv(x, p) && XykSolvency.UserTotalsInv(x) && XykRun.Initialised(x.pools.Get(p))
  {
  }

  // Migrations

  /** All that decides whether a user's positions can leave a pool one after the other: its open units and reward per
      share, and in the PCL lockdrop the totals of the pool and of the user. */
  datatype Book = Book(open: nat, perShare: nat, locked: nat, total: nat)

  function BookOf(x: Xyk.State, c: Pcl.State, u: Addr, p: Pool): Book {
    Book(x.pools.Get(p).amountInLockups, x.pools.Get(p).perShare, c.pools.Get(p).amountInLockups, c.UserTotal(p, u))
  }

  function Books(x: Xyk.State, c: Pcl.State, u: Addr): PerPool<Book> {
    PerPool(BookOf(x, c, u, USDC), BookOf(x, c, u, ATOM))
  }

  /** The PCL lockdrop offers the duration, and the weight fits into 128 bits. */
  predicate Weighable(rewards: seq<Xyk.RewardsInfo>, minted: nat, duration: nat) {
    (exists i :: 0 <= i < |rewards| && rewards[i].duration == duration) && MulFloor(Xyk.Multiplier(rewards, duration), minted) <= U128_MAX
  }

  lemma {:induction false} OfferedHasWeight(rewards: seq<Xyk.RewardsInfo>, duration: nat)
    ensures Xyk.Multiplier(rewards, duration) > 0 <==> exists i :: 0 <= i < |rewards| && rewards[i].duration == duration
  {
    if rewards != [] && rewards[0].duration != duration {
      OfferedHasWeight(rewards[1..], duration);
      if i :| 0 <= i < |rewards| && rewards[i].duration == duration {
        assert rewards[1..][i - 1].duration == duration;
      }
      if i :| 0 <= i < |rewards[1..]| && rewards[1..][i].duration == duration {
        assert rewards[i + 1].duration == duration;
      }
    }
  }

  lemma WeightAccepted(rewards: seq<Xyk.RewardsInfo>, minted: nat, duration: nat)
    ensures Pcl.CheckedWeight(rewards, minted, duration).Ok? <==> Weighable(rewards, minted, duration)
  {
    OfferedHasWeight(rewards, duration);
  }

  /** The book after a position with the given units has left. */
  function Leave(b: Book, rewards: seq<Xyk.RewardsInfo>, duration: nat, units: nat, leg: Leg): Result<Book> {
    if b.open == 0 then Err(DivideByZero)
    else
      var perShare :- PerShareAfter(b.perShare, b.open, leg.pending);
      if !Fits(perShare, units) then Err(Overflow)
      else
        var _ :- if Weighable(rewards, leg.minted, duration) then Ok(()) else Err(InvalidDuration);
        var locked :- Checked(b.locked + leg.minted);
        var total :- Checked(b.total + leg.minted);
        Ok(Book(b.open - Min(units, b.open), perShare, locked, total))
  }

  /** The listed positions can leave one after the other; closed ones are skipped. */
  predicate AllLeave(m: map<Key, Xyk.Lockup>, rewards: seq<Xyk.RewardsInfo>, books: PerPool<Book>, keys: seq<Key>, legs: map<Key, Leg>)
    decreases |keys|
  {
    keys == []
    || (&& keys[0] in m
        && if !Xyk.Open(m[keys[0]]) then AllLeave(m, rewards, books, keys[1..], legs)
           else
             var b := Leave(books.Get(keys[0].pool), rewards, keys[0].duration, m[keys[0]].units, LegOf(legs, keys[0]));
             b.Ok? && AllLeave(m, rewards, books.Set(keys[0].pool, b.value), keys[1..], legs))
  }

  lemma MigrateOneSucceeds(x: Xyk.State, c: Pcl.State, now: nat, k: Key, leg: Leg)
    requires XykRun.XykInv(x, true, now) && k in x.lockups && Xyk.Open(x.lockups[k])
    ensures var r, b := MigrateOne(x, c, k, leg), Leave(BookOf(x, c, k.user, k.pool), c.rewards, k.duration, x.lockups[k].units, leg);
            && (r.Ok? <==> b.Ok?)
            && (r.Ok? ==>
                  var (x', c') := r.value;
                  && Books(x', c', k.user) == Books(x, c, k.user).Set(k.pool, b.value)
                  && c'.rewards == c.rewards
                  && x'.lockups == x.lockups[k := x.lockups[k].(transferred := Some(x.lockups[k].units))])
  {
    XykSound(x, now, k.pool);
    MigrateSucceeds(x, k, leg.pending);
    if CanLeave(x, k, leg.pending) {
      var x1 := Xyk.MigratePosition(x, k, leg.pending).value;
      var last := x1.ledger.staked.Get(k.pool) == 0;
      FinishSucceeds(c, k, x1.User(k.user), x1.lockups[k], leg.minted, last);
      var c1 := Pcl.FinishMigration(c, k, x1.User(k.user), x1.lockups[k], leg.minted, last);
      if c1.Ok? {
        BooksAfter(x, x1, c, c1.value, k, leg);
      }
    }
  }

  lemma BooksAfter(x: Xyk.State, x1: Xyk.State, c: Pcl.State, c1: Pcl.State, k: Key, leg: Leg)
    requires k in x.lockups && CanLeave(x, k, leg.pending) && x.lockups[k].units <= x.pools.Get(k.pool).amountInLockups
    requires var pool := x.pools.Get(k.pool);
             x1.pools == x.pools.Set(k.pool, pool.(perShare := PerShareAfter(pool.perShare, pool.amountInLockups, leg.pending).value,
                                                   amountInLockups := pool.amountInLockups - x.lockups[k].units))
    requires Weighable(c.rewards, leg.minted, k.duration)
    requires c.pools.Get(k.pool).amountInLockups + leg.minted <= U128_MAX && c.UserTotal(k.pool, k.user) + leg.minted <= U128_MAX
    requires forall p :: c1.pools.Get(p).amountInLockups == c.pools.Get(p).amountInLockups + if p == k.pool then leg.minted else 0
    requires forall p :: c1.UserTotal(p, k.user) == c.UserTotal(p, k.user) + if p == k.pool then leg.minted else 0
    ensures var b := Leave(BookOf(x, c, k.user, k.pool), c.rewards, k.duration, x.lockups[k].units, leg);
            b.Ok? && Books(x1, c1, k.user) == Books(x, c, k.user).Set(k.pool, b.value)
  {
    var b := Leave(BookOf(x, c, k.user, k.pool), c.rewards, k.duration, x.lockups[k].units, leg);
    var other := if k.pool == USDC then ATOM else USDC;
    assert BookOf(x1, c1, k.user, k.pool) == b.value;
    assert BookOf(x1, c1, k.user, other) == BookOf(x, c, k.user, other);
  }

  lemma FinishSucceeds(c: Pcl.State, k: Key, user: Xyk.UserInfo, lockup: Xyk.Lockup, minted: nat, stake: bool)
    ensures var r := Pcl.FinishMigration(c, k, user, lockup, minted, stake);
            && (r.Ok? <==> && Weighable(c.rewards, minted, k.duration)
                           && c.pools.Get(k.pool).amountInLockups + minted <= U128_MAX && c.UserTotal(k.pool, k.user) + minted <= U128_MAX)
            && (r.Ok? ==>
                  var c' := r.value;
                  && c'.rewards == c.rewards
                  && (forall p :: c'.pools.Get(p).amountInLockups == c.pools.Get(p).amountInLockups + if p == k.pool then minted else 0)
                  && (forall p :: c'.UserTotal(p, k.user) == c.UserTotal(p, k.user) + if p == k.pool then minted else 0))
  {
    WeightAccepted(c.rewards, minted, k.duration);
  }

  /** Only units and openness of the listed positions matter. */
  lemma {:induction false} AllLeaveSame(m: map<Key, Xyk.Lockup>, n: map<Key, Xyk.Lockup>, rewards: seq<Xyk.RewardsInfo>, books: PerPool<Book>,
                                        keys: seq<Key>, legs: map<Key, Leg>)
    requires forall k :: k in keys ==> k in m && k in n && m[k].units == n[k].units && m[k].transferred == n[k].transferred
    ensures AllLeave(m, rewards, books, keys, legs) <==> AllLeave(n, rewards, books, keys, legs)
    decreases |keys|
  {
    if keys != [] {
      var k := keys[0];
      var b := Leave(books.Get(k.pool), rewards, k.duration, m[k].units, LegOf(legs, k));
      assert forall j :: j in keys[1..] ==> j in keys;
      AllLeaveSame(m, n, rewards, books, keys[1..], legs);
      if b.Ok? {
        AllLeaveSame(m, n, rewards, books.Set(k.pool, b.value), keys[1..], legs);
      }
    }
  }

  lemma StepSucceeds(x: Xyk.State, c: Pcl.State, now: nat, k: Key, leg: Leg)
    requires Migrating(x, c, now, k.user) && k in x.lockups && Xyk.Open(x.lockups[k])
    ensures var r, b := MigrateOne(x, c, k, leg), Leave(BookOf(x, c, k.user, k.pool), c.rewards, k.duration, x.lockups[k].units, leg);
            && (r.Ok? <==> b.Ok?)
            && (r.Ok? ==>
                  var (x', c') := r.value;
                  && Migrating(x', c', now, k.user)
                  && Books(x', c', k.user) == Books(x, c, k.user).Set(k.pool, b.value)
                  && c'.rewards == c.rewards
                  && OthersSame(x.lockups, x'.lockups, k))
  {
    MigrateOneSucceeds(x, c, now, k, leg);
    if MigrateOne(x, c, k, leg).Ok? {
      MigrateOneKeeps(x, c, now, k, leg);
    }
  }

  /** The migration of the listed positions succeeds exactly if they can leave. */
  predicate Exact(x: Xyk.State, c: Pcl.State, u: Addr, keys: seq<Key>, legs: map<Key, Leg>) {
    MigratePositions(x, c, keys, legs).Ok? <==> AllLeave(x.lockups, c.rewards, Books(x, c, u), keys, legs)
  }

  /** Positions of u, each listed once. */
  ghost predicate Listed(m: map<Key, Xyk.Lockup>, u: Addr, keys: seq<Key>) {
    (forall k :: k in keys ==> k in m && k.user == u) && forall i, j :: 0 <= i < j < |keys| ==> keys[i] != keys[j]
  }

  lemma ListedRest(m: map<Key, Xyk.Lockup>, u: Addr, keys: seq<Key>)
    requires Listed(m, u, keys) && keys != []
    ensures Listed(m, u, keys[1..]) && keys[0] in m && keys[0].user == u
  {
    assert keys[0] in keys;
    assert forall j :: j in keys[1..] ==> j in keys;
  }

  lemma ListedAfter(m: map<Key, Xyk.Lockup>, n: map<Key, Xyk.Lockup>, u: Addr, keys: seq<Key>)
    requires Listed(m, u, keys) && keys != [] && OthersSame(m, n, keys[0])
    ensures Listed(n, u, keys[1..]) && forall j :: j in keys[1..] ==> j in m && j in n && n[j] == m[j]
  {
    forall j | j in keys[1..]
      ensures j in m && j in n && n[j] == m[j] && j.user == u
    {
      var i :| 0 <= i < |keys[1..]| && keys[1..][i] == j;
      assert keys[i + 1] == j && j in keys;
    }
  }

  ghost predicate OthersSame(m: map<Key, Xyk.Lockup>, n: map<Key, Xyk.Lockup>, k: Key) {
    forall j :: j in m && j != k ==> j in n && n[j] == m[j]
  }

  lemma {:induction false} MigratePositionsSucceed(x: Xyk.State, c: Pcl.State, now: nat, u: Addr, keys: seq<Key>, legs: map<Key, Leg>)
    requires Migrating(x, c, now, u) && Listed(x.lockups, u, keys)
    ensures Exact(x, c, u, keys, legs)
    decreases |keys|
  {
    if keys != [] {
      var k := keys[0];
      ListedRest(x.lockups, u, keys);
      if Xyk.Open(x.lockups[k]) {
        StepSucceeds(x, c, now, k, LegOf(legs, k));
        if MigrateOne(x, c, k, LegOf(legs, k)).Ok? {
          var (x1, c1) := MigrateOne(x, c, k, LegOf(legs, k)).value;
          ListedAfter(x.lockups, x1.lockups, u, keys);
          MigratePositionsSucceed(x1, c1, now, u, keys[1..], legs);
          RestSucceeds(x, c, x1, c1, u, keys, legs);
        } else {
          FirstFails(x, c, u, keys, legs);
        }
      } else {
        MigratePositionsSucceed(x, c, now, u, keys[1..], legs);
        FirstIsSkipped(x, c, u, keys, legs);
      }
    }
  }

  lemma FirstIsSkipped(x: Xyk.State, c: Pcl.State, u: Addr, keys: seq<Key>, legs: map<Key, Leg>)
    requires keys != [] && keys[0] in x.lockups && !Xyk.Open(x.lockups[keys[0]]) && Exact(x, c, u, keys[1..], legs)
    ensures Exact(x, c, u, keys, legs)
  {
  }

  lemma RestSucceeds(x: Xyk.State, c: Pcl.State, x1: Xyk.State, c1: Pcl.State, u: Addr, keys: seq<Key>, legs: map<Key, Leg>)
    requires keys != [] && keys[0] in x.lockups && Xyk.Open(x.lockups[keys[0]]) && MigrateOne(x, c, keys[0], LegOf(legs, keys[0])) == Ok((x1, c1))
    requires forall j :: j in keys[1..] ==> j in x.lockups && j in x1.lockups && x1.lockups[j] == x.lockups[j]
    requires var b := Leave(Books(x, c, u).Get(keys[0].pool), c.rewards, keys[0].duration, x.lockups[keys[0]].units, LegOf(legs, keys[0]));
             b.Ok? && Books(x1, c1, u) == Books(x, c, u).Set(keys[0].pool, b.value) && c1.rewards == c.rewards
    requires Exact(x1, c1, u, keys[1..], legs)
    ensures Exact(x, c, u, keys, legs)
  {
    AllLeaveSame(x.lockups, x1.lockups, c.rewards, Books(x1, c1, u), keys[1..], legs);
  }

  lemma FirstFails(x: Xyk.State, c: Pcl.State, u: Addr, keys: seq<Key>, legs: map<Key, Leg>)
    requires keys != [] && keys[0] in x.lockups && Xyk.Open(x.lockups[keys[0]]) && MigrateOne(x, c, keys[0], LegOf(legs, keys[0])).Err?
    requires Leave(Books(x, c, u).Get(keys[0].pool), c.rewards, keys[0].duration, x.lockups[keys[0]].units, LegOf(legs, keys[0])).Err?
    ensures Exact(x, c, u, keys, legs)
  {
  }

  /** In every run a user's migration succeeds exactly if claims have started, the user's one-time rewards are recorded or
      can be, and the user's open positions can leave their pools in the order of storage: each finds open units in its
      pool, has a duration that the PCL lockdrop offers, and amounts that fit into 128 bits. */
  lemma MigrationSucceeds(start: World, events: seq<Event>, u: Addr, legs: map<Key, Leg>)
    requires Initial(start)
    ensures var w := Run(start, events);
            Execute(w, MigrateLiquidity(u, legs)).Ok? <==>
              && Started(w) && Recordable(w.xyk, u)
              && AllLeave(w.xyk.lockups, w.pcl.rewards, Books(w.xyk, w.pcl, u), UserKeys(w.xyk.lockups, u), legs)
  {
    TgeTheorems.Reached(start, events);
    MigrationInState(Run(start, events), u, legs);
  }

  lemma MigrationInState(w: World, u: Addr, legs: map<Key, Leg>)
    requires Inv(w)
    ensures Execute(w, MigrateLiquidity(u, legs)).Ok? <==>
              && Started(w) && Recordable(w.xyk, u)
              && AllLeave(w.xyk.lockups, w.pcl.rewards, Books(w.xyk, w.pcl, u), UserKeys(w.xyk.lockups, u), legs)
  {
    FinalizeSucceeds(w.xyk, u);
    MigrationSteps(w, u, legs);
    if Started(w) && Recordable(w.xyk, u) {
      ReadyToMigrate(w, u);
      FinalizedMigrates(w.xyk, Xyk.FinalizeRewards(w.xyk, u).value, w.pcl, w.now, u, legs);
    }
  }

  lemma MigrationSteps(w: World, u: Addr, legs: map<Key, Leg>)
    ensures var f := Xyk.FinalizeRewards(w.xyk, u);
            Execute(w, MigrateLiquidity(u, legs)).Ok? <==>
              Started(w) && f.Ok? && MigratePositions(f.value, w.pcl, UserKeys(f.value.lockups, u), legs).Ok?
  {
  }

  lemma ReadyToMigrate(w: World, u: Addr)
    requires Inv(w) && Started(w) && Xyk.FinalizeRewards(w.xyk, u).Ok?
    ensures Migrating(Xyk.FinalizeRewards(w.xyk, u).value, w.pcl, w.now, u)
  {
    XykRun.FinalizeKeeps(w.xyk, w.now, u);
    XykRun.FinalizeSettles(w.xyk, u);
    SettledKeepsLinks(w.auction, w.xyk, Xyk.FinalizeRewards(w.xyk, u).value, w.pcl);
  }

  lemma FinalizedMigrates(x0: Xyk.State, x: Xyk.State, c: Pcl.State, now: nat, u: Addr, legs: map<Key, Leg>)
    requires Xyk.FinalizeRewards(x0, u) == Ok(x) && Migrating(x, c, now, u)
    ensures MigratePositions(x, c, UserKeys(x.lockups, u), legs).Ok? <==>
            AllLeave(x0.lockups, c.rewards, Books(x0, c, u), UserKeys(x0.lockups, u), legs)
  {
    UserKeysComplete(x.lockups, u);
    MigratePositionsSucceed(x, c, now, u, UserKeys(x.lockups, u), legs);
    assert x.lockups.Keys == x0.lockups.Keys;
    assert Durations(x.lockups, u, USDC) == Durations(x0.lockups, u, USDC) && Durations(x.lockups, u, ATOM) == Durations(x0.lockups, u, ATOM);
    AllLeaveSame(x0.lockups, x.lockups, c.rewards, Books(x0, c, u), UserKeys(x0.lockups, u), legs);
  }
}

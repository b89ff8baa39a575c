/** For the XYK lockdrop, migrating a user looks like the user unlocking every position. */
module MigrationRefinement {
  import opened Basics
  import opened Sums
  import opened PositionKeys
  import Tge
  import opened LockdropXyk
  import Positions = LockdropXykPositions
  import LockdropXykRewards
  import TgeInvariant
  import XykRun = LockdropXykRun

  // States that differ in debts of closed positions

  predicate SameButDebt(l: Lockup, m: Lockup) {
    m == l.(debt := m.debt) && (Open(l) ==> l == m)
  }

  ghost predicate SameButDebts(x: State, y: State) {
    && y == With(x, y.lockups)
    && x.lockups.Keys == y.lockups.Keys
    && forall k :: k in x.lockups ==> SameButDebt(x.lockups[k], y.lockups[k])
  }

  lemma SameTwice(x: State, y: State, z: State)
    requires SameButDebts(x, y) && SameButDebts(y, z)
    ensures SameButDebts(x, z)
  {
    forall k | k in x.lockups
      ensures SameButDebt(x.lockups[k], z.lockups[k])
    {
      assert SameButDebt(x.lockups[k], y.lockups[k]) && SameButDebt(y.lockups[k], z.lockups[k]);
    }
  }

  function With(x: State, m: map<Key, Lockup>): State {
    x.(lockups := m)
  }

  /** Two states that differ at most in positions other than k: the one with the positions m is like a. */
  predicate Follows(a: Result<State>, b: Result<State>, x: map<Key, Lockup>, m: map<Key, Lockup>, k: Key) {
    && (a.Ok? <==> b.Ok?)
    && (a.Ok? ==>
          && k in a.value.lockups && !Open(a.value.lockups[k])
          && a.value.lockups == x[k := a.value.lockups[k]]
          && b.value == With(a.value, m[k := a.value.lockups[k]]))
  }

  lemma PayAndCloseLocally(x: State, m: map<Key, Lockup>, k: Key, lp: nat)
    requires k in x.lockups && k in m && m[k] == x.lockups[k]
    ensures Follows(Positions.PayAndClose(x, k, lp), Positions.PayAndClose(With(x, m), k, lp), x.lockups, m, k)
  {
  }

  lemma PayOneTimeLocally(x: State, m: map<Key, Lockup>, u: Addr)
    ensures PayOneTime(x, u).lockups == x.lockups && PayOneTime(With(x, m), u) == With(PayOneTime(x, u), m)
  {
  }

  lemma AccrueLocally(x: State, m: map<Key, Lockup>, p: Pool, pending: Option<nat>)
    ensures var a, b := Accrue(x, p, pending), Accrue(With(x, m), p, pending);
            && (a.Ok? <==> b.Ok?)
            && (a.Ok? ==> a.value.lockups == x.lockups && b.value == With(a.value, m))
  {
  }

  /** What a migrated position does to the lockdrop depends on no other position. */
  lemma MigrateLocally(x: State, m: map<Key, Lockup>, k: Key, pending: Option<nat>)
    requires k in x.lockups && k in m && m[k] == x.lockups[k]
    ensures Follows(MigratePosition(x, k, pending), MigratePosition(With(x, m), k, pending), x.lockups, m, k)
  {
    Positions.MigrateAccrued(x, k, pending);
    Positions.MigrateAccrued(With(x, m), k, pending);
    AccrueLocally(x, m, k.pool, pending);
    if Accrue(x, k.pool, pending).Ok? {
      LeaveLocally(Accrue(x, k.pool, pending).value, m, k);
    }
  }

  lemma LeaveLocally(x: State, m: map<Key, Lockup>, k: Key)
    requires k in x.lockups && k in m && m[k] == x.lockups[k]
    ensures Follows(MigratePosition(x, k, None), MigratePosition(With(x, m), k, None), x.lockups, m, k)
  {
    var share := LpShare(x, k.pool, x.lockups[k].units);
    assert LpShare(With(x, m), k.pool, m[k].units) == share;
    if share.Ok? {
      Positions.MigrateCloses(x, k, share.value);
      Positions.MigrateCloses(With(x, m), k, share.value);
      PayAndCloseLocally(x, m, k, share.value);
      var left := Positions.PayAndClose(x, k, share.value);
      if left.Ok? {
        PayOneTimeLocally(left.value, m[k := left.value.lockups[k]], k.user);
      }
    }
  }

  lemma MigrateCongruent(x: State, y: State, k: Key, pending: Option<nat>)
    requires SameButDebts(x, y) && k in x.lockups && Open(x.lockups[k])
    ensures MigratePosition(x, k, pending).Ok? <==> MigratePosition(y, k, pending).Ok?
    ensures MigratePosition(x, k, pending).Ok? ==> SameButDebts(MigratePosition(x, k, pending).value, MigratePosition(y, k, pending).value)
  {
    assert SameButDebt(x.lockups[k], y.lockups[k]);
    MigrateLocally(x, y.lockups, k, pending);
    if MigratePosition(x, k, pending).Ok? {
      var x', y' := MigratePosition(x, k, pending).value, MigratePosition(y, k, pending).value;
      forall j | j in x'.lockups
        ensures SameButDebt(x'.lockups[j], y'.lockups[j])
      {
        assert j != k ==> SameButDebt(x.lockups[j], y.lockups[j]);
      }
    }
  }

  // One position

  /** What taking position k out leaves alone. */
  ghost predicate Left(x: State, x': State, k: Key) {
    && k in x.lockups && k in x'.lockups && !Open(x'.lockups[k])
    && x'.lockups[k] == x.lockups[k].(transferred := x'.lockups[k].transferred)
    && x'.lockups == x.lockups[k := x'.lockups[k]]
    && Terms(x') == Terms(x)
    && (k.user in x.users ==> k.user in x'.users && x'.users[k.user].totalRewards == x.users[k.user].totalRewards)
    && XykRun.SettledPool(x.pools.usdc, x'.pools.usdc) && XykRun.SettledPool(x.pools.atom, x'.pools.atom)
  }

  lemma CloseLeaves(x: State, k: Key, lp: nat)
    requires k in x.lockups && Positions.PayAndClose(x, k, lp).Ok?
    ensures Left(x, PayOneTime(Positions.PayAndClose(x, k, lp).value, k.user), k)
  {
  }

  lemma MigrateLeaves(x: State, k: Key, pending: Option<nat>)
    requires k in x.lockups && MigratePosition(x, k, pending).Ok?
    ensures Left(x, MigratePosition(x, k, pending).value, k)
  {
    Positions.MigrateAccrued(x, k, pending);
    var x1 := Accrue(x, k.pool, pending).value;
    assert x1.lockups == x.lockups && x1.users == x.users && Terms(x1) == Terms(x);
    var lp := LpShare(x1, k.pool, x1.lockups[k].units).value;
    Positions.MigrateCloses(x1, k, lp);
    CloseLeaves(x1, k, lp);
  }

  /** The rewards of u have been computed, so computing them again changes nothing. */
  ghost predicate Finalized(x: State, u: Addr) {
    FinalizeRewards(x, u) == Ok(x)
  }

  lemma FinalizeFinalizes(x: State, u: Addr)
    requires FinalizeRewards(x, u).Ok?
    ensures Finalized(FinalizeRewards(x, u).value, u)
  {
    var x' := FinalizeRewards(x, u).value;
    assert Terms(x') == Terms(x);
    assert x'.lockups.Keys == x.lockups.Keys;
    if x'.users[u].totalRewards == 0 {
      assert WithRewards(x', u) == x'.lockups;
      assert x'.users[u := x'.users[u]] == x'.users;
    }
  }

  lemma LeftStaysFinalized(x: State, x': State, k: Key)
    requires Finalized(x, k.user) && Left(x, x', k)
    ensures Finalized(x', k.user)
  {
    var u := k.user;
    if x'.users[u].totalRewards == 0 {
      assert WithRewards(x, u) == x.lockups && Total(x.lockups, UserRewards(u)) == 0;
      assert WithRewards(x', u) == x'.lockups;
      TotalSet(x.lockups, UserRewards(u), k, x'.lockups[k]);
      assert x'.users[u := x'.users[u]] == x'.users;
    }
  }

  lemma FinalizedWithDebts(x: State, y: State, u: Addr)
    requires SameButDebts(x, y) && Finalized(x, u)
    ensures Finalized(y, u)
  {
    assert Terms(x) == Terms(y);
    if y.users[u].totalRewards == 0 {
      assert WithRewards(x, u) == x.lockups && Total(x.lockups, UserRewards(u)) == 0;
      forall k | k in x.lockups
        ensures UserRewards(u)(k, x.lockups[k]) == UserRewards(u)(k, y.lockups[k])
        ensures WithRewards(y, u)[k] == y.lockups[k]
      {
        assert SameButDebt(x.lockups[k], y.lockups[k]);
      }
      TotalSame(x.lockups, UserRewards(u), y.lockups, UserRewards(u));
      assert WithRewards(y, u) == y.lockups;
      assert y.users[u := y.users[u]] == y.users;
    }
  }

  /** With the rewards computed and the lock over, claiming and unlocking a position takes the LP tokens out and closes it
      just as migrating it does; only the debt of the closed position differs. */
  lemma MigrationRefinesClaim(x: State, now: nat, k: Key, pending: Option<nat>)
    requires k in x.lockups && Open(x.lockups[k]) && x.config.WindowsEnd() <= now && x.lockups[k].unlockTime <= now
    requires XykRun.Initialised(x.pools.Get(k.pool))
    ensures var f := FinalizeRewards(x, k.user);
            && (Claim(x, now, k, true, pending).Ok? <==> f.Ok? && k in f.value.lockups && MigratePosition(f.value, k, pending).Ok?)
            && (Claim(x, now, k, true, pending).Ok? ==>
                  SameButDebts(MigratePosition(f.value, k, pending).value, Claim(x, now, k, true, pending).value))
  {
    var f := FinalizeRewards(x, k.user);
    if f.Ok? {
      var x1 := f.value;
      assert k in x1.lockups && x1.pools == x.pools;
      assert Claim(x, now, k, true, pending) ==
             (var x2 :- if x1.pools.Get(k.pool).isStaked then Accrue(x1, k.pool, pending) else Ok(x1);
              WithdrawRewards(x2, k, true));
      if x.pools.Get(k.pool).isStaked {
        Positions.MigrationRefinesUnlock(x1, k, pending);
        if MigratePosition(x1, k, pending).Ok? {
          MigrateLeaves(x1, k, pending);
        }
      }
    }
  }

  // All positions of a user

  function PendingOf(legs: map<Key, Tge.Leg>, k: Key): Option<nat> {
    Tge.LegOf(legs, k).pending
  }

  /** The XYK half of migrating the listed positions. */
  function LeaveAll(x: State, keys: seq<Key>, legs: map<Key, Tge.Leg>): Result<State>
    decreases |keys|
  {
    if keys == [] then Ok(x)
    else if keys[0] !in x.lockups then Err(NotFound)
    else if !Open(x.lockups[keys[0]]) then LeaveAll(x, keys[1..], legs)
    else
      var x1 :- MigratePosition(x, keys[0], PendingOf(legs, keys[0]));
      LeaveAll(x1, keys[1..], legs)
  }

  /** The user claims the listed open positions one after the other, with unlock. */
  ghost function UnlockAll(x: State, now: nat, keys: seq<Key>, legs: map<Key, Tge.Leg>): Result<State>
    decreases |keys|
  {
    if keys == [] then Ok(x)
    else if keys[0] !in x.lockups then Err(NotFound)
    else if !Open(x.lockups[keys[0]]) then UnlockAll(x, now, keys[1..], legs)
    else
      var x1 :- Claim(x, now, keys[0], true, PendingOf(legs, keys[0]));
      UnlockAll(x1, now, keys[1..], legs)
  }

  lemma {:induction false} MigrationLeaves(x: State, c: Tge.Pcl.State, keys: seq<Key>, legs: map<Key, Tge.Leg>)
    requires Tge.MigratePositions(x, c, keys, legs).Ok?
    ensures LeaveAll(x, keys, legs) == Ok(Tge.MigratePositions(x, c, keys, legs).value.0)
    decreases |keys|
  {
    if keys != [] {
      if Open(x.lockups[keys[0]]) {
        var next := Tge.MigrateOne(x, c, keys[0], Tge.LegOf(legs, keys[0])).value;
        MigrationLeaves(next.0, next.1, keys[1..], legs);
      } else {
        MigrationLeaves(x, c, keys[1..], legs);
      }
    }
  }

  ghost predicate HasOpen(x: State, u: Addr) {
    exists k :: k in x.lockups && k.user == u && Open(x.lockups[k])
  }

  ghost predicate LocksOver(x: State, now: nat, u: Addr) {
    forall k :: k in x.lockups && k.user == u && Open(x.lockups[k]) ==> x.lockups[k].unlockTime <= now
  }

  /** Every open position of u may be unlocked. */
  ghost predicate Unlockable(x: State, now: nat, u: Addr) {
    && x.config.WindowsEnd() <= now
    && XykRun.Initialised(x.pools.usdc) && XykRun.Initialised(x.pools.atom)
    && LocksOver(x, now, u)
  }

  lemma LeftStaysUnlockable(x: State, x': State, now: nat, k: Key)
    requires Unlockable(x, now, k.user) && Left(x, x', k)
    ensures Unlockable(x', now, k.user)
  {
    assert Terms(x') == Terms(x);
  }

  lemma UnlockableWithDebts(x: State, y: State, now: nat, u: Addr)
    requires Unlockable(x, now, u) && SameButDebts(x, y)
    ensures Unlockable(y, now, u)
  {
    forall k | k in y.lockups && k.user == u && Open(y.lockups[k])
      ensures y.lockups[k].unlockTime <= now
    {
      assert SameButDebt(x.lockups[k], y.lockups[k]);
    }
  }

  lemma StepRefines(x: State, y: State, now: nat, k: Key, pending: Option<nat>)
    requires SameButDebts(x, y) && Finalized(x, k.user) && Unlockable(x, now, k.user)
    requires k in x.lockups && Open(x.lockups[k])
    ensures MigratePosition(x, k, pending).Ok? <==> Claim(y, now, k, true, pending).Ok?
    ensures MigratePosition(x, k, pending).Ok? ==>
              var x' := MigratePosition(x, k, pending).value;
              && SameButDebts(x', Claim(y, now, k, true, pending).value) && Finalized(x', k.user) && Unlockable(x', now, k.user)
              && x'.lockups.Keys == x.lockups.Keys
  {
    assert SameButDebt(x.lockups[k], y.lockups[k]);
    FinalizedWithDebts(x, y, k.user);
    UnlockableWithDebts(x, y, now, k.user);
    MigrateCongruent(x, y, k, pending);
    MigrationRefinesClaim(y, now, k, pending);
    if MigratePosition(x, k, pending).Ok? {
      MigrateLeaves(x, k, pending);
      LeftStaysFinalized(x, MigratePosition(x, k, pending).value, k);
      LeftStaysUnlockable(x, MigratePosition(x, k, pending).value, now, k);
      SameTwice(MigratePosition(x, k, pending).value, MigratePosition(y, k, pending).value, Claim(y, now, k, true, pending).value);
    }
  }

  lemma {:induction false} LeaveRefinesUnlocks(x: State, y: State, now: nat, u: Addr, keys: seq<Key>, legs: map<Key, Tge.Leg>)
    requires SameButDebts(x, y) && Finalized(x, u) && Unlockable(x, now, u)
    requires forall k :: k in keys ==> k in x.lockups && k.user == u
    ensures LeaveAll(x, keys, legs).Ok? <==> UnlockAll(y, now, keys, legs).Ok?
    ensures LeaveAll(x, keys, legs).Ok? ==> SameButDebts(LeaveAll(x, keys, legs).value, UnlockAll(y, now, keys, legs).value)
    decreases |keys|
  {
    if keys != [] {
      var k := keys[0];
      assert SameButDebt(x.lockups[k], y.lockups[k]);
      if Open(x.lockups[k]) {
        StepRefines(x, y, now, k, PendingOf(legs, k));
        if MigratePosition(x, k, PendingOf(legs, k)).Ok? {
          LeaveRefinesUnlocks(MigratePosition(x, k, PendingOf(legs, k)).value, Claim(y, now, k, true, PendingOf(legs, k)).value, now, u, keys[1..], legs);
        }
      } else {
        LeaveRefinesUnlocks(x, y, now, u, keys[1..], legs);
      }
    }
  }

  /** The first claim computes the rewards, as the migration does at its start. */
  lemma {:induction false} UnlocksFinalize(x: State, now: nat, u: Addr, keys: seq<Key>, legs: map<Key, Tge.Leg>)
    requires (exists k :: k in keys && k in x.lockups && Open(x.lockups[k])) && forall k :: k in keys ==> k in x.lockups && k.user == u
    ensures var f := FinalizeRewards(x, u);
            && (f.Err? ==> UnlockAll(x, now, keys, legs).Err?)
            && (f.Ok? ==> UnlockAll(x, now, keys, legs) == UnlockAll(f.value, now, keys, legs))
    decreases |keys|
  {
    var f := FinalizeRewards(x, u);
    if f.Ok? {
      FinalizeFinalizes(x, u);
      XykRun.FinalizeSettles(x, u);
    }
    if !Open(x.lockups[keys[0]]) {
      var k :| k in keys && k in x.lockups && Open(x.lockups[k]);
      assert k in keys[1..];
      UnlocksFinalize(x, now, u, keys[1..], legs);
    }
  }

  /** Once all locks of a user are over, a migration leaves the XYK lockdrop as the user's own claims with unlock of all open
      positions do, in the same order, except for debts of closed positions. Before, it closes positions early. */
  lemma MigrationLooksLikeUnlocks(x: State, now: nat, u: Addr, legs: map<Key, Tge.Leg>)
    requires Unlockable(x, now, u) && HasOpen(x, u)
    ensures var keys, f := UserKeys(x.lockups, u), FinalizeRewards(x, u);
            && (UnlockAll(x, now, keys, legs).Ok? <==> f.Ok? && LeaveAll(f.value, keys, legs).Ok?)
            && (UnlockAll(x, now, keys, legs).Ok? ==> SameButDebts(LeaveAll(f.value, keys, legs).value, UnlockAll(x, now, keys, legs).value))
  {
    var keys, f := UserKeys(x.lockups, u), FinalizeRewards(x, u);
    UserKeysComplete(x.lockups, u);
    UnlocksFinalize(x, now, u, keys, legs);
    if f.Ok? {
      FinalizeFinalizes(x, u);
      FinalizedUnlockable(x, now, u);
      LeaveRefinesUnlocks(f.value, f.value, now, u, keys, legs);
    }
  }

  lemma FinalizedUnlockable(x: State, now: nat, u: Addr)
    requires Unlockable(x, now, u) && FinalizeRewards(x, u).Ok?
    ensures Unlockable(FinalizeRewards(x, u).value, now, u)
  {
  }

  // In runs

  /** Claims with unlock, one for each listed position; those for closed positions are refused. */
  function Claims(keys: seq<Key>, legs: map<Key, Tge.Leg>): seq<Tge.Event>
    decreases |keys|
  {
    if keys == [] then [] else [Tge.Event(0, Tge.Claim(keys[0], true, PendingOf(legs, keys[0])))] + Claims(keys[1..], legs)
  }

  lemma {:induction false} ClaimsUnlock(w: Tge.World, keys: seq<Key>, legs: map<Key, Tge.Leg>)
    requires Tge.Started(w) && UnlockAll(w.xyk, w.now, keys, legs).Ok?
    ensures Tge.Run(w, Claims(keys, legs)) == w.(xyk := UnlockAll(w.xyk, w.now, keys, legs).value)
    decreases |keys|
  {
    if keys == [] {
      assert w.(xyk := w.xyk) == w;
    } else {
      var e := Claims(keys, legs)[0];
      assert Claims(keys, legs)[1..] == Claims(keys[1..], legs) && Tge.Later(w, 0) == w;
      ClaimNext(w, keys[0], PendingOf(legs, keys[0]));
      if Open(w.xyk.lockups[keys[0]]) {
        var x1 := Claim(w.xyk, w.now, keys[0], true, PendingOf(legs, keys[0])).value;
        ClaimKeepsWindows(w.xyk, w.now, keys[0], PendingOf(legs, keys[0]));
        ClaimsUnlock(w.(xyk := x1), keys[1..], legs);
      } else {
        ClaimsUnlock(w, keys[1..], legs);
      }
    }
  }

  lemma ClaimNext(w: Tge.World, k: Key, pending: Option<nat>)
    requires Tge.Started(w) && k in w.xyk.lockups
    ensures var c := Claim(w.xyk, w.now, k, true, pending);
            && (c.Ok? ==> Tge.Apply(w, Tge.Claim(k, true, pending)) == w.(xyk := c.value))
            && (!Open(w.xyk.lockups[k]) ==> Tge.Apply(w, Tge.Claim(k, true, pending)) == w)
  {
  }

  lemma ClaimKeepsWindows(x: State, now: nat, k: Key, pending: Option<nat>)
    requires Claim(x, now, k, true, pending).Ok?
    ensures Claim(x, now, k, true, pending).value.config == x.config
  {
    var x1 := FinalizeRewards(x, k.user).value;
    var x2 := if x1.pools.Get(k.pool).isStaked then Accrue(x1, k.pool, pending).value else x1;
    assert x2.config == x.config && k in x2.lockups;
    var x3 := LockdropXykRewards.BeforeOneTime(x2, k, true);
    assert Terms(x3).config == Terms(x2).config;
  }

  /** In every run: once all locks of a user with open positions are over, migrating the user instead of letting the user
      claim and unlock them changes nothing but the PCL lockdrop, and the debts of closed positions. */
  lemma MigrationLooksLikeClaims(start: Tge.World, events: seq<Tge.Event>, u: Addr, legs: map<Key, Tge.Leg>)
    requires Tge.Initial(start)
    ensures var w := Tge.Run(start, events);
            var r := Tge.Execute(w, Tge.MigrateLiquidity(u, legs));
            HasOpen(w.xyk, u) && LocksOver(w.xyk, w.now, u) && r.Ok? ==>
              var v := Tge.Run(w, Claims(UserKeys(w.xyk.lockups, u), legs));
              v == r.value.(xyk := v.xyk, pcl := w.pcl) && SameButDebts(r.value.xyk, v.xyk)
  {
    TgeInvariant.RunKeeps(start, events);
    MigrationInState(Tge.Run(start, events), u, legs);
  }

  lemma MigrationInState(w: Tge.World, u: Addr, legs: map<Key, Tge.Leg>)
    requires TgeInvariant.Inv(w)
    ensures var r := Tge.Execute(w, Tge.MigrateLiquidity(u, legs));
            HasOpen(w.xyk, u) && LocksOver(w.xyk, w.now, u) && r.Ok? ==>
              var v := Tge.Run(w, Claims(UserKeys(w.xyk.lockups, u), legs));
              v == r.value.(xyk := v.xyk, pcl := w.pcl) && SameButDebts(r.value.xyk, v.xyk)
  {
    MigrationStarted(w, u, legs);
    if HasOpen(w.xyk, u) && LocksOver(w.xyk, w.now, u) && Tge.Execute(w, Tge.MigrateLiquidity(u, legs)).Ok? {
      MigrationIsClaims(w, u, legs);
    }
  }

  lemma MigrationStarted(w: Tge.World, u: Addr, legs: map<Key, Tge.Leg>)
    requires TgeInvariant.Inv(w)
    ensures Tge.Execute(w, Tge.MigrateLiquidity(u, legs)).Ok? && LocksOver(w.xyk, w.now, u) ==> Unlockable(w.xyk, w.now, u)
  {
    XykInitialised(w.xyk, w.auction.minted.Some?, w.now);
  }

  lemma XykInitialised(x: State, ready: bool, now: nat)
    requires XykRun.XykInv(x, ready, now)
    ensures ready ==> XykRun.Initialised(x.pools.usdc) && XykRun.Initialised(x.pools.atom)
  {
  }

  lemma MigrationIsClaims(w: Tge.World, u: Addr, legs: map<Key, Tge.Leg>)
    requires Unlockable(w.xyk, w.now, u) && HasOpen(w.xyk, u)
    requires Tge.Execute(w, Tge.MigrateLiquidity(u, legs)).Ok?
    ensures var m, v := Tge.Execute(w, Tge.MigrateLiquidity(u, legs)).value, Tge.Run(w, Claims(UserKeys(w.xyk.lockups, u), legs));
            v == m.(xyk := v.xyk, pcl := w.pcl) && SameButDebts(m.xyk, v.xyk)
  {
    var x := FinalizeRewards(w.xyk, u).value;
    SameKeysListed(w.xyk, u);
    MigrationLeaves(x, w.pcl, UserKeys(x.lockups, u), legs);
    MigrationLooksLikeUnlocks(w.xyk, w.now, u, legs);
    ClaimsUnlock(w, UserKeys(w.xyk.lockups, u), legs);
  }

  lemma SameKeysListed(x: State, u: Addr)
    requires FinalizeRewards(x, u).Ok?
    ensures UserKeys(FinalizeRewards(x, u).value.lockups, u) == UserKeys(x.lockups, u)
  {
    var m := FinalizeRewards(x, u).value.lockups;
    assert m.Keys == x.lockups.Keys;
    assert Durations(m, u, USDC) == Durations(x.lockups, u, USDC) && Durations(m, u, ATOM) == Durations(x.lockups, u, ATOM);
  }
}

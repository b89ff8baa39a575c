/** When locked LP tokens can be taken out: a position unlocks after its own duration, counted from the end of the lockdrop's
    windows, and until then it is open in one of the two lockdrops. */
module LockTerms {
  import opened Basics
  import opened PositionKeys
  import opened Tge
  import opened TgeInvariant
  import MigratedRecords
  import TgeProgress
  import Xyk = LockdropXyk
  import XykRun = LockdropXykRun
  import Pcl = LockdropPcl
  import PclSolvency = LockdropPclSolvency

  /** The time at which a position may be unlocked. */
  function UnlockTime(c: Xyk.Config, k: Key): nat {
    c.WindowsEnd() + k.duration
  }

  ghost predicate OnTerms(x: Xyk.State) {
    forall k :: k in x.lockups ==> x.lockups[k].unlockTime == UnlockTime(x.config, k)
  }

  /** A position that is closed in the XYK lockdrop has moved to the PCL lockdrop or its time is over. */
  predicate LeftInTime(x: Xyk.State, c: Pcl.State, now: nat, k: Key) {
    k in x.lockups && !Xyk.Open(x.lockups[k]) && k !in c.lockups ==> UnlockTime(x.config, k) <= now
  }

  /** A position that is closed in the PCL lockdrop has handed out just its units, after its time was over. */
  predicate PclLeftInTime(c: Pcl.State, now: nat, k: Key) {
    k in c.lockups && c.lockups[k].transferred.Some? ==> c.lockups[k].unlockTime <= now && c.lockups[k].transferred.value == c.lockups[k].units
  }

  ghost predicate TermsInv(x: Xyk.State, c: Pcl.State, now: nat) {
    OnTerms(x) && forall k :: LeftInTime(x, c, now, k) && PclLeftInTime(c, now, k)
  }

  // Locking

  lemma ResizeKeepsTerms(x: Xyk.State, now: nat, k: Key, units: nat)
    requires OnTerms(x)
    ensures Xyk.IncreaseLockup(x, now, k, units).Ok? ==> OnTerms(Xyk.IncreaseLockup(x, now, k, units).value)
    ensures Xyk.WithdrawLockup(x, now, k, units).Ok? ==> OnTerms(Xyk.WithdrawLockup(x, now, k, units).value)
  {
  }

  lemma FreshKeepsTerms(x: Xyk.State, c: Pcl.State, now: nat)
    requires OnTerms(x) && c.lockups == map[] && forall k :: k in x.lockups ==> Xyk.Open(x.lockups[k])
    ensures TermsInv(x, c, now)
  {
  }

  /** Locking and initialisation happen while all positions are open and none has moved. */
  lemma LocksKeepTerms(w: World, tx: Tx)
    requires Inv(w) && TermsInv(w.xyk, w.pcl, w.now) && Execute(w, tx).Ok? && (tx.LockLp? || tx.WithdrawLp? || tx.InitPool?)
    ensures var w' := Execute(w, tx).value; TermsInv(w'.xyk, w'.pcl, w.now)
  {
    var w' := Execute(w, tx).value;
    if tx.LockLp? || tx.WithdrawLp? {
      ResizeKeepsTerms(w.xyk, w.now, tx.key, tx.units);
    }
    LocksAreFresh(w, tx);
    FreshKeepsTerms(w'.xyk, w'.pcl, w.now);
  }

  lemma LocksAreFresh(w: World, tx: Tx)
    requires Inv(w) && Execute(w, tx).Ok? && (tx.LockLp? || tx.WithdrawLp? || tx.InitPool?)
    ensures var w' := Execute(w, tx).value;
            && w'.pcl.lockups == map[] && (forall k :: k in w'.xyk.lockups ==> Xyk.Open(w'.xyk.lockups[k]))
            && (tx.InitPool? ==> w'.xyk.lockups == w.xyk.lockups && w'.xyk.config == w.xyk.config)
  {
    MigratedRecords.LocksPrecedeMigration(w, tx);
    LocksNeedFresh(w, tx);
    if tx.InitPool? {
      InitKeepsPositions(w, tx.minted);
    } else {
      ResizeKeepsOpen(w.xyk, w.now, tx.key, tx.units);
    }
  }

  lemma LocksNeedFresh(w: World, tx: Tx)
    requires Inv(w) && Execute(w, tx).Ok? && (tx.LockLp? || tx.WithdrawLp? || tx.InitPool?)
    ensures forall k :: k in w.xyk.lockups ==> Xyk.Open(w.xyk.lockups[k])
  {
    assert w.auction.minted.None?;
  }

  lemma InitKeepsPositions(w: World, minted: PerPool<nat>)
    requires Execute(w, InitPool(minted)).Ok?
    ensures var x' := Execute(w, InitPool(minted)).value.xyk; x'.lockups == w.xyk.lockups && x'.config == w.xyk.config
  {
  }

  lemma ResizeKeepsOpen(x: Xyk.State, now: nat, k: Key, units: nat)
    requires forall j :: j in x.lockups ==> Xyk.Open(x.lockups[j])
    ensures var r := Xyk.IncreaseLockup(x, now, k, units); r.Ok? ==> forall j :: j in r.value.lockups ==> Xyk.Open(r.value.lockups[j])
    ensures var r := Xyk.WithdrawLockup(x, now, k, units); r.Ok? ==> forall j :: j in r.value.lockups ==> Xyk.Open(r.value.lockups[j])
  {
  }

  // Claims in the XYK lockdrop

  lemma CallbackCloses(x: Xyk.State, k: Key, withdraw: bool, j: Key)
    requires k in x.lockups && Xyk.WithdrawRewards(x, k, withdraw).Ok?
    ensures var x' := Xyk.WithdrawRewards(x, k, withdraw).value;
            j in x'.lockups && !Xyk.Open(x'.lockups[j]) && (j != k || !withdraw) ==> j in x.lockups && !Xyk.Open(x.lockups[j])
  {
  }

  /** A claim closes at most its own position, and that only with unlock and in time. */
  lemma ClaimCloses(x: Xyk.State, now: nat, k: Key, withdraw: bool, pending: Option<nat>, j: Key)
    requires Xyk.Claim(x, now, k, withdraw, pending).Ok?
    ensures var x' := Xyk.Claim(x, now, k, withdraw, pending).value;
            j in x'.lockups && !Xyk.Open(x'.lockups[j]) ==>
              j in x.lockups && (!Xyk.Open(x.lockups[j]) || (j == k && withdraw && x.lockups[k].unlockTime <= now))
  {
    var x1 := Xyk.FinalizeRewards(x, k.user).value;
    var x2 := if x1.pools.Get(k.pool).isStaked then Xyk.Accrue(x1, k.pool, pending).value else x1;
    CallbackCloses(x2, k, withdraw, j);
  }

  lemma ClaimKeepsTerms(w: World, k: Key, withdraw: bool, pending: Option<nat>)
    requires Inv(w) && TermsInv(w.xyk, w.pcl, w.now) && Execute(w, Claim(k, withdraw, pending)).Ok?
    ensures TermsInv(Execute(w, Claim(k, withdraw, pending)).value.xyk, w.pcl, w.now)
  {
    var x' := Execute(w, Claim(k, withdraw, pending)).value.xyk;
    XykRun.ClaimKeeps(w.xyk, w.now, k, withdraw, pending);
    SettledKeepsTerms(w.xyk, x');
    forall j
      ensures LeftInTime(x', w.pcl, w.now, j)
    {
      assert LeftInTime(w.xyk, w.pcl, w.now, j);
      ClaimCloses(w.xyk, w.now, k, withdraw, pending, j);
    }
    forall j
      ensures PclLeftInTime(w.pcl, w.now, j)
    {
      assert LeftInTime(w.xyk, w.pcl, w.now, j);
    }
  }

  lemma SettledKeepsTerms(x: Xyk.State, x': Xyk.State)
    requires OnTerms(x) && XykRun.Settled(x, x')
    ensures OnTerms(x')
  {
    forall k | k in x'.lockups
      ensures x'.lockups[k].unlockTime == UnlockTime(x'.config, k)
    {
      assert XykRun.SettledPosition(x.lockups[k], x'.lockups[k]);
    }
  }

  // Migrations

  /** In the middle of a migration. */
  ghost predicate MovingInTime(x: Xyk.State, c: Pcl.State, now: nat, u: Addr) {
    Migrating(x, c, now, u) && TermsInv(x, c, now)
  }

  /** Position k is closed in the one lockdrop and opened in the other; all others stay as they are. */
  ghost predicate Moved(x: Xyk.State, c: Pcl.State, x': Xyk.State, c': Pcl.State, k: Key) {
    && (forall j :: j in x'.lockups && j != k ==> j in x.lockups && x'.lockups[j] == x.lockups[j])
    && k in c'.lockups && c'.lockups == c.lockups[k := c'.lockups[k]] && Pcl.Open(c'.lockups[k])
    && x'.config == x.config
  }

  lemma MovedKeepsTerms(x: Xyk.State, c: Pcl.State, x': Xyk.State, c': Pcl.State, now: nat, k: Key)
    requires TermsInv(x, c, now) && XykRun.Settled(x, x') && Moved(x, c, x', c', k)
    ensures TermsInv(x', c', now)
  {
    SettledKeepsTerms(x, x');
    forall j
      ensures LeftInTime(x', c', now, j) && PclLeftInTime(c', now, j)
    {
      assert LeftInTime(x, c, now, j) && PclLeftInTime(c, now, j);
    }
  }

  lemma MoveKeepsTerms(x: Xyk.State, c: Pcl.State, now: nat, k: Key, leg: Leg)
    requires MovingInTime(x, c, now, k.user) && k in x.lockups && Xyk.Open(x.lockups[k]) && MigrateOne(x, c, k, leg).Ok?
    ensures MovingInTime(MigrateOne(x, c, k, leg).value.0, MigrateOne(x, c, k, leg).value.1, now, k.user)
  {
    MigrateOneKeeps(x, c, now, k, leg);
    MoveMoves(x, c, now, k, leg);
    MovedKeepsTerms(x, c, MigrateOne(x, c, k, leg).value.0, MigrateOne(x, c, k, leg).value.1, now, k);
  }

  lemma MoveMoves(x: Xyk.State, c: Pcl.State, now: nat, k: Key, leg: Leg)
    requires Migrating(x, c, now, k.user) && k in x.lockups && Xyk.Open(x.lockups[k]) && MigrateOne(x, c, k, leg).Ok?
    ensures Moved(x, c, MigrateOne(x, c, k, leg).value.0, MigrateOne(x, c, k, leg).value.1, k)
  {
    TgeProgress.MigrateOneSucceeds(x, c, now, k, leg);
    MigrateOneKeeps(x, c, now, k, leg);
    FinishOpens(x, c, k, leg);
  }

  lemma FinishOpens(x: Xyk.State, c: Pcl.State, k: Key, leg: Leg)
    requires k in x.lockups && MigrateOne(x, c, k, leg).Ok?
    ensures var c' := MigrateOne(x, c, k, leg).value.1;
            k in c'.lockups && c'.lockups == c.lockups[k := c'.lockups[k]] && Pcl.Open(c'.lockups[k])
  {
  }

  lemma {:induction false} MovesKeepTerms(x: Xyk.State, c: Pcl.State, now: nat, u: Addr, keys: seq<Key>, legs: map<Key, Leg>)
    requires MovingInTime(x, c, now, u) && (forall i :: 0 <= i < |keys| ==> keys[i].user == u) && MigratePositions(x, c, keys, legs).Ok?
    ensures MovingInTime(MigratePositions(x, c, keys, legs).value.0, MigratePositions(x, c, keys, legs).value.1, now, u)
    decreases |keys|
  {
    if keys != [] {
      var k := keys[0];
      if Xyk.Open(x.lockups[k]) {
        var (x1, c1) := MigrateOne(x, c, k, LegOf(legs, k)).value;
        MoveKeepsTerms(x, c, now, k, LegOf(legs, k));
        MovesKeepTerms(x1, c1, now, u, keys[1..], legs);
      } else {
        MovesKeepTerms(x, c, now, u, keys[1..], legs);
      }
    }
  }

  lemma FinalizeKeepsTerms(x: Xyk.State, c: Pcl.State, now: nat, u: Addr)
    requires TermsInv(x, c, now) && Xyk.FinalizeRewards(x, u).Ok?
    ensures TermsInv(Xyk.FinalizeRewards(x, u).value, c, now)
  {
    var x' := Xyk.FinalizeRewards(x, u).value;
    XykRun.FinalizeSettles(x, u);
    SettledKeepsTerms(x, x');
    forall j
      ensures LeftInTime(x', c, now, j) && PclLeftInTime(c, now, j)
    {
      assert LeftInTime(x, c, now, j);
    }
  }

  lemma MigrationKeepsTerms(w: World, u: Addr, legs: map<Key, Leg>)
    requires Inv(w) && TermsInv(w.xyk, w.pcl, w.now) && Execute(w, MigrateLiquidity(u, legs)).Ok?
    ensures var w' := Execute(w, MigrateLiquidity(u, legs)).value; TermsInv(w'.xyk, w'.pcl, w.now)
  {
    var x := Xyk.FinalizeRewards(w.xyk, u).value;
    TgeProgress.ReadyToMigrate(w, u);
    FinalizeKeepsTerms(w.xyk, w.pcl, w.now, u);
    UserKeysComplete(x.lockups, u);
    MovesKeepTerms(x, w.pcl, w.now, u, UserKeys(x.lockups, u), legs);
  }

  // Claims in the PCL lockdrop

  lemma PclCallbackCloses(c: Pcl.State, k: Key, withdraw: bool, tokens: seq<Pcl.Token>, j: Key)
    requires PclSolvency.PoolInv(c, k.pool) && k in c.lockups && Pcl.Open(c.lockups[k]) && Pcl.WithdrawRewards(c, k, withdraw, tokens).Ok?
    ensures var c' := Pcl.WithdrawRewards(c, k, withdraw, tokens).value;
            j in c'.lockups && c'.lockups[j].transferred.Some? ==>
              j in c.lockups && (c'.lockups[j].transferred == c.lockups[j].transferred || (j == k && withdraw && c'.lockups[j].transferred.value == c.lockups[k].units))
  {
    PclSolvency.LpShareIsUnits(c, k);
    var lp := c.lockups[k].units;
    if c.pools.Get(k.pool).isStaked {
      PclSolvency.PayTokensFrame(c, k, lp, tokens);
    }
  }

  lemma PclClaimCloses(c: Pcl.State, now: nat, k: Key, withdraw: bool, rewards: seq<(Pcl.Token, nat)>, tokens: seq<Pcl.Token>, j: Key)
    requires PclInv(c) && Pcl.Claim(c, now, k, withdraw, rewards, tokens).Ok?
    ensures var c' := Pcl.Claim(c, now, k, withdraw, rewards, tokens).value;
            j in c'.lockups && c'.lockups[j].transferred.Some? ==>
              && j in c.lockups
              && (|| c'.lockups[j].transferred == c.lockups[j].transferred
                  || (j == k && withdraw && c.lockups[k].unlockTime <= now && c'.lockups[j].transferred.value == c.lockups[k].units))
  {
    var c1 := Pcl.FinalizeRewards(c, k.user).value;
    var c2 := if c1.pools.Get(k.pool).isStaked then Pcl.Accrue(c1, k.pool, rewards).value else c1;
    assert PclSolvency.PoolInv(c, k.pool) && PclSolvency.TokenInv(c, k.pool, 0);
    PclSolvency.FinalizeKeeps(c, k.user, k.pool, 0);
    if c2 != c1 {
      PclSolvency.AccrueTokensKeep(c1, k.pool, rewards, k.pool, 0);
    }
    PclCallbackCloses(c2, k, withdraw, tokens, j);
  }

  lemma ClaimPclKeepsTerms(w: World, k: Key, withdraw: bool, rewards: seq<(Pcl.Token, nat)>, tokens: seq<Pcl.Token>)
    requires Inv(w) && TermsInv(w.xyk, w.pcl, w.now) && Execute(w, ClaimPcl(k, withdraw, rewards, tokens)).Ok?
    ensures TermsInv(w.xyk, Execute(w, ClaimPcl(k, withdraw, rewards, tokens)).value.pcl, w.now)
  {
    var c' := Execute(w, ClaimPcl(k, withdraw, rewards, tokens)).value.pcl;
    PclSolvency.ClaimFrame(w.pcl, w.now, k, withdraw, rewards, tokens);
    PclSolvency.ClaimKeepsRecords(w.pcl, w.now, k, withdraw, rewards, tokens);
    forall j
      ensures LeftInTime(w.xyk, c', w.now, j) && PclLeftInTime(c', w.now, j)
    {
      assert LeftInTime(w.xyk, w.pcl, w.now, j) && PclLeftInTime(w.pcl, w.now, j);
      PclClaimCloses(w.pcl, w.now, k, withdraw, rewards, tokens, j);
      if j in c'.lockups {
        assert PclSolvency.SameRecord(w.pcl.lockups[j], c'.lockups[j]);
      }
    }
  }

  // Runs

  lemma ExecuteKeepsTerms(w: World, tx: Tx)
    requires Inv(w) && TermsInv(w.xyk, w.pcl, w.now) && Execute(w, tx).Ok?
    ensures var w' := Execute(w, tx).value; TermsInv(w'.xyk, w'.pcl, w.now)
  {
    if tx.LockLp? || tx.WithdrawLp? || tx.InitPool? {
      LocksKeepTerms(w, tx);
    } else if tx.Claim? {
      ClaimKeepsTerms(w, tx.key, tx.withdraw, tx.pending);
    } else if tx.MigrateLiquidity? {
      MigrationKeepsTerms(w, tx.user, tx.legs);
    } else if tx.ClaimPcl? {
      ClaimPclKeepsTerms(w, tx.key, tx.withdraw, tx.rewards, tx.tokens);
    } else {
      OthersKeepTerms(w, tx);
    }
  }

  lemma OthersKeepTerms(w: World, tx: Tx)
    requires TermsInv(w.xyk, w.pcl, w.now) && Execute(w, tx).Ok?
    requires !(tx.LockLp? || tx.WithdrawLp? || tx.InitPool? || tx.Claim? || tx.MigrateLiquidity? || tx.ClaimPcl?)
    ensures var w' := Execute(w, tx).value; TermsInv(w'.xyk, w'.pcl, w.now)
  {
    var w' := Execute(w, tx).value;
    assert w'.pcl == w.pcl && w'.xyk.lockups == w.xyk.lockups && w'.xyk.config == w.xyk.config;
    forall j
      ensures LeftInTime(w'.xyk, w'.pcl, w.now, j) && PclLeftInTime(w'.pcl, w.now, j)
    {
      assert LeftInTime(w.xyk, w.pcl, w.now, j);
    }
  }

  lemma LaterKeepsTerms(w: World, elapsed: nat)
    requires TermsInv(w.xyk, w.pcl, w.now)
    ensures var l := Later(w, elapsed); TermsInv(l.xyk, l.pcl, l.now)
  {
    var l := Later(w, elapsed);
    forall j
      ensures LeftInTime(l.xyk, l.pcl, l.now, j) && PclLeftInTime(l.pcl, l.now, j)
    {
      assert LeftInTime(w.xyk, w.pcl, w.now, j);
    }
  }

  lemma NextKeepsTerms(w: World, e: Event)
    requires Inv(w) && TermsInv(w.xyk, w.pcl, w.now)
    ensures var w' := Next(w, e); TermsInv(w'.xyk, w'.pcl, w'.now)
  {
    TimePasses(w, e.elapsed);
    LaterKeepsTerms(w, e.elapsed);
    ApplyKeepsTerms(Later(w, e.elapsed), e.tx);
  }

  lemma ApplyKeepsTerms(w: World, tx: Tx)
    requires Inv(w) && TermsInv(w.xyk, w.pcl, w.now)
    ensures var w' := Apply(w, tx); TermsInv(w'.xyk, w'.pcl, w.now) && w'.now == w.now
  {
    if Execute(w, tx).Ok? {
      ExecuteKeepsTerms(w, tx);
      TimeStands(w, tx);
    }
  }

  lemma TimeStands(w: World, tx: Tx)
    requires Execute(w, tx).Ok?
    ensures Execute(w, tx).value.now == w.now
  {
  }

  lemma {:induction false} RunKeepsTerms(w: World, events: seq<Event>)
    requires Inv(w) && TermsInv(w.xyk, w.pcl, w.now)
    ensures Inv(Run(w, events))
    ensures var w' := Run(w, events); TermsInv(w'.xyk, w'.pcl, w'.now)
    decreases |events|
  {
    if events != [] {
      NextKeepsTerms(w, events[0]);
      NextKeeps(w, events[0]);
      RunKeepsTerms(Next(w, events[0]), events[1..]);
    }
  }

  /** In every run a position's time to unlock is the end of the lockdrop's windows plus its own duration, and in the PCL
      lockdrop it is the same. Until then nothing is taken out: the position is open in the XYK lockdrop, or it has moved to
      the PCL lockdrop and is open there. What the PCL lockdrop hands out afterwards is just the position's units. */
  lemma NothingLeavesEarly(start: World, events: seq<Event>, k: Key)
    requires Initial(start) && k in Run(start, events).xyk.lockups
    ensures var w := Run(start, events);
            var unlockTime := w.xyk.config.WindowsEnd() + k.duration;
            && w.xyk.lockups[k].unlockTime == unlockTime
            && (w.now < unlockTime ==> w.xyk.lockups[k].transferred.None? || (k in w.pcl.lockups && w.pcl.lockups[k].transferred.None?))
            && (k in w.pcl.lockups ==>
                  && w.pcl.lockups[k].unlockTime == unlockTime
                  && (w.pcl.lockups[k].transferred.Some? ==>
                        unlockTime <= w.now && w.pcl.lockups[k].transferred.value == w.pcl.lockups[k].units))
  {
    InitialInv(start);
    RunKeepsTerms(start, events);
    MigratedRecords.TermsAreCarriedOver(start, events, k);
    var w := Run(start, events);
    assert LeftInTime(w.xyk, w.pcl, w.now, k) && PclLeftInTime(w.pcl, w.now, k);
  }

  /** In every run a claim with unlock, in either lockdrop, succeeds only once the position's own duration has passed. */
  lemma UnlocksWait(start: World, events: seq<Event>, k: Key, pending: Option<nat>, rewards: seq<(Pcl.Token, nat)>, tokens: seq<Pcl.Token>)
    requires Initial(start)
    requires var w := Run(start, events);
             Execute(w, Claim(k, true, pending)).Ok? || Execute(w, ClaimPcl(k, true, rewards, tokens)).Ok?
    ensures var w := Run(start, events); k in w.xyk.lockups && w.xyk.config.WindowsEnd() + k.duration <= w.now
  {
    var w := Run(start, events);
    TgeProgress.ClaimSucceeds(start, events, k, true, pending);
    MigratedRecords.TermsAreCarriedOver(start, events, k);
    PclUnlockWaits(w.pcl, w.now, k, rewards, tokens);
    NothingLeavesEarly(start, events, k);
  }

  lemma PclUnlockWaits(c: Pcl.State, now: nat, k: Key, rewards: seq<(Pcl.Token, nat)>, tokens: seq<Pcl.Token>)
    ensures Pcl.Claim(c, now, k, true, rewards, tokens).Ok? ==> k in c.lockups && c.lockups[k].unlockTime <= now
  {
  }
}

/** What the PCL lockdrop knows of one-time rewards is what the XYK lockdrop owed, so a claim in it never has to compute them:
    exactly when it succeeds, in every run. */
module MigratedRewards {
  import opened Basics
  import opened Sums
  import opened PositionKeys
  import opened Tge
  import opened TgeInvariant
  import Auction
  import LockupWithdrawals
  import MigratedRecords
  import TgeProgress
  import TgeTheorems
  import Xyk = LockdropXyk
  import XykRewards = LockdropXykRewards
  import XykRun = LockdropXykRun
  import Pcl = LockdropPcl
  import PclProgress = LockdropPclProgress
  import PclSolvency = LockdropPclSolvency

  function DueAt(x: Xyk.State, k: Key): nat
    requires k in x.lockups
  {
    Xyk.Due(Xyk.Terms(x), k, x.lockups[k].units)
  }

  /** The rewards of all positions of u are recorded. */
  ghost predicate AllRecorded(x: Xyk.State, u: Addr) {
    forall k :: k in x.lockups && k.user == u ==> x.lockups[k].ntrnRewards == DueAt(x, k)
  }

  /** They are, once the user's total is. */
  ghost predicate RecordedTogether(x: Xyk.State) {
    forall u :: u in x.users && x.users[u].totalRewards != 0 ==> AllRecorded(x, u)
  }

  predicate CarriedReward(x: Xyk.State, c: Pcl.State, k: Key) {
    k in c.lockups ==> k in x.lockups && k.user in c.users && c.lockups[k].ntrnRewards == DueAt(x, k)
  }

  ghost predicate CarriedUser(x: Xyk.State, c: Pcl.State, u: Addr) {
    u in c.users ==>
      && u in x.users && x.users[u].totalRewards == XykRewards.TotalDue(x, u)
      && c.users[u] == Pcl.UserInfo(x.users[u].totalRewards, true, x.users[u].positions)
  }

  ghost predicate RewardsInv(x: Xyk.State, c: Pcl.State) {
    RecordedTogether(x) && (forall k :: CarriedReward(x, c, k)) && forall u :: CarriedUser(x, c, u)
  }

  /** Neither the terms of the rewards nor any units have changed. */
  predicate SameDue(x: Xyk.State, x': Xyk.State) {
    && Xyk.Terms(x') == Xyk.Terms(x) && x'.lockups.Keys == x.lockups.Keys
    && forall k :: k in x.lockups ==> x'.lockups[k].units == x.lockups[k].units
  }

  lemma SettledSameDue(x: Xyk.State, x': Xyk.State)
    requires XykRun.Settled(x, x')
    ensures SameDue(x, x')
  {
    forall k | k in x.lockups
      ensures x'.lockups[k].units == x.lockups[k].units
    {
      assert XykRun.SettledPosition(x.lockups[k], x'.lockups[k]);
    }
  }

  /** Users' counts stay, and a recorded total stays or is what is due. */
  ghost predicate SameUsers(x: Xyk.State, x': Xyk.State) {
    forall u :: u in x.users ==>
      && u in x'.users && x'.users[u].positions == x.users[u].positions
      && (x'.users[u].totalRewards == x.users[u].totalRewards || x'.users[u].totalRewards == XykRewards.TotalDue(x', u))
  }

  lemma SameDueKeepsCarried(x: Xyk.State, x': Xyk.State, c: Pcl.State)
    requires SameDue(x, x') && SameUsers(x, x') && (forall k :: CarriedReward(x, c, k)) && forall u :: CarriedUser(x, c, u)
    ensures (forall k :: CarriedReward(x', c, k)) && forall u :: CarriedUser(x', c, u)
  {
    forall k
      ensures CarriedReward(x', c, k)
    {
      assert CarriedReward(x, c, k);
    }
    forall u
      ensures CarriedUser(x', c, u)
    {
      assert CarriedUser(x, c, u);
      XykRewards.SameUnitsSameDue(Xyk.Terms(x), x.lockups, x'.lockups, u);
    }
  }

  // Rewards are recorded

  lemma FinalizeRecords(x: Xyk.State, u: Addr)
    requires XykRewards.OneTimeInv(x) && RecordedTogether(x) && Xyk.FinalizeRewards(x, u).Ok?
    ensures var x' := Xyk.FinalizeRewards(x, u).value;
            RecordedTogether(x') && AllRecorded(x', u) && SameUsers(x, x')
  {
    var x' := Xyk.FinalizeRewards(x, u).value;
    XykRewards.FinalizeKeepsOneTime(x, u);
    if x.users[u].totalRewards == 0 {
      forall v | v in x'.users && x'.users[v].totalRewards != 0
        ensures AllRecorded(x', v)
      {
        assert v != u ==> AllRecorded(x, v);
      }
    }
  }

  /** Steps after that, up to and with the one-time payment. */
  lemma PaymentKeepsRecorded(x: Xyk.State, x': Xyk.State, u: Addr)
    requires RecordedTogether(x) && Xyk.Terms(x') == Xyk.Terms(x) && x'.users == x.users && x'.lockups.Keys == x.lockups.Keys
    requires forall j :: j in x.lockups ==> x.lockups[j].units == x'.lockups[j].units && x.lockups[j].ntrnRewards == x'.lockups[j].ntrnRewards
    requires u in x.users
    ensures var y := Xyk.PayOneTime(x', u);
            RecordedTogether(y) && SameUsers(x, y) && SameDue(x, y) && forall v :: AllRecorded(x, v) ==> AllRecorded(y, v)
  {
    var y := Xyk.PayOneTime(x', u);
    assert y.lockups == x'.lockups && Xyk.Terms(y) == Xyk.Terms(x);
    forall v | AllRecorded(x, v)
      ensures AllRecorded(y, v)
    {
    }
    forall v | v in y.users && y.users[v].totalRewards != 0
      ensures AllRecorded(y, v)
    {
      assert AllRecorded(x, v);
    }
  }

  lemma SameUsersTwice(x: Xyk.State, y: Xyk.State, z: Xyk.State)
    requires SameUsers(x, y) && SameUsers(y, z) && SameDue(y, z)
    ensures SameUsers(x, z)
  {
    forall u | u in x.users
      ensures u in z.users && z.users[u].positions == x.users[u].positions
      ensures z.users[u].totalRewards == x.users[u].totalRewards || z.users[u].totalRewards == XykRewards.TotalDue(z, u)
    {
      XykRewards.SameUnitsSameDue(Xyk.Terms(y), y.lockups, z.lockups, u);
    }
  }

  lemma ClaimRecords(x: Xyk.State, now: nat, k: Key, withdraw: bool, pending: Option<nat>)
    requires XykRewards.OneTimeInv(x) && RecordedTogether(x) && Xyk.Claim(x, now, k, withdraw, pending).Ok?
    ensures var x' := Xyk.Claim(x, now, k, withdraw, pending).value; RecordedTogether(x') && SameUsers(x, x')
  {
    var x1 := Xyk.FinalizeRewards(x, k.user).value;
    var x2 := if x1.pools.Get(k.pool).isStaked then Xyk.Accrue(x1, k.pool, pending).value else x1;
    FinalizeRecords(x, k.user);
    if x1.pools.Get(k.pool).isStaked {
      AccrueLeavesRewards(x1, k.pool, pending);
    }
    CallbackRecords(x1, x2, k, withdraw);
    SameUsersTwice(x, x1, Xyk.WithdrawRewards(x2, k, withdraw).value);
  }

  lemma CallbackRecords(x: Xyk.State, x2: Xyk.State, k: Key, withdraw: bool)
    requires RecordedTogether(x) && Xyk.Terms(x2) == Xyk.Terms(x) && x2.users == x.users && x2.lockups == x.lockups
    requires k.user in x.users && k in x2.lockups && Xyk.WithdrawRewards(x2, k, withdraw).Ok?
    ensures var y := Xyk.WithdrawRewards(x2, k, withdraw).value; RecordedTogether(y) && SameUsers(x, y) && SameDue(x, y)
  {
    var x3 := XykRewards.BeforeOneTime(x2, k, withdraw);
    PaymentKeepsRecorded(x, x3, k.user);
  }

  lemma AccrueLeavesRewards(x: Xyk.State, p: Pool, pending: Option<nat>)
    requires Xyk.Accrue(x, p, pending).Ok?
    ensures var x' := Xyk.Accrue(x, p, pending).value;
            Xyk.Terms(x') == Xyk.Terms(x) && x'.users == x.users && x'.lockups == x.lockups
  {
  }

  // Before anything is claimed

  lemma UnclaimedIsRecorded(x: Xyk.State, c: Pcl.State)
    requires (forall u :: u in x.users ==> x.users[u].totalRewards == 0) && c.lockups == map[] && c.users == map[]
    ensures RewardsInv(x, c)
  {
  }

  // Migrations

  /** In the middle of a migration. */
  ghost predicate Carrying(x: Xyk.State, c: Pcl.State, now: nat, u: Addr) {
    Migrating(x, c, now, u) && RewardsInv(x, c) && AllRecorded(x, u)
  }

  lemma MoveRecords(x: Xyk.State, c: Pcl.State, now: nat, k: Key, leg: Leg)
    requires Carrying(x, c, now, k.user) && k in x.lockups && Xyk.Open(x.lockups[k]) && Xyk.MigratePosition(x, k, leg.pending).Ok?
    ensures var x' := Xyk.MigratePosition(x, k, leg.pending).value;
            && RecordedTogether(x') && SameUsers(x, x') && AllRecorded(x', k.user) && k.user in x'.users && x'.users[k.user].ntrnTransferred
  {
    var x3 := XykRewards.BeforeMigrationPayment(x, k, leg.pending);
    PaymentKeepsRecorded(x, x3, k.user);
  }

  lemma FinishCarries(x: Xyk.State, c: Pcl.State, k: Key, minted: nat, stake: bool)
    requires RewardsInv(x, c) && k in x.lockups && AllRecorded(x, k.user)
    requires k.user in x.users && x.users[k.user].totalRewards == XykRewards.TotalDue(x, k.user) && x.users[k.user].ntrnTransferred
    requires Pcl.FinishMigration(c, k, x.User(k.user), x.lockups[k], minted, stake).Ok?
    ensures RewardsInv(x, Pcl.FinishMigration(c, k, x.User(k.user), x.lockups[k], minted, stake).value)
  {
    var c' := Pcl.FinishMigration(c, k, x.User(k.user), x.lockups[k], minted, stake).value;
    forall j
      ensures CarriedReward(x, c', j)
    {
      assert CarriedReward(x, c, j);
    }
    forall u
      ensures CarriedUser(x, c', u)
    {
      assert CarriedUser(x, c, u);
    }
  }

  lemma MoveCarries(x: Xyk.State, c: Pcl.State, now: nat, k: Key, leg: Leg)
    requires Carrying(x, c, now, k.user) && k in x.lockups && Xyk.Open(x.lockups[k]) && MigrateOne(x, c, k, leg).Ok?
    ensures Carrying(MigrateOne(x, c, k, leg).value.0, MigrateOne(x, c, k, leg).value.1, now, k.user)
  {
    var x1 := Xyk.MigratePosition(x, k, leg.pending).value;
    MigrateOneKeeps(x, c, now, k, leg);
    MoveRecords(x, c, now, k, leg);
    SettledSameDue(x, x1);
    SameDueKeepsCarried(x, x1, c);
    FinishCarries(x1, c, k, leg.minted, x1.ledger.staked.Get(k.pool) == 0);
  }

  lemma {:induction false} MovesCarry(x: Xyk.State, c: Pcl.State, now: nat, u: Addr, keys: seq<Key>, legs: map<Key, Leg>)
    requires Carrying(x, c, now, u) && (forall i :: 0 <= i < |keys| ==> keys[i].user == u) && MigratePositions(x, c, keys, legs).Ok?
    ensures Carrying(MigratePositions(x, c, keys, legs).value.0, MigratePositions(x, c, keys, legs).value.1, now, u)
    decreases |keys|
  {
    if keys != [] {
      var k := keys[0];
      if Xyk.Open(x.lockups[k]) {
        var (x1, c1) := MigrateOne(x, c, k, LegOf(legs, k)).value;
        MoveCarries(x, c, now, k, LegOf(legs, k));
        MovesCarry(x1, c1, now, u, keys[1..], legs);
      } else {
        MovesCarry(x, c, now, u, keys[1..], legs);
      }
    }
  }

  lemma FinalizeCarries(x: Xyk.State, c: Pcl.State, u: Addr)
    requires XykRewards.OneTimeInv(x) && RewardsInv(x, c) && Xyk.FinalizeRewards(x, u).Ok?
    ensures RewardsInv(Xyk.FinalizeRewards(x, u).value, c) && AllRecorded(Xyk.FinalizeRewards(x, u).value, u)
  {
    FinalizeRecords(x, u);
    XykRun.FinalizeSettles(x, u);
    SettledSameDue(x, Xyk.FinalizeRewards(x, u).value);
    SameDueKeepsCarried(x, Xyk.FinalizeRewards(x, u).value, c);
  }

  lemma MigrationCarries(w: World, u: Addr, legs: map<Key, Leg>)
    requires Inv(w) && RewardsInv(w.xyk, w.pcl) && Execute(w, MigrateLiquidity(u, legs)).Ok?
    ensures var w' := Execute(w, MigrateLiquidity(u, legs)).value; RewardsInv(w'.xyk, w'.pcl)
  {
    var x := Xyk.FinalizeRewards(w.xyk, u).value;
    TgeProgress.ReadyToMigrate(w, u);
    FinalizeCarries(w.xyk, w.pcl, u);
    UserKeysComplete(x.lockups, u);
    MovesCarry(x, w.pcl, w.now, u, UserKeys(x.lockups, u), legs);
  }

  // Claims

  lemma ClaimCarries(w: World, k: Key, withdraw: bool, pending: Option<nat>)
    requires Inv(w) && RewardsInv(w.xyk, w.pcl) && Execute(w, Claim(k, withdraw, pending)).Ok?
    ensures RewardsInv(Execute(w, Claim(k, withdraw, pending)).value.xyk, w.pcl)
  {
    var x' := Execute(w, Claim(k, withdraw, pending)).value.xyk;
    XykRun.ClaimKeeps(w.xyk, w.now, k, withdraw, pending);
    ClaimRecords(w.xyk, w.now, k, withdraw, pending);
    SettledSameDue(w.xyk, x');
    SameDueKeepsCarried(w.xyk, x', w.pcl);
  }

  /** A user without a recorded total is owed nothing. */
  lemma NothingToRecord(x: Xyk.State, c: Pcl.State, u: Addr)
    requires RewardsInv(x, c) && u in c.users && c.users[u].totalRewards == 0
    ensures Total(c.lockups, Pcl.UserRewards(u)) == 0
  {
    assert CarriedUser(x, c, u);
    forall k | k in x.lockups
      ensures XykRewards.DueTo(Xyk.Terms(x), u)(k, x.lockups[k]) >= 0
    {
    }
    TotalNonNeg(x.lockups, XykRewards.DueTo(Xyk.Terms(x), u));
    forall k | k in c.lockups
      ensures Pcl.UserRewards(u)(k, c.lockups[k]) == 0
    {
      assert CarriedReward(x, c, k);
      assert k.user == u ==> XykRewards.DueTo(Xyk.Terms(x), u)(k, x.lockups[k]) == DueAt(x, k);
    }
    TotalScaledMono(c.lockups, 1, Pcl.UserRewards(u), 0, Pcl.UserRewards(u));
    TotalScaledMono(c.lockups, 0, Pcl.UserRewards(u), 1, Pcl.UserRewards(u));
  }

  lemma ClaimPclCarries(w: World, k: Key, withdraw: bool, rewards: seq<(Pcl.Token, nat)>, tokens: seq<Pcl.Token>)
    requires RewardsInv(w.xyk, w.pcl) && Execute(w, ClaimPcl(k, withdraw, rewards, tokens)).Ok?
    ensures RewardsInv(w.xyk, Execute(w, ClaimPcl(k, withdraw, rewards, tokens)).value.pcl)
  {
    var c, c' := w.pcl, Execute(w, ClaimPcl(k, withdraw, rewards, tokens)).value.pcl;
    PclProgress.ClaimPaysOnce(c, w.now, k, withdraw, rewards, tokens);
    PclSolvency.ClaimFrame(c, w.now, k, withdraw, rewards, tokens);
    PclSolvency.ClaimKeepsRecords(c, w.now, k, withdraw, rewards, tokens);
    assert CarriedUser(w.xyk, c, k.user);
    if c.users[k.user].totalRewards == 0 {
      NothingToRecord(w.xyk, c, k.user);
    }
    assert c'.users == c.users;
    forall j
      ensures CarriedReward(w.xyk, c', j)
    {
      assert CarriedReward(w.xyk, c, j);
      assert j in c'.lockups ==> PclSolvency.SameRecord(c.lockups[j], c'.lockups[j]);
    }
    forall u
      ensures CarriedUser(w.xyk, c', u)
    {
      assert CarriedUser(w.xyk, c, u);
    }
  }

  // Runs

  /** Until claims and migrations start, the PCL lockdrop is empty. */
  ghost predicate Carried(w: World) {
    && RewardsInv(w.xyk, w.pcl)
    && (!Started(w) ==> w.pcl.lockups == map[] && w.pcl.users == map[])
  }

  lemma WindowIsOpen(w: World, tx: Tx)
    requires Execute(w, tx).Ok? && (tx.LockLp? || tx.WithdrawLp? || tx.IncreaseIncentives?)
    ensures var w' := Execute(w, tx).value;
            && w.now < w.xyk.config.WindowsEnd() && w'.xyk.config == w.xyk.config && w'.now == w.now && w'.pcl == w.pcl
  {
  }

  lemma OpenIsUnclaimed(w: World)
    requires Inv(w) && w.now < w.xyk.config.WindowsEnd()
    ensures forall u :: u in w.xyk.users ==> w.xyk.users[u].totalRewards == 0
  {
    assert XykRewards.Unclaimed(w.xyk);
  }

  lemma InitKeepsUsers(w: World, minted: PerPool<nat>)
    requires Inv(w) && Execute(w, InitPool(minted)).Ok?
    ensures var w' := Execute(w, InitPool(minted)).value;
            && (forall u :: u in w'.xyk.users ==> w'.xyk.users[u].totalRewards == 0)
            && w'.pcl == w.pcl && !Started(w)
  {
    assert XykRewards.Unclaimed(w.xyk);
  }

  /** Positions are locked, pools initialised and incentives increased before anything is recorded or moved. */
  lemma EarlyStepsCarry(w: World, tx: Tx)
    requires Inv(w) && Carried(w) && Execute(w, tx).Ok? && (tx.LockLp? || tx.WithdrawLp? || tx.InitPool? || tx.IncreaseIncentives?)
    ensures Carried(Execute(w, tx).value)
  {
    var w' := Execute(w, tx).value;
    if tx.InitPool? {
      InitKeepsUsers(w, tx.minted);
    } else {
      WindowIsOpen(w, tx);
      ExecuteKeeps(w, tx);
      OpenIsUnclaimed(w');
    }
    UnclaimedIsRecorded(w'.xyk, w'.pcl);
  }

  lemma LateStepsCarry(w: World, tx: Tx)
    requires Inv(w) && Carried(w) && Execute(w, tx).Ok? && (tx.Claim? || tx.MigrateLiquidity?)
    ensures Carried(Execute(w, tx).value)
  {
    if tx.Claim? {
      ClaimCarries(w, tx.key, tx.withdraw, tx.pending);
    } else {
      MigrationCarries(w, tx.user, tx.legs);
    }
    StaysStarted(w, tx);
  }

  lemma StaysStarted(w: World, tx: Tx)
    requires Inv(w) && Execute(w, tx).Ok? && (tx.Claim? || tx.MigrateLiquidity?)
    ensures Started(w) && Started(Execute(w, tx).value)
  {
    if tx.Claim? {
      XykRun.ClaimKeeps(w.xyk, w.now, tx.key, tx.withdraw, tx.pending);
    } else {
      MigrateLiquidityKeeps(w, tx.user, tx.legs);
    }
  }

  lemma ClaimPclStepCarries(w: World, tx: Tx)
    requires Carried(w) && Execute(w, tx).Ok? && tx.ClaimPcl?
    ensures Carried(Execute(w, tx).value)
  {
    ClaimPclCarries(w, tx.key, tx.withdraw, tx.rewards, tx.tokens);
    PclProgress.ClaimPaysOnce(w.pcl, w.now, tx.key, tx.withdraw, tx.rewards, tx.tokens);
    assert tx.key.user in w.pcl.users;
  }

  lemma OthersCarry(w: World, tx: Tx)
    requires Carried(w) && Execute(w, tx).Ok?
    requires tx.Deposit? || tx.WithdrawDeposit? || tx.SetPoolSize? || tx.MigrateToVesting? || tx.ClaimVested?
    ensures Carried(Execute(w, tx).value)
  {
    if tx.MigrateToVesting? {
      LockupWithdrawals.HandOverKeepsMinted(w.auction, Auction.Batch(w.auction));
    }
  }

  lemma NextCarries(w: World, e: Event)
    requires Inv(w) && Carried(w)
    ensures Carried(Next(w, e))
  {
    TimePasses(w, e.elapsed);
    ApplyCarries(Later(w, e.elapsed), e.tx);
  }

  lemma ApplyCarries(w: World, tx: Tx)
    requires Inv(w) && Carried(w)
    ensures Carried(Apply(w, tx))
  {
    if Execute(w, tx).Ok? {
      if tx.LockLp? || tx.WithdrawLp? || tx.InitPool? || tx.IncreaseIncentives? {
        EarlyStepsCarry(w, tx);
      } else if tx.Claim? || tx.MigrateLiquidity? {
        LateStepsCarry(w, tx);
      } else if tx.ClaimPcl? {
        ClaimPclStepCarries(w, tx);
      } else {
        OthersCarry(w, tx);
      }
    }
  }

  lemma {:induction false} RunCarries(w: World, events: seq<Event>)
    requires Inv(w) && Carried(w)
    ensures Carried(Run(w, events))
    decreases |events|
  {
    if events != [] {
      NextCarries(w, events[0]);
      NextKeeps(w, events[0]);
      RunCarries(Next(w, events[0]), events[1..]);
    }
  }

  /** In every run, a position of the PCL lockdrop has the one-time reward that is due for the XYK position it comes from, and
      the record of a user has the number of the user's positions, the sum of the rewards due for all of them, and the mark that
      they were paid. */
  lemma RewardsAreCarriedOver(start: World, events: seq<Event>, k: Key, u: Addr)
    requires Initial(start)
    ensures var w := Run(start, events);
            && (k in w.pcl.lockups ==> k in w.xyk.lockups && k.user in w.pcl.users && w.pcl.lockups[k].ntrnRewards == DueAt(w.xyk, k))
            && (u in w.pcl.users ==>
                  && u in w.xyk.users && w.pcl.users[u].positions == w.xyk.users[u].positions
                  && w.pcl.users[u].totalRewards == XykRewards.TotalDue(w.xyk, u) && w.pcl.users[u].ntrnTransferred)
  {
    InitialInv(start);
    UnclaimedIsRecorded(start.xyk, start.pcl);
    RunCarries(start, events);
    var w := Run(start, events);
    assert CarriedReward(w.xyk, w.pcl, k) && CarriedUser(w.xyk, w.pcl, u);
  }

  // When claims in the PCL lockdrop succeed

  lemma PclBooks(c: Pcl.State, p: Pool)
    requires PclInv(c)
    ensures PclProgress.Books(c, p)
  {
  }

  /** In every run a claim in the PCL lockdrop succeeds exactly if the position is there and open, its time is over if it is to
      be unlocked, its pool has open units, and, in a pool that is staked, the received rewards can be spread and the listed
      tokens paid within 128 bits and, without unlock, there is something to pay. Nothing else can go wrong. */
  lemma ClaimPclSucceeds(start: World, events: seq<Event>, k: Key, withdraw: bool, rewards: seq<(Pcl.Token, nat)>, tokens: seq<Pcl.Token>)
    requires Initial(start)
    ensures var w := Run(start, events);
            && (k in w.pcl.lockups ==> k in w.xyk.lockups && w.pcl.lockups[k].unlockTime == w.xyk.lockups[k].unlockTime && w.pcl.User(k.user).ntrnTransferred)
            && (Execute(w, ClaimPcl(k, withdraw, rewards, tokens)).Ok? <==> PclProgress.CanClaim(w.pcl, w.now, k, withdraw, rewards, tokens))
  {
    var w := Run(start, events);
    TgeTheorems.Reached(start, events);
    MigratedRecords.TermsAreCarriedOver(start, events, k);
    RewardsAreCarriedOver(start, events, k, k.user);
    PclBooks(w.pcl, k.pool);
    PclProgress.ClaimSucceeds(w.pcl, w.now, k, withdraw, rewards, tokens);
    if k in w.pcl.lockups && w.pcl.users[k.user].totalRewards == 0 {
      InitialInv(start);
      UnclaimedIsRecorded(start.xyk, start.pcl);
      RunCarries(start, events);
      NothingToRecord(w.xyk, w.pcl, k.user);
    }
  }
}

/** Two short runs: in one a user's own unlock empties an XYK pool, so that the PCL pool is never staked; in the other a
    position without units blocks the migration of its user. */
module TgeExamples {
  import opened Basics
  import opened FixedPoint
  import opened Sums
  import opened Tge
  import opened TgeInvariant
  import opened PositionKeys
  import opened TgeProgress
  import opened TgeStaking
  import TgeBlocked
  import Auction
  import MigrationRefinement
  import Ordered
  import XykPositions = LockdropXykPositions
  import AuctionVesting
  import Progress = LockdropXykProgress
  import Xyk = LockdropXyk
  import XykSolvency = LockdropXykSolvency
  import XykRun = LockdropXykRun
  import Pcl = LockdropPcl
  import Vesting

  /** Windows of the auction end at times 1, 2 and 12, the lockdrop's at time 20; one duration is offered. */
  predicate Configured(w: World) {
    && w.auction.config.initTime == 0 && w.auction.config.DepositEnd() == 1 && w.auction.config.WindowsEnd() == 2 && w.auction.config.LockEnd() == 12
    && w.auction.config.maxRateAge == w.auction.config.minNtrn == 0
    && w.xyk.config.LockEnd() == w.xyk.config.WindowsEnd() == 20 && w.xyk.config.initTime + w.xyk.config.lockWindow + w.xyk.config.withdrawalWindow == 20
    && w.xyk.config.minDuration == w.xyk.config.maxDuration == 1 && w.xyk.config.maxPositions == 9
    && w.xyk.config.rewards == w.pcl.rewards == [Xyk.RewardsInfo(1, 0)]
  }

  // Deposits and pool sizes

  function Thousand(): PerPool<nat> {
    PerPool(1000, 1000)
  }

  /** User u has deposited 1000 of both tokens. */
  predicate Depositor(a: Auction.State, u: Addr) {
    u in a.users && a.users[u].deposited == Thousand()
  }

  /** Both users have deposited, and nobody else. */
  predicate Deposited(a: Auction.State) {
    && Depositor(a, 1) && Depositor(a, 2) && a.deposited == PerPool(2000, 2000) && a.minted.None?
  }

  /** The USDC and the ATOM are worth the same, so each pool gets 2000 NTRN and is to mint 1000 LP tokens. */
  predicate Sized(a: Auction.State) {
    Deposited(a) && a.ntrnSize == PerPool(2000, 2000) && a.lpSize == Thousand()
  }

  lemma IsqrtIs(n: nat, r: nat)
    requires r * r <= n < (r + 1) * (r + 1)
    ensures Auction.Isqrt(n) == r
  {
    var s := Auction.Isqrt(n);
    if s < r {
      Squares(s + 1, r);
    } else if r < s {
      Squares(r + 1, s);
    }
  }

  lemma Squares(a: nat, b: nat)
    requires a <= b
    ensures a * a <= b * b
  {
  }

  lemma LpSizeIs(a: nat, b: nat)
    requires a == b == 2000
    ensures Auction.LpSize(a, b) == Ok(1000)
  {
    IsqrtIs(a * b, 2000);
  }

  lemma SplitIs(deposited: PerPool<nat>, ntrn: nat, rates: seq<Auction.Rate>)
    requires deposited == PerPool(2000, 2000) && ntrn == 4000 && |rates| == 2 && rates[0].rate == rates[1].rate == 1
    ensures Auction.UsdcNtrnSize(deposited, ntrn, rates) == Ok(2000)
  {
  }

  lemma Sizes(a: Auction.State, now: nat, rates: seq<Auction.Rate>)
    requires Deposited(a) && a.ntrnSize == PerPool(0, 0) && now >= a.config.WindowsEnd() && a.config.maxRateAge == a.config.minNtrn == 0
    requires |rates| == 2 && rates[0].rate == rates[1].rate == 1 && rates[0].resolveTime >= now
    ensures var r := Auction.SetPoolSize(a, now, 4000, rates);
            r.Ok? && Sized(r.value) && r.value == a.(ntrnSize := r.value.ntrnSize, lpSize := r.value.lpSize)
  {
    SplitIs(a.deposited, 4000, rates);
    LpSizeIs(2000, 2000);
  }

  lemma EntitledTo(a: Auction.State, u: Addr, p: Pool)
    requires Sized(a) && (u == 1 || u == 2)
    ensures Auction.Entitlement(a, u, p) == 250
  {
  }

  // Steps

  /** Anybody may lock: the sizes are set at time 5, and nobody has more than n positions. */
  ghost predicate Locking(w: World, n: nat) {
    && Inv(w) && Configured(w) && Sized(w.auction) && w.now == 5 && w.xyk.incentives == 0
    && (forall u :: w.xyk.User(u).positions <= n)
    && (forall p :: Units(w.xyk, p) <= 250 * n && w.pcl.pools.Get(p).amountInLockups == 0)
    && w.pcl.userTotals == map[]
  }

  lemma DepositStep(w: World, u: Addr)
    requires Inv(w) && Configured(w) && w.now == 0 && w.auction.minted.None? && w.auction.User(u).deposited == PerPool(0, 0)
    requires w.auction.deposited.usdc <= 1000 && w.auction.deposited.atom <= 1000
    ensures var w' := Next(w, Event(0, Deposit(u, Thousand())));
            && Inv(w') && w' == w.(auction := w'.auction)
            && Depositor(w'.auction, u) && (forall v :: v != u ==> w'.auction.User(v) == w.auction.User(v))
            && w'.auction.deposited == PerPool(w.auction.deposited.usdc + 1000, w.auction.deposited.atom + 1000)
            && w'.auction == w.auction.(users := w'.auction.users, deposited := w'.auction.deposited)
  {
    assert Later(w, 0) == w;
    NextKeeps(w, Event(0, Deposit(u, Thousand())));
  }

  function SizeEvent(): Event {
    Event(5, SetPoolSize(4000, [Auction.Rate(1, 5), Auction.Rate(1, 5)]))
  }

  lemma SizeStep(w: World)
    requires Inv(w) && Configured(w) && w.now == 0 && Deposited(w.auction) && w.auction.ntrnSize == PerPool(0, 0)
    ensures var w' := Next(w, SizeEvent());
            && Inv(w') && w' == w.(auction := w'.auction, now := 5) && Sized(w'.auction)
            && w'.auction.config == w.auction.config
  {
    NextKeeps(w, SizeEvent());
    Sizes(w.auction, 5, [Auction.Rate(1, 5), Auction.Rate(1, 5)]);
  }

  function Preparations(): seq<Event> {
    [Event(0, Deposit(1, Thousand())), Event(0, Deposit(2, Thousand())), SizeEvent()]
  }

  predicate Suitable(start: World) {
    Configured(start) && start.now == 0 && start.xyk.incentives == 0
  }

  /** There is such a start. */
  lemma SuitableStart() returns (w: World)
    ensures Initial(w) && Suitable(w)
  {
    var none, empty := PerPool(0, 0), Xyk.PoolInfo(0, 0, 0, 0, false);
    var rewards := [Xyk.RewardsInfo(1, 0)];
    var auction := Auction.State(Auction.Config(0, 1, 1, 10, 0, 0, 1, 1), map[], none, None, 0, none, none, none,
                                 Auction.Ledger(none, none, none, PerPool(map[], map[])));
    var xyk := Xyk.State(Xyk.Config(0, 20, 0, 1, 1, 9, rewards), 0, 0, PerPool(empty, empty), map[], map[], map[],
                         Xyk.Ledger(none, none, none, none, map[], none, none));
    var pclPool := Pcl.PoolInfo(0, 0, [], false);
    var pcl := Pcl.State(rewards, PerPool(pclPool, pclPool), map[], map[], map[], Pcl.Ledger(none, none, map[], map[], map[], none));
    var vesting := Vesting.State(map[], 0, 0, 0);
    w := World(0, auction, xyk, pcl, PerPool(vesting, vesting));
  }

  lemma {:induction false} RunOn(w: World, a: seq<Event>, b: seq<Event>)
    ensures Run(w, a + b) == Run(Run(w, a), b)
    decreases |a|
  {
    if a == [] {
      assert a + b == b;
    } else {
      assert (a + b)[0] == a[0] && (a + b)[1..] == a[1..] + b;
      RunOn(Next(w, a[0]), a[1..], b);
    }
  }

  lemma RunOne(w: World, e: Event)
    ensures Run(w, [e]) == Next(w, e)
  {
    assert [e][1..] == [];
    assert Run(Next(w, e), []) == Next(w, e);
  }

  lemma RunThree(w: World, d: Event, e: Event, f: Event)
    ensures Run(w, [d, e, f]) == Next(Next(Next(w, d), e), f)
  {
    assert [d, e, f] == [d] + ([e] + [f]);
    RunOn(w, [d], [e] + [f]);
    RunOn(Next(w, d), [e], [f]);
    RunOne(w, d);
    RunOne(Next(w, d), e);
    RunOne(Next(Next(w, d), e), f);
  }

  lemma BothDeposit(start: World)
    requires Initial(start) && Suitable(start)
    ensures var w := Next(Next(start, Preparations()[0]), Preparations()[1]);
            && Inv(w) && w == start.(auction := w.auction) && Deposited(w.auction)
            && w.auction == start.auction.(users := w.auction.users, deposited := w.auction.deposited)
            && (forall u :: w.auction.User(u).locked == PerPool(0, 0))
  {
    InitialInv(start);
    DepositStep(start, 1);
    var w1 := Next(start, Preparations()[0]);
    assert w1.auction.User(2) == start.auction.User(2);
    DepositStep(w1, 2);
    assert Next(w1, Preparations()[1]).auction.User(1) == w1.auction.User(1);
    NothingLocked(start, w1, Next(w1, Preparations()[1]));
  }

  lemma NothingLocked(w: World, w1: World, w2: World)
    requires w.auction.users == map[] && w1 == Next(w, Preparations()[0]) && w2 == Next(w1, Preparations()[1])
    ensures forall u :: w2.auction.User(u).locked == PerPool(0, 0)
  {
  }

  lemma Prepared(start: World)
    requires Initial(start) && Suitable(start)
    ensures var w := Run(start, Preparations());
            && Locking(w, 0) && w.xyk == start.xyk && w.auction.locked == PerPool(0, 0)
            && (forall u :: w.auction.User(u).locked == PerPool(0, 0))
  {
    BothDeposit(start);
    var w := Next(Next(start, Preparations()[0]), Preparations()[1]);
    SizeStep(w);
    RunThree(start, Preparations()[0], Preparations()[1], Preparations()[2]);
    SizeKeepsLocks(w);
  }

  lemma SizeKeepsLocks(w: World)
    ensures Next(w, SizeEvent()).auction.users == w.auction.users && Next(w, SizeEvent()).auction.locked == w.auction.locked
  {
  }

  // Locks

  lemma AuctionLocks(a: Auction.State, u: Addr, p: Pool, units: nat)
    requires Sized(a) && (u == 1 || u == 2) && a.config.LockEnd() == 12 && a.User(u).locked.Get(p) + units <= 250 && a.locked.Get(p) <= 1000
    ensures var r := Auction.LockLp(a, 5, u, p, units);
            && r.Ok? && Sized(r.value) && r.value.config == a.config
            && r.value.locked == a.locked.Set(p, a.locked.Get(p) + units)
            && r.value.User(u).locked == a.User(u).locked.Set(p, a.User(u).locked.Get(p) + units)
            && (forall v :: v != u ==> r.value.User(v) == a.User(v))
  {
    EntitledTo(a, u, p);
  }

  /** What is stored for a fresh position. */
  function Position(units: nat): Xyk.Lockup {
    Xyk.Lockup(units, None, 0, 21, 0, false)
  }

  lemma XykLocks(w: World, n: nat, k: Key, units: nat)
    requires Configured(w) && n < 9 && (forall u :: w.xyk.User(u).positions <= n) && (forall p :: Units(w.xyk, p) <= 250 * n)
    requires k !in w.xyk.lockups && k.duration == 1 && units <= 250
    ensures var x, r := w.xyk, Xyk.IncreaseLockup(w.xyk, 5, k, units);
            && r.Ok? && r.value.config == x.config && r.value.incentives == x.incentives
            && r.value.lockups == x.lockups[k := Position(units)]
            && Units(r.value, k.pool) == Units(x, k.pool) + units && (forall p :: p != k.pool ==> Units(r.value, p) == Units(x, p))
            && (forall u :: r.value.User(u).positions <= n + 1)
            && r.value.users.Keys == x.users.Keys + {k.user}
  {
    assert Xyk.Multiplier(w.xyk.config.rewards, 1) == ONE;
    MulDivCancel(units, ONE);
    assert ONE * units == units * ONE;
    assert Units(w.xyk, k.pool) <= 250 * n && w.xyk.User(k.user).positions <= n;
    var r := Xyk.IncreaseLockup(w.xyk, 5, k, units);
    assert r.Ok?;
    forall u
      ensures r.value.User(u).positions <= n + 1
    {
      assert w.xyk.User(u).positions <= n;
    }
  }

  lemma LockStep(w: World, n: nat, k: Key, units: nat)
    requires Locking(w, n) && n < 4 && CanLock(w, k, units)
    ensures Locking(Next(w, Event(0, LockLp(k, units))), n + 1) && Locked(w, Next(w, Event(0, LockLp(k, units))), k, units)
  {
    LockHappens(w, n, k, units);
    NextKeeps(w, Event(0, LockLp(k, units)));
    var w' := Next(w, Event(0, LockLp(k, units)));
    forall p
      ensures Units(w'.xyk, p) <= 250 * (n + 1)
    {
      assert Units(w.xyk, p) <= 250 * n;
    }
  }

  predicate CanLock(w: World, k: Key, units: nat) {
    && k !in w.xyk.lockups && k.duration == 1 && (k.user == 1 || k.user == 2)
    && w.auction.User(k.user).locked.Get(k.pool) + units <= 250 && w.auction.locked.Get(k.pool) <= 1000
  }

  ghost predicate Locked(w: World, w': World, k: Key, units: nat) {
    && w'.xyk.lockups == w.xyk.lockups[k := Position(units)] && w'.xyk.users.Keys == w.xyk.users.Keys + {k.user}
    && w'.auction.locked == w.auction.locked.Set(k.pool, w.auction.locked.Get(k.pool) + units)
    && w'.auction.User(k.user).locked == w.auction.User(k.user).locked.Set(k.pool, w.auction.User(k.user).locked.Get(k.pool) + units)
    && (forall v :: v != k.user ==> w'.auction.User(v) == w.auction.User(v))
    && (forall p :: Units(w'.xyk, p) == Units(w.xyk, p) + if p == k.pool then units else 0)
  }

  lemma LockHappens(w: World, n: nat, k: Key, units: nat)
    requires Configured(w) && Sized(w.auction) && w.now == 5 && n < 4 && CanLock(w, k, units)
    requires (forall u :: w.xyk.User(u).positions <= n) && (forall p :: Units(w.xyk, p) <= 250 * n)
    ensures var w' := Next(w, Event(0, LockLp(k, units)));
            && Locked(w, w', k, units) && Configured(w') && Sized(w'.auction)
            && w' == w.(auction := w'.auction, xyk := w'.xyk) && w'.xyk.incentives == w.xyk.incentives
            && (forall u :: w'.xyk.User(u).positions <= n + 1)
  {
    assert Later(w, 0) == w;
    AuctionLocks(w.auction, k.user, k.pool, units);
    XykLocks(w, n, k, units);
    LockTogether(w, k, units);
  }

  lemma LockTogether(w: World, k: Key, units: nat)
    requires Auction.LockLp(w.auction, w.now, k.user, k.pool, units).Ok? && Xyk.IncreaseLockup(w.xyk, w.now, k, units).Ok?
    ensures Apply(w, LockLp(k, units)) ==
            w.(auction := Auction.LockLp(w.auction, w.now, k.user, k.pool, units).value, xyk := Xyk.IncreaseLockup(w.xyk, w.now, k, units).value)
  {
  }

  // Initialisation

  function InitEvent(): Event {
    Event(20, InitPool(Thousand()))
  }

  /** The pools are initialised, nothing was claimed yet, and no rewards arrived. */
  ghost predicate Claiming(w: World) {
    && Inv(w) && Started(w) && w.now == 25 && w.xyk.incentives == 0
    && w.xyk.config.rewards == w.pcl.rewards == [Xyk.RewardsInfo(1, 0)]
    && (forall p :: w.xyk.pools.Get(p).perShare == 0)
  }

  lemma InitStep(w: World, n: nat)
    requires Locking(w, n)
    ensures var w' := Next(w, InitEvent());
            && Claiming(w') && w'.xyk.lockups == w.xyk.lockups && w'.xyk.users == w.xyk.users
            && (forall p :: Units(w'.xyk, p) == Units(w.xyk, p)) && w'.pcl == w.pcl
  {
    NextKeeps(w, InitEvent());
    var l := Later(w, 20);
    TimePasses(w, 20);
    AuctionInitialises(l.auction, l.now);
    NoShares(l.xyk, l.now);
    LockdropInitialises(l.xyk, Auction.InitPool(l.auction, l.now, Thousand()).value);
    InitTogether(l);
  }

  lemma AuctionInitialises(a: Auction.State, now: nat)
    requires AuctionInv(a, now) && Sized(a) && a.config.LockEnd() <= now
    ensures var r := Auction.InitPool(a, now, Thousand());
            r.Ok? && r.value.minted.Some? && r.value.ntrnSize == PerPool(2000, 2000) && r.value.config == a.config
  {
    AuctionVesting.InitPoolNeverShort(a, now, Thousand());
  }

  lemma NoShares(x: Xyk.State, now: nat)
    requires XykRun.XykInv(x, false, now)
    ensures x.totalShare == 0 && x.pools.usdc.perShare == 0 && x.pools.atom.perShare == 0
  {
    assert XykSolvency.PoolInv(x, USDC) && XykSolvency.PoolInv(x, ATOM);
  }

  lemma LockdropInitialises(x: Xyk.State, a: Auction.State)
    requires x.totalShare == 0 && a.ntrnSize == PerPool(2000, 2000)
    ensures var r := SendLocked(x, ATOM, a.ntrnSize.atom, a.locked.atom);
            && r.Ok?
            && var s := SendLocked(r.value, USDC, a.ntrnSize.usdc, a.locked.usdc);
            && s.Ok? && s.value.lockups == x.lockups && s.value.users == x.users && s.value.config == x.config && s.value.incentives == x.incentives
            && (forall p :: Units(s.value, p) == Units(x, p) && s.value.pools.Get(p).perShare == x.pools.Get(p).perShare)
  {
  }

  lemma InitTogether(w: World)
    requires var a := Auction.InitPool(w.auction, w.now, Thousand());
             && a.Ok? && SendLocked(w.xyk, ATOM, a.value.ntrnSize.atom, a.value.locked.atom).Ok?
             && SendLocked(SendLocked(w.xyk, ATOM, a.value.ntrnSize.atom, a.value.locked.atom).value, USDC, a.value.ntrnSize.usdc, a.value.locked.usdc).Ok?
    ensures var a := Auction.InitPool(w.auction, w.now, Thousand()).value;
            var x := SendLocked(w.xyk, ATOM, a.ntrnSize.atom, a.locked.atom).value;
            Apply(w, InitPool(Thousand())) == w.(auction := a, xyk := SendLocked(x, USDC, a.ntrnSize.usdc, a.locked.usdc).value)
  {
  }

  // Two locks

  lemma TwoLocks(w: World, j: Key, m: nat, k: Key, n: nat)
    requires Locking(w, 0) && w.xyk.lockups == map[] && w.auction.locked == PerPool(0, 0) && forall u :: w.auction.User(u).locked == PerPool(0, 0)
    requires j.user != k.user || j.pool != k.pool
    requires j.duration == k.duration == 1 && 1 <= j.user <= 2 && 1 <= k.user <= 2 && m <= 250 && n <= 250
    ensures var w' := Next(Next(w, Event(0, LockLp(j, m))), Event(0, LockLp(k, n)));
            && Locking(w', 2) && w'.xyk.lockups == map[j := Position(m), k := Position(n)] && j.user in w'.xyk.users && k.user in w'.xyk.users
            && (forall p :: Units(w'.xyk, p) == Units(w.xyk, p) + (if p == j.pool then m else 0) + (if p == k.pool then n else 0))
  {
    LockStep(w, 0, j, m);
    var w1 := Next(w, Event(0, LockLp(j, m)));
    LockStep(w1, 1, k, n);
    assert w.xyk.lockups[j := Position(m)][k := Position(n)] == map[j := Position(m), k := Position(n)];
  }

  /** Two positions are locked, by different users or in different pools, and the pools are initialised. */
  lemma TwoLocked(start: World, j: Key, m: nat, k: Key, n: nat)
    requires Initial(start) && Suitable(start)
    requires j.user != k.user || j.pool != k.pool
    requires j.duration == k.duration == 1 && 1 <= j.user <= 2 && 1 <= k.user <= 2 && m <= 250 && n <= 250
    ensures var w := Run(start, Preparations() + [Event(0, LockLp(j, m)), Event(0, LockLp(k, n)), InitEvent()]);
            && Claiming(w) && w.xyk.lockups == map[j := Position(m), k := Position(n)] && j.user in w.xyk.users && k.user in w.xyk.users
            && (forall p :: Units(w.xyk, p) == (if p == j.pool then m else 0) + (if p == k.pool then n else 0))
            && (forall p :: w.pcl.pools.Get(p).amountInLockups == 0) && w.pcl.userTotals == map[]
  {
    Prepared(start);
    var w := Run(start, Preparations());
    TwoLocks(w, j, m, k, n);
    InitStep(Next(Next(w, Event(0, LockLp(j, m))), Event(0, LockLp(k, n))), 2);
    RunOn(start, Preparations(), [Event(0, LockLp(j, m)), Event(0, LockLp(k, n)), InitEvent()]);
    RunThree(w, Event(0, LockLp(j, m)), Event(0, LockLp(k, n)), InitEvent());
    NoUnits(start);
  }

  lemma NoUnits(start: World)
    requires Initial(start)
    ensures forall p :: Units(start.xyk, p) == 0
  {
  }

  // Rewards and keys

  /** Without incentives a user's one-time rewards are zero. */
  lemma NothingToRecord(x: Xyk.State, u: Addr)
    requires x.incentives == 0 && u in x.users && x.config.rewards == [Xyk.RewardsInfo(1, 0)]
    requires forall k :: k in x.lockups ==> k.duration == 1 && x.lockups[k].units <= 250 && x.lockups[k].ntrnRewards == 0
    ensures Progress.Recordable(x, u) && Xyk.WithRewards(x, u) == x.lockups
  {
    forall k | k in x.lockups
      ensures Xyk.RewardFits(x, k, x.lockups[k].units) && Xyk.Due(Xyk.Terms(x), k, x.lockups[k].units) == 0
    {
      NoReward(x, k);
    }
    assert Xyk.WithRewards(x, u) == x.lockups;
    forall k | k in x.lockups
      ensures 1 * Xyk.UserRewards(u)(k, x.lockups[k]) <= 0 * Xyk.UserRewards(u)(k, x.lockups[k])
    {
      assert x.lockups[k].ntrnRewards == 0;
    }
    TotalScaledMono(x.lockups, 1, Xyk.UserRewards(u), 0, Xyk.UserRewards(u));
  }

  lemma NoReward(x: Xyk.State, k: Key)
    requires x.incentives == 0 && x.config.rewards == [Xyk.RewardsInfo(1, 0)] && k in x.lockups && k.duration == 1 && x.lockups[k].units <= 250
    ensures Xyk.RewardFits(x, k, x.lockups[k].units) && Xyk.Due(Xyk.Terms(x), k, x.lockups[k].units) == 0
  {
    assert Xyk.Multiplier(x.config.rewards, 1) == ONE;
    MulDivCancel(x.lockups[k].units, ONE);
    assert ONE * x.lockups[k].units == x.lockups[k].units * ONE;
    NoIncentives(Xyk.Weight(x.config, x.lockups[k].units, 1), Xyk.Terms(x).weights.Get(k.pool), Xyk.Terms(x).shares.Get(k.pool), x.totalShare);
  }

  lemma NoIncentives(weight: nat, totalWeight: nat, share: nat, totalShare: nat)
    ensures Xyk.Incentives(weight, totalWeight, share, totalShare, 0) == 0
  {
  }

  lemma OneKey<V>(m: map<Key, V>, u: Addr, k: Key)
    requires forall j :: j in m && j.user == u <==> j == k
    ensures UserKeys(m, u) == [k]
  {
    var other := if k.pool == USDC then ATOM else USDC;
    assert k in m;
    assert Durations(m, u, k.pool) == {k.duration} && Durations(m, u, other) == {};
    OnlyOne(k.duration);
    assert KeysFor(u, k.pool, [k.duration]) == [k] && KeysFor(u, other, []) == [];
    assert [k] + [] == [k] && [] + [k] == [k];
  }

  lemma OnlyOne(n: nat)
    ensures Ordered.Ascending({n}) == [n]
  {
    assert Ordered.Least({n}) == n;
    assert {n} - {n} == {};
    assert Ordered.Ascending({}) == [];
  }

  // A run in which the last one unlocks

  function First(): Key {
    Key(USDC, 1, 1)
  }

  function Second(): Key {
    Key(USDC, 2, 1)
  }

  function Legs(): map<Key, Leg> {
    map[First() := Leg(None, 50)]
  }

  /** Two users lock 100 LP tokens each; the first one migrates, the second one unlocks. */
  function UnlockRun(): seq<Event> {
    Preparations() + [Event(0, LockLp(First(), 100)), Event(0, LockLp(Second(), 100)), InitEvent()]
    + [Event(0, MigrateLiquidity(1, Legs())), Event(0, Claim(Second(), true, None))]
  }

  /** Both have locked, and claims have started. */
  ghost predicate BothLocked(w: World) {
    && Claiming(w) && w.xyk.lockups == map[First() := Position(100), Second() := Position(100)]
    && 1 in w.xyk.users && 2 in w.xyk.users && Units(w.xyk, USDC) == 200
    && w.pcl.pools.usdc.amountInLockups == 0 && w.pcl.userTotals == map[]
  }

  lemma LockedByBoth(start: World)
    requires Initial(start) && Suitable(start)
    ensures BothLocked(Run(start, Preparations() + [Event(0, LockLp(First(), 100)), Event(0, LockLp(Second(), 100)), InitEvent()]))
  {
    TwoLocked(start, First(), 100, Second(), 100);
    var w := Run(start, Preparations() + [Event(0, LockLp(First(), 100)), Event(0, LockLp(Second(), 100)), InitEvent()]);
    assert w.pcl.pools.Get(USDC).amountInLockups == 0 && Units(w.xyk, USDC) == 200;
  }

  lemma FirstCanLeave(w: World)
    requires BothLocked(w)
    ensures UserKeys(w.xyk.lockups, 1) == [First()]
    ensures var b := Leave(BookOf(w.xyk, w.pcl, 1, USDC), w.pcl.rewards, 1, 100, LegOf(Legs(), First()));
            b.Ok? && b.value.open == 100 && b.value.perShare == 0 && b.value.locked == 50
    ensures AllLeave(w.xyk.lockups, w.pcl.rewards, Books(w.xyk, w.pcl, 1), [First()], Legs())
  {
    OneKey(w.xyk.lockups, 1, First());
    assert Xyk.Multiplier(w.pcl.rewards, 1) == ONE;
    assert LegOf(Legs(), First()) == Leg(None, 50);
    assert BookOf(w.xyk, w.pcl, 1, USDC) == Book(200, 0, 0, 0);
    assert [First()][1..] == [];
  }

  /** The first user's migration takes 100 of the 200 units and brings 50 to the PCL pool. */
  ghost predicate FirstLeft(w: World) {
    && Inv(w) && Started(w) && w.now == 25 && Units(w.xyk, USDC) == 100 && w.xyk.pools.usdc.perShare == 0
    && w.pcl.pools.usdc.amountInLockups == 50
    && w.xyk.incentives == 0 && w.xyk.config.rewards == [Xyk.RewardsInfo(1, 0)] && 2 in w.xyk.users
    && w.xyk.lockups == map[First() := Position(100).(transferred := Some(100)), Second() := Position(100)]
  }

  lemma FirstMigrates(w: World)
    requires BothLocked(w)
    ensures Execute(w, MigrateLiquidity(1, Legs())).Ok? && FirstLeft(Next(w, Event(0, MigrateLiquidity(1, Legs()))))
  {
    FirstCanLeave(w);
    NothingToRecord(w.xyk, 1);
    MigrationInState(w, 1, Legs());
    NextKeeps(w, Event(0, MigrateLiquidity(1, Legs())));
    assert Later(w, 0) == w;
    FirstIsReady(w);
    var f := Xyk.FinalizeRewards(w.xyk, 1).value;
    MigrationIsOne(w, f);
    FirstMoves(f, w.pcl, w.now);
  }

  lemma FirstIsReady(w: World)
    requires BothLocked(w)
    ensures Xyk.FinalizeRewards(w.xyk, 1).Ok?
    ensures var f := Xyk.FinalizeRewards(w.xyk, 1).value;
            && XykRun.XykInv(f, true, w.now) && f.lockups == w.xyk.lockups && f.pools == w.xyk.pools && f.config == w.xyk.config
            && f.incentives == 0 && f.users.Keys == w.xyk.users.Keys && UserKeys(f.lockups, 1) == [First()]
  {
    NothingToRecord(w.xyk, 1);
    Progress.FinalizeSucceeds(w.xyk, 1);
    ReadyToMigrate(w, 1);
    OneKey(w.xyk.lockups, 1, First());
  }

  lemma FirstMoves(f: Xyk.State, c: Pcl.State, now: nat)
    requires XykRun.XykInv(f, true, now) && f.lockups == map[First() := Position(100), Second() := Position(100)]
    requires var b := Leave(BookOf(f, c, 1, USDC), c.rewards, 1, 100, LegOf(Legs(), First()));
             b.Ok? && b.value.open == 100 && b.value.perShare == 0 && b.value.locked == 50
    ensures var r := MigrateOne(f, c, First(), LegOf(Legs(), First()));
            && r.Ok? && Units(r.value.0, USDC) == 100 && r.value.0.pools.usdc.perShare == 0 && r.value.1.pools.usdc.amountInLockups == 50
            && r.value.0.lockups == map[First() := Position(100).(transferred := Some(100)), Second() := Position(100)]
            && r.value.0.incentives == f.incentives && r.value.0.config == f.config && f.users.Keys <= r.value.0.users.Keys
  {
    FirstBook(f, c, now);
    MigratedFrame(f, c, First(), LegOf(Legs(), First()));
    var (x', c') := MigrateOne(f, c, First(), LegOf(Legs(), First())).value;
    ReadBook(x', c', Leave(BookOf(f, c, 1, USDC), c.rewards, 1, 100, LegOf(Legs(), First())).value);
    assert f.lockups[First() := Position(100).(transferred := Some(100))] ==
           map[First() := Position(100).(transferred := Some(100)), Second() := Position(100)];
  }

  lemma ReadBook(x: Xyk.State, c: Pcl.State, b: Book)
    requires BookOf(x, c, 1, USDC) == b && b.open == 100 && b.perShare == 0 && b.locked == 50
    ensures Units(x, USDC) == 100 && x.pools.usdc.perShare == 0 && c.pools.usdc.amountInLockups == 50
  {
  }

  lemma FirstBook(f: Xyk.State, c: Pcl.State, now: nat)
    requires XykRun.XykInv(f, true, now) && f.lockups == map[First() := Position(100), Second() := Position(100)]
    requires Leave(BookOf(f, c, 1, USDC), c.rewards, 1, 100, LegOf(Legs(), First())).Ok?
    ensures var r := MigrateOne(f, c, First(), LegOf(Legs(), First()));
            && r.Ok?
            && BookOf(r.value.0, r.value.1, 1, USDC) == Leave(BookOf(f, c, 1, USDC), c.rewards, 1, 100, LegOf(Legs(), First())).value
            && r.value.0.lockups == f.lockups[First() := Position(100).(transferred := Some(100))]
  {
    MigrateOneSucceeds(f, c, now, First(), LegOf(Legs(), First()));
    var r := MigrateOne(f, c, First(), LegOf(Legs(), First()));
    assert Books(r.value.0, r.value.1, 1).usdc == BookOf(r.value.0, r.value.1, 1, USDC);
  }

  lemma MigrationIsOne(w: World, f: Xyk.State)
    requires Execute(w, MigrateLiquidity(1, Legs())).Ok? && Xyk.FinalizeRewards(w.xyk, 1) == Ok(f)
    requires UserKeys(f.lockups, 1) == [First()] && First() in f.lockups && Xyk.Open(f.lockups[First()])
    ensures var r := MigrateOne(f, w.pcl, First(), LegOf(Legs(), First()));
            r.Ok? && Execute(w, MigrateLiquidity(1, Legs())).value == w.(xyk := r.value.0, pcl := r.value.1)
  {
    assert [First()][1..] == [];
  }

  lemma MigratedFrame(x: Xyk.State, c: Pcl.State, k: Key, leg: Leg)
    requires k in x.lockups && MigrateOne(x, c, k, leg).Ok?
    ensures var x' := MigrateOne(x, c, k, leg).value.0;
            x'.incentives == x.incentives && x'.config == x.config && x.users.Keys <= x'.users.Keys
  {
    MigrationRefinement.MigrateLeaves(x, k, leg.pending);
    var x' := MigrateOne(x, c, k, leg).value.0;
    assert Xyk.Terms(x').config == Xyk.Terms(x).config && Xyk.Terms(x').incentives == Xyk.Terms(x).incentives;
    UsersStay(x, k, leg.pending);
  }

  lemma UsersStay(x: Xyk.State, k: Key, pending: Option<nat>)
    requires k in x.lockups && Xyk.MigratePosition(x, k, pending).Ok?
    ensures x.users.Keys <= Xyk.MigratePosition(x, k, pending).value.users.Keys
  {
    XykPositions.MigrateAccrued(x, k, pending);
    var x1 := Xyk.Accrue(x, k.pool, pending).value;
    var lp := Xyk.LpShare(x1, k.pool, x1.lockups[k].units).value;
    XykPositions.MigrateCloses(x1, k, lp);
    PayAndCloseKeepsUsers(x1, k, lp);
    assert x1.users == x.users;
  }

  lemma PayAndCloseKeepsUsers(x: Xyk.State, k: Key, lp: nat)
    requires k in x.lockups && XykPositions.PayAndClose(x, k, lp).Ok?
    ensures XykPositions.PayAndClose(x, k, lp).value.users == x.users
  {
  }

  lemma SecondUnlocks(w: World)
    requires FirstLeft(w)
    ensures var w' := Next(w, Event(0, Claim(Second(), true, None)));
            Units(w'.xyk, USDC) == 0 && w'.pcl == w.pcl && w'.auction == w.auction
  {
    assert Later(w, 0) == w;
    SecondTakes(w);
    ClaimIs(w, Second(), true, None);
  }

  lemma ClaimIs(w: World, k: Key, withdraw: bool, pending: Option<nat>)
    requires Started(w) && Xyk.Claim(w.xyk, w.now, k, withdraw, pending).Ok?
    ensures Apply(w, Claim(k, withdraw, pending)) == w.(xyk := Xyk.Claim(w.xyk, w.now, k, withdraw, pending).value)
  {
  }

  lemma SecondTakes(w: World)
    requires FirstLeft(w)
    ensures var c := Xyk.Claim(w.xyk, w.now, Second(), true, None);
            c.Ok? && Units(c.value, USDC) == 0
  {
    SecondCanClaim(w);
    XykSound(w.xyk, w.now, USDC);
    Progress.ClaimSucceeds(w.xyk, w.now, Second(), true, None);
    Progress.UnlockTakes(w.xyk, w.now, Second(), None);
  }

  lemma SecondCanClaim(w: World)
    requires FirstLeft(w)
    ensures Progress.Recordable(w.xyk, 2) && Progress.CanClaim(w.xyk, w.now, Second(), true, None)
  {
    NothingToRecord(w.xyk, 2);
  }

  /** In this run the XYK pool is empty and the PCL pool has 50 LP tokens, but they are not staked, whatever comes later. */
  lemma UnlockLeavesUnstaked(start: World, later: seq<Event>)
    requires Initial(start) && Suitable(start)
    ensures var w := Run(start, UnlockRun());
            && w.auction.minted.Some? && Units(w.xyk, USDC) == 0
            && w.pcl.pools.usdc.amountInLockups == 50 && !w.pcl.pools.usdc.isStaked
            && !Run(w, later).pcl.pools.usdc.isStaked
  {
    var before := Preparations() + [Event(0, LockLp(First(), 100)), Event(0, LockLp(Second(), 100)), InitEvent()];
    var migrate, claim := Event(0, MigrateLiquidity(1, Legs())), Event(0, Claim(Second(), true, None));
    LockedByBoth(start);
    var w := Run(start, before);
    FirstMigrates(w);
    var w1 := Next(w, migrate);
    SecondUnlocks(w1);
    EmptyingDecides(w1, claim, [], USDC);
    EmptyingDecides(w1, claim, later, USDC);
    assert UnlockRun() == before + ([migrate] + [claim]);
    RunOn(start, before, [migrate] + [claim]);
    RunOn(w, [migrate], [claim]);
    RunOne(w, migrate);
    RunOne(w1, claim);
  }

  // A run in which a position without units blocks its user

  /** The user locks nothing in the one pool, and 100 LP tokens in the other. */
  function BlockedRun(): seq<Event> {
    Preparations() + [Event(0, LockLp(First(), 0)), Event(0, LockLp(Key(ATOM, 1, 1), 100)), InitEvent()]
  }

  /** In this run the user has 100 LP tokens locked in the ATOM pool; they can never be migrated, because of the position
      without units in the USDC pool. */
  lemma EmptyPositionBlocks(start: World, later: seq<Event>, legs: map<Key, Leg>)
    requires Initial(start) && Suitable(start)
    ensures var w := Run(start, BlockedRun());
            && w.xyk.lockups == map[First() := Position(0), Key(ATOM, 1, 1) := Position(100)]
            && Started(w) && Units(w.xyk, ATOM) == 100
            && Execute(Run(w, later), MigrateLiquidity(1, legs)).Err?
  {
    TwoLocked(start, First(), 0, Key(ATOM, 1, 1), 100);
    TgeBlocked.BlockedForEver(start, BlockedRun(), later, First(), false, None, legs);
  }
}

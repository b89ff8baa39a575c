/** The vesting contracts in every run: they have exactly what the auction handed over, once for every user, and when they
    let a hand-over happen. */
module TgeVesting {
  import opened Basics
  import opened FixedPoint
  import opened Sums
  import opened Tge
  import opened TgeInvariant
  import opened HandOver
  import opened HandOverProofs
  import Auction
  import AuctionProofs
  import AuctionVesting
  import Vesting

  /** The account of a user who got something: one schedule for exactly that, from some time up to now. */
  predicate OneSchedule(schedules: seq<Vesting.Schedule>, duration: nat, amount: nat, now: nat) {
    |schedules| == 1 && StartsAt(schedules[0], schedules[0].start.time, duration, amount) && schedules[0].start.time <= now
  }

  /** The schedule gives nothing at the given time, and the whole amount after the duration. */
  predicate StartsAt(s: Vesting.Schedule, time: nat, duration: nat, amount: nat) {
    s == Vesting.Schedule(Vesting.Point(time, 0), Some(Vesting.Point(time + duration, amount)))
  }

  predicate GrantRight(a: Auction.State, v: Vesting.State, p: Pool, now: nat, u: Addr) {
    && (u in v.accounts <==> Auction.Vested(a, u, p) > 0)
    && (u in v.accounts ==> OneSchedule(v.accounts[u].schedules, a.config.vestingDuration, Auction.Vested(a, u, p), now))
  }

  ghost predicate PoolVesting(a: Auction.State, v: Vesting.State, p: Pool, now: nat) {
    && Vesting.LedgerInv(v, now)
    && v.granted == Total(a.ledger.vesting.Get(p), AuctionVesting.Vests())
    && forall u :: GrantRight(a, v, p, now, u)
  }

  ghost predicate VestingInv(w: World) {
    && PoolVesting(w.auction, w.vesting.usdc, USDC, w.now)
    && PoolVesting(w.auction, w.vesting.atom, ATOM, w.now)
  }

  lemma Started(w: World)
    requires Initial(w)
    ensures VestingInv(w)
  {
    EmptyPool(w.auction, w.vesting.usdc, USDC, w.now);
    EmptyPool(w.auction, w.vesting.atom, ATOM, w.now);
  }

  lemma EmptyPool(a: Auction.State, v: Vesting.State, p: Pool, now: nat)
    requires a.ledger.vesting.Get(p) == map[] && Vesting.Empty(v)
    ensures PoolVesting(a, v, p, now)
  {
  }

  lemma SamePool(a: Auction.State, a': Auction.State, v: Vesting.State, p: Pool, now: nat, later: nat)
    requires PoolVesting(a, v, p, now) && a'.ledger.vesting == a.ledger.vesting && a'.config == a.config && now <= later
    ensures PoolVesting(a', v, p, later)
  {
    Vesting.TimePasses(v, now, later);
    forall u
      ensures GrantRight(a', v, p, later, u)
    {
      assert GrantRight(a, v, p, now, u);
    }
  }

  // Hand-overs

  /** The auction's books of a hand-over: the users of the batch get their rests, the others keep what they have. */
  lemma BooksOfHandOver(a: Auction.State, p: Pool)
    requires forall q :: AuctionProofs.PoolInv(a, q) && AuctionVesting.LpInv(a, q)
    requires a.minted.Some? && Auction.MigrateToVesting(a).Ok?
    ensures var a', batch := Auction.MigrateToVesting(a).value, Auction.Batch(a);
            && a'.config == a.config
            && (forall u :: Auction.Vested(a', u, p) == if u in batch then Rest(a, u, p) else Auction.Vested(a, u, p))
            && (forall u :: u in batch ==> Auction.Vested(a, u, p) == 0)
            && Total(a'.ledger.vesting.Get(p), AuctionVesting.Vests()) == Total(a.ledger.vesting.Get(p), AuctionVesting.Vests()) + Amount(a, batch, p)
  {
    var a', batch := Auction.MigrateToVesting(a).value, Auction.Batch(a);
    AuctionVesting.MigrateKeeps(a);
    AuctionVesting.BatchIsWaiting(a);
    SentIsGivenAway(a, batch, p);
    assert AuctionVesting.LpInv(a, p) && AuctionVesting.LpInv(a', p);
    forall u
      ensures Auction.Vested(a', u, p) == if u in batch then Rest(a, u, p) else Auction.Vested(a, u, p)
      ensures u in batch ==> Auction.Vested(a, u, p) == 0
    {
      VestedAfter(a, a', batch, p, u);
    }
  }

  lemma VestedAfter(a: Auction.State, a': Auction.State, batch: seq<Addr>, p: Pool, u: Addr)
    requires AuctionVesting.Handed(a, a', batch) && AuctionVesting.Waiting(a, batch)
    requires AuctionProofs.PoolInv(a, p) && AuctionVesting.VestedRight(a, u, p) && AuctionVesting.VestedRight(a', u, p)
    ensures Auction.Vested(a', u, p) == if u in batch then Rest(a, u, p) else Auction.Vested(a, u, p)
    ensures u in batch ==> Auction.Vested(a, u, p) == 0
  {
    if u in batch {
      var i :| 0 <= i < |batch| && batch[i] == u;
      assert u in a.users && !a.users[u].vested;
    }
  }

  /** The vesting contract gets one account for each user of the batch with something to vest, and keeps all others. */
  lemma PoolJoins(a: Auction.State, v: Vesting.State, p: Pool, now: nat)
    requires forall q :: AuctionProofs.PoolInv(a, q) && AuctionVesting.LpInv(a, q)
    requires PoolVesting(a, v, p, now) && a.minted.Some? && Auction.MigrateToVesting(a).Ok?
    requires SendRests(v, a, Auction.Batch(a), p, now).Ok?
    ensures Joined(a, Auction.Batch(a), p, now, v.accounts, SendRests(v, a, Auction.Batch(a), p, now).value.accounts)
    ensures forall u :: u in Auction.Batch(a) ==> u !in v.accounts
  {
    var batch := Auction.Batch(a);
    BooksOfHandOver(a, p);
    AuctionVesting.BatchIsWaiting(a);
    forall u | u in batch
      ensures u !in v.accounts
    {
      assert GrantRight(a, v, p, now, u);
    }
    if Amount(a, batch, p) == 0 {
      NothingToVest(a, batch, p);
      forall u
        ensures JoinedFor(a, batch, p, now, v.accounts, v.accounts, u)
      {
      }
    } else {
      RegisteredBatch(a, batch, p, now, v.accounts, 0);
    }
  }

  lemma PoolHandedOver(a: Auction.State, v: Vesting.State, p: Pool, now: nat)
    requires forall q :: AuctionProofs.PoolInv(a, q) && AuctionVesting.LpInv(a, q)
    requires PoolVesting(a, v, p, now) && a.minted.Some? && Auction.MigrateToVesting(a).Ok?
    requires SendRests(v, a, Auction.Batch(a), p, now).Ok?
    ensures PoolVesting(Auction.MigrateToVesting(a).value, SendRests(v, a, Auction.Batch(a), p, now).value, p, now)
  {
    var a', batch := Auction.MigrateToVesting(a).value, Auction.Batch(a);
    var v' := SendRests(v, a, batch, p, now).value;
    BooksOfHandOver(a, p);
    PoolJoins(a, v, p, now);
    if Amount(a, batch, p) > 0 {
      Vesting.RegisterKeeps(v, Accounts(a, batch, p, now), Amount(a, batch, p), now);
    }
    GrantsAfter(a, a', batch, v, v', p, now);
  }

  lemma GrantsAfter(a: Auction.State, a': Auction.State, batch: seq<Addr>, v: Vesting.State, v': Vesting.State, p: Pool, now: nat)
    requires (forall u :: GrantRight(a, v, p, now, u)) && Joined(a, batch, p, now, v.accounts, v'.accounts) && a'.config == a.config
    requires forall u :: Auction.Vested(a', u, p) == if u in batch then Rest(a, u, p) else Auction.Vested(a, u, p)
    requires forall u :: u in batch ==> Auction.Vested(a, u, p) == 0
    ensures forall u :: GrantRight(a', v', p, now, u)
  {
    forall u
      ensures GrantRight(a', v', p, now, u)
    {
      assert GrantRight(a, v, p, now, u);
      assert JoinedFor(a, batch, p, now, v.accounts, v'.accounts, u);
    }
  }

  lemma {:induction false} NothingToVest(a: Auction.State, batch: seq<Addr>, p: Pool)
    ensures Amount(a, batch, p) == 0 <==> forall u :: u in batch ==> Rest(a, u, p) == 0
  {
    if batch != [] {
      NothingToVest(a, batch[1..], p);
      assert forall u :: u in batch <==> u == batch[0] || u in batch[1..];
    }
  }

  lemma HandOverKeepsVesting(w: World)
    requires Inv(w) && VestingInv(w) && Execute(w, MigrateToVesting).Ok?
    ensures VestingInv(Execute(w, MigrateToVesting).value)
  {
    VestingNeedsInit(w.auction, w.now);
    PoolHandedOver(w.auction, w.vesting.usdc, USDC, w.now);
    PoolHandedOver(w.auction, w.vesting.atom, ATOM, w.now);
  }

  // Claims

  lemma ClaimKeepsPool(a: Auction.State, v: Vesting.State, p: Pool, now: nat, u: Addr, claimed: Option<nat>)
    requires PoolVesting(a, v, p, now) && Vesting.AllValid(v) && Vesting.Claim(v, now, u, claimed).Ok?
    ensures PoolVesting(a, Vesting.Claim(v, now, u, claimed).value.0, p, now)
  {
    Vesting.ClaimKeeps(v, now, u, claimed);
    var v' := Vesting.Claim(v, now, u, claimed).value.0;
    forall u'
      ensures GrantRight(a, v', p, now, u')
    {
      assert GrantRight(a, v, p, now, u');
    }
  }

  lemma ClaimKeepsVesting(w: World, p: Pool, u: Addr, claimed: Option<nat>)
    requires VestingInv(w) && Execute(w, ClaimVested(p, u, claimed)).Ok?
    ensures VestingInv(Execute(w, ClaimVested(p, u, claimed)).value)
  {
    ClaimKeepsPool(w.auction, w.vesting.Get(p), p, w.now, u, claimed);
  }

  // Runs

  /** All other transactions leave both contracts and the auction's record of what it handed over alone. */
  lemma OthersLeaveVesting(w: World, tx: Tx)
    requires Execute(w, tx).Ok? && !tx.MigrateToVesting? && !tx.ClaimVested?
    ensures var w' := Execute(w, tx).value;
            && w'.vesting == w.vesting && w'.now == w.now
            && w'.auction.ledger.vesting == w.auction.ledger.vesting && w'.auction.config == w.auction.config
  {
  }

  lemma ExecuteKeepsVesting(w: World, tx: Tx)
    requires Inv(w) && VestingInv(w) && Execute(w, tx).Ok?
    ensures VestingInv(Execute(w, tx).value)
  {
    if tx.MigrateToVesting? {
      HandOverKeepsVesting(w);
    } else if tx.ClaimVested? {
      ClaimKeepsVesting(w, tx.pool, tx.user, tx.claimed);
    } else {
      OthersLeaveVesting(w, tx);
      var w' := Execute(w, tx).value;
      SamePool(w.auction, w'.auction, w.vesting.usdc, USDC, w.now, w'.now);
      SamePool(w.auction, w'.auction, w.vesting.atom, ATOM, w.now, w'.now);
    }
  }

  lemma NextKeepsVesting(w: World, e: Event)
    requires Inv(w) && VestingInv(w)
    ensures VestingInv(Next(w, e))
  {
    var l := Later(w, e.elapsed);
    TgeInvariant.TimePasses(w, e.elapsed);
    SamePool(w.auction, l.auction, w.vesting.usdc, USDC, w.now, l.now);
    SamePool(w.auction, l.auction, w.vesting.atom, ATOM, w.now, l.now);
    if Execute(l, e.tx).Ok? {
      ExecuteKeepsVesting(l, e.tx);
    }
  }

  lemma {:induction false} RunKeepsVesting(w: World, events: seq<Event>)
    requires Inv(w) && VestingInv(w)
    ensures VestingInv(Run(w, events)) && Inv(Run(w, events))
    decreases |events|
  {
    if events != [] {
      NextKeepsVesting(w, events[0]);
      NextKeeps(w, events[0]);
      RunKeepsVesting(Next(w, events[0]), events[1..]);
    }
  }

  lemma ReachedVesting(start: World, events: seq<Event>)
    requires Initial(start)
    ensures Inv(Run(start, events)) && VestingInv(Run(start, events))
  {
    Started(start);
    InitialInv(start);
    RunKeepsVesting(start, events);
  }

  lemma PoolOf(w: World, p: Pool)
    requires VestingInv(w)
    ensures PoolVesting(w.auction, w.vesting.Get(p), p, w.now)
  {
  }

  /** In every run a vesting contract has an account exactly for the users to whom the auction handed something over, each
      with one schedule for exactly this amount, of which no more was claimed than has vested. What is granted in total is
      what the auction handed over, and the contract holds it less what was claimed. */
  lemma GrantsAreRests(start: World, events: seq<Event>, p: Pool, u: Addr)
    requires Initial(start)
    ensures var w := Run(start, events);
            var v, amount := w.vesting.Get(p), Auction.Vested(w.auction, u, p);
            && (u in v.accounts <==> amount > 0)
            && (u in v.accounts ==>
                  var i := v.accounts[u];
                  && OneSchedule(i.schedules, w.auction.config.vestingDuration, amount, w.now)
                  && Vesting.GrantOf(i.schedules) == amount
                  && Vesting.ValidSchedules(i.schedules) && i.released <= Vesting.VestedAt(i.schedules, w.now) <= amount)
            && v.granted == Total(v.accounts, Vesting.GrantedTo()) == Total(w.auction.ledger.vesting.Get(p), AuctionVesting.Vests())
            && v.balance == v.granted - v.released == Total(v.accounts, Vesting.UnclaimedBy())
  {
    ReachedVesting(start, events);
    var w := Run(start, events);
    PoolOf(w, p);
    var v := w.vesting.Get(p);
    Vesting.UnclaimedIsBalance(v, w.now);
    assert GrantRight(w.auction, v, p, w.now, u);
    if u in v.accounts {
      Vesting.AccountWithinTotals(v, w.now, u);
      var s := v.accounts[u].schedules;
      ScheduleIsValid(s[0].start.time, w.auction.config.vestingDuration, Auction.Vested(w.auction, u, p));
      assert s == [s[0]];
      assert Vesting.AccountInv(v.accounts[u], w.now);
    }
  }

  // When hand-overs happen

  /** LP token amounts have 128 bits. */
  predicate MintedFits(a: Auction.State) {
    a.minted.Some? ==> a.minted.value.usdc <= U128_MAX && a.minted.value.atom <= U128_MAX
  }

  /** Nothing is to vest for a batch in either pool. */
  predicate NothingVests(a: Auction.State, batch: seq<Addr>) {
    Amount(a, batch, USDC) == 0 && Amount(a, batch, ATOM) == 0
  }

  lemma SendRestsAccepted(a: Auction.State, v: Vesting.State, p: Pool, now: nat)
    requires forall q :: AuctionProofs.PoolInv(a, q) && AuctionVesting.LpInv(a, q)
    requires PoolVesting(a, v, p, now) && a.minted.Some? && MintedFits(a) && Auction.MigrateToVesting(a).Ok?
    ensures SendRests(v, a, Auction.Batch(a), p, now).Ok? <==> a.config.vestingDuration > 0 || Amount(a, Auction.Batch(a), p) == 0
  {
    var a' := Auction.MigrateToVesting(a).value;
    BooksOfHandOver(a, p);
    AuctionVesting.MigrateKeeps(a);
    assert AuctionVesting.LpInv(a', p);
    BatchIsAccepted(a, p, now, v);
  }

  /** If the pairs minted at least the computed sizes, a hand-over happens in any run if and only if the pools are
      initialised, the pack size is positive, somebody waits, and either the vesting duration is positive or nothing is to
      vest for the next users. */
  lemma HandOverHappens(start: World, events: seq<Event>)
    requires Initial(start) && AuctionVesting.MintedEnough(Run(start, events).auction) && MintedFits(Run(start, events).auction)
    ensures var w := Run(start, events);
            var a := w.auction;
            Execute(w, MigrateToVesting).Ok? <==>
              && a.poolInitTime != 0 && a.config.packSize > 0 && Auction.Unvested(a) != {}
              && (a.config.vestingDuration > 0 || NothingVests(a, Auction.Batch(a)))
  {
    ReachedVesting(start, events);
    HandOverHappensIn(Run(start, events));
  }

  lemma HandOverHappensIn(w: World)
    requires Inv(w) && VestingInv(w) && AuctionVesting.MintedEnough(w.auction) && MintedFits(w.auction)
    ensures var a := w.auction;
            Execute(w, MigrateToVesting).Ok? <==>
              && a.poolInitTime != 0 && a.config.packSize > 0 && Auction.Unvested(a) != {}
              && (a.config.vestingDuration > 0 || NothingVests(a, Auction.Batch(a)))
  {
    AuctionVesting.AuctionPartSucceeds(w.auction);
    if Auction.MigrateToVesting(w.auction).Ok? {
      VestingNeedsInit(w.auction, w.now);
      SendRestsAccepted(w.auction, w.vesting.usdc, USDC, w.now);
      SendRestsAccepted(w.auction, w.vesting.atom, ATOM, w.now);
    }
  }

  /** The user is vested, the vesting contract has exactly the part of the entitlement that is not locked, and the rest
      is at the lockdrop. */
  predicate Settled(w: World, u: Addr, p: Pool) {
    var granted := if u in w.vesting.Get(p).accounts then Vesting.GrantOf(w.vesting.Get(p).accounts[u].schedules) else 0;
    && w.auction.User(u).vested
    && granted + w.auction.User(u).locked.Get(p) == Auction.Entitlement(w.auction, u, p)
  }

  lemma VestedIsSettled(w: World, u: Addr, p: Pool)
    requires Inv(w) && VestingInv(w) && w.auction.minted.Some? && w.auction.User(u).vested
    ensures Settled(w, u, p)
  {
    assert AuctionVesting.LpInv(w.auction, p);
    assert AuctionVesting.VestedRight(w.auction, u, p);
    PoolOf(w, p);
    var v, amount := w.vesting.Get(p), Auction.Vested(w.auction, u, p);
    assert GrantRight(w.auction, v, p, w.now, u);
    if u in v.accounts {
      var s := v.accounts[u].schedules;
      ScheduleIsValid(s[0].start.time, w.auction.config.vestingDuration, amount);
      assert s == [s[0]];
    }
  }

  /** A valid schedule of the auction grows, so its duration is positive. */
  lemma GrantNeedsDuration(schedules: seq<Vesting.Schedule>, duration: nat, amount: nat, now: nat)
    requires OneSchedule(schedules, duration, amount, now) && Vesting.ValidSchedules(schedules)
    ensures duration > 0
  {
    assert Vesting.ValidSchedule(schedules[0]);
  }

  /** With a vesting duration of zero nothing ever vests. */
  lemma NothingVestsAtOnce(w: World, u: Addr, p: Pool)
    requires VestingInv(w) && w.auction.config.vestingDuration == 0
    ensures Auction.Vested(w.auction, u, p) == 0
  {
    PoolOf(w, p);
    var v := w.vesting.Get(p);
    assert GrantRight(w.auction, v, p, w.now, u);
    if u in v.accounts {
      assert Vesting.AccountInv(v.accounts[u], w.now);
      GrantNeedsDuration(v.accounts[u].schedules, 0, Auction.Vested(w.auction, u, p), w.now);
    }
  }

  // Repeated hand-overs

  /** Only marks and LP tokens moved; deposits, locked tokens and sizes are as before. */
  ghost predicate SameBooks(a: Auction.State, a': Auction.State) {
    && a' == a.(users := a'.users, ledger := a'.ledger) && a'.users.Keys == a.users.Keys
    && forall u :: u in a.users ==> a'.users[u] == a.users[u].(vested := a'.users[u].vested)
  }

  lemma SameBooksSameRest(a: Auction.State, a': Auction.State, u: Addr, p: Pool)
    requires SameBooks(a, a')
    ensures Auction.Entitlement(a', u, p) == Auction.Entitlement(a, u, p) && Rest(a', u, p) == Rest(a, u, p)
    ensures a'.User(u).locked == a.User(u).locked
  {
    assert u in a.users ==> a'.users[u] == a.users[u].(vested := a'.users[u].vested);
  }

  ghost predicate AllHandOvers(events: seq<Event>) {
    forall i :: 0 <= i < |events| ==> events[i].tx == MigrateToVesting
  }

  lemma HandOverStep(w: World, e: Event)
    requires Inv(w) && VestingInv(w) && w.auction.minted.Some? && e.tx == MigrateToVesting
    ensures var a, a' := w.auction, Next(w, e).auction;
            && SameBooks(a, a')
            && (forall u :: u in a.users && a.users[u].vested ==> a'.users[u].vested)
            && (Execute(Later(w, e.elapsed), MigrateToVesting).Ok? ==>
                  |Auction.Unvested(a')| == |Auction.Unvested(a)| - Min(a.config.packSize, |Auction.Unvested(a)|))
            && (Execute(Later(w, e.elapsed), MigrateToVesting).Err? ==> a' == a)
  {
    var l := Later(w, e.elapsed);
    if Execute(l, MigrateToVesting).Ok? {
      AuctionVesting.MigrateKeeps(l.auction);
    }
  }

  /** Everybody who waits could be handed over: the vesting duration is positive, or nothing is to vest for them. */
  ghost predicate CanAllVest(a: Auction.State) {
    a.config.vestingDuration > 0 || forall u, p :: u in a.users && !a.users[u].vested ==> Rest(a, u, p) == 0
  }

  lemma NextCanVest(a: Auction.State, a': Auction.State)
    requires CanAllVest(a) && SameBooks(a, a') && forall u :: u in a.users && a.users[u].vested ==> a'.users[u].vested
    ensures CanAllVest(a')
  {
    forall u, p | a.config.vestingDuration == 0 && u in a'.users && !a'.users[u].vested
      ensures Rest(a', u, p) == 0
    {
      SameBooksSameRest(a, a', u, p);
    }
  }

  lemma BatchCanVest(a: Auction.State)
    requires CanAllVest(a)
    ensures a.config.vestingDuration > 0 || NothingVests(a, Auction.Batch(a))
  {
    AuctionVesting.BatchIsWaiting(a);
    NothingToVest(a, Auction.Batch(a), USDC);
    NothingToVest(a, Auction.Batch(a), ATOM);
  }

  ghost predicate Ready(w: World) {
    && Inv(w) && VestingInv(w) && AuctionVesting.MintedEnough(w.auction) && MintedFits(w.auction)
    && w.auction.minted.Some? && w.auction.poolInitTime != 0 && w.auction.config.packSize > 0
  }

  lemma StepReady(w: World, e: Event)
    requires Ready(w) && e.tx == MigrateToVesting
    ensures Ready(Next(w, e)) && SameBooks(w.auction, Next(w, e).auction)
    ensures CanAllVest(w.auction) ==>
              && CanAllVest(Next(w, e).auction)
              && |Auction.Unvested(Next(w, e).auction)| == |Auction.Unvested(w.auction)| - Min(w.auction.config.packSize, |Auction.Unvested(w.auction)|)
  {
    NextKeeps(w, e);
    NextKeepsVesting(w, e);
    HandOverStep(w, e);
    if CanAllVest(w.auction) {
      NextCanVest(w.auction, Next(w, e).auction);
      BatchCanVest(w.auction);
      LaterReady(w, e.elapsed);
      HandOverHappensIn(Later(w, e.elapsed));
    }
  }

  lemma LaterReady(w: World, elapsed: nat)
    requires Ready(w)
    ensures Ready(Later(w, elapsed))
  {
    var l := Later(w, elapsed);
    TgeInvariant.TimePasses(w, elapsed);
    SamePool(w.auction, l.auction, w.vesting.usdc, USDC, w.now, l.now);
    SamePool(w.auction, l.auction, w.vesting.atom, ATOM, w.now, l.now);
  }

  lemma SameBooksTwice(a: Auction.State, b: Auction.State, c: Auction.State)
    requires SameBooks(a, b) && SameBooks(b, c)
    ensures SameBooks(a, c)
  {
    forall u | u in a.users
      ensures c.users[u] == a.users[u].(vested := c.users[u].vested)
    {
      assert b.users[u] == a.users[u].(vested := b.users[u].vested);
    }
  }

  lemma {:induction false} HandOversReady(w: World, events: seq<Event>)
    requires Ready(w) && AllHandOvers(events)
    ensures Ready(Run(w, events)) && SameBooks(w.auction, Run(w, events).auction)
    decreases |events|
  {
    if events != [] {
      var next := Next(w, events[0]);
      StepReady(w, events[0]);
      HandOversReady(next, events[1..]);
      SameBooksTwice(w.auction, next.auction, Run(next, events[1..]).auction);
    }
  }

  /** n hand-overs are enough for those who wait. */
  ghost predicate Suffice(n: nat, a: Auction.State) {
    |Auction.Unvested(a)| <= n * a.config.packSize
  }

  lemma NobodyLeft(a: Auction.State)
    requires Suffice(0, a)
    ensures Auction.Unvested(a) == {}
  {
    assert 0 * a.config.packSize == 0;
  }

  lemma StepSuffices(w: World, e: Event, n: nat)
    requires Ready(w) && e.tx == MigrateToVesting && CanAllVest(w.auction) && n > 0 && Suffice(n, w.auction)
    ensures Ready(Next(w, e)) && CanAllVest(Next(w, e).auction) && Suffice(n - 1, Next(w, e).auction)
  {
    StepReady(w, e);
    OneLess(n, w.auction.config.packSize, |Auction.Unvested(w.auction)|);
  }

  lemma {:induction false} HandOversDrain(w: World, events: seq<Event>)
    requires Ready(w) && AllHandOvers(events) && CanAllVest(w.auction) && Suffice(|events|, w.auction)
    ensures Auction.Unvested(Run(w, events).auction) == {}
    decreases |events|
  {
    if events == [] {
      NobodyLeft(w.auction);
    } else {
      StepSuffices(w, events[0], |events|);
      HandOversDrain(Next(w, events[0]), events[1..]);
    }
  }

  lemma OneLess(n: nat, pack: nat, waiting: nat)
    requires n > 0
    ensures waiting <= n * pack ==> waiting - Min(pack, waiting) <= (n - 1) * pack
  {
    assert (n - 1) * pack == n * pack - pack;
  }

  ghost predicate EverybodySettled(a: Auction.State, w: World) {
    forall u, p :: u in a.users ==> Settled(w, u, p)
  }

  lemma AllSettled(a: Auction.State, w: World)
    requires Inv(w) && VestingInv(w) && w.auction.minted.Some? && SameBooks(a, w.auction) && Auction.Unvested(w.auction) == {}
    ensures EverybodySettled(a, w)
  {
    forall u, p | u in a.users
      ensures Settled(w, u, p)
    {
      assert u !in Auction.Unvested(w.auction);
      VestedIsSettled(w, u, p);
    }
  }

  lemma SomebodyUnsettled(w: World, w': World)
    requires Inv(w') && VestingInv(w') && SameBooks(w.auction, w'.auction) && !CanAllVest(w.auction)
    ensures !EverybodySettled(w.auction, w')
  {
    var u, p :| u in w.auction.users && !w.auction.users[u].vested && Rest(w.auction, u, p) != 0;
    Unsettled(w, w', u, p);
  }

  lemma HandOversSettle(w: World, handOvers: seq<Event>)
    requires Ready(w) && AllHandOvers(handOvers) && Suffice(|handOvers|, w.auction)
    ensures EverybodySettled(w.auction, Run(w, handOvers)) <==> CanAllVest(w.auction)
  {
    HandOversReady(w, handOvers);
    if CanAllVest(w.auction) {
      HandOversDrain(w, handOvers);
      AllSettled(w.auction, Run(w, handOvers));
    } else {
      SomebodyUnsettled(w, Run(w, handOvers));
    }
  }

  /** In every run, once initialised and minted in full: as many hand-overs as the waiting users need settle every user, in
      both pools, if and only if the vesting duration is positive or nothing is to vest for those who wait. */
  lemma EveryoneIsVestedOnce(start: World, events: seq<Event>, handOvers: seq<Event>)
    requires Initial(start) && AllHandOvers(handOvers)
    requires var a := Run(start, events).auction;
             && a.minted.Some? && a.poolInitTime != 0 && a.config.packSize > 0 && AuctionVesting.MintedEnough(a) && MintedFits(a)
             && Suffice(|handOvers|, a)
    ensures var w := Run(start, events);
            EverybodySettled(w.auction, Run(w, handOvers)) <==> CanAllVest(w.auction)
  {
    ReachedVesting(start, events);
    HandOversSettle(Run(start, events), handOvers);
  }

  lemma Unsettled(w: World, w': World, u: Addr, p: Pool)
    requires Inv(w') && VestingInv(w') && SameBooks(w.auction, w'.auction) && w.auction.config.vestingDuration == 0
    requires u in w.auction.users && Rest(w.auction, u, p) != 0
    ensures !Settled(w', u, p)
  {
    SameBooksSameRest(w.auction, w'.auction, u, p);
    NothingVestsAtOnce(w', u, p);
    PoolOf(w', p);
    assert GrantRight(w'.auction, w'.vesting.Get(p), p, w'.now, u);
  }
}

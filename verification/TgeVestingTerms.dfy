/** How the handed-over LP tokens vest: on a straight line from the moment of the hand-over, whatever happens later. */
module TgeVestingTerms {
  import opened Basics
  import opened Tge
  import opened TgeInvariant
  import opened TgeVesting
  import opened HandOver
  import Auction
  import HandOverProofs
  import Vesting

  /** u has an account at the vesting contract of pool p with just this schedule. */
  predicate Has(w: World, p: Pool, u: Addr, s: Vesting.Schedule) {
    u in w.vesting.Get(p).accounts && w.vesting.Get(p).accounts[u].schedules == [s]
  }

  /** Nothing at the given time, and the whole amount after the duration. */
  function Line(time: nat, duration: nat, amount: nat): Vesting.Schedule {
    Vesting.Schedule(Vesting.Point(time, 0), Some(Vesting.Point(time + duration, amount)))
  }

  lemma JoinedStarts(a: Auction.State, batch: seq<Addr>, p: Pool, now: nat, m: map<Addr, Vesting.Info>, m': map<Addr, Vesting.Info>, u: Addr)
    requires HandOverProofs.JoinedFor(a, batch, p, now, m, m', u) && u in batch && Rest(a, u, p) > 0
    ensures u in m' && m'[u].schedules == [Line(now, a.config.vestingDuration, Rest(a, u, p))]
  {
  }

  lemma HandOverStarts(w: World, p: Pool, u: Addr)
    requires Inv(w) && VestingInv(w) && Execute(w, MigrateToVesting).Ok? && u in Auction.Batch(w.auction) && Rest(w.auction, u, p) > 0
    ensures Has(Execute(w, MigrateToVesting).value, p, u, Line(w.now, w.auction.config.vestingDuration, Rest(w.auction, u, p)))
  {
    var m, m' := w.vesting.Get(p).accounts, Execute(w, MigrateToVesting).value.vesting.Get(p).accounts;
    VestingNeedsInit(w.auction, w.now);
    PoolOf(w, p);
    SentIn(w, p);
    PoolJoins(w.auction, w.vesting.Get(p), p, w.now);
    assert HandOverProofs.JoinedFor(w.auction, Auction.Batch(w.auction), p, w.now, m, m', u);
    JoinedStarts(w.auction, Auction.Batch(w.auction), p, w.now, m, m', u);
  }

  /** A hand-over in the model is one message to each contract. */
  lemma SentIn(w: World, p: Pool)
    requires Execute(w, MigrateToVesting).Ok?
    ensures Auction.MigrateToVesting(w.auction).Ok?
    ensures SendRests(w.vesting.Get(p), w.auction, Auction.Batch(w.auction), p, w.now) == Ok(Execute(w, MigrateToVesting).value.vesting.Get(p))
  {
  }

  lemma HandOverKeepsSchedule(w: World, p: Pool, u: Addr, s: Vesting.Schedule)
    requires Inv(w) && VestingInv(w) && Execute(w, MigrateToVesting).Ok? && Has(w, p, u, s)
    ensures Has(Execute(w, MigrateToVesting).value, p, u, s)
  {
    VestingNeedsInit(w.auction, w.now);
    PoolOf(w, p);
    SentIn(w, p);
    PoolJoins(w.auction, w.vesting.Get(p), p, w.now);
    assert HandOverProofs.JoinedFor(w.auction, Auction.Batch(w.auction), p, w.now, w.vesting.Get(p).accounts,
                                    Execute(w, MigrateToVesting).value.vesting.Get(p).accounts, u);
  }

  lemma ClaimKeepsSchedule(w: World, p: Pool, u: Addr, s: Vesting.Schedule, tx: Tx)
    requires tx.ClaimVested? && Execute(w, tx).Ok? && Has(w, p, u, s)
    ensures Has(Execute(w, tx).value, p, u, s)
  {
  }

  lemma NextKeepsSchedule(w: World, e: Event, p: Pool, u: Addr, s: Vesting.Schedule)
    requires Inv(w) && VestingInv(w) && Has(w, p, u, s)
    ensures Has(Next(w, e), p, u, s)
  {
    var l := Later(w, e.elapsed);
    LaterKeepsVesting(w, e.elapsed);
    if Execute(l, e.tx).Ok? {
      if e.tx.MigrateToVesting? {
        HandOverKeepsSchedule(l, p, u, s);
      } else if e.tx.ClaimVested? {
        ClaimKeepsSchedule(l, p, u, s, e.tx);
      } else {
        OthersLeaveVesting(l, e.tx);
      }
    }
  }

  lemma LaterKeepsVesting(w: World, elapsed: nat)
    requires Inv(w) && VestingInv(w)
    ensures Inv(Later(w, elapsed)) && VestingInv(Later(w, elapsed))
  {
    var l := Later(w, elapsed);
    TgeInvariant.TimePasses(w, elapsed);
    SamePool(w.auction, l.auction, w.vesting.usdc, USDC, w.now, l.now);
    SamePool(w.auction, l.auction, w.vesting.atom, ATOM, w.now, l.now);
  }

  lemma {:induction false} RunKeepsSchedule(w: World, events: seq<Event>, p: Pool, u: Addr, s: Vesting.Schedule)
    requires Inv(w) && VestingInv(w) && Has(w, p, u, s)
    ensures Has(Run(w, events), p, u, s)
    decreases |events|
  {
    if events != [] {
      NextKeepsSchedule(w, events[0], p, u, s);
      NextKeepsVesting(w, events[0]);
      NextKeeps(w, events[0]);
      RunKeepsSchedule(Next(w, events[0]), events[1..], p, u, s);
    }
  }

  /** At time t, what has vested for u is the point on the line of the only schedule s. */
  predicate VestsOn(w: World, p: Pool, u: Addr, s: Vesting.Schedule, t: nat) {
    Has(w, p, u, s)
    && var schedules := w.vesting.Get(p).accounts[u].schedules;
    Vesting.ValidSchedules(schedules) && Vesting.OnTheLine(s, t, Vesting.VestedAt(schedules, t))
  }

  lemma LineOf(w: World, p: Pool, u: Addr, s: Vesting.Schedule, t: nat)
    requires VestingInv(w) && Has(w, p, u, s)
    ensures VestsOn(w, p, u, s, t)
  {
    PoolOf(w, p);
    assert Vesting.AccountInv(w.vesting.Get(p).accounts[u], w.now);
    Vesting.SingleOnTheLine(w.vesting.Get(p).accounts[u].schedules, s, t);
  }

  lemma HandOverLasts(w: World, later: seq<Event>, p: Pool, u: Addr)
    requires Inv(w) && VestingInv(w) && Execute(w, MigrateToVesting).Ok? && u in Auction.Batch(w.auction) && Rest(w.auction, u, p) > 0
    ensures Has(Run(Execute(w, MigrateToVesting).value, later), p, u, Line(w.now, w.auction.config.vestingDuration, Rest(w.auction, u, p)))
    ensures VestingInv(Run(Execute(w, MigrateToVesting).value, later))
  {
    var s := Line(w.now, w.auction.config.vestingDuration, Rest(w.auction, u, p));
    HandOverStarts(w, p, u);
    HandOverKeepsVesting(w);
    MigrateToVestingKeeps(w);
    RunKeepsSchedule(Execute(w, MigrateToVesting).value, later, p, u, s);
    RunKeepsVesting(Execute(w, MigrateToVesting).value, later);
  }

  lemma NextExecutes(w: World, e: Event)
    requires Execute(Later(w, e.elapsed), e.tx).Ok?
    ensures Next(w, e) == Execute(Later(w, e.elapsed), e.tx).value
  {
  }

  /** In every run, a hand-over gives each user of its batch with a rest one schedule that starts with nothing at this moment,
      and the user has just this schedule ever after. So at any time t, what has vested of the rest is the point on the line
      from the hand-over, over the auction's vesting duration. */
  lemma VestsFromHandOver(start: World, events: seq<Event>, handOver: Event, later: seq<Event>, p: Pool, u: Addr, t: nat)
    requires Initial(start) && handOver.tx == MigrateToVesting
    requires var w := Later(Run(start, events), handOver.elapsed);
             Execute(w, MigrateToVesting).Ok? && u in Auction.Batch(w.auction) && Rest(w.auction, u, p) > 0
    ensures var w := Later(Run(start, events), handOver.elapsed);
            VestsOn(Run(Next(Run(start, events), handOver), later), p, u, Line(w.now, w.auction.config.vestingDuration, Rest(w.auction, u, p)), t)
  {
    ReachedVesting(start, events);
    LaterKeepsVesting(Run(start, events), handOver.elapsed);
    NextExecutes(Run(start, events), handOver);
    HandOverVests(Later(Run(start, events), handOver.elapsed), later, p, u, t);
  }

  lemma HandOverVests(w: World, later: seq<Event>, p: Pool, u: Addr, t: nat)
    requires Inv(w) && VestingInv(w) && Execute(w, MigrateToVesting).Ok? && u in Auction.Batch(w.auction) && Rest(w.auction, u, p) > 0
    ensures VestsOn(Run(Execute(w, MigrateToVesting).value, later), p, u, Line(w.now, w.auction.config.vestingDuration, Rest(w.auction, u, p)), t)
  {
    HandOverLasts(w, later, p, u);
    LineOf(Run(Execute(w, MigrateToVesting).value, later), p, u, Line(w.now, w.auction.config.vestingDuration, Rest(w.auction, u, p)), t);
  }
}

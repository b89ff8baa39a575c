/** The contracts together: every transaction, with all the messages it makes them exchange, does what the model of
    the token generation event says. */
module TgeContract {
  import opened Basics
  import opened PositionKeys
  import Auction
  import Xyk = LockdropXyk
  import Pcl = LockdropPcl
  import opened Tge
  import AuctionContract
  import HandOver
  import Vesting
  import VestingContract
  import XykContract = LockdropXykContract
  import PclContract = LockdropPclContract

  // What some transactions come to

  /** One of the callbacks for a user's positions. */
  function MigrateListed(x: Xyk.State, c: Pcl.State, k: Key, legs: map<Key, Tge.Leg>): Result<(Xyk.State, Pcl.State)> {
    if k !in x.lockups then Err(NotFound)
    else if !Xyk.Open(x.lockups[k]) then Ok((x, c))
    else Tge.MigrateOne(x, c, k, Tge.LegOf(legs, k))
  }

  lemma MigrateFirst(x: Xyk.State, c: Pcl.State, keys: seq<Key>, legs: map<Key, Tge.Leg>)
    requires keys != []
    ensures var first := MigrateListed(x, c, keys[0], legs);
            Tge.MigratePositions(x, c, keys, legs) ==
            if first.Ok? then Tge.MigratePositions(first.value.0, first.value.1, keys[1..], legs) else Err(first.error)
  {
  }

  lemma MigrateLiquidityIs(w: Tge.World, u: Addr, legs: map<Key, Tge.Leg>)
    requires Tge.Started(w)
    ensures var f := Xyk.FinalizeRewards(w.xyk, u);
            Tge.Apply(w, Tge.MigrateLiquidity(u, legs)) ==
            if f.Err? then w
            else
              var m := Tge.MigratePositions(f.value, w.pcl, UserKeys(f.value.lockups, u), legs);
              if m.Ok? then w.(xyk := m.value.0, pcl := m.value.1) else w
  {
  }

  lemma ClaimVestedIs(w: Tge.World, p: Pool, u: Addr, claimed: Option<nat>)
    requires Vesting.AllValid(w.vesting.Get(p))
    ensures var r := Vesting.Claim(w.vesting.Get(p), w.now, u, claimed);
            Tge.Apply(w, Tge.ClaimVested(p, u, claimed)) == if r.Ok? then w.(vesting := w.vesting.Set(p, r.value.0)) else w
  {
  }

  class Contracts {
    var now: nat
    const auction: AuctionContract.Contract
    const xyk: XykContract.Contract
    const pcl: PclContract.Contract
    const vestingUsdc: VestingContract.Contract
    const vestingAtom: VestingContract.Contract

    /** The vesting contracts are two, and have only valid schedules. */
    ghost predicate Valid()
      reads vestingUsdc, vestingAtom
    {
      vestingUsdc != vestingAtom && Vesting.AllValid(vestingUsdc.State()) && Vesting.AllValid(vestingAtom.State())
    }

    ghost function World(): Tge.World
      reads this, auction, xyk, pcl, vestingUsdc, vestingAtom
    {
      Tge.World(now, auction.State(), xyk.State(), pcl.State(), PerPool(vestingUsdc.State(), vestingAtom.State()))
    }

    constructor (now: nat, auctionConfig: Auction.Config, xykConfig: Xyk.Config, pclRewards: seq<Xyk.RewardsInfo>, pclWeights: PerPool<nat>)
      requires auctionConfig.withdrawalWindow > 0
      ensures Initial(World()) && World().now == now && Valid()
      ensures fresh(auction) && fresh(xyk) && fresh(pcl) && fresh(vestingUsdc) && fresh(vestingAtom)
    {
      this.now := now;
      auction := new AuctionContract.Contract(auctionConfig);
      xyk := new XykContract.Contract(xykConfig);
      pcl := new PclContract.Contract(pclRewards, pclWeights);
      vestingUsdc := new VestingContract.Contract();
      vestingAtom := new VestingContract.Contract();
      new;
      assert xyk.pools.Get(USDC) == xyk.pools.usdc && xyk.pools.Get(ATOM) == xyk.pools.atom;
      assert pcl.pools.Get(USDC) == pcl.pools.usdc && pcl.pools.Get(ATOM) == pcl.pools.atom;
    }

    /** The auction books the locked LP tokens and sends IncreaseLockupFor. */
    method LockLp(k: Key, units: nat)
      modifies auction, xyk
      ensures World() == Tge.Apply(old(World()), Tge.LockLp(k, units))
    {
      var before := auction.State();
      var r := auction.LockLp(now, k.user, k.pool, units);
      if r.Ok? {
        r := xyk.IncreaseLockupFor(now, k, units);
        if r.Err? {
          auction.Rollback(before);
        }
      }
    }

    /** The auction books the returned LP tokens and sends WithdrawFromLockup. */
    method WithdrawLp(k: Key, units: nat)
      modifies auction, xyk
      ensures World() == Tge.Apply(old(World()), Tge.WithdrawLp(k, units))
    {
      var before := auction.State();
      var r := auction.WithdrawLp(now, k.user, k.pool, units);
      if r.Ok? {
        r := xyk.WithdrawFromLockup(now, k, units);
        if r.Err? {
          auction.Rollback(before);
        }
      }
    }

    /** The lockdrop's pool is initialised if LP tokens are sent. */
    method SendLocked(p: Pool, share: nat, locked: nat) returns (r: Result<()>)
      modifies xyk
      ensures match Tge.SendLocked(old(xyk.State()), p, share, locked)
              case Ok(x) => r == Ok(()) && xyk.State() == x
              case Err(e) => r == Err(e) && xyk.State() == old(xyk.State())
    {
      r := Ok(());
      if locked != 0 {
        r := xyk.InitializePool(p, share, locked);
      }
    }

    method InitPool(minted: PerPool<nat>)
      modifies auction, xyk
      ensures World() == Tge.Apply(old(World()), Tge.InitPool(minted))
    {
      var before, xBefore := auction.State(), xyk.State();
      var r := auction.InitPool(now, minted);
      if r.Ok? {
        r := SendLocked(ATOM, auction.ntrnSize.atom, auction.locked.atom);
      }
      if r.Ok? {
        r := SendLocked(USDC, auction.ntrnSize.usdc, auction.locked.usdc);
      }
      if r.Err? {
        auction.Rollback(before);
        xyk.Rollback(xBefore);
      }
    }

    /** Moves one open position: the XYK lockdrop pays what it owes and closes it, the PCL lockdrop records it, and stakes
        if the generator holds no more LP tokens of the pool. */
    method MigrateOne(k: Key, leg: Tge.Leg) returns (r: Result<()>)
      requires k in xyk.lockups
      modifies xyk, pcl
      ensures match Tge.MigrateOne(old(xyk.State()), old(pcl.State()), k, leg)
              case Ok(p) => r == Ok(()) && xyk.State() == p.0 && pcl.State() == p.1
              case Err(e) => r == Err(e) && xyk.State() == old(xyk.State()) && pcl.State() == old(pcl.State())
    {
      var before := xyk.State();
      r := xyk.MigratePosition(k, leg.pending);
      if r.Err? {
        return r;
      }
      if k !in xyk.lockups {
        xyk.Rollback(before);
        return Err(NotFound);
      }
      var user := xyk.UserOrDefault(k.user);
      var last := xyk.ledger.staked.Get(k.pool) == 0;
      r := pcl.FinishMigration(k, user, xyk.lockups[k], leg.minted, last);
      if r.Err? {
        xyk.Rollback(before);
      }
    }

    method MigrateNext(k: Key, legs: map<Key, Tge.Leg>) returns (r: Result<()>)
      modifies xyk, pcl
      ensures match MigrateListed(old(xyk.State()), old(pcl.State()), k, legs)
              case Ok(p) => r == Ok(()) && xyk.State() == p.0 && pcl.State() == p.1
              case Err(e) => r == Err(e) && xyk.State() == old(xyk.State()) && pcl.State() == old(pcl.State())
    {
      if k !in xyk.lockups {
        r := Err(NotFound);
      } else if xyk.lockups[k].transferred.None? {
        r := MigrateOne(k, Tge.LegOf(legs, k));
      } else {
        r := Ok(());
      }
    }

    /** The callbacks for all positions of a user, one position after the other. */
    method MigratePositions(u: Addr, legs: map<Key, Tge.Leg>) returns (r: Result<()>)
      modifies xyk, pcl
      ensures match Tge.MigratePositions(old(xyk.State()), old(pcl.State()), UserKeys(old(xyk.lockups), u), legs)
              case Ok(p) => r == Ok(()) && xyk.State() == p.0 && pcl.State() == p.1
              case Err(e) => r == Err(e) && xyk.State() == old(xyk.State()) && pcl.State() == old(pcl.State())
    {
      var x, c := xyk.State(), pcl.State();
      var keys := ListKeys(xyk.lockups, u);
      for i := 0 to |keys|
        invariant Tge.MigratePositions(x, c, keys, legs) == Tge.MigratePositions(xyk.State(), pcl.State(), keys[i..], legs)
      {
        assert keys[i..][0] == keys[i] && keys[i..][1..] == keys[i + 1..];
        MigrateFirst(xyk.State(), pcl.State(), keys[i..], legs);
        r := MigrateNext(keys[i], legs);
        if r.Err? {
          xyk.Rollback(x);
          pcl.Rollback(c);
          return r;
        }
      }
      return Ok(());
    }

    /** MigrateLiquidityToPCLPools. */
    method MigrateLiquidity(u: Addr, legs: map<Key, Tge.Leg>)
      modifies xyk, pcl
      ensures World() == Tge.Apply(old(World()), Tge.MigrateLiquidity(u, legs))
    {
      if auction.minted.None? || now < xyk.config.WindowsEnd() {
        return;
      }
      MigrateLiquidityIs(World(), u, legs);
      var before := xyk.State();
      var r := xyk.FinalizeRewards(u);
      if r.Ok? {
        r := MigratePositions(u, legs);
        if r.Err? {
          xyk.Rollback(before);
        }
      }
    }

    method Claim(k: Key, withdraw: bool, pending: Option<nat>)
      modifies xyk
      ensures World() == Tge.Apply(old(World()), Tge.Claim(k, withdraw, pending))
    {
      if auction.minted.None? || now < xyk.config.WindowsEnd() {
        return;
      }
      var _ := xyk.ClaimRewardsAndOptionallyUnlock(now, k, withdraw, pending);
    }

    /** One message to a vesting contract, unless nothing is sent. */
    method Register(v: VestingContract.Contract, accounts: seq<Vesting.Account>, sent: nat) returns (r: Result<()>)
      requires Vesting.AllValid(v.State())
      modifies v
      ensures Vesting.AllValid(v.State())
      ensures match if sent == 0 then Ok(old(v.State())) else Vesting.Register(old(v.State()), accounts, sent)
              case Ok(state) => r == Ok(()) && v.State() == state
              case Err(e) => r == Err(e) && v.State() == old(v.State())
    {
      if sent == 0 {
        return Ok(());
      }
      Vesting.StaysValid(v.State(), accounts, sent, 0, 0, None);
      r := v.Register(accounts, sent);
    }

    /** The messages of a hand-over to both vesting contracts. */
    method Send(m: AuctionContract.Messages, ghost a: Auction.State) returns (r: Result<()>)
      requires Valid() && AuctionContract.Sends(a, m, now)
      modifies vestingUsdc, vestingAtom
      ensures Valid()
      ensures match HandOver.Send(PerPool(old(vestingUsdc.State()), old(vestingAtom.State())), a, Auction.Batch(a), now)
              case Ok(v) => r == Ok(()) && vestingUsdc.State() == v.usdc && vestingAtom.State() == v.atom
              case Err(_) => r.Err? && vestingUsdc.State() == old(vestingUsdc.State()) && vestingAtom.State() == old(vestingAtom.State())
    {
      assert m.accounts.Get(ATOM) == HandOver.Accounts(a, Auction.Batch(a), ATOM, now) && m.sent.Get(ATOM) == HandOver.Amount(a, Auction.Batch(a), ATOM);
      assert m.accounts.Get(USDC) == HandOver.Accounts(a, Auction.Batch(a), USDC, now) && m.sent.Get(USDC) == HandOver.Amount(a, Auction.Batch(a), USDC);
      var before := vestingAtom.State();
      r := Register(vestingAtom, m.accounts.atom, m.sent.atom);
      if r.Ok? {
        r := Register(vestingUsdc, m.accounts.usdc, m.sent.usdc);
        if r.Err? {
          vestingAtom.Rollback(before);
        }
      }
    }

    /** The auction marks the next users and sends RegisterVestingAccounts to both vesting contracts. */
    method MigrateToVesting()
      requires Valid()
      modifies auction, vestingUsdc, vestingAtom
      ensures Valid() && World() == Tge.Apply(old(World()), Tge.MigrateToVesting)
    {
      var before := auction.State();
      var m := auction.MigrateToVesting(now);
      if m.Ok? {
        var r := Send(m.value, before);
        if r.Err? {
          auction.Rollback(before);
        }
      }
    }

    method ClaimVested(p: Pool, u: Addr, claimed: Option<nat>)
      requires Valid()
      modifies vestingUsdc, vestingAtom
      ensures Valid() && World() == Tge.Apply(old(World()), Tge.ClaimVested(p, u, claimed))
    {
      var v := if p == USDC then vestingUsdc else vestingAtom;
      Vesting.StaysValid(v.State(), [], 0, now, u, claimed);
      ClaimVestedIs(World(), p, u, claimed);
      var _ := v.Claim(now, u, claimed);
    }

    /** Any transaction at the current time. */
    method Handle(tx: Tx)
      requires Valid()
      modifies auction, xyk, pcl, vestingUsdc, vestingAtom
      ensures Valid() && World() == Tge.Apply(old(World()), tx)
    {
      match tx {
        case Deposit(user, amount) => { var _ := auction.Deposit(now, user, amount); }
        case WithdrawDeposit(user, amount) => { var _ := auction.Withdraw(now, user, amount); }
        case SetPoolSize(ntrn, rates) => { var _ := auction.SetPoolSize(now, ntrn, rates); }
        case LockLp(k, units) => { LockLp(k, units); }
        case WithdrawLp(k, units) => { WithdrawLp(k, units); }
        case InitPool(minted) => { InitPool(minted); }
        case MigrateToVesting => { MigrateToVesting(); }
        case IncreaseIncentives(ntrn) => { var _ := xyk.IncreaseIncentives(now, ntrn); }
        case Claim(k, withdraw, pending) => { Claim(k, withdraw, pending); }
        case MigrateLiquidity(user, legs) => { MigrateLiquidity(user, legs); }
        case ClaimVested(p, user, claimed) => { ClaimVested(p, user, claimed); }
        case ClaimPcl(k, withdraw, rewards, tokens) => { var _ := pcl.ClaimRewardsAndOptionallyUnlock(now, k, withdraw, rewards, tokens); }
      }
    }

    /** A whole run of the contracts is a run of the model, so everything proved of runs holds of them. */
    method Serve(events: seq<Event>)
      requires Valid()
      modifies this, auction, xyk, pcl, vestingUsdc, vestingAtom
      ensures Valid() && World() == Tge.Run(old(World()), events)
    {
      for i := 0 to |events|
        invariant Valid()
        invariant Tge.Run(old(World()), events) == Tge.Run(World(), events[i..])
      {
        assert events[i..][0] == events[i] && events[i..][1..] == events[i + 1..];
        ghost var w := World();
        now := now + events[i].elapsed;
        assert World() == Tge.Later(w, events[i].elapsed);
        Handle(events[i].tx);
      }
    }
  }
}

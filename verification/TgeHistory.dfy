/** The stored amounts are what the accepted messages say: every deposit, locked amount, position and incentive is the sum of
    the messages that name it, and a withdrawal is marked exactly if one was made late. */
module TgeHistory {
  import opened Basics
  import opened Tge
  import opened TgeInvariant
  import Auction
  import Xyk = LockdropXyk
  import XykRun = LockdropXykRun
  import XykPositions = LockdropXykPositions

  /** A stored amount: a user's deposit in a pool, what the auction has locked for a user in a pool, the units of a position,
      or the incentives. */
  datatype Entry = Deposited(pool: Pool, user: Addr) | Locked(pool: Pool, user: Addr) | Units(key: Key) | Incentives

  function Stored(w: World, e: Entry): int {
    match e
    case Deposited(p, u) => w.auction.User(u).deposited.Get(p)
    case Locked(p, u) => w.auction.User(u).locked.Get(p)
    case Units(k) => if k in w.xyk.lockups then w.xyk.lockups[k].units else 0
    case Incentives => w.xyk.incentives
  }

  /** What an accepted message adds to the entry. */
  function Change(tx: Tx, e: Entry): int {
    match e
    case Deposited(p, u) =>
      if tx.Deposit? && tx.user == u then tx.amount.Get(p) else if tx.WithdrawDeposit? && tx.user == u then 0 - tx.amount.Get(p) else 0
    case Locked(p, u) => if (tx.LockLp? || tx.WithdrawLp?) && tx.key.pool == p && tx.key.user == u then Moved(tx) else 0
    case Units(k) => if (tx.LockLp? || tx.WithdrawLp?) && tx.key == k then Moved(tx) else 0
    case Incentives => if tx.IncreaseIncentives? then tx.ntrn else 0
  }

  function Moved(tx: Tx): int
    requires tx.LockLp? || tx.WithdrawLp?
  {
    if tx.LockLp? then tx.units else 0 - tx.units
  }

  /** The sum over the accepted messages of a run. */
  ghost function Changes(w: World, events: seq<Event>, e: Entry): int
    decreases |events|
  {
    if events == [] then 0
    else
      (if Execute(Later(w, events[0].elapsed), events[0].tx).Ok? then Change(events[0].tx, e) else 0) + Changes(Next(w, events[0]), events[1..], e)
  }

  lemma {:induction false} HandOverKeepsUsers(a: Auction.State, batch: seq<Addr>, u: Addr)
    requires Auction.VestUsers(a, batch).Ok?
    ensures var i, i' := a.User(u), Auction.VestUsers(a, batch).value.User(u);
            i'.deposited == i.deposited && i'.locked == i.locked && i'.withdrawn == i.withdrawn
    decreases |batch|
  {
    if batch != [] {
      HandOverKeepsUsers(Auction.VestUser(a, batch[0]).value, batch[1..], u);
    }
  }

  lemma DepositAdds(a: Auction.State, now: nat, u: Addr, amount: PerPool<nat>, v: Addr, p: Pool)
    ensures var r := Auction.Deposit(a, now, u, amount);
            r.Ok? ==>
              && r.value.User(v).deposited.Get(p) == a.User(v).deposited.Get(p) + (if v == u then amount.Get(p) else 0)
              && r.value.User(v).locked == a.User(v).locked && r.value.User(v).withdrawn == a.User(v).withdrawn
    ensures var r := Auction.Withdraw(a, now, u, amount);
            r.Ok? ==>
              && r.value.User(v).deposited.Get(p) == a.User(v).deposited.Get(p) - (if v == u then amount.Get(p) else 0)
              && r.value.User(v).locked == a.User(v).locked
              && (r.value.User(v).withdrawn <==> a.User(v).withdrawn || (v == u && a.config.DepositEnd() <= now))
  {
  }

  lemma LockAdds(a: Auction.State, now: nat, u: Addr, q: Pool, units: nat, v: Addr, p: Pool)
    ensures var r := Auction.LockLp(a, now, u, q, units);
            r.Ok? ==>
              && r.value.User(v).locked.Get(p) == a.User(v).locked.Get(p) + (if v == u && p == q then units else 0)
              && r.value.User(v).deposited == a.User(v).deposited && r.value.User(v).withdrawn == a.User(v).withdrawn
    ensures var r := Auction.WithdrawLp(a, now, u, q, units);
            r.Ok? ==>
              && r.value.User(v).locked.Get(p) == a.User(v).locked.Get(p) - (if v == u && p == q then units else 0)
              && r.value.User(v).deposited == a.User(v).deposited && r.value.User(v).withdrawn == a.User(v).withdrawn
  {
  }

  /** The other messages leave the users' records alone, but for the mark of a hand-over. */
  lemma OthersKeepUser(w: World, tx: Tx, u: Addr)
    requires Execute(w, tx).Ok? && !(tx.Deposit? || tx.WithdrawDeposit? || tx.LockLp? || tx.WithdrawLp?)
    ensures var i, i' := w.auction.User(u), Execute(w, tx).value.auction.User(u);
            i'.deposited == i.deposited && i'.locked == i.locked && i'.withdrawn == i.withdrawn
  {
    if tx.MigrateToVesting? {
      HandOverKeepsUsers(w.auction, Auction.Batch(w.auction), u);
    }
  }

  lemma AuctionStepAdds(w: World, tx: Tx, e: Entry)
    requires Execute(w, tx).Ok? && (e.Deposited? || e.Locked?)
    ensures Stored(Execute(w, tx).value, e) == Stored(w, e) + Change(tx, e)
  {
    if tx.Deposit? || tx.WithdrawDeposit? {
      DepositAdds(w.auction, w.now, tx.user, tx.amount, e.user, e.pool);
    } else if tx.LockLp? || tx.WithdrawLp? {
      LockAdds(w.auction, w.now, tx.key.user, tx.key.pool, tx.units, e.user, e.pool);
    } else {
      OthersKeepUser(w, tx, e.user);
    }
  }

  lemma ResizeAdds(x: Xyk.State, now: nat, k: Key, units: nat, j: Key)
    ensures var before, r := if j in x.lockups then x.lockups[j].units else 0, Xyk.IncreaseLockup(x, now, k, units);
            r.Ok? ==> (if j in r.value.lockups then r.value.lockups[j].units else 0) == before + (if j == k then units else 0)
    ensures var before, r := if j in x.lockups then x.lockups[j].units else 0, Xyk.WithdrawLockup(x, now, k, units);
            r.Ok? ==> (if j in r.value.lockups then r.value.lockups[j].units else 0) == before - (if j == k then units else 0)
    ensures var r := Xyk.IncreaseLockup(x, now, k, units); r.Ok? ==> r.value.incentives == x.incentives
    ensures var r := Xyk.WithdrawLockup(x, now, k, units); r.Ok? ==> r.value.incentives == x.incentives
  {
  }

  lemma SettledAdds(w: World, tx: Tx, e: Entry)
    requires Inv(w) && Execute(w, tx).Ok? && (tx.Claim? || tx.MigrateLiquidity?) && (e.Units? || e.Incentives?)
    ensures Stored(Execute(w, tx).value, e) == Stored(w, e)
  {
    if tx.Claim? {
      XykRun.ClaimKeeps(w.xyk, w.now, tx.key, tx.withdraw, tx.pending);
    } else {
      MigrateLiquidityKeeps(w, tx.user, tx.legs);
    }
    var x' := Execute(w, tx).value.xyk;
    if e.Units? && e.key in w.xyk.lockups {
      assert XykRun.SettledPosition(w.xyk.lockups[e.key], x'.lockups[e.key]);
    }
  }

  lemma XykStepAdds(w: World, tx: Tx, e: Entry)
    requires Inv(w) && Execute(w, tx).Ok? && (e.Units? || e.Incentives?)
    ensures Stored(Execute(w, tx).value, e) == Stored(w, e) + Change(tx, e)
  {
    if tx.LockLp? || tx.WithdrawLp? {
      ResizeAdds(w.xyk, w.now, tx.key, tx.units, if e.Units? then e.key else tx.key);
    } else if tx.Claim? || tx.MigrateLiquidity? {
      SettledAdds(w, tx, e);
    } else {
      OthersAdd(w, tx, e);
    }
  }

  lemma OthersAdd(w: World, tx: Tx, e: Entry)
    requires Execute(w, tx).Ok? && (e.Units? || e.Incentives?) && !(tx.LockLp? || tx.WithdrawLp? || tx.Claim? || tx.MigrateLiquidity?)
    ensures Stored(Execute(w, tx).value, e) == Stored(w, e) + Change(tx, e)
  {
  }

  lemma {:induction false} RunAdds(w: World, events: seq<Event>, e: Entry)
    requires Inv(w)
    ensures Stored(Run(w, events), e) == Stored(w, e) + Changes(w, events, e)
    decreases |events|
  {
    if events != [] {
      var l := Later(w, events[0].elapsed);
      TimePasses(w, events[0].elapsed);
      if Execute(l, events[0].tx).Ok? {
        if e.Deposited? || e.Locked? {
          AuctionStepAdds(l, events[0].tx, e);
        } else {
          XykStepAdds(l, events[0].tx, e);
        }
      }
      NextKeeps(w, events[0]);
      RunAdds(Next(w, events[0]), events[1..], e);
    }
  }

  /** In every run a user's deposit in each pool is what this user deposited of its asset less what this user withdrew; what is
      locked for a user, and in a position, is what was locked there less what was taken back; and the incentives are those at
      the start and all that were added. */
  lemma MessagesAddUp(start: World, events: seq<Event>, e: Entry)
    requires Initial(start)
    ensures Stored(Run(start, events), e) == (if e.Incentives? then start.xyk.incentives else 0) + Changes(start, events, e)
  {
    InitialInv(start);
    RunAdds(start, events, e);
  }

  // Marks

  /** The mark that a user or a position may withdraw no more. */
  datatype Mark = OfUser(user: Addr) | OfPosition(key: Key)

  predicate Marked(w: World, m: Mark) {
    match m
    case OfUser(u) => w.auction.User(u).withdrawn
    case OfPosition(k) => k in w.xyk.lockups && w.xyk.lockups[k].withdrawalFlag
  }

  /** The message is a withdrawal after the deposit window or the lock window. */
  predicate Late(w: World, tx: Tx, m: Mark) {
    match m
    case OfUser(u) => tx.WithdrawDeposit? && tx.user == u && w.auction.config.DepositEnd() <= w.now
    case OfPosition(k) => tx.WithdrawLp? && tx.key == k && w.xyk.config.LockEnd() <= w.now
  }

  ghost predicate WithdrewLate(w: World, events: seq<Event>, m: Mark)
    decreases |events|
  {
    events != []
    && var l := Later(w, events[0].elapsed);
    ((Execute(l, events[0].tx).Ok? && Late(l, events[0].tx, m)) || WithdrewLate(Next(w, events[0]), events[1..], m))
  }

  lemma ResizeMarks(x: Xyk.State, now: nat, k: Key, units: nat, j: Key)
    ensures var before, r := j in x.lockups && x.lockups[j].withdrawalFlag, Xyk.IncreaseLockup(x, now, k, units);
            r.Ok? ==> (j in r.value.lockups && r.value.lockups[j].withdrawalFlag <==> before)
    ensures var before, r := j in x.lockups && x.lockups[j].withdrawalFlag, Xyk.WithdrawLockup(x, now, k, units);
            r.Ok? ==> (j in r.value.lockups && r.value.lockups[j].withdrawalFlag <==> before || (j == k && x.config.LockEnd() <= now))
  {
    if Xyk.WithdrawLockup(x, now, k, units).Ok? && x.config.LockEnd() <= now {
      XykPositions.WithdrawOnceKeepsHalf(x, now, k, units);
    }
  }

  lemma SettledMarks(w: World, tx: Tx, k: Key)
    requires Inv(w) && Execute(w, tx).Ok? && (tx.Claim? || tx.MigrateLiquidity?)
    ensures Marked(Execute(w, tx).value, OfPosition(k)) <==> Marked(w, OfPosition(k))
  {
    if tx.Claim? {
      XykRun.ClaimKeeps(w.xyk, w.now, tx.key, tx.withdraw, tx.pending);
    } else {
      MigrateLiquidityKeeps(w, tx.user, tx.legs);
    }
    if k in w.xyk.lockups {
      assert XykRun.SettledPosition(w.xyk.lockups[k], Execute(w, tx).value.xyk.lockups[k]);
    }
  }

  lemma UserStepMarks(w: World, tx: Tx, u: Addr)
    requires Execute(w, tx).Ok?
    ensures Marked(Execute(w, tx).value, OfUser(u)) <==> Marked(w, OfUser(u)) || Late(w, tx, OfUser(u))
  {
    if tx.Deposit? || tx.WithdrawDeposit? {
      DepositAdds(w.auction, w.now, tx.user, tx.amount, u, USDC);
    } else if tx.LockLp? || tx.WithdrawLp? {
      LockAdds(w.auction, w.now, tx.key.user, tx.key.pool, tx.units, u, USDC);
    } else {
      OthersKeepUser(w, tx, u);
    }
  }

  lemma PositionStepMarks(w: World, tx: Tx, k: Key)
    requires Inv(w) && Execute(w, tx).Ok?
    ensures Marked(Execute(w, tx).value, OfPosition(k)) <==> Marked(w, OfPosition(k)) || Late(w, tx, OfPosition(k))
  {
    if tx.LockLp? || tx.WithdrawLp? {
      ResizeMarks(w.xyk, w.now, tx.key, tx.units, k);
    } else if tx.Claim? || tx.MigrateLiquidity? {
      SettledMarks(w, tx, k);
    } else {
      OthersMark(w, tx, k);
    }
  }

  lemma OthersMark(w: World, tx: Tx, k: Key)
    requires Execute(w, tx).Ok? && !(tx.LockLp? || tx.WithdrawLp? || tx.Claim? || tx.MigrateLiquidity?)
    ensures Execute(w, tx).value.xyk.lockups == w.xyk.lockups
  {
  }

  lemma NextMarks(w: World, e: Event, m: Mark)
    requires Inv(w)
    ensures var l := Later(w, e.elapsed);
            Marked(Next(w, e), m) <==> Marked(w, m) || (Execute(l, e.tx).Ok? && Late(l, e.tx, m))
  {
    var l := Later(w, e.elapsed);
    TimePasses(w, e.elapsed);
    if Execute(l, e.tx).Ok? {
      if m.OfUser? {
        UserStepMarks(l, e.tx, m.user);
      } else {
        PositionStepMarks(l, e.tx, m.key);
      }
    }
  }

  lemma {:induction false} RunMarks(w: World, events: seq<Event>, m: Mark)
    requires Inv(w)
    ensures Marked(Run(w, events), m) <==> Marked(w, m) || WithdrewLate(w, events, m)
    decreases |events|
  {
    if events != [] {
      NextMarks(w, events[0], m);
      NextKeeps(w, events[0]);
      RunMarks(Next(w, events[0]), events[1..], m);
    }
  }

  /** In every run a user, or a position, is marked exactly if a withdrawal was made from it after the deposit window, or after
      the lock window: withdrawals before that count for nothing. */
  lemma MarkedIfLate(start: World, events: seq<Event>, m: Mark)
    requires Initial(start)
    ensures Marked(Run(start, events), m) <==> WithdrewLate(start, events, m)
  {
    InitialInv(start);
    RunMarks(start, events, m);
  }

  // Initialisation

  /** When the pools were initialised, and with which LP tokens. */
  datatype Init = Init(time: nat, minted: PerPool<nat>)

  function Initialised(a: Auction.State): Option<Init> {
    if a.minted.Some? then Some(Init(a.poolInitTime, a.minted.value)) else None
  }

  ghost function Initialisation(w: World, events: seq<Event>): Option<Init>
    decreases |events|
  {
    if events == [] then None
    else
      var l := Later(w, events[0].elapsed);
      if events[0].tx.InitPool? && Execute(l, events[0].tx).Ok? then Some(Init(l.now, events[0].tx.minted))
      else Initialisation(Next(w, events[0]), events[1..])
  }

  lemma StepInitialises(w: World, tx: Tx)
    requires Execute(w, tx).Ok?
    ensures var before, after := Initialised(w.auction), Initialised(Execute(w, tx).value.auction);
            && (before.Some? ==> after == before)
            && (before.None? ==> after == if tx.InitPool? then Some(Init(w.now, tx.minted)) else None)
  {
    if tx.InitPool? {
      assert Execute(w, tx).value.auction == Auction.InitPool(w.auction, w.now, tx.minted).value;
    } else if tx.Deposit? || tx.WithdrawDeposit? || tx.SetPoolSize? || tx.LockLp? || tx.WithdrawLp? {
      AuctionStepKeepsInit(w, tx);
    } else {
      OthersKeepInit(w, tx);
    }
  }

  lemma AuctionStepKeepsInit(w: World, tx: Tx)
    requires Execute(w, tx).Ok? && (tx.Deposit? || tx.WithdrawDeposit? || tx.SetPoolSize? || tx.LockLp? || tx.WithdrawLp?)
    ensures Initialised(Execute(w, tx).value.auction) == Initialised(w.auction)
  {
  }

  lemma OthersKeepInit(w: World, tx: Tx)
    requires Execute(w, tx).Ok?
    requires tx.MigrateToVesting? || tx.IncreaseIncentives? || tx.Claim? || tx.MigrateLiquidity? || tx.ClaimVested? || tx.ClaimPcl?
    ensures Initialised(Execute(w, tx).value.auction) == Initialised(w.auction)
  {
    if tx.MigrateToVesting? {
      HandOverKeepsInit(w.auction, Auction.Batch(w.auction));
    }
  }

  lemma {:induction false} HandOverKeepsInit(a: Auction.State, batch: seq<Addr>)
    requires Auction.VestUsers(a, batch).Ok?
    ensures Initialised(Auction.VestUsers(a, batch).value) == Initialised(a)
    decreases |batch|
  {
    if batch != [] {
      HandOverKeepsInit(Auction.VestUser(a, batch[0]).value, batch[1..]);
    }
  }

  lemma {:induction false} RunInitialises(w: World, events: seq<Event>)
    ensures Initialised(Run(w, events).auction) == if Initialised(w.auction).Some? then Initialised(w.auction) else Initialisation(w, events)
    decreases |events|
  {
    if events != [] {
      var l := Later(w, events[0].elapsed);
      if Execute(l, events[0].tx).Ok? {
        StepInitialises(l, events[0].tx);
      }
      RunInitialises(Next(w, events[0]), events[1..]);
    }
  }

  /** In every run the pools are initialised exactly if an InitPool was accepted; the time of the first such message and the LP
      tokens that the pairs minted for it are recorded, and stay. */
  lemma InitialisedOnce(start: World, events: seq<Event>)
    requires Initial(start)
    ensures Initialised(Run(start, events).auction) == Initialisation(start, events)
  {
    RunInitialises(start, events);
  }
}

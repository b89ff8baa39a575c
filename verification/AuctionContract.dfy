/** The auction in its own form: stored fields and message handlers. */
module AuctionContract {
  import opened Basics
  import opened FixedPoint
  import A = Auction
  import H = HandOver
  import Vesting
  import Ordered
  import Windows

  // The hand-over loop

  /** What the loop has collected: updated users, the auction's record of vesting amounts, and for each pool the accounts
      to register and the LP tokens to send. */
  datatype Progress = Progress(users: map<Addr, A.UserInfo>, vesting: PerPool<map<Addr, nat>>, messages: Messages)

  /** The messages to the two vesting contracts. */
  datatype Messages = Messages(accounts: PerPool<seq<Vesting.Account>>, sent: PerPool<nat>)

  predicate Affordable(a: A.State, s: Progress) {
    s.messages.sent.usdc <= a.ledger.held.usdc && s.messages.sent.atom <= a.ledger.held.atom
  }

  /** The auction in the middle of a hand-over. */
  function Midway(a: A.State, s: Progress): A.State
    requires Affordable(a, s)
  {
    a.(users := s.users,
       ledger := a.ledger.(held := PerPool(a.ledger.held.usdc - s.messages.sent.usdc, a.ledger.held.atom - s.messages.sent.atom), vesting := s.vesting))
  }

  /** As long as the LP tokens suffice, the rest of the batch decides the hand-over. */
  ghost predicate Pending(a: A.State, batch: seq<Addr>, rest: seq<Addr>, s: Progress) {
    if Affordable(a, s) then A.VestUsers(a, batch) == A.VestUsers(Midway(a, s), rest) else A.VestUsers(a, batch).Err?
  }

  function Parts(a: A.State, info: A.UserInfo): PerPool<nat> {
    PerPool(A.LpPart(info.deposited.usdc, a.deposited.usdc, a.lpSize.usdc), A.LpPart(info.deposited.atom, a.deposited.atom, a.lpSize.atom))
  }

  function Before(vesting: map<Addr, nat>, u: Addr): nat {
    if u in vesting then vesting[u] else 0
  }

  /** The message with one more user, unless nothing vests for the user. */
  function WithUser(list: seq<Vesting.Account>, u: Addr, now: nat, duration: nat, amount: nat): seq<Vesting.Account> {
    if amount == 0 then list else list + [Vesting.Account(u, [H.ScheduleFor(now, duration, amount)])]
  }

  /** One more user: the rest vests, and is sent. */
  function Handed(a: A.State, s: Progress, u: Addr, now: nat): Result<Progress> {
    if u !in s.users then Err(NotFound)
    else
      var info := s.users[u];
      var m := s.messages;
      var atom :- CheckedSub(Parts(a, info).atom, info.locked.atom);
      var usdc :- CheckedSub(Parts(a, info).usdc, info.locked.usdc);
      Ok(Progress(s.users[u := info.(vested := true)],
                  PerPool(s.vesting.usdc[u := Before(s.vesting.usdc, u) + usdc], s.vesting.atom[u := Before(s.vesting.atom, u) + atom]),
                  Messages(PerPool(WithUser(m.accounts.usdc, u, now, a.config.vestingDuration, usdc),
                                   WithUser(m.accounts.atom, u, now, a.config.vestingDuration, atom)),
                           PerPool(m.sent.usdc + usdc, m.sent.atom + atom))))
  }

  /** Handing over in the middle is handing over from the start, if the LP tokens suffice. */
  lemma HandedIsVested(a: A.State, s: Progress, u: Addr, now: nat)
    requires Affordable(a, s)
    ensures var r, v := Handed(a, s, u, now), A.VestUser(Midway(a, s), u);
            if r.Err? then v.Err?
            else v == if Affordable(a, r.value) then Ok(Midway(a, r.value)) else Err(InsufficientFunds)
  {
  }

  lemma PendingNext(a: A.State, batch: seq<Addr>, rest: seq<Addr>, s: Progress, now: nat)
    requires Pending(a, batch, rest, s) && rest != []
    ensures Handed(a, s, rest[0], now).Err? ==> A.VestUsers(a, batch).Err?
    ensures Handed(a, s, rest[0], now).Ok? ==> Pending(a, batch, rest[1..], Handed(a, s, rest[0], now).value)
  {
    if Affordable(a, s) {
      HandedIsVested(a, s, rest[0], now);
    }
  }

  /** The messages so far, continued with those of the rest, are those of the batch. */
  ghost predicate Collected(a: A.State, batch: seq<Addr>, rest: seq<Addr>, s: Progress, now: nat) {
    && (forall u :: u in s.users ==> u in a.users && s.users[u] == a.users[u].(vested := s.users[u].vested))
    && (forall p :: s.messages.accounts.Get(p) + H.Accounts(a, rest, p, now) == H.Accounts(a, batch, p, now))
    && (forall p :: s.messages.sent.Get(p) + H.Amount(a, rest, p) == H.Amount(a, batch, p))
  }

  lemma CollectedNext(a: A.State, batch: seq<Addr>, rest: seq<Addr>, s: Progress, now: nat)
    requires Collected(a, batch, rest, s, now) && rest != [] && Handed(a, s, rest[0], now).Ok?
    ensures Collected(a, batch, rest[1..], Handed(a, s, rest[0], now).value, now)
  {
    var u, s' := rest[0], Handed(a, s, rest[0], now).value;
    forall p
      ensures s'.messages.accounts.Get(p) + H.Accounts(a, rest[1..], p, now) == H.Accounts(a, batch, p, now)
      ensures s'.messages.sent.Get(p) + H.Amount(a, rest[1..], p) == H.Amount(a, batch, p)
    {
      assert s.messages.accounts.Get(p) + H.Accounts(a, rest, p, now) == H.Accounts(a, batch, p, now);
      assert s.messages.sent.Get(p) + H.Amount(a, rest, p) == H.Amount(a, batch, p);
      RestOfUser(a, s, u, p, now);
      WithUserFirst(a, s.messages.accounts.Get(p), rest, p, now);
    }
  }

  lemma RestOfUser(a: A.State, s: Progress, u: Addr, p: Pool, now: nat)
    requires u in s.users && u in a.users && s.users[u] == a.users[u].(vested := s.users[u].vested) && Handed(a, s, u, now).Ok?
    ensures var m, m' := s.messages, Handed(a, s, u, now).value.messages;
            && m'.accounts.Get(p) == WithUser(m.accounts.Get(p), u, now, a.config.vestingDuration, H.Rest(a, u, p))
            && m'.sent.Get(p) == m.sent.Get(p) + H.Rest(a, u, p)
  {
  }

  lemma WithUserFirst(a: A.State, list: seq<Vesting.Account>, rest: seq<Addr>, p: Pool, now: nat)
    requires rest != []
    ensures WithUser(list, rest[0], now, a.config.vestingDuration, H.Rest(a, rest[0], p)) + H.Accounts(a, rest[1..], p, now) ==
            list + H.Accounts(a, rest, p, now)
  {
  }

  /** The messages of the next hand-over. */
  ghost predicate Sends(a: A.State, m: Messages, now: nat) {
    forall p :: m.accounts.Get(p) == H.Accounts(a, A.Batch(a), p, now) && m.sent.Get(p) == H.Amount(a, A.Batch(a), p)
  }

  lemma CollectedAll(a: A.State, batch: seq<Addr>, s: Progress, now: nat)
    requires Collected(a, batch, [], s, now)
    ensures forall p :: s.messages.accounts.Get(p) == H.Accounts(a, batch, p, now) && s.messages.sent.Get(p) == H.Amount(a, batch, p)
  {
    forall p
      ensures s.messages.accounts.Get(p) == H.Accounts(a, batch, p, now) && s.messages.sent.Get(p) == H.Amount(a, batch, p)
    {
      assert s.messages.accounts.Get(p) + [] == H.Accounts(a, batch, p, now);
    }
  }

  class Contract {
    var config: A.Config
    var users: map<Addr, A.UserInfo>
    var deposited: PerPool<nat>
    var minted: Option<PerPool<nat>>
    var poolInitTime: nat
    var ntrnSize: PerPool<nat>
    var lpSize: PerPool<nat>
    var locked: PerPool<nat>
    var ledger: A.Ledger

    function State(): A.State
      reads this
    {
      A.State(config, users, deposited, minted, poolInitTime, ntrnSize, lpSize, locked, ledger)
    }

    constructor (config: A.Config)
      ensures this.config == config && users == map[] && minted == None && poolInitTime == 0
      ensures deposited == ntrnSize == lpSize == locked == PerPool(0, 0)
      ensures ledger.held == ledger.reserve == ledger.toLockdrop == PerPool(0, 0) && ledger.vesting == PerPool(map[], map[])
    {
      this.config := config;
      users, minted, poolInitTime := map[], None, 0;
      deposited, ntrnSize, lpSize, locked := PerPool(0, 0), PerPool(0, 0), PerPool(0, 0), PerPool(0, 0);
      ledger := A.Ledger(PerPool(0, 0), PerPool(0, 0), PerPool(0, 0), PerPool(map[], map[]));
    }

    /** What the chain does when a message fails. */
    method Rollback(a: A.State)
      modifies this
      ensures State() == a
    {
      config, users, deposited, minted, poolInitTime := a.config, a.users, a.deposited, a.minted, a.poolInitTime;
      ntrnSize, lpSize, locked, ledger := a.ntrnSize, a.lpSize, a.locked, a.ledger;
    }

    method Deposit(now: nat, u: Addr, amount: PerPool<nat>) returns (r: Result<()>)
      modifies this
      ensures match A.Deposit(old(State()), now, u, amount)
              case Ok(a) => r == Ok(()) && State() == a
              case Err(e) => r == Err(e) && State() == old(State())
    {
      if now < config.initTime || now >= config.initTime + config.depositWindow {
        return Err(WindowClosed);
      }
      if amount.usdc == 0 && amount.atom == 0 {
        return Err(InvalidAmount);
      }
      var info := if u in users then users[u] else A.UserInfo(PerPool(0, 0), false, PerPool(0, 0), false);
      if deposited.usdc + amount.usdc > U128_MAX || deposited.atom + amount.atom > U128_MAX {
        return Err(Overflow);
      }
      deposited := PerPool(deposited.usdc + amount.usdc, deposited.atom + amount.atom);
      info := info.(deposited := PerPool(info.deposited.usdc + amount.usdc, info.deposited.atom + amount.atom));
      users := users[u := info];
      return Ok(());
    }

    /** The share of deposits that may be withdrawn now. */
    method AllowedWithdrawalPercent(now: nat) returns (percent: nat)
      ensures percent == Windows.AllowedPercent(now, config.DepositEnd(), config.withdrawalWindow)
    {
      var cutoff := config.initTime + config.depositWindow;
      if now < cutoff {
        return Ratio(100, 100);
      }
      var second := cutoff + config.withdrawalWindow / 2;
      if now <= second {
        return Ratio(50, 100);
      }
      var final := cutoff + config.withdrawalWindow;
      if now < final {
        return Ratio(50 * (final - now), 100 * (final - second));
      }
      return Ratio(0, 100);
    }

    method Withdraw(now: nat, u: Addr, amount: PerPool<nat>) returns (r: Result<()>)
      modifies this
      ensures match A.Withdraw(old(State()), now, u, amount)
              case Ok(a) => r == Ok(()) && State() == a
              case Err(e) => r == Err(e) && State() == old(State())
    {
      if u !in users {
        return Err(NotFound);
      }
      var info := users[u];
      if info.withdrawn {
        return Err(AlreadyWithdrawn);
      }
      var percent := AllowedWithdrawalPercent(now);
      if amount.usdc > MulFloor(percent, info.deposited.usdc) || amount.atom > MulFloor(percent, info.deposited.atom) {
        return Err(LimitExceeded);
      }
      if amount.usdc == 0 && amount.atom == 0 {
        return Err(InvalidAmount);
      }
      if now >= config.initTime + config.depositWindow {
        info := info.(withdrawn := true);
      }
      if || deposited.usdc < amount.usdc || deposited.atom < amount.atom
         || info.deposited.usdc < amount.usdc || info.deposited.atom < amount.atom
      {
        return Err(Overflow);
      }
      deposited := PerPool(deposited.usdc - amount.usdc, deposited.atom - amount.atom);
      info := info.(deposited := PerPool(info.deposited.usdc - amount.usdc, info.deposited.atom - amount.atom));
      users := users[u := info];
      return Ok(());
    }

    method SetPoolSize(now: nat, ntrn: nat, rates: seq<A.Rate>) returns (r: Result<()>)
      modifies this
      ensures match A.SetPoolSize(old(State()), now, ntrn, rates)
              case Ok(a) => r == Ok(()) && State() == a
              case Err(e) => r == Err(e) && State() == old(State())
    {
      if minted.Some? {
        return Err(AlreadySet);
      }
      if now < config.WindowsEnd() {
        return Err(WindowOpen);
      }
      if ntrnSize.usdc != 0 || ntrnSize.atom != 0 {
        return Err(AlreadySet);
      }
      if |rates| != 2 || now < config.maxRateAge || rates[0].resolveTime < now - config.maxRateAge {
        return Err(BadPriceFeed);
      }
      if ntrn < config.minNtrn {
        return Err(InsufficientFunds);
      }
      var usdcSize := A.UsdcNtrnSize(deposited, ntrn, rates);
      if usdcSize.Err? {
        return Err(usdcSize.error);
      }
      if ntrn < usdcSize.value {
        return Err(Overflow);
      }
      var atomSize := ntrn - usdcSize.value;
      var atomLp := A.LpSize(atomSize, deposited.atom);
      var usdcLp := A.LpSize(usdcSize.value, deposited.usdc);
      if atomLp.Err? || usdcLp.Err? {
        return Err(Overflow);
      }
      ntrnSize := PerPool(usdcSize.value, atomSize);
      lpSize := PerPool(usdcLp.value, atomLp.value);
      return Ok(());
    }

    /** LP tokens of a user in both pools. */
    method UserLpInfo(info: A.UserInfo) returns (parts: PerPool<nat>)
      ensures parts == Parts(State(), info)
    {
      var atom := if deposited.atom == 0 then 0 else MulFloor(Ratio(info.deposited.atom, deposited.atom), lpSize.atom);
      var usdc := if deposited.usdc == 0 then 0 else MulFloor(Ratio(info.deposited.usdc, deposited.usdc), lpSize.usdc);
      return PerPool(usdc / 2, atom / 2);
    }

    method LockLp(now: nat, u: Addr, p: Pool, amount: nat) returns (r: Result<()>)
      modifies this
      ensures match A.LockLp(old(State()), now, u, p, amount)
              case Ok(a) => r == Ok(()) && State() == a
              case Err(e) => r == Err(e) && State() == old(State())
    {
      if u !in users {
        return Err(NotFound);
      }
      if ntrnSize.atom == 0 || ntrnSize.usdc == 0 {
        return Err(NotConfigured);
      }
      if now >= config.LockEnd() {
        return Err(WindowClosed);
      }
      var info := users[u];
      if info.deposited.Get(p) == 0 {
        return Err(InsufficientFunds);
      }
      var parts := UserLpInfo(info);
      if parts.Get(p) < info.locked.Get(p) {
        return Err(Overflow);
      }
      if amount > parts.Get(p) - info.locked.Get(p) {
        return Err(InsufficientFunds);
      }
      if locked.Get(p) + amount > U128_MAX {
        return Err(Overflow);
      }
      info := info.(locked := info.locked.Set(p, info.locked.Get(p) + amount));
      users := users[u := info];
      locked := locked.Set(p, locked.Get(p) + amount);
      return Ok(());
    }

    method WithdrawLp(now: nat, u: Addr, p: Pool, amount: nat) returns (r: Result<()>)
      modifies this
      ensures match A.WithdrawLp(old(State()), now, u, p, amount)
              case Ok(a) => r == Ok(()) && State() == a
              case Err(e) => r == Err(e) && State() == old(State())
    {
      if u !in users {
        return Err(NotFound);
      }
      if ntrnSize.atom == 0 || ntrnSize.usdc == 0 {
        return Err(NotConfigured);
      }
      if now >= config.LockEnd() {
        return Err(WindowClosed);
      }
      var info := users[u];
      if info.locked.Get(p) < amount || locked.Get(p) < amount {
        return Err(Overflow);
      }
      info := info.(locked := info.locked.Set(p, info.locked.Get(p) - amount));
      users := users[u := info];
      locked := locked.Set(p, locked.Get(p) - amount);
      return Ok(());
    }

    /** InitPool with its FinalizePoolInitialization callback. */
    method InitPool(now: nat, shares: PerPool<nat>) returns (r: Result<()>)
      modifies this
      ensures match A.InitPool(old(State()), now, shares)
              case Ok(a) => r == Ok(()) && State() == a
              case Err(e) => r == Err(e) && State() == old(State())
    {
      if minted.Some? {
        return Err(AlreadySet);
      }
      if lpSize.usdc == 0 && lpSize.atom == 0 {
        return Err(NotConfigured);
      }
      if now < config.LockEnd() {
        return Err(WindowOpen);
      }
      var usdcReserve, atomReserve := shares.usdc / 2, shares.atom / 2;
      var usdcRest, atomRest := ledger.held.usdc + shares.usdc - usdcReserve, ledger.held.atom + shares.atom - atomReserve;
      if usdcRest < locked.usdc || atomRest < locked.atom {
        return Err(InsufficientFunds);
      }
      minted := Some(shares);
      poolInitTime := now;
      ledger := ledger.(held := PerPool(usdcRest - locked.usdc, atomRest - locked.atom),
                        reserve := PerPool(usdcReserve, atomReserve), toLockdrop := locked);
      return Ok(());
    }

    /** The loop over a batch of users, which collects what vests for them. */
    method CollectBatch(now: nat, batch: seq<Addr>) returns (r: Result<Progress>)
      ensures r.Ok? ==> Pending(State(), batch, [], r.value) && Collected(State(), batch, [], r.value, now)
      ensures r.Err? ==> A.VestUsers(State(), batch).Err?
    {
      ghost var a := State();
      var s := Progress(users, ledger.vesting, Messages(PerPool([], []), PerPool(0, 0)));
      assert Midway(a, s) == a;
      for i := 0 to |batch|
        invariant State() == a && Pending(a, batch, batch[i..], s) && Collected(a, batch, batch[i..], s, now)
      {
        assert batch[i..][0] == batch[i] && batch[i..][1..] == batch[i + 1..];
        PendingNext(a, batch, batch[i..], s, now);
        var next := CollectUser(s, batch[i], now);
        if next.Err? {
          return next;
        }
        CollectedNext(a, batch, batch[i..], s, now);
        s := next.value;
      }
      return Ok(s);
    }

    method CollectUser(s: Progress, u: Addr, now: nat) returns (r: Result<Progress>)
      ensures r == Handed(State(), s, u, now)
    {
      if u !in s.users {
        return Err(NotFound);
      }
      var info := s.users[u];
      var parts := UserLpInfo(info);
      if parts.atom < info.locked.atom || parts.usdc < info.locked.usdc {
        return Err(Overflow);
      }
      var atom, usdc := parts.atom - info.locked.atom, parts.usdc - info.locked.usdc;
      var atomUsers, usdcUsers := s.messages.accounts.atom, s.messages.accounts.usdc;
      if atom != 0 {
        atomUsers := atomUsers + [Vesting.Account(u, [H.ScheduleFor(now, config.vestingDuration, atom)])];
      }
      if usdc != 0 {
        usdcUsers := usdcUsers + [Vesting.Account(u, [H.ScheduleFor(now, config.vestingDuration, usdc)])];
      }
      info := info.(vested := true);
      return Ok(Progress(s.users[u := info],
                         PerPool(s.vesting.usdc[u := Before(s.vesting.usdc, u) + usdc], s.vesting.atom[u := Before(s.vesting.atom, u) + atom]),
                         Messages(PerPool(usdcUsers, atomUsers), PerPool(s.messages.sent.usdc + usdc, s.messages.sent.atom + atom))));
    }

    /** MigrateToVesting: the next users are marked, and the result is what to send to the two vesting contracts. */
    method MigrateToVesting(now: nat) returns (r: Result<Messages>)
      modifies this
      ensures match A.MigrateToVesting(old(State()))
              case Ok(a) => r.Ok? && State() == a && Sends(old(State()), r.value, now)
              case Err(_) => r.Err? && State() == old(State())
    {
      if poolInitTime == 0 {
        return Err(NotConfigured);
      }
      var batch := Ordered.SortKeys(A.Unvested(State()));
      if |batch| > config.packSize {
        batch := batch[..config.packSize];
      }
      if |batch| == 0 {
        return Err(NotFound);
      }
      var s := CollectBatch(now, batch);
      if s.Err? {
        return Err(s.error);
      }
      var m := s.value.messages;
      if ledger.held.atom < m.sent.atom || ledger.held.usdc < m.sent.usdc {
        return Err(InsufficientFunds);
      }
      CollectedAll(State(), batch, s.value, now);
      users := s.value.users;
      ledger := ledger.(held := PerPool(ledger.held.usdc - m.sent.usdc, ledger.held.atom - m.sent.atom), vesting := s.value.vesting);
      return Ok(m);
    }
  }
}

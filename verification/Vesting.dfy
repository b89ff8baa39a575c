/** The vesting contract: schedules, partial claims, clawback, and its ledger over all accounts. */
module Vesting {
  import opened Basics
  import opened FixedPoint
  import opened Sums

  datatype Point = Point(time: nat, amount: nat)

  datatype Schedule = Schedule(start: Point, end: Option<Point>)

  datatype Info = Info(schedules: seq<Schedule>, released: nat)

  datatype Account = Account(address: Addr, schedules: seq<Schedule>)

  /** The accounts, the granted and released totals, and the contract's balance of the vesting token. */
  datatype State = State(accounts: map<Addr, Info>, granted: nat, released: nat, balance: nat)

  /** The contract before its first message. */
  predicate Empty(v: State) {
    v.accounts == map[] && v.granted == v.released == v.balance == 0
  }

  // Schedules

  predicate ValidSchedule(s: Schedule) {
    s.end.Some? ==> s.start.time < s.end.value.time && s.start.amount < s.end.value.amount
  }

  predicate ValidSchedules(schedules: seq<Schedule>) {
    forall i :: 0 <= i < |schedules| ==> ValidSchedule(schedules[i])
  }

  /** What a schedule grants in the end. */
  function Grant(s: Schedule): nat {
    if s.end.Some? then s.end.value.amount else s.start.amount
  }

  /** The part of amount that has been released after passed of span seconds. */
  function Linear(passed: nat, span: nat, amount: nat): nat
    requires span > 0
  {
    passed * amount / span
  }

  /** What a schedule has vested at time now: the start amount at once, the rest linearly until the end, rounded down. */
  function VestedOf(s: Schedule, now: nat): nat
    requires ValidSchedule(s)
  {
    if s.start.time > now then 0
    else if s.end.None? then s.start.amount
    else
      var end := s.end.value;
      s.start.amount + Linear(Min(now, end.time) - s.start.time, end.time - s.start.time, end.amount - s.start.amount)
  }

  function GrantOf(schedules: seq<Schedule>): nat {
    if schedules == [] then 0 else Grant(schedules[0]) + GrantOf(schedules[1..])
  }

  function VestedAt(schedules: seq<Schedule>, now: nat): nat
    requires ValidSchedules(schedules)
  {
    if schedules == [] then 0 else VestedOf(schedules[0], now) + VestedAt(schedules[1..], now)
  }

  /** The schedule has run to its end. */
  predicate Ended(s: Schedule, now: nat) {
    s.start.time <= now && (s.end.Some? ==> s.end.value.time <= now)
  }

  lemma LinearBounds(passed: nat, longer: nat, span: nat, amount: nat)
    requires span > 0 && passed <= longer <= span
    ensures Linear(passed, span, amount) <= Linear(longer, span, amount) <= Linear(span, span, amount) == amount
  {
    LinearGrows(passed, longer, span, amount);
    LinearGrows(longer, span, span, amount);
    Commute(span, amount);
    MulDivCancel(amount, span);
  }

  lemma NothingPassed(span: nat, amount: nat)
    requires span > 0
    ensures Linear(0, span, amount) == 0
  {
    assert 0 * amount == 0;
  }

  lemma LinearGrows(passed: nat, longer: nat, span: nat, amount: nat)
    requires span > 0 && passed <= longer
    ensures Linear(passed, span, amount) <= Linear(longer, span, amount)
  {
    MulMono(amount, passed, longer);
    Commute(passed, amount);
    Commute(longer, amount);
    DivMono(passed * amount, longer * amount, span);
  }

  lemma Commute(a: nat, b: nat)
    ensures a * b == b * a
  {
  }

  lemma VestedOfBounds(s: Schedule, now: nat, later: nat)
    requires ValidSchedule(s) && now <= later
    ensures VestedOf(s, now) <= VestedOf(s, later) <= Grant(s)
    ensures Ended(s, now) ==> VestedOf(s, now) == Grant(s)
  {
    if s.end.Some? && s.start.time <= later {
      var end := s.end.value;
      var span, rest := end.time - s.start.time, end.amount - s.start.amount;
      LinearBounds(if s.start.time <= now then Min(now, end.time) - s.start.time else 0, Min(later, end.time) - s.start.time, span, rest);
    }
  }

  /** The amount is what a schedule should have vested: nothing before its start; its only amount from then on if there is
      no end; and if there is one, the point at this time on the straight line from start to end, rounded down. */
  predicate OnTheLine(s: Schedule, now: nat, vested: nat) {
    if now < s.start.time then vested == 0
    else if s.end.None? then vested == s.start.amount
    else if s.end.value.time <= now then vested == s.end.value.amount
    else
      var span, passed, rise := s.end.value.time - s.start.time, now - s.start.time, s.end.value.amount - s.start.amount;
      span * (vested - s.start.amount) <= passed * rise < span * (vested - s.start.amount + 1)
  }

  lemma VestedOnTheLine(s: Schedule, now: nat, vested: nat)
    requires ValidSchedule(s)
    ensures vested == VestedOf(s, now) <==> OnTheLine(s, now, vested)
  {
    if s.end.Some? && s.start.time <= now {
      var end := s.end.value;
      var span, rise := end.time - s.start.time, end.amount - s.start.amount;
      LinearBounds(Min(now, end.time) - s.start.time, span, span, rise);
      if now < end.time {
        OnlyQuotient((now - s.start.time) * rise, span, vested - s.start.amount);
      }
    }
  }

  lemma SingleOnTheLine(schedules: seq<Schedule>, s: Schedule, now: nat)
    requires ValidSchedules(schedules) && schedules == [s]
    ensures OnTheLine(s, now, VestedAt(schedules, now))
  {
    assert schedules[0] == s && schedules[1..] == [];
    VestedOnTheLine(s, now, VestedAt(schedules, now));
  }

  lemma OnlyQuotient(n: nat, d: nat, q: int)
    requires d > 0
    ensures d * q <= n < d * (q + 1) <==> q == n / d
  {
    DivBounds(n, d);
    if q < n / d {
      MulMono(d, q + 1, n / d);
    } else if q > n / d {
      MulMono(d, n / d + 1, q);
    }
  }

  /** Vested amounts never fall with time and never exceed the grant, which is reached when all schedules have ended. */
  lemma {:induction false} VestedBounds(schedules: seq<Schedule>, now: nat, later: nat)
    requires ValidSchedules(schedules) && now <= later
    ensures VestedAt(schedules, now) <= VestedAt(schedules, later) <= GrantOf(schedules)
    ensures (forall i :: 0 <= i < |schedules| ==> Ended(schedules[i], now)) ==> VestedAt(schedules, now) == GrantOf(schedules)
  {
    if schedules != [] {
      VestedOfBounds(schedules[0], now, later);
      VestedBounds(schedules[1..], now, later);
    }
  }

  /** Added schedules only add to what is vested and granted. */
  lemma {:induction false} AddedSchedules(a: seq<Schedule>, b: seq<Schedule>, now: nat)
    requires ValidSchedules(a) && ValidSchedules(b)
    ensures ValidSchedules(a + b)
    ensures VestedAt(a + b, now) == VestedAt(a, now) + VestedAt(b, now)
    ensures GrantOf(a + b) == GrantOf(a) + GrantOf(b)
  {
    if a == [] {
      assert a + b == b;
    } else {
      AddedSchedules(a[1..], b, now);
      assert (a + b)[1..] == a[1..] + b;
    }
  }

  // Messages

  /** The record of an account after more schedules were registered for it. */
  function WithSchedules(accounts: map<Addr, Info>, account: Account): map<Addr, Info> {
    var old' := if account.address in accounts then accounts[account.address] else Info([], 0);
    accounts[account.address := Info(account.schedules + old'.schedules, old'.released)]
  }

  /** Registers the listed accounts one after the other, and sums up what they are granted. */
  function RegisterAll(accounts: map<Addr, Info>, list: seq<Account>, deposit: nat): Result<(map<Addr, Info>, nat)>
    decreases |list|
  {
    if list == [] then Ok((accounts, deposit))
    else if !ValidSchedules(list[0].schedules) then Err(BadSchedule)
    else
      var deposit' :- Checked(deposit + GrantOf(list[0].schedules));
      RegisterAll(WithSchedules(accounts, list[0]), list[1..], deposit')
  }

  /** RegisterVestingAccounts, with the tokens that the sender sent along. */
  function Register(v: State, list: seq<Account>, amount: nat): Result<State> {
    var (accounts, deposit) :- RegisterAll(v.accounts, list, 0);
    if deposit != amount then Err(InvalidAmount)
    else
      var granted :- Checked(v.granted + deposit);
      Ok(v.(accounts := accounts, granted := granted, balance := v.balance + amount))
  }

  function Available(info: Info, now: nat): Result<nat>
    requires ValidSchedules(info.schedules)
  {
    var vested :- Checked(VestedAt(info.schedules, now));
    CheckedSub(vested, info.released)
  }

  ghost predicate AllValid(v: State) {
    forall a :: a in v.accounts ==> ValidSchedules(v.accounts[a].schedules)
  }

  /** Claim of an amount, or of all that is available; returns what is sent. */
  function Claim(v: State, now: nat, a: Addr, amount: Option<nat>): Result<(State, nat)>
    requires AllValid(v)
  {
    if a !in v.accounts then Err(NotFound)
    else
      var info := v.accounts[a];
      var available :- Available(info, now);
      var claimed := if amount.Some? then amount.value else available;
      if claimed > available then Err(LimitExceeded)
      else if claimed == 0 then Ok((v, 0))
      else if v.balance < claimed then Err(InsufficientFunds)
      else
        var mine :- Checked(info.released + claimed);
        var all :- Checked(v.released + claimed);
        Ok((v.(accounts := v.accounts[a := info.(released := mine)], released := all, balance := v.balance - claimed), claimed))
  }

  /** Removes one account and claws back all that it has not claimed. */
  function RemoveAccount(v: State, a: Addr): Result<State> {
    if a !in v.accounts then Ok(v)
    else
      var info := v.accounts[a];
      var grant :- Checked(GrantOf(info.schedules));
      var back :- CheckedSub(grant, info.released);
      var granted :- CheckedSub(v.granted, grant);
      var released :- CheckedSub(v.released, info.released);
      if v.balance < back then Err(InsufficientFunds)
      else Ok(v.(accounts := v.accounts - {a}, granted := granted, released := released, balance := v.balance - back))
  }

  /** RemoveVestingAccounts. */
  function RemoveAccounts(v: State, list: seq<Addr>): Result<State>
    decreases |list|
  {
    if list == [] then Ok(v)
    else
      var v1 :- RemoveAccount(v, list[0]);
      RemoveAccounts(v1, list[1..])
  }

  /** What an account has not claimed yet, vested or not. */
  function Unclaimed(info: Info): Result<nat> {
    var grant :- Checked(GrantOf(info.schedules));
    CheckedSub(grant, info.released)
  }

  // The ledger

  function GrantedTo(): (Addr, Info) -> int {
    (a: Addr, i: Info) => GrantOf(i.schedules)
  }

  function ReleasedTo(): (Addr, Info) -> int {
    (a: Addr, i: Info) => i.released
  }

  function UnclaimedBy(): (Addr, Info) -> int {
    (a: Addr, i: Info) => GrantOf(i.schedules) - i.released
  }

  /** An account's schedules are valid, and it has claimed no more than was vested. */
  ghost predicate AccountInv(i: Info, now: nat) {
    ValidSchedules(i.schedules) && i.released <= VestedAt(i.schedules, now)
  }

  /** The totals are the sums over the accounts, and the contract holds what is granted and not released. */
  ghost predicate LedgerInv(v: State, now: nat) {
    && v.granted == Total(v.accounts, GrantedTo()) <= U128_MAX
    && v.released == Total(v.accounts, ReleasedTo())
    && v.balance == v.granted - v.released
    && forall a :: a in v.accounts ==> AccountInv(v.accounts[a], now)
  }

  lemma TimePasses(v: State, now: nat, later: nat)
    requires LedgerInv(v, now) && now <= later
    ensures LedgerInv(v, later)
  {
    forall a | a in v.accounts
      ensures AccountInv(v.accounts[a], later)
    {
      assert AccountInv(v.accounts[a], now);
      VestedBounds(v.accounts[a].schedules, now, later);
    }
  }

  /** No account is owed or has received more than the totals say. */
  lemma AccountWithinTotals(v: State, now: nat, a: Addr)
    requires LedgerInv(v, now) && a in v.accounts
    ensures var i := v.accounts[a];
            && i.released <= VestedAt(i.schedules, now) <= GrantOf(i.schedules) <= v.granted && i.released <= v.released
            && GrantOf(i.schedules) - i.released <= v.balance
  {
    forall b | b in v.accounts
      ensures GrantedTo()(b, v.accounts[b]) >= 0 && ReleasedTo()(b, v.accounts[b]) >= 0 && UnclaimedBy()(b, v.accounts[b]) >= 0
      ensures UnclaimedBy()(b, v.accounts[b]) == GrantedTo()(b, v.accounts[b]) + (-1) * ReleasedTo()(b, v.accounts[b])
    {
      assert AccountInv(v.accounts[b], now);
      VestedBounds(v.accounts[b].schedules, now, now);
    }
    TotalNonNeg(v.accounts, GrantedTo());
    TotalNonNeg(v.accounts, ReleasedTo());
    TotalLinear(v.accounts, GrantedTo(), ReleasedTo(), -1, UnclaimedBy());
    TotalNonNeg(v.accounts, UnclaimedBy());
    assert GrantedTo()(a, v.accounts[a]) <= v.granted && ReleasedTo()(a, v.accounts[a]) <= v.released;
    assert UnclaimedBy()(a, v.accounts[a]) <= v.balance;
    VestedBounds(v.accounts[a].schedules, now, now);
  }

  lemma UnclaimedIsBalance(v: State, now: nat)
    requires LedgerInv(v, now)
    ensures Total(v.accounts, UnclaimedBy()) == v.granted - v.released == v.balance
  {
    forall b | b in v.accounts
      ensures UnclaimedBy()(b, v.accounts[b]) == GrantedTo()(b, v.accounts[b]) + (-1) * ReleasedTo()(b, v.accounts[b])
    {
    }
    TotalLinear(v.accounts, GrantedTo(), ReleasedTo(), -1, UnclaimedBy());
  }

  // Steps

  lemma WithSchedulesKeeps(accounts: map<Addr, Info>, account: Account, now: nat)
    requires (forall a :: a in accounts ==> AccountInv(accounts[a], now)) && ValidSchedules(account.schedules)
    ensures var m := WithSchedules(accounts, account);
            && (forall a :: a in m ==> AccountInv(m[a], now))
            && Total(m, GrantedTo()) == Total(accounts, GrantedTo()) + GrantOf(account.schedules)
            && Total(m, ReleasedTo()) == Total(accounts, ReleasedTo())
  {
    var a := account.address;
    var m := WithSchedules(accounts, account);
    var old' := if a in accounts then accounts[a] else Info([], 0);
    assert AccountInv(old', now);
    AddedSchedules(account.schedules, old'.schedules, now);
    TotalSet(accounts, GrantedTo(), a, m[a]);
    TotalSet(accounts, ReleasedTo(), a, m[a]);
  }

  lemma {:induction false} RegisterAllKeeps(accounts: map<Addr, Info>, list: seq<Account>, deposit: nat, now: nat)
    requires (forall a :: a in accounts ==> AccountInv(accounts[a], now)) && RegisterAll(accounts, list, deposit).Ok?
    ensures var (m, d) := RegisterAll(accounts, list, deposit).value;
            && (forall a :: a in m ==> AccountInv(m[a], now))
            && Total(m, GrantedTo()) - d == Total(accounts, GrantedTo()) - deposit
            && Total(m, ReleasedTo()) == Total(accounts, ReleasedTo())
    decreases |list|
  {
    if list != [] {
      WithSchedulesKeeps(accounts, list[0], now);
      RegisterAllKeeps(WithSchedules(accounts, list[0]), list[1..], deposit + GrantOf(list[0].schedules), now);
    }
  }

  lemma RegisterKeeps(v: State, list: seq<Account>, amount: nat, now: nat)
    requires LedgerInv(v, now) && Register(v, list, amount).Ok?
    ensures LedgerInv(Register(v, list, amount).value, now)
  {
    RegisterAllKeeps(v.accounts, list, 0, now);
  }

  lemma ClaimKeeps(v: State, now: nat, a: Addr, amount: Option<nat>)
    requires LedgerInv(v, now) && AllValid(v) && Claim(v, now, a, amount).Ok?
    ensures LedgerInv(Claim(v, now, a, amount).value.0, now)
  {
    var v' := Claim(v, now, a, amount).value.0;
    assert AccountInv(v.accounts[a], now);
    TotalSet(v.accounts, GrantedTo(), a, v'.accounts[a]);
    TotalSet(v.accounts, ReleasedTo(), a, v'.accounts[a]);
    forall b | b in v'.accounts
      ensures AccountInv(v'.accounts[b], now)
    {
      assert b != a ==> AccountInv(v.accounts[b], now);
    }
  }

  lemma RemoveKeeps(v: State, now: nat, a: Addr)
    requires LedgerInv(v, now)
    ensures RemoveAccount(v, a).Ok? && LedgerInv(RemoveAccount(v, a).value, now)
  {
    if a in v.accounts {
      AccountWithinTotals(v, now, a);
      TotalDrop(v.accounts, GrantedTo(), a);
      TotalDrop(v.accounts, ReleasedTo(), a);
      var v' := RemoveAccount(v, a).value;
      forall b | b in v'.accounts
        ensures AccountInv(v'.accounts[b], now)
      {
        assert AccountInv(v.accounts[b], now);
      }
    }
  }

  /** A clawback of any list of accounts succeeds: no subtraction fails and the balance covers it. */
  lemma {:induction false} RemoveAllKeeps(v: State, now: nat, list: seq<Addr>)
    requires LedgerInv(v, now)
    ensures RemoveAccounts(v, list).Ok? && LedgerInv(RemoveAccounts(v, list).value, now)
    decreases |list|
  {
    if list != [] {
      RemoveKeeps(v, now, list[0]);
      RemoveAllKeeps(RemoveAccount(v, list[0]).value, now, list[1..]);
    }
  }

  /** A claim within what is vested succeeds: its subtraction cannot fail and the balance covers it. */
  lemma ClaimSucceeds(v: State, now: nat, a: Addr, amount: Option<nat>)
    requires LedgerInv(v, now) && AllValid(v) && a in v.accounts
    ensures Available(v.accounts[a], now) == Ok(VestedAt(v.accounts[a].schedules, now) - v.accounts[a].released)
    ensures amount.Some? && amount.value > VestedAt(v.accounts[a].schedules, now) - v.accounts[a].released <==> Claim(v, now, a, amount).Err?
  {
    AccountWithinTotals(v, now, a);
  }

  // Stored schedules are valid

  lemma {:induction false} RegisterAllValid(accounts: map<Addr, Info>, list: seq<Account>, deposit: nat)
    requires (forall a :: a in accounts ==> ValidSchedules(accounts[a].schedules)) && RegisterAll(accounts, list, deposit).Ok?
    ensures var m := RegisterAll(accounts, list, deposit).value.0; forall a :: a in m ==> ValidSchedules(m[a].schedules)
    decreases |list|
  {
    if list != [] {
      RegisterAllValid(WithSchedules(accounts, list[0]), list[1..], deposit + GrantOf(list[0].schedules));
    }
  }

  /** Registrations and claims leave only valid schedules behind. */
  lemma StaysValid(v: State, list: seq<Account>, deposit: nat, now: nat, a: Addr, amount: Option<nat>)
    requires AllValid(v)
    ensures Register(v, list, deposit).Ok? ==> AllValid(Register(v, list, deposit).value)
    ensures Claim(v, now, a, amount).Ok? ==> AllValid(Claim(v, now, a, amount).value.0)
  {
    if Register(v, list, deposit).Ok? {
      RegisterAllValid(v.accounts, list, 0);
    }
  }
}

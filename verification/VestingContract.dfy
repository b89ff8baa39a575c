/** The vesting contract in its own form: stored fields, message handlers, and the loops over schedules and accounts.
    Storage is written only by a message that succeeds, so handlers work on copies and save them at the end. */
module VestingContract {
  import opened Basics
  import opened FixedPoint
  import V = Vesting

  lemma {:induction false} GrantSplit(s: seq<V.Schedule>, i: nat)
    requires i < |s|
    ensures V.GrantOf(s[..i + 1]) == V.GrantOf(s[..i]) + V.Grant(s[i])
    ensures V.GrantOf(s[..i + 1]) <= V.GrantOf(s)
  {
    if i == 0 {
      assert s[..1] == [s[0]];
    } else {
      GrantSplit(s[1..], i - 1);
      assert s[..i + 1][1..] == s[1..][..i] && s[..i][1..] == s[1..][..i - 1];
    }
  }

  lemma VestedSplit(s: seq<V.Schedule>, i: nat, now: nat)
    requires i < |s| && V.ValidSchedules(s)
    ensures V.VestedAt(s[..i + 1], now) == V.VestedAt(s[..i], now) + V.VestedOf(s[i], now)
    ensures V.VestedAt(s[..i + 1], now) <= V.VestedAt(s, now)
  {
    assert s[..i + 1] == s[..i] + [s[i]];
    V.AddedSchedules(s[..i], [s[i]], now);
    assert s == s[..i + 1] + s[i + 1..];
    V.AddedSchedules(s[..i + 1], s[i + 1..], now);
  }

  /** Checks that every schedule with an end grows towards it. */
  method AssertSchedules(schedules: seq<V.Schedule>) returns (ok: bool)
    ensures ok <==> V.ValidSchedules(schedules)
  {
    for i := 0 to |schedules|
      invariant forall j :: 0 <= j < i ==> V.ValidSchedule(schedules[j])
    {
      var s := schedules[i];
      if s.end.Some? && !(s.start.time < s.end.value.time && s.start.amount < s.end.value.amount) {
        return false;
      }
    }
    return true;
  }

  /** Adds what the schedules grant in the end to an amount, with a check at every addition. */
  method AddGrants(deposit: nat, schedules: seq<V.Schedule>) returns (r: Result<nat>)
    requires deposit <= U128_MAX
    ensures r == Checked(deposit + V.GrantOf(schedules))
  {
    var sum := deposit;
    for i := 0 to |schedules|
      invariant sum == deposit + V.GrantOf(schedules[..i]) <= U128_MAX
    {
      GrantSplit(schedules, i);
      var s := schedules[i];
      var amount := if s.end.Some? then s.end.value.amount else s.start.amount;
      if sum + amount > U128_MAX {
        return Err(Overflow);
      }
      sum := sum + amount;
    }
    assert schedules[..|schedules|] == schedules;
    return Ok(sum);
  }

  /** Adds what a schedule has vested to an amount, with a check at every addition. */
  method AddVested(sum: nat, s: V.Schedule, now: nat) returns (r: Result<nat>)
    requires V.ValidSchedule(s) && sum <= U128_MAX
    ensures r == Checked(sum + V.VestedOf(s, now))
  {
    if s.start.time > now {
      return Ok(sum);
    }
    var available := sum + s.start.amount;
    if s.end.Some? {
      var passed := (if now <= s.end.value.time then now else s.end.value.time) - s.start.time;
      var period := s.end.value.time - s.start.time;
      if available > U128_MAX {
        return Err(Overflow);
      }
      V.NothingPassed(period, s.end.value.amount - s.start.amount);
      if passed != 0 && period != 0 {
        available := available + V.Linear(passed, period, s.end.value.amount - s.start.amount);
      }
    }
    return Checked(available);
  }

  /** What is vested and not yet claimed. */
  method ComputeAvailable(now: nat, info: V.Info) returns (r: Result<nat>)
    requires V.ValidSchedules(info.schedules)
    ensures r == V.Available(info, now)
  {
    var available := 0;
    for i := 0 to |info.schedules|
      invariant available == V.VestedAt(info.schedules[..i], now) <= U128_MAX
    {
      VestedSplit(info.schedules, i, now);
      var sum := AddVested(available, info.schedules[i], now);
      if sum.Err? {
        return Err(sum.error);
      }
      available := sum.value;
    }
    assert info.schedules[..|info.schedules|] == info.schedules;
    return CheckedSub(available, info.released);
  }

  /** What was granted and is not yet claimed. */
  method ComputeUnclaimed(info: V.Info) returns (r: Result<nat>)
    ensures r == V.Unclaimed(info)
  {
    var grant := AddGrants(0, info.schedules);
    if grant.Err? {
      return Err(grant.error);
    }
    return CheckedSub(grant.value, info.released);
  }

  /** Registering one account more. */
  lemma RegisterFirst(infos: map<Addr, V.Info>, list: seq<V.Account>, deposit: nat)
    requires list != []
    ensures V.RegisterAll(infos, list, deposit) ==
            if !V.ValidSchedules(list[0].schedules) then Err(BadSchedule)
            else if deposit + V.GrantOf(list[0].schedules) > U128_MAX then Err(Overflow)
            else V.RegisterAll(V.WithSchedules(infos, list[0]), list[1..], deposit + V.GrantOf(list[0].schedules))
  {
  }

  /** The stored record of an account, with the new schedules before the earlier ones. */
  method AddSchedules(infos: map<Addr, V.Info>, account: V.Account) returns (r: map<Addr, V.Info>)
    ensures r == V.WithSchedules(infos, account)
  {
    var schedules, claimed := account.schedules, 0;
    if account.address in infos {
      claimed := infos[account.address].released;
      schedules := schedules + infos[account.address].schedules;
    } else {
      assert schedules + [] == schedules;
    }
    r := infos[account.address := V.Info(schedules, claimed)];
  }

  class Contract {
    var accounts: map<Addr, V.Info>
    var granted: nat
    var released: nat
    var balance: nat

    function State(): V.State
      reads this
    {
      V.State(accounts, granted, released, balance)
    }

    constructor ()
      ensures State() == V.State(map[], 0, 0, 0)
    {
      accounts, granted, released, balance := map[], 0, 0, 0;
    }

    /** What the chain does when a message fails. */
    method Rollback(v: V.State)
      modifies this
      ensures State() == v
    {
      accounts, granted, released, balance := v.accounts, v.granted, v.released, v.balance;
    }

    /** RegisterVestingAccounts: the amount is what the token contract says was sent along. */
    method Register(list: seq<V.Account>, amount: nat) returns (r: Result<()>)
      modifies this
      ensures match V.Register(old(State()), list, amount)
              case Ok(v) => r == Ok(()) && State() == v
              case Err(e) => r == Err(e) && State() == old(State())
    {
      var infos: map<Addr, V.Info>, deposit: nat := accounts, 0;
      for i := 0 to |list|
        invariant State() == old(State()) && deposit <= U128_MAX
        invariant V.RegisterAll(accounts, list, 0) == V.RegisterAll(infos, list[i..], deposit)
      {
        var account := list[i];
        assert list[i..][0] == account && list[i..][1..] == list[i + 1..];
        RegisterFirst(infos, list[i..], deposit);
        var valid := AssertSchedules(account.schedules);
        if !valid {
          return Err(BadSchedule);
        }
        var sum := AddGrants(deposit, account.schedules);
        if sum.Err? {
          return Err(sum.error);
        }
        deposit := sum.value;
        infos := AddSchedules(infos, account);
      }
      if deposit != amount {
        return Err(InvalidAmount);
      }
      if granted + deposit > U128_MAX {
        return Err(Overflow);
      }
      accounts, granted, balance := infos, granted + deposit, balance + amount;
      return Ok(());
    }

    /** Claim: sends what is asked for, or all that is available. */
    method Claim(now: nat, sender: Addr, amount: Option<nat>) returns (r: Result<nat>)
      requires V.AllValid(State())
      modifies this
      ensures match V.Claim(old(State()), now, sender, amount)
              case Ok(p) => r == Ok(p.1) && State() == p.0
              case Err(e) => r == Err(e) && State() == old(State())
    {
      if sender !in accounts {
        return Err(NotFound);
      }
      var info := accounts[sender];
      var available := ComputeAvailable(now, info);
      if available.Err? {
        return Err(available.error);
      }
      var claimed := available.value;
      if amount.Some? {
        if amount.value > available.value {
          return Err(LimitExceeded);
        }
        claimed := amount.value;
      }
      if claimed != 0 {
        if balance < claimed {
          return Err(InsufficientFunds);
        }
        if info.released + claimed > U128_MAX || released + claimed > U128_MAX {
          return Err(Overflow);
        }
        info := info.(released := info.released + claimed);
        accounts := accounts[sender := info];
        released := released + claimed;
        balance := balance - claimed;
      }
      return Ok(claimed);
    }

    /** RemoveVestingAccounts: claws back what the listed accounts have not claimed, and forgets them. */
    method RemoveAccounts(list: seq<Addr>) returns (r: Result<()>)
      modifies this
      ensures match V.RemoveAccounts(old(State()), list)
              case Ok(v) => r == Ok(()) && State() == v
              case Err(e) => r == Err(e) && State() == old(State())
    {
      var v := State();
      for i := 0 to |list|
        invariant State() == old(State())
        invariant V.RemoveAccounts(State(), list) == V.RemoveAccounts(v, list[i..])
      {
        var a := list[i];
        assert list[i..][0] == a && list[i..][1..] == list[i + 1..];
        if a in v.accounts {
          var info := v.accounts[a];
          var grant := AddGrants(0, info.schedules);
          if grant.Err? {
            return Err(grant.error);
          }
          if grant.value < info.released || v.granted < grant.value || v.released < info.released {
            return Err(Overflow);
          }
          var back := grant.value - info.released;
          if v.balance < back {
            return Err(InsufficientFunds);
          }
          v := V.State(v.accounts - {a}, v.granted - grant.value, v.released - info.released, v.balance - back);
        }
      }
      accounts, granted, released, balance := v.accounts, v.granted, v.released, v.balance;
      return Ok(());
    }
  }
}

/** What the messages of the vesting contract do to a single account: registrations add to its schedules, claims pay what they
    ask for, and a clawback removes it. */
module VestingTerms {
  import opened Basics
  import opened FixedPoint
  import opened Vesting
  import opened VestingRuns

  // Registrations

  function GrantedBy(list: seq<Account>): nat {
    if list == [] then 0 else GrantOf(list[0].schedules) + GrantedBy(list[1..])
  }

  /** Every listed schedule with an end rises: it ends later than it starts, with more than it starts with. */
  predicate AllRise(list: seq<Account>) {
    forall i, j :: 0 <= i < |list| && 0 <= j < |list[i].schedules| ==> Rises(list[i].schedules[j].start, list[i].schedules[j].end)
  }

  predicate Rises(start: Point, end: Option<Point>) {
    end.None? || (end.value.time > start.time && end.value.amount > start.amount)
  }

  /** An account's schedules, in any order, or None without an account. */
  function Schedules(v: map<Addr, Info>, a: Addr): Option<multiset<Schedule>> {
    if a in v then Some(multiset(v[a].schedules)) else None
  }

  function Released(v: map<Addr, Info>, a: Addr): nat {
    if a in v then v[a].released else 0
  }

  /** An account's schedules after those that a registration lists for it were added. */
  function After(m: Option<multiset<Schedule>>, list: seq<Account>, a: Addr): Option<multiset<Schedule>>
    decreases |list|
  {
    if list == [] then m
    else After(if list[0].address == a then Some(Added(m, list[0].schedules)) else m, list[1..], a)
  }

  function Added(m: Option<multiset<Schedule>>, schedules: seq<Schedule>): multiset<Schedule> {
    (if m.Some? then m.value else multiset{}) + multiset(schedules)
  }

  lemma FirstRegistered(accounts: map<Addr, Info>, first: Account, a: Addr)
    ensures var m := WithSchedules(accounts, first);
            && Schedules(m, a) == (if first.address == a then Some(Added(Schedules(accounts, a), first.schedules)) else Schedules(accounts, a))
            && Released(m, a) == Released(accounts, a)
  {
    var old' := if a in accounts then accounts[a] else Info([], 0);
    if first.address == a {
      assert multiset(first.schedules + old'.schedules) == Added(Schedules(accounts, a), first.schedules);
    }
  }

  /** Exactly when a list is registered. */
  lemma {:induction false} RegisterAllSucceeds(accounts: map<Addr, Info>, list: seq<Account>, deposit: nat)
    requires deposit <= U128_MAX
    ensures RegisterAll(accounts, list, deposit).Ok? <==> AllRise(list) && deposit + GrantedBy(list) <= U128_MAX
    ensures RegisterAll(accounts, list, deposit).Ok? ==> RegisterAll(accounts, list, deposit).value.1 == deposit + GrantedBy(list)
    decreases |list|
  {
    if list != [] {
      RestIsValid(list);
      var first := GrantOf(list[0].schedules);
      if ValidSchedules(list[0].schedules) && deposit + first <= U128_MAX {
        RegisterAllSucceeds(WithSchedules(accounts, list[0]), list[1..], deposit + first);
      }
    }
  }

  /** What a registration makes of each account: nothing is lost, and nothing is released. */
  lemma {:induction false} RegisterAllAdds(accounts: map<Addr, Info>, list: seq<Account>, deposit: nat, a: Addr)
    requires RegisterAll(accounts, list, deposit).Ok?
    ensures var m := RegisterAll(accounts, list, deposit).value.0;
            Schedules(m, a) == After(Schedules(accounts, a), list, a) && Released(m, a) == Released(accounts, a)
    decreases |list|
  {
    if list != [] {
      FirstRegistered(accounts, list[0], a);
      RegisterAllAdds(WithSchedules(accounts, list[0]), list[1..], deposit + GrantOf(list[0].schedules), a);
    }
  }

  lemma RestIsValid(list: seq<Account>)
    requires list != []
    ensures AllRise(list) <==> ValidSchedules(list[0].schedules) && AllRise(list[1..])
  {
    if ValidSchedules(list[0].schedules) && AllRise(list[1..]) {
      forall i | 0 <= i < |list|
        ensures ValidSchedules(list[i].schedules)
      {
        assert i > 0 ==> list[i] == list[1..][i - 1];
      }
    }
  }

  /** A registration is accepted exactly if all schedules are valid and the tokens sent along are what they grant, within 128
      bits in total. Then every account has the schedules that it had and those that the message lists for it, and has been
      paid as much as before. */
  lemma RegisterAdds(v: State, list: seq<Account>, amount: nat, a: Addr)
    ensures var r := Vesting.Register(v, list, amount);
            && (r.Ok? <==> AllRise(list) && amount == GrantedBy(list) && v.granted + amount <= U128_MAX)
            && (r.Ok? ==>
                  && Schedules(r.value.accounts, a) == After(Schedules(v.accounts, a), list, a)
                  && Released(r.value.accounts, a) == Released(v.accounts, a)
                  && r.value.granted == v.granted + amount && r.value.released == v.released && r.value.balance == v.balance + amount)
  {
    RegisterAllSucceeds(v.accounts, list, 0);
    if RegisterAll(v.accounts, list, 0).Ok? {
      RegisterAllAdds(v.accounts, list, 0, a);
    }
  }

  // Clawbacks

  /** A clawback removes exactly the listed accounts. */
  lemma {:induction false} RemoveAllRemoves(v: State, list: seq<Addr>)
    requires RemoveAccounts(v, list).Ok?
    ensures RemoveAccounts(v, list).value.accounts == map a | a in v.accounts && a !in list :: v.accounts[a]
    decreases |list|
  {
    if list != [] {
      RemoveAllRemoves(RemoveAccount(v, list[0]).value, list[1..]);
    }
  }

  // Claims

  /** A claim pays what it asks for, or all that is available, and nothing changes but what was paid. */
  lemma ClaimPays(v: State, now: nat, a: Addr, amount: Option<nat>)
    requires AllValid(v) && Vesting.Claim(v, now, a, amount).Ok?
    ensures a in v.accounts
    ensures var (v', paid) := Vesting.Claim(v, now, a, amount).value;
            var info := v.accounts[a];
            && paid == (if amount.Some? then amount.value else VestedAt(info.schedules, now) - info.released)
            && v' == State(v.accounts[a := Info(info.schedules, info.released + paid)], v.granted, v.released + paid, v.balance - paid)
  {
    assert v.accounts[a := v.accounts[a]] == v.accounts;
  }

  // Runs

  /** The schedules that account a has after a run, as the accepted messages say: all that was registered for it since it
      was last removed. */
  function Registered(w: World, events: seq<Event>, a: Addr, m: Option<multiset<Schedule>>): Option<multiset<Schedule>>
    requires WorldInv(w)
    decreases |events|
  {
    if events == [] then m
    else
      NextKeeps(w, events[0]);
      Registered(Next(w, events[0]), events[1..], a, Changed(w, events[0], a, m))
  }

  function Changed(w: World, e: Event, a: Addr, m: Option<multiset<Schedule>>): Option<multiset<Schedule>>
    requires AllValid(w.state)
  {
    if Execute(w.state, Later(w, e).now, e.msg).Err? then m
    else
      match e.msg
      case Register(list, _) => After(m, list, a)
      case Claim(_, _) => m
      case Remove(list) => if a in list then None else m
  }

  lemma NextChanges(w: World, e: Event, a: Addr)
    requires WorldInv(w)
    ensures Schedules(Next(w, e).state.accounts, a) == Changed(w, e, a, Schedules(w.state.accounts, a))
  {
    if Execute(w.state, Later(w, e).now, e.msg).Ok? {
      match e.msg
      case Register(list, amount) => RegisterAdds(w.state, list, amount, a);
      case Claim(account, amount) => ClaimPays(w.state, Later(w, e).now, account, amount);
      case Remove(list) => RemoveAllRemoves(w.state, list);
    }
  }

  lemma {:induction false} RunChanges(w: World, events: seq<Event>, a: Addr)
    requires WorldInv(w)
    ensures Schedules(Run(w, events).state.accounts, a) == Registered(w, events, a, Schedules(w.state.accounts, a))
    decreases |events|
  {
    if events != [] {
      NextKeeps(w, events[0]);
      NextChanges(w, events[0], a);
      RunChanges(Next(w, events[0]), events[1..], a);
    }
  }

  /** In every run an account has exactly the schedules that were registered for it since it was last removed, and there is no
      account without a registration. */
  lemma SchedulesAreRegistered(start: World, events: seq<Event>, a: Addr)
    requires Initial(start)
    ensures WorldInv(start)
    ensures Schedules(Run(start, events).state.accounts, a) == Registered(start, events, a, None)
  {
    InitialInv(start);
    RunChanges(start, events, a);
  }

  /** In every run a claim of a given amount pays just this amount if it has vested and was not paid before, and nothing
      otherwise. */
  lemma PartialClaimPays(start: World, events: seq<Event>, last: Event, a: Addr, amount: nat)
    requires Initial(start) && last.msg == Claim(a, Some(amount))
    requires forall i :: 0 <= i < |events| ==> Keeps(events[i], a)
    ensures WorldInv(start) && WorldInv(Run(start, events))
    ensures var w := Run(start, events);
            a in w.state.accounts ==>
              Pays(w, last, a) ==
              if Paid(start, events, a) + amount <= VestedAt(w.state.accounts[a].schedules, Later(w, last).now) then amount else 0
  {
    InitialInv(start);
    RunKeeps(start, events);
    RunReleases(start, events, a);
    var w := Run(start, events);
    if a in w.state.accounts {
      var now := Later(w, last).now;
      TimePasses(w.state, w.now, now);
      ClaimSucceeds(w.state, now, a, Some(amount));
      if Vesting.Claim(w.state, now, a, Some(amount)).Ok? {
        ClaimPays(w.state, now, a, Some(amount));
      }
    }
  }
}

/** What the messages of the credits contract say is what it stores: who may send them, whose credits they move, and how an
    allocation vests. */
module CreditsTerms {
  import opened Basics
  import opened FixedPoint
  import opened Credits
  import opened CreditsRuns

  // Vesting

  /** The amount is what should have vested of the grant: nothing before the start, all of it after the duration, and in
      between the point at this time on the straight line, rounded down. */
  predicate OnTheLine(grant: nat, start: nat, duration: nat, now: nat, vested: nat) {
    if now < start then vested == 0
    else if start + duration <= now then vested == grant
    else duration * vested <= grant * (now - start) < duration * (vested + 1)
  }

  /** An accepted AddVesting gives the user an allocation that vests on the line from the message's start, for its duration,
      to its amount; nothing of it is withdrawn, and nothing else changes. */
  lemma AddVestingVests(x: State, sender: Addr, u: Addr, amount: nat, start: nat, duration: nat, now: nat, vested: nat)
    requires Credits.AddVesting(x, sender, u, amount, start, duration).Ok?
    ensures var x' := Credits.AddVesting(x, sender, u, amount, start, duration).value;
            && u in x'.allocations && x'.allocations[u].grant == amount
            && (Withdrawable(x'.allocations[u], now) == Ok(vested) <==> OnTheLine(amount, start, duration, now, vested))
            && x' == x.(allocations := x.allocations[u := x'.allocations[u]])
  {
    var s := Credits.AddVesting(x, sender, u, amount, start, duration).value.allocations[u].schedule;
    ScheduleOnTheLine(amount, s, now, vested);
  }

  lemma ScheduleOnTheLine(grant: nat, s: Schedule, now: nat, vested: nat)
    ensures vested == Vested(grant, s, now) <==>
            if now < s.start + s.cliff then vested == 0 else OnTheLine(grant, s.start, s.duration, now, vested)
  {
    if s.start <= now < s.start + s.duration {
      var n := grant * (now - s.start);
      DivBounds(n, s.duration);
      DivIsLargest(n, s.duration, vested);
      DivIsLargest(n, s.duration, vested + 1);
    }
  }

  /** The accepted AddVesting message that made the allocation of u, if there was one. */
  function Asked(w: World, events: seq<Event>, u: Addr): Option<Msg>
    decreases |events|
  {
    if events == [] then None
    else if Asks(w, events[0], u) then Some(events[0].msg)
    else Asked(Next(w, events[0]), events[1..], u)
  }

  predicate Asks(w: World, e: Event, u: Addr) {
    e.msg.AddVesting? && e.msg.user == u && Execute(w.state, Later(w, e).now, e.sender, e.msg).Ok?
  }

  /** The allocation vests as the message says, whatever was withdrawn of it. */
  predicate VestsAs(a: Allocation, m: Option<Msg>) {
    m.Some? && m.value.AddVesting? && a.grant == m.value.grant
    && a.schedule.start == m.value.start && a.schedule.duration == m.value.duration && a.schedule.cliff == 0
  }

  lemma AllocationStays(w: World, e: Event, u: Addr)
    ensures var x, x' := w.state, Next(w, e).state;
            && (u in x.allocations ==>
                  u in x'.allocations && x'.allocations[u].grant == x.allocations[u].grant && x'.allocations[u].schedule == x.allocations[u].schedule)
            && (u !in x.allocations ==>
                  (u in x'.allocations <==> Asks(w, e, u)) && (u in x'.allocations ==> VestsAs(x'.allocations[u], Some(e.msg))))
  {
  }

  lemma {:induction false} AllocationKept(w: World, events: seq<Event>, u: Addr)
    requires u in w.state.allocations
    ensures var x, x' := w.state, Run(w, events).state;
            u in x'.allocations && x'.allocations[u].grant == x.allocations[u].grant && x'.allocations[u].schedule == x.allocations[u].schedule
    decreases |events|
  {
    if events != [] {
      AllocationStays(w, events[0], u);
      AllocationKept(Next(w, events[0]), events[1..], u);
    }
  }

  lemma {:induction false} RunAllocates(w: World, events: seq<Event>, u: Addr)
    requires u !in w.state.allocations
    ensures var x' := Run(w, events).state;
            && (u in x'.allocations <==> Asked(w, events, u).Some?)
            && (u in x'.allocations ==> VestsAs(x'.allocations[u], Asked(w, events, u)))
    decreases |events|
  {
    if events != [] {
      AllocationStays(w, events[0], u);
      if Asks(w, events[0], u) {
        AllocationKept(Next(w, events[0]), events[1..], u);
      } else {
        RunAllocates(Next(w, events[0]), events[1..], u);
      }
    }
  }

  /** In every run a user has an allocation exactly if an AddVesting for the user was accepted. It keeps the terms of this
      message: at any time, what has vested is on the message's line. */
  lemma AllocationsVestAsAsked(start: World, events: seq<Event>, u: Addr, now: nat, vested: nat)
    requires Initial(start)
    ensures var x, m := Run(start, events).state, Asked(start, events, u);
            && (u in x.allocations <==> m.Some?)
            && (m.Some? ==>
                  && m.value.AddVesting? && x.allocations[u].grant == m.value.grant
                  && (vested == Vested(x.allocations[u].grant, x.allocations[u].schedule, now) <==>
                        OnTheLine(m.value.grant, m.value.start, m.value.duration, now, vested)))
  {
    RunAllocates(start, events, u);
    var x := Run(start, events).state;
    if u in x.allocations {
      ScheduleOnTheLine(x.allocations[u].grant, x.allocations[u].schedule, now, vested);
    }
  }

  // Who may do what

  /** Everything that a message needs. */
  predicate Accepted(x: State, now: nat, sender: Addr, msg: Msg) {
    match msg
    case UpdateConfig(_, _, _) => sender == x.config.dao
    case Mint(funds) =>
      && sender == x.config.dao && x.config.airdrop.Some?
      && funds != [] && funds[0].isNtrn && x.config.Accepts(funds[0].amount) && x.supply + funds[0].amount <= U128_MAX
    case Transfer(_, amount) => x.config.airdrop == Some(sender) && x.config.Accepts(amount) && amount <= x.Balance(sender)
    case AddVesting(user, grant, _, _) => x.config.airdrop == Some(sender) && grant <= x.Balance(user) && user !in x.allocations
    case Withdraw =>
      && x.config.whenWithdrawable.Some? && x.config.whenWithdrawable.value <= now && x.Balance(sender) > 0
      && sender in x.allocations && x.allocations[sender].withdrawn < Vested(x.allocations[sender].grant, x.allocations[sender].schedule, now)
    case Burn(burned) => x.config.airdrop == Some(sender) && x.config.Accepts(burned) && burned <= x.Balance(sender)
    case BurnFrom(owner, taken) => x.config.lockdrop == Some(sender) && x.config.Accepts(taken) && taken <= x.Balance(owner)
    case SendNtrn(_) => true
  }

  lemma AcceptedInState(x: State, now: nat, sender: Addr, msg: Msg)
    requires Inv(x, now)
    ensures Execute(x, now, sender, msg).Ok? <==> Accepted(x, now, sender, msg)
  {
    match msg
    case UpdateConfig(_, _, _) =>
    case Mint(_) =>
    case Transfer(_, _) =>
    case AddVesting(_, _, _, _) =>
    case Withdraw => WithdrawKeeps(x, now, sender);
    case Burn(burned) => BurnKeeps(x, now, sender, burned);
    case BurnFrom(owner, taken) => BurnKeeps(x, now, owner, taken);
    case SendNtrn(_) =>
  }

  /** In every run a message takes effect exactly if its sender may send it and it asks for no more than there is: no other
      check, and no subtraction, can fail. */
  lemma AcceptedExactly(start: World, events: seq<Event>, sender: Addr, msg: Msg)
    requires Initial(start)
    ensures var w := Run(start, events);
            Execute(w.state, w.now, sender, msg).Ok? <==> Accepted(w.state, w.now, sender, msg)
  {
    RunKeeps(start, events);
    AcceptedInState(Run(start, events).state, Run(start, events).now, sender, msg);
  }

  /** In every run the DAO stays the same, only it changes settings, and it changes those that it gives. */
  lemma SettingsChange(w: World, e: Event)
    ensures var c, c' := w.state.config, Next(w, e).state.config;
            && c'.dao == c.dao && c'.acceptsZero == c.acceptsZero
            && (e.msg.UpdateConfig? && e.sender == c.dao ==>
                  && Given(c.airdrop, e.msg.airdrop, c'.airdrop) && Given(c.lockdrop, e.msg.lockdrop, c'.lockdrop)
                  && Given(c.whenWithdrawable, e.msg.when, c'.whenWithdrawable))
            && (!e.msg.UpdateConfig? || e.sender != c.dao ==> c' == c)
  {
  }

  predicate Given<T(==)>(before: Option<T>, given: Option<T>, after: Option<T>) {
    (given.Some? ==> after == given) && (given.None? ==> after == before)
  }

  // Whose credits move

  /** How an event changes the balance of u. */
  function Flow(w: World, e: Event, u: Addr): int {
    if Execute(w.state, Later(w, e).now, e.sender, e.msg).Err? then 0
    else
      match e.msg
      case Mint(funds) => if w.state.config.airdrop == Some(u) && funds != [] then funds[0].amount else 0
      case Transfer(to, amount) => (if to == u then amount else 0) - (if e.sender == u then amount else 0)
      case Withdraw => 0 - Pays(w, e, u)
      case Burn(burned) => if e.sender == u then 0 - burned else 0
      case BurnFrom(owner, taken) => if owner == u then 0 - taken else 0
      case _ => 0
  }

  function Flows(w: World, events: seq<Event>, u: Addr): int
    decreases |events|
  {
    if events == [] then 0 else Flow(w, events[0], u) + Flows(Next(w, events[0]), events[1..], u)
  }

  lemma NextFlows(w: World, e: Event, u: Addr)
    requires Inv(w.state, w.now)
    ensures Next(w, e).state.Balance(u) == w.state.Balance(u) + Flow(w, e, u)
  {
    var l := Later(w, e);
    TimePasses(w.state, w.now, l.now);
    if Execute(w.state, l.now, e.sender, e.msg).Ok? {
      match e.msg
      case Mint(_) =>
      case Transfer(to, amount) => TransferMoves(w.state, e.sender, to, amount, u);
      case Withdraw => WithdrawMoves(w.state, l.now, e.sender, u);
      case Burn(_) =>
      case BurnFrom(_, _) =>
      case _ =>
    }
  }

  /** The recipient gets what the sender loses; a transfer to oneself changes nothing. */
  lemma TransferMoves(x: State, sender: Addr, to: Addr, amount: nat, u: Addr)
    requires Credits.Transfer(x, sender, to, amount).Ok?
    ensures var x' := Credits.Transfer(x, sender, to, amount).value;
            && x'.Balance(u) == x.Balance(u) + (if u == to then amount else 0) - (if u == sender then amount else 0)
            && x' == x.(balances := x'.balances)
  {
  }

  lemma WithdrawMoves(x: State, now: nat, sender: Addr, u: Addr)
    requires Inv(x, now) && Credits.Withdraw(x, now, sender).Ok?
    ensures var x' := Credits.Withdraw(x, now, sender).value;
            && x'.Balance(u) == x.Balance(u) - (if u == sender then x.held - x'.held else 0)
            && x'.held <= x.held
  {
    WithdrawKeeps(x, now, sender);
  }

  lemma {:induction false} RunFlows(w: World, events: seq<Event>, u: Addr)
    requires Inv(w.state, w.now)
    ensures Run(w, events).state.Balance(u) == w.state.Balance(u) + Flows(w, events, u)
    decreases |events|
  {
    if events != [] {
      NextFlows(w, events[0], u);
      NextKeeps(w, events[0]);
      RunFlows(Next(w, events[0]), events[1..], u);
    }
  }

  /** In every run a balance is what was minted and transferred to the user, less what the user transferred, withdrew or had
      burned. */
  lemma BalancesAddUp(start: World, events: seq<Event>, u: Addr)
    requires Initial(start)
    ensures Run(start, events).state.Balance(u) == Flows(start, events, u)
  {
    RunFlows(start, events, u);
  }

  // What backs nothing

  function Gift(e: Event): nat {
    if e.msg.SendNtrn? then e.msg.sent else 0
  }

  function Donated(events: seq<Event>): nat {
    if events == [] then 0 else Gift(events[0]) + Donated(events[1..])
  }

  function Surplus(x: State): int {
    x.held - x.supply
  }

  lemma NextKeepsSurplus(w: World, e: Event)
    ensures Surplus(Next(w, e).state) == Surplus(w.state) + Gift(e)
  {
  }

  lemma {:induction false} RunKeepsSurplus(w: World, events: seq<Event>)
    ensures Surplus(Run(w, events).state) == Surplus(w.state) + Donated(events)
    decreases |events|
  {
    if events != [] {
      NextKeepsSurplus(w, events[0]);
      RunKeepsSurplus(Next(w, events[0]), events[1..]);
    }
  }

  /** In every run the NTRN that backs no credits is what was there at the start and what was sent without minting: no message
      takes any of it. */
  lemma SurplusIsDonated(start: World, events: seq<Event>)
    requires Initial(start)
    ensures Surplus(Run(start, events).state) == start.state.held + Donated(events)
  {
    RunKeepsSurplus(start, events);
  }
}

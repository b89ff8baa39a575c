/** Runs of the credits contract. */
module CreditsRuns {
  import opened Basics
  import opened FixedPoint
  import opened Sums
  import opened Credits

  datatype Msg =
    | UpdateConfig(airdrop: Option<Addr>, lockdrop: Option<Addr>, when: Option<nat>)
    | Mint(funds: seq<Coin>)
    | Transfer(to: Addr, amount: nat)
    | AddVesting(user: Addr, grant: nat, start: nat, duration: nat)
    | Withdraw
    | Burn(burned: nat)
    | BurnFrom(owner: Addr, taken: nat)
    | SendNtrn(sent: nat)

  /** A message and its sender, and how much time has passed since the one before; SendNtrn is a plain bank transfer. */
  datatype Event = Event(elapsed: nat, sender: Addr, msg: Msg)

  datatype World = World(now: nat, state: State)

  function Execute(x: State, now: nat, sender: Addr, msg: Msg): Result<State> {
    match msg
    case UpdateConfig(airdrop, lockdrop, when) => Credits.UpdateConfig(x, sender, airdrop, lockdrop, when)
    case Mint(funds) => Credits.Mint(x, sender, funds)
    case Transfer(to, amount) => Credits.Transfer(x, sender, to, amount)
    case AddVesting(user, grant, start, duration) => Credits.AddVesting(x, sender, user, grant, start, duration)
    case Withdraw => Credits.Withdraw(x, now, sender)
    case Burn(burned) => Credits.Burn(x, sender, burned)
    case BurnFrom(owner, taken) => Credits.BurnFrom(x, sender, owner, taken)
    case SendNtrn(sent) => Ok(x.(held := x.held + sent))
  }

  function Later(w: World, e: Event): World {
    w.(now := w.now + e.elapsed)
  }

  function Apply(w: World, sender: Addr, msg: Msg): World {
    var r := Execute(w.state, w.now, sender, msg);
    if r.Ok? then w.(state := r.value) else w
  }

  function Next(w: World, e: Event): World {
    Apply(Later(w, e), e.sender, e.msg)
  }

  function Run(w: World, events: seq<Event>): World
    decreases |events|
  {
    if events == [] then w else Run(Next(w, events[0]), events[1..])
  }

  predicate Initial(w: World) {
    w.state.balances == map[] && w.state.supply == 0 && w.state.allocations == map[]
  }

  lemma ExecuteKeeps(x: State, now: nat, sender: Addr, msg: Msg)
    requires Inv(x, now) && Execute(x, now, sender, msg).Ok?
    ensures Inv(Execute(x, now, sender, msg).value, now)
  {
    match msg
    case UpdateConfig(airdrop, lockdrop, when) =>
    case Mint(funds) => MintKeeps(x, now, sender, funds);
    case Transfer(to, amount) => TransferKeeps(x, now, sender, to, amount);
    case AddVesting(user, grant, start, duration) => AddVestingKeeps(x, now, sender, user, grant, start, duration);
    case Withdraw => WithdrawKeeps(x, now, sender);
    case Burn(burned) => BurnKeeps(x, now, sender, burned);
    case BurnFrom(owner, taken) => BurnKeeps(x, now, owner, taken);
    case SendNtrn(sent) =>
  }

  lemma NextKeeps(w: World, e: Event)
    requires Inv(w.state, w.now)
    ensures Inv(Next(w, e).state, Next(w, e).now)
  {
    var l := Later(w, e);
    TimePasses(w.state, w.now, l.now);
    if Execute(l.state, l.now, e.sender, e.msg).Ok? {
      ExecuteKeeps(l.state, l.now, e.sender, e.msg);
    }
  }

  lemma {:induction false} RunKeeps(w: World, events: seq<Event>)
    requires Inv(w.state, w.now)
    ensures Inv(Run(w, events).state, Run(w, events).now)
    decreases |events|
  {
    if events != [] {
      NextKeeps(w, events[0]);
      RunKeeps(Next(w, events[0]), events[1..]);
    }
  }

  /** In every run the NTRN held is at least the supply, which is the sum of all balances, and what an account has
      withdrawn never exceeds what has vested. */
  lemma AlwaysBacked(start: World, events: seq<Event>)
    requires Initial(start)
    ensures var w := Run(start, events);
            && w.state.supply == Total(w.state.balances, Balances()) <= w.state.held
            && forall u :: u in w.state.allocations ==>
                 var a := w.state.allocations[u];
                 a.withdrawn <= Vested(a.grant, a.schedule, w.now) <= a.grant && Withdrawable(a, w.now).Ok?
  {
    RunKeeps(start, events);
    var w := Run(start, events);
    forall u | u in w.state.allocations
      ensures var a := w.state.allocations[u];
              a.withdrawn <= Vested(a.grant, a.schedule, w.now) <= a.grant && Withdrawable(a, w.now).Ok?
    {
      assert AllocationInv(w.state.allocations[u], w.now);
      VestedGrows(w.state.allocations[u].grant, w.state.allocations[u].schedule, w.now, w.now);
    }
  }

  // Withdrawals add up

  /** The NTRN that an event sends to u as a withdrawal. */
  function Pays(w: World, e: Event, u: Addr): nat {
    if e.msg.Withdraw? && e.sender == u && Next(w, e).state.held <= w.state.held then w.state.held - Next(w, e).state.held else 0
  }

  function Paid(w: World, events: seq<Event>, u: Addr): nat
    decreases |events|
  {
    if events == [] then 0 else Pays(w, events[0], u) + Paid(Next(w, events[0]), events[1..], u)
  }

  function WithdrawnBy(x: State, u: Addr): nat {
    if u in x.allocations then x.allocations[u].withdrawn else 0
  }

  lemma NextPays(w: World, e: Event, u: Addr)
    requires Inv(w.state, w.now)
    ensures WithdrawnBy(Next(w, e).state, u) == WithdrawnBy(w.state, u) + Pays(w, e, u)
  {
    var l := Later(w, e);
    if e.msg.Withdraw? {
      TimePasses(w.state, w.now, l.now);
      WithdrawKeeps(l.state, l.now, e.sender);
    }
  }

  lemma {:induction false} RunPays(w: World, events: seq<Event>, u: Addr)
    requires Inv(w.state, w.now)
    ensures WithdrawnBy(Run(w, events).state, u) == WithdrawnBy(w.state, u) + Paid(w, events, u)
    decreases |events|
  {
    if events != [] {
      NextPays(w, events[0], u);
      NextKeeps(w, events[0]);
      RunPays(Next(w, events[0]), events[1..], u);
    }
  }

  /** All withdrawals of a user in a run add up to no more than has vested; and however they were split, a withdrawal that
      the balance covers brings them to exactly that. */
  lemma WithdrawalsAddUp(start: World, events: seq<Event>, u: Addr)
    requires Initial(start)
    ensures var w := Run(start, events);
            u in w.state.allocations ==>
              var a := w.state.allocations[u];
              var vested := Vested(a.grant, a.schedule, w.now);
              && Paid(start, events, u) == a.withdrawn <= vested
              && (Execute(w.state, w.now, u, Withdraw).Ok? && vested <= a.withdrawn + w.state.Balance(u) ==>
                    Paid(start, events, u) + Pays(w, Event(0, u, Withdraw), u) == vested)
  {
    RunKeeps(start, events);
    RunPays(start, events, u);
    var w := Run(start, events);
    if u in w.state.allocations {
      assert AllocationInv(w.state.allocations[u], w.now);
      assert Later(w, Event(0, u, Withdraw)) == w;
      WithdrawKeeps(w.state, w.now, u);
    }
  }

  /** After every run: exactly when the credits let a user claim in the lockdrop, whatever the user has withdrawn or had
      burned before. */
  lemma LockdropBurnSucceeds(start: World, events: seq<Event>, lockdrop: Addr, u: Addr, rewards: nat)
    requires Initial(start)
    ensures var w := Run(start, events);
            w.state.config.lockdrop == Some(lockdrop) ==>
              (LockdropClaim(w.state, w.now, lockdrop, u, rewards).Ok? <==>
                 || w.state.Balance(u) == 0
                 || (&& u in w.state.allocations && rewards * ONE <= U128_MAX
                     && (|| w.state.config.acceptsZero || rewards > 0
                         || Paid(start, events, u) < Vested(w.state.allocations[u].grant, w.state.allocations[u].schedule, w.now))))
  {
    RunKeeps(start, events);
    RunPays(start, events, u);
    var w := Run(start, events);
    if w.state.config.lockdrop == Some(lockdrop) {
      LockdropBurnIsCovered(w.state, w.now, lockdrop, u, rewards);
    }
  }
}

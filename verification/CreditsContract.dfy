/** The credits contract in its own form: stored fields, handlers that update balances, supply and allocations, and a whole
    run of messages. */
module CreditsContract {
  import opened Basics
  import opened FixedPoint
  import opened Sums
  import C = Credits
  import CreditsRuns

  /** What is withdrawable at a time, from the stored allocation. */
  method ComputeWithdrawableAmount(a: C.Allocation, now: nat) returns (r: Result<nat>)
    ensures r == C.Withdrawable(a, now)
  {
    var s := a.schedule;
    var vested: nat;
    if now < s.start + s.cliff {
      vested := 0;
    } else if now < s.start + s.duration {
      vested := C.Released(a.grant, now - s.start, s.duration);
    } else {
      vested := a.grant;
    }
    return CheckedSub(vested, a.withdrawn);
  }

  class Contract {
    var config: C.Config
    var balances: map<Addr, nat>
    var supply: nat
    var allocations: map<Addr, C.Allocation>
    var held: nat

    function State(): C.State
      reads this
    {
      C.State(config, balances, supply, allocations, held)
    }

    constructor (dao: Addr, acceptsZero: bool)
      ensures State() == C.State(C.Config(dao, None, None, None, acceptsZero), map[], 0, map[], 0)
    {
      config := C.Config(dao, None, None, None, acceptsZero);
      balances, supply, allocations, held := map[], 0, map[], 0;
    }

    method BalanceOf(u: Addr) returns (b: nat)
      ensures b == State().Balance(u)
    {
      if u in balances {
        return balances[u];
      }
      return 0;
    }

    method UpdateConfig(sender: Addr, airdrop: Option<Addr>, lockdrop: Option<Addr>, when: Option<nat>) returns (r: Result<()>)
      modifies this
      ensures match C.UpdateConfig(old(State()), sender, airdrop, lockdrop, when)
              case Ok(x) => r == Ok(()) && State() == x
              case Err(e) => r == Err(e) && State() == old(State())
    {
      if sender != config.dao {
        return Err(Unauthorized);
      }
      if airdrop.Some? {
        config := config.(airdrop := airdrop);
      }
      if lockdrop.Some? {
        config := config.(lockdrop := lockdrop);
      }
      if when.Some? {
        config := config.(whenWithdrawable := when);
      }
      return Ok(());
    }

    method Mint(sender: Addr, funds: seq<C.Coin>) returns (r: Result<()>)
      modifies this
      ensures match C.Mint(old(State()), sender, funds)
              case Ok(x) => r == Ok(()) && State() == x
              case Err(e) => r == Err(e) && State() == old(State())
    {
      if |funds| == 0 {
        return Err(InsufficientFunds);
      }
      if !funds[0].isNtrn {
        return Err(InvalidAmount);
      }
      if config.airdrop.None? {
        return Err(NotConfigured);
      }
      if !config.Accepts(funds[0].amount) {
        return Err(InvalidAmount);
      }
      if sender != config.dao {
        return Err(Unauthorized);
      }
      if supply + funds[0].amount > U128_MAX {
        return Err(Overflow);
      }
      var balance := BalanceOf(config.airdrop.value);
      supply := supply + funds[0].amount;
      balances := balances[config.airdrop.value := balance + funds[0].amount];
      held := held + funds[0].amount;
      return Ok(());
    }

    /** Takes from the sender first, so that a transfer to oneself changes nothing. */
    method Transfer(sender: Addr, to: Addr, amount: nat) returns (r: Result<()>)
      modifies this
      ensures match C.Transfer(old(State()), sender, to, amount)
              case Ok(x) => r == Ok(()) && State() == x
              case Err(e) => r == Err(e) && State() == old(State())
    {
      if config.airdrop.None? {
        return Err(NotConfigured);
      }
      if sender != config.airdrop.value {
        return Err(Unauthorized);
      }
      if !config.Accepts(amount) {
        return Err(InvalidAmount);
      }
      var from := BalanceOf(sender);
      if from < amount {
        return Err(Overflow);
      }
      balances := balances[sender := from - amount];
      var balance := BalanceOf(to);
      balances := balances[to := balance + amount];
      return Ok(());
    }

    method AddVesting(sender: Addr, u: Addr, amount: nat, start: nat, duration: nat) returns (r: Result<()>)
      modifies this
      ensures match C.AddVesting(old(State()), sender, u, amount, start, duration)
              case Ok(x) => r == Ok(()) && State() == x
              case Err(e) => r == Err(e) && State() == old(State())
    {
      if config.airdrop.None? {
        return Err(NotConfigured);
      }
      if sender != config.airdrop.value {
        return Err(Unauthorized);
      }
      var balance := BalanceOf(u);
      if balance < amount {
        return Err(InsufficientFunds);
      }
      if u in allocations {
        return Err(AlreadySet);
      }
      allocations := allocations[u := C.Allocation(amount, 0, C.Schedule(start, C.VESTING_CLIFF, duration))];
      return Ok(());
    }

    method BurnAndSend(u: Addr, amount: nat) returns (r: Result<()>)
      modifies this
      ensures match C.BurnAndSend(old(State()), u, amount)
              case Ok(x) => r == Ok(()) && State() == x
              case Err(e) => r == Err(e) && State() == old(State())
    {
      if !config.Accepts(amount) {
        return Err(InvalidAmount);
      }
      var balance := BalanceOf(u);
      if balance < amount || supply < amount {
        return Err(Overflow);
      }
      if held < amount {
        return Err(InsufficientFunds);
      }
      balances := balances[u := balance - amount];
      supply := supply - amount;
      held := held - amount;
      return Ok(());
    }

    method Withdraw(now: nat, u: Addr) returns (r: Result<()>)
      modifies this
      ensures match C.Withdraw(old(State()), now, u)
              case Ok(x) => r == Ok(()) && State() == x
              case Err(e) => r == Err(e) && State() == old(State())
    {
      if config.whenWithdrawable.None? {
        return Err(NotConfigured);
      }
      if config.whenWithdrawable.value > now {
        return Err(WindowOpen);
      }
      if u !in allocations {
        return Err(NotFound);
      }
      var a := allocations[u];
      var max := ComputeWithdrawableAmount(a, now);
      if max.Err? {
        return Err(max.error);
      }
      if max.value == 0 {
        return Err(NothingToClaim);
      }
      if u !in balances {
        return Err(NotFound);
      }
      var amount := Min(max.value, balances[u]);
      if amount == 0 {
        return Err(NothingToClaim);
      }
      if a.withdrawn + amount > U128_MAX {
        return Err(Overflow);
      }
      allocations := allocations[u := a.(withdrawn := a.withdrawn + amount)];
      r := BurnAndSend(u, amount);
      if r.Err? {
        allocations := allocations[u := a];
        assert allocations == old(allocations);
      }
    }

    method Burn(sender: Addr, amount: nat) returns (r: Result<()>)
      modifies this
      ensures match C.Burn(old(State()), sender, amount)
              case Ok(x) => r == Ok(()) && State() == x
              case Err(e) => r == Err(e) && State() == old(State())
    {
      if config.airdrop.None? {
        return Err(NotConfigured);
      }
      if sender != config.airdrop.value {
        return Err(Unauthorized);
      }
      r := BurnAndSend(sender, amount);
    }

    method BurnFrom(sender: Addr, owner: Addr, amount: nat) returns (r: Result<()>)
      modifies this
      ensures match C.BurnFrom(old(State()), sender, owner, amount)
              case Ok(x) => r == Ok(()) && State() == x
              case Err(e) => r == Err(e) && State() == old(State())
    {
      if config.lockdrop.None? {
        return Err(NotConfigured);
      }
      if sender != config.lockdrop.value {
        return Err(Unauthorized);
      }
      r := BurnAndSend(owner, amount);
    }

    /** One message; a plain bank transfer only adds to the NTRN held. */
    method Handle(now: nat, sender: Addr, msg: CreditsRuns.Msg) returns (r: Result<()>)
      modifies this
      ensures CreditsRuns.World(now, State()) == CreditsRuns.Apply(CreditsRuns.World(now, old(State())), sender, msg)
      ensures r.Ok? <==> CreditsRuns.Execute(old(State()), now, sender, msg).Ok?
    {
      match msg
      case UpdateConfig(airdrop, lockdrop, when) => r := UpdateConfig(sender, airdrop, lockdrop, when);
      case Mint(funds) => r := Mint(sender, funds);
      case Transfer(to, amount) => r := Transfer(sender, to, amount);
      case AddVesting(user, grant, start, duration) => r := AddVesting(sender, user, grant, start, duration);
      case Withdraw => r := Withdraw(now, sender);
      case Burn(burned) => r := Burn(sender, burned);
      case BurnFrom(owner, taken) => r := BurnFrom(sender, owner, taken);
      case SendNtrn(sent) => held := held + sent; r := Ok(());
    }

    /** A whole run of the contract is a run of the model, so everything proved of runs holds of it: the supply stays backed
        and the sum of the balances, and withdrawals add up to no more than has vested. */
    method Serve(start: nat, events: seq<CreditsRuns.Event>) returns (now: nat)
      modifies this
      ensures CreditsRuns.World(now, State()) == CreditsRuns.Run(CreditsRuns.World(start, old(State())), events)
      ensures CreditsRuns.Initial(CreditsRuns.World(start, old(State()))) ==>
                && State().supply == Total(State().balances, C.Balances()) <= State().held
                && forall u :: u in State().allocations ==>
                     var a := State().allocations[u];
                     CreditsRuns.Paid(CreditsRuns.World(start, old(State())), events, u) == a.withdrawn <= C.Vested(a.grant, a.schedule, now)
    {
      now := start;
      ghost var w0 := CreditsRuns.World(start, State());
      for i := 0 to |events|
        invariant CreditsRuns.Run(w0, events) == CreditsRuns.Run(CreditsRuns.World(now, State()), events[i..])
      {
        assert events[i..][0] == events[i] && events[i..][1..] == events[i + 1..];
        now := now + events[i].elapsed;
        var _ := Handle(now, events[i].sender, events[i].msg);
      }
      if CreditsRuns.Initial(w0) {
        CreditsRuns.AlwaysBacked(w0, events);
        forall u | u in State().allocations
          ensures var a := State().allocations[u];
                  CreditsRuns.Paid(w0, events, u) == a.withdrawn <= C.Vested(a.grant, a.schedule, now)
        {
          CreditsRuns.WithdrawalsAddUp(w0, events, u);
        }
      }
    }
  }
}

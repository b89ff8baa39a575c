/** The credits contract: a token backed one to one by NTRN, which most holders can only redeem as it vests. */
module Credits {
  import opened Basics
  import opened FixedPoint
  import opened Sums

  const VESTING_CLIFF: nat := 0

  /** The part of its one-time reward for which the lockdrop lets a user skip the vesting, as a decimal. */
  const AIRDROP_REWARDS_MULTIPLIER: nat := ONE

  datatype Coin = Coin(isNtrn: bool, amount: nat)

  datatype Schedule = Schedule(start: nat, cliff: nat, duration: nat)

  datatype Allocation = Allocation(grant: nat, withdrawn: nat, schedule: Schedule)

  /** The stored settings, and whether the token library and the bank accept amounts of zero. */
  datatype Config = Config(dao: Addr, airdrop: Option<Addr>, lockdrop: Option<Addr>, whenWithdrawable: Option<nat>, acceptsZero: bool)
  {
    predicate Accepts(amount: nat) {
      amount > 0 || acceptsZero
    }
  }

  /** The contract's storage, and the NTRN that it holds. */
  datatype State = State(config: Config, balances: map<Addr, nat>, supply: nat, allocations: map<Addr, Allocation>, held: nat)
  {
    function Balance(u: Addr): nat {
      if u in balances then balances[u] else 0
    }
  }

  // Vesting

  /** What has vested of an allocation: nothing before the cliff, then a share that grows with time, and all of it after
      the duration. */
  function Vested(grant: nat, s: Schedule, now: nat): nat {
    if now < s.start + s.cliff then 0
    else if now < s.start + s.duration then Released(grant, now - s.start, s.duration)
    else grant
  }

  function Released(grant: nat, passed: nat, duration: nat): nat
    requires duration > 0
  {
    grant * passed / duration
  }

  function Withdrawable(a: Allocation, now: nat): Result<nat> {
    CheckedSub(Vested(a.grant, a.schedule, now), a.withdrawn)
  }

  // Messages

  function UpdateConfig(x: State, sender: Addr, airdrop: Option<Addr>, lockdrop: Option<Addr>, when: Option<nat>): Result<State> {
    if sender != x.config.dao then Err(Unauthorized)
    else
      Ok(x.(config := x.config.(airdrop := if airdrop.Some? then airdrop else x.config.airdrop,
                                lockdrop := if lockdrop.Some? then lockdrop else x.config.lockdrop,
                                whenWithdrawable := if when.Some? then when else x.config.whenWithdrawable)))
  }

  /** Mints credits to the airdrop contract for the NTRN that the DAO sends along. */
  function Mint(x: State, sender: Addr, funds: seq<Coin>): Result<State> {
    if funds == [] then Err(InsufficientFunds)
    else if !funds[0].isNtrn then Err(InvalidAmount)
    else if x.config.airdrop.None? then Err(NotConfigured)
    else if !x.config.Accepts(funds[0].amount) then Err(InvalidAmount)
    else if sender != x.config.dao then Err(Unauthorized)
    else
      var to, amount := x.config.airdrop.value, funds[0].amount;
      var supply :- Checked(x.supply + amount);
      Ok(x.(supply := supply, balances := x.balances[to := x.Balance(to) + amount], held := x.held + amount))
  }

  function Transfer(x: State, sender: Addr, to: Addr, amount: nat): Result<State> {
    if x.config.airdrop.None? then Err(NotConfigured)
    else if sender != x.config.airdrop.value then Err(Unauthorized)
    else if !x.config.Accepts(amount) then Err(InvalidAmount)
    else
      var rest :- CheckedSub(x.Balance(sender), amount);
      var x1 := x.(balances := x.balances[sender := rest]);
      Ok(x1.(balances := x1.balances[to := x1.Balance(to) + amount]))
  }

  function AddVesting(x: State, sender: Addr, u: Addr, amount: nat, start: nat, duration: nat): Result<State> {
    if x.config.airdrop.None? then Err(NotConfigured)
    else if sender != x.config.airdrop.value then Err(Unauthorized)
    else if x.Balance(u) < amount then Err(InsufficientFunds)
    else if u in x.allocations then Err(AlreadySet)
    else Ok(x.(allocations := x.allocations[u := Allocation(amount, 0, Schedule(start, VESTING_CLIFF, duration))]))
  }

  /** Burns credits of u and sends u the same amount of NTRN. */
  function BurnAndSend(x: State, u: Addr, amount: nat): Result<State> {
    if !x.config.Accepts(amount) then Err(InvalidAmount)
    else
      var rest :- CheckedSub(x.Balance(u), amount);
      var supply :- CheckedSub(x.supply, amount);
      if x.held < amount then Err(InsufficientFunds)
      else Ok(x.(balances := x.balances[u := rest], supply := supply, held := x.held - amount))
  }

  /** What u may withdraw now: what has vested and was not withdrawn, but no more than the balance. */
  function ToWithdraw(x: State, now: nat, u: Addr): Result<nat> {
    if u !in x.allocations then Err(NotFound)
    else
      var max :- Withdrawable(x.allocations[u], now);
      if u !in x.balances then Err(NotFound) else Ok(Min(max, x.balances[u]))
  }

  function Withdraw(x: State, now: nat, u: Addr): Result<State> {
    if x.config.whenWithdrawable.None? then Err(NotConfigured)
    else if x.config.whenWithdrawable.value > now then Err(WindowOpen)
    else if u !in x.allocations then Err(NotFound)
    else
      var max :- Withdrawable(x.allocations[u], now);
      if max == 0 then Err(NothingToClaim)
      else if u !in x.balances then Err(NotFound)
      else
        var amount := Min(max, x.balances[u]);
        if amount == 0 then Err(NothingToClaim)
        else
          var a := x.allocations[u];
          var withdrawn :- Checked(a.withdrawn + amount);
          BurnAndSend(x.(allocations := x.allocations[u := a.(withdrawn := withdrawn)]), u, amount)
  }

  function Burn(x: State, sender: Addr, amount: nat): Result<State> {
    if x.config.airdrop.None? then Err(NotConfigured)
    else if sender != x.config.airdrop.value then Err(Unauthorized)
    else BurnAndSend(x, sender, amount)
  }

  function BurnFrom(x: State, sender: Addr, owner: Addr, amount: nat): Result<State> {
    if x.config.lockdrop.None? then Err(NotConfigured)
    else if sender != x.config.lockdrop.value then Err(Unauthorized)
    else BurnAndSend(x, owner, amount)
  }

  // Queries

  function WithdrawableAmount(x: State, now: nat, u: Addr): Result<nat> {
    ToWithdraw(x, now, u)
  }

  /** The rest of the balance, which has not vested yet. */
  function VestedAmount(x: State, now: nat, u: Addr): Result<nat> {
    var withdrawable :- ToWithdraw(x, now, u);
    Ok(x.Balance(u) - Min(withdrawable, x.Balance(u)))
  }

  /** What the lockdrop asks to burn when user u claims with the given one-time rewards. */
  function LockdropBurn(x: State, now: nat, u: Addr, rewards: nat): Result<nat> {
    var withdrawable :- WithdrawableAmount(x, now, u);
    var vested :- VestedAmount(x, now, u);
    var skipped :- CheckedMulFloor(AIRDROP_REWARDS_MULTIPLIER, rewards);
    Checked(Min(vested, skipped) + withdrawable)
  }

  /** What a claim of user u's one-time rewards does here: nothing to a user without credits, else the lockdrop's burn. If it
      fails, so does the claim. */
  function LockdropClaim(x: State, now: nat, lockdrop: Addr, u: Addr, rewards: nat): Result<State> {
    if x.Balance(u) == 0 then Ok(x)
    else
      var amount :- LockdropBurn(x, now, u, rewards);
      BurnFrom(x, lockdrop, u, amount)
  }

  // Invariant

  function Balances(): (Addr, nat) -> int {
    (u: Addr, balance: nat) => balance
  }

  /** The supply is the sum of the balances and is backed, and nobody has withdrawn more than has vested. */
  ghost predicate Inv(x: State, now: nat) {
    && x.supply == Total(x.balances, Balances()) <= x.held
    && x.supply <= U128_MAX
    && forall u :: u in x.allocations ==> AllocationInv(x.allocations[u], now)
  }

  predicate AllocationInv(a: Allocation, now: nat) {
    a.withdrawn <= Vested(a.grant, a.schedule, now) && a.grant <= U128_MAX
  }

  lemma VestedGrows(grant: nat, s: Schedule, now: nat, later: nat)
    requires now <= later
    ensures Vested(grant, s, now) <= Vested(grant, s, later) <= grant
    ensures s.start + s.cliff <= now && s.start + s.duration <= now ==> Vested(grant, s, now) == grant
  {
    if s.start + s.cliff <= later < s.start + s.duration {
      ReleasedGrows(grant, if s.start <= now then now - s.start else 0, later - s.start, s.duration);
    } else if s.start + s.cliff <= now < s.start + s.duration {
      ReleasedGrows(grant, now - s.start, s.duration, s.duration);
    }
  }

  lemma ReleasedGrows(grant: nat, passed: nat, longer: nat, duration: nat)
    requires 0 < duration && passed <= longer <= duration
    ensures Released(grant, passed, duration) <= Released(grant, longer, duration) <= grant
  {
    MulMono(grant, passed, longer);
    MulMono(grant, longer, duration);
    DivMono(grant * passed, grant * longer, duration);
    DivMono(grant * longer, grant * duration, duration);
    MulDivCancel(grant, duration);
  }

  lemma TimePasses(x: State, now: nat, later: nat)
    requires Inv(x, now) && now <= later
    ensures Inv(x, later)
  {
    forall u | u in x.allocations
      ensures AllocationInv(x.allocations[u], later)
    {
      assert AllocationInv(x.allocations[u], now);
      VestedGrows(x.allocations[u].grant, x.allocations[u].schedule, now, later);
    }
  }

  lemma BalanceWithinSupply(x: State, now: nat, u: Addr)
    requires Inv(x, now)
    ensures x.Balance(u) <= x.supply
  {
    TotalNonNeg(x.balances, Balances());
    assert u in x.balances ==> Balances()(u, x.balances[u]) <= x.supply;
  }

  // Steps

  lemma MintKeeps(x: State, now: nat, sender: Addr, funds: seq<Coin>)
    requires Inv(x, now) && Mint(x, sender, funds).Ok?
    ensures Inv(Mint(x, sender, funds).value, now)
  {
    var to := x.config.airdrop.value;
    TotalSet<Addr, nat>(x.balances, Balances(), to, x.Balance(to) + funds[0].amount);
  }

  lemma TransferKeeps(x: State, now: nat, sender: Addr, to: Addr, amount: nat)
    requires Inv(x, now) && Transfer(x, sender, to, amount).Ok?
    ensures Inv(Transfer(x, sender, to, amount).value, now)
  {
    var rest := x.Balance(sender) - amount;
    var m := x.balances[sender := rest];
    var old' := if to in m then m[to] else 0;
    TotalSet<Addr, nat>(x.balances, Balances(), sender, rest);
    TotalSet<Addr, nat>(m, Balances(), to, old' + amount);
  }

  lemma AddVestingKeeps(x: State, now: nat, sender: Addr, u: Addr, amount: nat, start: nat, duration: nat)
    requires Inv(x, now) && AddVesting(x, sender, u, amount, start, duration).Ok?
    ensures Inv(AddVesting(x, sender, u, amount, start, duration).value, now)
  {
    BalanceWithinSupply(x, now, u);
    var x' := AddVesting(x, sender, u, amount, start, duration).value;
    forall v | v in x'.allocations
      ensures AllocationInv(x'.allocations[v], now)
    {
      assert v != u ==> AllocationInv(x.allocations[v], now);
    }
  }

  lemma BurnKeeps(x: State, now: nat, u: Addr, amount: nat)
    requires Inv(x, now)
    ensures BurnAndSend(x, u, amount).Ok? <==> amount <= x.Balance(u) && x.config.Accepts(amount)
    ensures BurnAndSend(x, u, amount).Ok? ==> Inv(BurnAndSend(x, u, amount).value, now)
  {
    BalanceWithinSupply(x, now, u);
    if amount <= x.Balance(u) {
      TotalSet<Addr, nat>(x.balances, Balances(), u, x.Balance(u) - amount);
    }
  }

  /** A withdrawal succeeds whenever withdrawals are open and something can be withdrawn: its subtractions cannot fail.
      It pays what has vested and was not withdrawn yet, or the whole balance if that is less. */
  lemma WithdrawKeeps(x: State, now: nat, u: Addr)
    requires Inv(x, now)
    ensures Withdraw(x, now, u).Ok? <==>
              && x.config.whenWithdrawable.Some? && x.config.whenWithdrawable.value <= now
              && u in x.allocations && x.allocations[u].withdrawn < Vested(x.allocations[u].grant, x.allocations[u].schedule, now)
              && x.Balance(u) > 0
    ensures Withdraw(x, now, u).Ok? ==>
              var x' := Withdraw(x, now, u).value;
              && Inv(x', now) && u in x'.allocations
              && x'.allocations[u].withdrawn == Min(Vested(x.allocations[u].grant, x.allocations[u].schedule, now), x.allocations[u].withdrawn + x.Balance(u))
              && x.Balance(u) - x'.Balance(u) == x.held - x'.held == x'.allocations[u].withdrawn - x.allocations[u].withdrawn
  {
    if u in x.allocations && u in x.balances {
      var a := x.allocations[u];
      assert AllocationInv(a, now);
      VestedGrows(a.grant, a.schedule, now, now);
      var amount := Min(Vested(a.grant, a.schedule, now) - a.withdrawn, x.balances[u]);
      var x1 := x.(allocations := x.allocations[u := a.(withdrawn := a.withdrawn + amount)]);
      forall v | v in x1.allocations
        ensures AllocationInv(x1.allocations[v], now)
      {
        assert v != u ==> AllocationInv(x.allocations[v], now);
      }
      BurnKeeps(x1, now, u, amount);
    }
  }

  /** The two queries succeed exactly for users with an allocation and a balance, which they split in two. */
  lemma QueriesSplitBalance(x: State, now: nat, u: Addr)
    requires Inv(x, now)
    ensures WithdrawableAmount(x, now, u).Ok? <==> u in x.allocations && u in x.balances
    ensures VestedAmount(x, now, u).Ok? <==> u in x.allocations && u in x.balances
    ensures u in x.allocations && u in x.balances ==>
              && WithdrawableAmount(x, now, u).value + VestedAmount(x, now, u).value == x.balances[u]
              && (WithdrawableAmount(x, now, u).value == 0 <==>
                    x.balances[u] == 0 || x.allocations[u].withdrawn == Vested(x.allocations[u].grant, x.allocations[u].schedule, now))
  {
    if u in x.allocations {
      assert AllocationInv(x.allocations[u], now);
    }
  }

  /** The amount that the lockdrop asks to burn, whenever the queries succeed: the balance or, if that is less, what may be
      withdrawn plus the rewards. It is within the balance. */
  lemma LockdropBurnAmount(x: State, now: nat, u: Addr, rewards: nat)
    requires Inv(x, now)
    ensures LockdropBurn(x, now, u, rewards).Ok? <==> u in x.allocations && u in x.balances && rewards * ONE <= U128_MAX
    ensures LockdropBurn(x, now, u, rewards).Ok? ==>
              LockdropBurn(x, now, u, rewards).value == Min(x.balances[u], WithdrawableAmount(x, now, u).value + rewards)
  {
    QueriesSplitBalance(x, now, u);
    BalanceWithinSupply(x, now, u);
    MulDivCancel(rewards, ONE);
    assert ONE * rewards == rewards * ONE;
  }

  /** Exactly when the credits let a claim in the lockdrop pass. A user who holds credits needs an allocation, rewards that
      fit into a Decimal and, if amounts of zero are refused, something to burn. Then the burn is covered, and the user gets
      the burned amount. */
  lemma LockdropBurnIsCovered(x: State, now: nat, lockdrop: Addr, u: Addr, rewards: nat)
    requires Inv(x, now) && x.config.lockdrop == Some(lockdrop)
    ensures LockdropClaim(x, now, lockdrop, u, rewards).Ok? <==>
              || x.Balance(u) == 0
              || (&& u in x.allocations && rewards * ONE <= U128_MAX
                  && (|| x.config.acceptsZero || rewards > 0
                      || x.allocations[u].withdrawn < Vested(x.allocations[u].grant, x.allocations[u].schedule, now)))
    ensures x.Balance(u) > 0 && LockdropClaim(x, now, lockdrop, u, rewards).Ok? ==>
              var x' := LockdropClaim(x, now, lockdrop, u, rewards).value;
              && Inv(x', now) && x'.allocations == x.allocations
              && x.Balance(u) - x'.Balance(u) == x.held - x'.held == Min(x.Balance(u), WithdrawableAmount(x, now, u).value + rewards)
  {
    QueriesSplitBalance(x, now, u);
    LockdropBurnAmount(x, now, u, rewards);
    if u in x.allocations {
      assert AllocationInv(x.allocations[u], now);
    }
    if LockdropBurn(x, now, u, rewards).Ok? {
      BurnKeeps(x, now, u, LockdropBurn(x, now, u, rewards).value);
    }
  }
}

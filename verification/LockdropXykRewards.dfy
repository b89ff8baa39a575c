/** The one-time NTRN rewards of the XYK lockdrop: they stay within the incentives and are paid once. */
module LockdropXykRewards {
  import opened Basics
  import opened FixedPoint
  import opened Sums
  import opened LockdropXyk
  import opened LockdropXykPositions

  // Budget

  function DueIn(t: RewardTerms, p: Pool): (Key, Lockup) -> int {
    (k: Key, l: Lockup) => if k.pool == p then Due(t, k, l.units) else 0
  }

  function DueAll(t: RewardTerms): (Key, Lockup) -> int {
    (k: Key, l: Lockup) => Due(t, k, l.units)
  }

  /** A reward is its exact share of the incentives, rounded down: never more, and less by less than 1 + incentives / 10^18.
      Without shares or weights there is none. */
  lemma IncentivesBound(weight: nat, totalWeight: nat, share: nat, totalShare: nat, incentives: nat)
    ensures var d, reward := totalShare * totalWeight, Incentives(weight, totalWeight, share, totalShare, incentives);
            && d * reward <= share * incentives * weight
            && (d > 0 ==> ONE * (share * incentives * weight) < d * (ONE * (reward + 1) + incentives))
            && (d == 0 ==> reward == 0)
  {
    if totalShare != 0 && totalWeight != 0 {
      Positive(totalShare, totalWeight);
      PartBounds(share * weight, totalShare * totalWeight, incentives);
      assert incentives * (share * weight) == share * incentives * weight;
    }
  }

  /** A pool's rewards against its floored weights. */
  lemma PoolRewardsByWeight(t: RewardTerms, m: map<Key, Lockup>, p: Pool)
    ensures t.totalShare * t.weights.Get(p) * Total(m, DueIn(t, p)) <= t.shares.Get(p) * t.incentives * Total(m, FlooredWeight(t.config, p))
  {
    var a, b := t.totalShare * t.weights.Get(p), t.shares.Get(p) * t.incentives;
    forall k | k in m
      ensures a * DueIn(t, p)(k, m[k]) <= b * FlooredWeight(t.config, p)(k, m[k])
    {
      IncentivesBound(Weight(t.config, m[k].units, k.duration), t.weights.Get(p), t.shares.Get(p), t.totalShare, t.incentives);
    }
    TotalScaledMono(m, a, DueIn(t, p), b, FlooredWeight(t.config, p));
  }

  /** Without any shares or weights there are no rewards. */
  lemma NothingDue(t: RewardTerms, m: map<Key, Lockup>, p: Pool)
    requires t.totalShare == 0 || t.weights.Get(p) == 0
    ensures Total(m, DueIn(t, p)) == 0
  {
    forall k | k in m
      ensures 1 * DueIn(t, p)(k, m[k]) <= 0 * DueIn(t, p)(k, m[k])
      ensures DueIn(t, p)(k, m[k]) >= 0
    {
    }
    TotalScaledMono(m, 1, DueIn(t, p), 0, DueIn(t, p));
    TotalNonNeg(m, DueIn(t, p));
  }

  /** Rewards of one pool stay within its part of the incentives if the floored weights stay within the accumulated one. */
  lemma PoolBudget(t: RewardTerms, m: map<Key, Lockup>, p: Pool)
    requires Total(m, FlooredWeight(t.config, p)) <= t.weights.Get(p)
    ensures t.totalShare * Total(m, DueIn(t, p)) <= t.shares.Get(p) * t.incentives
  {
    if t.totalShare == 0 || t.weights.Get(p) == 0 {
      NothingDue(t, m, p);
    } else {
      PoolRewardsByWeight(t, m, p);
      CancelWeight(t.totalShare, t.weights.Get(p), Total(m, DueIn(t, p)), t.shares.Get(p) * t.incentives, Total(m, FlooredWeight(t.config, p)));
    }
  }

  lemma CancelWeight(totalShare: nat, weight: nat, rewards: int, part: nat, floored: int)
    requires weight > 0 && floored <= weight
    requires totalShare * weight * rewards <= part * floored
    ensures totalShare * rewards <= part
  {
    MulMono(part, floored, weight);
    Swap(totalShare, weight, rewards);
    Cancel(weight, totalShare * rewards, part);
  }

  lemma Swap(a: nat, b: nat, c: int)
    ensures a * b * c == b * (a * c)
  {
  }

  /** All one-time rewards together never exceed the incentives, provided each pool's accumulated weight covers the
      floored weights of its positions and the pools' shares are within the total share. */
  lemma Budget(t: RewardTerms, m: map<Key, Lockup>)
    requires forall p :: Total(m, FlooredWeight(t.config, p)) <= t.weights.Get(p)
    requires t.shares.usdc + t.shares.atom <= t.totalShare
    ensures Total(m, DueAll(t)) <= t.incentives
  {
    DueIsBoth(t, m);
    if t.totalShare == 0 {
      NothingDue(t, m, USDC);
      NothingDue(t, m, ATOM);
    } else {
      PoolBudget(t, m, USDC);
      PoolBudget(t, m, ATOM);
      AddParts(t.totalShare, t.shares.usdc, t.shares.atom, t.incentives, Total(m, DueIn(t, USDC)), Total(m, DueIn(t, ATOM)));
    }
  }

  lemma AddParts(totalShare: nat, usdc: nat, atom: nat, incentives: nat, a: int, b: int)
    requires totalShare > 0 && usdc + atom <= totalShare
    requires totalShare * a <= usdc * incentives && totalShare * b <= atom * incentives
    ensures a + b <= incentives
  {
    Distribute(totalShare, a, b);
    Distribute(incentives, usdc, atom);
    MulMono(incentives, usdc + atom, totalShare);
    Cancel(totalShare, a + b, incentives);
  }

  /** Floored weights are at most the exact ones, so the drift of the accumulated weight bounds them. */
  lemma FlooredWithinDrift(x: State, p: Pool)
    requires DriftInv(x, p)
    ensures Total(x.lockups, FlooredWeight(x.config, p)) <= x.pools.Get(p).weightedAmount + x.ledger.increases.Get(p)
    ensures NoDriftInv(x, p) ==> Total(x.lockups, FlooredWeight(x.config, p)) <= x.pools.Get(p).weightedAmount
  {
    forall k | k in x.lockups
      ensures ONE * FlooredWeight(x.config, p)(k, x.lockups[k]) <= 1 * ExactWeight(x.config, p)(k, x.lockups[k])
    {
      WeightBounds(x.config, x.lockups[k].units, k.duration);
    }
    TotalScaledMono(x.lockups, ONE, FlooredWeight(x.config, p), 1, ExactWeight(x.config, p));
  }

  /** Whatever the coefficients, a pool's rewards exceed its part of the incentives by no more than the factor by which
      the number of increases can have made its accumulated weight too small. */
  lemma PoolBudgetWithDrift(x: State, p: Pool)
    requires DriftInv(x, p)
    ensures x.totalShare * x.pools.Get(p).weightedAmount * Total(x.lockups, DueIn(Terms(x), p)) <=
            x.pools.Get(p).incentivesShare * x.incentives * (x.pools.Get(p).weightedAmount + x.ledger.increases.Get(p))
  {
    PoolRewardsByWeight(Terms(x), x.lockups, p);
    FlooredWithinDrift(x, p);
    MulMono(x.pools.Get(p).incentivesShare * x.incentives, Total(x.lockups, FlooredWeight(x.config, p)), x.pools.Get(p).weightedAmount + x.ledger.increases.Get(p));
  }

  /** What rounding may take off a pool's rewards, times 10^18: 1 + incentives / 10^18 for each position. */
  function Rounding(t: RewardTerms, p: Pool): (Key, Lockup) -> int {
    (k: Key, l: Lockup) => if k.pool == p then ONE + t.incentives else 0
  }

  /** A pool's rewards before rounding. */
  function DueAndRounding(t: RewardTerms, p: Pool): (Key, Lockup) -> int {
    (k: Key, l: Lockup) => Rounding(t, p)(k, l) + ONE * DueIn(t, p)(k, l)
  }

  lemma RewardFromBelow(t: RewardTerms, k: Key, l: Lockup, p: Pool)
    requires t.totalShare > 0 && t.weights.Get(p) > 0
    ensures ONE * (t.shares.Get(p) * t.incentives) * FlooredWeight(t.config, p)(k, l) <= t.totalShare * t.weights.Get(p) * DueAndRounding(t, p)(k, l)
  {
    var due, rounding := DueIn(t, p)(k, l), Rounding(t, p)(k, l);
    assert DueAndRounding(t, p)(k, l) == rounding + ONE * due;
    if k.pool != p {
      assert rounding + ONE * due == 0;
    } else {
      Positive(t.totalShare, t.weights.Get(p));
      var part, weight := t.shares.Get(p) * t.incentives, Weight(t.config, l.units, k.duration);
      IncentivesBound(weight, t.weights.Get(p), t.shares.Get(p), t.totalShare, t.incentives);
      Associate(ONE, part, weight);
      assert rounding + ONE * due == ONE * (due + 1) + t.incentives;
    }
  }

  lemma Associate(a: nat, b: nat, c: nat)
    ensures a * b * c == a * (b * c)
  {
  }

  /** A pool's rewards from below: its floored weights earn their share, but for the rounding. */
  lemma PoolRewardsFromBelow(t: RewardTerms, m: map<Key, Lockup>, p: Pool)
    requires t.totalShare > 0 && t.weights.Get(p) > 0
    ensures ONE * (t.shares.Get(p) * t.incentives) * Total(m, FlooredWeight(t.config, p)) <=
            t.totalShare * t.weights.Get(p) * (Total(m, Rounding(t, p)) + ONE * Total(m, DueIn(t, p)))
  {
    var d, b := t.totalShare * t.weights.Get(p), t.shares.Get(p) * t.incentives;
    Positive(t.totalShare, t.weights.Get(p));
    forall k | k in m
      ensures ONE * b * FlooredWeight(t.config, p)(k, m[k]) <= d * DueAndRounding(t, p)(k, m[k])
    {
      RewardFromBelow(t, k, m[k], p);
    }
    TotalScaledMono(m, ONE * b, FlooredWeight(t.config, p), d, DueAndRounding(t, p));
    TotalLinear(m, Rounding(t, p), DueIn(t, p), ONE, DueAndRounding(t, p));
  }

  function PositionsIn(p: Pool): (Key, Lockup) -> int {
    (k: Key, l: Lockup) => if k.pool == p then 1 else 0
  }

  lemma RoundingPerPosition(t: RewardTerms, m: map<Key, Lockup>, p: Pool)
    ensures Total(m, Rounding(t, p)) == (ONE + t.incentives) * Total(m, PositionsIn(p))
  {
    forall k | k in m
      ensures Rounding(t, p)(k, m[k]) == Zero()(k, m[k]) + (ONE + t.incentives) * PositionsIn(p)(k, m[k])
    {
    }
    TotalLinear(m, Zero(), PositionsIn(p), ONE + t.incentives, Rounding(t, p));
    forall k | k in m
      ensures 1 * Zero()(k, m[k]) <= 0 * Zero()(k, m[k]) && 0 * Zero()(k, m[k]) <= 1 * Zero()(k, m[k])
    {
    }
    TotalScaledMono(m, 1, Zero(), 0, Zero());
    TotalScaledMono(m, 0, Zero(), 1, Zero());
  }

  function Zero(): (Key, Lockup) -> int {
    (k: Key, l: Lockup) => 0
  }

  /** A pool's rewards D are its floored weights F as the part share * incentives / (totalShare * W), from above, and from
      below but for less than 1 + incentives / 10^18 for each of its n positions. So that is how far Budget and
      BudgetExceeded leave the rewards open. */
  lemma PoolRewardsBetween(t: RewardTerms, m: map<Key, Lockup>, p: Pool)
    ensures var d, part := t.totalShare * t.weights.Get(p), t.shares.Get(p) * t.incentives;
            var F, D, n := Total(m, FlooredWeight(t.config, p)), Total(m, DueIn(t, p)), Total(m, PositionsIn(p));
            && d * D <= part * F
            && (d > 0 ==> ONE * part * F <= d * ((ONE + t.incentives) * n + ONE * D))
            && (d == 0 ==> D == 0)
  {
    PoolRewardsByWeight(t, m, p);
    RoundingPerPosition(t, m, p);
    if t.totalShare > 0 && t.weights.Get(p) > 0 {
      Positive(t.totalShare, t.weights.Get(p));
      PoolRewardsFromBelow(t, m, p);
    } else {
      NothingDue(t, m, p);
      assert t.totalShare * t.weights.Get(p) == 0;
    }
  }

  /** The floored weights of a pool exceed the accumulated weight, beyond the rounding, by enough for e / totalShare NTRN.
      A negative e allows for a shortfall; a pool without weights is short by its whole part. */
  ghost predicate WeightsExceed(t: RewardTerms, m: map<Key, Lockup>, p: Pool, e: int) {
    var weight, goal := t.weights.Get(p), t.shares.Get(p) * t.incentives + e;
    if weight == 0 then goal <= 0
    else
      weight * (ONE * goal + t.totalShare * Total(m, Rounding(t, p))) <=
      ONE * (t.shares.Get(p) * t.incentives) * Total(m, FlooredWeight(t.config, p))
  }

  lemma PoolBudgetExceeded(t: RewardTerms, m: map<Key, Lockup>, p: Pool, e: int)
    requires t.totalShare > 0 && WeightsExceed(t, m, p, e)
    ensures t.totalShare * Total(m, DueIn(t, p)) >= t.shares.Get(p) * t.incentives + e
  {
    if t.weights.Get(p) == 0 {
      NothingDue(t, m, p);
    } else {
      var part := t.shares.Get(p) * t.incentives;
      PoolRewardsFromBelow(t, m, p);
      CancelBelow(t.totalShare, t.weights.Get(p), part + e, Total(m, Rounding(t, p)), Total(m, DueIn(t, p)),
                  ONE * part * Total(m, FlooredWeight(t.config, p)));
    }
  }

  lemma CancelBelow(totalShare: nat, weight: nat, goal: int, rounding: int, due: int, floored: int)
    requires weight > 0
    requires weight * (ONE * goal + totalShare * rounding) <= floored <= totalShare * weight * (rounding + ONE * due)
    ensures goal <= totalShare * due
  {
    assert totalShare * weight * (rounding + ONE * due) == weight * (totalShare * rounding + ONE * (totalShare * due)) by {
      Swap(totalShare, weight, rounding + ONE * due);
      Distribute(totalShare, rounding, ONE * due);
    }
    Cancel(weight, ONE * goal + totalShare * rounding, totalShare * rounding + ONE * (totalShare * due));
  }

  /** The converse of Budget: when the floored weights exceed the accumulated ones by enough, over both pools, the one-time
      rewards exceed the incentives. */
  lemma BudgetExceeded(t: RewardTerms, m: map<Key, Lockup>, e: PerPool<int>)
    requires t.totalShare > 0 && t.shares.usdc + t.shares.atom == t.totalShare
    requires WeightsExceed(t, m, USDC, e.usdc) && WeightsExceed(t, m, ATOM, e.atom) && e.usdc + e.atom > 0
    ensures Total(m, DueAll(t)) > t.incentives
  {
    PoolBudgetExceeded(t, m, USDC, e.usdc);
    PoolBudgetExceeded(t, m, ATOM, e.atom);
    DueIsBoth(t, m);
    AddExcess(t.totalShare, t.shares.usdc, t.shares.atom, t.incentives, Total(m, DueIn(t, USDC)), Total(m, DueIn(t, ATOM)), e.usdc, e.atom);
  }

  lemma AddExcess(totalShare: nat, usdc: nat, atom: nat, incentives: nat, a: int, b: int, e: int, f: int)
    requires totalShare > 0 && usdc + atom == totalShare && e + f > 0
    requires totalShare * a >= usdc * incentives + e && totalShare * b >= atom * incentives + f
    ensures a + b > incentives
  {
    Distribute(totalShare, a, b);
    Distribute(incentives, usdc, atom);
    Cancel(totalShare, a + b, incentives);
  }

  lemma DueIsBoth(t: RewardTerms, m: map<Key, Lockup>)
    ensures Total(m, DueAll(t)) == Total(m, DueIn(t, USDC)) + Total(m, DueIn(t, ATOM))
  {
    forall k | k in m
      ensures DueAll(t)(k, m[k]) == DueIn(t, USDC)(k, m[k]) + 1 * DueIn(t, ATOM)(k, m[k])
    {
    }
    TotalLinear(m, DueIn(t, USDC), DueIn(t, ATOM), 1, DueAll(t));
  }

  /** With a coefficient of one half the budget can be exceeded: one unit locked twice counts 1 + 1 in the pool but 3 in
      the position, which then earns 150 out of 100. */
  lemma BudgetCanBeExceeded()
    ensures var c := Config(0, 10, 10, 1, 1, 1, [RewardsInfo(1, ONE / 2)]);
            var pool := PoolInfo(0, 0, 0, 0, false);
            var zero := PerPool(0, 0);
            var x := State(c, 100, 0, PerPool(pool, pool), map[], map[], map[], Ledger(zero, zero, zero, zero, map[], zero, zero));
            var k := Key(USDC, 7, 1);
            && IncreaseLockup(x, 0, k, 1).Ok?
            && var x1 := IncreaseLockup(x, 0, k, 1).value;
            && IncreaseLockup(x1, 0, k, 1).Ok?
            && var x2 := IncreaseLockup(x1, 0, k, 1).value;
            && InitializePool(x2, USDC, 1, 2).Ok?
            && Due(Terms(InitializePool(x2, USDC, 1, 2).value), k, x2.lockups[k].units) == 150
  {
    var c := Config(0, 10, 10, 1, 1, 1, [RewardsInfo(1, ONE / 2)]);
    assert Multiplier(c.rewards, 1) == ONE + ONE / 2;
    assert Weight(c, 1, 1) == 1;
    assert Weight(c, 2, 1) == 3;
  }

  // One-time payments

  function DueTo(t: RewardTerms, u: Addr): (Key, Lockup) -> int {
    (k: Key, l: Lockup) => if k.user == u then Due(t, k, l.units) else 0
  }

  ghost function TotalDue(x: State, u: Addr): int {
    Total(x.lockups, DueTo(Terms(x), u))
  }

  /** The payments a user has received once the one-time reward was sent; a reward of zero is not sent. */
  ghost predicate PaidExactly(x: State, u: Addr, due: int) {
    due >= 0 && x.Payments(u) == if due == 0 then [] else [due as nat]
  }

  /** A recorded reward is the one that is due, and who is marked as paid has received exactly the sum of the rewards
      due for all positions, and nobody else anything. */
  ghost predicate OneTimeInv(x: State) {
    && (forall k :: k in x.lockups ==> x.lockups[k].ntrnRewards == 0 || x.lockups[k].ntrnRewards == Due(Terms(x), k, x.lockups[k].units))
    && (forall u :: u in x.users ==> x.users[u].totalRewards == 0 || x.users[u].totalRewards == TotalDue(x, u))
    && (forall u :: if x.User(u).ntrnTransferred then PaidExactly(x, u, TotalDue(x, u)) else x.Payments(u) == [])
  }

  /** Nothing was claimed yet. */
  ghost predicate Unclaimed(x: State) {
    && (forall k :: k in x.lockups ==> x.lockups[k].ntrnRewards == 0)
    && (forall u :: u in x.users ==> x.users[u].totalRewards == 0 && !x.users[u].ntrnTransferred)
    && x.ledger.oneTime == map[]
  }

  lemma UnclaimedIsFine(x: State)
    requires Unclaimed(x)
    ensures OneTimeInv(x)
  {
  }

  /** Steps that change neither the terms, nor units and recorded rewards, nor users and payments. */
  lemma SameRewardsKeepOneTime(x: State, x': State)
    requires OneTimeInv(x) && Terms(x') == Terms(x) && x.lockups.Keys == x'.lockups.Keys
    requires forall k :: k in x.lockups ==> x.lockups[k].units == x'.lockups[k].units && x.lockups[k].ntrnRewards == x'.lockups[k].ntrnRewards
    requires x'.users == x.users && x'.ledger.oneTime == x.ledger.oneTime
    ensures OneTimeInv(x')
    ensures forall u :: TotalDue(x', u) == TotalDue(x, u)
  {
    forall u
      ensures TotalDue(x', u) == TotalDue(x, u)
    {
      SameUnitsSameDue(Terms(x), x.lockups, x'.lockups, u);
    }
    forall u
      ensures if x'.User(u).ntrnTransferred then PaidExactly(x', u, TotalDue(x', u)) else x'.Payments(u) == []
    {
      assert x.User(u) == x'.User(u) && x.Payments(u) == x'.Payments(u);
    }
  }

  lemma SameUnitsSameDue(t: RewardTerms, m: map<Key, Lockup>, n: map<Key, Lockup>, u: Addr)
    requires m.Keys == n.Keys && forall k :: k in m ==> m[k].units == n[k].units
    ensures Total(m, DueTo(t, u)) == Total(n, DueTo(t, u))
  {
    forall k | k in m
      ensures DueTo(t, u)(k, m[k]) == DueTo(t, u)(k, n[k])
    {
      assert m[k].units == n[k].units;
    }
    TotalSame(m, DueTo(t, u), n, DueTo(t, u));
  }

  /** Finalizing a user's rewards records exactly what is due. */
  lemma FinalizeKeepsOneTime(x: State, u: Addr)
    requires OneTimeInv(x) && FinalizeRewards(x, u).Ok?
    ensures var x' := FinalizeRewards(x, u).value;
            OneTimeInv(x') && u in x'.users && x'.users[u].totalRewards == TotalDue(x', u)
  {
    var x' := FinalizeRewards(x, u).value;
    var t := Terms(x);
    if x.users[u].totalRewards == 0 {
      forall k | k in x'.lockups
        ensures UserRewards(u)(k, x'.lockups[k]) == DueTo(t, u)(k, x'.lockups[k])
      {
      }
      TotalSame(x'.lockups, UserRewards(u), x'.lockups, DueTo(t, u));
      forall v
        ensures TotalDue(x', v) == TotalDue(x, v)
      {
        SameUnitsSameDue(t, x.lockups, x'.lockups, v);
      }
      forall v
        ensures if x'.User(v).ntrnTransferred then PaidExactly(x', v, TotalDue(x', v)) else x'.Payments(v) == []
      {
        assert x.User(v).ntrnTransferred == x'.User(v).ntrnTransferred && x.Payments(v) == x'.Payments(v);
      }
    }
  }

  /** The one-time payment to a user whose total is recorded is what is due. */
  lemma PayOneTimeKeepsOneTime(x: State, u: Addr)
    requires OneTimeInv(x) && u in x.users && x.users[u].totalRewards == TotalDue(x, u)
    ensures var x' := PayOneTime(x, u);
            && OneTimeInv(x') && u in x'.users && x'.users[u].totalRewards == TotalDue(x', u) && x'.users[u].ntrnTransferred
  {
    var x' := PayOneTime(x, u);
    assert x'.lockups == x.lockups && Terms(x') == Terms(x);
    forall v
      ensures TotalDue(x', v) == TotalDue(x, v)
      ensures if x'.User(v).ntrnTransferred then PaidExactly(x', v, TotalDue(x', v)) else x'.Payments(v) == []
    {
      if v != u {
        assert x.User(v) == x'.User(v) && x.Payments(v) == x'.Payments(v);
      }
    }
  }

  lemma ClaimKeepsOneTime(x: State, now: nat, k: Key, withdraw: bool, pending: Option<nat>)
    requires OneTimeInv(x) && Claim(x, now, k, withdraw, pending).Ok?
    ensures OneTimeInv(Claim(x, now, k, withdraw, pending).value)
  {
    FinalizeKeepsOneTime(x, k.user);
    var x1 := FinalizeRewards(x, k.user).value;
    var x2 := if x1.pools.Get(k.pool).isStaked then Accrue(x1, k.pool, pending).value else x1;
    SameRewardsKeepOneTime(x1, x2);
    WithdrawRewardsKeepsOneTime(x2, k, withdraw);
  }

  lemma WithdrawRewardsKeepsOneTime(x: State, k: Key, withdraw: bool)
    requires OneTimeInv(x) && k.user in x.users && x.users[k.user].totalRewards == TotalDue(x, k.user)
    requires k in x.lockups && WithdrawRewards(x, k, withdraw).Ok?
    ensures OneTimeInv(WithdrawRewards(x, k, withdraw).value)
  {
    var x' := BeforeOneTime(x, k, withdraw);
    SameRewardsKeepOneTime(x, x');
    PayOneTimeKeepsOneTime(x', k.user);
  }

  /** The state in which the claim callback makes the one-time payment. */
  lemma BeforeOneTime(x: State, k: Key, withdraw: bool) returns (x': State)
    requires k in x.lockups && WithdrawRewards(x, k, withdraw).Ok?
    ensures WithdrawRewards(x, k, withdraw).value == PayOneTime(x', k.user)
    ensures Terms(x') == Terms(x) && x'.users == x.users && x'.ledger.oneTime == x.ledger.oneTime && x'.lockups.Keys == x.lockups.Keys
    ensures forall j :: j in x.lockups ==> x.lockups[j].units == x'.lockups[j].units && x.lockups[j].ntrnRewards == x'.lockups[j].ntrnRewards
  {
    var lp := LpShare(x, k.pool, x.lockups[k].units).value;
    if x.pools.Get(k.pool).isStaked {
      x' := SetDebt(PayPending(x, k, lp).value.0, k, MulFloor(x.pools.Get(k.pool).perShare, lp));
      if withdraw {
        x' := Close(Unstake(x', k.pool, lp).value, k, lp).value;
      }
    } else if withdraw {
      x' := Close(SendUnstaked(x, k.pool, lp).value, k, lp).value;
    } else {
      x' := x;
    }
  }

  lemma MigrateKeepsOneTime(x: State, k: Key, pending: Option<nat>)
    requires OneTimeInv(x) && k.user in x.users && x.users[k.user].totalRewards == TotalDue(x, k.user)
    requires k in x.lockups && MigratePosition(x, k, pending).Ok?
    ensures var x' := MigratePosition(x, k, pending).value;
            && OneTimeInv(x') && k.user in x'.users && x'.users[k.user].totalRewards == TotalDue(x', k.user) && x'.users[k.user].ntrnTransferred
  {
    var x' := BeforeMigrationPayment(x, k, pending);
    SameRewardsKeepOneTime(x, x');
    PayOneTimeKeepsOneTime(x', k.user);
  }

  /** The same for a migration. */
  lemma BeforeMigrationPayment(x: State, k: Key, pending: Option<nat>) returns (x': State)
    requires k in x.lockups && MigratePosition(x, k, pending).Ok?
    ensures MigratePosition(x, k, pending).value == PayOneTime(x', k.user)
    ensures Terms(x') == Terms(x) && x'.users == x.users && x'.ledger.oneTime == x.ledger.oneTime && x'.lockups.Keys == x.lockups.Keys
    ensures forall j :: j in x.lockups ==> x.lockups[j].units == x'.lockups[j].units && x.lockups[j].ntrnRewards == x'.lockups[j].ntrnRewards
  {
    var x1 := Accrue(x, k.pool, pending).value;
    assert x1.lockups == x.lockups && x1.users == x.users && x1.ledger.oneTime == x.ledger.oneTime && Terms(x1) == Terms(x);
    assert MigratePosition(x, k, pending) == MigratePosition(x1, k, None);
    var lp := LpShare(x1, k.pool, x1.lockups[k].units).value;
    MigrateCloses(x1, k, lp);
    PayAndCloseFrame(x1, k, lp);
    x' := PayAndClose(x1, k, lp).value;
  }

  lemma PayAndCloseFrame(x: State, k: Key, lp: nat)
    requires k in x.lockups && PayAndClose(x, k, lp).Ok?
    ensures var x' := PayAndClose(x, k, lp).value;
            && Terms(x') == Terms(x) && x'.users == x.users && x'.ledger.oneTime == x.ledger.oneTime
            && x'.lockups == x.lockups[k := x.lockups[k].(transferred := Some(lp))]
  {
  }

  // All payments together

  function DueToAny(t: RewardTerms, users: set<Addr>): (Key, Lockup) -> int {
    (k: Key, l: Lockup) => if k.user in users then Due(t, k, l.units) else 0
  }

  function FirstPayment(): (Addr, seq<nat>) -> int {
    (u: Addr, s: seq<nat>) => if |s| == 1 then s[0] else 0
  }

  lemma {:induction false} PaymentsWithinDues(t: RewardTerms, m: map<Key, Lockup>, paid: map<Addr, seq<nat>>)
    requires forall u :: u in paid ==> FirstPayment()(u, paid[u]) <= Total(m, DueTo(t, u))
    ensures Total(paid, FirstPayment()) <= Total(m, DueToAny(t, paid.Keys))
    decreases |paid|
  {
    if paid == map[] {
      forall k | k in m
        ensures DueToAny(t, {})(k, m[k]) == DueToAny(t, {})(k, m[k]) + 1 * DueToAny(t, {})(k, m[k])
      {
      }
      TotalLinear(m, DueToAny(t, {}), DueToAny(t, {}), 1, DueToAny(t, {}));
    } else {
      var u :| u in paid;
      TotalSplit(paid, FirstPayment(), u);
      PaymentsWithinDues(t, m, paid - {u});
      var rest := (paid - {u}).Keys;
      forall k | k in m
        ensures DueToAny(t, paid.Keys)(k, m[k]) == DueToAny(t, rest)(k, m[k]) + 1 * DueTo(t, u)(k, m[k])
      {
      }
      TotalLinear(m, DueToAny(t, rest), DueTo(t, u), 1, DueToAny(t, paid.Keys));
    }
  }

  /** When the budget covers what is due, the payments made so far are within the incentives. */
  lemma PaymentsWithinIncentives(x: State)
    requires OneTimeInv(x) && Total(x.lockups, DueAll(Terms(x))) <= x.incentives
    ensures Total(x.ledger.oneTime, FirstPayment()) <= x.incentives
  {
    var t, paid := Terms(x), x.ledger.oneTime;
    forall u | u in paid
      ensures FirstPayment()(u, paid[u]) <= Total(x.lockups, DueTo(t, u))
    {
      forall k | k in x.lockups
        ensures DueTo(t, u)(k, x.lockups[k]) >= 0
      {
      }
      TotalNonNeg(x.lockups, DueTo(t, u));
      assert x.Payments(u) == paid[u];
      assert if x.User(u).ntrnTransferred then PaidExactly(x, u, TotalDue(x, u)) else x.Payments(u) == [];
    }
    PaymentsWithinDues(t, x.lockups, paid);
    forall k | k in x.lockups
      ensures DueToAny(t, paid.Keys)(k, x.lockups[k]) <= DueAll(t)(k, x.lockups[k])
    {
    }
    TotalMono(x.lockups, DueToAny(t, paid.Keys), x.lockups, DueAll(t));
  }
}

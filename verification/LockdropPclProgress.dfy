/** When a claim in the PCL lockdrop succeeds, and what it spreads and pays: as in the XYK lockdrop only checks that can be made
    before the call are left. */
module LockdropPclProgress {
  import opened Basics
  import opened FixedPoint
  import opened Sums
  import opened RestrictedVector
  import opened LockdropPcl
  import opened LockdropPclSolvency
  import RewardFairness
  import XykProgress = LockdropXykProgress

  // Rewards arrive

  /** All that a list of received rewards has of token t. */
  function Listed(rewards: seq<(Token, nat)>, t: Token): nat {
    if rewards == [] then 0 else (if rewards[0].0 == t then rewards[0].1 else 0) + Listed(rewards[1..], t)
  }

  /** What the list adds to the reward of token t per LP token. */
  function Gains(rewards: seq<(Token, nat)>, staked: nat, t: Token): nat
    requires staked > 0
  {
    if rewards == [] then 0 else (if rewards[0].0 == t then Ratio(rewards[0].1, staked) else 0) + Gains(rewards[1..], staked, t)
  }

  lemma {:induction false} IncreaseSucceeds(v: Vec<Token>, key: Token, value: nat)
    requires value <= U128_MAX
    ensures Increase(v, key, value).Ok? <==> Load(v, key) == None || Amount(v, key) + value <= U128_MAX
  {
    if v != [] && v[0].0 != key {
      IncreaseSucceeds(v[1..], key, value);
    }
  }

  /** The sums per LP token stay within 128 bits for all listed tokens. */
  predicate Spreads(c: State, p: Pool, rewards: seq<(Token, nat)>) {
    var staked := c.ledger.staked.Get(p);
    staked > 0 && forall i :: 0 <= i < |rewards| ==> PerShare(c, p, rewards[i].0) + Gains(rewards, staked, rewards[i].0) <= U128_MAX
  }

  lemma AccrueTokenAdds(c: State, p: Pool, s: Token, received: nat, t: Token)
    requires AccrueToken(c, p, s, received).Ok?
    ensures var c', staked := AccrueToken(c, p, s, received).value, c.ledger.staked.Get(p);
            && staked > 0 && c'.ledger.staked == c.ledger.staked
            && PerShare(c', p, t) == PerShare(c, p, t) + (if s == t then Ratio(received, staked) else 0)
            && c'.Received(p, t) == c.Received(p, t) + (if s == t then received else 0)
  {
    IncreaseAdds(c.pools.Get(p).perShare, s, Ratio(received, c.ledger.staked.Get(p)), t);
  }

  /** Every entry of the list is spread over the staked LP tokens, and nothing else changes. */
  lemma {:induction false} AccrueTokensAdd(c: State, p: Pool, rewards: seq<(Token, nat)>, t: Token)
    requires AccrueTokens(c, p, rewards).Ok? && c.ledger.staked.Get(p) > 0
    ensures var c' := AccrueTokens(c, p, rewards).value;
            && PerShare(c', p, t) == PerShare(c, p, t) + Gains(rewards, c.ledger.staked.Get(p), t)
            && c'.Received(p, t) == c.Received(p, t) + Listed(rewards, t)
    decreases |rewards|
  {
    if rewards != [] {
      AccrueTokenAdds(c, p, rewards[0].0, rewards[0].1, t);
      AccrueTokensAdd(AccrueToken(c, p, rewards[0].0, rewards[0].1).value, p, rewards[1..], t);
    }
  }

  lemma {:induction false} NothingGained(rewards: seq<(Token, nat)>, staked: nat, t: Token)
    requires staked > 0 && forall i :: 0 <= i < |rewards| ==> rewards[i].1 == 0
    ensures Gains(rewards, staked, t) == 0 && Listed(rewards, t) == 0
  {
    if rewards != [] {
      assert forall i :: 0 <= i < |rewards[1..]| ==> rewards[1..][i] == rewards[i + 1];
      assert Ratio(0, staked) == 0;
      NothingGained(rewards[1..], staked, t);
    }
  }

  /** A claim of pending rewards receives and spreads everything that is listed, whether it lists zeros or not. */
  lemma AccrueAdds(c: State, p: Pool, rewards: seq<(Token, nat)>, t: Token)
    requires Accrue(c, p, rewards).Ok? && c.ledger.staked.Get(p) > 0
    ensures var c' := Accrue(c, p, rewards).value;
            && PerShare(c', p, t) == PerShare(c, p, t) + Gains(rewards, c.ledger.staked.Get(p), t)
            && c'.Received(p, t) == c.Received(p, t) + Listed(rewards, t)
  {
    if exists i :: 0 <= i < |rewards| && rewards[i].1 != 0 {
      AccrueTokensAdd(c, p, rewards, t);
    } else {
      NothingGained(rewards, c.ledger.staked.Get(p), t);
    }
  }

  lemma AccrueTokenSucceeds(c: State, p: Pool, s: Token, received: nat)
    requires c.ledger.staked.Get(p) > 0
    ensures AccrueToken(c, p, s, received).Ok? <==> PerShare(c, p, s) + Ratio(received, c.ledger.staked.Get(p)) <= U128_MAX
  {
    var gain := Ratio(received, c.ledger.staked.Get(p));
    if gain <= U128_MAX {
      IncreaseSucceeds(c.pools.Get(p).perShare, s, gain);
    }
  }

  lemma {:induction false} AccrueTokensSucceed(c: State, p: Pool, rewards: seq<(Token, nat)>)
    requires c.ledger.staked.Get(p) > 0
    ensures AccrueTokens(c, p, rewards).Ok? <==> Spreads(c, p, rewards)
    decreases |rewards|
  {
    if rewards != [] {
      var s, received := rewards[0].0, rewards[0].1;
      AccrueTokenSucceeds(c, p, s, received);
      if AccrueToken(c, p, s, received).Ok? {
        AccrueTokensSucceed(AccrueToken(c, p, s, received).value, p, rewards[1..]);
        RestSpreads(c, AccrueToken(c, p, s, received).value, p, rewards);
      } else {
        assert !Spreads(c, p, rewards) by {
          assert Gains(rewards, c.ledger.staked.Get(p), rewards[0].0) >= Ratio(received, c.ledger.staked.Get(p));
        }
      }
    }
  }

  lemma RestSpreads(c: State, c1: State, p: Pool, rewards: seq<(Token, nat)>)
    requires rewards != [] && AccrueToken(c, p, rewards[0].0, rewards[0].1) == Ok(c1)
    ensures Spreads(c, p, rewards) <==> Spreads(c1, p, rewards[1..])
  {
    var staked, rest := c.ledger.staked.Get(p), rewards[1..];
    forall t
      ensures PerShare(c1, p, t) == PerShare(c, p, t) + (if rewards[0].0 == t then Ratio(rewards[0].1, staked) else 0)
      ensures PerShare(c, p, t) + Gains(rewards, staked, t) == PerShare(c1, p, t) + Gains(rest, staked, t)
    {
      AccrueTokenAdds(c, p, rewards[0].0, rewards[0].1, t);
    }
    if Spreads(c, p, rewards) {
      forall i | 0 <= i < |rest|
        ensures PerShare(c1, p, rest[i].0) + Gains(rest, staked, rest[i].0) <= U128_MAX
      {
        assert rest[i] == rewards[i + 1];
      }
    }
    if Spreads(c1, p, rest) {
      forall i | 0 <= i < |rewards|
        ensures PerShare(c, p, rewards[i].0) + Gains(rewards, staked, rewards[i].0) <= U128_MAX
      {
        FirstSpreads(c, c1, p, rewards, i);
      }
    }
  }

  lemma FirstSpreads(c: State, c1: State, p: Pool, rewards: seq<(Token, nat)>, i: nat)
    requires i < |rewards| && AccrueToken(c, p, rewards[0].0, rewards[0].1) == Ok(c1) && Spreads(c1, p, rewards[1..])
    ensures c.ledger.staked.Get(p) > 0 && PerShare(c, p, rewards[i].0) + Gains(rewards, c.ledger.staked.Get(p), rewards[i].0) <= U128_MAX
  {
    var rest, t := rewards[1..], rewards[i].0;
    AccrueTokenAdds(c, p, rewards[0].0, rewards[0].1, t);
    assert i > 0 ==> rest[i - 1].0 == t;
    if j :| 0 <= j < |rest| && rest[j].0 == t {
      assert PerShare(c1, p, rest[j].0) + Gains(rest, c.ledger.staked.Get(p), rest[j].0) <= U128_MAX;
    } else {
      NotGained(rest, c.ledger.staked.Get(p), t);
      AccrueTokenSucceeds(c, p, rewards[0].0, rewards[0].1);
    }
  }

  lemma {:induction false} NotGained(rewards: seq<(Token, nat)>, staked: nat, t: Token)
    requires staked > 0 && forall i :: 0 <= i < |rewards| ==> rewards[i].0 != t
    ensures Gains(rewards, staked, t) == 0
  {
    if rewards != [] {
      assert forall i :: 0 <= i < |rewards[1..]| ==> rewards[1..][i] == rewards[i + 1];
      NotGained(rewards[1..], staked, t);
    }
  }

  predicate AnyPending(rewards: seq<(Token, nat)>) {
    exists i :: 0 <= i < |rewards| && rewards[i].1 != 0
  }

  lemma AccrueSucceeds(c: State, p: Pool, rewards: seq<(Token, nat)>)
    requires c.ledger.staked.Get(p) > 0
    ensures Accrue(c, p, rewards).Ok? <==> (AnyPending(rewards) ==> Spreads(c, p, rewards))
  {
    AccrueTokensSucceed(c, p, rewards);
  }

  // Rewards leave

  /** What every reachable state gives for an open position. */
  ghost predicate Sound(c: State, k: Key) {
    && PoolInv(c, k.pool) && UserTotalsInv(c) && (forall t :: TokenInv(c, k.pool, t))
    && k in c.lockups && Open(c.lockups[k])
  }

  lemma UnitsAreThere(c: State, k: Key)
    requires Sound(c, k)
    ensures c.lockups[k].units <= c.pools.Get(k.pool).amountInLockups && c.lockups[k].units <= c.UserTotal(k.pool, k.user)
  {
    forall j | j in c.lockups
      ensures OpenUnits(k.pool)(j, c.lockups[j]) >= 0
    {
      assert c.lockups[j].units >= 0;
    }
    TotalNonNeg(c.lockups, OpenUnits(k.pool));
    UserUnitsNonNeg(c, k.pool, k.user);
    assert OpenUnits(k.pool)(k, c.lockups[k]) == UserUnits(k.pool, k.user)(k, c.lockups[k]) == c.lockups[k].units;
    assert c.UserTotal(k.pool, k.user) == Total(c.lockups, UserUnits(k.pool, k.user));
  }

  lemma LpShareSucceeds(c: State, k: Key)
    requires Sound(c, k)
    ensures LpShare(c, k.pool, c.lockups[k].units).Ok? <==> c.pools.Get(k.pool).amountInLockups > 0 && c.lockups[k].units <= U128_MAX
    ensures LpShare(c, k.pool, c.lockups[k].units).Ok? ==> LpShare(c, k.pool, c.lockups[k].units) == Ok(c.lockups[k].units)
  {
    if c.pools.Get(k.pool).amountInLockups > 0 {
      MulDivCancel(c.lockups[k].units, c.pools.Get(k.pool).amountInLockups);
    }
  }

  function Debt(c: State, k: Key, t: Token): nat
    requires k in c.lockups
  {
    Amount(c.lockups[k].debts, t)
  }

  /** What a position has earned of a token can be computed in 128 bits, if there is a reward of it at all. */
  predicate Payable128(perShare: nat, units: nat) {
    perShare == 0 || XykProgress.Fits(perShare, units)
  }

  lemma PayTokenSucceeds(c: State, k: Key, t: Token)
    requires TokenInv(c, k.pool, t) && k in c.lockups && Open(c.lockups[k])
    ensures var units, r := c.lockups[k].units, PayToken(c, k, c.lockups[k].units, t);
            && (r.Ok? <==> Payable128(PerShare(c, k.pool, t), units))
            && (r.Ok? ==> r.value.1 == MulFloor(PerShare(c, k.pool, t), units) - Debt(c, k, t))
  {
    var units, perShare := c.lockups[k].units, PerShare(c, k.pool, t);
    PayTokenSettles(c, k, t);
    if perShare == 0 {
      assert MulFloor(0, units) == 0;
    } else if XykProgress.Fits(perShare, units) {
      MulFloorBounds(perShare, units);
      IncreaseSucceeds(c.lockups[k].debts, t, MulFloor(perShare, units) - Debt(c, k, t));
    }
  }

  /** Something is owed to position k of one of the tokens. */
  predicate Owed(c: State, k: Key, tokens: seq<Token>)
    requires k in c.lockups
  {
    exists i :: 0 <= i < |tokens| && Debt(c, k, tokens[i]) < MulFloor(PerShare(c, k.pool, tokens[i]), c.lockups[k].units)
  }

  predicate AllPayable(c: State, k: Key, tokens: seq<Token>)
    requires k in c.lockups
  {
    forall i :: 0 <= i < |tokens| ==> Payable128(PerShare(c, k.pool, tokens[i]), c.lockups[k].units)
  }

  lemma PayTokenFrame(c: State, k: Key, s: Token)
    requires k in c.lockups && PayToken(c, k, c.lockups[k].units, s).Ok?
    ensures var c' := PayToken(c, k, c.lockups[k].units, s).value.0;
            && k in c'.lockups && c'.pools == c.pools && c'.userTotals == c.userTotals
            && c'.lockups == c.lockups[k := c.lockups[k].(debts := c'.lockups[k].debts)]
  {
  }

  lemma PaidDebts(c: State, k: Key, s: Token, t: Token)
    requires TokenInv(c, k.pool, s) && k in c.lockups && Open(c.lockups[k]) && PayToken(c, k, c.lockups[k].units, s).Ok?
    ensures var c' := PayToken(c, k, c.lockups[k].units, s).value.0;
            && k in c'.lockups
            && Debt(c', k, t) == if t == s then MulFloor(PerShare(c, k.pool, s), c.lockups[k].units) else Debt(c, k, t)
  {
    PayTokenSettles(c, k, s);
    if PerShare(c, k.pool, s) == 0 {
      assert MulFloor(0, c.lockups[k].units) == 0;
    } else {
      IncreaseAdds(c.lockups[k].debts, s, MulFloor(PerShare(c, k.pool, s), c.lockups[k].units) - Debt(c, k, s), t);
    }
  }

  lemma PaidFrame(c: State, k: Key, s: Token)
    requires Sound(c, k) && PayToken(c, k, c.lockups[k].units, s).Ok?
    ensures var c' := PayToken(c, k, c.lockups[k].units, s).value.0;
            && Sound(c', k) && c'.pools == c.pools && c'.lockups[k].units == c.lockups[k].units
            && Debt(c', k, s) == MulFloor(PerShare(c, k.pool, s), c.lockups[k].units)
            && (forall t :: t != s ==> Debt(c', k, t) == Debt(c, k, t))
  {
    var c' := PayToken(c, k, c.lockups[k].units, s).value.0;
    PayTokenFrame(c, k, s);
    SamePositionsKeepUserTotals(c, c');
    PayTokenKeepsPool(c, k, c.lockups[k].units, s, k.pool);
    forall t
      ensures TokenInv(c', k.pool, t)
      ensures Debt(c', k, t) == if t == s then MulFloor(PerShare(c, k.pool, s), c.lockups[k].units) else Debt(c, k, t)
    {
      assert TokenInv(c, k.pool, t) && TokenInv(c, k.pool, s);
      assert Payable(c, k, c.lockups[k].units, k.pool, t);
      PayTokenKeeps(c, k, c.lockups[k].units, s, k.pool, t);
      PaidDebts(c, k, s, t);
    }
  }

  /** All listed tokens are paid exactly if each can be, and something is paid exactly if something is owed. */
  lemma {:induction false} PayTokensSucceed(c: State, k: Key, tokens: seq<Token>)
    requires Sound(c, k)
    ensures var r := PayTokens(c, k, c.lockups[k].units, tokens);
            && (r.Ok? <==> AllPayable(c, k, tokens))
            && (r.Ok? ==> (r.value.1 > 0 <==> Owed(c, k, tokens)))
    decreases |tokens|
  {
    if tokens != [] {
      assert TokenInv(c, k.pool, tokens[0]);
      PayTokenSucceeds(c, k, tokens[0]);
      if PayToken(c, k, c.lockups[k].units, tokens[0]).Ok? {
        var c1 := PayToken(c, k, c.lockups[k].units, tokens[0]).value.0;
        PaidFrame(c, k, tokens[0]);
        PayTokensSucceed(c1, k, tokens[1..]);
        RestPayable(c, c1, k, tokens);
        RestOwed(c, c1, k, tokens);
      }
    }
  }

  lemma RestPayable(c: State, c1: State, k: Key, tokens: seq<Token>)
    requires tokens != [] && k in c.lockups && k in c1.lockups && c1.pools == c.pools && c1.lockups[k].units == c.lockups[k].units
    ensures AllPayable(c, k, tokens) <==> Payable128(PerShare(c, k.pool, tokens[0]), c.lockups[k].units) && AllPayable(c1, k, tokens[1..])
  {
    if Payable128(PerShare(c, k.pool, tokens[0]), c.lockups[k].units) && AllPayable(c1, k, tokens[1..]) {
      forall i | 0 <= i < |tokens|
        ensures Payable128(PerShare(c, k.pool, tokens[i]), c.lockups[k].units)
      {
        assert i > 0 ==> tokens[i] == tokens[1..][i - 1];
      }
    }
  }

  lemma RestOwed(c: State, c1: State, k: Key, tokens: seq<Token>)
    requires tokens != [] && k in c.lockups && k in c1.lockups && c1.pools == c.pools && c1.lockups[k].units == c.lockups[k].units
    requires Debt(c1, k, tokens[0]) == MulFloor(PerShare(c, k.pool, tokens[0]), c.lockups[k].units)
    requires forall t :: t != tokens[0] ==> Debt(c1, k, t) == Debt(c, k, t)
    ensures Owed(c, k, tokens) <==>
            Debt(c, k, tokens[0]) < MulFloor(PerShare(c, k.pool, tokens[0]), c.lockups[k].units) || Owed(c1, k, tokens[1..])
  {
    var rest := tokens[1..];
    if Owed(c, k, tokens) {
      var i :| 0 <= i < |tokens| && Debt(c, k, tokens[i]) < MulFloor(PerShare(c, k.pool, tokens[i]), c.lockups[k].units);
      if tokens[i] != tokens[0] {
        assert rest[i - 1] == tokens[i];
      }
    }
    if Owed(c1, k, rest) {
      var i :| 0 <= i < |rest| && Debt(c1, k, rest[i]) < MulFloor(PerShare(c1, k.pool, rest[i]), c1.lockups[k].units);
      assert rest[i] == tokens[i + 1] && rest[i] != tokens[0];
    }
  }

  // Positions close

  lemma CloseSucceeds(c: State, c1: State, k: Key)
    requires Sound(c, k) && c1.pools == c.pools && c1.userTotals == c.userTotals && c1.ledger.staked == c.ledger.staked && c1.ledger.unstaked == c.ledger.unstaked
    requires k in c1.lockups && c1.lockups[k].units == c.lockups[k].units
    ensures var units := c.lockups[k].units;
            && (c.pools.Get(k.pool).isStaked ==> UnlockStaked(c1, k, units).Ok?)
            && (!c.pools.Get(k.pool).isStaked ==>
                  SendUnstaked(c1, k.pool, units).Ok? && Close(SendUnstaked(c1, k.pool, units).value, k, units).Ok?)
  {
    UnitsAreThere(c, k);
  }

  /** The callback, when the rewards have arrived. */
  lemma WithdrawRewardsSucceeds(c: State, k: Key, withdraw: bool, tokens: seq<Token>)
    requires Sound(c, k)
    ensures var pool := c.pools.Get(k.pool);
            WithdrawRewards(c, k, withdraw, tokens).Ok? <==>
              && pool.amountInLockups > 0 && c.lockups[k].units <= U128_MAX
              && (pool.isStaked ==> AllPayable(c, k, tokens) && (withdraw || !c.User(k.user).ntrnTransferred || Owed(c, k, tokens)))
  {
    LpShareSucceeds(c, k);
    var units := c.lockups[k].units;
    if c.pools.Get(k.pool).isStaked {
      PayTokensSucceed(c, k, tokens);
      if PayTokens(c, k, units, tokens).Ok? {
        PayTokensFrame(c, k, units, tokens);
        CloseSucceeds(c, PayTokens(c, k, units, tokens).value.0, k);
      }
    } else {
      CloseSucceeds(c, c, k);
    }
  }

  // Claims

  /** The one-time rewards of u are recorded, or can be. */
  ghost predicate Recordable(c: State, u: Addr) {
    u in c.users && (c.users[u].totalRewards != 0 || Total(c.lockups, UserRewards(u)) <= U128_MAX)
  }

  /** The reward of token t per LP token, once the listed rewards have arrived. */
  function PerShareAfter(c: State, p: Pool, rewards: seq<(Token, nat)>, t: Token): nat
    requires c.ledger.staked.Get(p) > 0
  {
    PerShare(c, p, t) + Gains(rewards, c.ledger.staked.Get(p), t)
  }

  /** What position k has earned of token t by then. */
  function EarnedAfter(c: State, k: Key, rewards: seq<(Token, nat)>, t: Token): nat
    requires k in c.lockups && c.ledger.staked.Get(k.pool) > 0
  {
    MulFloor(PerShareAfter(c, k.pool, rewards, t), c.lockups[k].units)
  }

  /** The rewards can be spread, each listed token can be paid, and without unlock there is something to pay. */
  predicate CanPay(c: State, k: Key, withdraw: bool, rewards: seq<(Token, nat)>, tokens: seq<Token>)
    requires k in c.lockups && c.ledger.staked.Get(k.pool) > 0
  {
    && (AnyPending(rewards) ==> Spreads(c, k.pool, rewards))
    && (forall i :: 0 <= i < |tokens| ==> Payable128(PerShareAfter(c, k.pool, rewards, tokens[i]), c.lockups[k].units))
    && (|| withdraw || !c.User(k.user).ntrnTransferred
        || exists i :: 0 <= i < |tokens| && Debt(c, k, tokens[i]) < EarnedAfter(c, k, rewards, tokens[i]))
  }

  /** The checks of a claim, once the user's rewards are recorded. A pool that is not staked has nothing to spread or to pay. */
  predicate CanClaim(c: State, now: nat, k: Key, withdraw: bool, rewards: seq<(Token, nat)>, tokens: seq<Token>) {
    && k in c.lockups && Open(c.lockups[k]) && (withdraw ==> c.lockups[k].unlockTime <= now)
    && c.pools.Get(k.pool).amountInLockups > 0 && c.lockups[k].units <= U128_MAX
    && (c.pools.Get(k.pool).isStaked ==> c.ledger.staked.Get(k.pool) > 0 && CanPay(c, k, withdraw, rewards, tokens))
  }

  ghost predicate Books(c: State, p: Pool) {
    PoolInv(c, p) && UserTotalsInv(c) && forall t :: TokenInv(c, p, t)
  }

  lemma FinalizeSucceeds(c: State, k: Key)
    requires Books(c, k.pool)
    ensures FinalizeRewards(c, k.user).Ok? <==> Recordable(c, k.user)
    ensures FinalizeRewards(c, k.user).Ok? ==>
              var c1 := FinalizeRewards(c, k.user).value;
              && Books(c1, k.pool) && c1.pools == c.pools && c1.ledger == c.ledger && c1.lockups == c.lockups
              && c1.User(k.user).ntrnTransferred == c.User(k.user).ntrnTransferred
  {
    if FinalizeRewards(c, k.user).Ok? {
      var c1 := FinalizeRewards(c, k.user).value;
      SamePositionsKeepUserTotals(c, c1);
      forall t
        ensures PoolInv(c1, k.pool) && TokenInv(c1, k.pool, t)
      {
        assert TokenInv(c, k.pool, t);
        FinalizeKeeps(c, k.user, k.pool, t);
      }
      assert TokenInv(c, k.pool, 0) && TokenInv(c1, k.pool, 0);
    }
  }

  lemma AccrueKeepsBooks(c: State, p: Pool, rewards: seq<(Token, nat)>)
    requires Books(c, p) && Accrue(c, p, rewards).Ok?
    ensures var c2 := Accrue(c, p, rewards).value;
            && Books(c2, p) && c2.lockups == c.lockups && c2.users == c.users && c2.ledger.staked == c.ledger.staked
            && c2.pools.Get(p).isStaked == c.pools.Get(p).isStaked && c2.pools.Get(p).amountInLockups == c.pools.Get(p).amountInLockups
  {
    if AnyPending(rewards) {
      var c2 := AccrueTokens(c, p, rewards).value;
      AccrueTokensFrame(c, p, rewards);
      SamePositionsKeepUserTotals(c, c2);
      forall t
        ensures PoolInv(c2, p) && TokenInv(c2, p, t)
      {
        assert TokenInv(c, p, t);
        AccrueTokensKeep(c, p, rewards, p, t);
      }
      assert TokenInv(c2, p, 0);
    }
  }

  lemma CanPayAfter(c: State, c2: State, k: Key, withdraw: bool, rewards: seq<(Token, nat)>, tokens: seq<Token>)
    requires k in c.lockups && c.ledger.staked.Get(k.pool) > 0 && c2.lockups == c.lockups && c2.users == c.users
    requires forall t :: PerShare(c2, k.pool, t) == PerShareAfter(c, k.pool, rewards, t)
    requires AnyPending(rewards) ==> Spreads(c, k.pool, rewards)
    ensures AllPayable(c2, k, tokens) && (withdraw || !c2.User(k.user).ntrnTransferred || Owed(c2, k, tokens)) <==> CanPay(c, k, withdraw, rewards, tokens)
  {
    if Owed(c2, k, tokens) {
      var i :| 0 <= i < |tokens| && Debt(c2, k, tokens[i]) < MulFloor(PerShare(c2, k.pool, tokens[i]), c2.lockups[k].units);
      assert Debt(c, k, tokens[i]) < EarnedAfter(c, k, rewards, tokens[i]);
    }
    if i :| 0 <= i < |tokens| && Debt(c, k, tokens[i]) < EarnedAfter(c, k, rewards, tokens[i]) {
      assert Debt(c2, k, tokens[i]) < MulFloor(PerShare(c2, k.pool, tokens[i]), c2.lockups[k].units);
    }
  }

  /** The claim of a finalised user: the rewards arrive, and the callback pays them. */
  lemma FinalizedClaimSucceeds(c: State, k: Key, withdraw: bool, rewards: seq<(Token, nat)>, tokens: seq<Token>)
    requires Sound(c, k)
    ensures var pool := c.pools.Get(k.pool);
            var a := if pool.isStaked then Accrue(c, k.pool, rewards) else Ok(c);
            a.Ok? && k in a.value.lockups && WithdrawRewards(a.value, k, withdraw, tokens).Ok? <==>
              && pool.amountInLockups > 0 && c.lockups[k].units <= U128_MAX
              && (pool.isStaked ==> c.ledger.staked.Get(k.pool) > 0 && CanPay(c, k, withdraw, rewards, tokens))
  {
    var pool := c.pools.Get(k.pool);
    if !pool.isStaked || pool.amountInLockups == 0 {
      WithdrawRewardsSucceeds(c, k, withdraw, tokens);
    } else {
      AccrueSucceeds(c, k.pool, rewards);
    }
    if pool.isStaked && Accrue(c, k.pool, rewards).Ok? {
      var c2 := Accrue(c, k.pool, rewards).value;
      AccrueKeepsBooks(c, k.pool, rewards);
      WithdrawRewardsSucceeds(c2, k, withdraw, tokens);
      if pool.amountInLockups > 0 {
        forall t
          ensures PerShare(c2, k.pool, t) == PerShareAfter(c, k.pool, rewards, t)
        {
          AccrueAdds(c, k.pool, rewards, t);
        }
        CanPayAfter(c, c2, k, withdraw, rewards, tokens);
      }
    }
  }

  lemma ClaimAfterFinalize(c: State, now: nat, k: Key, withdraw: bool, rewards: seq<(Token, nat)>, tokens: seq<Token>)
    requires FinalizeRewards(c, k.user).Ok?
    ensures var c1 := FinalizeRewards(c, k.user).value;
            Claim(c, now, k, withdraw, rewards, tokens).Ok? <==>
              && k in c1.lockups && Open(c1.lockups[k]) && (withdraw ==> c1.lockups[k].unlockTime <= now)
              && var a := if c1.pools.Get(k.pool).isStaked then Accrue(c1, k.pool, rewards) else Ok(c1);
              a.Ok? && k in a.value.lockups && WithdrawRewards(a.value, k, withdraw, tokens).Ok?
    ensures Claim(c, now, k, withdraw, rewards, tokens).Ok? ==>
              var c1 := FinalizeRewards(c, k.user).value;
              var a := if c1.pools.Get(k.pool).isStaked then Accrue(c1, k.pool, rewards) else Ok(c1);
              a.Ok? && k in a.value.lockups && Claim(c, now, k, withdraw, rewards, tokens) == WithdrawRewards(a.value, k, withdraw, tokens)
  {
  }

  lemma FinalizeLeavesChecks(c: State, k: Key, withdraw: bool, rewards: seq<(Token, nat)>, tokens: seq<Token>)
    requires FinalizeRewards(c, k.user).Ok? && k in c.lockups && c.ledger.staked.Get(k.pool) > 0
    ensures var c1 := FinalizeRewards(c, k.user).value;
            && c1.lockups == c.lockups && c1.ledger == c.ledger
            && (CanPay(c1, k, withdraw, rewards, tokens) <==> CanPay(c, k, withdraw, rewards, tokens))
  {
    var c1 := FinalizeRewards(c, k.user).value;
    assert forall i :: 0 <= i < |tokens| ==>
      Debt(c1, k, tokens[i]) == Debt(c, k, tokens[i]) && EarnedAfter(c1, k, rewards, tokens[i]) == EarnedAfter(c, k, rewards, tokens[i]);
  }

  /** Exactly when a claim succeeds in a state with the invariants, with or without unlock. */
  lemma ClaimSucceeds(c: State, now: nat, k: Key, withdraw: bool, rewards: seq<(Token, nat)>, tokens: seq<Token>)
    requires Books(c, k.pool)
    ensures Claim(c, now, k, withdraw, rewards, tokens).Ok? <==> Recordable(c, k.user) && CanClaim(c, now, k, withdraw, rewards, tokens)
  {
    FinalizeSucceeds(c, k);
    if FinalizeRewards(c, k.user).Ok? {
      var c1 := FinalizeRewards(c, k.user).value;
      ClaimAfterFinalize(c, now, k, withdraw, rewards, tokens);
      if k in c.lockups && Open(c.lockups[k]) {
        FinalizedClaimSucceeds(c1, k, withdraw, rewards, tokens);
        if c.ledger.staked.Get(k.pool) > 0 {
          FinalizeLeavesChecks(c, k, withdraw, rewards, tokens);
        }
      }
    }
  }

  // What a claim pays

  lemma {:induction false} TokensPaid(c: State, k: Key, tokens: seq<Token>, t: Token)
    requires Sound(c, k) && PayTokens(c, k, c.lockups[k].units, tokens).Ok?
    ensures var c' := PayTokens(c, k, c.lockups[k].units, tokens).value.0;
            Debt(c', k, t) == if t in tokens then MulFloor(PerShare(c, k.pool, t), c.lockups[k].units) else Debt(c, k, t)
    decreases |tokens|
  {
    if tokens != [] {
      var c1 := PayToken(c, k, c.lockups[k].units, tokens[0]).value.0;
      PaidFrame(c, k, tokens[0]);
      TokensPaid(c1, k, tokens[1..], t);
    }
  }

  /** What a claim has done to token t: all that is listed of it was received and spread, and if the claim pays it, what the
      position has earned above its debt was paid and the debt is settled. An unlock has closed the position with just its
      units, and no other position has changed. */
  predicate Settled(c: State, c': State, k: Key, withdraw: bool, rewards: seq<(Token, nat)>, tokens: seq<Token>, t: Token) {
    && k in c.lockups && c.ledger.staked.Get(k.pool) > 0 && k in c'.lockups
    && Debt(c', k, t) == (if t in tokens then EarnedAfter(c, k, rewards, t) else Debt(c, k, t))
    && c'.Paid(k.pool, t) - c.Paid(k.pool, t) == Debt(c', k, t) - Debt(c, k, t)
    && c'.Received(k.pool, t) == c.Received(k.pool, t) + Listed(rewards, t)
    && PerShare(c', k.pool, t) == PerShareAfter(c, k.pool, rewards, t)
    && c'.lockups[k].transferred == (if withdraw then Some(c.lockups[k].units) else None)
    && OthersSame(c.lockups, c'.lockups, k)
  }

  predicate OthersSame(m: map<Key, Lockup>, n: map<Key, Lockup>, k: Key) {
    forall j :: j in m && j != k ==> j in n && n[j] == m[j]
  }

  /** The part of the callback in it. */
  predicate Paid(c: State, c': State, k: Key, withdraw: bool, tokens: seq<Token>, t: Token) {
    && k in c.lockups && k in c'.lockups
    && Debt(c', k, t) == (if t in tokens then MulFloor(PerShare(c, k.pool, t), c.lockups[k].units) else Debt(c, k, t))
    && c'.Paid(k.pool, t) - c.Paid(k.pool, t) == Debt(c', k, t) - Debt(c, k, t)
    && c'.Received(k.pool, t) == c.Received(k.pool, t)
    && PerShare(c', k.pool, t) == PerShare(c, k.pool, t)
    && c'.lockups[k].transferred == (if withdraw then Some(c.lockups[k].units) else None)
    && OthersSame(c.lockups, c'.lockups, k)
  }

  lemma SettledInSteps(c: State, c2: State, c': State, k: Key, withdraw: bool, rewards: seq<(Token, nat)>, tokens: seq<Token>, t: Token)
    requires c.ledger.staked.Get(k.pool) > 0 && c2.lockups == c.lockups && c2.Paid(k.pool, t) == c.Paid(k.pool, t)
    requires PerShare(c2, k.pool, t) == PerShareAfter(c, k.pool, rewards, t) && c2.Received(k.pool, t) == c.Received(k.pool, t) + Listed(rewards, t)
    requires Paid(c2, c', k, withdraw, tokens, t)
    ensures Settled(c, c', k, withdraw, rewards, tokens, t)
  {
  }

  lemma AccruedClaimPays(c: State, k: Key, withdraw: bool, rewards: seq<(Token, nat)>, tokens: seq<Token>, t: Token)
    requires Sound(c, k) && c.pools.Get(k.pool).isStaked && c.pools.Get(k.pool).amountInLockups > 0 && Accrue(c, k.pool, rewards).Ok?
    requires var c2 := Accrue(c, k.pool, rewards).value; k in c2.lockups && WithdrawRewards(c2, k, withdraw, tokens).Ok?
    ensures Settled(c, WithdrawRewards(Accrue(c, k.pool, rewards).value, k, withdraw, tokens).value, k, withdraw, rewards, tokens, t)
  {
    var c2 := Accrue(c, k.pool, rewards).value;
    AccrueAdds(c, k.pool, rewards, t);
    AccrueKeepsBooks(c, k.pool, rewards);
    AccrueLeavesPaid(c, k.pool, rewards, t);
    CallbackPays(c2, k, withdraw, tokens, t);
    SettledInSteps(c, c2, WithdrawRewards(c2, k, withdraw, tokens).value, k, withdraw, rewards, tokens, t);
  }

  lemma AccrueLeavesPaid(c: State, p: Pool, rewards: seq<(Token, nat)>, t: Token)
    requires Accrue(c, p, rewards).Ok?
    ensures Accrue(c, p, rewards).value.Paid(p, t) == c.Paid(p, t)
  {
    if AnyPending(rewards) {
      AccrueTokensFrame(c, p, rewards);
    }
  }

  lemma SettledFromFinalized(c: State, c1: State, c': State, k: Key, withdraw: bool, rewards: seq<(Token, nat)>, tokens: seq<Token>, t: Token)
    requires c1.pools == c.pools && c1.ledger == c.ledger && c1.lockups == c.lockups && Settled(c1, c', k, withdraw, rewards, tokens, t)
    ensures Settled(c, c', k, withdraw, rewards, tokens, t)
  {
  }

  /** In a staked pool a claim settles every listed token and leaves the others alone. */
  lemma ClaimPays(c: State, now: nat, k: Key, withdraw: bool, rewards: seq<(Token, nat)>, tokens: seq<Token>, t: Token)
    requires Books(c, k.pool) && c.pools.Get(k.pool).isStaked && Claim(c, now, k, withdraw, rewards, tokens).Ok?
    ensures Settled(c, Claim(c, now, k, withdraw, rewards, tokens).value, k, withdraw, rewards, tokens, t)
  {
    ClaimSucceeds(c, now, k, withdraw, rewards, tokens);
    FinalizeSucceeds(c, k);
    var c1 := FinalizeRewards(c, k.user).value;
    AccruedClaimPays(c1, k, withdraw, rewards, tokens, t);
    SettledFromFinalized(c, c1, Claim(c, now, k, withdraw, rewards, tokens).value, k, withdraw, rewards, tokens, t);
  }

  lemma CallbackPays(c: State, k: Key, withdraw: bool, tokens: seq<Token>, t: Token)
    requires Sound(c, k) && c.pools.Get(k.pool).isStaked && WithdrawRewards(c, k, withdraw, tokens).Ok?
    ensures Paid(c, WithdrawRewards(c, k, withdraw, tokens).value, k, withdraw, tokens, t)
  {
    var units := c.lockups[k].units;
    LpShareSucceeds(c, k);
    assert TokenInv(c, k.pool, t);
    TokensPaid(c, k, tokens, t);
    RewardFairness.PayTokensPayUp(c, k, units, tokens, t);
    OthersKept(c, k, units, tokens);
    AfterPayments(c, k, withdraw, tokens, t);
  }

  lemma {:induction false} OthersKept(c: State, k: Key, lp: nat, tokens: seq<Token>)
    requires k in c.lockups && PayTokens(c, k, lp, tokens).Ok?
    ensures OthersSame(c.lockups, PayTokens(c, k, lp, tokens).value.0.lockups, k)
    decreases |tokens|
  {
    if tokens != [] {
      OthersKept(PayToken(c, k, lp, tokens[0]).value.0, k, lp, tokens[1..]);
    }
  }

  lemma UnlockEnds(c: State, k: Key, lp: nat)
    requires k in c.lockups && UnlockStaked(c, k, lp).Ok?
    ensures var c' := UnlockStaked(c, k, lp).value;
            && c'.lockups == c.lockups[k := c.lockups[k].(transferred := Some(lp))]
            && c'.ledger.paid == c.ledger.paid && c'.ledger.received == c.ledger.received
            && forall p :: c'.pools.Get(p).perShare == c.pools.Get(p).perShare
  {
  }

  lemma AfterPayments(c: State, k: Key, withdraw: bool, tokens: seq<Token>, t: Token)
    requires k in c.lockups && Open(c.lockups[k]) && c.pools.Get(k.pool).isStaked && WithdrawRewards(c, k, withdraw, tokens).Ok?
    requires LpShare(c, k.pool, c.lockups[k].units) == Ok(c.lockups[k].units)
    ensures var c1, c' := PayTokens(c, k, c.lockups[k].units, tokens).value.0, WithdrawRewards(c, k, withdraw, tokens).value;
            && k in c'.lockups && c'.lockups[k].debts == c1.lockups[k].debts
            && c'.ledger.paid == c1.ledger.paid && c'.ledger.received == c.ledger.received
            && PerShare(c', k.pool, t) == PerShare(c, k.pool, t)
            && c'.lockups[k].transferred == (if withdraw then Some(c.lockups[k].units) else None)
            && OthersSame(c1.lockups, c'.lockups, k)
  {
    var c1 := PayTokens(c, k, c.lockups[k].units, tokens).value.0;
    PayTokensFrame(c, k, c.lockups[k].units, tokens);
    if withdraw {
      UnlockEnds(c1, k, c.lockups[k].units);
    } else {
      assert PayOneTime(c1, k.user).pools == c1.pools;
    }
  }

  /** Whatever the claim, a user who is not marked as paid gets the recorded one-time rewards, or their sum if none are
      recorded, and is marked; a user who is marked gets none. */
  lemma ClaimPaysOnce(c: State, now: nat, k: Key, withdraw: bool, rewards: seq<(Token, nat)>, tokens: seq<Token>)
    requires Claim(c, now, k, withdraw, rewards, tokens).Ok?
    ensures k.user in c.users
    ensures var c' := Claim(c, now, k, withdraw, rewards, tokens).value;
            var recorded := c.users[k.user].totalRewards;
            var total := if recorded != 0 then recorded else Total(c.lockups, UserRewards(k.user));
            && total >= 0 && c'.users == c.users[k.user := c.users[k.user].(totalRewards := total, ntrnTransferred := true)]
            && (c.users[k.user].ntrnTransferred || total == 0 ==> c'.Payments(k.user) == c.Payments(k.user))
            && (!c.users[k.user].ntrnTransferred && total > 0 ==> c'.Payments(k.user) == c.Payments(k.user) + [total as nat])
  {
    var c1 := FinalizeRewards(c, k.user).value;
    FinalizeRecords(c, k.user);
    ClaimAfterFinalize(c, now, k, withdraw, rewards, tokens);
    AccruedClaimPaysOnce(c1, k, withdraw, rewards, tokens);
  }

  lemma FinalizeRecords(c: State, u: Addr)
    requires FinalizeRewards(c, u).Ok?
    ensures u in c.users
    ensures var c1 := FinalizeRewards(c, u).value;
            var total := if c.users[u].totalRewards != 0 then c.users[u].totalRewards else Total(c.lockups, UserRewards(u));
            total >= 0 && c1 == c.(users := c.users[u := c.users[u].(totalRewards := total)])
  {
    UserRewardsNonNeg(c.lockups, u);
    assert c.users[u := c.users[u]] == c.users;
  }

  lemma AccruedClaimPaysOnce(c: State, k: Key, withdraw: bool, rewards: seq<(Token, nat)>, tokens: seq<Token>)
    requires k.user in c.users
    requires var a := if c.pools.Get(k.pool).isStaked then Accrue(c, k.pool, rewards) else Ok(c);
             a.Ok? && k in a.value.lockups && WithdrawRewards(a.value, k, withdraw, tokens).Ok?
    ensures var a := if c.pools.Get(k.pool).isStaked then Accrue(c, k.pool, rewards) else Ok(c);
            var c', user := WithdrawRewards(a.value, k, withdraw, tokens).value, c.users[k.user];
            && c'.users == c.users[k.user := user.(ntrnTransferred := true)]
            && c'.Payments(k.user) == c.Payments(k.user) + (if user.ntrnTransferred || user.totalRewards == 0 then [] else [user.totalRewards])
  {
    var c2 := if c.pools.Get(k.pool).isStaked then Accrue(c, k.pool, rewards).value else c;
    if c.pools.Get(k.pool).isStaked && AnyPending(rewards) {
      AccrueTokensFrame(c, k.pool, rewards);
    }
    CallbackPaysOnce(c2, k, withdraw, tokens);
  }

  lemma CallbackPaysOnce(c: State, k: Key, withdraw: bool, tokens: seq<Token>)
    requires k in c.lockups && WithdrawRewards(c, k, withdraw, tokens).Ok?
    ensures var c', before := WithdrawRewards(c, k, withdraw, tokens).value, c.User(k.user);
            && (k.user in c.users ==> c'.users == c.users[k.user := before.(ntrnTransferred := true)])
            && c'.Payments(k.user) == c.Payments(k.user) + (if before.ntrnTransferred || before.totalRewards == 0 then [] else [before.totalRewards])
  {
    var lp := LpShare(c, k.pool, c.lockups[k].units).value;
    if c.pools.Get(k.pool).isStaked {
      PayTokensFrame(c, k, lp, tokens);
    }
  }
}

/** Reward tokens of the PCL lockdrop: for every pool and token the contract can pay what its open positions have earned. */
module LockdropPclSolvency {
  import opened Basics
  import opened FixedPoint
  import opened Sums
  import opened RestrictedVector
  import opened LockdropPcl
  import Xyk = LockdropXyk

  /** What position k may still claim of token t, as a decimal, when perShare has been earned by each LP token. */
  function Claimable(p: Pool, t: Token, perShare: nat): (Key, Lockup) -> int {
    (k: Key, l: Lockup) => if k.pool == p && Open(l) then perShare * l.units - ONE * Amount(l.debts, t) else 0
  }

  function PerShare(c: State, p: Pool, t: Token): nat {
    Amount(c.pools.Get(p).perShare, t)
  }

  /** The pool's total counts its open positions, and the contract has exactly that many LP tokens, staked or not. */
  ghost predicate PoolInv(c: State, p: Pool) {
    var pool := c.pools.Get(p);
    && pool.amountInLockups == Total(c.lockups, OpenUnits(p))
    && c.ledger.staked.Get(p) == (if pool.isStaked then pool.amountInLockups else 0)
    && c.ledger.unstaked.Get(p) == (if pool.isStaked then 0 else pool.amountInLockups)
    && (!pool.isStaked ==> pool.perShare == [])
  }

  /** No debt exceeds what its position has earned, and what was paid and is still claimable was received. */
  ghost predicate TokenInv(c: State, p: Pool, t: Token) {
    && (forall k :: k in c.lockups ==> Claimable(p, t, PerShare(c, p, t))(k, c.lockups[k]) >= 0)
    && ONE * c.Paid(p, t) + Total(c.lockups, Claimable(p, t, PerShare(c, p, t))) <= ONE * c.Received(p, t)
  }

  ghost predicate UserTotalsInv(c: State) {
    forall p, u :: c.UserTotal(p, u) == Total(c.lockups, UserUnits(p, u))
  }

  // A position arrives

  lemma FinishKeepsPool(c: State, k: Key, user: Xyk.UserInfo, lockup: Xyk.Lockup, minted: nat, stake: bool, p: Pool)
    requires PoolInv(c, p) && k !in c.lockups && !c.pools.Get(k.pool).isStaked
    requires FinishMigration(c, k, user, lockup, minted, stake).Ok?
    ensures PoolInv(FinishMigration(c, k, user, lockup, minted, stake).value, p)
  {
    TotalSet(c.lockups, OpenUnits(p), k, FromXykLockup(lockup, minted));
  }

  lemma FinishKeepsToken(c: State, k: Key, user: Xyk.UserInfo, lockup: Xyk.Lockup, minted: nat, stake: bool, p: Pool, t: Token)
    requires PoolInv(c, k.pool) && TokenInv(c, p, t) && k !in c.lockups && !c.pools.Get(k.pool).isStaked
    requires FinishMigration(c, k, user, lockup, minted, stake).Ok?
    ensures TokenInv(FinishMigration(c, k, user, lockup, minted, stake).value, p, t)
  {
    var c' := FinishMigration(c, k, user, lockup, minted, stake).value;
    var perShare, l := PerShare(c, p, t), FromXykLockup(lockup, minted);
    assert PerShare(c', p, t) == perShare;
    assert p == k.pool ==> perShare == 0;
    assert Claimable(p, t, perShare)(k, l) == 0;
    TotalSet(c.lockups, Claimable(p, t, perShare), k, l);
  }

  lemma FinishKeepsUserTotals(c: State, k: Key, user: Xyk.UserInfo, lockup: Xyk.Lockup, minted: nat, stake: bool)
    requires UserTotalsInv(c) && k !in c.lockups && FinishMigration(c, k, user, lockup, minted, stake).Ok?
    ensures UserTotalsInv(FinishMigration(c, k, user, lockup, minted, stake).value)
  {
    var c' := FinishMigration(c, k, user, lockup, minted, stake).value;
    forall p, u
      ensures c'.UserTotal(p, u) == Total(c'.lockups, UserUnits(p, u))
    {
      TotalSet(c.lockups, UserUnits(p, u), k, FromXykLockup(lockup, minted));
      assert c.UserTotal(p, u) == Total(c.lockups, UserUnits(p, u));
    }
  }

  // Rewards arrive

  lemma ClaimableGrows(m: map<Key, Lockup>, p: Pool, t: Token, perShare: nat, gain: nat)
    ensures Total(m, Claimable(p, t, perShare + gain)) == Total(m, Claimable(p, t, perShare)) + gain * Total(m, OpenUnits(p))
    ensures forall k :: k in m ==> Claimable(p, t, perShare)(k, m[k]) <= Claimable(p, t, perShare + gain)(k, m[k])
  {
    forall k | k in m
      ensures Claimable(p, t, perShare + gain)(k, m[k]) == Claimable(p, t, perShare)(k, m[k]) + gain * OpenUnits(p)(k, m[k])
      ensures Claimable(p, t, perShare)(k, m[k]) <= Claimable(p, t, perShare + gain)(k, m[k])
    {
      var l := m[k];
      Distribute(l.units, perShare, gain);
      assert gain * l.units >= 0;
    }
    TotalLinear(m, Claimable(p, t, perShare), OpenUnits(p), gain, Claimable(p, t, perShare + gain));
  }

  lemma AccrueTokenKeeps(c: State, q: Pool, s: Token, received: nat, p: Pool, t: Token)
    requires PoolInv(c, p) && TokenInv(c, p, t) && AccrueToken(c, q, s, received).Ok?
    ensures PoolInv(AccrueToken(c, q, s, received).value, p) && TokenInv(AccrueToken(c, q, s, received).value, p, t)
  {
    var c', staked := AccrueToken(c, q, s, received).value, c.ledger.staked.Get(q);
    var gain := Ratio(received, staked);
    assert PerShare(c', p, t) == PerShare(c, p, t) + (if p == q && s == t then gain else 0) by {
      IncreaseAdds(c.pools.Get(q).perShare, s, gain, t);
    }
    if p == q && s == t {
      assert gain * Total(c.lockups, OpenUnits(p)) <= ONE * received by {
        RatioBounds(received, staked);
      }
      ClaimableGrows(c.lockups, p, t, PerShare(c, p, t), gain);
    }
  }

  lemma {:induction false} AccrueTokensKeep(c: State, q: Pool, rewards: seq<(Token, nat)>, p: Pool, t: Token)
    requires PoolInv(c, p) && TokenInv(c, p, t) && AccrueTokens(c, q, rewards).Ok?
    ensures PoolInv(AccrueTokens(c, q, rewards).value, p) && TokenInv(AccrueTokens(c, q, rewards).value, p, t)
    decreases |rewards|
  {
    if rewards != [] {
      AccrueTokenKeeps(c, q, rewards[0].0, rewards[0].1, p, t);
      AccrueTokensKeep(AccrueToken(c, q, rewards[0].0, rewards[0].1).value, q, rewards[1..], p, t);
    }
  }

  // Rewards leave and positions close

  lemma LpShareIsUnits(c: State, k: Key)
    requires PoolInv(c, k.pool) && k in c.lockups && LpShare(c, k.pool, c.lockups[k].units).Ok?
    ensures LpShare(c, k.pool, c.lockups[k].units).value == c.lockups[k].units
  {
    MulDivCancel(c.lockups[k].units, c.pools.Get(k.pool).amountInLockups);
  }

  lemma PayTokenKeepsPool(c: State, k: Key, lp: nat, s: Token, p: Pool)
    requires PoolInv(c, p) && k in c.lockups && PayToken(c, k, lp, s).Ok?
    ensures PoolInv(PayToken(c, k, lp, s).value.0, p)
  {
    if PerShare(c, k.pool, s) != 0 {
      var l' := PayToken(c, k, lp, s).value.0.lockups[k];
      TotalSet(c.lockups, OpenUnits(p), k, l');
      DebtKeepsUnits(k, c.lockups[k], l', p);
    }
  }

  lemma DebtKeepsUnits(k: Key, l: Lockup, l': Lockup, p: Pool)
    requires l.units == l'.units && l.transferred == l'.transferred
    ensures OpenUnits(p)(k, l) == OpenUnits(p)(k, l')
  {
  }

  lemma DebtLowersClaimable(k: Key, l: Lockup, s: Token, pending: nat, p: Pool, t: Token, perShare: nat)
    requires Open(l) && Increase(l.debts, s, pending).Ok?
    ensures Claimable(p, t, perShare)(k, l.(debts := Increase(l.debts, s, pending).value)) ==
            Claimable(p, t, perShare)(k, l) - if p == k.pool && s == t then ONE * pending else 0
  {
    IncreaseAdds(l.debts, s, pending, t);
    var l' := l.(debts := Increase(l.debts, s, pending).value);
    if k.pool == p {
      assert Claimable(p, t, perShare)(k, l) == perShare * l.units - ONE * Amount(l.debts, t);
      assert Claimable(p, t, perShare)(k, l') == perShare * l.units - ONE * Amount(l'.debts, t);
    } else {
      assert Claimable(p, t, perShare)(k, l) == 0 == Claimable(p, t, perShare)(k, l');
    }
  }

  /** The pool and token invariants, and a position that is still open with lp tokens. */
  ghost predicate Payable(c: State, k: Key, lp: nat, p: Pool, t: Token) {
    PoolInv(c, p) && TokenInv(c, p, t) && k in c.lockups && Open(c.lockups[k]) && c.lockups[k].units == lp
  }

  /** Paying a token lowers what is claimable of it by exactly the payment. */
  lemma PayTokenKeeps(c: State, k: Key, lp: nat, s: Token, p: Pool, t: Token)
    requires Payable(c, k, lp, p, t) && PayToken(c, k, lp, s).Ok?
    ensures Payable(PayToken(c, k, lp, s).value.0, k, lp, p, t)
  {
    PayTokenKeepsPool(c, k, lp, s, p);
    if PerShare(c, k.pool, s) != 0 {
      if p == k.pool && s == t {
        PaidTokenKeeps(c, k, lp, s);
      } else {
        OtherTokenKeeps(c, k, lp, s, p, t);
      }
    }
  }

  lemma PaidTokenKeeps(c: State, k: Key, lp: nat, t: Token)
    requires Payable(c, k, lp, k.pool, t) && PayToken(c, k, lp, t).Ok? && PerShare(c, k.pool, t) != 0
    ensures TokenInv(PayToken(c, k, lp, t).value.0, k.pool, t)
  {
    var perShare, l, c' := PerShare(c, k.pool, t), c.lockups[k], PayToken(c, k, lp, t).value.0;
    var pending := MulFloor(perShare, lp) - Amount(l.debts, t);
    DebtLowersClaimable(k, l, t, pending, k.pool, t, perShare);
    TotalSet(c.lockups, Claimable(k.pool, t, perShare), k, c'.lockups[k]);
    PaidDebtIsCovered(k, l, c'.lockups[k], lp, pending, t, perShare);
  }

  lemma OtherTokenKeeps(c: State, k: Key, lp: nat, s: Token, p: Pool, t: Token)
    requires Payable(c, k, lp, p, t) && PayToken(c, k, lp, s).Ok? && PerShare(c, k.pool, s) != 0 && (p != k.pool || s != t)
    ensures TokenInv(PayToken(c, k, lp, s).value.0, p, t)
  {
    var l, l' := c.lockups[k], PayToken(c, k, lp, s).value.0.lockups[k];
    DebtLowersClaimable(k, l, s, MulFloor(PerShare(c, k.pool, s), lp) - Amount(l.debts, s), p, t, PerShare(c, p, t));
    ReplacedKeepsToken(c, PayToken(c, k, lp, s).value.0, k, l', p, t);
  }

  /** A position that may still claim as much as before. */
  lemma ReplacedKeepsToken(c: State, c': State, k: Key, l': Lockup, p: Pool, t: Token)
    requires TokenInv(c, p, t) && k in c.lockups && c'.lockups == c.lockups[k := l']
    requires PerShare(c', p, t) == PerShare(c, p, t) && c'.Paid(p, t) == c.Paid(p, t) && c'.Received(p, t) == c.Received(p, t)
    requires Claimable(p, t, PerShare(c, p, t))(k, l') == Claimable(p, t, PerShare(c, p, t))(k, c.lockups[k])
    ensures TokenInv(c', p, t)
  {
    var f := Claimable(p, t, PerShare(c, p, t));
    TotalSet(c.lockups, f, k, l');
    forall j | j in c'.lockups
      ensures f(j, c'.lockups[j]) >= 0
    {
      assert f(j, c.lockups[j]) >= 0;
    }
  }

  lemma PaidDebtIsCovered(k: Key, l: Lockup, l': Lockup, lp: nat, pending: nat, t: Token, perShare: nat)
    requires Open(l) && l.units == lp && pending == MulFloor(perShare, lp) - Amount(l.debts, t)
    requires Claimable(k.pool, t, perShare)(k, l') == Claimable(k.pool, t, perShare)(k, l) - ONE * pending
    ensures Claimable(k.pool, t, perShare)(k, l') >= 0
  {
    MulFloorBounds(perShare, lp);
    assert Claimable(k.pool, t, perShare)(k, l) == perShare * lp - ONE * Amount(l.debts, t);
  }

  lemma {:induction false} PayTokensKeep(c: State, k: Key, lp: nat, tokens: seq<Token>, p: Pool, t: Token)
    requires Payable(c, k, lp, p, t) && PayTokens(c, k, lp, tokens).Ok?
    ensures Payable(PayTokens(c, k, lp, tokens).value.0, k, lp, p, t)
    decreases |tokens|
  {
    if tokens != [] {
      PayTokenKeeps(c, k, lp, tokens[0], p, t);
      PayTokensKeep(PayToken(c, k, lp, tokens[0]).value.0, k, lp, tokens[1..], p, t);
    }
  }

  lemma {:induction false} PayTokensFrame(c: State, k: Key, lp: nat, tokens: seq<Token>)
    requires k in c.lockups && PayTokens(c, k, lp, tokens).Ok?
    ensures var c' := PayTokens(c, k, lp, tokens).value.0;
            && c'.userTotals == c.userTotals && c'.users == c.users && c'.pools == c.pools
            && c'.ledger == c.ledger.(paid := c'.ledger.paid) && c'.lockups.Keys == c.lockups.Keys
            && forall j :: j in c.lockups ==> c'.lockups[j] == c.lockups[j].(debts := c'.lockups[j].debts)
    decreases |tokens|
  {
    if tokens != [] {
      PayTokensFrame(PayToken(c, k, lp, tokens[0]).value.0, k, lp, tokens[1..]);
    }
  }

  lemma CloseKeeps(c: State, c': State, k: Key, lp: nat, p: Pool, t: Token)
    requires PoolInv(c, p) && TokenInv(c, p, t) && k in c.lockups && Open(c.lockups[k])
    requires c'.pools == c.pools && c'.lockups == c.lockups && c'.ledger.received == c.ledger.received && c'.ledger.paid == c.ledger.paid
    requires forall q :: c'.ledger.staked.Get(q) == c.ledger.staked.Get(q) - (if q == k.pool && c.pools.Get(q).isStaked then c.lockups[k].units else 0)
    requires forall q :: c'.ledger.unstaked.Get(q) == c.ledger.unstaked.Get(q) - (if q == k.pool && !c.pools.Get(q).isStaked then c.lockups[k].units else 0)
    requires Close(c', k, lp).Ok?
    ensures PoolInv(Close(c', k, lp).value, p) && TokenInv(Close(c', k, lp).value, p, t)
  {
    var l' := c.lockups[k].(transferred := Some(lp));
    TotalSet(c.lockups, OpenUnits(p), k, l');
    TotalSet(c.lockups, Claimable(p, t, PerShare(c, p, t)), k, l');
    ClosedClaimsNothing(k, l', p, t, PerShare(c, p, t));
  }

  lemma ClosedClaimsNothing(k: Key, l: Lockup, p: Pool, t: Token, perShare: nat)
    requires !Open(l)
    ensures Claimable(p, t, perShare)(k, l) == 0 && OpenUnits(p)(k, l) == 0
  {
  }

  lemma PayOneTimeKeeps(c: State, u: Addr, p: Pool, t: Token)
    requires PoolInv(c, p) && TokenInv(c, p, t)
    ensures PoolInv(PayOneTime(c, u), p) && TokenInv(PayOneTime(c, u), p, t)
  {
  }

  lemma UnlockStakedKeeps(c: State, k: Key, lp: nat, p: Pool, t: Token)
    requires PoolInv(c, p) && TokenInv(c, p, t) && k in c.lockups && Open(c.lockups[k])
    requires c.pools.Get(k.pool).isStaked && lp == c.lockups[k].units && UnlockStaked(c, k, lp).Ok?
    ensures PoolInv(UnlockStaked(c, k, lp).value, p) && TokenInv(UnlockStaked(c, k, lp).value, p, t)
  {
    var c1 := Unstake(c, k.pool, lp).value;
    CloseKeeps(c, c1, k, lp, p, t);
    PayOneTimeKeeps(Close(c1, k, lp).value, k.user, p, t);
  }

  lemma UnlockUnstakedKeeps(c: State, k: Key, lp: nat, p: Pool, t: Token)
    requires PoolInv(c, p) && TokenInv(c, p, t) && k in c.lockups && Open(c.lockups[k])
    requires !c.pools.Get(k.pool).isStaked && lp == c.lockups[k].units
    requires SendUnstaked(c, k.pool, lp).Ok? && Close(SendUnstaked(c, k.pool, lp).value, k, lp).Ok?
    ensures var c' := PayOneTime(Close(SendUnstaked(c, k.pool, lp).value, k, lp).value, k.user);
            PoolInv(c', p) && TokenInv(c', p, t)
  {
    var c1 := SendUnstaked(c, k.pool, lp).value;
    CloseKeeps(c, c1, k, lp, p, t);
    PayOneTimeKeeps(Close(c1, k, lp).value, k.user, p, t);
  }

  lemma WithdrawRewardsKeeps(c: State, k: Key, withdraw: bool, tokens: seq<Token>, p: Pool, t: Token)
    requires PoolInv(c, p) && PoolInv(c, k.pool) && TokenInv(c, p, t) && k in c.lockups && Open(c.lockups[k])
    requires WithdrawRewards(c, k, withdraw, tokens).Ok?
    ensures var c' := WithdrawRewards(c, k, withdraw, tokens).value;
            PoolInv(c', p) && TokenInv(c', p, t)
  {
    var lp := LpShare(c, k.pool, c.lockups[k].units).value;
    LpShareIsUnits(c, k);
    if c.pools.Get(k.pool).isStaked {
      var c1 := PayTokens(c, k, lp, tokens).value.0;
      PayTokensKeep(c, k, lp, tokens, p, t);
      PayTokensFrame(c, k, lp, tokens);
      if withdraw {
        UnlockStakedKeeps(c1, k, lp, p, t);
      } else {
        PayOneTimeKeeps(c1, k.user, p, t);
      }
    } else if withdraw {
      UnlockUnstakedKeeps(c, k, lp, p, t);
    } else {
      PayOneTimeKeeps(c, k.user, p, t);
    }
  }

  lemma ClaimKeeps(c: State, now: nat, k: Key, withdraw: bool, rewards: seq<(Token, nat)>, tokens: seq<Token>, p: Pool, t: Token)
    requires PoolInv(c, p) && PoolInv(c, k.pool) && TokenInv(c, p, t) && TokenInv(c, k.pool, t)
    requires Claim(c, now, k, withdraw, rewards, tokens).Ok?
    ensures var c' := Claim(c, now, k, withdraw, rewards, tokens).value;
            PoolInv(c', p) && TokenInv(c', p, t)
  {
    var c1 := FinalizeRewards(c, k.user).value;
    FinalizeKeeps(c, k.user, p, t);
    FinalizeKeeps(c, k.user, k.pool, t);
    var c2 := if c1.pools.Get(k.pool).isStaked then Accrue(c1, k.pool, rewards).value else c1;
    if c2 != c1 {
      AccrueTokensKeep(c1, k.pool, rewards, p, t);
      AccrueTokensKeep(c1, k.pool, rewards, k.pool, t);
    }
    WithdrawRewardsKeeps(c2, k, withdraw, tokens, p, t);
  }

  lemma FinalizeKeeps(c: State, u: Addr, p: Pool, t: Token)
    requires PoolInv(c, p) && TokenInv(c, p, t) && FinalizeRewards(c, u).Ok?
    ensures PoolInv(FinalizeRewards(c, u).value, p) && TokenInv(FinalizeRewards(c, u).value, p, t)
  {
  }

  // User totals

  lemma UserUnitsNonNeg(c: State, p: Pool, u: Addr)
    ensures forall k :: k in c.lockups ==> UserUnits(p, u)(k, c.lockups[k]) <= Total(c.lockups, UserUnits(p, u))
  {
    forall k | k in c.lockups
      ensures UserUnits(p, u)(k, c.lockups[k]) >= 0
    {
      var l := c.lockups[k];
      assert UserUnits(p, u)(k, l) == if k.pool == p && k.user == u && Open(l) then l.units else 0;
    }
    TotalNonNeg(c.lockups, UserUnits(p, u));
  }

  lemma SamePositionsKeepUserTotals(c: State, c': State)
    requires UserTotalsInv(c) && c'.userTotals == c.userTotals && c.lockups.Keys == c'.lockups.Keys
    requires forall k :: k in c.lockups ==> c.lockups[k].units == c'.lockups[k].units && c.lockups[k].transferred == c'.lockups[k].transferred
    ensures UserTotalsInv(c')
  {
    forall p, u
      ensures c'.UserTotal(p, u) == Total(c'.lockups, UserUnits(p, u))
    {
      forall k | k in c.lockups
        ensures UserUnits(p, u)(k, c.lockups[k]) == UserUnits(p, u)(k, c'.lockups[k])
      {
        var l, l' := c.lockups[k], c'.lockups[k];
        assert UserUnits(p, u)(k, l) == if k.pool == p && k.user == u && Open(l) then l.units else 0;
        assert UserUnits(p, u)(k, l') == if k.pool == p && k.user == u && Open(l') then l'.units else 0;
      }
      TotalSame(c.lockups, UserUnits(p, u), c'.lockups, UserUnits(p, u));
      assert c.UserTotal(p, u) == Total(c.lockups, UserUnits(p, u));
    }
  }

  lemma CloseKeepsUserTotals(c: State, k: Key, lp: nat)
    requires UserTotalsInv(c) && k in c.lockups && Open(c.lockups[k]) && Close(c, k, lp).Ok?
    ensures UserTotalsInv(PayOneTime(Close(c, k, lp).value, k.user))
  {
    var c' := Close(c, k, lp).value;
    forall p, u
      ensures c'.UserTotal(p, u) == Total(c'.lockups, UserUnits(p, u))
    {
      assert c.UserTotal(p, u) == Total(c.lockups, UserUnits(p, u));
      CloseKeepsUserTotal(c, k, lp, p, u);
    }
    SamePositionsKeepUserTotals(c', PayOneTime(c', k.user));
  }

  lemma UserUnitsOf(p: Pool, u: Addr, k: Key, l: Lockup)
    ensures UserUnits(p, u)(k, l) == if k.pool == p && k.user == u && Open(l) then l.units else 0
  {
  }

  lemma CloseKeepsUserTotal(c: State, k: Key, lp: nat, p: Pool, u: Addr)
    requires c.UserTotal(p, u) == Total(c.lockups, UserUnits(p, u))
    requires k in c.lockups && Open(c.lockups[k]) && Close(c, k, lp).Ok?
    ensures var c' := Close(c, k, lp).value;
            c'.UserTotal(p, u) == Total(c'.lockups, UserUnits(p, u))
  {
    var c', f := Close(c, k, lp).value, UserUnits(p, u);
    var l' := c'.lockups[k];
    UserUnitsNonNeg(c, p, u);
    TotalSet(c.lockups, f, k, l');
    UserUnitsOf(p, u, k, l');
    UserUnitsOf(p, u, k, c.lockups[k]);
  }

  lemma {:induction false} AccrueTokensFrame(c: State, p: Pool, rewards: seq<(Token, nat)>)
    requires AccrueTokens(c, p, rewards).Ok?
    ensures var c' := AccrueTokens(c, p, rewards).value;
            && c'.users == c.users && c'.userTotals == c.userTotals && c'.lockups == c.lockups
            && c'.ledger == c.ledger.(received := c'.ledger.received)
            && forall q :: c'.pools.Get(q) == c.pools.Get(q).(perShare := c'.pools.Get(q).perShare)
    decreases |rewards|
  {
    if rewards != [] {
      AccrueTokensFrame(AccrueToken(c, p, rewards[0].0, rewards[0].1).value, p, rewards[1..]);
    }
  }

  lemma ClaimKeepsUserTotals(c: State, now: nat, k: Key, withdraw: bool, rewards: seq<(Token, nat)>, tokens: seq<Token>)
    requires UserTotalsInv(c) && Claim(c, now, k, withdraw, rewards, tokens).Ok?
    ensures UserTotalsInv(Claim(c, now, k, withdraw, rewards, tokens).value)
  {
    var c1 := FinalizeRewards(c, k.user).value;
    var c2 := if c1.pools.Get(k.pool).isStaked then Accrue(c1, k.pool, rewards).value else c1;
    if c2 != c1 {
      AccrueTokensFrame(c1, k.pool, rewards);
    }
    SamePositionsKeepUserTotals(c, c2);
    WithdrawRewardsKeepsUserTotals(c2, k, withdraw, tokens);
  }

  lemma WithdrawRewardsKeepsUserTotals(c: State, k: Key, withdraw: bool, tokens: seq<Token>)
    requires UserTotalsInv(c) && k in c.lockups && Open(c.lockups[k]) && WithdrawRewards(c, k, withdraw, tokens).Ok?
    ensures UserTotalsInv(WithdrawRewards(c, k, withdraw, tokens).value)
  {
    var lp := LpShare(c, k.pool, c.lockups[k].units).value;
    if c.pools.Get(k.pool).isStaked {
      var c1 := PayTokens(c, k, lp, tokens).value.0;
      PayTokensFrame(c, k, lp, tokens);
      SamePositionsKeepUserTotals(c, c1);
      if withdraw {
        var c2 := Unstake(c1, k.pool, lp).value;
        SamePositionsKeepUserTotals(c1, c2);
        CloseKeepsUserTotals(c2, k, lp);
      } else {
        SamePositionsKeepUserTotals(c1, PayOneTime(c1, k.user));
      }
    } else if withdraw {
      var c1 := SendUnstaked(c, k.pool, lp).value;
      SamePositionsKeepUserTotals(c, c1);
      CloseKeepsUserTotals(c1, k, lp);
    } else {
      SamePositionsKeepUserTotals(c, PayOneTime(c, k.user));
    }
  }

  /** A claim adds no positions or users, leaves staking to migrations, and pays a one-time reward only to a user whose
      record does not say it was sent. */
  lemma ClaimFrame(c: State, now: nat, k: Key, withdraw: bool, rewards: seq<(Token, nat)>, tokens: seq<Token>)
    requires Claim(c, now, k, withdraw, rewards, tokens).Ok?
    ensures var c' := Claim(c, now, k, withdraw, rewards, tokens).value;
            && c'.lockups.Keys == c.lockups.Keys && c'.users.Keys == c.users.Keys && c'.ledger.stakes == c.ledger.stakes
            && c'.pools.usdc.isStaked == c.pools.usdc.isStaked && c'.pools.atom.isStaked == c.pools.atom.isStaked
            && (forall u :: u in c.users && c.users[u].ntrnTransferred ==> c'.users[u].ntrnTransferred)
            && (c.users[k.user].ntrnTransferred ==> c'.ledger.oneTime == c.ledger.oneTime)
  {
    var c1 := FinalizeRewards(c, k.user).value;
    var c2 := if c1.pools.Get(k.pool).isStaked then Accrue(c1, k.pool, rewards).value else c1;
    if c2 != c1 {
      AccrueTokensFrame(c1, k.pool, rewards);
      assert c2.pools.Get(USDC).isStaked == c1.pools.Get(USDC).isStaked && c2.pools.Get(ATOM).isStaked == c1.pools.Get(ATOM).isStaked;
    }
    WithdrawRewardsFrame(c2, k, withdraw, tokens);
  }

  lemma WithdrawRewardsFrame(c: State, k: Key, withdraw: bool, tokens: seq<Token>)
    requires k in c.lockups && k.user in c.users && WithdrawRewards(c, k, withdraw, tokens).Ok?
    ensures var c' := WithdrawRewards(c, k, withdraw, tokens).value;
            && c'.lockups.Keys == c.lockups.Keys && c'.users.Keys == c.users.Keys && c'.ledger.stakes == c.ledger.stakes
            && c'.pools.usdc.isStaked == c.pools.usdc.isStaked && c'.pools.atom.isStaked == c.pools.atom.isStaked
            && (forall u :: u in c.users && c.users[u].ntrnTransferred ==> c'.users[u].ntrnTransferred)
            && (c.users[k.user].ntrnTransferred ==> c'.ledger.oneTime == c.ledger.oneTime)
  {
    var lp := LpShare(c, k.pool, c.lockups[k].units).value;
    if c.pools.Get(k.pool).isStaked {
      PayTokensFrame(c, k, lp, tokens);
    }
  }

  /** No amount that was paid for a position is forgotten. */
  ghost predicate DebtsKept(l: Lockup, l': Lockup) {
    forall t :: Amount(l.debts, t) <= Amount(l'.debts, t)
  }

  /** A position's record later on: its debts may only rise, and it may be closed. */
  ghost predicate SameRecord(l: Lockup, l': Lockup) {
    && l'.units == l.units && l'.ntrnRewards == l.ntrnRewards && l'.unlockTime == l.unlockTime && l'.withdrawalFlag == l.withdrawalFlag
    && (l.transferred.Some? ==> l'.transferred == l.transferred)
    && DebtsKept(l, l')
  }

  ghost predicate SameRecords(m: map<Key, Lockup>, n: map<Key, Lockup>) {
    forall k :: k in m ==> k in n && SameRecord(m[k], n[k])
  }

  lemma SameRecordTwice(l: Lockup, m: Lockup, n: Lockup)
    requires SameRecord(l, m) && SameRecord(m, n)
    ensures SameRecord(l, n)
  {
    forall t
      ensures Amount(l.debts, t) <= Amount(n.debts, t)
    {
      assert Amount(l.debts, t) <= Amount(m.debts, t);
    }
  }

  lemma SameRecordsTwice(l: map<Key, Lockup>, m: map<Key, Lockup>, n: map<Key, Lockup>)
    requires SameRecords(l, m) && SameRecords(m, n)
    ensures SameRecords(l, n)
  {
    forall k | k in l
      ensures k in n && SameRecord(l[k], n[k])
    {
      SameRecordTwice(l[k], m[k], n[k]);
    }
  }

  lemma PayTokenKeepsRecords(c: State, k: Key, lp: nat, s: Token)
    requires k in c.lockups && PayToken(c, k, lp, s).Ok?
    ensures SameRecords(c.lockups, PayToken(c, k, lp, s).value.0.lockups)
  {
    var l, l' := c.lockups[k], PayToken(c, k, lp, s).value.0.lockups[k];
    if PerShare(c, k.pool, s) != 0 {
      forall t
        ensures Amount(l.debts, t) <= Amount(l'.debts, t)
      {
        IncreaseAdds(l.debts, s, MulFloor(PerShare(c, k.pool, s), lp) - Amount(l.debts, s), t);
      }
    }
  }

  lemma {:induction false} PayTokensKeepRecords(c: State, k: Key, lp: nat, tokens: seq<Token>)
    requires k in c.lockups && PayTokens(c, k, lp, tokens).Ok?
    ensures SameRecords(c.lockups, PayTokens(c, k, lp, tokens).value.0.lockups)
    decreases |tokens|
  {
    if tokens != [] {
      var c1 := PayToken(c, k, lp, tokens[0]).value.0;
      PayTokenKeepsRecords(c, k, lp, tokens[0]);
      PayTokensKeepRecords(c1, k, lp, tokens[1..]);
      SameRecordsTwice(c.lockups, c1.lockups, PayTokens(c, k, lp, tokens).value.0.lockups);
    }
  }

  lemma CloseKeepsRecords(c: State, k: Key, lp: nat)
    requires k in c.lockups && Open(c.lockups[k]) && Close(c, k, lp).Ok?
    ensures SameRecords(c.lockups, Close(c, k, lp).value.lockups)
  {
  }

  lemma WithdrawRewardsKeepsRecords(c: State, k: Key, withdraw: bool, tokens: seq<Token>)
    requires k in c.lockups && Open(c.lockups[k]) && WithdrawRewards(c, k, withdraw, tokens).Ok?
    ensures SameRecords(c.lockups, WithdrawRewards(c, k, withdraw, tokens).value.lockups)
  {
    var lp := LpShare(c, k.pool, c.lockups[k].units).value;
    if c.pools.Get(k.pool).isStaked {
      var c1 := PayTokens(c, k, lp, tokens).value.0;
      PayTokensFrame(c, k, lp, tokens);
      PayTokensKeepRecords(c, k, lp, tokens);
      if withdraw {
        UnlockKeepsRecords(c1, k, lp);
        SameRecordsTwice(c.lockups, c1.lockups, UnlockStaked(c1, k, lp).value.lockups);
      }
    } else if withdraw {
      CloseKeepsRecords(SendUnstaked(c, k.pool, lp).value, k, lp);
    }
  }

  lemma UnlockKeepsRecords(c: State, k: Key, lp: nat)
    requires k in c.lockups && Open(c.lockups[k]) && UnlockStaked(c, k, lp).Ok?
    ensures SameRecords(c.lockups, UnlockStaked(c, k, lp).value.lockups)
  {
    CloseKeepsRecords(Unstake(c, k.pool, lp).value, k, lp);
  }

  /** A claim changes nothing in the records of positions but debts, which only rise, and closes at most the position itself. */
  lemma ClaimKeepsRecords(c: State, now: nat, k: Key, withdraw: bool, rewards: seq<(Token, nat)>, tokens: seq<Token>)
    requires Claim(c, now, k, withdraw, rewards, tokens).Ok?
    ensures SameRecords(c.lockups, Claim(c, now, k, withdraw, rewards, tokens).value.lockups)
  {
    var c1 := FinalizeRewards(c, k.user).value;
    var c2 := if c1.pools.Get(k.pool).isStaked then Accrue(c1, k.pool, rewards).value else c1;
    WithdrawRewardsKeepsRecords(c2, k, withdraw, tokens);
  }

  // What the invariants are for

  /** For no pool and token has more been paid than received. */
  lemma PaidWithinReceived(c: State, p: Pool, t: Token)
    requires TokenInv(c, p, t)
    ensures c.Paid(p, t) <= c.Received(p, t)
  {
    TotalNonNeg(c.lockups, Claimable(p, t, PerShare(c, p, t)));
  }

  /** A claim never finds a debt above what the position has earned, it leaves the debt equal to that amount, and the
      contract has received enough to pay the difference. */
  lemma PayTokenSettles(c: State, k: Key, t: Token)
    requires TokenInv(c, k.pool, t) && k in c.lockups && Open(c.lockups[k])
    ensures var earned := MulFloor(PerShare(c, k.pool, t), c.lockups[k].units);
            && Amount(c.lockups[k].debts, t) <= earned
            && c.Paid(k.pool, t) + earned - Amount(c.lockups[k].debts, t) <= c.Received(k.pool, t)
            && (PayToken(c, k, c.lockups[k].units, t).Ok? ==>
                  Amount(PayToken(c, k, c.lockups[k].units, t).value.0.lockups[k].debts, t) == earned)
  {
    var l, perShare := c.lockups[k], PerShare(c, k.pool, t);
    var debt, earned := Amount(l.debts, t), MulFloor(perShare, l.units);
    assert Claimable(k.pool, t, perShare)(k, l) == perShare * l.units - ONE * debt;
    DivIsLargest(perShare * l.units, ONE, debt);
    MulFloorBounds(perShare, l.units);
    TotalNonNeg(c.lockups, Claimable(k.pool, t, perShare));
    if PayToken(c, k, l.units, t).Ok? && perShare != 0 {
      IncreaseAdds(l.debts, t, earned - debt, t);
    }
  }
}

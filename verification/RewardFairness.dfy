/** Rewards are not only covered but passed on: what arrives is spread over all staked LP tokens up to rounding, and a
    claim pays a position all that it has earned. */
module RewardFairness {
  import opened Basics
  import opened FixedPoint
  import opened Sums
  import opened RestrictedVector
  import X = LockdropXyk
  import S = LockdropXykSolvency
  import L = LockdropPcl
  import T = LockdropPclSolvency

  /** The largest gain per LP token leaves less than one unit of each LP token undistributed. */
  lemma GainBounds(received: nat, staked: nat)
    requires staked > 0
    ensures received * ONE - staked < Ratio(received, staked) * staked <= received * ONE
  {
    DivBounds(received * ONE, staked);
  }

  // XYK lockdrop

  /** Received generator rewards raise what all positions of the pool may claim by the received amount, less than
      10^-18 per LP token short; each position gets the same gain per unit. */
  lemma AccrueSpreadsAll(x: X.State, p: Pool, received: nat)
    requires S.PoolInv(x, p) && x.pools.Get(p).isStaked && X.Accrue(x, p, Some(received)).Ok?
    ensures var x' := X.Accrue(x, p, Some(received)).value;
            var before, after := Total(x.lockups, S.Claimable(p, x.pools.Get(p).perShare)), Total(x'.lockups, S.Claimable(p, x'.pools.Get(p).perShare));
            && ONE * received - x.ledger.staked.Get(p) < after - before <= ONE * received
            && x'.lockups == x.lockups
            && x'.ledger.received.Get(p) == x.ledger.received.Get(p) + received
  {
    var perShare, staked := x.pools.Get(p).perShare, x.ledger.staked.Get(p);
    var gain := Ratio(received, staked);
    GainBounds(received, staked);
    S.ClaimableGrows(x.lockups, p, perShare, gain);
  }

  /** A claim pays all that the position has earned since its debt was set, and sets the debt to what it has earned; an
      unlock returns exactly the position's units and takes them off the pool. */
  lemma ClaimPaysEarned(x: X.State, k: Key, withdraw: bool)
    requires S.PoolInv(x, k.pool) && x.pools.Get(k.pool).isStaked && k in x.lockups && X.WithdrawRewards(x, k, withdraw).Ok?
    ensures var x', l := X.WithdrawRewards(x, k, withdraw).value, x.lockups[k];
            var earned := MulFloor(x.pools.Get(k.pool).perShare, l.units);
            && l.debt <= earned
            && x'.ledger.paid == x.ledger.paid.Set(k.pool, x.ledger.paid.Get(k.pool) + earned - l.debt)
            && x'.lockups == x.lockups[k := l.(debt := earned, transferred := if withdraw then Some(l.units) else l.transferred)]
            && x'.ledger.staked.Get(k.pool) == x.ledger.staked.Get(k.pool) - (if withdraw then l.units else 0)
            && x'.pools.Get(k.pool).amountInLockups == x.pools.Get(k.pool).amountInLockups - (if withdraw then l.units else 0)
  {
    S.LpShareIsUnits(x, k);
  }

  // PCL lockdrop

  /** The same for every reward token of a PCL pool. */
  lemma AccrueTokenSpreadsAll(c: L.State, p: Pool, t: L.Token, received: nat)
    requires T.PoolInv(c, p) && c.pools.Get(p).isStaked && L.AccrueToken(c, p, t, received).Ok?
    ensures var c' := L.AccrueToken(c, p, t, received).value;
            var before, after := Total(c.lockups, T.Claimable(p, t, T.PerShare(c, p, t))), Total(c'.lockups, T.Claimable(p, t, T.PerShare(c', p, t)));
            && ONE * received - c.ledger.staked.Get(p) < after - before <= ONE * received
            && c'.lockups == c.lockups
            && c'.Received(p, t) == c.Received(p, t) + received
  {
    var staked := c.ledger.staked.Get(p);
    var gain := Ratio(received, staked);
    IncreaseAdds(c.pools.Get(p).perShare, t, gain, t);
    GainBounds(received, staked);
    T.ClaimableGrows(c.lockups, p, t, T.PerShare(c, p, t), gain);
  }

  /** Nothing is owed of a token: the debt is all that the position has earned of it. */
  predicate PaidUp(c: L.State, k: Key, t: L.Token)
    requires k in c.lockups
  {
    Amount(c.lockups[k].debts, t) == MulFloor(T.PerShare(c, k.pool, t), c.lockups[k].units)
  }

  /** Paying a listed token leaves nothing owed of it, paying another one changes nothing, and payments match the debt. */
  lemma PayTokenPaysUp(c: L.State, k: Key, s: L.Token, t: L.Token)
    requires T.TokenInv(c, k.pool, t) && k in c.lockups && L.Open(c.lockups[k]) && L.PayToken(c, k, c.lockups[k].units, s).Ok?
    ensures var c' := L.PayToken(c, k, c.lockups[k].units, s).value.0;
            && k in c'.lockups && c'.pools == c.pools && c'.lockups[k] == c.lockups[k].(debts := c'.lockups[k].debts)
            && (s == t || PaidUp(c, k, t) ==> PaidUp(c', k, t))
            && c'.Paid(k.pool, t) - c.Paid(k.pool, t) == Amount(c'.lockups[k].debts, t) - Amount(c.lockups[k].debts, t)
  {
    var l := c.lockups[k];
    T.PayTokenSettles(c, k, t);
    if T.PerShare(c, k.pool, s) != 0 {
      IncreaseAdds(l.debts, s, MulFloor(T.PerShare(c, k.pool, s), l.units) - Amount(l.debts, s), t);
    }
  }

  /** After a claim nothing is owed of any listed token, and exactly what was owed before has been paid. */
  lemma {:induction false} PayTokensPayUp(c: L.State, k: Key, lp: nat, tokens: seq<L.Token>, t: L.Token)
    requires T.Payable(c, k, lp, k.pool, t) && L.PayTokens(c, k, lp, tokens).Ok?
    ensures var c' := L.PayTokens(c, k, lp, tokens).value.0;
            && k in c'.lockups
            && (t in tokens || PaidUp(c, k, t) ==> PaidUp(c', k, t))
            && c'.Paid(k.pool, t) - c.Paid(k.pool, t) == Amount(c'.lockups[k].debts, t) - Amount(c.lockups[k].debts, t)
    decreases |tokens|
  {
    if tokens != [] {
      var c1 := L.PayToken(c, k, lp, tokens[0]).value.0;
      PayTokenPaysUp(c, k, tokens[0], t);
      T.PayTokenKeeps(c, k, lp, tokens[0], k.pool, t);
      PayTokensPayUp(c1, k, lp, tokens[1..], t);
      assert t in tokens ==> t == tokens[0] || t in tokens[1..];
    }
  }
}

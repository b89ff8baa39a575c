/** What every run of the auction keeps: totals over users, entitlements within the minted LP tokens, vesting once. */
module AuctionProofs {
  import opened Basics
  import opened FixedPoint
  import opened Sums
  import opened Auction
  import Windows

  function DepositedIn(p: Pool): (Addr, UserInfo) -> int {
    (u: Addr, i: UserInfo) => i.deposited.Get(p)
  }

  function LockedIn(p: Pool): (Addr, UserInfo) -> int {
    (u: Addr, i: UserInfo) => i.locked.Get(p)
  }

  /** A user's part of the LP tokens when the pool's deposits total total. */
  function PartIn(p: Pool, total: nat, lpSize: nat): (Addr, UserInfo) -> int {
    (u: Addr, i: UserInfo) => LpPart(i.deposited.Get(p), total, lpSize)
  }

  /** What still has to vest for a user. */
  function RestIn(p: Pool, total: nat, lpSize: nat): (Addr, UserInfo) -> int {
    (u: Addr, i: UserInfo) => if i.vested then 0 else LpPart(i.deposited.Get(p), total, lpSize) - i.locked.Get(p)
  }

  /** Totals equal the sums over the users, and nobody has locked more than his part. */
  ghost predicate PoolInv(a: State, p: Pool) {
    && a.deposited.Get(p) == Total(a.users, DepositedIn(p))
    && a.locked.Get(p) == Total(a.users, LockedIn(p))
    && (forall u :: u in a.users ==> a.users[u].locked.Get(p) <= LpPart(a.users[u].deposited.Get(p), a.deposited.Get(p), a.lpSize.Get(p)))
  }

  /** The phases: sizes are set after the windows, pools are initialised after the lock window, users vest after that. */
  ghost predicate PhaseInv(a: State, now: nat) {
    && a.config.withdrawalWindow > 0
    && (now < a.config.WindowsEnd() ==> a.ntrnSize == PerPool(0, 0) && a.lpSize == PerPool(0, 0))
    && (a.ntrnSize == PerPool(0, 0) ==> a.lpSize == PerPool(0, 0) && a.locked == PerPool(0, 0))
    && (a.minted.None? ==> a.poolInitTime == 0 && a.ledger == Ledger(PerPool(0, 0), PerPool(0, 0), PerPool(0, 0), PerPool(map[], map[])) && forall u :: u in a.users ==> !a.users[u].vested)
    && (a.minted.Some? ==> now >= a.config.LockEnd() && a.ntrnSize != PerPool(0, 0))
  }

  // One user's part

  /** A user's part is half of the exact pro-rata share of the LP size, rounded down: never more, and less by less than
      2 + lpSize / 10^18 in the whole share. */
  lemma PartBound(deposited: nat, total: nat, lpSize: nat)
    requires total > 0
    ensures 2 * total * LpPart(deposited, total, lpSize) <= lpSize * deposited
    ensures ONE * (lpSize * deposited) < total * (ONE * (2 * LpPart(deposited, total, lpSize) + 2) + lpSize)
  {
    var lp := MulFloor(Ratio(deposited, total), lpSize);
    PartBounds(deposited, total, lpSize);
    MulMono(total, 2 * (lp / 2), lp);
    assert total * (2 * (lp / 2)) == 2 * total * (lp / 2);
    MulMono(total, ONE * (lp + 1) + lpSize, ONE * (2 * (lp / 2) + 2) + lpSize);
  }

  /** All users' parts together are at most half of the LP tokens, through all roundings. */
  lemma PartsWithinHalf(users: map<Addr, UserInfo>, p: Pool, total: nat, lpSize: nat)
    requires total == Total(users, DepositedIn(p))
    ensures 2 * Total(users, PartIn(p, total, lpSize)) <= lpSize
  {
    var parts := Total(users, PartIn(p, total, lpSize));
    if total == 0 {
      forall u | u in users
        ensures 1 * PartIn(p, total, lpSize)(u, users[u]) <= 0 * PartIn(p, total, lpSize)(u, users[u])
      {
      }
      TotalScaledMono(users, 1, PartIn(p, total, lpSize), 0, PartIn(p, total, lpSize));
    } else {
      forall u | u in users
        ensures 2 * total * PartIn(p, total, lpSize)(u, users[u]) <= lpSize * DepositedIn(p)(u, users[u])
      {
        PartBound(users[u].deposited.Get(p), total, lpSize);
      }
      TotalScaledMono(users, 2 * total, PartIn(p, total, lpSize), lpSize, DepositedIn(p));
      CancelTotal(total, parts, lpSize);
    }
  }

  lemma CancelTotal(total: nat, parts: int, lpSize: nat)
    requires total > 0 && 2 * total * parts <= lpSize * total
    ensures 2 * parts <= lpSize
  {
    assert 2 * total * parts == total * (2 * parts);
    Cancel(total, 2 * parts, lpSize);
  }

  // Steps

  lemma DepositKeepsPool(a: State, now: nat, u: Addr, amount: PerPool<nat>, p: Pool)
    requires PoolInv(a, p) && PhaseInv(a, now) && Deposit(a, now, u, amount).Ok?
    ensures PoolInv(Deposit(a, now, u, amount).value, p)
  {
    var a' := Deposit(a, now, u, amount).value;
    TotalSet(a.users, DepositedIn(p), u, a'.users[u]);
    TotalSet(a.users, LockedIn(p), u, a'.users[u]);
    NobodyLocked(a, p);
  }

  lemma NobodyLocked(a: State, p: Pool)
    requires PoolInv(a, p) && a.locked.Get(p) == 0
    ensures forall u :: u in a.users ==> a.users[u].locked.Get(p) == 0
    ensures forall u :: a.User(u).locked.Get(p) == 0
  {
    forall u | u in a.users
      ensures LockedIn(p)(u, a.users[u]) >= 0
    {
    }
    TotalNonNeg(a.users, LockedIn(p));
    forall u | u in a.users
      ensures a.users[u].locked.Get(p) == 0
    {
      assert LockedIn(p)(u, a.users[u]) == a.users[u].locked.Get(p);
    }
  }

  lemma WithdrawKeepsPool(a: State, now: nat, u: Addr, amount: PerPool<nat>, p: Pool)
    requires PoolInv(a, p) && PhaseInv(a, now) && Withdraw(a, now, u, amount).Ok?
    ensures PoolInv(Withdraw(a, now, u, amount).value, p)
  {
    var a' := Withdraw(a, now, u, amount).value;
    WithdrawInWindow(a, now, u, amount);
    TotalSet(a.users, DepositedIn(p), u, a'.users[u]);
    TotalSet(a.users, LockedIn(p), u, a'.users[u]);
    NobodyLocked(a, p);
  }

  /** Deposits move only while the windows are open. */
  lemma WithdrawInWindow(a: State, now: nat, u: Addr, amount: PerPool<nat>)
    requires PhaseInv(a, now) && Withdraw(a, now, u, amount).Ok?
    ensures now < a.config.WindowsEnd()
  {
    if now >= a.config.WindowsEnd() {
      Windows.KeepsHalf(a.users[u].deposited.usdc, now, a.config.DepositEnd(), a.config.withdrawalWindow);
      Windows.KeepsHalf(a.users[u].deposited.atom, now, a.config.DepositEnd(), a.config.withdrawalWindow);
    }
  }

  lemma SetPoolSizeKeepsPool(a: State, now: nat, ntrn: nat, rates: seq<Rate>, p: Pool)
    requires PoolInv(a, p) && PhaseInv(a, now) && SetPoolSize(a, now, ntrn, rates).Ok?
    ensures PoolInv(SetPoolSize(a, now, ntrn, rates).value, p)
  {
    NobodyLocked(a, p);
  }

  lemma LockKeepsPool(a: State, now: nat, u: Addr, q: Pool, amount: nat, p: Pool)
    requires PoolInv(a, p) && LockLp(a, now, u, q, amount).Ok?
    ensures PoolInv(LockLp(a, now, u, q, amount).value, p)
  {
    var a' := LockLp(a, now, u, q, amount).value;
    TotalSet(a.users, DepositedIn(p), u, a'.users[u]);
    TotalSet(a.users, LockedIn(p), u, a'.users[u]);
  }

  lemma WithdrawLpKeepsPool(a: State, now: nat, u: Addr, q: Pool, amount: nat, p: Pool)
    requires PoolInv(a, p) && WithdrawLp(a, now, u, q, amount).Ok?
    ensures PoolInv(WithdrawLp(a, now, u, q, amount).value, p)
  {
    var a' := WithdrawLp(a, now, u, q, amount).value;
    TotalSet(a.users, DepositedIn(p), u, a'.users[u]);
    TotalSet(a.users, LockedIn(p), u, a'.users[u]);
  }

  // The pool sizes

  /** The NTRN is split between the pools without loss, and each size is what the first provider of the amounts gets. */
  lemma PoolSizesSplitNtrn(a: State, now: nat, ntrn: nat, rates: seq<Rate>)
    requires SetPoolSize(a, now, ntrn, rates).Ok?
    ensures var a' := SetPoolSize(a, now, ntrn, rates).value;
            && a'.ntrnSize.usdc + a'.ntrnSize.atom == ntrn
            && forall p :: var lp := a'.lpSize.Get(p) + MINIMUM_LIQUIDITY;
                 lp * lp <= a'.ntrnSize.Get(p) * a.deposited.Get(p) < (lp + 1) * (lp + 1)
  {
  }

  /** The split never asks for more NTRN than there is, so its subtraction cannot fail. */
  lemma UsdcPartFits(deposited: PerPool<nat>, ntrn: nat, rates: seq<Rate>)
    requires |rates| == 2 && UsdcNtrnSize(deposited, ntrn, rates).Ok?
    ensures UsdcNtrnSize(deposited, ntrn, rates).value <= ntrn
  {
    var usdcToAtom := CheckedRatio(rates[1].rate, rates[0].rate).value;
    var all := deposited.usdc + CheckedRatio(deposited.atom * ONE, usdcToAtom).value / ONE;
    RatioAtMostOne(deposited.usdc, all);
    var ratio := Ratio(deposited.usdc, all);
    MulMono(ntrn, ratio, ONE);
    MulFloorBounds(ratio, ntrn);
  }

  /** What the deposited ATOM is worth in USDC at the oracle's rates. */
  function AtomValue(deposited: nat, usdcToAtom: nat): nat
    requires usdcToAtom > 0
  {
    Ratio(deposited * ONE, usdcToAtom) / ONE
  }

  /** The NTRN is split by value: with v the worth of the deposited ATOM in USDC, that is, the largest whole number of USDC
      whose price in ATOM is within the deposit, the USDC pool gets the part usdc / (usdc + v), up to rounding. */
  lemma SplitByValue(deposited: PerPool<nat>, ntrn: nat, rates: seq<Rate>, v: nat)
    requires |rates| == 2 && UsdcNtrnSize(deposited, ntrn, rates).Ok?
    ensures var price, size := CheckedRatio(rates[1].rate, rates[0].rate).value, UsdcNtrnSize(deposited, ntrn, rates).value;
            && price > 0
            && (price * v <= deposited.atom * ONE <==> v <= AtomValue(deposited.atom, price))
            && (v == AtomValue(deposited.atom, price) ==>
                  && (deposited.usdc + v) * size <= ntrn * deposited.usdc
                  && ONE * (ntrn * deposited.usdc) < (deposited.usdc + v) * (ONE * (size + 1) + ntrn))
  {
    var price := CheckedRatio(rates[1].rate, rates[0].rate).value;
    var atom := deposited.atom * ONE;
    WorthOf(atom, price, v);
    if v == AtomValue(deposited.atom, price) {
      PartBounds(deposited.usdc, deposited.usdc + v, ntrn);
    }
  }

  /** The sizes split all of the NTRN by the value of the deposits. The price is what one USDC costs in ATOM by the two rates,
      and v what the deposited ATOM is worth in USDC at this price, both rounded down; the USDC pool gets the part
      usdc / (usdc + v), rounded down twice, and the ATOM pool the rest. The LP tokens are the geometric mean of the two
      amounts in a pool, rounded down, less 1000. */
  predicate SplitsByValue(deposited: PerPool<nat>, sizes: PerPool<nat>, lpSizes: PerPool<nat>, rates: seq<Rate>, price: nat, v: nat) {
    var ntrn := sizes.usdc + sizes.atom;
    && |rates| == 2
    && rates[0].rate * price <= rates[1].rate * ONE < rates[0].rate * (price + 1)
    && price * v <= deposited.atom * ONE < price * (v + 1)
    && (deposited.usdc + v) * sizes.usdc <= ntrn * deposited.usdc
    && ONE * (ntrn * deposited.usdc) < (deposited.usdc + v) * (ONE * (sizes.usdc + 1) + ntrn)
    && IsMean(sizes.usdc, deposited.usdc, lpSizes.usdc + 1_000)
    && IsMean(sizes.atom, deposited.atom, lpSizes.atom + 1_000)
  }

  predicate IsMean(a: nat, b: nat, m: nat) {
    m * m <= a * b < (m + 1) * (m + 1)
  }

  /** What the accepted message stores is such a split of just the NTRN sent along, and nothing else changes. */
  lemma SetPoolSizeSplits(a: State, now: nat, ntrn: nat, rates: seq<Rate>) returns (price: nat, v: nat)
    requires SetPoolSize(a, now, ntrn, rates).Ok?
    ensures var a' := SetPoolSize(a, now, ntrn, rates).value;
            && SplitsByValue(a.deposited, a'.ntrnSize, a'.lpSize, rates, price, v)
            && a'.ntrnSize.usdc + a'.ntrnSize.atom == ntrn
            && a' == a.(ntrnSize := a'.ntrnSize, lpSize := a'.lpSize)
  {
    price := CheckedRatio(rates[1].rate, rates[0].rate).value;
    v := AtomValue(a.deposited.atom, price);
    DivBounds(rates[1].rate * ONE, rates[0].rate);
    SplitByValue(a.deposited, ntrn, rates, v);
    SplitByValue(a.deposited, ntrn, rates, v + 1);
    PoolSizesSplitNtrn(a, now, ntrn, rates);
    var a' := SetPoolSize(a, now, ntrn, rates).value;
    assert a'.lpSize.Get(USDC) + MINIMUM_LIQUIDITY == a'.lpSize.usdc + 1_000 && a'.lpSize.Get(ATOM) + MINIMUM_LIQUIDITY == a'.lpSize.atom + 1_000;
  }

  lemma WorthOf(atom: nat, price: nat, v: nat)
    requires price > 0
    ensures v <= Ratio(atom, price) / ONE <==> price * v <= atom
  {
    DivIsLargest(Ratio(atom, price), ONE, v);
    DivIsLargest(atom * ONE, price, ONE * v);
    assert price * (ONE * v) == ONE * (price * v);
    Cancel(ONE, price * v, atom);
    if price * v <= atom {
      MulMono(ONE, price * v, atom);
    }
  }

  lemma RatioAtMostOne(n: nat, d: nat)
    requires 0 < d && n <= d
    ensures Ratio(n, d) <= ONE
  {
    DivMono(n * ONE, d * ONE, d);
    assert d * ONE == ONE * d;
    MulDivCancel(ONE, d);
  }

  // Phases

  lemma TimePasses(a: State, now: nat, later: nat)
    requires PhaseInv(a, now) && now <= later
    ensures PhaseInv(a, later)
  {
  }

  lemma WindowStepsKeepPhase(a: State, a': State, now: nat)
    requires PhaseInv(a, now)
    requires
      || (exists u, amount :: Deposit(a, now, u, amount) == Ok(a'))
      || (exists u, amount :: Withdraw(a, now, u, amount) == Ok(a'))
      || (exists ntrn, rates :: SetPoolSize(a, now, ntrn, rates) == Ok(a'))
    ensures PhaseInv(a', now)
  {
  }

  lemma LockStepsKeepPhase(a: State, a': State, now: nat)
    requires PhaseInv(a, now)
    requires
      || (exists u, p, amount :: LockLp(a, now, u, p, amount) == Ok(a'))
      || (exists u, p, amount :: WithdrawLp(a, now, u, p, amount) == Ok(a'))
      || (exists minted :: InitPool(a, now, minted) == Ok(a'))
    ensures PhaseInv(a', now)
  {
  }
}

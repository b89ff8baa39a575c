/** The auction's LP tokens after initialisation: none are missing, and every user's rest vests exactly once. */
module AuctionVesting {
  import opened Basics
  import opened FixedPoint
  import opened Sums
  import opened Auction
  import opened AuctionProofs
  import Ordered

  function Vests(): (Addr, nat) -> int {
    (u: Addr, amount: nat) => amount
  }

  ghost function Parts(a: State, p: Pool): int {
    Total(a.users, PartIn(p, a.deposited.Get(p), a.lpSize.Get(p)))
  }

  ghost function Rests(a: State, p: Pool): int {
    Total(a.users, RestIn(p, a.deposited.Get(p), a.lpSize.Get(p)))
  }

  /** Who is vested has received exactly the part that is not locked, and nobody else anything. */
  predicate VestedRight(a: State, u: Addr, p: Pool) {
    Vested(a, u, p) == if a.User(u).vested then Entitlement(a, u, p) - a.User(u).locked.Get(p) else 0
  }

  /** Once the pool is initialised: minted LP tokens are at the reserve, at the lockdrop, vesting or still held, and what
      is held is half of the minted tokens less all parts plus those still to vest. */
  ghost predicate LpInv(a: State, p: Pool) {
    a.minted.Some? ==>
      var minted := a.minted.value.Get(p);
      && a.ledger.reserve.Get(p) == minted / 2
      && a.ledger.toLockdrop.Get(p) == a.locked.Get(p)
      && a.ledger.held.Get(p) + a.ledger.reserve.Get(p) + a.ledger.toLockdrop.Get(p) + Total(a.ledger.vesting.Get(p), Vests()) == minted
      && a.ledger.held.Get(p) == minted - minted / 2 - Parts(a, p) + Rests(a, p)
      && forall u :: VestedRight(a, u, p)
  }

  /** The pairs minted at least the computed sizes. */
  predicate MintedEnough(a: State) {
    a.minted.Some? ==> a.minted.value.usdc >= a.lpSize.usdc && a.minted.value.atom >= a.lpSize.atom
  }

  lemma InitPoolEstablishes(a: State, now: nat, minted: PerPool<nat>, p: Pool)
    requires PoolInv(a, p) && PhaseInv(a, now) && InitPool(a, now, minted).Ok?
    ensures LpInv(InitPool(a, now, minted).value, p) && PoolInv(InitPool(a, now, minted).value, p)
  {
    var total, lpSize := a.deposited.Get(p), a.lpSize.Get(p);
    forall u | u in a.users
      ensures PartIn(p, total, lpSize)(u, a.users[u]) == RestIn(p, total, lpSize)(u, a.users[u]) + 1 * LockedIn(p)(u, a.users[u])
    {
    }
    TotalLinear(a.users, RestIn(p, total, lpSize), LockedIn(p), 1, PartIn(p, total, lpSize));
  }

  /** When enough was minted, the locked LP tokens can be sent to the lockdrop: initialisation cannot run short. */
  lemma InitPoolNeverShort(a: State, now: nat, minted: PerPool<nat>)
    requires PoolInv(a, USDC) && PoolInv(a, ATOM) && PhaseInv(a, now)
    requires a.minted.None? && now >= a.config.LockEnd() && (a.lpSize.usdc != 0 || a.lpSize.atom != 0)
    requires minted.usdc >= a.lpSize.usdc && minted.atom >= a.lpSize.atom
    ensures InitPool(a, now, minted).Ok?
  {
    LockedWithinHalf(a, USDC);
    LockedWithinHalf(a, ATOM);
  }

  lemma LockedWithinHalf(a: State, p: Pool)
    requires PoolInv(a, p)
    ensures 2 * a.locked.Get(p) <= a.lpSize.Get(p)
  {
    var total, lpSize := a.deposited.Get(p), a.lpSize.Get(p);
    PartsWithinHalf(a.users, p, total, lpSize);
    forall u | u in a.users
      ensures LockedIn(p)(u, a.users[u]) <= PartIn(p, total, lpSize)(u, a.users[u])
    {
    }
    TotalMono(a.users, LockedIn(p), a.users, PartIn(p, total, lpSize));
  }

  /** Rests are never negative and, when enough was minted, the auction still holds them. */
  lemma RestsAreHeld(a: State, p: Pool)
    requires PoolInv(a, p) && LpInv(a, p) && a.minted.Some? && MintedEnough(a)
    ensures forall u :: u in a.users && !a.users[u].vested ==>
              a.users[u].locked.Get(p) <= Entitlement(a, u, p) && Entitlement(a, u, p) - a.users[u].locked.Get(p) <= a.ledger.held.Get(p)
  {
    var total, lpSize := a.deposited.Get(p), a.lpSize.Get(p);
    PartsWithinHalf(a.users, p, total, lpSize);
    forall u | u in a.users
      ensures RestIn(p, total, lpSize)(u, a.users[u]) >= 0
    {
    }
    TotalNonNeg(a.users, RestIn(p, total, lpSize));
    forall u | u in a.users && !a.users[u].vested
      ensures Entitlement(a, u, p) - a.users[u].locked.Get(p) <= a.ledger.held.Get(p)
    {
      assert RestIn(p, total, lpSize)(u, a.users[u]) <= Rests(a, p);
    }
  }

  lemma VestUserKeeps(a: State, u: Addr, p: Pool)
    requires PoolInv(a, p) && LpInv(a, p) && a.minted.Some? && u in a.users && !a.users[u].vested && VestUser(a, u).Ok?
    ensures PoolInv(VestUser(a, u).value, p) && LpInv(VestUser(a, u).value, p)
  {
    var a' := VestUser(a, u).value;
    var total, lpSize := a.deposited.Get(p), a.lpSize.Get(p);
    TotalSet(a.users, DepositedIn(p), u, a'.users[u]);
    TotalSet(a.users, LockedIn(p), u, a'.users[u]);
    TotalSet(a.users, PartIn(p, total, lpSize), u, a'.users[u]);
    TotalSet(a.users, RestIn(p, total, lpSize), u, a'.users[u]);
    TotalSet(a.ledger.vesting.Get(p), Vests(), u, a'.ledger.vesting.Get(p)[u]);
    assert VestedRight(a, u, p);
    forall v
      ensures VestedRight(a', v, p)
    {
      assert VestedRight(a, v, p);
    }
  }

  /** With enough minted, a user who is not vested yet can always be handed over. */
  lemma VestUserNeverShort(a: State, u: Addr)
    requires forall p :: PoolInv(a, p) && LpInv(a, p)
    requires a.minted.Some? && MintedEnough(a) && u in a.users && !a.users[u].vested
    ensures VestUser(a, u).Ok?
  {
    RestsAreHeld(a, USDC);
    RestsAreHeld(a, ATOM);
  }

  /** Users that are waiting, each listed once. */
  ghost predicate Waiting(a: State, batch: seq<Addr>) {
    && (forall i :: 0 <= i < |batch| ==> batch[i] in a.users && !a.users[batch[i]].vested)
    && (forall i, j :: 0 <= i < j < |batch| ==> batch[i] != batch[j])
  }

  lemma {:induction false} VestUsersKeep(a: State, batch: seq<Addr>)
    requires forall p :: PoolInv(a, p) && LpInv(a, p)
    requires a.minted.Some? && Waiting(a, batch) && VestUsers(a, batch).Ok?
    ensures var a' := VestUsers(a, batch).value;
            && (forall p :: PoolInv(a', p) && LpInv(a', p))
            && Handed(a, a', batch)
    decreases |batch|
  {
    if batch != [] {
      var a1 := VestUser(a, batch[0]).value;
      forall p
        ensures PoolInv(a1, p) && LpInv(a1, p)
      {
        VestUserKeeps(a, batch[0], p);
      }
      VestUsersKeep(a1, batch[1..]);
      var a' := VestUsers(a1, batch[1..]).value;
      forall u | u in a'.users
        ensures a'.users[u].vested <==> a.users[u].vested || u in batch
      {
        assert u in batch <==> u == batch[0] || u in batch[1..];
      }
    }
  }

  /** Between a and a' exactly the users of the batch were handed over. */
  ghost predicate Handed(a: State, a': State, batch: seq<Addr>) {
    && a' == a.(users := a'.users, ledger := a'.ledger) && a'.users.Keys == a.users.Keys
    && (forall u :: u in a.users ==> a'.users[u] == a.users[u].(vested := a'.users[u].vested))
    && (forall u :: u in a.users ==> (a'.users[u].vested <==> a.users[u].vested || u in batch))
  }

  lemma {:induction false} VestUsersNeverShort(a: State, batch: seq<Addr>)
    requires forall p :: PoolInv(a, p) && LpInv(a, p)
    requires a.minted.Some? && MintedEnough(a) && Waiting(a, batch)
    ensures VestUsers(a, batch).Ok?
    decreases |batch|
  {
    if batch != [] {
      VestUserNeverShort(a, batch[0]);
      var a1 := VestUser(a, batch[0]).value;
      forall p
        ensures PoolInv(a1, p) && LpInv(a1, p)
      {
        VestUserKeeps(a, batch[0], p);
      }
      VestUsersNeverShort(a1, batch[1..]);
    }
  }

  lemma BatchIsWaiting(a: State)
    ensures Waiting(a, Batch(a))
    ensures |Batch(a)| == Min(a.config.packSize, |Unvested(a)|)
  {
    var waiting := Ordered.Ascending(Unvested(a));
    Ordered.AscendingIsSorted(Unvested(a));
    forall i | 0 <= i < |Batch(a)|
      ensures Batch(a)[i] in a.users && !a.users[Batch(a)[i]].vested
    {
      assert Batch(a)[i] == waiting[i];
      assert waiting[i] in waiting;
    }
  }

  /** A hand-over keeps all invariants, and each one takes min(packSize, waiting) users off the waiting list. */
  lemma MigrateKeeps(a: State)
    requires forall p :: PoolInv(a, p) && LpInv(a, p)
    requires a.minted.Some? && MigrateToVesting(a).Ok?
    ensures var a' := MigrateToVesting(a).value;
            && (forall p :: PoolInv(a', p) && LpInv(a', p))
            && Handed(a, a', Batch(a))
            && |Unvested(a')| == |Unvested(a)| - Min(a.config.packSize, |Unvested(a)|)
  {
    BatchIsWaiting(a);
    VestUsersKeep(a, Batch(a));
    HandedShrinks(a, MigrateToVesting(a).value, Batch(a));
  }

  lemma HandedShrinks(a: State, a': State, batch: seq<Addr>)
    requires Waiting(a, batch) && Handed(a, a', batch)
    ensures |Unvested(a')| == |Unvested(a)| - |batch|
  {
    forall u
      ensures u in Unvested(a) <==> u in Unvested(a') + Elements(batch)
    {
    }
    assert Unvested(a) == Unvested(a') + Elements(batch);
    BatchSize(batch);
  }

  function Elements(batch: seq<Addr>): set<Addr> {
    set u | u in batch
  }

  lemma {:induction false} BatchSize(batch: seq<Addr>)
    requires forall i, j :: 0 <= i < j < |batch| ==> batch[i] != batch[j]
    ensures |Elements(batch)| == |batch|
  {
    if batch != [] {
      BatchSize(batch[1..]);
      assert batch[0] !in Elements(batch[1..]);
      forall u
        ensures u in Elements(batch) <==> u in {batch[0]} + Elements(batch[1..])
      {
        assert u in batch <==> u == batch[0] || u in batch[1..];
      }
      assert Elements(batch) == {batch[0]} + Elements(batch[1..]);
    }
  }

  /** A batch has as many users as the pack size allows, and nobody who waits comes before any of them. */
  lemma BatchIsFirst(a: State)
    ensures |Batch(a)| == Min(a.config.packSize, |Unvested(a)|)
    ensures forall u :: u in Batch(a) ==> u in a.users && !a.users[u].vested
    ensures forall i, j :: 0 <= i < j < |Batch(a)| ==> Batch(a)[i] < Batch(a)[j]
    ensures forall u, v :: u in Batch(a) && v in a.users && !a.users[v].vested && v !in Batch(a) ==> u < v
  {
    var waiting, batch := Ordered.Ascending(Unvested(a)), Batch(a);
    Ordered.AscendingIsSorted(Unvested(a));
    forall u | u in batch
      ensures u in a.users && !a.users[u].vested
    {
      assert u in waiting;
    }
    forall u, v | u in batch && v in a.users && !a.users[v].vested && v !in batch
      ensures u < v
    {
      assert v in Unvested(a) && v in waiting;
      var i :| 0 <= i < |batch| && batch[i] == u;
      var j :| 0 <= j < |waiting| && waiting[j] == v;
      assert waiting[i] == u && |batch| <= j;
    }
  }

  /** If enough was minted, the auction's own part of a hand-over succeeds if and only if somebody is to be handed over;
      whether the vesting contracts accept their messages is another matter. */
  lemma AuctionPartSucceeds(a: State)
    requires forall p :: PoolInv(a, p) && LpInv(a, p)
    requires MintedEnough(a) && (a.poolInitTime != 0 ==> a.minted.Some?)
    ensures MigrateToVesting(a).Ok? <==> a.poolInitTime != 0 && a.config.packSize > 0 && Unvested(a) != {}
  {
    BatchIsWaiting(a);
    if a.poolInitTime != 0 {
      VestUsersNeverShort(a, Batch(a));
    }
  }
}

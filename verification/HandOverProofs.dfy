/** What the vesting contracts say to a hand-over, and what they have afterwards. */
module HandOverProofs {
  import opened Basics
  import opened FixedPoint
  import opened Auction
  import opened AuctionVesting
  import opened HandOver
  import Vesting

  lemma ScheduleIsValid(now: nat, duration: nat, amount: nat)
    requires amount > 0
    ensures Vesting.ValidSchedules([ScheduleFor(now, duration, amount)]) <==> duration > 0
    ensures Vesting.GrantOf([ScheduleFor(now, duration, amount)]) == amount
  {
    var s := ScheduleFor(now, duration, amount);
    assert [s][0] == s && [s][1..] == [];
    assert Vesting.ValidSchedules([s]) ==> Vesting.ValidSchedule([s][0]);
  }

  /** Registering the batch passes all schedule checks and deposits exactly the sent amount, unless the vesting duration is
      zero and something is to vest. */
  lemma {:induction false} RegisterBatch(a: State, batch: seq<Addr>, p: Pool, now: nat, accounts: map<Addr, Vesting.Info>, deposit: nat)
    requires deposit + Amount(a, batch, p) <= U128_MAX
    ensures var r := Vesting.RegisterAll(accounts, Accounts(a, batch, p, now), deposit);
            && (r.Ok? <==> a.config.vestingDuration > 0 || Amount(a, batch, p) == 0)
            && (r.Ok? ==> r.value.1 == deposit + Amount(a, batch, p))
    decreases |batch|
  {
    if batch != [] {
      var rest := Rest(a, batch[0], p);
      if rest == 0 {
        RegisterBatch(a, batch[1..], p, now, accounts, deposit);
      } else {
        var s := ScheduleFor(now, a.config.vestingDuration, rest);
        ScheduleIsValid(now, a.config.vestingDuration, rest);
        var list := Accounts(a, batch, p, now);
        assert list[0] == Vesting.Account(batch[0], [s]) && list[1..] == Accounts(a, batch[1..], p, now);
        RegisterBatch(a, batch[1..], p, now, Vesting.WithSchedules(accounts, list[0]), deposit + rest);
      }
    }
  }

  /** The auction gives away exactly what it sends along. */
  lemma {:induction false} SentIsGivenAway(a: State, batch: seq<Addr>, p: Pool)
    requires (forall i :: 0 <= i < |batch| ==> batch[i] in a.users) && VestUsers(a, batch).Ok?
    ensures a.ledger.held.Get(p) - VestUsers(a, batch).value.ledger.held.Get(p) == Amount(a, batch, p)
    decreases |batch|
  {
    if batch != [] {
      var a1 := VestUser(a, batch[0]).value;
      SentIsGivenAway(a1, batch[1..], p);
      SameAmount(a, a1, batch[1..], p);
    }
  }

  lemma {:induction false} SameAmount(a: State, a1: State, batch: seq<Addr>, p: Pool)
    requires a1.deposited == a.deposited && a1.lpSize == a.lpSize
    requires forall u :: a1.User(u).deposited == a.User(u).deposited && a1.User(u).locked == a.User(u).locked
    ensures Amount(a1, batch, p) == Amount(a, batch, p)
  {
    if batch != [] {
      SameAmount(a, a1, batch[1..], p);
      assert a1.User(batch[0]).deposited == a.User(batch[0]).deposited;
    }
  }

  /** Whenever a batch can be handed over, the vesting contract accepts it with the LP tokens sent along, provided that
      its total does not overflow, if and only if the vesting duration is positive or nothing is to vest. */
  lemma BatchIsAccepted(a: State, p: Pool, now: nat, v: Vesting.State)
    requires MigrateToVesting(a).Ok? && v.granted + Amount(a, Batch(a), p) <= U128_MAX
    ensures var sent := a.ledger.held.Get(p) - MigrateToVesting(a).value.ledger.held.Get(p);
            && sent == Amount(a, Batch(a), p)
            && (Vesting.Register(v, Accounts(a, Batch(a), p, now), sent).Ok? <==> a.config.vestingDuration > 0 || sent == 0)
  {
    BatchIsWaiting(a);
    SentIsGivenAway(a, Batch(a), p);
    RegisterBatch(a, Batch(a), p, now, v.accounts, 0);
  }

  // What the vesting contract has afterwards

  /** The accounts of m, and besides them one for every user of the batch with a rest. */
  ghost predicate Joined(a: State, batch: seq<Addr>, p: Pool, now: nat, m: map<Addr, Vesting.Info>, m': map<Addr, Vesting.Info>) {
    forall u :: JoinedFor(a, batch, p, now, m, m', u)
  }

  predicate JoinedFor(a: State, batch: seq<Addr>, p: Pool, now: nat, m: map<Addr, Vesting.Info>, m': map<Addr, Vesting.Info>, u: Addr) {
    if u in batch && Rest(a, u, p) > 0
    then u in m' && m'[u] == Vesting.Info([ScheduleFor(now, a.config.vestingDuration, Rest(a, u, p))], 0)
    else (u in m' <==> u in m) && (u in m ==> m'[u] == m[u])
  }

  /** Registering a batch of users that have no account yet gives each of them one schedule for the rest. */
  lemma {:induction false} RegisteredBatch(a: State, batch: seq<Addr>, p: Pool, now: nat, m: map<Addr, Vesting.Info>, deposit: nat)
    requires forall i, j :: 0 <= i < j < |batch| ==> batch[i] != batch[j]
    requires forall u :: u in batch ==> u !in m
    requires Vesting.RegisterAll(m, Accounts(a, batch, p, now), deposit).Ok?
    ensures Joined(a, batch, p, now, m, Vesting.RegisterAll(m, Accounts(a, batch, p, now), deposit).value.0)
    decreases |batch|
  {
    if batch != [] {
      var u, rest, list := batch[0], Rest(a, batch[0], p), Accounts(a, batch, p, now);
      assert forall v :: v in batch <==> v == u || v in batch[1..];
      var m1, deposit1 := m, deposit;
      if rest > 0 {
        var s := ScheduleFor(now, a.config.vestingDuration, rest);
        assert list[0] == Vesting.Account(u, [s]) && list[1..] == Accounts(a, batch[1..], p, now);
        assert [s] + [] == [s];
        m1, deposit1 := Vesting.WithSchedules(m, list[0]), deposit + Vesting.GrantOf([s]);
      }
      RegisteredBatch(a, batch[1..], p, now, m1, deposit1);
      JoinedFirst(a, batch, p, now, m, m1, Vesting.RegisterAll(m, list, deposit).value.0);
    }
  }

  lemma JoinedFirst(a: State, batch: seq<Addr>, p: Pool, now: nat, m: map<Addr, Vesting.Info>, m1: map<Addr, Vesting.Info>, m': map<Addr, Vesting.Info>)
    requires batch != [] && batch[0] !in batch[1..] && Joined(a, batch[1..], p, now, m1, m')
    requires m1 == if Rest(a, batch[0], p) > 0
                   then m[batch[0] := Vesting.Info([ScheduleFor(now, a.config.vestingDuration, Rest(a, batch[0], p))], 0)] else m
    ensures Joined(a, batch, p, now, m, m')
  {
    forall u
      ensures JoinedFor(a, batch, p, now, m, m', u)
    {
      assert JoinedFor(a, batch[1..], p, now, m1, m', u);
      assert u in batch <==> u == batch[0] || u in batch[1..];
    }
  }
}

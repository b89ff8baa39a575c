/** The migration of an account between the two LP vesting contracts in its own form. */
module VestingLpContract {
  import opened Basics
  import opened FixedPoint
  import V = Vesting
  import Lp = VestingLp
  import opened VestingContract

  lemma {:induction false} EndGrantSplit(s: seq<V.Schedule>, i: nat)
    requires i < |s|
    ensures Lp.EndGrants(s[..i + 1]) == Lp.EndGrants(s[..i]) + Lp.EndGrant(s[i])
    ensures Lp.EndGrants(s[..i + 1]) <= Lp.EndGrants(s)
  {
    if i == 0 {
      assert s[..1] == [s[0]];
    } else {
      EndGrantSplit(s[1..], i - 1);
      assert s[..i + 1][1..] == s[1..][..i] && s[..i][1..] == s[1..][..i - 1];
    }
  }

  /** The LP tokens that a migration takes along. */
  method ComputeShare(info: V.Info) returns (r: Result<nat>)
    ensures r == Lp.Share(info)
  {
    var available := 0;
    for i := 0 to |info.schedules|
      invariant available == Lp.EndGrants(info.schedules[..i]) <= U128_MAX
    {
      EndGrantSplit(info.schedules, i);
      if info.schedules[i].end.Some? {
        available := available + info.schedules[i].end.value.amount;
        if available > U128_MAX {
          return Err(Overflow);
        }
      }
    }
    assert info.schedules[..|info.schedules|] == info.schedules;
    return CheckedSub(available, info.released);
  }

  /** MigrateXYKLiquidity at the PCL contract: saves the account as it comes and adds its grants to the total. */
  method Receive(pcl: Contract, a: Addr, info: V.Info, amount: nat) returns (r: Result<()>)
    modifies pcl
    ensures match Lp.Receive(old(pcl.State()), a, info, amount)
            case Ok(c) => r == Ok(()) && pcl.State() == c
            case Err(e) => r == Err(e) && pcl.State() == old(pcl.State())
  {
    var deposit := AddGrants(0, info.schedules);
    if deposit.Err? {
      return Err(deposit.error);
    }
    if pcl.granted + deposit.value > U128_MAX {
      return Err(Overflow);
    }
    pcl.accounts := pcl.accounts[a := info];
    pcl.granted := pcl.granted + deposit.value;
    pcl.balance := pcl.balance + amount;
    return Ok(());
  }

  /** MigrateLiquidity and its callbacks; w is any world in which the two contracts are in their current states. */
  method MigrateLiquidity(xyk: Contract, pcl: Contract, a: Addr, worthless: bool, minted: nat, ghost w: Lp.World) returns (r: Result<()>)
    requires xyk != pcl && w.xyk == xyk.State() && w.pcl == pcl.State()
    modifies xyk, pcl
    ensures match Lp.Migrate(w, a, worthless, minted)
            case Ok(w') => r == Ok(()) && xyk.State() == w'.xyk && pcl.State() == w'.pcl
            case Err(e) => r == Err(e) && xyk.State() == w.xyk && pcl.State() == w.pcl
  {
    if a !in xyk.accounts {
      return Err(NotFound);
    }
    var info := xyk.accounts[a];
    var share := ComputeShare(info);
    if share.Err? {
      return Err(share.error);
    }
    if xyk.balance < share.value {
      return Err(InsufficientFunds);
    }
    if worthless {
      xyk.balance := xyk.balance - share.value;
      if |info.schedules| != 0 {
        xyk.accounts := xyk.accounts[a := V.Info([], 0)];
      }
      return Ok(());
    }
    if xyk.granted < share.value {
      return Err(Overflow);
    }
    if |info.schedules| == 0 {
      return Err(BadSchedule);
    }
    if minted != 0 {
      var last := info.schedules[|info.schedules| - 1];
      var end := if last.end.Some? then Some(V.Point(last.end.value.time, minted)) else None;
      var schedule := V.Schedule(V.Point(last.start.time, 0), end);
      var received := Receive(pcl, a, V.Info([schedule], 0), minted);
      if received.Err? {
        return received;
      }
    }
    xyk.granted := xyk.granted - share.value;
    xyk.balance := xyk.balance - share.value;
    xyk.accounts := xyk.accounts[a := V.Info([], 0)];
    return Ok(());
  }
}

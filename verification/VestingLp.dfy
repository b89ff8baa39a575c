/** The LP vesting contract of an XYK pair, from which accounts move to the vesting contract of the PCL pair. */
module VestingLp {
  import opened Basics
  import opened FixedPoint
  import opened Sums
  import opened Vesting
  import Runs = VestingRuns

  /** Besides the two contracts: LP tokens that migrations sent to users as dust, grants of open-ended schedules that they
      dropped, and what the migrated accounts had claimed before; in the PCL contract, what overwritten accounts had not
      claimed and had claimed, and LP tokens that arrived without a grant. */
  datatype World = World(now: nat, xyk: State, pcl: State,
                         dust: nat, stranded: nat, claimedBefore: nat,
                         overwritten: nat, overwrittenClaimed: nat, unscheduled: nat)

  // Migration

  function EndGrant(s: Schedule): nat {
    if s.end.Some? then s.end.value.amount else 0
  }

  function EndGrants(schedules: seq<Schedule>): nat {
    if schedules == [] then 0 else EndGrant(schedules[0]) + EndGrants(schedules[1..])
  }

  /** An account's LP tokens as the migration counts them: open-ended schedules are left out. */
  function Share(info: Info): Result<nat> {
    var grants :- Checked(EndGrants(info.schedules));
    CheckedSub(grants, info.released)
  }

  /** The schedule after the migration: the dates of the last one, and the LP tokens that the PCL pair minted. */
  function Rescheduled(last: Schedule, minted: nat): Schedule {
    Schedule(Point(last.start.time, 0), if last.end.Some? then Some(Point(last.end.value.time, minted)) else None)
  }

  function Reset(v: State, a: Addr, sent: nat): State
    requires sent <= v.balance
  {
    v.(accounts := v.accounts[a := Info([], 0)], balance := v.balance - sent)
  }

  /** MigrateXYKLiquidity as the PCL contract receives it together with the LP tokens. */
  function Receive(c: State, a: Addr, info: Info, amount: nat): Result<State> {
    var deposit :- Checked(GrantOf(info.schedules));
    var granted :- Checked(c.granted + deposit);
    Ok(c.(accounts := c.accounts[a := info], granted := granted, balance := c.balance + amount))
  }

  /** The whole migration of account a with its callbacks. The pair decides whether the withdrawn share would be
      worthless, that is, whether one of its two assets would come out as zero. */
  function Migrate(w: World, a: Addr, worthless: bool, minted: nat): Result<World> {
    if a !in w.xyk.accounts then Err(NotFound)
    else
      var info := w.xyk.accounts[a];
      var share :- Share(info);
      if w.xyk.balance < share then Err(InsufficientFunds)
      else if worthless then Ok(SendDust(w, a, share))
      else
        var granted :- CheckedSub(w.xyk.granted, share);
        if info.schedules == [] then Err(BadSchedule)
        else
          var w' := TakeOut(w, a, share, granted);
          if minted == 0 then Ok(w')
          else HandOver(w', a, Rescheduled(info.schedules[|info.schedules| - 1], minted), minted)
  }

  /** A worthless share goes to the user; the granted total stays as it is. */
  function SendDust(w: World, a: Addr, share: nat): World
    requires a in w.xyk.accounts && share <= w.xyk.balance
  {
    var info := w.xyk.accounts[a];
    var xyk := if info.schedules == [] then w.xyk.(balance := w.xyk.balance - share) else Reset(w.xyk, a, share);
    Forget(w, info).(xyk := xyk, dust := w.dust + share)
  }

  /** Any other share goes back to the XYK pair and is taken off the granted total. */
  function TakeOut(w: World, a: Addr, share: nat, granted: nat): World
    requires a in w.xyk.accounts && share <= w.xyk.balance
  {
    Forget(w, w.xyk.accounts[a]).(xyk := Reset(w.xyk, a, share).(granted := granted))
  }

  function HandOver(w: World, a: Addr, s: Schedule, minted: nat): Result<World> {
    var c :- Receive(w.pcl, a, Info([s], 0), minted);
    Ok(Overwrite(w, a).(pcl := c, unscheduled := w.unscheduled + minted - Min(minted, Grant(s))))
  }

  function Forget(w: World, info: Info): World {
    EndWithin(info.schedules);
    w.(stranded := w.stranded + GrantOf(info.schedules) - EndGrants(info.schedules), claimedBefore := w.claimedBefore + info.released)
  }

  function Overwrite(w: World, a: Addr): World {
    var old' := if a in w.pcl.accounts then w.pcl.accounts[a] else Info([], 0);
    var lost := GrantOf(old'.schedules) - Min(GrantOf(old'.schedules), old'.released);
    w.(overwritten := w.overwritten + lost, overwrittenClaimed := w.overwrittenClaimed + old'.released)
  }

  lemma {:induction false} EndWithin(schedules: seq<Schedule>)
    ensures EndGrants(schedules) <= GrantOf(schedules)
    ensures (forall i :: 0 <= i < |schedules| ==> schedules[i].end.Some?) ==> EndGrants(schedules) == GrantOf(schedules)
  {
    if schedules != [] {
      EndWithin(schedules[1..]);
    }
  }

  // Books

  // Parts of a contract's totals and balance may no longer belong to any account: amounts claimed by accounts that are
  // gone, grants left unclaimed by them, and the tokens kept from them.

  predicate Covers(v: State, claimed: nat, unclaimed: nat, kept: nat) {
    claimed + unclaimed <= v.granted <= U128_MAX && claimed <= v.released && kept <= v.balance
  }

  /** The contract without these parts. */
  function Net(v: State, claimed: nat, unclaimed: nat, kept: nat): State
    requires Covers(v, claimed, unclaimed, kept)
  {
    State(v.accounts, v.granted - claimed - unclaimed, v.released - claimed, v.balance - kept)
  }

  ghost predicate BooksInv(v: State, claimed: nat, unclaimed: nat, kept: nat, now: nat) {
    Covers(v, claimed, unclaimed, kept) && LedgerInv(Net(v, claimed, unclaimed, kept), now) && AllValid(v)
  }

  ghost predicate XykInv(w: World) {
    BooksInv(w.xyk, w.claimedBefore, w.stranded + w.dust, w.stranded, w.now)
  }

  ghost predicate PclInv(w: World) {
    BooksInv(w.pcl, w.overwrittenClaimed, w.overwritten, w.overwritten + w.unscheduled, w.now)
  }

  ghost predicate WorldInv(w: World) {
    XykInv(w) && PclInv(w)
  }

  // Vesting messages work on the net books as on the full ones

  lemma RegisterNet(v: State, c: nat, u: nat, k: nat, list: seq<Account>, amount: nat, now: nat)
    requires BooksInv(v, c, u, k, now) && Register(v, list, amount).Ok?
    ensures BooksInv(Register(v, list, amount).value, c, u, k, now)
  {
    var v' := Register(v, list, amount).value;
    assert Register(Net(v, c, u, k), list, amount) == Ok(Net(v', c, u, k));
    RegisterKeeps(Net(v, c, u, k), list, amount, now);
    Runs.LedgerIsValid(Net(v', c, u, k), now);
  }

  lemma ClaimNet(v: State, c: nat, u: nat, k: nat, a: Addr, amount: Option<nat>, now: nat)
    requires BooksInv(v, c, u, k, now) && Claim(v, now, a, amount).Ok?
    ensures BooksInv(Claim(v, now, a, amount).value.0, c, u, k, now)
  {
    var v' := Claim(v, now, a, amount).value.0;
    assert AllValid(Net(v, c, u, k));
    ClaimSucceeds(Net(v, c, u, k), now, a, amount);
    assert Claim(Net(v, c, u, k), now, a, amount).value.0 == Net(v', c, u, k);
    ClaimKeeps(Net(v, c, u, k), now, a, amount);
    Runs.LedgerIsValid(Net(v', c, u, k), now);
  }

  lemma ExecuteNet(v: State, c: nat, u: nat, k: nat, now: nat, msg: Runs.Msg)
    requires BooksInv(v, c, u, k, now) && !msg.Remove?
    ensures BooksInv(Runs.Apply(v, now, msg), c, u, k, now)
  {
    if Runs.Execute(v, now, msg).Ok? {
      match msg
      case Register(list, amount) => RegisterNet(v, c, u, k, list, amount, now);
      case Claim(account, amount) => ClaimNet(v, c, u, k, account, amount, now);
    }
  }

  /** Every account can claim what has vested: no subtraction fails, and the balance covers it. */
  lemma ClaimNetSucceeds(v: State, c: nat, u: nat, k: nat, a: Addr, now: nat)
    requires BooksInv(v, c, u, k, now) && a in v.accounts
    ensures Claim(v, now, a, None).Ok? && Claim(v, now, a, None).value.1 == VestedAt(v.accounts[a].schedules, now) - v.accounts[a].released
  {
    ClaimSucceeds(Net(v, c, u, k), now, a, None);
    AccountWithinTotals(Net(v, c, u, k), now, a);
  }

  lemma TimePassesNet(v: State, c: nat, u: nat, k: nat, now: nat, later: nat)
    requires BooksInv(v, c, u, k, now) && now <= later
    ensures BooksInv(v, c, u, k, later)
  {
    TimePasses(Net(v, c, u, k), now, later);
  }

  // Migration keeps the books

  /** Replacing one account's record moves the difference from the accounts to the other parts, or back. */
  lemma ReplaceKeeps(v: State, c: nat, u: nat, k: nat, v': State, c': nat, u': nat, k': nat, a: Addr, info: Info, now: nat)
    requires BooksInv(v, c, u, k, now) && v'.accounts == v.accounts[a := info] && AccountInv(info, now) && Covers(v', c', u', k')
    requires var old' := if a in v.accounts then v.accounts[a] else Info([], 0);
             && v'.granted - c' - u' == v.granted - c - u - GrantOf(old'.schedules) + GrantOf(info.schedules)
             && v'.released - c' == v.released - c - old'.released + info.released
             && v'.balance - k' == v.balance - k - (GrantOf(old'.schedules) - old'.released) + (GrantOf(info.schedules) - info.released)
    ensures BooksInv(v', c', u', k', now)
  {
    TotalSet(v.accounts, GrantedTo(), a, info);
    TotalSet(v.accounts, ReleasedTo(), a, info);
    forall b | b in v'.accounts
      ensures AccountInv(v'.accounts[b], now)
    {
      assert b != a ==> AccountInv(v.accounts[b], now);
    }
    Runs.LedgerIsValid(Net(v', c', u', k'), now);
  }

  /** No account, migrated or not, has claimed more than it was granted. */
  lemma ClaimedWithinGrant(v: State, c: nat, u: nat, k: nat, a: Addr, now: nat)
    requires BooksInv(v, c, u, k, now) && a in v.accounts
    ensures var i := v.accounts[a];
            && i.released <= GrantOf(i.schedules) && (i.schedules == [] ==> i.released == 0)
            && GrantOf(i.schedules) - i.released <= v.balance - k
            && GrantOf(i.schedules) <= v.granted - c - u && i.released <= v.released - c
            && ValidSchedules(i.schedules)
  {
    AccountWithinTotals(Net(v, c, u, k), now, a);
  }

  lemma LeaverWithinGrant(w: World, a: Addr)
    requires XykInv(w) && a in w.xyk.accounts
    ensures var i := w.xyk.accounts[a];
            && i.released <= GrantOf(i.schedules) && (i.schedules == [] ==> i.released == 0)
            && GrantOf(i.schedules) - i.released <= w.xyk.balance - w.stranded
            && GrantOf(i.schedules) <= w.xyk.granted - w.claimedBefore - w.stranded - w.dust && i.released <= w.xyk.released - w.claimedBefore
            && EndGrants(i.schedules) <= GrantOf(i.schedules) && ValidSchedules(i.schedules)
  {
    ClaimedWithinGrant(w.xyk, w.claimedBefore, w.stranded + w.dust, w.stranded, a, w.now);
    EndWithin(w.xyk.accounts[a].schedules);
  }

  /** An account leaves: its record is emptied, and what it does not take along is accounted for. */
  lemma LeaveKeeps(w: World, w': World, a: Addr)
    requires XykInv(w) && a in w.xyk.accounts && w'.now == w.now
    requires w'.xyk.accounts == w.xyk.accounts[a := Info([], 0)] && Covers(w'.xyk, w'.claimedBefore, w'.stranded + w'.dust, w'.stranded)
    requires var i := w.xyk.accounts[a];
             && w'.claimedBefore == w.claimedBefore + i.released && w'.xyk.released == w.xyk.released
             && w.xyk.granted - w'.xyk.granted + w'.stranded + w'.dust - w.stranded - w.dust == GrantOf(i.schedules) - i.released
             && w.xyk.balance - w'.xyk.balance + w'.stranded - w.stranded == GrantOf(i.schedules) - i.released
    ensures XykInv(w')
  {
    ReplaceKeeps(w.xyk, w.claimedBefore, w.stranded + w.dust, w.stranded, w'.xyk, w'.claimedBefore, w'.stranded + w'.dust, w'.stranded, a, Info([], 0), w.now);
  }

  lemma SendDustKeeps(w: World, a: Addr, share: nat)
    requires WorldInv(w) && a in w.xyk.accounts && share <= w.xyk.balance && Share(w.xyk.accounts[a]) == Ok(share)
    ensures WorldInv(SendDust(w, a, share))
  {
    LeaverWithinGrant(w, a);
    if w.xyk.accounts[a].schedules == [] {
      assert w.xyk.accounts[a := Info([], 0)] == w.xyk.accounts;
    }
    LeaveKeeps(w, SendDust(w, a, share), a);
  }

  lemma TakeOutKeeps(w: World, a: Addr, share: nat)
    requires WorldInv(w) && a in w.xyk.accounts && share <= w.xyk.balance && Share(w.xyk.accounts[a]) == Ok(share) && share <= w.xyk.granted
    ensures WorldInv(TakeOut(w, a, share, w.xyk.granted - share))
  {
    LeaverWithinGrant(w, a);
    LeaveKeeps(w, TakeOut(w, a, share, w.xyk.granted - share), a);
  }

  lemma HandOverKeeps(w: World, a: Addr, s: Schedule, minted: nat)
    requires WorldInv(w) && ValidSchedule(s) && Grant(s) <= minted && HandOver(w, a, s, minted).Ok?
    ensures WorldInv(HandOver(w, a, s, minted).value)
  {
    HandOverKeepsPcl(w, a, s, minted);
    SameXyk(w, HandOver(w, a, s, minted).value);
  }

  lemma SameXyk(w: World, w': World)
    requires XykInv(w) && w'.now == w.now
    requires w'.xyk == w.xyk && w'.claimedBefore == w.claimedBefore && w'.stranded == w.stranded && w'.dust == w.dust
    ensures XykInv(w')
  {
  }

  lemma HandOverKeepsPcl(w: World, a: Addr, s: Schedule, minted: nat)
    requires PclInv(w) && ValidSchedule(s) && Grant(s) <= minted && HandOver(w, a, s, minted).Ok?
    ensures PclInv(HandOver(w, a, s, minted).value)
  {
    var w' := HandOver(w, a, s, minted).value;
    assert GrantOf([s]) == Grant(s);
    if a in w.pcl.accounts {
      ClaimedWithinGrant(w.pcl, w.overwrittenClaimed, w.overwritten, w.overwritten + w.unscheduled, a, w.now);
    }
    ReplaceKeeps(w.pcl, w.overwrittenClaimed, w.overwritten, w.overwritten + w.unscheduled,
                 w'.pcl, w'.overwrittenClaimed, w'.overwritten, w'.overwritten + w'.unscheduled, a, Info([s], 0), w.now);
  }

  lemma LastFits(w: World, a: Addr, minted: nat)
    requires XykInv(w) && a in w.xyk.accounts && w.xyk.accounts[a].schedules != [] && minted > 0
    ensures var schedules := w.xyk.accounts[a].schedules;
            var s := Rescheduled(schedules[|schedules| - 1], minted);
            ValidSchedule(s) && Grant(s) <= minted
  {
    LeaverWithinGrant(w, a);
    var schedules := w.xyk.accounts[a].schedules;
    assert ValidSchedule(schedules[|schedules| - 1]);
  }

  /** A share that is not worthless is taken out and, if the PCL pair minted anything for it, handed over. */
  lemma MoveInSteps(w: World, a: Addr, minted: nat)
    requires Migrate(w, a, false, minted).Ok?
    ensures a in w.xyk.accounts && w.xyk.accounts[a].schedules != [] && Share(w.xyk.accounts[a]).Ok?
    ensures var info := w.xyk.accounts[a];
            var share := Share(info).value;
            && share <= w.xyk.balance && share <= w.xyk.granted
            && var w' := TakeOut(w, a, share, w.xyk.granted - share);
            Migrate(w, a, false, minted) == if minted == 0 then Ok(w') else HandOver(w', a, Rescheduled(info.schedules[|info.schedules| - 1], minted), minted)
  {
  }

  lemma MoveKeeps(w: World, a: Addr, minted: nat)
    requires WorldInv(w) && Migrate(w, a, false, minted).Ok?
    ensures WorldInv(Migrate(w, a, false, minted).value)
  {
    MoveInSteps(w, a, minted);
    var info := w.xyk.accounts[a];
    var share := Share(info).value;
    TakeOutKeeps(w, a, share);
    if minted != 0 {
      LastFits(w, a, minted);
      HandOverKeeps(TakeOut(w, a, share, w.xyk.granted - share), a, Rescheduled(info.schedules[|info.schedules| - 1], minted), minted);
    }
  }

  lemma MigrateKeeps(w: World, a: Addr, worthless: bool, minted: nat)
    requires WorldInv(w) && Migrate(w, a, worthless, minted).Ok?
    ensures WorldInv(Migrate(w, a, worthless, minted).value)
  {
    if worthless {
      SendDustKeeps(w, a, Share(w.xyk.accounts[a]).value);
    } else {
      MoveKeeps(w, a, minted);
    }
  }
}

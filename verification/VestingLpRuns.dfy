/** Runs of both LP vesting contracts: what their balances and totals are worth. */
module VestingLpRuns {
  import opened Basics
  import opened FixedPoint
  import opened Sums
  import opened Vesting
  import opened VestingLp
  import Runs = VestingRuns

  /** The messages of vesting-base that both contracts accept; clawback is switched off in them. */
  datatype Msg =
    | Register(accounts: seq<Account>, deposit: nat)
    | Claim(account: Addr, amount: Option<nat>)
  {
    function Base(): Runs.Msg {
      match this
      case Register(accounts, deposit) => Runs.Register(accounts, deposit)
      case Claim(account, amount) => Runs.Claim(account, amount)
    }
  }

  datatype Tx =
    | XykMsg(xykMsg: Msg)
    | PclMsg(pclMsg: Msg)
    | Migrate(account: Addr, worthless: bool, minted: nat)

  datatype Event = Event(elapsed: nat, tx: Tx)

  function Later(w: World, e: Event): World {
    w.(now := w.now + e.elapsed)
  }

  function Apply(w: World, tx: Tx): World
    requires AllValid(w.xyk) && AllValid(w.pcl)
  {
    match tx
    case XykMsg(msg) => w.(xyk := Runs.Apply(w.xyk, w.now, msg.Base()))
    case PclMsg(msg) => w.(pcl := Runs.Apply(w.pcl, w.now, msg.Base()))
    case Migrate(account, worthless, minted) =>
      var r := VestingLp.Migrate(w, account, worthless, minted);
      if r.Ok? then r.value else w
  }

  function Next(w: World, e: Event): World
    requires AllValid(w.xyk) && AllValid(w.pcl)
  {
    Apply(Later(w, e), e.tx)
  }

  function Run(w: World, events: seq<Event>): World
    requires WorldInv(w)
    decreases |events|
  {
    if events == [] then w
    else
      NextKeeps(w, events[0]);
      Run(Next(w, events[0]), events[1..])
  }

  predicate Initial(w: World) {
    && Empty(w.xyk) && w.dust == w.stranded == w.claimedBefore == 0
    && Empty(w.pcl) && w.overwritten == w.overwrittenClaimed == w.unscheduled == 0
  }

  lemma LaterKeeps(w: World, e: Event)
    requires WorldInv(w)
    ensures WorldInv(Later(w, e))
  {
    TimePassesNet(w.xyk, w.claimedBefore, w.stranded + w.dust, w.stranded, w.now, Later(w, e).now);
    TimePassesNet(w.pcl, w.overwrittenClaimed, w.overwritten, w.overwritten + w.unscheduled, w.now, Later(w, e).now);
  }

  lemma ApplyKeeps(w: World, tx: Tx)
    requires WorldInv(w)
    ensures WorldInv(Apply(w, tx))
  {
    match tx
    case XykMsg(msg) => ExecuteNet(w.xyk, w.claimedBefore, w.stranded + w.dust, w.stranded, w.now, msg.Base());
    case PclMsg(msg) => ExecuteNet(w.pcl, w.overwrittenClaimed, w.overwritten, w.overwritten + w.unscheduled, w.now, msg.Base());
    case Migrate(account, worthless, minted) =>
      if VestingLp.Migrate(w, account, worthless, minted).Ok? {
        MigrateKeeps(w, account, worthless, minted);
      }
  }

  lemma NextKeeps(w: World, e: Event)
    requires WorldInv(w)
    ensures WorldInv(Next(w, e))
  {
    LaterKeeps(w, e);
    ApplyKeeps(Later(w, e), e.tx);
  }

  lemma {:induction false} RunKeeps(w: World, events: seq<Event>)
    requires WorldInv(w)
    ensures WorldInv(Run(w, events))
    decreases |events|
  {
    if events != [] {
      NextKeeps(w, events[0]);
      RunKeeps(Next(w, events[0]), events[1..]);
    }
  }

  lemma InitialInv(w: World)
    requires Initial(w)
    ensures WorldInv(w)
  {
    assert Net(w.xyk, 0, 0, 0) == w.xyk;
    assert Net(w.pcl, 0, 0, 0) == w.pcl;
  }

  lemma BooksExplained(v: State, c: nat, u: nat, k: nat, now: nat)
    requires BooksInv(v, c, u, k, now)
    ensures v.balance == Total(v.accounts, UnclaimedBy()) + k
    ensures v.granted - v.released == Total(v.accounts, UnclaimedBy()) + u
  {
    UnclaimedIsBalance(Net(v, c, u, k), now);
  }

  /** In every run the XYK contract holds what its accounts have not claimed, plus grants without an end that migrations
      dropped; its totals promise more than it holds by exactly the dust that migrations sent out. The PCL contract's
      totals promise what its accounts have not claimed, plus what migrations overwrote; it holds that, plus LP tokens
      that arrived without a grant. Every account in both can claim what has vested. */
  lemma BalancesExplained(start: World, events: seq<Event>, a: Addr)
    requires Initial(start)
    ensures WorldInv(start)
    ensures var w := Run(start, events);
            && w.xyk.balance == Total(w.xyk.accounts, UnclaimedBy()) + w.stranded
            && w.xyk.granted - w.xyk.released == w.xyk.balance + w.dust
            && w.pcl.granted - w.pcl.released == Total(w.pcl.accounts, UnclaimedBy()) + w.overwritten
            && w.pcl.balance == w.pcl.granted - w.pcl.released + w.unscheduled
            && AllValid(w.xyk) && AllValid(w.pcl)
            && (a in w.xyk.accounts ==> Vesting.Claim(w.xyk, w.now, a, None).Ok?)
            && (a in w.pcl.accounts ==> Vesting.Claim(w.pcl, w.now, a, None).Ok?)
  {
    InitialInv(start);
    RunKeeps(start, events);
    var w := Run(start, events);
    BooksExplained(w.xyk, w.claimedBefore, w.stranded + w.dust, w.stranded, w.now);
    BooksExplained(w.pcl, w.overwrittenClaimed, w.overwritten, w.overwritten + w.unscheduled, w.now);
    if a in w.xyk.accounts {
      ClaimNetSucceeds(w.xyk, w.claimedBefore, w.stranded + w.dust, w.stranded, a, w.now);
    }
    if a in w.pcl.accounts {
      ClaimNetSucceeds(w.pcl, w.overwrittenClaimed, w.overwritten, w.overwritten + w.unscheduled, a, w.now);
    }
  }

  // When books and balances part

  /** What a migration may do besides moving an account. */
  datatype Loss = Dust | Stranded | Overwritten | Unscheduled

  function Counter(w: World, l: Loss): nat {
    match l
    case Dust => w.dust
    case Stranded => w.stranded
    case Overwritten => w.overwritten
    case Unscheduled => w.unscheduled
  }

  /** A schedule without an end point grants something. */
  predicate HasOpenGrant(schedules: seq<Schedule>) {
    exists i :: 0 <= i < |schedules| && schedules[i].end.None? && schedules[i].start.amount > 0
  }

  /** The migration of account a takes place, and does the named thing; all of this can be seen before the call, given the
      pair's verdict on the share. */
  predicate Loses(w: World, tx: Tx, l: Loss) {
    && tx.Migrate? && VestingLp.Migrate(w, tx.account, tx.worthless, tx.minted).Ok? && tx.account in w.xyk.accounts
    && var info := w.xyk.accounts[tx.account];
       match l
       case Dust => tx.worthless && EndGrants(info.schedules) > info.released
       case Stranded => HasOpenGrant(info.schedules)
       case Overwritten =>
         && !tx.worthless && tx.minted > 0
         && tx.account in w.pcl.accounts && GrantOf(w.pcl.accounts[tx.account].schedules) > w.pcl.accounts[tx.account].released
       case Unscheduled => !tx.worthless && tx.minted > 0 && info.schedules != [] && info.schedules[|info.schedules| - 1].end.None?
  }

  lemma {:induction false} OpenGrantIsStranded(schedules: seq<Schedule>)
    ensures GrantOf(schedules) > EndGrants(schedules) <==> HasOpenGrant(schedules)
  {
    EndWithin(schedules);
    if schedules != [] {
      OpenGrantIsStranded(schedules[1..]);
      EndWithin(schedules[1..]);
      if HasOpenGrant(schedules[1..]) {
        var i :| 0 <= i < |schedules[1..]| && schedules[1..][i].end.None? && schedules[1..][i].start.amount > 0;
        assert schedules[i + 1].end.None?;
      }
      if HasOpenGrant(schedules) && !(schedules[0].end.None? && schedules[0].start.amount > 0) {
        var i :| 0 <= i < |schedules| && schedules[i].end.None? && schedules[i].start.amount > 0;
        assert schedules[1..][i - 1].end.None?;
      }
    }
  }

  /** What a migration adds to the counters. */
  lemma MigrateCounts(w: World, a: Addr, worthless: bool, minted: nat)
    requires VestingLp.Migrate(w, a, worthless, minted).Ok?
    ensures a in w.xyk.accounts
    ensures var w', info := VestingLp.Migrate(w, a, worthless, minted).value, w.xyk.accounts[a];
            var moved := !worthless && minted > 0;
            && EndGrants(info.schedules) <= GrantOf(info.schedules) && info.released <= EndGrants(info.schedules)
            && w'.dust == w.dust + (if worthless then EndGrants(info.schedules) - info.released else 0)
            && w'.stranded == w.stranded + GrantOf(info.schedules) - EndGrants(info.schedules)
            && w'.overwritten == (if moved then Overwrite(w, a).overwritten else w.overwritten)
            && (!worthless ==> info.schedules != [])
            && w'.unscheduled == w.unscheduled + (if moved && info.schedules[|info.schedules| - 1].end.None? then minted else 0)
  {
    EndWithin(w.xyk.accounts[a].schedules);
  }

  /** A counter never falls, and it rises exactly when the guard holds. */
  lemma ApplyLoses(w: World, tx: Tx, l: Loss)
    requires WorldInv(w)
    ensures Counter(Apply(w, tx), l) >= Counter(w, l)
    ensures Counter(Apply(w, tx), l) > Counter(w, l) <==> Loses(w, tx, l)
  {
    if tx.Migrate? && VestingLp.Migrate(w, tx.account, tx.worthless, tx.minted).Ok? {
      MigrateCounts(w, tx.account, tx.worthless, tx.minted);
      OpenGrantIsStranded(w.xyk.accounts[tx.account].schedules);
    }
  }

  /** No transaction of the run does the named thing. */
  predicate Never(w: World, events: seq<Event>, l: Loss)
    requires WorldInv(w)
    decreases |events|
  {
    events == [] || (NextKeeps(w, events[0]); !Loses(Later(w, events[0]), events[0].tx, l) && Never(Next(w, events[0]), events[1..], l))
  }

  lemma {:induction false} NeverLoses(w: World, events: seq<Event>, l: Loss)
    requires WorldInv(w)
    ensures Counter(Run(w, events), l) >= Counter(w, l)
    ensures Counter(Run(w, events), l) == Counter(w, l) <==> Never(w, events, l)
    decreases |events|
  {
    if events != [] {
      LaterKeeps(w, events[0]);
      ApplyLoses(Later(w, events[0]), events[0].tx, l);
      NextKeeps(w, events[0]);
      NeverLoses(Next(w, events[0]), events[1..], l);
    }
  }

  /** In every run: the XYK contract's balance is the sum of what its accounts have not claimed if and only if no migration
      dropped a grant, and its totals promise just the balance if and only if none sent dust. The PCL contract's totals
      promise just its balance if and only if no LP token arrived without a grant, and the balance is the sum of what its
      accounts have not claimed if and only if, besides, no migration overwrote an account that was owed something. */
  lemma MigrationConserves(start: World, events: seq<Event>)
    requires Initial(start)
    ensures WorldInv(start)
    ensures var w := Run(start, events);
            && (w.xyk.balance == Total(w.xyk.accounts, UnclaimedBy()) <==> Never(start, events, Stranded))
            && (w.xyk.granted - w.xyk.released == w.xyk.balance <==> Never(start, events, Dust))
            && (w.pcl.granted - w.pcl.released == w.pcl.balance <==> Never(start, events, Unscheduled))
            && (w.pcl.balance == Total(w.pcl.accounts, UnclaimedBy()) <==> Never(start, events, Overwritten) && Never(start, events, Unscheduled))
  {
    BalancesExplained(start, events, 0);
    NeverLoses(start, events, Dust);
    NeverLoses(start, events, Stranded);
    NeverLoses(start, events, Overwritten);
    NeverLoses(start, events, Unscheduled);
  }

  // Schedules with end points

  predicate AllEnd(schedules: seq<Schedule>) {
    forall i :: 0 <= i < |schedules| ==> schedules[i].end.Some?
  }

  ghost predicate AccountsEnd(m: map<Addr, Info>) {
    forall a :: a in m ==> AllEnd(m[a].schedules)
  }

  /** What is registered at the XYK contract has end points. */
  predicate EventEnds(e: Event) {
    e.tx.XykMsg? && e.tx.xykMsg.Register? ==> forall i :: 0 <= i < |e.tx.xykMsg.accounts| ==> AllEnd(e.tx.xykMsg.accounts[i].schedules)
  }

  lemma {:induction false} RegisterEnds(accounts: map<Addr, Info>, list: seq<Account>, deposit: nat)
    requires AccountsEnd(accounts) && (forall i :: 0 <= i < |list| ==> AllEnd(list[i].schedules)) && RegisterAll(accounts, list, deposit).Ok?
    ensures AccountsEnd(RegisterAll(accounts, list, deposit).value.0)
    decreases |list|
  {
    if list != [] {
      RegisterEnds(WithSchedules(accounts, list[0]), list[1..], deposit + GrantOf(list[0].schedules));
    }
  }

  lemma NextEnds(w: World, e: Event)
    requires WorldInv(w) && AccountsEnd(w.xyk.accounts) && EventEnds(e)
    ensures var w' := Next(w, e);
            AccountsEnd(w'.xyk.accounts) && w'.stranded == w.stranded && w'.unscheduled == w.unscheduled
  {
    var l := Later(w, e);
    match e.tx
    case XykMsg(msg) =>
      if msg.Register? && Vesting.Register(l.xyk, msg.accounts, msg.deposit).Ok? {
        RegisterEnds(l.xyk.accounts, msg.accounts, 0);
      }
    case PclMsg(msg) =>
    case Migrate(account, worthless, minted) =>
      if account in l.xyk.accounts {
        EndWithin(l.xyk.accounts[account].schedules);
      }
  }

  lemma {:induction false} RunEnds(w: World, events: seq<Event>)
    requires WorldInv(w) && AccountsEnd(w.xyk.accounts) && forall i :: 0 <= i < |events| ==> EventEnds(events[i])
    ensures Run(w, events).stranded == w.stranded && Run(w, events).unscheduled == w.unscheduled
    decreases |events|
  {
    if events != [] {
      NextEnds(w, events[0]);
      NextKeeps(w, events[0]);
      RunEnds(Next(w, events[0]), events[1..]);
    }
  }

  /** If all schedules registered at the XYK contract have end points, no grant is dropped and no LP token arrives without
      a grant, dust or not. */
  lemma EndPointsSuffice(start: World, events: seq<Event>)
    requires Initial(start) && forall i :: 0 <= i < |events| ==> EventEnds(events[i])
    ensures WorldInv(start) && Never(start, events, Stranded) && Never(start, events, Unscheduled)
  {
    InitialInv(start);
    RunEnds(start, events);
    NeverLoses(start, events, Stranded);
    NeverLoses(start, events, Unscheduled);
  }

  // All four happen

  /** Two messages: an account is registered, and migrates. */
  function RegisterAndMigrate(schedules: seq<Schedule>, deposit: nat, worthless: bool, minted: nat): seq<Event> {
    [Event(0, XykMsg(Register([Account(1, schedules)], deposit))), Event(0, Migrate(1, worthless, minted))]
  }

  lemma RunOfTwo(w: World, e: Event, f: Event)
    requires WorldInv(w)
    ensures WorldInv(Next(w, e)) && Run(w, [e, f]) == Next(Next(w, e), f)
  {
    NextKeeps(w, e);
    NextKeeps(Next(w, e), f);
    assert [e, f][1..] == [f] && [f][1..] == [];
    assert Run(w, [e, f]) == Run(Next(w, e), [f]);
    assert Run(Next(w, e), [f]) == Run(Next(Next(w, e), f), []);
  }

  lemma Registered(v: State, schedules: seq<Schedule>, deposit: nat)
    requires 1 !in v.accounts && ValidSchedules(schedules) && GrantOf(schedules) == deposit && v.granted + deposit <= U128_MAX
    ensures Vesting.Register(v, [Account(1, schedules)], deposit) ==
            Ok(v.(accounts := v.accounts[1 := Info(schedules, 0)], granted := v.granted + deposit, balance := v.balance + deposit))
  {
    var list := [Account(1, schedules)];
    assert list[1..] == [] && schedules + [] == schedules;
    var m := WithSchedules(v.accounts, list[0]);
    assert RegisterAll(v.accounts, list, 0) == RegisterAll(m, [], deposit);
  }

  lemma Grants(a: Schedule, b: Schedule)
    ensures GrantOf([a]) == Grant(a) && EndGrants([a]) == EndGrant(a)
    ensures GrantOf([a, b]) == Grant(a) + Grant(b) && EndGrants([a, b]) == EndGrant(a) + EndGrant(b)
  {
    assert [a][1..] == [];
    assert [b][1..] == [];
    assert [a, b][1..] == [b];
    assert GrantOf([b]) == Grant(b) + GrantOf([]) && EndGrants([b]) == EndGrant(b) + EndGrants([]);
  }

  /** An account of one schedule with an end migrates, and replaces the PCL account. */
  lemma OneMigrates(w: World, s: Schedule, minted: nat)
    requires 1 in w.xyk.accounts && w.xyk.accounts[1] == Info([s], 0) && s.end.Some? && minted > 0
    requires Grant(s) <= w.xyk.balance && Grant(s) <= w.xyk.granted && Grant(s) <= U128_MAX && w.pcl.granted + minted <= U128_MAX
    ensures var r := VestingLp.Migrate(w, 1, false, minted);
            && r.Ok?
            && r.value.overwritten == Overwrite(w, 1).overwritten
            && r.value.unscheduled == w.unscheduled
            && r.value.pcl.balance == w.pcl.balance + minted
  {
    Grants(s, s);
    Grants(Rescheduled(s, minted), s);
  }

  /** An account with 5 LP tokens whose share is worthless: they are sent as dust, nothing is held or owed any more, but the
      totals still promise 5. */
  lemma DustHappens(start: World)
    requires Initial(start)
    ensures WorldInv(start)
    ensures var w := Run(start, RegisterAndMigrate([Schedule(Point(0, 0), Some(Point(10, 5)))], 5, true, 0));
            w.dust == 5 && w.xyk.balance == 0 == Total(w.xyk.accounts, UnclaimedBy()) && w.xyk.granted - w.xyk.released == 5
  {
    var s := [Schedule(Point(0, 0), Some(Point(10, 5)))];
    var events := RegisterAndMigrate(s, 5, true, 0);
    InitialInv(start);
    Grants(s[0], s[0]);
    Registered(start.xyk, s, 5);
    RunOfTwo(start, events[0], events[1]);
    RunKeeps(start, events);
    BalancesExplained(start, events, 0);
  }

  /** An account with 5 LP tokens until an end and 7 without one, which comes last: 7 stay behind without an owner, and the
      3 minted ones arrive without a grant. */
  lemma StrandedHappens(start: World)
    requires Initial(start)
    ensures WorldInv(start)
    ensures var w := Run(start, RegisterAndMigrate([Schedule(Point(0, 0), Some(Point(10, 5))), Schedule(Point(0, 7), None)], 12, false, 3));
            && w.stranded == 7 && w.xyk.balance == 7 && Total(w.xyk.accounts, UnclaimedBy()) == 0
            && w.unscheduled == 3 && w.pcl.balance == 3 && w.pcl.granted == 0
  {
    var s := [Schedule(Point(0, 0), Some(Point(10, 5))), Schedule(Point(0, 7), None)];
    var events := RegisterAndMigrate(s, 12, false, 3);
    InitialInv(start);
    Grants(s[0], s[1]);
    Grants(Rescheduled(s[1], 3), s[1]);
    Registered(start.xyk, s, 12);
    RunOfTwo(start, events[0], events[1]);
    RunKeeps(start, events);
    BalancesExplained(start, events, 0);
  }

  /** A user who is owed 4 LP tokens by the PCL contract migrates 5, for which 3 are minted: the contract holds 7, but the
      user's account is owed only 3. */
  lemma OverwriteHappens(start: World)
    requires Initial(start)
    ensures WorldInv(start) && WorldInv(Run(start, [Event(0, PclMsg(Register([Account(1, [Schedule(Point(0, 4), None)])], 4)))]))
    ensures var owed := Run(start, [Event(0, PclMsg(Register([Account(1, [Schedule(Point(0, 4), None)])], 4)))]);
            var w := Run(owed, RegisterAndMigrate([Schedule(Point(0, 0), Some(Point(10, 5)))], 5, false, 3));
            w.overwritten == 4 && w.pcl.balance == 7 && Total(w.pcl.accounts, UnclaimedBy()) == 3
  {
    var open', s := [Schedule(Point(0, 4), None)], [Schedule(Point(0, 0), Some(Point(10, 5)))];
    var first, events := [Event(0, PclMsg(Register([Account(1, open')], 4)))], RegisterAndMigrate(s, 5, false, 3);
    InitialInv(start);
    Grants(open'[0], s[0]);
    Grants(s[0], s[0]);
    Registered(start.pcl, open', 4);
    NextKeeps(start, first[0]);
    var owed := Next(start, first[0]);
    assert first[1..] == [];
    assert Run(start, first) == Run(owed, []);
    Registered(owed.xyk, s, 5);
    RunOfTwo(owed, events[0], events[1]);
    OneMigrates(Later(Next(owed, events[0]), events[1]), s[0], 3);
    RunKeeps(owed, events);
    PclExplained(Run(owed, events));
  }

  lemma PclExplained(w: World)
    requires PclInv(w)
    ensures w.pcl.balance == Total(w.pcl.accounts, UnclaimedBy()) + w.overwritten + w.unscheduled
  {
    BooksExplained(w.pcl, w.overwrittenClaimed, w.overwritten, w.overwritten + w.unscheduled, w.now);
  }

  /** A migration takes the whole unclaimed share out of the XYK contract, leaves an empty account there, and gives the
      account in the PCL contract one schedule, under which exactly the minted LP tokens have vested in the end. */
  lemma MigrationMovesAccount(w: World, a: Addr, minted: nat, now: nat)
    requires WorldInv(w) && minted > 0 && VestingLp.Migrate(w, a, false, minted).Ok? && AllEnd(w.xyk.accounts[a].schedules)
    ensures var w', old' := VestingLp.Migrate(w, a, false, minted).value, w.xyk.accounts[a];
            && w.xyk.balance - w'.xyk.balance == GrantOf(old'.schedules) - old'.released
            && w'.xyk.accounts == w.xyk.accounts[a := Info([], 0)]
            && w'.pcl.balance == w.pcl.balance + minted
            && a in w'.pcl.accounts && w'.pcl.accounts[a].released == 0 && GrantOf(w'.pcl.accounts[a].schedules) == minted
            && ValidSchedules(w'.pcl.accounts[a].schedules)
            && var last := old'.schedules[|old'.schedules| - 1];
            OnTheLine(Schedule(Point(last.start.time, 0), Some(Point(last.end.value.time, minted))), now, VestedAt(w'.pcl.accounts[a].schedules, now))
  {
    var info := w.xyk.accounts[a];
    EndWithin(info.schedules);
    LeaverWithinGrant(w, a);
    var last := info.schedules[|info.schedules| - 1];
    assert ValidSchedule(last) && last.end.Some?;
    var s := Rescheduled(last, minted);
    assert GrantOf([s]) == Grant(s);
    SingleOnTheLine([s], s, now);
  }

  /** A migrated account cannot migrate again. */
  lemma MigratedOnce(w: World, a: Addr, minted: nat, worthless: bool, again: nat)
    requires WorldInv(w) && VestingLp.Migrate(w, a, false, minted).Ok?
    ensures var w' := VestingLp.Migrate(w, a, false, minted).value;
            && VestingLp.Migrate(w', a, false, again) == Err(BadSchedule)
            && VestingLp.Migrate(w', a, true, again) == Ok(w')
  {
  }
}

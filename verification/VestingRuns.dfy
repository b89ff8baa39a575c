/** Runs of the vesting contract: the ledger, the payments, and what the historical queries report. */
module VestingRuns {
  import opened Basics
  import opened FixedPoint
  import opened Sums
  import opened Snapshots
  import opened Vesting

  datatype Msg =
    | Register(accounts: seq<Account>, deposit: nat)
    | Claim(account: Addr, amount: Option<nat>)
    | Remove(removed: seq<Addr>)

  /** A message, and how many blocks and seconds have passed since the one before. */
  datatype Event = Event(blocks: nat, elapsed: nat, msg: Msg)

  /** Every account, and the pair of totals, with the values it had at earlier heights. */
  datatype History = History(accounts: map<Addr, Snap<Option<Info>>>, totals: Snap<(nat, nat)>)
  {
    function Account(a: Addr): Snap<Option<Info>> {
      if a in accounts then accounts[a] else Snap(None, map[])
    }
  }

  datatype World = World(height: nat, now: nat, state: State, history: History)

  function Lookup(v: State, a: Addr): Option<Info> {
    if a in v.accounts then Some(v.accounts[a]) else None
  }

  // Runs

  function Execute(v: State, now: nat, msg: Msg): Result<State>
    requires AllValid(v)
  {
    match msg
    case Register(list, amount) => Vesting.Register(v, list, amount)
    case Claim(account, amount) =>
      var (v', _) :- Vesting.Claim(v, now, account, amount);
      Ok(v')
    case Remove(list) => RemoveAccounts(v, list)
  }

  function Apply(v: State, now: nat, msg: Msg): State
    requires AllValid(v)
  {
    var r := Execute(v, now, msg);
    if r.Ok? then r.value else v
  }

  function Addresses(accounts: seq<Account>): set<Addr> {
    set i | 0 <= i < |accounts| :: accounts[i].address
  }

  function Existing(v: State, list: seq<Addr>): set<Addr> {
    set a | a in list && a in v.accounts
  }

  /** The accounts that a message writes, if it succeeds: all that it registers, the one that it pays, or those that it
      finds and removes. */
  function Written(v: State, now: nat, msg: Msg): set<Addr>
    requires AllValid(v)
  {
    match msg
    case Register(list, _) => Addresses(list)
    case Claim(account, amount) =>
      var r := Vesting.Claim(v, now, account, amount);
      if r.Ok? && r.value.1 > 0 then {account} else {}
    case Remove(list) => Existing(v, list)
  }

  /** A registration writes the totals, and so does everything that writes an account. */
  predicate WritesTotals(v: State, now: nat, msg: Msg)
    requires AllValid(v)
  {
    msg.Register? || Written(v, now, msg) != {}
  }

  /** Saves the written accounts and, if they are written, the totals at this height. */
  function Save(h: History, height: nat, v: State, written: set<Addr>, totals: bool): History {
    History(map a | a in h.accounts.Keys + written :: if a in written then Write(h.Account(a), height, Lookup(v, a)) else h.accounts[a],
            if totals then Write(h.totals, height, (v.granted, v.released)) else h.totals)
  }

  function Later(w: World, e: Event): World {
    w.(height := w.height + e.blocks, now := w.now + e.elapsed)
  }

  function Deliver(w: World, msg: Msg): World
    requires AllValid(w.state)
  {
    var r := Execute(w.state, w.now, msg);
    if r.Err? then w
    else
      w.(state := r.value,
         history := Save(w.history, w.height, r.value, Written(w.state, w.now, msg), WritesTotals(w.state, w.now, msg)))
  }

  function Next(w: World, e: Event): World
    requires AllValid(w.state)
  {
    Deliver(Later(w, e), e.msg)
  }

  function Run(w: World, events: seq<Event>): World
    requires WorldInv(w)
    decreases |events|
  {
    if events == [] then w
    else
      NextKeeps(w, events[0]);
      Run(Next(w, events[0]), events[1..])
  }

  predicate Initial(w: World) {
    w.state == State(map[], 0, 0, 0) && w.history == History(map[], Snap((0, 0), map[]))
  }

  // Invariant

  /** The history's current values are the stored ones, and nothing was written at a later height. */
  ghost predicate Recorded(h: History, v: State, height: nat) {
    && h.totals.current == (v.granted, v.released) && WrittenUpTo(h.totals, height)
    && forall a :: AccountRecorded(h, v, height, a)
  }

  predicate AccountRecorded(h: History, v: State, height: nat, a: Addr) {
    h.Account(a).current == Lookup(v, a) && WrittenUpTo(h.Account(a), height)
  }

  ghost predicate WorldInv(w: World) {
    LedgerInv(w.state, w.now) && AllValid(w.state) && Recorded(w.history, w.state, w.height)
  }

  lemma LedgerIsValid(v: State, now: nat)
    requires LedgerInv(v, now)
    ensures AllValid(v)
  {
    forall a | a in v.accounts
      ensures ValidSchedules(v.accounts[a].schedules)
    {
      assert AccountInv(v.accounts[a], now);
    }
  }

  lemma ApplyKeeps(v: State, now: nat, msg: Msg)
    requires LedgerInv(v, now) && AllValid(v)
    ensures LedgerInv(Apply(v, now, msg), now)
  {
    if Execute(v, now, msg).Ok? {
      match msg
      case Register(list, amount) => RegisterKeeps(v, list, amount, now);
      case Claim(account, amount) => ClaimKeeps(v, now, account, amount);
      case Remove(list) => RemoveAllKeeps(v, now, list);
    }
  }

  // What a message does not write it does not change

  lemma {:induction false} RegisterKeepsOthers(accounts: map<Addr, Info>, list: seq<Account>, deposit: nat, a: Addr)
    requires RegisterAll(accounts, list, deposit).Ok? && a !in Addresses(list)
    ensures var m := RegisterAll(accounts, list, deposit).value.0;
            (a in m <==> a in accounts) && (a in m ==> m[a] == accounts[a])
    decreases |list|
  {
    if list != [] {
      assert list[0].address in Addresses(list);
      assert Addresses(list[1..]) <= Addresses(list) by {
        forall b | b in Addresses(list[1..])
          ensures b in Addresses(list)
        {
          var i :| 0 <= i < |list[1..]| && list[1..][i].address == b;
          assert list[i + 1].address == b;
        }
      }
      RegisterKeepsOthers(WithSchedules(accounts, list[0]), list[1..], deposit + GrantOf(list[0].schedules), a);
    }
  }

  lemma {:induction false} RemoveKeepsOthers(v: State, list: seq<Addr>, a: Addr)
    requires RemoveAccounts(v, list).Ok? && (a !in list || a !in v.accounts)
    ensures Lookup(RemoveAccounts(v, list).value, a) == Lookup(v, a)
    decreases |list|
  {
    if list != [] {
      RemoveKeepsOthers(RemoveAccount(v, list[0]).value, list[1..], a);
    }
  }

  lemma {:induction false} NothingRemoved(v: State, list: seq<Addr>)
    requires Existing(v, list) == {}
    ensures RemoveAccounts(v, list) == Ok(v)
    decreases |list|
  {
    if list != [] {
      assert list[0] !in Existing(v, list);
      forall a | a in list[1..] && a in v.accounts
        ensures a in Existing(v, list)
      {
      }
      assert Existing(v, list[1..]) == {};
      NothingRemoved(v, list[1..]);
    }
  }

  lemma OthersStay(v: State, now: nat, msg: Msg, a: Addr)
    requires AllValid(v) && Execute(v, now, msg).Ok? && a !in Written(v, now, msg)
    ensures Lookup(Execute(v, now, msg).value, a) == Lookup(v, a)
  {
    match msg
    case Register(list, amount) => RegisterKeepsOthers(v.accounts, list, 0, a);
    case Claim(account, amount) => assert a == account ==> Vesting.Claim(v, now, account, amount).value.1 == 0;
    case Remove(list) => RemoveKeepsOthers(v, list, a);
  }

  lemma TotalsStay(v: State, now: nat, msg: Msg)
    requires AllValid(v) && Execute(v, now, msg).Ok? && !WritesTotals(v, now, msg)
    ensures var v' := Execute(v, now, msg).value;
            v'.granted == v.granted && v'.released == v.released
  {
    match msg
    case Claim(account, amount) =>
      assert account !in Written(v, now, msg);
    case Remove(list) => NothingRemoved(v, list);
  }

  /** Both histories report the same for a height. */
  ghost predicate SamePast(h: History, h': History, past: nat) {
    At(h'.totals, past) == At(h.totals, past) && forall a :: At(h'.Account(a), past) == At(h.Account(a), past)
  }

  /** What is saved covers all that has changed between v and v'. */
  ghost predicate Covers(v: State, v': State, written: set<Addr>, totals: bool) {
    && (forall a :: a !in written ==> Lookup(v', a) == Lookup(v, a))
    && (totals || (v'.granted == v.granted && v'.released == v.released))
  }

  lemma SaveAccount(h: History, v: State, height: nat, v': State, written: set<Addr>, totals: bool, a: Addr, past: nat)
    requires AccountRecorded(h, v, height, a) && past <= height && Covers(v, v', written, totals)
    ensures AccountRecorded(Save(h, height, v', written, totals), v', height, a)
    ensures At(Save(h, height, v', written, totals).Account(a), past) == At(h.Account(a), past)
  {
    WriteKeepsPast(h.Account(a), height, Lookup(v', a), past);
  }

  /** Saving at a height changes nothing that is reported for this height or an earlier one. */
  lemma SaveKeepsPast(h: History, v: State, height: nat, v': State, written: set<Addr>, totals: bool, past: nat)
    requires Recorded(h, v, height) && past <= height && Covers(v, v', written, totals)
    ensures Recorded(Save(h, height, v', written, totals), v', height)
    ensures SamePast(h, Save(h, height, v', written, totals), past)
  {
    WriteKeepsPast(h.totals, height, (v'.granted, v'.released), past);
    forall a
      ensures AccountRecorded(Save(h, height, v', written, totals), v', height, a)
      ensures At(Save(h, height, v', written, totals).Account(a), past) == At(h.Account(a), past)
    {
      assert AccountRecorded(h, v, height, a);
      SaveAccount(h, v, height, v', written, totals, a, past);
    }
  }

  /** A message keeps the history in step with the state, and what it reports of earlier heights. */
  lemma DeliverKeepsPast(w: World, msg: Msg, past: nat)
    requires AllValid(w.state) && Recorded(w.history, w.state, w.height) && past <= w.height
    ensures Recorded(Deliver(w, msg).history, Deliver(w, msg).state, w.height)
    ensures SamePast(w.history, Deliver(w, msg).history, past)
  {
    var r := Execute(w.state, w.now, msg);
    if r.Ok? {
      var written, totals := Written(w.state, w.now, msg), WritesTotals(w.state, w.now, msg);
      forall a | a !in written
        ensures Lookup(r.value, a) == Lookup(w.state, a)
      {
        OthersStay(w.state, w.now, msg, a);
      }
      if !totals {
        TotalsStay(w.state, w.now, msg);
      }
      SaveKeepsPast(w.history, w.state, w.height, r.value, written, totals, past);
    }
  }

  lemma LaterKeeps(w: World, e: Event)
    requires WorldInv(w)
    ensures WorldInv(Later(w, e))
  {
    TimePasses(w.state, w.now, Later(w, e).now);
    forall a
      ensures AccountRecorded(w.history, w.state, Later(w, e).height, a)
    {
      assert AccountRecorded(w.history, w.state, w.height, a);
    }
  }

  lemma DeliverKeeps(w: World, msg: Msg)
    requires WorldInv(w)
    ensures WorldInv(Deliver(w, msg))
  {
    ApplyKeeps(w.state, w.now, msg);
    LedgerIsValid(Apply(w.state, w.now, msg), w.now);
    DeliverKeepsPast(w, msg, 0);
  }

  lemma NextKeeps(w: World, e: Event)
    requires WorldInv(w)
    ensures WorldInv(Next(w, e))
  {
    LaterKeeps(w, e);
    DeliverKeeps(Later(w, e), e.msg);
  }

  /** In every run the totals are the sums over the accounts, and the balance is what is granted and not released. */
  lemma {:induction false} RunKeeps(w: World, events: seq<Event>)
    requires WorldInv(w)
    ensures WorldInv(Run(w, events))
    decreases |events|
  {
    if events != [] {
      NextKeeps(w, events[0]);
      RunKeeps(Next(w, events[0]), events[1..]);
    }
  }

  lemma InitialInv(w: World)
    requires Initial(w)
    ensures WorldInv(w)
  {
  }

  /** The ledger over every run: totals are sums, the balance is their difference and the sum of what is unclaimed, a
      claim of what is available succeeds and so does every clawback. */
  lemma LedgerHolds(start: World, events: seq<Event>, a: Addr, list: seq<Addr>)
    requires Initial(start)
    ensures WorldInv(start)
    ensures var w := Run(start, events);
            && w.state.granted == Total(w.state.accounts, GrantedTo())
            && w.state.released == Total(w.state.accounts, ReleasedTo())
            && w.state.balance == w.state.granted - w.state.released == Total(w.state.accounts, UnclaimedBy())
            && AllValid(w.state)
            && (a in w.state.accounts ==> Execute(w.state, w.now, Claim(a, None)).Ok?)
            && Execute(w.state, w.now, Remove(list)).Ok?
  {
    InitialInv(start);
    RunKeeps(start, events);
    var w := Run(start, events);
    UnclaimedIsBalance(w.state, w.now);
    if a in w.state.accounts {
      ClaimSucceeds(w.state, w.now, a, None);
    }
    RemoveAllKeeps(w.state, w.now, list);
  }

  // Historical queries

  /** The state that a block at the given height found. */
  function Before(w: World, events: seq<Event>, height: nat): State
    requires WorldInv(w)
    decreases |events|
  {
    if events == [] || w.height + events[0].blocks >= height then w.state
    else
      NextKeeps(w, events[0]);
      Before(Next(w, events[0]), events[1..], height)
  }

  lemma {:induction false} PastStays(w: World, events: seq<Event>, height: nat, a: Addr)
    requires WorldInv(w) && (events == [] || height <= w.height + events[0].blocks)
    ensures At(Run(w, events).history.totals, height) == At(w.history.totals, height)
    ensures At(Run(w, events).history.Account(a), height) == At(w.history.Account(a), height)
    decreases |events|
  {
    if events != [] {
      var w1 := Next(w, events[0]);
      LaterKeeps(w, events[0]);
      DeliverKeepsPast(Later(w, events[0]), events[0].msg, height);
      NextKeeps(w, events[0]);
      PastStays(w1, events[1..], height, a);
    }
  }

  lemma CurrentIsReported(w: World, height: nat, a: Addr)
    requires WorldInv(w) && w.height < height
    ensures At(w.history.totals, height) == (w.state.granted, w.state.released)
    ensures At(w.history.Account(a), height) == Lookup(w.state, a)
  {
    assert AccountRecorded(w.history, w.state, w.height, a);
    assert WrittenSince(w.history.Account(a), height) == {};
    assert WrittenSince(w.history.totals, height) == {};
  }

  /** After any run, the stored history gives for every height the accounts and totals that the block at this height
      found. */
  lemma {:induction false} HistoryIsRight(w: World, events: seq<Event>, height: nat, a: Addr)
    requires WorldInv(w) && w.height < height
    ensures At(Run(w, events).history.totals, height) == (Before(w, events, height).granted, Before(w, events, height).released)
    ensures At(Run(w, events).history.Account(a), height) == Lookup(Before(w, events, height), a)
    decreases |events|
  {
    if events == [] || w.height + events[0].blocks >= height {
      CurrentIsReported(w, height, a);
      PastStays(w, events, height, a);
    } else {
      NextKeeps(w, events[0]);
      HistoryIsRight(Next(w, events[0]), events[1..], height, a);
    }
  }

  lemma {:induction false} BeforeKeeps(w: World, events: seq<Event>, height: nat) returns (now: nat)
    requires WorldInv(w)
    ensures LedgerInv(Before(w, events, height), now)
    decreases |events|
  {
    if events == [] || w.height + events[0].blocks >= height {
      now := w.now;
    } else {
      NextKeeps(w, events[0]);
      now := BeforeKeeps(Next(w, events[0]), events[1..], height);
    }
  }

  /** The query for one account at a height. */
  ghost function UnclaimedAtHeight(h: History, a: Addr, height: nat): Result<nat> {
    match At(h.Account(a), height)
    case None => Ok(0)
    case Some(info) => Unclaimed(info)
  }

  /** The query for all accounts at a height. */
  ghost function TotalUnclaimedAtHeight(h: History, height: nat): Result<nat> {
    CheckedSub(At(h.totals, height).0, At(h.totals, height).1)
  }

  /** In every run and for every height, both queries succeed, and what they report for the single accounts adds up to
      what they report in total. */
  lemma UnclaimedAddsUp(start: World, events: seq<Event>, height: nat)
    requires Initial(start) && start.height < height
    ensures WorldInv(start)
    ensures var h, v := Run(start, events).history, Before(start, events, height);
            && TotalUnclaimedAtHeight(h, height).Ok?
            && TotalUnclaimedAtHeight(h, height).value == Total(v.accounts, UnclaimedBy())
            && forall a :: UnclaimedAtHeight(h, a, height).Ok? && UnclaimedAtHeight(h, a, height).value == Part(v.accounts, UnclaimedBy(), a)
  {
    InitialInv(start);
    var h, v := Run(start, events).history, Before(start, events, height);
    var now := BeforeKeeps(start, events, height);
    HistoryIsRight(start, events, height, 0);
    UnclaimedIsBalance(v, now);
    forall a
      ensures UnclaimedAtHeight(h, a, height).Ok? && UnclaimedAtHeight(h, a, height).value == Part(v.accounts, UnclaimedBy(), a)
    {
      HistoryIsRight(start, events, height, a);
      if a in v.accounts {
        AccountWithinTotals(v, now, a);
      }
    }
  }

  // Payments

  /** What a message sends to account a. */
  function Pays(w: World, e: Event, a: Addr): nat
    requires AllValid(w.state)
  {
    if e.msg.Claim? && e.msg.account == a then
      var r := Vesting.Claim(w.state, Later(w, e).now, a, e.msg.amount);
      if r.Ok? then r.value.1 else 0
    else 0
  }

  function Paid(w: World, events: seq<Event>, a: Addr): nat
    requires WorldInv(w)
    decreases |events|
  {
    if events == [] then 0
    else
      NextKeeps(w, events[0]);
      Pays(w, events[0], a) + Paid(Next(w, events[0]), events[1..], a)
  }

  function ReleasedOf(v: State, a: Addr): nat {
    if a in v.accounts then v.accounts[a].released else 0
  }

  predicate Keeps(e: Event, a: Addr) {
    e.msg.Remove? ==> a !in e.msg.removed
  }

  lemma {:induction false} RegisterKeepsReleased(accounts: map<Addr, Info>, list: seq<Account>, deposit: nat, a: Addr)
    requires RegisterAll(accounts, list, deposit).Ok?
    ensures var m := RegisterAll(accounts, list, deposit).value.0;
            && (a in accounts ==> a in m && m[a].released == accounts[a].released)
            && (a !in accounts && a in m ==> m[a].released == 0)
    decreases |list|
  {
    if list != [] {
      RegisterKeepsReleased(WithSchedules(accounts, list[0]), list[1..], deposit + GrantOf(list[0].schedules), a);
    }
  }

  lemma NextReleases(w: World, e: Event, a: Addr)
    requires WorldInv(w) && Keeps(e, a)
    ensures ReleasedOf(Next(w, e).state, a) == ReleasedOf(w.state, a) + Pays(w, e, a)
  {
    if Execute(w.state, Later(w, e).now, e.msg).Ok? {
      match e.msg
      case Register(list, amount) => RegisterKeepsReleased(w.state.accounts, list, 0, a);
      case Claim(account, amount) =>
      case Remove(list) => RemoveKeepsOthers(w.state, list, a);
    }
  }

  lemma {:induction false} RunReleases(w: World, events: seq<Event>, a: Addr)
    requires WorldInv(w) && forall i :: 0 <= i < |events| ==> Keeps(events[i], a)
    ensures ReleasedOf(Run(w, events).state, a) == ReleasedOf(w.state, a) + Paid(w, events, a)
    decreases |events|
  {
    if events != [] {
      NextReleases(w, events[0], a);
      NextKeeps(w, events[0]);
      RunReleases(Next(w, events[0]), events[1..], a);
    }
  }

  /** Whatever partial claims came before, a full claim brings the sum of all payments to exactly what has vested at its
      time, and to the whole grant once all schedules have ended. */
  lemma PathIndependence(start: World, events: seq<Event>, last: Event, a: Addr)
    requires Initial(start) && last.msg == Claim(a, None)
    requires forall i :: 0 <= i < |events| ==> Keeps(events[i], a)
    ensures WorldInv(start) && WorldInv(Run(start, events))
    ensures var w := Run(start, events);
            a in w.state.accounts ==>
              var schedules, now := w.state.accounts[a].schedules, Later(w, last).now;
              && Paid(start, events, a) + Pays(w, last, a) == VestedAt(schedules, now)
              && ((forall i :: 0 <= i < |schedules| ==> Ended(schedules[i], now)) ==> Paid(start, events, a) + Pays(w, last, a) == GrantOf(schedules))
  {
    InitialInv(start);
    RunKeeps(start, events);
    RunReleases(start, events, a);
    var w := Run(start, events);
    if a in w.state.accounts {
      var now := Later(w, last).now;
      TimePasses(w.state, w.now, now);
      ClaimSucceeds(w.state, now, a, None);
      VestedBounds(w.state.accounts[a].schedules, now, now);
    }
  }

  /** For an account with a single schedule, a full claim brings the sum of all payments to the point on the schedule's
      line, whatever partial claims came before. */
  lemma PaymentsOnTheLine(start: World, events: seq<Event>, last: Event, a: Addr, s: Schedule)
    requires Initial(start) && last.msg == Claim(a, None)
    requires forall i :: 0 <= i < |events| ==> Keeps(events[i], a)
    ensures WorldInv(start) && WorldInv(Run(start, events))
    ensures var w := Run(start, events);
            a in w.state.accounts && w.state.accounts[a].schedules == [s] ==>
              OnTheLine(s, Later(w, last).now, Paid(start, events, a) + Pays(w, last, a))
  {
    PathIndependence(start, events, last, a);
    var w := Run(start, events);
    if a in w.state.accounts && w.state.accounts[a].schedules == [s] {
      SingleOnTheLine(w.state.accounts[a].schedules, s, Later(w, last).now);
    }
  }
}

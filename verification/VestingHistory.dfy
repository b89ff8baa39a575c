/** The vesting contract with its change logs: handlers save what they have changed at the current height, and the
    historical queries read the logs. */
module VestingHistory {
  import opened Basics
  import opened Snapshots
  import V = Vesting
  import R = VestingRuns
  import VestingContract

  // Saving one account after the other

  /** The logs after one account was saved. */
  function SaveOne(logs: map<Addr, Snap<Option<V.Info>>>, height: nat, v: V.State, a: Addr): map<Addr, Snap<Option<V.Info>>> {
    logs[a := Write(if a in logs then logs[a] else Snap(None, map[]), height, R.Lookup(v, a))]
  }

  ghost predicate SavedFor(h: R.History, height: nat, v: V.State, list: seq<Addr>, logs: map<Addr, Snap<Option<V.Info>>>) {
    forall a ::
      && (a in logs <==> a in h.accounts || a in list)
      && (a in logs ==> logs[a] == if a in list then Write(h.Account(a), height, R.Lookup(v, a)) else h.accounts[a])
  }

  /** An account that is listed twice is logged once. */
  lemma SavedOneMore(h: R.History, height: nat, v: V.State, list: seq<Addr>, logs: map<Addr, Snap<Option<V.Info>>>, a: Addr)
    requires SavedFor(h, height, v, list, logs)
    ensures SavedFor(h, height, v, list + [a], SaveOne(logs, height, v, a))
  {
    var logs' := SaveOne(logs, height, v, a);
    forall b
      ensures b in logs' <==> b in h.accounts || b in list + [a]
      ensures b in logs' ==> logs'[b] == if b in list + [a] then Write(h.Account(b), height, R.Lookup(v, b)) else h.accounts[b]
    {
      assert b in list + [a] <==> b in list || b == a;
    }
  }

  /** The list names exactly the written accounts, perhaps more than once. */
  ghost predicate Names(list: seq<Addr>, written: set<Addr>) {
    forall a :: a in list <==> a in written
  }

  function AddressList(accounts: seq<V.Account>): seq<Addr> {
    seq(|accounts|, i requires 0 <= i < |accounts| => accounts[i].address)
  }

  lemma AddressesNamed(accounts: seq<V.Account>)
    ensures Names(AddressList(accounts), R.Addresses(accounts))
  {
    forall a | a in R.Addresses(accounts)
      ensures a in AddressList(accounts)
    {
      var i :| 0 <= i < |accounts| && accounts[i].address == a;
      assert AddressList(accounts)[i] == a;
    }
  }

  lemma SavedAll(h: R.History, height: nat, v: V.State, list: seq<Addr>, written: set<Addr>, totals: bool, logs: map<Addr, Snap<Option<V.Info>>>)
    requires SavedFor(h, height, v, list, logs) && Names(list, written)
    ensures R.Save(h, height, v, written, totals).accounts == logs
  {
    var saved := R.Save(h, height, v, written, totals).accounts;
    forall a
      ensures a in saved <==> a in logs
      ensures a in saved ==> saved[a] == logs[a]
    {
    }
  }

  /** The value that a snapshot had when the block at a height began: the one logged at the first write since. */
  method LoadAtHeight<T>(s: Snap<T>, height: nat) returns (value: T)
    ensures value == At(s, height)
  {
    value := s.current;
    var best: Option<nat> := None;
    var rest := s.log.Keys;
    while rest != {}
      invariant rest <= s.log.Keys
      invariant best.None? ==> value == s.current && forall h :: h in s.log && h !in rest ==> h < height
      invariant best.Some? ==> best.value in s.log && best.value >= height && value == s.log[best.value]
      invariant best.Some? ==> forall h :: h in s.log && h !in rest && h >= height ==> best.value <= h
      decreases |rest|
    {
      var h :| h in rest;
      rest := rest - {h};
      if h >= height && (best.None? || h < best.value) {
        best, value := Some(h), s.log[h];
      }
    }
    if best.Some? {
      assert best.value in WrittenSince(s, height);
    }
  }

  class Contract {
    const base: VestingContract.Contract
    var height: nat
    var now: nat
    var accounts: map<Addr, Snap<Option<V.Info>>>
    var totals: Snap<(nat, nat)>

    function History(): R.History
      reads this
    {
      R.History(accounts, totals)
    }

    function World(): R.World
      reads this, base
    {
      R.World(height, now, base.State(), History())
    }

    constructor (height: nat, now: nat)
      ensures R.Initial(World()) && fresh(base)
      ensures this.height == height && this.now == now
    {
      base := new VestingContract.Contract();
      this.height, this.now := height, now;
      accounts, totals := map[], Snap((0, 0), map[]);
    }

    /** Saves the listed accounts and, if there are any or totals says so, the totals at the current height. */
    method Save(list: seq<Addr>, totalsToo: bool, ghost written: set<Addr>)
      requires Names(list, written)
      modifies this`accounts, this`totals
      ensures History() == R.Save(old(History()), height, base.State(), written, totalsToo)
    {
      ghost var h := History();
      for i := 0 to |list|
        invariant totals == h.totals && SavedFor(h, height, base.State(), list[..i], accounts)
      {
        assert list[..i + 1] == list[..i] + [list[i]];
        SavedOneMore(h, height, base.State(), list[..i], accounts, list[i]);
        accounts := SaveOne(accounts, height, base.State(), list[i]);
      }
      assert list[..|list|] == list;
      SavedAll(h, height, base.State(), list, written, totalsToo, accounts);
      if totalsToo {
        totals := Write(totals, height, (base.granted, base.released));
      }
    }

    /** The listed accounts that the contract has. */
    method Present(list: seq<Addr>) returns (found: seq<Addr>)
      ensures Names(found, R.Existing(base.State(), list))
    {
      found := [];
      for i := 0 to |list|
        invariant forall a :: a in found <==> a in list[..i] && a in base.accounts
      {
        assert list[..i + 1] == list[..i] + [list[i]];
        if list[i] in base.accounts {
          found := found + [list[i]];
        }
      }
      assert list[..|list|] == list;
    }

    /** Passes a message on; if it succeeds, the result lists the accounts that it has written. */
    method Dispatch(msg: R.Msg) returns (r: Result<seq<Addr>>)
      requires V.AllValid(base.State())
      modifies base
      ensures match R.Execute(old(base.State()), now, msg)
              case Ok(v) => r.Ok? && base.State() == v && Names(r.value, R.Written(old(base.State()), now, msg))
              case Err(e) => r == Err(e) && base.State() == old(base.State())
    {
      match msg
      case Register(list, amount) =>
        var done := base.Register(list, amount);
        AddressesNamed(list);
        r := if done.Ok? then Ok(AddressList(list)) else Err(done.error);
      case Claim(account, amount) =>
        var paid := base.Claim(now, account, amount);
        r := if paid.Err? then Err(paid.error) else if paid.value > 0 then Ok([account]) else Ok([]);
      case Remove(list) =>
        var found := Present(list);
        var done := base.RemoveAccounts(list);
        r := if done.Ok? then Ok(found) else Err(done.error);
    }

    /** A message at the current height. */
    method Deliver(msg: R.Msg) returns (r: Result<()>)
      requires R.WorldInv(World())
      modifies this`accounts, this`totals, base
      ensures R.WorldInv(old(World())) && World() == R.Deliver(old(World()), msg) && R.WorldInv(World())
      ensures r.Ok? <==> R.Execute(old(base.State()), now, msg).Ok?
    {
      ghost var w := World();
      R.DeliverKeeps(w, msg);
      var written := Dispatch(msg);
      if written.Err? {
        return Err(written.error);
      }
      ghost var accountsWritten := R.Written(w.state, now, msg);
      assert |written.value| > 0 <==> accountsWritten != {} by {
        if |written.value| > 0 {
          assert written.value[0] in accountsWritten;
        }
      }
      Save(written.value, msg.Register? || |written.value| > 0, accountsWritten);
      return Ok(());
    }

    /** A whole run of the contract is a run of the model, so what is proved of histories holds of its logs. */
    method Serve(events: seq<R.Event>)
      requires R.WorldInv(World())
      modifies this, base
      ensures R.WorldInv(old(World())) && World() == R.Run(old(World()), events) && R.WorldInv(World())
    {
      ghost var w0 := World();
      for i := 0 to |events|
        invariant R.WorldInv(World())
        invariant R.Run(w0, events) == R.Run(World(), events[i..])
      {
        assert events[i..][0] == events[i] && events[i..][1..] == events[i + 1..];
        ghost var w := World();
        R.LaterKeeps(w, events[i]);
        height, now := height + events[i].blocks, now + events[i].elapsed;
        assert World() == R.Later(w, events[i]);
        var _ := Deliver(events[i].msg);
      }
    }

    /** The query for one account at a height. */
    method UnclaimedAmountAtHeight(a: Addr, past: nat) returns (r: Result<nat>)
      ensures r == R.UnclaimedAtHeight(History(), a, past)
    {
      var info := LoadAtHeight(if a in accounts then accounts[a] else Snap(None, map[]), past);
      if info.None? {
        return Ok(0);
      }
      r := VestingContract.ComputeUnclaimed(info.value);
    }

    /** The query for all accounts at a height. */
    method TotalUnclaimedAtHeight(past: nat) returns (r: Result<nat>)
      ensures r == R.TotalUnclaimedAtHeight(History(), past)
    {
      var state := LoadAtHeight(totals, past);
      if state.0 < state.1 {
        return Err(Overflow);
      }
      return Ok(state.0 - state.1);
    }
  }
}

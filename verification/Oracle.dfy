/** The price oracle: average prices from a pair's accumulators, which wrap around at 128 bits. */
module Oracle {
  import opened Basics
  import opened FixedPoint

  const WRAP: nat := 0x1_0000_0000_0000_0000_0000_0000_0000_0000

  type Asset = nat

  /** A value for an ordered pair of assets: an accumulator, or an average price as a decimal. */
  datatype Price = Price(from: Asset, to: Asset, value: nat)

  datatype PriceLast = PriceLast(cumulative: seq<Price>, averages: seq<Price>, time: nat)

  predicate SamePair(p: Price, q: Price) {
    p.from == q.from && p.to == q.to
  }

  /** a - b in 128-bit arithmetic. */
  function WrapSub(a: nat, b: nat): nat {
    if b <= a then a - b else if b <= a + WRAP then a + WRAP - b else 0
  }

  /** One average for each current entry of the same pair as an earlier entry. */
  function Matches(last: Price, prices: seq<Price>, elapsed: nat): seq<Price>
    requires elapsed > 0
  {
    if prices == [] then []
    else Match(last, prices[0], elapsed) + Matches(last, prices[1..], elapsed)
  }

  function Match(last: Price, price: Price, elapsed: nat): seq<Price>
    requires elapsed > 0
  {
    if SamePair(last, price) then [Price(price.from, price.to, Ratio(WrapSub(price.value, last.value), elapsed))] else []
  }

  function Averages(last: seq<Price>, prices: seq<Price>, elapsed: nat): seq<Price>
    requires elapsed > 0
  {
    if last == [] then [] else Matches(last[0], prices, elapsed) + Averages(last[1..], prices, elapsed)
  }

  predicate AnyMatch(last: seq<Price>, prices: seq<Price>) {
    exists i, j :: 0 <= i < |last| && 0 <= j < |prices| && SamePair(last[i], prices[j])
  }

  function Zeros(prices: seq<Price>): seq<Price> {
    seq(|prices|, i requires 0 <= i < |prices| => prices[i].(value := 0))
  }

  /** What an update stores, given the accumulators that the pair reports. */
  function Update(stored: Option<PriceLast>, period: nat, now: nat, prices: seq<Price>): Result<PriceLast> {
    match stored
    case None => Ok(PriceLast(prices, Zeros(prices), now))
    case Some(last) =>
      var elapsed :- CheckedSub(now, last.time);
      if elapsed < period then Err(WrongPeriod)
      else if elapsed == 0 then
        if AnyMatch(last.cumulative, prices) then Err(DivideByZero) else Ok(PriceLast(prices, [], now))
      else Ok(PriceLast(prices, Averages(last.cumulative, prices, elapsed), now))
  }

  // The wrap-around

  /** What the pair reports of unbounded accumulators. */
  function Wrapped(prices: seq<Price>): seq<Price> {
    seq(|prices|, i requires 0 <= i < |prices| => prices[i].(value := prices[i].value % WRAP))
  }

  /** Growth of less than 2^128 survives the wrap-around. */
  lemma WrapSubIsGrowth(now: nat, before: nat)
    requires before <= now < before + WRAP
    ensures WrapSub(now % WRAP, before % WRAP) == now - before
  {
    assert now == WRAP * (now / WRAP) + now % WRAP;
    assert before == WRAP * (before / WRAP) + before % WRAP;
    assert now / WRAP == before / WRAP || now / WRAP == before / WRAP + 1;
  }

  // Pairs

  function Find(prices: seq<Price>, from: Asset, to: Asset): Option<nat> {
    if prices == [] then None
    else if prices[0].from == from && prices[0].to == to then Some(prices[0].value)
    else Find(prices[1..], from, to)
  }

  predicate Distinct(prices: seq<Price>) {
    forall i, j :: 0 <= i < j < |prices| ==> !SamePair(prices[i], prices[j])
  }

  lemma {:induction false} FindAppend(a: seq<Price>, b: seq<Price>, from: Asset, to: Asset)
    ensures Find(a + b, from, to) == if Find(a, from, to).Some? then Find(a, from, to) else Find(b, from, to)
  {
    if a == [] {
      assert a + b == b;
    } else {
      assert (a + b)[0] == a[0] && (a + b)[1..] == a[1..] + b;
      FindAppend(a[1..], b, from, to);
    }
  }

  lemma {:induction false} FindWrapped(prices: seq<Price>, from: Asset, to: Asset)
    ensures Find(Wrapped(prices), from, to) ==
            match Find(prices, from, to) { case None => None case Some(v) => Some(v % WRAP) }
    ensures Distinct(prices) ==> Distinct(Wrapped(prices))
  {
    if prices != [] {
      assert Wrapped(prices)[1..] == Wrapped(prices[1..]);
      FindWrapped(prices[1..], from, to);
    }
    forall i, j | Distinct(prices) && 0 <= i < j < |prices|
      ensures !SamePair(Wrapped(prices)[i], Wrapped(prices)[j])
    {
      assert !SamePair(prices[i], prices[j]);
    }
  }

  // Averages pair by pair

  lemma {:induction false} FindMatches(last: Price, prices: seq<Price>, elapsed: nat, from: Asset, to: Asset)
    requires elapsed > 0
    ensures Find(Matches(last, prices, elapsed), from, to) ==
            if last.from == from && last.to == to && Find(prices, from, to).Some?
            then Some(Ratio(WrapSub(Find(prices, from, to).value, last.value), elapsed))
            else None
    ensures forall i :: 0 <= i < |Matches(last, prices, elapsed)| ==> SamePair(Matches(last, prices, elapsed)[i], last)
  {
    if prices != [] {
      FindMatches(last, prices[1..], elapsed, from, to);
      FindAppend(Match(last, prices[0], elapsed), Matches(last, prices[1..], elapsed), from, to);
      if SamePair(last, prices[0]) {
        var m := Match(last, prices[0], elapsed);
        assert m[1..] == [];
        assert Find(m, from, to) == if m[0].from == from && m[0].to == to then Some(m[0].value) else None;
      }
    }
  }

  lemma {:induction false} FindAverages(last: seq<Price>, prices: seq<Price>, elapsed: nat, from: Asset, to: Asset)
    requires elapsed > 0
    ensures Find(Averages(last, prices, elapsed), from, to) ==
            if Find(last, from, to).Some? && Find(prices, from, to).Some?
            then Some(Ratio(WrapSub(Find(prices, from, to).value, Find(last, from, to).value), elapsed))
            else None
  {
    if last != [] {
      FindMatches(last[0], prices, elapsed, from, to);
      FindAverages(last[1..], prices, elapsed, from, to);
      FindAppend(Matches(last[0], prices, elapsed), Averages(last[1..], prices, elapsed), from, to);
    }
  }

  /** A pair that neither list repeats has at most one average. */
  lemma {:induction false} MatchesOnce(last: Price, prices: seq<Price>, elapsed: nat)
    requires elapsed > 0 && Distinct(prices)
    ensures |Matches(last, prices, elapsed)| <= 1
  {
    if prices != [] {
      MatchesOnce(last, prices[1..], elapsed);
      if SamePair(last, prices[0]) && |Matches(last, prices[1..], elapsed)| > 0 {
        MatchComesFrom(last, prices[1..], elapsed);
      }
    }
  }

  lemma {:induction false} MatchComesFrom(last: Price, prices: seq<Price>, elapsed: nat)
    requires elapsed > 0 && |Matches(last, prices, elapsed)| > 0
    ensures exists j :: 0 <= j < |prices| && SamePair(last, prices[j])
  {
    if !SamePair(last, prices[0]) {
      MatchComesFrom(last, prices[1..], elapsed);
      var j :| 0 <= j < |prices[1..]| && SamePair(last, prices[1..][j]);
      assert SamePair(last, prices[j + 1]);
    }
  }

  lemma {:induction false} AverageComesFrom(last: seq<Price>, prices: seq<Price>, elapsed: nat, i: nat)
    requires elapsed > 0 && i < |Averages(last, prices, elapsed)|
    ensures exists j :: 0 <= j < |last| && SamePair(last[j], Averages(last, prices, elapsed)[i])
  {
    var first := Matches(last[0], prices, elapsed);
    FindMatches(last[0], prices, elapsed, 0, 0);
    if i < |first| {
      assert SamePair(last[0], Averages(last, prices, elapsed)[i]);
    } else {
      AverageComesFrom(last[1..], prices, elapsed, i - |first|);
      var j :| 0 <= j < |last[1..]| && SamePair(last[1..][j], Averages(last[1..], prices, elapsed)[i - |first|]);
      assert SamePair(last[j + 1], Averages(last, prices, elapsed)[i]);
    }
  }

  lemma {:induction false} AveragesDistinct(last: seq<Price>, prices: seq<Price>, elapsed: nat)
    requires elapsed > 0 && Distinct(last) && Distinct(prices)
    ensures Distinct(Averages(last, prices, elapsed))
  {
    if last != [] {
      var first, rest := Matches(last[0], prices, elapsed), Averages(last[1..], prices, elapsed);
      MatchesOnce(last[0], prices, elapsed);
      FindMatches(last[0], prices, elapsed, 0, 0);
      AveragesDistinct(last[1..], prices, elapsed);
      forall i | 0 <= i < |rest|
        ensures !SamePair(last[0], rest[i])
      {
        AverageComesFrom(last[1..], prices, elapsed, i);
        var j :| 0 <= j < |last[1..]| && SamePair(last[1..][j], rest[i]);
        assert !SamePair(last[0], last[j + 1]);
      }
      forall i, j | 0 <= i < j < |first + rest|
        ensures !SamePair((first + rest)[i], (first + rest)[j])
      {
        if i < |first| {
          assert SamePair(first[i], last[0]);
        }
      }
    }
  }

  /** The averages list every pair once that both updates knew, with its true average price: the growth of the unbounded
      accumulator over the elapsed time, rounded down. */
  ghost predicate Right(averages: seq<Price>, before: seq<Price>, now: seq<Price>, elapsed: nat) {
    Distinct(averages) && forall from, to :: RightFor(averages, before, now, elapsed, from, to)
  }

  predicate RightFor(averages: seq<Price>, before: seq<Price>, now: seq<Price>, elapsed: nat, from: Asset, to: Asset) {
    match (Find(before, from, to), Find(now, from, to))
    case (Some(b), Some(n)) => elapsed > 0 && b <= n && Find(averages, from, to) == Some(Ratio(n - b, elapsed))
    case _ => Find(averages, from, to) == None
  }

  /** Unbounded accumulators that grow, by less than 2^128, for each pair. */
  ghost predicate Grows(before: seq<Price>, now: seq<Price>) {
    forall from, to :: GrowsFor(before, now, from, to)
  }

  predicate GrowsFor(before: seq<Price>, now: seq<Price>, from: Asset, to: Asset) {
    match (Find(before, from, to), Find(now, from, to))
    case (Some(b), Some(n)) => b <= n < b + WRAP
    case _ => true
  }

  /** An update computes true averages from what the wrapping accumulators report. */
  lemma UpdateIsRight(before: seq<Price>, now: seq<Price>, elapsed: nat)
    requires elapsed > 0 && Distinct(before) && Distinct(now) && Grows(before, now)
    ensures Right(Averages(Wrapped(before), Wrapped(now), elapsed), before, now, elapsed)
  {
    var averages := Averages(Wrapped(before), Wrapped(now), elapsed);
    FindWrapped(before, 0, 0);
    FindWrapped(now, 0, 0);
    AveragesDistinct(Wrapped(before), Wrapped(now), elapsed);
    forall from, to
      ensures RightFor(averages, before, now, elapsed, from, to)
    {
      FindWrapped(before, from, to);
      FindWrapped(now, from, to);
      FindAverages(Wrapped(before), Wrapped(now), elapsed, from, to);
      assert GrowsFor(before, now, from, to);
      if Find(before, from, to).Some? && Find(now, from, to).Some? {
        WrapSubIsGrowth(Find(now, from, to).value, Find(before, from, to).value);
      }
    }
  }

  lemma {:induction false} FoundAt(prices: seq<Price>, from: Asset, to: Asset)
    requires Find(prices, from, to).Some?
    ensures exists i :: 0 <= i < |prices| && prices[i].from == from && prices[i].to == to
  {
    if prices[0].from != from || prices[0].to != to {
      FoundAt(prices[1..], from, to);
      var i :| 0 <= i < |prices[1..]| && prices[1..][i].from == from && prices[1..][i].to == to;
      assert prices[i + 1].from == from;
    }
  }

  lemma CommonPairMatches(before: seq<Price>, now: seq<Price>, from: Asset, to: Asset)
    requires Find(before, from, to).Some? && Find(now, from, to).Some?
    ensures AnyMatch(Wrapped(before), Wrapped(now))
  {
    FoundAt(before, from, to);
    FoundAt(now, from, to);
    var i :| 0 <= i < |before| && before[i].from == from && before[i].to == to;
    var j :| 0 <= j < |now| && now[j].from == from && now[j].to == to;
    assert SamePair(Wrapped(before)[i], Wrapped(now)[j]);
  }

  /** Without elapsed time, an update is accepted only if no pair is known to both updates. */
  lemma NothingInCommon(before: seq<Price>, now: seq<Price>)
    requires !AnyMatch(Wrapped(before), Wrapped(now))
    ensures Right([], before, now, 0)
  {
    forall from, to
      ensures RightFor([], before, now, 0, from, to)
    {
      if Find(before, from, to).Some? && Find(now, from, to).Some? {
        CommonPairMatches(before, now, from, to);
      }
    }
  }

  // Runs

  /** The unbounded accumulators at an attempted update, and how much time has passed since the one before. */
  datatype Event = Event(elapsed: nat, prices: seq<Price>)

  /** The stored prices, how often they were updated, and for the last two updates the unbounded accumulators and, for
      the one before the last, the time. */
  datatype World = World(now: nat, period: nat, stored: Option<PriceLast>, updates: nat,
                         before: seq<Price>, since: nat, current: seq<Price>)

  function Later(w: World, e: Event): World {
    w.(now := w.now + e.elapsed)
  }

  function Attempt(w: World, prices: seq<Price>): World {
    match Update(w.stored, w.period, w.now, Wrapped(prices))
    case Ok(last) =>
      w.(stored := Some(last), updates := w.updates + 1, before := w.current, current := prices,
         since := if w.stored.Some? then w.stored.value.time else w.now)
    case Err(_) => w
  }

  function Next(w: World, e: Event): World {
    Attempt(Later(w, e), e.prices)
  }

  function Run(w: World, events: seq<Event>): World
    decreases |events|
  {
    if events == [] then w else Run(Next(w, events[0]), events[1..])
  }

  /** The pair lists each pair of assets once, and no accumulator grows by 2^128 from one update to the next. */
  ghost predicate Fair(w: World, events: seq<Event>)
    decreases |events|
  {
    events == [] ||
    (&& Distinct(events[0].prices) && Grows(w.current, events[0].prices)
     && Fair(Next(w, events[0]), events[1..]))
  }

  ghost predicate WorldInv(w: World) {
    && Distinct(w.current)
    && (w.stored.Some? <==> w.updates > 0)
    && match w.stored
       case None => w.current == []
       case Some(last) =>
         && last.time <= w.now && w.since <= last.time && last.cumulative == Wrapped(w.current)
         && if w.updates == 1 then last.averages == Zeros(last.cumulative) else Right(last.averages, w.before, w.current, last.time - w.since)
  }

  lemma AttemptKeeps(w: World, prices: seq<Price>)
    requires WorldInv(w) && Distinct(prices) && Grows(w.current, prices)
    ensures WorldInv(Attempt(w, prices))
  {
    if w.stored.Some? && Update(w.stored, w.period, w.now, Wrapped(prices)).Ok? {
      if w.now == w.stored.value.time {
        NothingInCommon(w.current, prices);
      } else {
        UpdateIsRight(w.current, prices, w.now - w.stored.value.time);
      }
    }
  }

  lemma {:induction false} RunKeeps(w: World, events: seq<Event>)
    requires WorldInv(w) && Fair(w, events)
    ensures WorldInv(Run(w, events))
    decreases |events|
  {
    if events != [] {
      assert WorldInv(Later(w, events[0]));
      AttemptKeeps(Later(w, events[0]), events[0].prices);
      RunKeeps(Next(w, events[0]), events[1..]);
    }
  }

  /** The same pairs in the same order, each with the value zero. */
  predicate AllZero(averages: seq<Price>, prices: seq<Price>) {
    |averages| == |prices| && forall i :: 0 <= i < |prices| ==> averages[i] == Price(prices[i].from, prices[i].to, 0)
  }

  /** In every run, however often the accumulators wrap around: the first update stores zeros, and every later one the
      true average prices since the update before it. */
  lemma AveragesAreTrue(start: World, events: seq<Event>)
    requires start.stored == None && start.updates == 0 && start.current == [] && Fair(start, events)
    ensures var w := Run(start, events);
            && (w.stored.Some? <==> w.updates > 0)
            && (w.updates > 0 ==> w.stored.value.cumulative == Wrapped(w.current))
            && (w.updates == 1 ==> AllZero(w.stored.value.averages, w.current))
            && (w.updates > 1 ==>
                  && w.since <= w.stored.value.time <= w.now
                  && Right(w.stored.value.averages, w.before, w.current, w.stored.value.time - w.since))
  {
    RunKeeps(start, events);
  }

  // When updates happen

  /** The time of the last accepted update. */
  function LastUpdate(w: World, events: seq<Event>, last: Option<nat>): Option<nat>
    decreases |events|
  {
    if events == [] then last
    else
      var l := Later(w, events[0]);
      LastUpdate(Next(w, events[0]), events[1..], if Update(l.stored, l.period, l.now, Wrapped(events[0].prices)).Ok? then Some(l.now) else last)
  }

  function TimeOf(stored: Option<PriceLast>): Option<nat> {
    if stored.Some? then Some(stored.value.time) else None
  }

  lemma {:induction false} RunUpdates(w: World, events: seq<Event>)
    requires w.stored.Some? ==> w.stored.value.time <= w.now
    ensures var w' := Run(w, events);
            && w'.period == w.period && TimeOf(w'.stored) == LastUpdate(w, events, TimeOf(w.stored))
            && (w'.stored.Some? ==> w'.stored.value.time <= w'.now)
    decreases |events|
  {
    if events != [] {
      RunUpdates(Next(w, events[0]), events[1..]);
    }
  }

  lemma UpdateAccepted(stored: Option<PriceLast>, period: nat, now: nat, before: seq<Price>, prices: seq<Price>)
    requires stored.Some? ==> stored.value.time <= now && stored.value.cumulative == Wrapped(before)
    ensures Update(stored, period, now, Wrapped(prices)).Ok? <==>
              || stored.None?
              || (&& stored.value.time + period <= now
                  && (stored.value.time == now ==> forall i, j :: 0 <= i < |before| && 0 <= j < |prices| ==> !SamePair(before[i], prices[j])))
  {
    if i, j :| 0 <= i < |before| && 0 <= j < |prices| && SamePair(before[i], prices[j]) {
      assert SamePair(Wrapped(before)[i], Wrapped(prices)[j]);
    }
    if i, j :| 0 <= i < |before| && 0 <= j < |prices| && SamePair(Wrapped(before)[i], Wrapped(prices)[j]) {
      assert SamePair(before[i], prices[j]);
    }
  }

  /** In every run an update is accepted exactly if it is the first one or the period has passed since the last accepted one.
      Only with a period of zero does more matter: at the very same time, no pair of assets may be known already. */
  lemma UpdatesHappen(start: World, events: seq<Event>, prices: seq<Price>)
    requires start.stored == None && start.updates == 0 && start.current == [] && Fair(start, events)
    ensures var w, last := Run(start, events), LastUpdate(start, events, None);
            Update(w.stored, w.period, w.now, Wrapped(prices)).Ok? <==>
              || last.None?
              || (&& last.value + start.period <= w.now
                  && (last.value == w.now ==> forall i, j :: 0 <= i < |w.current| && 0 <= j < |prices| ==> !SamePair(w.current[i], prices[j])))
  {
    RunKeeps(start, events);
    RunUpdates(start, events);
    var w := Run(start, events);
    UpdateAccepted(w.stored, w.period, w.now, w.current, prices);
  }
}

/** The oracle's update in its own form: nested loops over the stored and the reported prices. */
module OracleContract {
  import opened Basics
  import opened FixedPoint
  import opened O = Oracle

  lemma {:induction false} AppendMatch(last: Price, prices: seq<Price>, price: Price, elapsed: nat)
    requires elapsed > 0
    ensures Matches(last, prices + [price], elapsed) == Matches(last, prices, elapsed) + Match(last, price, elapsed)
  {
    if prices == [] {
      assert prices + [price] == [price];
    } else {
      assert (prices + [price])[1..] == prices[1..] + [price];
      AppendMatch(last, prices[1..], price, elapsed);
    }
  }

  lemma {:induction false} AppendAverages(last: seq<Price>, l: Price, prices: seq<Price>, elapsed: nat)
    requires elapsed > 0
    ensures Averages(last + [l], prices, elapsed) == Averages(last, prices, elapsed) + Matches(l, prices, elapsed)
  {
    if last == [] {
      assert last + [l] == [l];
    } else {
      assert (last + [l])[1..] == last[1..] + [l];
      AppendAverages(last[1..], l, prices, elapsed);
    }
  }

  /** What the loops have collected when they reach entry j of the current prices for entry i of the last ones. */
  ghost predicate Collected(averages: seq<Price>, last: seq<Price>, i: nat, prices: seq<Price>, j: nat, elapsed: nat)
    requires i < |last| && j <= |prices|
  {
    && (elapsed > 0 ==> averages == Averages(last[..i], prices, elapsed) + Matches(last[i], prices[..j], elapsed))
    && (elapsed == 0 ==> averages == [] && !AnyMatch(last[..i], prices) && !AnyMatch([last[i]], prices[..j]))
  }

  lemma CollectNext(averages: seq<Price>, last: seq<Price>, i: nat, prices: seq<Price>, j: nat, elapsed: nat)
    requires i < |last| && j < |prices| && Collected(averages, last, i, prices, j, elapsed)
    requires elapsed == 0 ==> !SamePair(prices[j], last[i])
    ensures Collected(averages + if elapsed > 0 then Match(last[i], prices[j], elapsed) else [], last, i, prices, j + 1, elapsed)
  {
    assert prices[..j + 1] == prices[..j] + [prices[j]];
    if elapsed > 0 {
      AppendMatch(last[i], prices[..j], prices[j], elapsed);
    } else {
      var row, seen := [last[i]], prices[..j + 1];
      forall k, m | 0 <= k < |row| && 0 <= m < |seen|
        ensures !SamePair(row[k], seen[m])
      {
        assert m < j ==> !SamePair(row[0], prices[..j][m]);
      }
    }
  }

  lemma CollectRow(averages: seq<Price>, last: seq<Price>, i: nat, prices: seq<Price>, elapsed: nat)
    requires i < |last| && Collected(averages, last, i, prices, |prices|, elapsed)
    ensures elapsed > 0 ==> averages == Averages(last[..i + 1], prices, elapsed)
    ensures elapsed == 0 ==> averages == [] && !AnyMatch(last[..i + 1], prices)
  {
    assert prices[..|prices|] == prices;
    assert last[..i + 1] == last[..i] + [last[i]];
    if elapsed > 0 {
      AppendAverages(last[..i], last[i], prices, elapsed);
    } else {
      var rows := last[..i + 1];
      forall k, m | 0 <= k < |rows| && 0 <= m < |prices|
        ensures !SamePair(rows[k], prices[m])
      {
        if k < i {
          assert !SamePair(last[..i][k], prices[m]);
        } else {
          assert !SamePair([last[i]][0], prices[m]);
        }
      }
    }
  }

  class Contract {
    const period: nat
    var last: Option<PriceLast>

    constructor (period: nat)
      ensures this.period == period && last == None
    {
      this.period := period;
      last := None;
    }

    /** Compares every stored entry with every reported one, and pushes an average for each two of the same pair. */
    method Update(now: nat, prices: seq<Price>) returns (r: Result<()>)
      modifies this
      ensures match O.Update(old(last), period, now, prices)
              case Ok(stored) => r == Ok(()) && last == Some(stored)
              case Err(e) => r == Err(e) && last == old(last)
    {
      var averages: seq<Price> := [];
      if last.Some? {
        var entries := last.value.cumulative;
        if now < last.value.time {
          return Err(Overflow);
        }
        var elapsed := now - last.value.time;
        if elapsed < period {
          return Err(WrongPeriod);
        }
        for i := 0 to |entries|
          invariant last == old(last)
          invariant elapsed > 0 ==> averages == Averages(entries[..i], prices, elapsed)
          invariant elapsed == 0 ==> averages == [] && !AnyMatch(entries[..i], prices)
        {
          for j := 0 to |prices|
            invariant last == old(last)
            invariant Collected(averages, entries, i, prices, j, elapsed)
          {
            if SamePair(prices[j], entries[i]) && elapsed == 0 {
              assert SamePair(entries[i], prices[j]);
              return Err(DivideByZero);
            }
            CollectNext(averages, entries, i, prices, j, elapsed);
            if SamePair(prices[j], entries[i]) {
              var growth := WrapSub(prices[j].value, entries[i].value);
              averages := averages + [Price(prices[j].from, prices[j].to, Ratio(growth, elapsed))];
            } else {
              assert averages + [] == averages;
            }
          }
          CollectRow(averages, entries, i, prices, elapsed);
        }
        assert entries[..|entries|] == entries;
      } else {
        averages := Zeros(prices);
      }
      last := Some(PriceLast(prices, averages, now));
      return Ok(());
    }
  }
}

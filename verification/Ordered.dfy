/** Storage iteration: the keys of a map in ascending order. */
module Ordered {

  ghost function Least(s: set<nat>): (m: nat)
    requires s != {}
    ensures m in s && forall x :: x in s ==> m <= x
  {
    var y :| y in s;
    if s == {y} then y
    else
      var m := Least(s - {y});
      assert forall x :: x in s ==> x == y || x in s - {y};
      if m <= y then m else y
  }

  ghost function Ascending(s: set<nat>): seq<nat> {
    if s == {} then [] else [Least(s)] + Ascending(s - {Least(s)})
  }

  /** Every element is visited once, in order. */
  lemma {:induction false} AscendingIsSorted(s: set<nat>)
    ensures |Ascending(s)| == |s|
    ensures forall x :: x in Ascending(s) <==> x in s
    ensures forall i, j :: 0 <= i < j < |Ascending(s)| ==> Ascending(s)[i] < Ascending(s)[j]
    decreases |s|
  {
    if s != {} {
      var m := Least(s);
      AscendingIsSorted(s - {m});
      LeastFirst(s, m, Ascending(s - {m}));
    }
  }

  lemma LeastFirst(s: set<nat>, m: nat, rest: seq<nat>)
    requires m in s && (forall x :: x in s ==> m <= x) && (forall x :: x in rest <==> x in s - {m})
    requires forall i, j :: 0 <= i < j < |rest| ==> rest[i] < rest[j]
    ensures forall x :: x in [m] + rest <==> x in s
    ensures forall i, j :: 0 <= i < j < |[m] + rest| ==> ([m] + rest)[i] < ([m] + rest)[j]
  {
    var r := [m] + rest;
    forall x
      ensures x in r <==> x in s
    {
      assert x in r <==> x == m || x in rest;
    }
    forall i, j | 0 <= i < j < |r|
      ensures r[i] < r[j]
    {
      assert r[j] == rest[j - 1] && rest[j - 1] in rest;
      assert r[i] == if i == 0 then m else rest[i - 1];
    }
  }

  /** There is only one way to list a set in ascending order. */
  lemma {:induction false} AscendingIsUnique(s: set<nat>, r: seq<nat>)
    requires |r| == |s| && forall x :: x in r <==> x in s
    requires forall i, j :: 0 <= i < j < |r| ==> r[i] < r[j]
    ensures r == Ascending(s)
    decreases |s|
  {
    if s != {} {
      var m := Least(s);
      FirstIsLeast(s, r, m);
      AscendingIsUnique(s - {m}, r[1..]);
      assert r == [r[0]] + r[1..];
    }
  }

  lemma FirstIsLeast(s: set<nat>, r: seq<nat>, m: nat)
    requires m in s && (forall x :: x in s ==> m <= x) && (forall x :: x in r <==> x in s)
    requires forall i, j :: 0 <= i < j < |r| ==> r[i] < r[j]
    ensures |r| > 0 && r[0] == m && forall x :: x in r[1..] <==> x in s - {m}
  {
    var i :| 0 <= i < |r| && r[i] == m;
    assert r[0] in s;
    forall x
      ensures x in r[1..] <==> x in s - {m}
    {
      assert x in r <==> x == r[0] || x in r[1..];
      if x in r[1..] {
        var j :| 0 <= j < |r[1..]| && r[1..][j] == x;
        assert r[j + 1] == x;
      }
    }
  }

  /** Appending the least remaining key keeps the list sorted and complete. */
  lemma AppendLeast(s: set<nat>, r: seq<nat>, rest: set<nat>, m: nat)
    requires rest <= s && m in rest && (forall x :: x in rest ==> m <= x)
    requires Listed(s, r, rest)
    ensures Listed(s, r + [m], rest - {m})
  {
    forall x
      ensures x in r + [m] <==> x in s - (rest - {m})
    {
    }
  }

  /** r lists what s has besides rest, in order, and everything in rest comes later. */
  ghost predicate Listed(s: set<nat>, r: seq<nat>, rest: set<nat>) {
    && |r| + |rest| == |s|
    && (forall x :: x in r <==> x in s - rest)
    && (forall i, j :: 0 <= i < j < |r| ==> r[i] < r[j])
    && (forall i, y :: 0 <= i < |r| && y in rest ==> r[i] < y)
  }

  method SortKeys(s: set<nat>) returns (r: seq<nat>)
    ensures r == Ascending(s)
  {
    r := [];
    var rest := s;
    while rest != {}
      invariant rest <= s && Listed(s, r, rest)
      decreases |rest|
    {
      assert Least(rest) in rest;
      var m :| m in rest && forall x :: x in rest ==> m <= x;
      AppendLeast(s, r, rest, m);
      r, rest := r + [m], rest - {m};
    }
    AscendingIsUnique(s, r);
  }
}

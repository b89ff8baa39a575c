/** The keys of a user's lockup positions in storage order: by pool, then by duration. */
module PositionKeys {
  import opened Basics
  import Ordered

  function Durations<V>(m: map<Key, V>, u: Addr, p: Pool): set<nat> {
    set k | k in m && k.pool == p && k.user == u :: k.duration
  }

  ghost function KeysIn<V>(m: map<Key, V>, u: Addr, p: Pool): seq<Key> {
    KeysFor(u, p, Ordered.Ascending(Durations(m, u, p)))
  }

  function KeysFor(u: Addr, p: Pool, durations: seq<nat>): seq<Key> {
    seq(|durations|, i requires 0 <= i < |durations| => Key(p, u, durations[i]))
  }

  ghost function UserKeys<V>(m: map<Key, V>, u: Addr): seq<Key> {
    KeysIn(m, u, ATOM) + KeysIn(m, u, USDC)
  }

  /** The listed keys are exactly the user's positions, and each is listed once. */
  lemma UserKeysComplete<V>(m: map<Key, V>, u: Addr)
    ensures forall k :: k in UserKeys(m, u) <==> k in m && k.user == u
    ensures forall i, j :: 0 <= i < j < |UserKeys(m, u)| ==> UserKeys(m, u)[i] != UserKeys(m, u)[j]
  {
    KeysInComplete(m, u, ATOM);
    KeysInComplete(m, u, USDC);
    forall k
      ensures k in UserKeys(m, u) <==> k in m && k.user == u
    {
      assert k in UserKeys(m, u) <==> k in KeysIn(m, u, ATOM) || k in KeysIn(m, u, USDC);
    }
  }

  lemma KeysInComplete<V>(m: map<Key, V>, u: Addr, p: Pool)
    ensures forall k :: k in KeysIn(m, u, p) <==> k in m && k.user == u && k.pool == p
    ensures forall i, j :: 0 <= i < j < |KeysIn(m, u, p)| ==> KeysIn(m, u, p)[i] != KeysIn(m, u, p)[j]
    ensures forall i :: 0 <= i < |KeysIn(m, u, p)| ==> KeysIn(m, u, p)[i].pool == p
  {
    var durations := Ordered.Ascending(Durations(m, u, p));
    Ordered.AscendingIsSorted(Durations(m, u, p));
    forall k
      ensures k in KeysIn(m, u, p) <==> k in m && k.user == u && k.pool == p
    {
      if k in m && k.user == u && k.pool == p {
        assert k.duration in Durations(m, u, p);
        assert k.duration in durations;
        var i :| 0 <= i < |durations| && durations[i] == k.duration;
        assert KeysIn(m, u, p)[i] == k;
      }
      if k in KeysIn(m, u, p) {
        var i :| 0 <= i < |KeysIn(m, u, p)| && KeysIn(m, u, p)[i] == k;
        assert durations[i] in durations;
        assert k.duration in Durations(m, u, p);
      }
    }
  }

  /** Collects the keys pool by pool, as the storage iterates over them. */
  method ListKeys<V>(m: map<Key, V>, u: Addr) returns (keys: seq<Key>)
    ensures keys == UserKeys(m, u)
  {
    keys := [];
    var pools := [ATOM, USDC];
    for i := 0 to |pools|
      invariant keys == if i == 0 then [] else if i == 1 then KeysIn(m, u, ATOM) else UserKeys(m, u)
    {
      var durations := Ordered.SortKeys(Durations(m, u, pools[i]));
      keys := keys + KeysFor(u, pools[i], durations);
    }
  }
}

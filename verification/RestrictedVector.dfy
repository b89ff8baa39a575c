/** The key-value vector in which the contracts keep one amount per reward token: entries are only added to or appended. */
module RestrictedVector {
  import opened Basics
  import opened FixedPoint

  type Vec<K> = seq<(K, nat)>

  /** The value of the first entry with this key. */
  function Load<K(==)>(v: Vec<K>, key: K): Option<nat> {
    if v == [] then None
    else if v[0].0 == key then Some(v[0].1)
    else Load(v[1..], key)
  }

  function Amount<K(==)>(v: Vec<K>, key: K): nat {
    match Load(v, key)
    case None => 0
    case Some(value) => value
  }

  /** Increases the first entry with this key, or appends one. */
  function Increase<K(==)>(v: Vec<K>, key: K, value: nat): Result<Vec<K>> {
    if v == [] then Ok([(key, value)])
    else if v[0].0 == key then
      var sum :- Checked(v[0].1 + value);
      Ok([(key, sum)] + v[1..])
    else
      var rest :- Increase(v[1..], key, value);
      Ok([v[0]] + rest)
  }

  /** Increase adds to the amount of its key and to no other. */
  lemma {:induction false} IncreaseAdds<K>(v: Vec<K>, key: K, value: nat, other: K)
    requires Increase(v, key, value).Ok?
    ensures Amount(Increase(v, key, value).value, other) == Amount(v, other) + if other == key then value else 0
    ensures Load(Increase(v, key, value).value, key).Some?
  {
    var r := Increase(v, key, value).value;
    if v == [] {
      assert r[1..] == [];
    } else if v[0].0 == key {
      assert r[0] == (key, v[0].1 + value);
      assert r[1..] == v[1..];
    } else {
      IncreaseAdds(v[1..], key, value, other);
      assert r[0] == v[0];
      assert r[1..] == Increase(v[1..], key, value).value;
    }
  }

  /** Where the increase happens: at the first entry with the key, or behind the last entry. */
  lemma {:induction false} IncreaseAt<K>(v: Vec<K>, key: K, value: nat, i: nat)
    requires i <= |v| && (forall j :: 0 <= j < i ==> v[j].0 != key) && (i < |v| ==> v[i].0 == key)
    ensures Increase(v, key, value) ==
            if i == |v| then Ok(v + [(key, value)])
            else if v[i].1 + value <= U128_MAX then Ok(v[i := (key, v[i].1 + value)])
            else Err(Overflow)
  {
    if v == [] {
      assert v + [(key, value)] == [(key, value)];
    } else if i == 0 {
      assert v[0 := (key, v[0].1 + value)] == [(key, v[0].1 + value)] + v[1..];
    } else {
      IncreaseAt(v[1..], key, value, i - 1);
      if i == |v| {
        assert [v[0]] + (v[1..] + [(key, value)]) == v + [(key, value)];
      } else {
        assert [v[0]] + v[1..][i - 1 := (key, v[i].1 + value)] == v[i := (key, v[i].1 + value)];
      }
    }
  }

  /** The update in place: finds the entry and replaces it, or pushes a new one. */
  method Update<K(==)>(v: Vec<K>, key: K, value: nat) returns (r: Result<Vec<K>>)
    ensures r == Increase(v, key, value)
  {
    var i := 0;
    while i < |v| && v[i].0 != key
      invariant 0 <= i <= |v|
      invariant forall j :: 0 <= j < i ==> v[j].0 != key
    {
      i := i + 1;
    }
    IncreaseAt(v, key, value, i);
    if i == |v| {
      r := Ok(v + [(key, value)]);
    } else if v[i].1 + value <= U128_MAX {
      r := Ok(v[i := (key, v[i].1 + value)]);
    } else {
      r := Err(Overflow);
    }
  }
}

/** A stored value that can be read as of an earlier block height. */
module Snapshots {
  import Ordered

  /** The current value, and for each height at which it was written the value before the first write. */
  datatype Snap<V> = Snap(current: V, log: map<nat, V>)

  function Write<V>(s: Snap<V>, height: nat, value: V): Snap<V> {
    Snap(value, if height in s.log then s.log else s.log[height := s.current])
  }

  function WrittenSince<V>(s: Snap<V>, height: nat): set<nat> {
    set h | h in s.log && h >= height
  }

  /** The value as it was when the block at this height began. */
  ghost function At<V>(s: Snap<V>, height: nat): V {
    if WrittenSince(s, height) == {} then s.current else s.log[Ordered.Least(WrittenSince(s, height))]
  }

  /** Nothing was written later than this height. */
  predicate WrittenUpTo<V>(s: Snap<V>, height: nat) {
    forall h :: h in s.log ==> h <= height
  }

  /** A write does not change what is read for its own height or an earlier one. */
  lemma WriteKeepsPast<V>(s: Snap<V>, height: nat, value: V, past: nat)
    requires WrittenUpTo(s, height) && past <= height
    ensures At(Write(s, height, value), past) == At(s, past)
    ensures WrittenUpTo(Write(s, height, value), height)
  {
    var s' := Write(s, height, value);
    var old', new' := WrittenSince(s, past), WrittenSince(s', past);
    assert height in new';
    if height in s.log {
      assert new' == old';
    } else {
      assert new' == old' + {height};
      var h := Ordered.Least(new');
      if old' != {} {
        var g := Ordered.Least(old');
        assert g in new' && h in new';
        assert g < height;
        assert h == g;
      }
    }
  }
}

/** The withdrawal rule that the auction and the lockdrop both apply after their deposit window. */
module Windows {
  import opened FixedPoint

  /** Share of a deposit that may be withdrawn at time now, as a decimal: all of it before depositEnd,
      half until the middle of the withdrawal window, then a share that falls linearly to zero. */
  function AllowedPercent(now: nat, depositEnd: nat, window: nat): nat {
    var second := depositEnd + window / 2;
    var final := depositEnd + window;
    if now < depositEnd then Ratio(100, 100)
    else if now <= second then Ratio(50, 100)
    else if now < final then Ratio(50 * (final - now), 100 * (final - second))
    else Ratio(0, 100)
  }

  function AllowedAmount(deposited: nat, now: nat, depositEnd: nat, window: nat): nat {
    MulFloor(AllowedPercent(now, depositEnd, window), deposited)
  }

  /** At any two times, the later one allows no larger share. */
  lemma PercentNeverRises(t: nat, u: nat, depositEnd: nat, window: nat)
    requires t <= u
    ensures AllowedPercent(u, depositEnd, window) <= AllowedPercent(t, depositEnd, window) <= ONE
  {
    var second := depositEnd + window / 2;
    var final := depositEnd + window;
    if second < t < final {
      AtMostHalf(final - t, final - second);
    }
    if second < u < final {
      AtMostHalf(final - u, final - second);
      if second < t {
        DivMono(50 * (final - u) * ONE, 50 * (final - t) * ONE, 100 * (final - second));
      }
    }
  }

  lemma AtMostHalf(left: nat, span: nat)
    requires 0 < span && left <= span
    ensures Ratio(50 * left, 100 * span) <= ONE / 2
  {
    DivIsLargest(50 * left * ONE, 100 * span, Ratio(50 * left, 100 * span));
    var q := Ratio(50 * left, 100 * span);
    if q > ONE / 2 {
      MulMono(100 * span, ONE / 2 + 1, q);
    }
  }

  /** Once the deposit window has closed, at least half of the deposit stays; after the whole window, all of it. */
  lemma KeepsHalf(deposited: nat, now: nat, depositEnd: nat, window: nat)
    requires depositEnd <= now
    ensures 2 * AllowedAmount(deposited, now, depositEnd, window) <= deposited
    ensures depositEnd + window <= now && (0 < window || depositEnd < now) ==> AllowedAmount(deposited, now, depositEnd, window) == 0
  {
    var p := AllowedPercent(now, depositEnd, window);
    PercentNeverRises(depositEnd, now, depositEnd, window);
    assert 2 * p <= ONE;
    MulMono(deposited, 2 * p, ONE);
    MulFloorBounds(p, deposited);
  }

  lemma AtMostAll(deposited: nat, now: nat, depositEnd: nat, window: nat)
    ensures AllowedAmount(deposited, now, depositEnd, window) <= deposited
  {
    var p := AllowedPercent(now, depositEnd, window);
    PercentNeverRises(now, now, depositEnd, window);
    MulMono(deposited, p, ONE);
    MulFloorBounds(p, deposited);
  }

  /** After the whole window nothing may be withdrawn, except at the very moment when a window of zero length closes. */
  lemma ClosedMeansNothing(now: nat, depositEnd: nat, window: nat)
    requires depositEnd + window <= now
    ensures AllowedPercent(now, depositEnd, window) == (if window == 0 && now == depositEnd then ONE / 2 else 0)
  {
    assert Ratio(50, 100) == ONE / 2;
  }

  lemma HalfOf(n: nat)
    ensures MulFloor(Ratio(50, 100), n) == n / 2 && MulFloor(Ratio(100, 100), n) == n
  {
    assert Ratio(50, 100) == ONE / 2 && Ratio(100, 100) == ONE;
    assert ONE / 2 * n == n / 2 * ONE + n % 2 * (ONE / 2);
    DivIsLargest(ONE / 2 * n, ONE, n / 2);
    DivIsLargest(ONE / 2 * n, ONE, n / 2 + 1);
  }

  /** What may be withdrawn at any time: everything before the deposit window closes, half until the middle of the withdrawal
      window, and then a part that falls in a straight line to nothing at the end. With left seconds of the span from the
      middle to the end, it is the part left / (2 * span), rounded down twice. */
  lemma AllowedByTime(deposited: nat, now: nat, depositEnd: nat, window: nat)
    ensures var w, middle, end := AllowedAmount(deposited, now, depositEnd, window), depositEnd + window / 2, depositEnd + window;
            && (now < depositEnd ==> w == deposited)
            && (depositEnd <= now <= middle ==> w == deposited / 2)
            && (middle < now <= end ==>
                  var left, span := end - now, end - middle;
                  && 2 * span * w <= deposited * left
                  && ONE * (deposited * left) < 2 * span * (ONE * (w + 1) + deposited))
            && (middle < now && end <= now ==> w == 0)
  {
    HalfOf(deposited);
    var middle, end := depositEnd + window / 2, depositEnd + window;
    if middle < now < end {
      FallingPart(deposited, end - now, end - middle);
    } else if middle < now {
      assert Ratio(0, 100) == 0;
    }
  }

  lemma FallingPart(deposited: nat, left: nat, span: nat)
    requires span > 0
    ensures var w := MulFloor(Ratio(50 * left, 100 * span), deposited);
            && 2 * span * w <= deposited * left
            && ONE * (deposited * left) < 2 * span * (ONE * (w + 1) + deposited)
  {
    var w := MulFloor(Ratio(50 * left, 100 * span), deposited);
    PartBounds(50 * left, 100 * span, deposited);
    assert deposited * (50 * left) == 50 * (deposited * left);
    assert 100 * span * w == 50 * (2 * span * w);
    assert 100 * span * (ONE * (w + 1) + deposited) == 50 * (2 * span * (ONE * (w + 1) + deposited));
  }
}

/** What a running peak and a running drawdown say about a series of equities. */
module Drawdowns {
  import opened Common
  import opened Policies

  /** The peak is the largest equity so far. */
  ghost predicate IsPeak(equities: seq<real>, peak: real) {
    && (forall i :: 0 <= i < |equities| ==> equities[i] <= peak)
    && exists i :: 0 <= i < |equities| && equities[i] == peak
  }

  /** The fall from an equity to a later one is at most the given share of it. */
  predicate FallsWithin(equity: real, later: real, share: real) {
    equity - later <= share * equity
  }

  /** No later equity lies below an earlier one by more than the drawdown, in units of the earlier one. */
  ghost predicate NoWorse(equities: seq<real>, drawdown: real) {
    forall i, j :: 0 <= i <= j < |equities| ==> FallsWithin(equities[i], equities[j], drawdown)
  }

  /** Some later equity lies below an earlier one by as much. */
  ghost predicate Reaches(equities: seq<real>, drawdown: real) {
    exists i, j :: 0 <= i <= j < |equities| && equities[i] - equities[j] == drawdown * equities[i]
  }

  ghost predicate IsDrawdown(equities: seq<real>, drawdown: real) {
    NoWorse(equities, drawdown) && Reaches(equities, drawdown)
  }

  /** A series that starts with a positive bankroll and never goes below zero. */
  ghost predicate Bankroll(equities: seq<real>) {
    equities != [] && 0.0 < equities[0] && forall i :: 0 <= i < |equities| ==> 0.0 <= equities[i]
  }

  lemma Starts(initial: real)
    requires 0.0 < initial
    ensures Bankroll([initial]) && IsPeak([initial], initial) && IsDrawdown([initial], 0.0)
  {
    var es := [initial];
    assert es[0] - es[0] == 0.0 * es[0];
    forall i, j | 0 <= i <= j < |es|
      ensures es[i] - es[j] <= 0.0 * es[i]
    {
    }
  }

  lemma PeakMore(es: seq<real>, peak: real, q: real)
    requires IsPeak(es, peak)
    ensures IsPeak(es + [q], Max(peak, q))
  {
    var i :| 0 <= i < |es| && es[i] == peak;
    assert (es + [q])[i] == peak && (es + [q])[|es|] == q;
  }

  /** An earlier equity up to the peak falls by no larger share than the peak does. */
  lemma ShareBelow(e: real, peak: real, q: real)
    requires 0.0 <= e <= peak && 0.0 <= q <= peak && 0.0 < peak
    ensures e - q <= ((peak - q) / peak) * e
  {
    var f := (peak - q) / peak;
    assert f * peak == peak - q;
    var kept := 1.0 - f;
    assert kept * peak == q by { assert (1.0 - f) * peak == peak - f * peak; }
    Grows(e, peak, kept, q);
    assert kept * e == e - f * e;
  }

  lemma Grows(e: real, peak: real, kept: real, q: real)
    requires e <= peak && kept * peak == q && 0.0 <= q && 0.0 < peak
    ensures kept * e <= q
  {
    assert 0.0 <= kept by {
      if kept < 0.0 {
        NegativeProduct(kept, peak);
        assert false;
      }
    }
    ProductNonNegative(kept, peak - e);
    assert kept * (peak - e) == kept * peak - kept * e;
  }

  lemma NegativeProduct(a: real, b: real)
    requires a < 0.0 < b
    ensures a * b < 0.0
  {
    ProductPositive(-a, b);
    assert (-a) * b == -(a * b);
  }

  lemma LargerShare(e: real, less: real, more: real)
    requires less <= more && 0.0 <= e
    ensures less * e <= more * e
  {
    ProductNonNegative(more - less, e);
    assert (more - less) * e == more * e - less * e;
  }

  lemma LaterPair(e: real, later: real, less: real, more: real)
    requires e - later <= less * e && less <= more && 0.0 <= e
    ensures e - later <= more * e
  {
    LargerShare(e, less, more);
  }

  lemma LastPair(e: real, top: real, q: real, more: real)
    requires 0.0 <= e <= top && 0.0 <= q <= top && 0.0 < top && (top - q) / top <= more
    ensures e - q <= more * e
  {
    ShareBelow(e, top, q);
    LargerShare(e, (top - q) / top, more);
  }

  lemma NoWorseMore(es: seq<real>, top: real, drawdown: real, worst: real, q: real)
    requires NoWorse(es, drawdown) && 0.0 <= q <= top && 0.0 < top && drawdown <= worst && (top - q) / top <= worst
    requires forall i :: 0 <= i < |es| ==> 0.0 <= es[i] <= top
    ensures NoWorse(es + [q], worst)
  {
    forall i, j | 0 <= i <= j < |es|
      ensures FallsWithin(es[i], es[j], worst)
    {
      LaterPair(es[i], es[j], drawdown, worst);
    }
    forall i | 0 <= i < |es|
      ensures FallsWithin(es[i], q, worst)
    {
      LastPair(es[i], top, q, worst);
    }
    LastPair(q, top, q, worst);
    NoWorseJoins(es, worst, q);
  }

  lemma NoWorseJoins(es: seq<real>, worst: real, q: real)
    requires NoWorse(es, worst) && FallsWithin(q, q, worst)
    requires forall i :: 0 <= i < |es| ==> FallsWithin(es[i], q, worst)
    ensures NoWorse(es + [q], worst)
  {
    hide FallsWithin;
    var more := es + [q];
    forall i, j | 0 <= i <= j < |more|
      ensures FallsWithin(more[i], more[j], worst)
    {
      if j < |es| {
        assert more[i] == es[i] && more[j] == es[j];
      } else if i < |es| {
        assert more[i] == es[i] && more[j] == q;
      } else {
        assert more[i] == q && more[j] == q;
      }
    }
  }

  lemma ReachesMore(es: seq<real>, drawdown: real, q: real)
    requires Reaches(es, drawdown)
    ensures Reaches(es + [q], drawdown)
  {
    var i, j :| 0 <= i <= j < |es| && es[i] - es[j] == drawdown * es[i];
    var more := es + [q];
    assert more[i] == es[i] && more[j] == es[j];
  }

  lemma ReachesNow(es: seq<real>, top: real, q: real)
    requires IsPeak(es + [q], top) && 0.0 < top
    ensures Reaches(es + [q], (top - q) / top)
  {
    var more := es + [q];
    var i :| 0 <= i < |more| && more[i] == top;
    var fall := (top - q) / top;
    assert fall * top == top - q;
    assert more[|es|] == q;
    assert more[i] - more[|es|] == fall * more[i];
  }

  /** One more equity moves the peak and the drawdown as a running maximum moves them. */
  lemma DrawdownMore(es: seq<real>, peak: real, drawdown: real, q: real)
    requires Bankroll(es) && 0.0 <= q && IsPeak(es, peak) && IsDrawdown(es, drawdown)
    ensures 0.0 < Max(peak, q)
    ensures var top := Max(peak, q);
            && Bankroll(es + [q]) && IsPeak(es + [q], top)
            && IsDrawdown(es + [q], Max(drawdown, (top - q) / top))
  {
    hide NoWorse;
    hide Reaches;
    var top := Max(peak, q);
    assert es[0] <= peak;
    PeakMore(es, peak, q);
    NoWorseMore(es, top, drawdown, Max(drawdown, (top - q) / top), q);
    ReachesMore(es, drawdown, q);
    ReachesNow(es, top, q);
  }

  /** The same equity once more changes neither. */
  lemma Repeats(es: seq<real>, peak: real, drawdown: real, q: real)
    requires IsPeak(es, peak) && IsDrawdown(es, drawdown) && es[|es| - 1] == q
    ensures IsPeak(es + [q], peak) && IsDrawdown(es + [q], drawdown)
  {
    hide FallsWithin;
    PeakMore(es, peak, q);
    assert NoWorse(es, drawdown) && Reaches(es, drawdown);
    ReachesMore(es, drawdown, q);
    hide Reaches;
    var more, last := es + [q], |es| - 1;
    forall i, j | 0 <= i <= j < |more|
      ensures FallsWithin(more[i], more[j], drawdown)
    {
      var k, l := if i < |es| then i else last, if j < |es| then j else last;
      assert more[i] == es[k] && more[j] == es[l];
      assert FallsWithin(es[k], es[l], drawdown);
    }
  }
}

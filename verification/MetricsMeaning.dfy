/** What the observed figures of an event ledger measure. */
module MetricsMeaning {
  import opened Common
  import opened ObservedMetrics
  import opened Drawdowns

  // ---- closes ----------------------------------------------------------------------------

  /** The k-th close is the equity at the end of the k-th whole day, before what happens at that instant. */
  lemma CloseIsDaily(es: seq<Event>, start: int, n: nat, k: nat)
    requires k < n
    ensures Closes(es, start, n)[k] == EquityBefore(es, start + (k + 1) * (24 * 60 * 60 * 1_000_000))
  {
    hide EquityBefore;
  }

  lemma {:induction false} PeakOfCloses(closes: seq<real>)
    ensures IsPeak([INITIAL] + closes, PeakOf(closes)) && 0.0 < PeakOf(closes)
  {
    if closes == [] {
      assert ([INITIAL] + closes)[0] == INITIAL;
    } else {
      var front := closes[..|closes| - 1];
      PeakOfCloses(front);
      PeakMore([INITIAL] + front, PeakOf(front), closes[|closes| - 1]);
      assert [INITIAL] + closes == ([INITIAL] + front) + [closes[|closes| - 1]];
      hide IsPeak;
    }
  }

  /** Each fall is the share of the highest close so far, or of the initial equity, by which the close lies below it. */
  lemma {:induction false} FallsMean(closes: seq<real>, k: nat) returns (peak: real)
    requires k < |closes|
    ensures IsPeak([INITIAL] + closes[..k + 1], peak) && 0.0 < peak
    ensures Falls(closes)[k] * peak == peak - closes[k]
  {
    var last := |closes| - 1;
    if k < last {
      peak := FallsMean(closes[..last], k);
      assert closes[..last][..k + 1] == closes[..k + 1];
    } else {
      peak := PeakOf(closes);
      PeakOfCloses(closes);
      assert closes[..k + 1] == closes;
      QuotientTimes(peak - closes[k], peak);
    }
    hide IsPeak;
  }

  lemma QuotientTimes(n: real, d: real)
    requires 0.0 < d
    ensures n / d * d == n
  {
  }

  // ---- the reserve over time -------------------------------------------------------------

  /** The area of a reserve that does not change is reserve times time, so its mean over whole days is the reserve itself. */
  lemma {:induction false} ConstantArea(es: seq<Event>, a: int, b: int, reserve: real)
    requires a <= b && forall t :: a <= t < b ==> ReserveAt(es, t) == reserve
    ensures Integral(es, a, b) == reserve * (b - a) as real
    decreases b - a
  {
    if a < b {
      ConstantArea(es, a, b - 1, reserve);
      assert ReserveAt(es, b - 1) == reserve;
      assert reserve * (b - a) as real == reserve * (b - 1 - a) as real + reserve;
    }
  }

  lemma {:induction false} AreasAdd(es: seq<Event>, a: int, b: int, c: int)
    requires a <= b <= c
    ensures Integral(es, a, c) == Integral(es, a, b) + Integral(es, b, c)
    decreases c - b
  {
    if b < c { AreasAdd(es, a, b, c - 1); }
  }

  lemma MeanOfConstant(es: seq<Event>, start: int, days: int, reserve: real)
    requires 0 < days && forall t :: start <= t < EndOf(start, days) ==> ReserveAt(es, t) == reserve
    ensures MeanOver(Integral(es, start, EndOf(start, days)) / 1_000_000.0, days) == reserve
  {
    ConstantArea(es, start, EndOf(start, days), reserve);
    hide Integral;
    var seconds := (days * 86_400) as real;
    assert (EndOf(start, days) - start) as real == seconds * 1_000_000.0;
    Cancels(reserve, seconds);
  }

  lemma Cancels(reserve: real, seconds: real)
    requires 0.0 < seconds
    ensures reserve * (seconds * 1_000_000.0) / 1_000_000.0 / seconds == reserve
  {
    assert reserve * (seconds * 1_000_000.0) == reserve * seconds * 1_000_000.0;
    Quotient(reserve * seconds, reserve, seconds);
  }

  lemma Quotient(n: real, q: real, d: real)
    requires 0.0 < d && n == q * d
    ensures n / d == q
  {
    var x := n / d;
    assert x * d == n;
    if x != q {
      assert (x - q) * d == 0.0;
      NoZeroProduct(x - q, d);
    }
  }

  lemma NoZeroProduct(x: real, d: real)
    requires 0.0 < d && x * d == 0.0
    ensures x == 0.0
  {
  }

  /** The return is the gain in units of the initial equity. */
  lemma ReturnMeans(equity: real)
    ensures INITIAL + INITIAL * ReturnOf(equity) == equity
  {
  }

  // ---- extremes --------------------------------------------------------------------------

  /** The settled rows of a ledger. */
  function Settled(es: seq<Event>): seq<Event> {
    if es == [] then []
    else Settled(es[..|es| - 1]) + if es[|es| - 1].gain.Some? then [es[|es| - 1]] else []
  }

  /** The equities that the settled rows show, after the initial one. */
  function Course(ts: seq<Event>): seq<real> {
    if ts == [] then [INITIAL] else Course(ts[..|ts| - 1]) + [ts[|ts| - 1].equity]
  }

  ghost predicate IsLeast(xs: seq<real>, x: real) {
    (forall i :: 0 <= i < |xs| ==> x <= xs[i]) && exists i :: 0 <= i < |xs| && xs[i] == x
  }

  lemma LeastMore(xs: seq<real>, x: real, y: real)
    requires IsLeast(xs, x)
    ensures IsLeast(xs + [y], Min(x, y))
  {
    var i :| 0 <= i < |xs| && xs[i] == x;
    assert (xs + [y])[i] == x && (xs + [y])[|xs|] == y;
  }

  function Equities(es: seq<Event>): seq<real> {
    if es == [] then [INITIAL] else Equities(es[..|es| - 1]) + [es[|es| - 1].equity]
  }

  function Cashes(es: seq<Event>): seq<real> {
    if es == [] then [INITIAL] else Cashes(es[..|es| - 1]) + [es[|es| - 1].cash]
  }

  function Reserves(es: seq<Event>): seq<real> {
    if es == [] then [0.0] else Reserves(es[..|es| - 1]) + [es[|es| - 1].reserved]
  }

  /** The least equity and cash and the largest reserve of a ledger are those of its rows and of the start. */
  lemma {:induction false} BoundsMean(es: seq<Event>)
    ensures var x := RiskOf(es);
            IsLeast(Equities(es), x.minEquity) && IsLeast(Cashes(es), x.minCash) && IsPeak(Reserves(es), x.peakReserved)
  {
    OneIsLeast();
    hide IsLeast;
    hide IsPeak;
    if es != [] {
      var front, e := es[..|es| - 1], es[|es| - 1];
      BoundsMean(front);
      LeastMore(Equities(front), RiskOf(front).minEquity, e.equity);
      LeastMore(Cashes(front), RiskOf(front).minCash, e.cash);
      PeakMore(Reserves(front), RiskOf(front).peakReserved, e.reserved);
      hide Min;
      hide Max;
    }
  }

  lemma OneIsLeast()
    ensures IsLeast([INITIAL], INITIAL) && IsPeak([0.0], 0.0)
  {
    assert [INITIAL][0] == INITIAL && [0.0][0] == 0.0;
  }

  lemma SeenExtremes(x: Risk, e: Event)
    ensures var y := Seen(x, e);
            if e.gain.None? then y.peak == x.peak && y.drawdown == x.drawdown
            else y.peak == Max(x.peak, e.equity) && y.drawdown == Max(x.drawdown, (y.peak - e.equity) / y.peak)
  {
  }

  lemma SettledNext(es: seq<Event>, e: Event)
    ensures Settled(es + [e]) == Settled(es) + if e.gain.Some? then [e] else []
    ensures RiskOf(es + [e]) == Seen(RiskOf(es), e)
    ensures Course(es + [e]) == Course(es) + [e.equity]
  {
    assert (es + [e])[..|es|] == es;
    hide Seen;
  }

  /** The peak and the drawdown of a ledger are those of its settled equities. */
  lemma {:induction false} DrawdownMeans(es: seq<Event>)
    requires forall i :: 0 <= i < |es| ==> 0.0 <= es[i].equity
    ensures var x, course := RiskOf(es), Course(Settled(es));
            Bankroll(course) && IsPeak(course, x.peak) && IsDrawdown(course, x.drawdown)
  {
    hide IsPeak;
    hide IsDrawdown;
    hide Bankroll;
    if es == [] {
      Starts(INITIAL);
    } else {
      var front, e := es[..|es| - 1], es[|es| - 1];
      assert es == front + [e];
      DrawdownMeans(front);
      DrawdownStep(front, e);
    }
  }

  lemma DrawdownStep(front: seq<Event>, e: Event)
    requires 0.0 <= e.equity
    requires var x, course := RiskOf(front), Course(Settled(front));
             Bankroll(course) && IsPeak(course, x.peak) && IsDrawdown(course, x.drawdown)
    ensures var x, course := RiskOf(front + [e]), Course(Settled(front + [e]));
            Bankroll(course) && IsPeak(course, x.peak) && IsDrawdown(course, x.drawdown)
  {
    hide IsPeak;
    hide IsDrawdown;
    hide Bankroll;
    hide Settled;
    hide Course;
    hide RiskOf;
    hide Seen;
    hide Max;
    var ts, x := Settled(front), RiskOf(front);
    SettledNext(front, e);
    SeenExtremes(x, e);
    if e.gain.Some? {
      SettledNext(ts, e);
      DrawdownMore(Course(ts), x.peak, x.drawdown, e.equity);
    } else {
      assert ts + [] == ts;
    }
  }

  // ---- spells below the peak -------------------------------------------------------------

  /** A settled row that lies below an earlier settled equity, or below the initial one. */
  ghost predicate Down(ts: seq<Event>, k: int) {
    && 0 <= k < |ts|
    && (ts[k].equity < INITIAL || exists m :: 0 <= m < k && ts[k].equity < ts[m].equity)
  }

  /** From row `i` on, every settled row before row `j` is below the peak. */
  ghost predicate Under(ts: seq<Event>, i: int, j: int) {
    0 <= i <= j < |ts| && Down(ts, i) && forall k :: i <= k < j ==> Down(ts, k)
  }

  /** The last spell begins at row `i` and has not ended. */
  ghost predicate Trailing(ts: seq<Event>, i: int) {
    && 0 <= i < |ts| && (forall k :: i <= k < |ts| ==> Down(ts, k)) && (i == 0 || !Down(ts, i - 1))
  }

  ghost predicate OpenSpell(ts: seq<Event>, since: Option<int>) {
    if since.Some? then exists i :: Trailing(ts, i) && ts[i].at == since.value
    else ts == [] || !Down(ts, |ts| - 1)
  }

  /** The longest time between a row and a later one of the same spell, or one that ends it. */
  ghost predicate LongestSpell(ts: seq<Event>, duration: int) {
    && 0 <= duration && (forall i, j :: Under(ts, i, j) ==> ts[j].at - ts[i].at <= duration)
    && (duration == 0 || exists i, j :: Under(ts, i, j) && ts[j].at - ts[i].at == duration)
  }

  /** The longest spell that came back to the peak. */
  ghost predicate LongestRecovery(ts: seq<Event>, recovery: int) {
    && 0 <= recovery && (forall i, j :: Under(ts, i, j) && !Down(ts, j) ==> ts[j].at - ts[i].at <= recovery)
    && (recovery == 0 || exists i, j :: Under(ts, i, j) && !Down(ts, j) && ts[j].at - ts[i].at == recovery)
  }

  lemma DownMore(ts: seq<Event>, e: Event)
    ensures forall k :: 0 <= k < |ts| ==> (Down(ts + [e], k) <==> Down(ts, k))
    ensures forall i, j :: 0 <= i && j < |ts| ==> (Under(ts + [e], i, j) <==> Under(ts, i, j))
  {
    var more := ts + [e];
    forall k | 0 <= k < |ts|
      ensures Down(more, k) <==> Down(ts, k)
    {
      if Down(ts, k) && !(ts[k].equity < INITIAL) {
        var m :| 0 <= m < k && ts[k].equity < ts[m].equity;
        assert more[m] == ts[m];
      }
      if Down(more, k) && !(more[k].equity < INITIAL) {
        var m :| 0 <= m < k && more[k].equity < more[m].equity;
        assert ts[m] == more[m];
      }
    }
    hide Down;
  }

  lemma BelowDown(ts: seq<Event>, e: Event, peak: real)
    requires IsPeak(Course(ts), peak) && e.equity < peak
    ensures Down(ts + [e], |ts|)
  {
    CourseIs(ts);
    var course, more := Course(ts), ts + [e];
    hide Course;
    var i :| 0 <= i < |course| && course[i] == peak;
    assert more[|ts|] == e;
    if i > 0 { assert more[i - 1] == ts[i - 1]; }
  }

  lemma DownBelow(ts: seq<Event>, e: Event, peak: real)
    requires IsPeak(Course(ts), peak) && Down(ts + [e], |ts|)
    ensures e.equity < peak
  {
    CourseIs(ts);
    var course, more := Course(ts), ts + [e];
    hide Course;
    assert more[|ts|] == e && course[0] <= peak;
    if !(e.equity < INITIAL) {
      var m :| 0 <= m < |ts| && more[|ts|].equity < more[m].equity;
      assert more[m] == ts[m] && course[m + 1] <= peak;
    }
  }

  /** The new row is below the peak exactly when the running peak says so. */
  lemma DownNow(ts: seq<Event>, e: Event, peak: real)
    requires IsPeak(Course(ts), peak)
    ensures Down(ts + [e], |ts|) <==> e.equity < peak
  {
    if e.equity < peak { BelowDown(ts, e, peak); }
    if Down(ts + [e], |ts|) { DownBelow(ts, e, peak); }
  }

  lemma {:induction false} CourseIs(ts: seq<Event>)
    ensures |Course(ts)| == |ts| + 1 && Course(ts)[0] == INITIAL
    ensures forall i :: 0 <= i < |ts| ==> Course(ts)[i + 1] == ts[i].equity
  {
    if ts != [] { CourseIs(ts[..|ts| - 1]); }
  }

  ghost predicate Ordered(ts: seq<Event>) {
    forall i, j :: 0 <= i <= j < |ts| ==> ts[i].at <= ts[j].at
  }

  lemma SpellOpens(ts: seq<Event>, e: Event, since: Option<int>)
    requires OpenSpell(ts, since) && Down(ts + [e], |ts|)
    ensures OpenSpell(ts + [e], if since.None? then Some(e.at) else since)
  {
    var more := ts + [e];
    DownMore(ts, e);
    hide Down;
    if since.None? {
      assert Trailing(more, |ts|) && more[|ts|].at == e.at;
    } else {
      var i :| Trailing(ts, i) && ts[i].at == since.value;
      assert more[i] == ts[i];
      assert Trailing(more, i);
    }
  }

  /** Any stretch that reaches the new row began no earlier than the open spell. */
  lemma StretchBound(ts: seq<Event>, e: Event, since: Option<int>, i: int)
    requires OpenSpell(ts, since) && Under(ts + [e], i, |ts|) && Ordered(ts + [e])
    ensures e.at - (ts + [e])[i].at <= if since.Some? then e.at - since.value else 0
  {
    var more := ts + [e];
    DownMore(ts, e);
    hide Down;
    if since.Some? {
      var s :| Trailing(ts, s) && ts[s].at == since.value;
      assert more[s] == ts[s];
      assert i < s ==> Down(more, s - 1);
      assert more[s].at <= more[i].at;
    } else {
      assert i < |ts| ==> Down(more, |ts| - 1);
    }
  }

  lemma SpellReaches(ts: seq<Event>, e: Event, since: int) returns (i: int)
    requires OpenSpell(ts, Some(since))
    ensures Under(ts + [e], i, |ts|) && (ts + [e])[i].at == since
  {
    DownMore(ts, e);
    hide Down;
    i :| Trailing(ts, i) && ts[i].at == since;
    assert (ts + [e])[i] == ts[i];
  }

  lemma DurationMore(ts: seq<Event>, e: Event, since: Option<int>, duration: int)
    requires OpenSpell(ts, since) && LongestSpell(ts, duration) && Ordered(ts + [e])
    ensures LongestSpell(ts + [e], if since.Some? then Longer(duration, e.at - since.value) else duration)
  {
    hide Down;
    hide OpenSpell;
    var more := ts + [e];
    var longest := if since.Some? then Longer(duration, e.at - since.value) else duration;
    forall i, j | Under(more, i, j)
      ensures more[j].at - more[i].at <= longest
    {
      DownMore(ts, e);
      if j < |ts| {
        assert Under(ts, i, j) && more[i] == ts[i] && more[j] == ts[j];
      } else {
        StretchBound(ts, e, since, i);
      }
    }
    hide Ordered;
    DownMore(ts, e);
    if longest == duration {
      if duration != 0 {
        var i, j :| Under(ts, i, j) && ts[j].at - ts[i].at == duration;
        assert Under(more, i, j) && more[i] == ts[i] && more[j] == ts[j];
      }
    } else {
      var i := SpellReaches(ts, e, since.value);
      assert more[|ts|].at - more[i].at == longest;
    }
  }

  lemma RecoveryMore(ts: seq<Event>, e: Event, since: Option<int>, recovery: int)
    requires OpenSpell(ts, since) && LongestRecovery(ts, recovery) && Ordered(ts + [e])
    ensures LongestRecovery(ts + [e], if since.Some? && !Down(ts + [e], |ts|) then Longer(recovery, e.at - since.value) else recovery)
  {
    hide Down;
    hide OpenSpell;
    var more := ts + [e];
    var longest := if since.Some? && !Down(more, |ts|) then Longer(recovery, e.at - since.value) else recovery;
    forall i, j | Under(more, i, j) && !Down(more, j)
      ensures more[j].at - more[i].at <= longest
    {
      DownMore(ts, e);
      if j < |ts| {
        assert Under(ts, i, j) && more[i] == ts[i] && more[j] == ts[j];
      } else {
        StretchBound(ts, e, since, i);
      }
    }
    hide Ordered;
    DownMore(ts, e);
    if longest == recovery {
      if recovery != 0 {
        var i, j :| Under(ts, i, j) && !Down(ts, j) && ts[j].at - ts[i].at == recovery;
        assert Under(more, i, j) && more[i] == ts[i] && more[j] == ts[j] && !Down(more, j);
      }
    } else {
      var i := SpellReaches(ts, e, since.value);
      assert more[|ts|].at - more[i].at == longest;
    }
  }

  lemma SeenSpell(x: Risk, e: Event)
    ensures var y := Seen(x, e);
            if e.gain.None? then y.since == x.since && y.duration == x.duration && y.recovery == x.recovery
            else
              var down := e.equity < x.peak;
              var since := if down && x.since.None? then Some(e.at) else x.since;
              && y.since == (if down then since else None)
              && y.duration == (if since.Some? then Longer(x.duration, e.at - since.value) else x.duration)
              && y.recovery == (if since.Some? && !down then Longer(x.recovery, e.at - since.value) else x.recovery)
  {
  }

  lemma SpellStep(ts: seq<Event>, x: Risk, e: Event)
    requires e.gain.Some? && Ordered(ts + [e]) && IsPeak(Course(ts), x.peak)
    requires OpenSpell(ts, x.since) && LongestSpell(ts, x.duration) && LongestRecovery(ts, x.recovery)
    ensures var y := Seen(x, e);
            OpenSpell(ts + [e], y.since) && LongestSpell(ts + [e], y.duration) && LongestRecovery(ts + [e], y.recovery)
  {
    DownNow(ts, e, x.peak);
    SeenSpell(x, e);
    DurationMore(ts, e, x.since, x.duration);
    RecoveryMore(ts, e, x.since, x.recovery);
    if Down(ts + [e], |ts|) {
      SpellOpens(ts, e, x.since);
    } else {
      SpellEnds(ts, e);
    }
    NonNegativeSpell(ts, x.duration);
    hide Seen;
    hide Down;
    hide OpenSpell;
    hide LongestSpell;
    hide LongestRecovery;
    hide Ordered;
    hide IsPeak;
  }

  lemma NonNegativeSpell(ts: seq<Event>, duration: int)
    requires LongestSpell(ts, duration)
    ensures Longer(duration, 0) == duration
  {
    hide Under;
  }

  lemma SpellEnds(ts: seq<Event>, e: Event)
    requires !Down(ts + [e], |ts|)
    ensures OpenSpell(ts + [e], None)
  {
    hide Down;
  }

  /**
    The underwater time of a ledger is the longest time from a settled row below the peak to a later row with nothing at the
    peak in between; the recovery time is the longest of these that ends at the peak; an open spell is the trailing one.
   */
  lemma {:induction false} SpellsMean(es: seq<Event>)
    requires InOrder(es) && forall i :: 0 <= i < |es| ==> 0.0 <= es[i].equity
    ensures var x, ts := RiskOf(es), Settled(es);
            OpenSpell(ts, x.since) && LongestSpell(ts, x.duration) && LongestRecovery(ts, x.recovery)
  {
    if es == [] {
      NoSpells();
    } else {
      var front, e := es[..|es| - 1], es[|es| - 1];
      assert es == front + [e];
      SpellsMean(front);
      DrawdownMeans(front);
      SettledNext(front, e);
      SettledOrdered(es);
      SeenSpell(RiskOf(front), e);
      hide Seen;
      hide RiskOf;
      hide OpenSpell;
      hide LongestSpell;
      hide LongestRecovery;
      hide IsPeak;
      hide IsDrawdown;
      hide Bankroll;
      hide Course;
      hide Ordered;
      if e.gain.Some? {
        SpellStep(Settled(front), RiskOf(front), e);
      } else {
        assert Settled(front) + [] == Settled(front);
      }
      hide Settled;
    }
  }

  lemma NoSpells()
    ensures OpenSpell([], None) && LongestSpell([], 0) && LongestRecovery([], 0)
  {
  }

  lemma {:induction false} SettledOrdered(es: seq<Event>)
    requires InOrder(es)
    ensures Ordered(Settled(es)) && (Settled(es) != [] ==> es != [] && Settled(es)[|Settled(es)| - 1].at <= es[|es| - 1].at)
  {
    if es != [] { SettledOrdered(es[..|es| - 1]); }
  }
}

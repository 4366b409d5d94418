/**
  Daily closes, reserve-time area and risk of an event ledger
  (football/experiments/economic_metrics.py). The ledger is a step function of
  time; the code walks it once, and the walk is proved against the function.
  What the walk finds must then reconcile with what the path reported.
 */
module ObservedMetrics {
  import opened Common
  import opened Ordering

  const INITIAL: real := 100.0
  const DAY: int := 86_400_000_000

  /** One ledger row; `gain` is the profit or loss of a settlement. Instants are microseconds. */
  datatype Event = Event(at: int, equity: real, reserved: real, cash: real, gain: Option<real>)

  datatype Problem =
    | EconomicHorizon
    | EventOutsideHorizon
    | LedgerCashInvariant
    | SettlementReconciliation
    | PnlReconciliation
    | ReturnReconciliation
    | DrawdownReconciliation
    | DurationReconciliation
    | PeakReserveReconciliation
    | MinCashReconciliation

  // ---- the ledger as a function of time ------------------------------------------------

  predicate InOrder(es: seq<Event>) {
    forall i, j :: 0 <= i < j < |es| ==> es[i].at <= es[j].at
  }

  /** The equity after the last event strictly before t. */
  function EquityBefore(es: seq<Event>, t: int): real {
    if es == [] then INITIAL
    else if es[|es| - 1].at < t then es[|es| - 1].equity
    else EquityBefore(es[..|es| - 1], t)
  }

  /** The reserve in force at t. */
  function ReserveAt(es: seq<Event>, t: int): real {
    if es == [] then 0.0
    else if es[|es| - 1].at <= t then es[|es| - 1].reserved
    else ReserveAt(es[..|es| - 1], t)
  }

  /** The reserve summed over every microsecond of [a, b). */
  function Integral(es: seq<Event>, a: int, b: int): real
    decreases b - a
  {
    if b <= a then 0.0 else Integral(es, a, b - 1) + ReserveAt(es, b - 1)
  }

  function Seconds(microseconds: int): real {
    microseconds as real / 1_000_000.0
  }

  function EndOf(start: int, days: int): int {
    start + days * DAY
  }

  /** The mean over a whole number of days. */
  function MeanOver(area: real, days: int): real
    requires 0 < days
  {
    area / (days * 86_400) as real
  }

  function CloseAt(start: int, k: int): int {
    start + (k + 1) * DAY
  }

  /** The first n closes. */
  function Closes(es: seq<Event>, start: int, n: nat): (r: seq<real>)
    ensures |r| == n
  {
    seq(n, k requires 0 <= k < n => EquityBefore(es, CloseAt(start, k)))
  }

  function PeakOf(closes: seq<real>): real {
    if closes == [] then INITIAL else Max(PeakOf(closes[..|closes| - 1]), closes[|closes| - 1])
  }

  lemma {:induction false} PeakPositive(closes: seq<real>)
    ensures INITIAL <= PeakOf(closes) && forall k :: 0 <= k < |closes| ==> closes[k] <= PeakOf(closes)
  {
    if closes != [] { PeakPositive(closes[..|closes| - 1]); }
  }

  /** How far each close lies below the highest close so far. */
  function Falls(closes: seq<real>): (r: seq<real>)
    ensures |r| == |closes|
  {
    if closes == [] then []
    else
      var peak := PeakOf(closes);
      PeakPositive(closes);
      Falls(closes[..|closes| - 1]) + [(peak - closes[|closes| - 1]) / peak]
  }

  // ---- how the step function grows -----------------------------------------------------

  lemma {:induction false} EarlierUnchanged(es: seq<Event>, e: Event, t: int)
    ensures t <= e.at ==> EquityBefore(es + [e], t) == EquityBefore(es, t)
    ensures t < e.at ==> ReserveAt(es + [e], t) == ReserveAt(es, t)
  {
    assert (es + [e])[..|es|] == es;
  }

  lemma {:induction false} IntegralUnchanged(es: seq<Event>, e: Event, a: int, b: int)
    requires b <= e.at
    ensures Integral(es + [e], a, b) == Integral(es, a, b)
    decreases b - a
  {
    if a < b {
      IntegralUnchanged(es, e, a, b - 1);
      EarlierUnchanged(es, e, b - 1);
    }
  }

  lemma ClosesUnchanged(es: seq<Event>, e: Event, start: int, n: nat)
    requires forall k :: 0 <= k < n ==> CloseAt(start, k) <= e.at
    ensures Closes(es + [e], start, n) == Closes(es, start, n)
  {
    forall k | 0 <= k < n
      ensures EquityBefore(es + [e], CloseAt(start, k)) == EquityBefore(es, CloseAt(start, k))
    {
      EarlierUnchanged(es, e, CloseAt(start, k));
    }
  }

  /** The equity and reserve that the last event left. */
  function LastEquity(es: seq<Event>): real {
    if es == [] then INITIAL else es[|es| - 1].equity
  }

  function LastReserve(es: seq<Event>): real {
    if es == [] then 0.0 else es[|es| - 1].reserved
  }

  predicate Past(es: seq<Event>, cursor: int) {
    InOrder(es) && (es != [] ==> es[|es| - 1].at <= cursor)
  }

  /** After its last event the reserve stays, so its integral grows linearly. */
  lemma {:induction false} IntegralTail(es: seq<Event>, a: int, b: int, c: int)
    requires Past(es, b) && a <= b <= c
    ensures Integral(es, a, c) == Integral(es, a, b) + LastReserve(es) * (c - b) as real
    decreases c - b
  {
    if b < c {
      IntegralTail(es, a, b, c - 1);
      var r := LastReserve(es);
      assert ReserveAt(es, c - 1) == r;
      assert r * (c - b) as real == r * (c - 1 - b) as real + r;
    }
  }

  predicate StrictlyPast(es: seq<Event>, t: int) {
    es != [] ==> es[|es| - 1].at < t
  }

  lemma CloseValue(es: seq<Event>, t: int)
    requires StrictlyPast(es, t)
    ensures EquityBefore(es, t) == LastEquity(es)
  {
  }

  /** Reserve-microseconds become reserve-seconds. */
  lemma AreaGrows(before: real, reserve: real, elapsed: int)
    ensures before / 1_000_000.0 + reserve * Seconds(elapsed) == (before + reserve * elapsed as real) / 1_000_000.0
  {
    assert reserve * (elapsed as real / 1_000_000.0) == (reserve * elapsed as real) / 1_000_000.0;
  }

  function Gains(es: seq<Event>): real {
    if es == [] then INITIAL else Gains(es[..|es| - 1]) + es[|es| - 1].gain.GetOr(0.0)
  }

  /** The first thing wrong with a row, given the rows before it. */
  function Flaw(before: seq<Event>, e: Event, start: int, end: int): Option<Problem> {
    if e.at < start || e.at > end then Some(EventOutsideHorizon)
    else if e.equity - e.reserved != e.cash then Some(LedgerCashInvariant)
    else if e.gain.Some? && Gains(before + [e]) != e.equity then Some(SettlementReconciliation)
    else None
  }

  // ---- risk ----------------------------------------------------------------------------

  type Peak = x: real | 0.0 < x witness 1.0

  /** The extremes of a ledger; `since` opens an underwater spell, durations are microseconds. */
  datatype Risk = Risk(
    peak: Peak, drawdown: real, minEquity: real, minCash: real, peakReserved: real,
    since: Option<int>, duration: int, recovery: int)

  const NoRisk := Risk(INITIAL, 0.0, INITIAL, INITIAL, 0.0, None, 0, 0)

  function Longer(x: int, y: int): int {
    if x < y then y else x
  }

  function Spell(x: Risk, e: Event, peak: Peak): Option<int> {
    if e.equity < peak && x.since.None? then Some(e.at) else x.since
  }

  /** Every row bounds cash, equity and reserve; a settlement moves the peak and the underwater spell. */
  function Seen(x: Risk, e: Event): Risk {
    var y := x.(minEquity := Min(x.minEquity, e.equity), minCash := Min(x.minCash, e.cash),
                peakReserved := Max(x.peakReserved, e.reserved));
    if e.gain.None? then y
    else
      var peak: Peak := if x.peak < e.equity then e.equity else x.peak;
      var since := Spell(x, e, peak);
      y.(peak := peak,
         drawdown := Max(x.drawdown, (peak - e.equity) / peak),
         duration := if since.Some? then Longer(x.duration, e.at - since.value) else x.duration,
         recovery := if since.Some? && peak <= e.equity then Longer(x.recovery, e.at - since.value) else x.recovery,
         since := if since.Some? && peak <= e.equity then None else since)
  }

  function RiskOf(es: seq<Event>): Risk {
    if es == [] then NoRisk else Seen(RiskOf(es[..|es| - 1]), es[|es| - 1])
  }

  /** A spell that is still open lasts until `terminal`. */
  function FinalDuration(x: Risk, terminal: int): int {
    if x.since.Some? then Longer(x.duration, terminal - x.since.value) else x.duration
  }

  /** What the path itself reported. */
  datatype Reported = Reported(
    equity: real, totalReturn: real, drawdown: real, duration: int, peakReserved: real, minCash: real)

  function ReturnOf(equity: real): real {
    (equity - INITIAL) / INITIAL
  }

  /** The first figure of the report that the ledger does not bear out. */
  function Mismatch(es: seq<Event>, terminal: int, original: Reported): Option<Problem> {
    var x := RiskOf(es);
    if Gains(es) != original.equity then Some(PnlReconciliation)
    else if ReturnOf(LastEquity(es)) != original.totalReturn then Some(ReturnReconciliation)
    else if x.drawdown != original.drawdown then Some(DrawdownReconciliation)
    else if FinalDuration(x, terminal) != original.duration then Some(DurationReconciliation)
    else if x.peakReserved != original.peakReserved then Some(PeakReserveReconciliation)
    else if x.minCash != original.minCash then Some(MinCashReconciliation)
    else None
  }

  // ---- the walk ------------------------------------------------------------------------

  class Walk {
    const start: int
    const end: int
    var cursor: int
    var area: real
    var nextClose: int
    var daily: seq<real>
    var dailyPeak: real
    var falls: seq<real>
    var equity: real
    var reserve: real
    var peak: Peak
    var drawdown: real
    var minEquity: real
    var minCash: real
    var peakReserved: real
    var underwater: Option<int>
    var duration: int
    var recovery: int

    function Extremes(): Risk
      reads `peak, `drawdown, `minEquity, `minCash, `peakReserved, `underwater, `duration, `recovery
    {
      Risk(peak, drawdown, minEquity, minCash, peakReserved, underwater, duration, recovery)
    }

    /** Everything up to the cursor is accounted for, as the ledger read so far tells it. */
    ghost predicate Accounts(es: seq<Event>)
      reads `cursor, `area, `nextClose, `daily, `dailyPeak, `falls, `equity, `reserve
    {
      && start <= cursor <= end && Past(es, cursor)
      && equity == LastEquity(es) && reserve == LastReserve(es)
      && area == Integral(es, start, cursor) / 1_000_000.0
      && nextClose == CloseAt(start, |daily|) && (0 < |daily| ==> CloseAt(start, |daily| - 1) <= cursor)
      && daily == Closes(es, start, |daily|) && dailyPeak == PeakOf(daily) && falls == Falls(daily)
    }

    constructor (horizonStart: int, days: nat)
      ensures start == horizonStart && end == EndOf(horizonStart, days) && Accounts([]) && cursor == start && daily == []
      ensures Extremes() == NoRisk
    {
      start, end := horizonStart, EndOf(horizonStart, days);
      cursor, area, nextClose := horizonStart, 0.0, horizonStart + DAY;
      daily, dailyPeak, falls := [], INITIAL, [];
      equity, reserve := INITIAL, 0.0;
      peak, drawdown, minEquity, minCash, peakReserved := INITIAL, 0.0, INITIAL, INITIAL, 0.0;
      underwater, duration, recovery := None, 0, 0;
    }

    /** Move the cursor, without closing a day. */
    method Accrue(target: int, ghost es: seq<Event>)
      requires Accounts(es) && cursor <= target <= end
      modifies `area, `cursor
      ensures Accounts(es) && cursor == target
    {
      IntegralTail(es, start, cursor, target);
      AreaGrows(Integral(es, start, cursor), reserve, target - cursor);
      hide Integral;
      area := area + reserve * Seconds(target - cursor);
      cursor := target;
    }

    /** Close one day at the cursor. */
    method Close(ghost es: seq<Event>)
      requires Accounts(es) && cursor == nextClose && StrictlyPast(es, nextClose)
      modifies `daily, `dailyPeak, `falls, `nextClose
      ensures Accounts(es) && daily == old(daily) + [equity] && nextClose == old(nextClose) + DAY
    {
      hide Integral;
      ghost var n := |daily|;
      CloseValue(es, cursor);
      assert Closes(es, start, n + 1) == Closes(es, start, n) + [EquityBefore(es, CloseAt(start, n))];
      daily := daily + [equity];
      assert daily[..n] == old(daily);
      dailyPeak := Max(dailyPeak, equity);
      PeakPositive(daily);
      falls := falls + [(dailyPeak - equity) / dailyPeak];
      nextClose := nextClose + DAY;
    }

    /** `advance`: close every day up to the target, then accrue the rest. */
    method Advance(target: int, ghost es: seq<Event>)
      requires Accounts(es) && StrictlyPast(es, nextClose) && cursor < nextClose && cursor <= target <= end
      modifies `cursor, `area, `daily, `dailyPeak, `falls, `nextClose
      ensures Accounts(es) && cursor == target && target < nextClose && StrictlyPast(es, nextClose)
    {
      while nextClose <= target && nextClose <= end
        invariant Accounts(es) && cursor <= target <= end && StrictlyPast(es, nextClose) && cursor < nextClose
        decreases target - nextClose
      {
        hide Integral;
        hide Closes;
        hide Falls;
        Accrue(nextClose, es);
        Close(es);
      }
      Accrue(target, es);
    }

    /** Read one row: nothing before the cursor, then everything that can be wrong with it. */
    method Read(e: Event, replayed: real, ghost es: seq<Event>) returns (gained: real, problem: Option<Problem>)
      requires Accounts(es) && StrictlyPast(es, nextClose) && cursor < nextClose && replayed == Gains(es)
      requires Extremes() == RiskOf(es)
      requires start <= e.at ==> cursor <= e.at
      modifies this
      ensures problem == Flaw(es, e, start, end)
      ensures problem.None? ==>
                && Accounts(es + [e]) && StrictlyPast(es + [e], nextClose) && cursor == e.at < nextClose
                && gained == Gains(es + [e]) && Extremes() == RiskOf(es + [e])
    {
      hide Accounts;
      hide Extremes;
      hide RiskOf;
      hide StrictlyPast;
      hide Flaw;
      GainsNext(es, e);
      hide Gains;
      gained := replayed + e.gain.GetOr(0.0);
      if e.at < start || e.at > end {
        OutsideHorizon(es, e, start, end);
        return gained, Some(EventOutsideHorizon);
      }
      Enter(e, es);
      problem := Check(e, gained, es);
    }

    /** The ledger as a function of time moves on to one row. */
    method Enter(e: Event, ghost es: seq<Event>)
      requires Accounts(es) && StrictlyPast(es, nextClose) && cursor < nextClose && cursor <= e.at <= end
      modifies `cursor, `area, `daily, `dailyPeak, `falls, `nextClose, `equity, `reserve
      ensures Accounts(es + [e]) && StrictlyPast(es + [e], nextClose) && cursor == e.at < nextClose
    {
      hide Accounts;
      hide StrictlyPast;
      Advance(e.at, es);
      Apply(e, es);
    }

    /** Everything that can be wrong with a row inside the horizon; the extremes take it in. */
    method Check(e: Event, gained: real, ghost es: seq<Event>) returns (problem: Option<Problem>)
      requires gained == Gains(es + [e]) && Extremes() == RiskOf(es) && start <= e.at <= end
      modifies `peak, `drawdown, `minEquity, `minCash, `peakReserved, `underwater, `duration, `recovery
      ensures problem == Flaw(es, e, start, end)
      ensures problem.None? ==> Extremes() == RiskOf(es + [e])
    {
      RiskNext(es, e);
      hide Extremes;
      hide Seen;
      hide RiskOf;
      hide Gains;
      if e.equity - e.reserved != e.cash {
        return Some(LedgerCashInvariant);
      }
      Bound(e);
      if e.gain.Some? {
        if gained != e.equity {
          return Some(SettlementReconciliation);
        }
        Surface(e);
      }
      problem := None;
    }

    /** The report against the walk, figure by figure. */
    method Reconcile(replayed: real, terminal: int, original: Reported, ghost es: seq<Event>) returns (problem: Option<Problem>)
      requires equity == LastEquity(es) && replayed == Gains(es) && Extremes() == RiskOf(es)
      ensures problem == Mismatch(es, terminal, original)
    {
      hide LastEquity;
      hide Gains;
      hide RiskOf;
      var longest := duration;
      if underwater.Some? {
        longest := Longer(longest, terminal - underwater.value);
      }
      if replayed != original.equity {
        return Some(PnlReconciliation);
      }
      if ReturnOf(equity) != original.totalReturn {
        return Some(ReturnReconciliation);
      }
      if drawdown != original.drawdown {
        return Some(DrawdownReconciliation);
      }
      if longest != original.duration {
        return Some(DurationReconciliation);
      }
      if peakReserved != original.peakReserved {
        return Some(PeakReserveReconciliation);
      }
      if minCash != original.minCash {
        return Some(MinCashReconciliation);
      }
      problem := None;
    }

    /** Cash, equity and reserve of one row. */
    method Bound(e: Event)
      modifies `minEquity, `minCash, `peakReserved
      ensures Extremes() == Seen(old(Extremes()), e.(gain := None))
    {
      minEquity, minCash := Min(minEquity, e.equity), Min(minCash, e.cash);
      peakReserved := Max(peakReserved, e.reserved);
    }

    /** The peak, the drawdown and the underwater spell after one settlement whose bounds are taken. */
    method Surface(e: Event)
      requires var x := Extremes(); x.minEquity <= e.equity && x.minCash <= e.cash && e.reserved <= x.peakReserved
      modifies `peak, `drawdown, `underwater, `duration, `recovery
      ensures e.gain.Some? ==> Extremes() == Seen(old(Extremes()), e)
    {
      if peak < e.equity {
        peak := e.equity;
      }
      drawdown := Max(drawdown, (peak - e.equity) / peak);
      if e.equity < peak && underwater.None? {
        underwater := Some(e.at);
      }
      if underwater.Some? {
        duration := Longer(duration, e.at - underwater.value);
        if e.equity >= peak {
          recovery := Longer(recovery, e.at - underwater.value);
          underwater := None;
        }
      }
    }

    /** One event takes effect at the cursor. */
    method Apply(e: Event, ghost es: seq<Event>)
      requires Accounts(es) && cursor == e.at < nextClose
      modifies `equity, `reserve
      ensures Accounts(es + [e]) && StrictlyPast(es + [e], nextClose)
    {
      IntegralUnchanged(es, e, start, cursor);
      forall k | 0 <= k < |daily|
        ensures CloseAt(start, k) <= e.at
      {
      }
      ClosesUnchanged(es, e, start, |daily|);
      hide Integral;
      hide Closes;
      equity, reserve := e.equity, e.reserved;
    }
  }

  // ---- the whole ledger ----------------------------------------------------------------

  function Instants(ledger: seq<Event>): map<int, Rank> {
    map i | 0 <= i < |ledger| :: Ordering.Rank(0.0, ledger[i].at)
  }

  function Pick(ledger: seq<Event>, ids: seq<int>): (r: seq<Event>)
    requires forall i :: 0 <= i < |ids| ==> 0 <= ids[i] < |ledger|
    ensures |r| == |ids|
  {
    seq(|ids|, i requires 0 <= i < |ids| => ledger[ids[i]])
  }

  lemma InstantsListed(ledger: seq<Event>)
    ensures forall i :: 0 <= i < |Order(Instants(ledger))| ==> 0 <= Order(Instants(ledger))[i] < |ledger|
  {
    forall i | 0 <= i < |Order(Instants(ledger))|
      ensures 0 <= Order(Instants(ledger))[i] < |ledger|
    {
      assert Order(Instants(ledger))[i] in Instants(ledger);
    }
  }

  /** The ledger by instant; rows of one instant keep their order. */
  ghost function Chronology(ledger: seq<Event>): seq<Event> {
    InstantsListed(ledger);
    Pick(ledger, Order(Instants(ledger)))
  }

  lemma ChronologyInOrder(ledger: seq<Event>)
    ensures InOrder(Chronology(ledger))
  {
    InstantsListed(ledger);
    var ranks, ids := Instants(ledger), Order(Instants(ledger));
    forall i, j | 0 <= i < j < |ids|
      ensures ledger[ids[i]].at <= ledger[ids[j]].at
    {
      assert Before(ranks[ids[i]], ids[i], ranks[ids[j]], ids[j]);
    }
  }

  /** The last ledger row strictly before t: the latest instant, and the last row at that instant. */
  ghost predicate IsLastBefore(ledger: seq<Event>, t: int, i: int) {
    && 0 <= i < |ledger| && ledger[i].at < t
    && forall j :: 0 <= j < |ledger| && ledger[j].at < t ==>
         ledger[j].at < ledger[i].at || (ledger[j].at == ledger[i].at && j <= i)
  }

  /** Identities listed by instant, and by position within one instant. */
  ghost predicate Ranked(ledger: seq<Event>, ids: seq<int>) {
    && (forall k :: 0 <= k < |ids| ==> 0 <= ids[k] < |ledger|)
    && forall j, k :: 0 <= j < k < |ids| ==>
         ledger[ids[j]].at < ledger[ids[k]].at || (ledger[ids[j]].at == ledger[ids[k]].at && ids[j] < ids[k])
  }

  lemma OrderRanked(ledger: seq<Event>)
    ensures Ranked(ledger, Order(Instants(ledger)))
  {
    InstantsListed(ledger);
    var ranks, ids := Instants(ledger), Order(Instants(ledger));
    forall j, k | 0 <= j < k < |ids|
      ensures ledger[ids[j]].at < ledger[ids[k]].at || (ledger[ids[j]].at == ledger[ids[k]].at && ids[j] < ids[k])
    {
      assert Before(ranks[ids[j]], ids[j], ranks[ids[k]], ids[k]);
    }
  }

  lemma {:induction false} EquityOfPrefix(ledger: seq<Event>, ids: seq<int>, n: nat, t: int, i: int, k: nat)
    requires Ranked(ledger, ids) && k < n <= |ids| && ids[k] == i && IsLastBefore(ledger, t, i)
    ensures EquityBefore(Pick(ledger, ids)[..n], t) == ledger[i].equity
  {
    var es := Pick(ledger, ids);
    assert es[..n][..n - 1] == es[..n - 1];
    if k < n - 1 {
      assert t <= es[n - 1].at;
      EquityOfPrefix(ledger, ids, n - 1, t, i, k);
    }
  }

  lemma {:induction false} NoneBefore(es: seq<Event>, t: int)
    requires forall i :: 0 <= i < |es| ==> t <= es[i].at
    ensures EquityBefore(es, t) == INITIAL
  {
    if es != [] { NoneBefore(es[..|es| - 1], t); }
  }

  lemma Position(ledger: seq<Event>, i: int) returns (k: nat)
    requires 0 <= i < |ledger|
    ensures k < |Order(Instants(ledger))| && Order(Instants(ledger))[k] == i
  {
    assert i in Instants(ledger);
    k :| 0 <= k < |Order(Instants(ledger))| && Order(Instants(ledger))[k] == i;
  }

  /** A close is the equity of the last row strictly before it. */
  lemma CloseMeans(ledger: seq<Event>, t: int, i: int)
    requires IsLastBefore(ledger, t, i)
    ensures EquityBefore(Chronology(ledger), t) == ledger[i].equity
  {
    hide EquityBefore;
    hide Instants;
    hide Ranked;
    InstantsListed(ledger);
    OrderRanked(ledger);
    var k := Position(ledger, i);
    hide IsLastBefore;
    var ids := Order(Instants(ledger));
    EquityOfPrefix(ledger, ids, |ids|, t, i, k);
    assert Pick(ledger, ids)[..|ids|] == Pick(ledger, ids);
  }

  /** Without a row strictly before it, a close is the initial equity. */
  lemma CloseInitially(ledger: seq<Event>, t: int)
    requires forall j :: 0 <= j < |ledger| ==> t <= ledger[j].at
    ensures EquityBefore(Chronology(ledger), t) == INITIAL
  {
    InstantsListed(ledger);
    NoneBefore(Chronology(ledger), t);
  }

  /** What the walk reports. */
  datatype Observed = Observed(
    daily: seq<real>, falls: seq<real>, area: real, mean: real, final: real, risk: Risk, duration: int)

  function FirstFlaw(es: seq<Event>, start: int, end: int): Option<Problem> {
    if es == [] then None
    else
      var last := |es| - 1;
      var before := FirstFlaw(es[..last], start, end);
      if before.Some? then before else Flaw(es[..last], es[last], start, end)
  }

  lemma {:induction false} FlawStays(es: seq<Event>, start: int, end: int, n: nat)
    requires n <= |es| && FirstFlaw(es[..n], start, end).Some?
    ensures FirstFlaw(es, start, end) == FirstFlaw(es[..n], start, end)
    decreases |es|
  {
    if n < |es| {
      assert es[..|es| - 1][..n] == es[..n];
      FlawStays(es[..|es| - 1], start, end, n);
    } else {
      assert es[..n] == es;
    }
  }

  lemma GainsNext(es: seq<Event>, e: Event)
    ensures Gains(es + [e]) == Gains(es) + e.gain.GetOr(0.0)
  {
    assert (es + [e])[..|es|] == es;
  }

  lemma OutsideHorizon(before: seq<Event>, e: Event, start: int, end: int)
    requires e.at < start || end < e.at
    ensures Flaw(before, e, start, end) == Some(EventOutsideHorizon)
  {
  }

  lemma RiskNext(es: seq<Event>, e: Event)
    ensures RiskOf(es + [e]) == Seen(RiskOf(es), e)
    ensures e.gain.None? ==> Seen(RiskOf(es), e.(gain := None)) == RiskOf(es + [e])
    ensures var y := Seen(RiskOf(es), e.(gain := None)); y.minEquity <= e.equity && y.minCash <= e.cash && e.reserved <= y.peakReserved
    ensures Seen(Seen(RiskOf(es), e.(gain := None)), e) == Seen(RiskOf(es), e)
  {
    assert (es + [e])[..|es|] == es;
  }

  lemma RiskStarts()
    ensures RiskOf([]) == NoRisk
  {
  }

  /** Walk through all rows, until one is wrong. */
  method ReadAll(walk: Walk, es: seq<Event>) returns (replayed: real, problem: Option<Problem>)
    requires InOrder(es) && walk.Accounts([]) && walk.cursor == walk.start < walk.nextClose && walk.Extremes() == NoRisk
    modifies walk
    ensures problem == FirstFlaw(es, walk.start, walk.end)
    ensures problem.None? ==> walk.Accounts(es) && StrictlyPast(es, walk.nextClose) && walk.cursor < walk.nextClose
    ensures problem.None? ==> replayed == Gains(es) && walk.Extremes() == RiskOf(es)
  {
    hide Walk.Accounts;
    hide Flaw;
    hide RiskOf;
    assert es[..0] == [] && RiskOf([]) == NoRisk by { RiskStarts(); }
    replayed := INITIAL;
    for i := 0 to |es|
      invariant walk.Accounts(es[..i]) && StrictlyPast(es[..i], walk.nextClose) && walk.cursor < walk.nextClose
      invariant walk.cursor == if i == 0 then walk.start else es[i - 1].at
      invariant walk.Extremes() == RiskOf(es[..i])
      invariant replayed == Gains(es[..i]) && FirstFlaw(es[..i], walk.start, walk.end).None?
    {
      assert es[..i + 1] == es[..i] + [es[i]] && es[..i + 1][..i] == es[..i];
      replayed, problem := walk.Read(es[i], replayed, es[..i]);
      if problem.Some? {
        FlawStays(es, walk.start, walk.end, i + 1);
        return;
      }
    }
    assert es[..|es|] == es;
    problem := None;
  }

  method Arrange(ledger: seq<Event>) returns (es: seq<Event>)
    ensures es == Chronology(ledger) && InOrder(es)
  {
    var ids := Sort(Instants(ledger));
    InstantsListed(ledger);
    ChronologyInOrder(ledger);
    es := Pick(ledger, ids);
  }

  /**
    The observed economics of a ledger: exactly `days` closes, each the equity
    after the last event strictly before it, the time integral of the reserve
    over the horizon, and the extremes of the ledger, once they reconcile with
    what the path reported.
   */
  method DeriveObserved(ledger: seq<Event>, start: int, days: int, terminal: int, original: Reported)
    returns (r: Result<Observed, Problem>)
    ensures days <= 0 ==> r == Failure(EconomicHorizon)
    ensures days > 0 ==>
              var es := Chronology(ledger);
              match FirstFlaw(es, start, EndOf(start, days))
              case Some(problem) => r == Failure(problem)
              case None =>
                match Mismatch(es, terminal, original)
                case Some(problem) => r == Failure(problem)
                case None =>
                && r.Success?
                && r.value.daily == Closes(es, start, days)
                && r.value.falls == Falls(r.value.daily)
                && r.value.area == Integral(es, start, EndOf(start, days)) / 1_000_000.0
                && r.value.mean == MeanOver(r.value.area, days)
                && r.value.final == LastEquity(es)
                && r.value.risk == RiskOf(es) && r.value.duration == FinalDuration(RiskOf(es), terminal)
  {
    if days <= 0 {
      return Failure(EconomicHorizon);
    }
    hide Integral;
    hide Closes;
    hide Falls;
    hide Chronology;
    hide FirstFlaw;
    hide EquityBefore;
    hide ReserveAt;
    hide MeanOver;
    hide InOrder;
    hide LastReserve;
    hide PeakOf;
    var es := Arrange(ledger);
    var walk := new Walk(start, days);
    var replayed, problem := ReadAll(walk, es);
    if problem.Some? {
      return Failure(problem.value);
    }
    walk.Advance(walk.end, es);
    ExactlyDays(start, |walk.daily|, days);
    hide EndOf;
    hide CloseAt;
    problem := walk.Reconcile(replayed, terminal, original, es);
    if problem.Some? {
      return Failure(problem.value);
    }
    r := Success(Observed(walk.daily, walk.falls, walk.area, MeanOver(walk.area, days), walk.equity, walk.Extremes(),
                          FinalDuration(walk.Extremes(), terminal)));
  }

  lemma ExactlyDays(start: int, closed: nat, days: nat)
    requires EndOf(start, days) < CloseAt(start, closed) && (0 < closed ==> CloseAt(start, closed - 1) <= EndOf(start, days))
    ensures closed == days
  {
  }
}

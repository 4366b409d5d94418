/** Risk metrics folded over a replay ledger (football/capital/metrics.py). */
module LedgerMetrics {
  import opened Common
  import opened Policies
  import opened Decisions
  import opened Replay

  function MaxStake(rows: seq<Row>): real {
    if rows == [] then 0.0 else Max(MaxStake(rows[..|rows| - 1]), rows[|rows| - 1].request.applied)
  }

  function Ratio(stake: real, bankroll: real): real {
    if 0.0 < bankroll then stake / bankroll else 0.0
  }

  function MaxRatio(rows: seq<Row>): real {
    if rows == [] then 0.0
    else
      var last := rows[|rows| - 1];
      Max(MaxRatio(rows[..|rows| - 1]), Ratio(last.request.applied, last.before))
  }

  function CapHits(rows: seq<Row>): nat {
    if rows == [] then 0 else CapHits(rows[..|rows| - 1]) + if rows[|rows| - 1].request.capHit then 1 else 0
  }

  function Ruined(rows: seq<Row>): bool {
    if rows == [] then false else Ruined(rows[..|rows| - 1]) || rows[|rows| - 1].ruin
  }

  function TotalPnl(rows: seq<Row>): real {
    if rows == [] then 0.0 else TotalPnl(rows[..|rows| - 1]) + rows[|rows| - 1].pnl
  }

  /** The bankroll after each batch: the first row of every batch speaks for it. */
  function Curve(rows: seq<Row>): seq<real> {
    if rows == [] then []
    else
      var last := |rows| - 1;
      if last > 0 && rows[last - 1].batch == rows[last].batch then Curve(rows[..last])
      else Curve(rows[..last]) + [rows[last].after]
  }

  datatype Trough = Trough(peak: real, drawdown: real)

  /** Follow one more bankroll: a new peak, or a fall measured against the old one. */
  function Follow(t: Trough, bankroll: real): Trough {
    if bankroll >= t.peak then Trough(bankroll, t.drawdown)
    else Trough(t.peak, Max(t.drawdown, if t.peak == 0.0 then 0.0 else (t.peak - bankroll) / t.peak))
  }

  function TroughOf(initial: real, curve: seq<real>): Trough {
    if curve == [] then Trough(initial, 0.0) else Follow(TroughOf(initial, curve[..|curve| - 1]), curve[|curve| - 1])
  }

  datatype Metrics = Metrics(
    terminal: real, maxStake: real, maxRatio: real, capHits: nat, ruined: bool, drawdown: real, peak: real,
    totalPnl: real, longestLosingStreak: nat)

  function MetricsOf(initial: real, rows: seq<Row>): Metrics {
    var t := TroughOf(initial, Curve(rows));
    Metrics(if rows == [] then initial else rows[|rows| - 1].after, MaxStake(rows), MaxRatio(rows), CapHits(rows),
            Ruined(rows), t.drawdown, t.peak, TotalPnl(rows), LongestStreak(rows))
  }

  function CurrentStreak(rows: seq<Row>): nat {
    if rows == [] then 0
    else
      var last := rows[|rows| - 1];
      if last.request.applied <= 0.0 then CurrentStreak(rows[..|rows| - 1])
      else if last.won then 0
      else CurrentStreak(rows[..|rows| - 1]) + 1
  }

  function LongestStreak(rows: seq<Row>): nat {
    if rows == [] then 0
    else
      var before := LongestStreak(rows[..|rows| - 1]);
      if before < CurrentStreak(rows) then CurrentStreak(rows) else before
  }

  /** Rows i to j hold lost stakes and nothing that was won; `lost` counts the stakes. */
  ghost predicate LostRun(rows: seq<Row>, i: nat, j: nat, lost: nat) {
    && i <= j <= |rows| && lost == StakedIn(rows[i..j])
    && forall k :: i <= k < j ==> rows[k].request.applied <= 0.0 || !rows[k].won
  }

  function StakedIn(rows: seq<Row>): nat {
    if rows == [] then 0 else StakedIn(rows[..|rows| - 1]) + if rows[|rows| - 1].request.applied > 0.0 then 1 else 0
  }

  lemma {:induction false} CurrentIsRun(rows: seq<Row>) returns (i: nat)
    ensures LostRun(rows, i, |rows|, CurrentStreak(rows))
  {
    if rows == [] {
      i := 0;
    } else {
      var last := |rows| - 1;
      if rows[last].request.applied > 0.0 && rows[last].won {
        i := |rows|;
      } else {
        i := CurrentIsRun(rows[..last]);
        assert rows[..last][i..last] == rows[i..last] == rows[i..][..|rows[i..]| - 1];
        assert rows[i..|rows|] == rows[i..];
      }
    }
  }

  lemma {:induction false} CurrentBounds(rows: seq<Row>, i: nat, lost: nat)
    requires LostRun(rows, i, |rows|, lost)
    ensures lost <= CurrentStreak(rows)
  {
    if i < |rows| {
      var last := |rows| - 1;
      assert rows[i..|rows|][..last - i] == rows[..last][i..last];
      assert rows[i..|rows|][last - i] == rows[last];
      CurrentBounds(rows[..last], i, StakedIn(rows[..last][i..last]));
    }
  }

  /** The longest streak is some run of lost stakes. */
  lemma {:induction false} LongestAttained(rows: seq<Row>) returns (i: nat, j: nat)
    ensures LostRun(rows, i, j, LongestStreak(rows))
  {
    if rows == [] {
      i, j := 0, 0;
    } else {
      var last := |rows| - 1;
      if LongestStreak(rows[..last]) < CurrentStreak(rows) {
        i := CurrentIsRun(rows);
        j := |rows|;
      } else {
        i, j := LongestAttained(rows[..last]);
        assert rows[..last][i..j] == rows[i..j];
      }
    }
  }

  /** No run of lost stakes is longer. */
  lemma {:induction false} LongestBounds(rows: seq<Row>, i: nat, j: nat, lost: nat)
    requires LostRun(rows, i, j, lost)
    ensures lost <= LongestStreak(rows)
  {
    if j < |rows| {
      var last := |rows| - 1;
      assert rows[..last][i..j] == rows[i..j];
      LongestBounds(rows[..last], i, j, lost);
    } else {
      CurrentBounds(rows, i, lost);
    }
  }

  /** The largest stake is the largest: it bounds every stake, and is one of them unless nothing was staked. */
  lemma {:induction false} MaxStakeIsMax(rows: seq<Row>)
    ensures forall k :: 0 <= k < |rows| ==> rows[k].request.applied <= MaxStake(rows)
    ensures MaxStake(rows) == 0.0 || exists k :: 0 <= k < |rows| && rows[k].request.applied == MaxStake(rows)
    ensures 0.0 <= MaxStake(rows)
  {
    if rows != [] {
      var last := |rows| - 1;
      MaxStakeIsMax(rows[..last]);
      if MaxStake(rows) == rows[last].request.applied {
      } else if MaxStake(rows) != 0.0 {
        var k :| 0 <= k < last && rows[..last][k].request.applied == MaxStake(rows[..last]);
        assert rows[k].request.applied == MaxStake(rows);
      }
    }
  }

  /** The largest stakes, the cap hits, the ruin flag and the total of a ledger. */
  method LedgerTotals(rows: seq<Row>) returns (maxStake: real, maxRatio: real, capHits: nat, ruined: bool, total: real)
    ensures maxStake == MaxStake(rows) && maxRatio == MaxRatio(rows)
    ensures capHits == CapHits(rows) && ruined == Ruined(rows) && total == TotalPnl(rows)
  {
    maxStake, maxRatio, capHits, ruined, total := 0.0, 0.0, 0, false, 0.0;
    for i := 0 to |rows|
      invariant maxStake == MaxStake(rows[..i]) && maxRatio == MaxRatio(rows[..i])
      invariant capHits == CapHits(rows[..i]) && ruined == Ruined(rows[..i]) && total == TotalPnl(rows[..i])
    {
      hide Ratio;
      var row := rows[i];
      assert rows[..i + 1][..i] == rows[..i];
      maxStake := Max(maxStake, row.request.applied);
      maxRatio := Max(maxRatio, Ratio(row.request.applied, row.before));
      if row.request.capHit {
        capHits := capHits + 1;
      }
      ruined := ruined || row.ruin;
      total := total + row.pnl;
    }
    assert rows[..|rows|] == rows;
  }

  /** Peak and maximum drawdown of the bankroll after each batch. */
  method WorstFall(initial: real, rows: seq<Row>) returns (t: Trough)
    ensures t == TroughOf(initial, Curve(rows))
  {
    var peak, drawdown := initial, 0.0;
    for i := 0 to |rows|
      invariant Trough(peak, drawdown) == TroughOf(initial, Curve(rows[..i]))
    {
      hide TroughOf;
      assert rows[..i + 1][..i] == rows[..i];
      var bankroll := rows[i].after;
      if i == 0 || rows[i - 1].batch != rows[i].batch {
        assert Curve(rows[..i + 1]) == Curve(rows[..i]) + [bankroll];
        CurveFollow(initial, Curve(rows[..i]), bankroll);
        if bankroll >= peak {
          peak := bankroll;
        } else {
          drawdown := Max(drawdown, if peak == 0.0 then 0.0 else (peak - bankroll) / peak);
        }
      }
    }
    assert rows[..|rows|] == rows;
    t := Trough(peak, drawdown);
  }

  /** The longest run of lost bets among those actually staked. */
  method LosingStreak(rows: seq<Row>) returns (longest: nat)
    ensures longest == LongestStreak(rows)
  {
    var current := 0;
    longest := 0;
    for i := 0 to |rows|
      invariant current == CurrentStreak(rows[..i]) && longest == LongestStreak(rows[..i])
    {
      assert rows[..i + 1][..i] == rows[..i];
      if rows[i].request.applied > 0.0 {
        if rows[i].won {
          current := 0;
        } else {
          current := current + 1;
        }
      }
      if longest < current {
        longest := current;
      }
    }
    assert rows[..|rows|] == rows;
  }

  method DeterministicMetrics(initial: real, rows: seq<Row>) returns (m: Metrics)
    ensures m == MetricsOf(initial, rows)
  {
    var maxStake, maxRatio, capHits, ruined, total := LedgerTotals(rows);
    var t := WorstFall(initial, rows);
    var streak := LosingStreak(rows);
    m := Metrics(if rows == [] then initial else rows[|rows| - 1].after, maxStake, maxRatio, capHits, ruined,
                 t.drawdown, t.peak, total, streak);
  }

  lemma CurveFollow(initial: real, curve: seq<real>, x: real)
    ensures TroughOf(initial, curve + [x]) == Follow(TroughOf(initial, curve), x)
  {
    assert (curve + [x])[..|curve|] == curve;
  }

  ghost predicate NonNegative(curve: seq<real>) {
    forall k :: 0 <= k < |curve| ==> 0.0 <= curve[k]
  }

  lemma {:induction false} TroughLast(initial: real, curve: seq<real>)
    requires 0.0 < initial && curve != [] && NonNegative(curve)
    ensures var last := |curve| - 1;
            var before, after := TroughOf(initial, curve[..last]), TroughOf(initial, curve);
            && NonNegative(curve[..last])
            && (1.0 - after.drawdown) * after.peak <= curve[last]
            && before.drawdown <= after.drawdown <= 1.0
  {
    hide Follow;
    var last := |curve| - 1;
    assert NonNegative(curve[..last]);
    PeakCovers(initial, curve[..last]);
    assert TroughOf(initial, curve) == Follow(TroughOf(initial, curve[..last]), curve[last]);
    hide TroughOf;
    hide NonNegative;
    FollowCovers(TroughOf(initial, curve[..last]), curve[last]);
  }

  /** No bankroll is below its kept share of anything the peak had reached by then. */
  lemma {:induction false} KeptShare(initial: real, curve: seq<real>, base: real, j: nat)
    requires 0.0 < initial && j < |curve| && NonNegative(curve)
    requires 0.0 <= base <= TroughOf(initial, curve[..j + 1]).peak
    ensures (1.0 - TroughOf(initial, curve).drawdown) * base <= curve[j]
  {
    hide TroughOf;
    hide NonNegative;
    var last := |curve| - 1;
    var before, after := TroughOf(initial, curve[..last]), TroughOf(initial, curve);
    TroughLast(initial, curve);
    if j < last {
      assert curve[..last][..j + 1] == curve[..j + 1];
      KeptShare(initial, curve[..last], base, j);
      KeepsLess(before.drawdown, after.drawdown, base, curve[j]);
    } else {
      assert curve[..j + 1] == curve;
      KeepsOfLess(after.drawdown, base, after.peak, curve[j]);
    }
  }

  /** The drawdown covers every fall: no bankroll is below its kept share of any earlier one, the initial one included. */
  lemma {:induction false} DrawdownCovers(initial: real, curve: seq<real>, i: nat, j: nat)
    requires 0.0 < initial && i <= j < |curve| && NonNegative(curve)
    ensures var kept := 1.0 - TroughOf(initial, curve).drawdown;
            0.0 <= kept <= 1.0 && kept * curve[i] <= curve[j] && kept * initial <= curve[j]
  {
    hide TroughOf;
    PeakCovers(initial, curve);
    PeakCovers(initial, curve[..j + 1]);
    assert curve[..j + 1][i] == curve[i];
    KeptShare(initial, curve, curve[i], j);
    KeptShare(initial, curve, initial, j);
  }

  lemma {:induction false} KeepsLess(before: real, after: real, base: real, x: real)
    requires (1.0 - before) * base <= x && before <= after && 0.0 <= base
    ensures (1.0 - after) * base <= x
  {
    ScaleDown(1.0 - after, 1.0 - before, base);
  }

  lemma {:induction false} KeepsOfLess(drawdown: real, base: real, peak: real, x: real)
    requires (1.0 - drawdown) * peak <= x && base <= peak && drawdown <= 1.0
    ensures (1.0 - drawdown) * base <= x
  {
    ScaleUp(1.0 - drawdown, base, peak);
  }

  lemma {:induction false} KeepsSome(drawdown: real, x: real)
    requires 0.0 <= drawdown && 0.0 <= x
    ensures (1.0 - drawdown) * x <= x
  {
    ScaleDown(1.0 - drawdown, 1.0, x);
    assert 1.0 * x == x;
  }

  lemma {:induction false} FallCovers(peak: real, x: real, drawdown: real)
    requires 0.0 < peak && 0.0 <= x < peak && (peak - x) / peak <= drawdown
    ensures (1.0 - drawdown) * peak <= x && (peak - x) / peak <= 1.0
  {
    var fall := (peak - x) / peak;
    Fraction(peak - x, peak);
    assert fall * peak == peak - x;
    ScaleDown(1.0 - drawdown, 1.0 - fall, peak);
    assert (1.0 - fall) * peak == peak - fall * peak;
  }

  lemma {:induction false} FollowCovers(t: Trough, x: real)
    requires 0.0 < t.peak && 0.0 <= t.drawdown <= 1.0 && 0.0 <= x
    ensures var u := Follow(t, x);
            && (1.0 - u.drawdown) * u.peak <= x
            && 0.0 <= t.drawdown <= u.drawdown <= 1.0 && 0.0 < t.peak <= u.peak && x <= u.peak
  {
    var u := Follow(t, x);
    if x >= t.peak {
      KeepsSome(t.drawdown, x);
      assert u == Trough(x, t.drawdown);
      assert (1.0 - u.drawdown) * u.peak == (1.0 - t.drawdown) * x;
    } else {
      FallCovers(t.peak, x, u.drawdown);
    }
  }

  lemma {:induction false} Fraction(n: real, d: real)
    requires 0.0 <= n <= d && 0.0 < d
    ensures 0.0 <= n / d <= 1.0
  {
  }

  lemma {:induction false} ScaleDown(a: real, b: real, x: real)
    requires a <= b && 0.0 <= x
    ensures a * x <= b * x
  {
    ProductNonNegative(b - a, x);
    assert (b - a) * x == b * x - a * x;
  }

  lemma {:induction false} ScaleUp(a: real, x: real, y: real)
    requires 0.0 <= a && x <= y
    ensures a * x <= a * y
  {
    ProductNonNegative(a, y - x);
    assert a * (y - x) == a * y - a * x;
  }

  lemma {:induction false} PeakCovers(initial: real, curve: seq<real>)
    requires 0.0 < initial && NonNegative(curve)
    ensures var t := TroughOf(initial, curve);
            initial <= t.peak && 0.0 <= t.drawdown <= 1.0 && forall k :: 0 <= k < |curve| ==> curve[k] <= t.peak
  {
    if curve != [] {
      PeakCovers(initial, curve[..|curve| - 1]);
      FollowCovers(TroughOf(initial, curve[..|curve| - 1]), curve[|curve| - 1]);
    }
  }

  // ---- the money of a replay -----------------------------------------------------------

  lemma {:induction false} TotalAppend(a: seq<Row>, b: seq<Row>)
    ensures TotalPnl(a + b) == TotalPnl(a) + TotalPnl(b)
  {
    if b == [] {
      assert a + b == a;
    } else {
      TotalAppend(a, b[..|b| - 1]);
      assert (a + b)[..|a + b| - 1] == a + b[..|b| - 1];
    }
  }

  function EntryPnl(entries: seq<Entry>): real {
    if entries == [] then 0.0 else EntryPnl(entries[..|entries| - 1]) + entries[|entries| - 1].pnl
  }

  lemma {:induction false} SettlingTotal(p: Policy, run: Run, slots: Slots, requests: seq<Option<StakeRequest>>)
    requires |slots| == |requests|
    ensures EntryPnl(SettleSlots(p, run, slots, requests).entries) == SettleSlots(p, run, slots, requests).pnl
  {
    if slots != [] {
      var last := |slots| - 1;
      var before := SettleSlots(p, run, slots[..last], requests[..last]);
      SettlingTotal(p, run, slots[..last], requests[..last]);
      var after := SettleSlot(p, before, slots[last], requests[last]);
      assert after.entries[..last] == before.entries;
    }
  }

  lemma {:induction false} RowsTotal(rows: seq<Row>, entries: seq<Entry>)
    requires |rows| == |entries| && forall i :: 0 <= i < |rows| ==> rows[i].pnl == entries[i].pnl
    ensures TotalPnl(rows) == EntryPnl(entries)
  {
    if rows != [] {
      RowsTotal(rows[..|rows| - 1], entries[..|rows| - 1]);
    }
  }

  lemma {:induction false} IdleTotal(rows: seq<Row>)
    requires forall i :: 0 <= i < |rows| ==> rows[i].pnl == 0.0
    ensures TotalPnl(rows) == 0.0
  {
    if rows != [] {
      IdleTotal(rows[..|rows| - 1]);
    }
  }

  lemma {:induction false} HaltedTotal(run: Run, slots: Slots, requests: seq<Option<StakeRequest>>)
    requires |slots| == |requests|
    ensures TotalPnl(run.ledger + StopRows(run, slots, requests)) == TotalPnl(run.ledger)
    ensures TotalPnl(run.ledger + UnfundedRows(run, slots, requests)) == TotalPnl(run.ledger)
  {
    hide TotalPnl;
    TotalAppend(run.ledger, StopRows(run, slots, requests));
    IdleTotal(StopRows(run, slots, requests));
    TotalAppend(run.ledger, UnfundedRows(run, slots, requests));
    IdleTotal(UnfundedRows(run, slots, requests));
  }

  lemma {:induction false} SettledTotal(p: Policy, run: Run, slots: Slots, requests: seq<Option<StakeRequest>>)
    requires |slots| == |requests|
    ensures var s := SettleSlots(p, run, slots, requests);
            TotalPnl(run.ledger + SettledRows(run, slots, s)) == TotalPnl(run.ledger) + s.pnl
  {
    hide TotalPnl;
    hide SettleSlots;
    var s := SettleSlots(p, run, slots, requests);
    TotalAppend(run.ledger, SettledRows(run, slots, s));
    RowsTotal(SettledRows(run, slots, s), s.entries);
    SettlingTotal(p, run, slots, requests);
  }

  /** Conservation: the bankroll is always the initial one plus every profit and loss in the ledger. */
  lemma {:induction false} ReplayConserves(p: Policy, initial: real, batches: seq<Slots>)
    ensures ReplayAll(p, initial, batches).bankroll == initial + TotalPnl(ReplayAll(p, initial, batches).ledger)
  {
    if batches != [] {
      var last := |batches| - 1;
      ReplayConserves(p, initial, batches[..last]);
      var run, slots := ReplayAll(p, initial, batches[..last]), batches[last];
      hide Requests;
      hide SettleSlots;
      hide StopRows;
      hide UnfundedRows;
      hide SettledRows;
      hide Stops;
      hide Exposure;
      var requests := Requests(p, run.bankroll, run.state, slots);
      HaltedTotal(run, slots, requests);
      SettledTotal(p, run, slots, requests);
      hide TotalPnl;
    }
  }
}

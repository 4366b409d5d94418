/**
  The audit of a trace against its own path: whatever the policy, the lanes and
  the opportunities, the ledger that the event-time path writes bears out every
  figure that the path reports.
 */
module TraceReconciles {
  import opened Common
  import opened Policies
  import opened Ordering
  import opened EventPath
  import opened EventInvariants
  import EventCompletion
  import M = ObservedMetrics

  /** One ledger row as the audit reads it. */
  function RowOf(v: Event): M.Event {
    M.Event(v.at, v.equity, v.reserved, v.equity - v.reserved, if v.kind.Settlement? then Some(v.kind.pnl) else None)
  }

  function RowsOf(ledger: seq<Event>): (r: seq<M.Event>)
    ensures |r| == |ledger|
  {
    seq(|ledger|, i requires 0 <= i < |ledger| => RowOf(ledger[i]))
  }

  /** The figures of a path's report; its return is computed from its equity. */
  function ReportedBy(e: Engine): M.Reported {
    M.Reported(e.equity, M.ReturnOf(e.equity), e.drawdown, e.maxUnderwater, e.peakReserved, e.minCash)
  }

  // ---- the figures and the rows they come from ------------------------------------------

  /** Every figure of the path that the audit recomputes. */
  datatype Figures = Figures(
    equity: real, reserved: real, peak: real, drawdown: real, minCash: real, peakReserved: real,
    since: Option<int>, duration: int)

  function FiguresOf(e: Engine): Figures {
    Figures(e.equity, e.reserved, e.peak, e.drawdown, e.minCash, e.peakReserved, e.underwaterAt, e.maxUnderwater)
  }

  /** The rows add up to the figures, and each settled row to the equity it shows. */
  ghost predicate Bears(f: Figures, rows: seq<M.Event>) {
    var x := M.RiskOf(rows);
    && f == Figures(M.LastEquity(rows), M.LastReserve(rows), x.peak, x.drawdown, x.minCash, x.peakReserved, x.since, x.duration)
    && M.Gains(rows) == f.equity && f.minCash <= f.equity - f.reserved && f.reserved <= f.peakReserved
  }

  ghost predicate Balanced(rows: seq<M.Event>) {
    forall i :: 0 <= i < |rows| ==>
      && rows[i].cash == rows[i].equity - rows[i].reserved
      && (rows[i].gain.Some? ==> M.Gains(rows[..i + 1]) == rows[i].equity)
  }

  /** Rows in order of time, none after `lastAt`. */
  ghost predicate Dated(rows: seq<M.Event>, lastAt: Option<int>) {
    M.InOrder(rows) && (rows != [] ==> lastAt.Some? && rows[|rows| - 1].at <= lastAt.value)
  }

  ghost predicate Sound(f: Figures, rows: seq<M.Event>, lastAt: Option<int>) {
    Bears(f, rows) && Balanced(rows) && Dated(rows, lastAt)
  }

  ghost predicate Reconciled(e: Engine) {
    Sound(FiguresOf(e), RowsOf(e.ledger), e.lastAt)
  }

  lemma BalancedMore(rows: seq<M.Event>, row: M.Event)
    requires Balanced(rows) && row.cash == row.equity - row.reserved
    requires row.gain.Some? ==> M.Gains(rows) + row.gain.value == row.equity
    ensures Balanced(rows + [row])
  {
    var more := rows + [row];
    assert more[..|rows|] == rows && more[..|more|] == more;
    forall i | 0 <= i < |rows|
      ensures more[i] == rows[i] && more[..i + 1] == rows[..i + 1]
    {
    }
    hide M.Gains;
  }

  lemma DatedMore(rows: seq<M.Event>, row: M.Event, lastAt: Option<int>)
    requires Dated(rows, lastAt) && (lastAt.Some? ==> lastAt.value <= row.at)
    ensures Dated(rows + [row], Some(row.at))
  {
    forall i, j | 0 <= i < j < |rows + [row]|
      ensures (rows + [row])[i].at <= (rows + [row])[j].at
    {
      if j == |rows| && i < |rows| - 1 { assert rows[i].at <= rows[|rows| - 1].at; }
    }
  }

  /** A row that settles nothing, after the figures have taken its reserve in. */
  lemma PlainRow(f: Figures, g: Figures, rows: seq<M.Event>, row: M.Event)
    requires Bears(f, rows) && row.gain.None? && row.equity == f.equity && row.cash == row.equity - row.reserved
    requires g == f.(reserved := row.reserved, minCash := Min(f.minCash, row.cash), peakReserved := Max(f.peakReserved, row.reserved))
    ensures Bears(g, rows + [row])
  {
    assert (rows + [row])[..|rows|] == rows;
  }

  /** What one settlement makes of the figures. */
  function SettledFigures(f: Figures, row: M.Event): Figures
    requires 0.0 < f.peak && row.gain.Some?
  {
    var peak := if f.peak < row.equity then row.equity else f.peak;
    var since := if row.equity < peak && f.since.None? then Some(row.at) else f.since;
    Figures(row.equity, row.reserved, peak, Max(f.drawdown, (peak - row.equity) / peak), Min(f.minCash, row.cash),
            Max(f.peakReserved, row.reserved), if since.Some? && peak <= row.equity then None else since,
            if since.Some? then M.Longer(f.duration, row.at - since.value) else f.duration)
  }

  lemma SettledRow(f: Figures, rows: seq<M.Event>, row: M.Event)
    requires Bears(f, rows) && row.gain.Some? && row.cash == row.equity - row.reserved
    requires f.equity + row.gain.value == row.equity
    ensures 0.0 < f.peak && Bears(SettledFigures(f, row), rows + [row])
  {
    assert (rows + [row])[..|rows|] == rows;
  }

  lemma RecordRows(e: Engine, kind: Kind, at: int, id: int)
    ensures RowsOf(Record(e, kind, at, id).ledger) == RowsOf(e.ledger) + [RowOf(Event(kind, at, id, e.equity, e.reserved, e.state))]
  {
  }

  /** A recorded event that settles nothing and changes no figure. */
  lemma QuietRecord(e: Engine, kind: Kind, at: int, id: int)
    requires Reconciled(e) && e.lastAt == Some(at) && !kind.Settlement?
    ensures Reconciled(Record(e, kind, at, id))
  {
    hide RowsOf;
    hide Bears;
    hide Balanced;
    hide Dated;
    var row := RowOf(Event(kind, at, id, e.equity, e.reserved, e.state));
    RecordRows(e, kind, at, id);
    FiguresHold(FiguresOf(e), RowsOf(e.ledger));
    PlainRow(FiguresOf(e), FiguresOf(e), RowsOf(e.ledger), row);
    BalancedMore(RowsOf(e.ledger), row);
    DatedMore(RowsOf(e.ledger), row, e.lastAt);
  }

  lemma FiguresHold(f: Figures, rows: seq<M.Event>)
    requires Bears(f, rows)
    ensures f.minCash <= f.equity - f.reserved && f.reserved <= f.peakReserved && 0.0 < f.peak && M.Gains(rows) == f.equity
    ensures f == f.(reserved := f.reserved, minCash := Min(f.minCash, f.equity - f.reserved),
                    peakReserved := Max(f.peakReserved, f.reserved))
  {
  }

  /** Two engines with the same ledger, clock and figures. */
  lemma SameFigures(e: Engine, d: Engine)
    requires Reconciled(e) && d.ledger == e.ledger && d.lastAt == e.lastAt && FiguresOf(d) == FiguresOf(e)
    ensures Reconciled(d)
  {
  }

  // ---- settlement ----------------------------------------------------------------------

  /** The figures and the row of one settlement that happens when it is due. */
  lemma SettleFigures(env: Env, e: Engine, at: int, id: int)
    requires id in e.live && e.live[id].settlementAt == at
    ensures var r := SettleOne(env, e, at, id);
            var row := M.Event(at, r.equity, r.reserved, r.equity - r.reserved, Some(r.equity - e.equity));
            && RowsOf(r.ledger) == RowsOf(e.ledger) + [row]
            && FiguresOf(r) == SettledFigures(FiguresOf(e), row) && r.lastAt == e.lastAt
  {
    hide Policy.Settle;
    hide Pnl;
    var p := e.live[id];
    RecordRows(Track(Realize(env, e, id), at), SettlementKind(e, id), p.settlementAt, id);
    hide RowsOf;
  }

  lemma SettleReconciles(env: Env, e: Engine, at: int, id: int)
    requires Reconciled(e) && id in e.live && e.live[id].settlementAt == at && e.lastAt == Some(at)
    ensures Reconciled(SettleOne(env, e, at, id)) && SettleOne(env, e, at, id).lastAt == Some(at)
  {
    hide RowsOf;
    hide Bears;
    hide Balanced;
    hide Dated;
    hide SettleOne;
    hide SettledFigures;
    var r := SettleOne(env, e, at, id);
    var row := M.Event(at, r.equity, r.reserved, r.equity - r.reserved, Some(r.equity - e.equity));
    SettleFigures(env, e, at, id);
    FiguresHold(FiguresOf(e), RowsOf(e.ledger));
    SettledRow(FiguresOf(e), RowsOf(e.ledger), row);
    BalancedMore(RowsOf(e.ledger), row);
    DatedMore(RowsOf(e.ledger), row, e.lastAt);
  }

  lemma {:induction false} SettleEachReconciles(env: Env, e: Engine, at: int, ids: seq<int>)
    requires Reconciled(e) && e.lastAt == Some(at) && Listed(ids, e.live)
    requires forall i :: 0 <= i < |ids| ==> e.live[ids[i]].settlementAt == at
    ensures Reconciled(SettleEach(env, e, at, ids)) && SettleEach(env, e, at, ids).lastAt == Some(at)
    ensures forall k :: k in SettleEach(env, e, at, ids).live ==> k in e.live && SettleEach(env, e, at, ids).live[k] == e.live[k]
  {
    hide Reconciled;
    hide SettleOne;
    if ids != [] {
      var last := |ids| - 1;
      ElementsLast(ids);
      SettleEachReconciles(env, e, at, ids[..last]);
      SettleReconciles(env, SettleEach(env, e, at, ids[..last]), at, ids[last]);
    }
  }

  /** What is due at a wake is due at this very instant. */
  lemma DueNow(env: Env, opps: Book, e: Engine, at: int, k: int)
    requires Inv(env, opps, e) && IsLeast(e.wakes, at) && k in DueRanks(Wake(e, at), at)
    ensures k in e.live && e.live[k].settlementAt == at
  {
    hide Cash;
    hide Books;
    assert e.live[k].settlementAt in e.wakes;
  }

  lemma AfterSettlementReconciles(env: Env, opps: Book, e: Engine, at: int)
    requires Reconciled(e) && Inv(env, opps, e) && IsLeast(e.wakes, at)
    ensures var r := AfterSettlement(env, Wake(e, at), at); Reconciled(r) && r.lastAt == Some(at)
  {
    WakeReconciles(env, opps, e, at);
    var w := Wake(e, at);
    var ids := Order(DueRanks(w, at));
    forall i | 0 <= i < |ids|
      ensures ids[i] in w.live && w.live[ids[i]].settlementAt == at
    {
      assert ids[i] in DueRanks(w, at);
      DueNow(env, opps, e, at, ids[i]);
    }
    hide Inv;
    hide Reconciled;
    hide SettleEach;
    SettleEachReconciles(env, w, at, ids);
  }

  lemma WakeReconciles(env: Env, opps: Book, e: Engine, at: int)
    requires Reconciled(e) && Inv(env, opps, e) && IsLeast(e.wakes, at)
    ensures Reconciled(Wake(e, at)) && Wake(e, at).lastAt == Some(at)
  {
    hide Cash;
    hide Books;
    hide Bears;
    hide Balanced;
    hide RowsOf;
  }

  // ---- everything else -----------------------------------------------------------------

  lemma DropReconciles(e: Engine, kind: Kind, status: Status, at: int, id: int)
    requires Reconciled(e) && e.lastAt == Some(at) && !kind.Settlement?
    ensures Reconciled(Drop(e, kind, status, at, id))
  {
    var d := e.(pending := e.pending - {id}, statuses := e.statuses[id := status]);
    SameFigures(e, d);
    hide Reconciled;
    QuietRecord(d, kind, at, id);
  }

  lemma {:induction false} DropEachReconciles(e: Engine, kind: Kind, status: Status, at: int, ids: seq<int>)
    requires Reconciled(e) && e.lastAt == Some(at) && !kind.Settlement?
    ensures Reconciled(DropEach(e, kind, status, at, ids)) && DropEach(e, kind, status, at, ids).lastAt == Some(at)
  {
    hide Reconciled;
    if ids != [] {
      var last := |ids| - 1;
      DropEachReconciles(e, kind, status, at, ids[..last]);
      DropReconciles(DropEach(e, kind, status, at, ids[..last]), kind, status, at, ids[last]);
    }
  }

  lemma HoldReconciles(e: Engine, wait: Wait, at: int, o: Wager)
    requires Reconciled(e) && e.lastAt == Some(at)
    ensures Reconciled(Hold(e, wait, at, o))
  {
    var d := e.(pending := e.pending[o.identity := o], statuses := e.statuses[o.identity := PendingCapacity]);
    SameFigures(e, d);
    hide Reconciled;
    QuietRecord(d, Waiting(wait), at, o.identity);
  }

  lemma OpenFigures(env: Env, e: Engine, at: int, o: Wager, request: StakeRequest)
    ensures var r := OpenOne(env, e, at, o, request);
            var row := M.Event(at, e.equity, r.reserved, e.equity - r.reserved, None);
            && RowsOf(r.ledger) == RowsOf(e.ledger) + [row] && r.lastAt == e.lastAt
            && FiguresOf(r) == FiguresOf(e).(reserved := r.reserved, minCash := Min(e.minCash, row.cash),
                                             peakReserved := Max(e.peakReserved, r.reserved))
  {
    RecordRows(Observe(Enlist(env, Commit(e, request), o, request)), Placement(request, env.SettlementAt(o)), at, o.identity);
    hide RowsOf;
  }

  lemma OpenReconciles(env: Env, e: Engine, at: int, o: Wager, request: StakeRequest)
    requires Reconciled(e) && e.lastAt == Some(at)
    ensures Reconciled(OpenOne(env, e, at, o, request)) && OpenOne(env, e, at, o, request).lastAt == Some(at)
  {
    hide RowsOf;
    hide Bears;
    hide Balanced;
    hide Dated;
    hide OpenOne;
    var r := OpenOne(env, e, at, o, request);
    var row := M.Event(at, e.equity, r.reserved, e.equity - r.reserved, None);
    OpenFigures(env, e, at, o, request);
    PlainRow(FiguresOf(e), FiguresOf(r), RowsOf(e.ledger), row);
    BalancedMore(RowsOf(e.ledger), row);
    DatedMore(RowsOf(e.ledger), row, e.lastAt);
  }

  lemma DecideReconciles(env: Env, e: Engine, at: int, o: Wager, request: StakeRequest)
    requires Reconciled(e) && e.lastAt == Some(at)
    ensures var r := Decide(env, e, at, o, request); Reconciled(r) && r.lastAt == Some(at)
  {
    hide OpenOne;
    if request.termination != Running {
      var d := e.(termination := request.termination);
      SameFigures(e, d);
      hide Reconciled;
      DropReconciles(d, PolicyStopped(request.termination), PolicyTermination, at, o.identity);
    } else if request.requested <= 0.0 || request.applied <= 0.0 {
      DropReconciles(e, NoStake, ZeroStake, at, o.identity);
      hide Reconciled;
    } else if request.requested > e.equity - e.reserved {
      HoldReconciles(e, InsufficientCash(request), at, o);
      hide Reconciled;
    } else {
      OpenReconciles(env, e, at, o, request);
      hide Reconciled;
    }
  }

  lemma PlaceReconciles(env: Env, e: Engine, at: int, o: Wager, request: StakeRequest)
    requires Reconciled(e) && e.lastAt == Some(at)
    ensures var r := PlaceWith(env, e, at, o, request); Reconciled(r) && r.lastAt == Some(at)
  {
    hide Reconciled;
    hide Decide;
    var noted := NoteRetry(e, at, o);
    if o.identity in e.pending { QuietRecord(e, Retry, at, o.identity); }
    if e.termination != Running {
      DropReconciles(e, Terminated(e.termination), PathTerminated, at, o.identity);
    } else if o.kickoff <= at {
      DropReconciles(e, Expiry, ExpiredCapacity, at, o.identity);
    } else if |e.live| >= env.maxLanes {
      HoldReconciles(noted, NoAvailableLane, at, o);
    } else {
      QuietRecord(noted, Requested(request), at, o.identity);
      DecideReconciles(env, Record(noted, Requested(request), at, o.identity), at, o, request);
    }
  }

  lemma {:induction false} PlaceEachReconciles(env: Env, e: Engine, at: int, merged: map<int, Wager>, ids: seq<int>)
    requires Reconciled(e) && e.lastAt == Some(at) && Listed(ids, merged)
    ensures var r := PlaceEach(env, e, at, merged, ids); Reconciled(r) && r.lastAt == Some(at)
  {
    hide Reconciled;
    hide PlaceWith;
    hide RequestFor;
    if ids != [] {
      var last := |ids| - 1;
      PlaceEachReconciles(env, e, at, merged, ids[..last]);
      var d := PlaceEach(env, e, at, merged, ids[..last]);
      PlaceReconciles(env, d, at, merged[ids[last]], RequestFor(env, d, merged[ids[last]]));
    }
  }

  lemma StepReconciles(env: Env, opps: Book, e: Engine, at: int, arrivals: Book)
    requires Reconciled(e) && Inv(env, opps, e) && IsLeast(e.wakes, at)
    ensures Reconciled(Step(env, e, at, arrivals))
  {
    hide Reconciled;
    hide Inv;
    hide DropEach;
    hide PlaceEach;
    hide AfterSettlement;
    hide Merged;
    hide Wake;
    AfterSettlementReconciles(env, opps, e, at);
    var s := AfterSettlement(env, Wake(e, at), at);
    DropEachReconciles(s, Expiry, ExpiredCapacity, at, Order(ExpiryRanks(s, at)));
    var x := AfterExpiry(s, at);
    DropEachReconciles(x, NoBetSeen, NotBet, at, Order(SkipRanks(arrivals)));
    var b := AfterSkips(x, at, arrivals);
    PlaceEachReconciles(env, b, at, Merged(b, arrivals), Order(BetRanks(Merged(b, arrivals))));
    var p := AfterPlacement(env, b, at, arrivals);
    DropEachReconciles(p, Terminated(p.termination), PathTerminated, at, Order(IdentityRanks(p.pending)));
  }

  lemma StartReconciles(env: Env, opps: Book)
    ensures Reconciled(Start(env, opps))
  {
    hide Policy.InitialState;
    assert RowsOf([]) == [];
  }

  /** After any number of wakes the ledger bears out every figure. */
  lemma {:induction false} PlayReconciles(env: Env, opps: Book, n: nat)
    requires env.Valid() && Keyed(opps)
    ensures Reconciled(Play(env, opps, n))
  {
    hide Reconciled;
    hide Inv;
    hide Step;
    hide Start;
    if n == 0 {
      StartReconciles(env, opps);
    } else {
      PlayReconciles(env, opps, n - 1);
      PlayInv(env, opps, n - 1);
      var e := Play(env, opps, n - 1);
      if Awake(e) { StepReconciles(env, opps, e, Least(e.wakes), Arrivals(opps, Least(e.wakes))); }
    }
  }

  // ---- the end of a path ---------------------------------------------------------------

  /** The clock of the audit may run ahead of the last row. */
  lemma LaterClock(f: Figures, rows: seq<M.Event>, lastAt: Option<int>, later: int)
    requires Sound(f, rows, lastAt) && (lastAt.Some? ==> lastAt.value <= later)
    ensures Sound(f, rows, Some(later))
  {
    hide Bears;
    hide Balanced;
  }

  lemma LateReconciles(e: Engine, id: int, clock: Option<int>)
    requires id in e.pending && Sound(FiguresOf(e), RowsOf(e.ledger), clock)
    requires clock.Some? ==> clock.value <= e.pending[id].kickoff
    ensures var r := ExpireLate(e, id); Sound(FiguresOf(r), RowsOf(r.ledger), Some(e.pending[id].kickoff))
  {
    var d := e.(statuses := e.statuses[id := ExpiredCapacity], lastAt := Some(e.pending[id].kickoff));
    LaterClock(FiguresOf(e), RowsOf(e.ledger), clock, e.pending[id].kickoff);
    QuietRecord(d, Expiry, e.pending[id].kickoff, id);
    hide Sound;
  }

  function LastKickoff(e: Engine, ids: seq<int>, clock: Option<int>): Option<int>
    requires forall i :: 0 <= i < |ids| ==> ids[i] in e.pending
  {
    if ids == [] then clock else Some(e.pending[ids[|ids| - 1]].kickoff)
  }

  lemma {:induction false} LateEachReconciles(e: Engine, ids: seq<int>, clock: Option<int>)
    requires forall i :: 0 <= i < |ids| ==> ids[i] in e.pending && (clock.Some? ==> clock.value <= e.pending[ids[i]].kickoff)
    requires forall i, j :: 0 <= i < j < |ids| ==> e.pending[ids[i]].kickoff <= e.pending[ids[j]].kickoff
    requires Sound(FiguresOf(e), RowsOf(e.ledger), clock)
    ensures var r := ExpireLateEach(e, ids);
            Sound(FiguresOf(r), RowsOf(r.ledger), LastKickoff(e, ids, clock)) && FiguresOf(r) == FiguresOf(e)
  {
    hide Sound;
    hide RowsOf;
    if ids != [] {
      var last := |ids| - 1;
      LateEachReconciles(e, ids[..last], clock);
      LateReconciles(ExpireLateEach(e, ids[..last]), ids[last], LastKickoff(e, ids[..last], clock));
    }
  }

  lemma LateExpiryReconciles(env: Env, opps: Book, e: Engine) returns (clock: Option<int>)
    requires Reconciled(e) && Inv(env, opps, e)
    ensures var r := LateExpiry(e); Sound(FiguresOf(r), RowsOf(r.ledger), clock) && FiguresOf(r) == FiguresOf(e)
  {
    hide Cash;
    hide Books;
    hide Clock;
    hide Scheduled;
    hide RowsOf;
    hide Sound;
    var ranks, ids := FinalRanks(e), Order(FinalRanks(e));
    forall i | 0 <= i < |ids|
      ensures ids[i] in e.pending && ranks[ids[i]].instant == e.pending[ids[i]].kickoff
      ensures e.lastAt.Some? && e.lastAt.value <= e.pending[ids[i]].kickoff
    {
      assert ids[i] in ranks;
    }
    forall i, j | 0 <= i < j < |ids|
      ensures e.pending[ids[i]].kickoff <= e.pending[ids[j]].kickoff
    {
      assert Before(ranks[ids[i]], ids[i], ranks[ids[j]], ids[j]);
    }
    hide Inv;
    hide ExpireLateEach;
    LateEachReconciles(e, ids, e.lastAt);
    clock := LastKickoff(e, ids, e.lastAt);
  }

  // ---- the audit -----------------------------------------------------------------------

  /** Rows in order of time are their own chronology. */
  lemma OwnChronology(rows: seq<M.Event>)
    requires M.InOrder(rows)
    ensures M.Chronology(rows) == rows
  {
    var ids := seq(|rows|, i requires 0 <= i < |rows| => i);
    var ranks := M.Instants(rows);
    forall i, j | 0 <= i < j < |ids|
      ensures Before(ranks[ids[i]], ids[i], ranks[ids[j]], ids[j])
    {
      assert rows[i].at <= rows[j].at;
    }
    forall k | k in ranks
      ensures k in ids
    {
      assert ids[k] == k;
    }
    OrderUnique(ranks, ids);
  }

  predicate Within(rows: seq<M.Event>, start: int, end: int) {
    forall i :: 0 <= i < |rows| ==> start <= rows[i].at <= end
  }

  lemma BalancedPrefix(rows: seq<M.Event>)
    requires Balanced(rows) && rows != []
    ensures Balanced(rows[..|rows| - 1])
  {
    var before := rows[..|rows| - 1];
    forall i | 0 <= i < |before|
      ensures before[i] == rows[i] && before[..i + 1] == rows[..i + 1]
    {
    }
    hide M.Gains;
  }

  /** Balanced rows have no flaw but an instant outside the horizon. */
  lemma {:induction false} BalancedFlawless(rows: seq<M.Event>, start: int, end: int)
    requires Balanced(rows)
    ensures M.FirstFlaw(rows, start, end) == if Within(rows, start, end) then None else Some(M.EventOutsideHorizon)
  {
    if rows != [] {
      var last := |rows| - 1;
      BalancedPrefix(rows);
      BalancedFlawless(rows[..last], start, end);
      assert rows[..last] + [rows[last]] == rows == rows[..last + 1];
      assert forall i :: 0 <= i < last ==> rows[..last][i] == rows[i];
    }
  }

  /** An underwater spell was opened by a row. */
  lemma SpellDated(e: Engine)
    requires Reconciled(e)
    ensures e.underwaterAt.Some? ==> e.lastAt.Some?
  {
    if RowsOf(e.ledger) == [] { assert M.RiskOf(RowsOf(e.ledger)).since.None?; }
    hide RowsOf;
    hide M.Seen;
  }

  /** The end of a path as its figures and its rows show it. */
  lemma PathSound(env: Env, opps: Book) returns (clock: Option<int>)
    requires env.Valid() && Keyed(opps)
    ensures var e, last := Path(env, opps), Play(env, opps, Bound(opps));
            && Sound(FiguresOf(last), RowsOf(e.ledger), clock) && e.lastAt == last.lastAt && last.underwaterAt == e.underwaterAt
            && FiguresOf(e) == FiguresOf(last).(duration := e.maxUnderwater)
            && e.maxUnderwater == FinalFrom(last, e.lastAt) && (e.underwaterAt.Some? ==> e.lastAt.Some?)
  {
    hide Inv;
    hide Sound;
    hide Reconciled;
    hide RowsOf;
    hide LateExpiry;
    hide Play;
    var e := Play(env, opps, Bound(opps));
    PlayReconciles(env, opps, Bound(opps));
    PlayInv(env, opps, Bound(opps));
    SpellDated(e);
    clock := LateExpiryReconciles(env, opps, e);
    EventCompletion.LateStatuses(e);
  }

  /** The underwater time of an ended path, which closes an open spell at its last wake. */
  function FinalFrom(e: Engine, lastAt: Option<int>): int {
    if e.underwaterAt.Some? && lastAt.Some? then M.Longer(e.maxUnderwater, lastAt.value - e.underwaterAt.value) else e.maxUnderwater
  }

  /** A report taken from figures that the rows bear out differs in the duration alone, if at all. */
  lemma AuditOf(f: Figures, rows: seq<M.Event>, terminal: int, original: M.Reported)
    requires Bears(f, rows) && original == M.Reported(f.equity, M.ReturnOf(f.equity), f.drawdown, original.duration, f.peakReserved, f.minCash)
    ensures M.Mismatch(rows, terminal, original) ==
            if M.FinalDuration(M.RiskOf(rows), terminal) == original.duration then None else Some(M.DurationReconciliation)
    ensures M.RiskOf(rows).since == f.since && M.RiskOf(rows).duration == f.duration
  {
    hide M.RiskOf;
    hide M.ReturnOf;
  }

  /**
    Every trace passes its own audit: inside the horizon no row is wrong, and no
    figure of the report fails to reconcile, unless the audit closes an open
    underwater spell at another instant than the last wake, and only the
    duration then.
   */
  lemma TracePasses(env: Env, opps: Book, start: int, days: nat, terminal: int)
    requires env.Valid() && Keyed(opps) && 0 < days
    ensures var e := Path(env, opps);
            var rows := RowsOf(e.ledger);
            var x := M.RiskOf(rows);
            && M.Chronology(rows) == rows
            && M.FirstFlaw(rows, start, M.EndOf(start, days)) ==
               (if Within(rows, start, M.EndOf(start, days)) then None else Some(M.EventOutsideHorizon))
            && (x.since.Some? ==> e.lastAt.Some?)
            && (M.Mismatch(rows, terminal, ReportedBy(e)) ==
                if x.since.None? || M.FinalDuration(x, terminal) == M.FinalDuration(x, e.lastAt.value) then None
                else Some(M.DurationReconciliation))
  {
    hide Path;
    hide Play;
    hide RowsOf;
    hide Bears;
    hide M.RiskOf;
    hide M.Mismatch;
    hide Within;
    hide M.Chronology;
    hide M.FirstFlaw;
    hide M.EndOf;
    hide M.InOrder;
    var clock := PathSound(env, opps);
    var e, last := Path(env, opps), Play(env, opps, Bound(opps));
    var rows := RowsOf(e.ledger);
    OwnChronology(rows);
    BalancedFlawless(rows, start, M.EndOf(start, days));
    AuditOf(FiguresOf(last), rows, terminal, ReportedBy(e));
  }
}

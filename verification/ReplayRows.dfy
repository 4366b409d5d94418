/** What the ledger of a replay records of every batch, slot by slot. */
module ReplayRows {
  import opened Common
  import opened Policies
  import opened Decisions
  import opened Replay

  /** What the policy asks for a slot of the batch that comes next. */
  ghost predicate Asks(p: Policy, run: Run, slot: Option<Bet>, q: StakeRequest) {
    if slot.Some? then q == p.Request(slot.value.price, slot.value.probability, run.bankroll, run.state)
    else q == StakeRequest(0.0, 0.0, NoBet, false, 0.0, Running, None, None)
  }

  /** All that the policy asks for a batch. */
  function Asked(p: Policy, run: Run, slots: Slots): real {
    if slots == [] then 0.0
    else
      var last := slots[|slots| - 1];
      Asked(p, run, slots[..|slots| - 1]) +
      if last.Some? then p.Request(last.value.price, last.value.probability, run.bankroll, run.state).requested else 0.0
  }

  ghost predicate GivesUp(p: Policy, run: Run, slots: Slots) {
    exists i, q :: 0 <= i < |slots| && slots[i].Some? && Asks(p, run, slots[i], q) && q.termination != Running
  }

  /** What every row of a batch says, whatever became of it. */
  predicate Stands(run: Run, slot: Option<Bet>, row: Row) {
    && row.batch == run.batches + 1 && row.before == run.bankroll
    && (row.isBet <==> slot.Some?) && (row.won <==> slot.Some? && slot.value.won)
  }

  /** The policy gave up: the request stands as asked, and nothing moved. */
  ghost predicate RowStopped(p: Policy, run: Run, slot: Option<Bet>, row: Row) {
    && Stands(run, slot, row) && Asks(p, run, slot, row.request)
    && row.after == run.bankroll && row.pnl == 0.0 && !row.ruin && row.state == run.state
  }

  /** The batch was not covered: nothing is staked, what would have been is added to the shortfall, and every bet tells ruin. */
  ghost predicate RowUnfunded(p: Policy, run: Run, slot: Option<Bet>, row: Row) {
    && Stands(run, slot, row)
    && (exists q :: Asks(p, run, slot, q) &&
          row.request == q.(applied := 0.0, shortfall := q.shortfall + q.applied, termination := InsufficientCapital))
    && row.after == run.bankroll && row.pnl == 0.0 && row.ruin == slot.Some? && row.state == run.state
  }

  /** A won stake earns its odds, a lost one is gone, and without a bet nothing moves. */
  predicate Pays(slot: Option<Bet>, q: StakeRequest, pnl: real) {
    if slot.None? then pnl == 0.0
    else if slot.value.won then pnl == q.applied * (slot.value.price - 1.0)
    else pnl == -q.applied
  }

  /** The batch was settled: the policy learns the result of every bet, and the replay is over if nothing is left. */
  ghost predicate RowSettled(p: Policy, run: Run, slot: Option<Bet>, after: real, before: PolicyState, row: Row) {
    var q := row.request.(termination := Running);
    && Stands(run, slot, row) && row.after == after && (row.ruin <==> after <= 0.0 && slot.Some?)
    && row.request.termination == (if row.ruin then BankrollDepleted else Running)
    && Asks(p, run, slot, q) && Pays(slot, q, row.pnl)
    && row.state == (if slot.None? then before else p.Settle(before, q, slot.value.won).0)
  }

  // ---- the three ends of a batch ---------------------------------------------------------

  lemma SlotAsks(p: Policy, run: Run, slots: Slots, i: nat)
    requires i < |slots|
    ensures Asks(p, run, slots[i], Requests(p, run.bankroll, run.state, slots)[i].GetOr(ZeroRequest))
    ensures Requests(p, run.bankroll, run.state, slots)[i].Some? == slots[i].Some?
  {
    hide Policy.Request;
  }

  lemma StopsMeans(p: Policy, run: Run, slots: Slots)
    ensures Stops(Requests(p, run.bankroll, run.state, slots)) <==> GivesUp(p, run, slots)
  {
    hide Policy.Request;
    var requests := Requests(p, run.bankroll, run.state, slots);
    forall i | 0 <= i < |slots|
      ensures Asks(p, run, slots[i], requests[i].GetOr(ZeroRequest)) && requests[i].Some? == slots[i].Some?
    {
      SlotAsks(p, run, slots, i);
    }
    if GivesUp(p, run, slots) {
      var i, q :| 0 <= i < |slots| && slots[i].Some? && Asks(p, run, slots[i], q) && q.termination != Running;
      assert requests[i] == Some(q);
    }
    if Stops(requests) {
      var i :| 0 <= i < |requests| && requests[i].Some? && requests[i].value.termination != Running;
      assert Asks(p, run, slots[i], requests[i].value);
    }
  }

  lemma {:induction false} ExposureMeans(p: Policy, run: Run, slots: Slots)
    ensures Exposure(Requests(p, run.bankroll, run.state, slots)) == Asked(p, run, slots)
  {
    hide Policy.Request;
    if slots != [] {
      var last := |slots| - 1;
      ExposureMeans(p, run, slots[..last]);
      var requests := Requests(p, run.bankroll, run.state, slots);
      assert requests[..last] == Requests(p, run.bankroll, run.state, slots[..last]);
    }
  }

  /** The rows that a batch adds. */
  ghost predicate Adds(run: Run, next: Run, rows: seq<Row>) {
    next.ledger == run.ledger + rows && next.batches == run.batches + 1
  }

  lemma BatchStopped(p: Policy, run: Run, slots: Slots) returns (rows: seq<Row>)
    requires !run.terminated && GivesUp(p, run, slots)
    ensures var next := ReplayBatch(p, run, slots);
            && Adds(run, next, rows) && |rows| == |slots|
            && (forall i :: 0 <= i < |rows| ==> RowStopped(p, run, slots[i], rows[i]))
            && next.terminated && next.bankroll == run.bankroll && next.state == run.state
            && next.lengths == run.lengths && next.incomplete == run.incomplete
  {
    hide Policy.Request;
    hide Requests;
    hide Stops;
    hide GivesUp;
    hide Asks;
    StopsMeans(p, run, slots);
    rows := StopRows(run, slots, Requests(p, run.bankroll, run.state, slots));
    forall i | 0 <= i < |rows|
      ensures RowStopped(p, run, slots[i], rows[i])
    {
      SlotAsks(p, run, slots, i);
    }
  }

  lemma BatchUnfunded(p: Policy, run: Run, slots: Slots) returns (rows: seq<Row>)
    requires !run.terminated && !GivesUp(p, run, slots) && Asked(p, run, slots) > run.bankroll
    ensures var next := ReplayBatch(p, run, slots);
            && Adds(run, next, rows) && |rows| == |slots|
            && (forall i :: 0 <= i < |rows| ==> RowUnfunded(p, run, slots[i], rows[i]))
            && next.terminated && next.bankroll == run.bankroll && next.state == run.state
            && next.lengths == run.lengths && next.incomplete == run.incomplete
  {
    hide Policy.Request;
    hide Requests;
    hide Stops;
    hide Exposure;
    hide Asked;
    hide GivesUp;
    hide Asks;
    StopsMeans(p, run, slots);
    ExposureMeans(p, run, slots);
    rows := UnfundedRows(run, slots, Requests(p, run.bankroll, run.state, slots));
    forall i | 0 <= i < |rows|
      ensures RowUnfunded(p, run, slots[i], rows[i])
    {
      SlotAsks(p, run, slots, i);
      var q := Requests(p, run.bankroll, run.state, slots)[i].GetOr(ZeroRequest);
      assert Asks(p, run, slots[i], q);
    }
  }

  /** The profit and loss of rows. */
  function Sum(rows: seq<Row>): real {
    if rows == [] then 0.0 else Sum(rows[..|rows| - 1]) + rows[|rows| - 1].pnl
  }

  /** Won bets that closed a sequence although they had been capped. */
  function CappedWins(rows: seq<Row>): nat {
    if rows == [] then 0
    else
      var last := rows[|rows| - 1];
      CappedWins(rows[..|rows| - 1])
      + if last.isBet && last.won && last.request.step.Some? && last.request.capHit && 0.0 < last.request.shortfall then 1 else 0
  }

  /** The memory in front of the i-th slot. */
  function MemoryBefore(run: Run, rows: seq<Row>, i: nat): PolicyState
    requires i <= |rows|
  {
    if i == 0 then run.state else rows[i - 1].state
  }

  /** One settled slot, with the memory in front of it. */
  ghost predicate Booked(p: Policy, run: Run, slot: Option<Bet>, before: PolicyState, e: Entry) {
    && Asks(p, run, slot, e.request)
    && Pays(slot, e.request, e.pnl) && e.request.termination == Running
    && e.state == (if slot.None? then before else p.Settle(before, e.request, slot.value.won).0)
  }

  function Front(run: Run, entries: seq<Entry>, i: nat): PolicyState
    requires i <= |entries|
  {
    if i == 0 then run.state else entries[i - 1].state
  }

  function SumEntries(entries: seq<Entry>): real {
    if entries == [] then 0.0 else SumEntries(entries[..|entries| - 1]) + entries[|entries| - 1].pnl
  }

  function CappedEntries(slots: Slots, entries: seq<Entry>): nat
    requires |slots| == |entries|
  {
    if slots == [] then 0
    else
      var last := |slots| - 1;
      var r := entries[last].request;
      CappedEntries(slots[..last], entries[..last])
      + if slots[last].Some? && slots[last].value.won && r.step.Some? && r.capHit && 0.0 < r.shortfall then 1 else 0
  }

  lemma SlotBooked(p: Policy, run: Run, s: Settling, slot: Option<Bet>, q: Option<StakeRequest>)
    requires slot.Some? == q.Some? && Asks(p, run, slot, q.GetOr(ZeroRequest)) && q.GetOr(ZeroRequest).termination == Running
    requires slot.Some? ==> (q.value.step.Some? <==> p.IsRecovery() && s.state.Recovery?)
    ensures var d := SettleSlot(p, s, slot, q);
            && |d.entries| == |s.entries| + 1 && d.entries[..|s.entries|] == s.entries
            && var e := d.entries[|s.entries|];
               && Booked(p, run, slot, s.state, e) && d.state == e.state && d.pnl == s.pnl + e.pnl
               && e.request == q.GetOr(ZeroRequest)
               && d.incomplete == s.incomplete + if slot.Some? && slot.value.won && e.request.step.Some?
                                                    && e.request.capHit && 0.0 < e.request.shortfall then 1 else 0
  {
    hide Asks;
  }

  lemma StepsAre(p: Policy, bet: Bet, bankroll: real, state: PolicyState)
    ensures p.Request(bet.price, bet.probability, bankroll, state).step.Some? <==> p.IsRecovery()
  {
  }

  lemma AllRunning(p: Policy, run: Run, slots: Slots, i: nat)
    requires i < |slots| && !GivesUp(p, run, slots)
    ensures Requests(p, run.bankroll, run.state, slots)[i].GetOr(ZeroRequest).termination == Running
    ensures !GivesUp(p, run, slots[..|slots| - 1])
  {
    hide Policy.Request;
    SlotAsks(p, run, slots, i);
    hide Asks;
    hide Requests;
    var front := slots[..|slots| - 1];
    assert forall k :: 0 <= k < |front| ==> front[k] == slots[k];
  }

  /** What is known of a batch settled as far as some slot. */
  ghost predicate AllBooked(p: Policy, run: Run, slots: Slots, s: Settling) {
    && |s.entries| == |slots| && s.pnl == SumEntries(s.entries) && s.state == Front(run, s.entries, |slots|)
    && (s.state.Recovery? <==> p.IsRecovery())
    && s.incomplete == run.incomplete + CappedEntries(slots, s.entries)
    && forall i :: 0 <= i < |slots| ==> Booked(p, run, slots[i], Front(run, s.entries, i), s.entries[i])
  }

  lemma {:induction false} EntriesBooked(p: Policy, run: Run, slots: Slots)
    requires (run.state.Recovery? <==> p.IsRecovery()) && !GivesUp(p, run, slots)
    ensures AllBooked(p, run, slots, SettleSlots(p, run, slots, Requests(p, run.bankroll, run.state, slots)))
  {
    hide SettleSlot;
    hide GivesUp;
    hide AllBooked;
    hide Policy.Request;
    if slots == [] {
      NoneBooked(p, run);
    } else {
      var last := |slots| - 1;
      AllRunning(p, run, slots, last);
      EntriesBooked(p, run, slots[..last]);
      var requests := Requests(p, run.bankroll, run.state, slots);
      assert requests[..last] == Requests(p, run.bankroll, run.state, slots[..last]);
      SlotAsks(p, run, slots, last);
      StepBooked(p, run, slots, SettleSlots(p, run, slots[..last], requests[..last]), requests[last]);
    }
  }

  lemma NoneBooked(p: Policy, run: Run)
    requires run.state.Recovery? <==> p.IsRecovery()
    ensures AllBooked(p, run, [], Settling(run.state, 0.0, run.lengths, run.incomplete, []))
  {
  }

  lemma StepBooked(p: Policy, run: Run, slots: Slots, s: Settling, q: Option<StakeRequest>)
    requires slots != [] && AllBooked(p, run, slots[..|slots| - 1], s)
    requires var slot := slots[|slots| - 1];
             slot.Some? == q.Some? && Asks(p, run, slot, q.GetOr(ZeroRequest)) && q.GetOr(ZeroRequest).termination == Running
    ensures AllBooked(p, run, slots, SettleSlot(p, s, slots[|slots| - 1], q))
  {
    var slot := slots[|slots| - 1];
    AskedSteps(p, run, slot, q.GetOr(ZeroRequest));
    hide Asks;
    hide Booked;
    SlotBooked(p, run, s, slot, q);
    SlotState(p, s, slot, q);
    hide SettleSlot;
    var d := SettleSlot(p, s, slot, q);
    MoreBooked(p, run, slots, s.entries, d.entries, s.state);
    hide Front;
  }

  lemma AskedSteps(p: Policy, run: Run, slot: Option<Bet>, q: StakeRequest)
    requires Asks(p, run, slot, q)
    ensures slot.Some? ==> (q.step.Some? <==> p.IsRecovery())
  {
    if slot.Some? { StepsAre(p, slot.value, run.bankroll, run.state); }
    hide Policy.Request;
  }

  lemma MoreBooked(p: Policy, run: Run, slots: Slots, few: seq<Entry>, entries: seq<Entry>, state: PolicyState)
    requires slots != [] && |few| == |slots| - 1 && |entries| == |slots| && entries[..|few|] == few && state == Front(run, few, |few|)
    requires forall i :: 0 <= i < |few| ==> Booked(p, run, slots[i], Front(run, few, i), few[i])
    requires Booked(p, run, slots[|few|], state, entries[|few|])
    ensures forall i :: 0 <= i < |slots| ==> Booked(p, run, slots[i], Front(run, entries, i), entries[i])
    ensures Front(run, entries, |slots|) == entries[|few|].state
  {
    hide Booked;
    forall i | 0 <= i < |slots|
      ensures Booked(p, run, slots[i], Front(run, entries, i), entries[i])
    {
      assert i > 0 ==> entries[i - 1] == few[i - 1];
      if i < |few| { assert entries[i] == few[i]; }
    }
  }

  lemma SlotState(p: Policy, s: Settling, slot: Option<Bet>, q: Option<StakeRequest>)
    requires s.state.Recovery? <==> p.IsRecovery()
    ensures SettleSlot(p, s, slot, q).state.Recovery? <==> p.IsRecovery()
  {
  }

  lemma {:induction false} RowsSum(run: Run, slots: Slots, s: Settling, n: nat)
    requires |s.entries| == |slots| && n <= |slots|
    ensures var rows := SettledRows(run, slots, s);
            |rows| == |slots| && Sum(rows[..n]) == SumEntries(s.entries[..n])
            && CappedWins(rows[..n]) == CappedEntries(slots[..n], s.entries[..n])
  {
    if n > 0 {
      RowsSum(run, slots, s, n - 1);
      var rows := SettledRows(run, slots, s);
      assert rows[..n][..n - 1] == rows[..n - 1];
      assert s.entries[..n][..n - 1] == s.entries[..n - 1] && slots[..n][..n - 1] == slots[..n - 1];
    }
  }

  /** A batch that is covered settles as a whole: every bet from the bankroll in front of it, the memory passing from slot to slot. */
  lemma BatchSettled(p: Policy, run: Run, slots: Slots) returns (rows: seq<Row>)
    requires !run.terminated && !GivesUp(p, run, slots) && Asked(p, run, slots) <= run.bankroll
    requires run.state.Recovery? <==> p.IsRecovery()
    ensures var next := ReplayBatch(p, run, slots);
            && Adds(run, next, rows) && |rows| == |slots|
            && (forall i :: 0 <= i < |rows| ==>
                  RowSettled(p, run, slots[i], run.bankroll + Sum(rows), MemoryBefore(run, rows, i), rows[i]))
            && next.bankroll == run.bankroll + Sum(rows) && (next.terminated <==> next.bankroll <= 0.0)
            && next.state == MemoryBefore(run, rows, |rows|) && next.incomplete == run.incomplete + CappedWins(rows)
            && (next.state.Recovery? <==> p.IsRecovery())
  {
    hide GivesUp;
    hide Booked;
    hide Sum;
    hide SumEntries;
    hide CappedWins;
    hide CappedEntries;
    hide SettleSlots;
    hide Requests;
    hide SettledRows;
    hide RowSettled;
    hide Asked;
    var s := SettlesWhole(p, run, slots);
    EntriesBooked(p, run, slots);
    rows := SettledRows(run, slots, s);
    RowsSum(run, slots, s, |slots|);
    assert rows[..|slots|] == rows && s.entries[..|slots|] == s.entries && slots[..|slots|] == slots;
    RowsSettled(p, run, slots, s, rows);
    hide ReplayBatch;
    hide Front;
    hide MemoryBefore;
  }

  lemma SettlesWhole(p: Policy, run: Run, slots: Slots) returns (s: Settling)
    requires !run.terminated && !GivesUp(p, run, slots) && Asked(p, run, slots) <= run.bankroll
    ensures s == SettleSlots(p, run, slots, Requests(p, run.bankroll, run.state, slots))
    ensures ReplayBatch(p, run, slots) ==
            Run(run.bankroll + s.pnl, s.state, run.ledger + SettledRows(run, slots, s), run.batches + 1,
                s.lengths, s.incomplete, run.bankroll + s.pnl <= 0.0)
  {
    hide GivesUp;
    hide Stops;
    hide Exposure;
    hide Requests;
    hide SettleSlots;
    hide SettledRows;
    hide Asked;
    StopsMeans(p, run, slots);
    ExposureMeans(p, run, slots);
    s := SettleSlots(p, run, slots, Requests(p, run.bankroll, run.state, slots));
  }

  lemma SameMemory(run: Run, slots: Slots, s: Settling, i: nat)
    requires |s.entries| == |slots| && i <= |slots|
    ensures |SettledRows(run, slots, s)| == |slots|
    ensures MemoryBefore(run, SettledRows(run, slots, s), i) == Front(run, s.entries, i)
  {
  }

  lemma RowIs(run: Run, slots: Slots, s: Settling, i: nat)
    requires |s.entries| == |slots| && i < |slots|
    ensures var ruin, after, e := run.bankroll + s.pnl <= 0.0 && slots[i].Some?, run.bankroll + s.pnl, s.entries[i];
            SettledRows(run, slots, s)[i] ==
            Row(run.batches + 1, if ruin then e.request.(termination := BankrollDepleted) else e.request,
                run.bankroll, after, e.pnl, slots[i].Some?, Won(slots[i]), ruin, e.state)
  {
  }

  lemma RowsSettled(p: Policy, run: Run, slots: Slots, s: Settling, rows: seq<Row>)
    requires |s.entries| == |slots| && rows == SettledRows(run, slots, s)
    requires forall i :: 0 <= i < |slots| ==> Booked(p, run, slots[i], Front(run, s.entries, i), s.entries[i])
    ensures |rows| == |slots| && forall i :: 0 <= i < |rows| ==>
              RowSettled(p, run, slots[i], run.bankroll + s.pnl, MemoryBefore(run, rows, i), rows[i])
    ensures MemoryBefore(run, rows, |rows|) == Front(run, s.entries, |slots|)
  {
    hide Booked;
    hide RowSettled;
    hide SettledRows;
    hide MemoryBefore;
    hide Front;
    SameMemory(run, slots, s, |slots|);
    forall i | 0 <= i < |rows|
      ensures RowSettled(p, run, slots[i], run.bankroll + s.pnl, MemoryBefore(run, rows, i), rows[i])
    {
      SameMemory(run, slots, s, i);
      RowIs(run, slots, s, i);
      assert Booked(p, run, slots[i], Front(run, s.entries, i), s.entries[i]);
      RowOfEntry(p, run, slots[i], run.bankroll + s.pnl, MemoryBefore(run, rows, i), s.entries[i], rows[i]);
    }
  }

  lemma RowOfEntry(p: Policy, run: Run, slot: Option<Bet>, after: real, before: PolicyState, e: Entry, row: Row)
    requires Booked(p, run, slot, before, e)
    requires var ruin := after <= 0.0 && slot.Some?;
             row == Row(run.batches + 1, if ruin then e.request.(termination := BankrollDepleted) else e.request,
                        run.bankroll, after, e.pnl, slot.Some?, Won(slot), ruin, e.state)
    ensures RowSettled(p, run, slot, after, before, row)
  {
    hide Policy.Settle;
    hide Asks;
    hide Pays;
    assert e.request.(termination := BankrollDepleted).(termination := Running) == e.request;
  }

  // ---- every batch of a replay -----------------------------------------------------------

  /** The three ends of a batch: given up, not covered, or settled together. */
  ghost predicate BatchTells(p: Policy, run: Run, slots: Slots, next: Run, rows: seq<Row>) {
    && Adds(run, next, rows) && |rows| == |slots|
    && if GivesUp(p, run, slots) then
         next.terminated && next.bankroll == run.bankroll && next.state == run.state
         && forall i :: 0 <= i < |rows| ==> RowStopped(p, run, slots[i], rows[i])
       else if Asked(p, run, slots) > run.bankroll then
         next.terminated && next.bankroll == run.bankroll && next.state == run.state
         && forall i :: 0 <= i < |rows| ==> RowUnfunded(p, run, slots[i], rows[i])
       else
         && next.bankroll == run.bankroll + Sum(rows) && (next.terminated <==> next.bankroll <= 0.0)
         && next.state == MemoryBefore(run, rows, |rows|) && next.incomplete == run.incomplete + CappedWins(rows)
         && forall i :: 0 <= i < |rows| ==>
              RowSettled(p, run, slots[i], next.bankroll, MemoryBefore(run, rows, i), rows[i])
  }

  lemma BatchEnds(p: Policy, run: Run, slots: Slots) returns (rows: seq<Row>)
    requires !run.terminated && (run.state.Recovery? <==> p.IsRecovery())
    ensures BatchTells(p, run, slots, ReplayBatch(p, run, slots), rows)
    ensures ReplayBatch(p, run, slots).state.Recovery? <==> p.IsRecovery()
  {
    hide GivesUp;
    hide RowStopped;
    hide RowUnfunded;
    hide RowSettled;
    hide MemoryBefore;
    hide Asked;
    hide Sum;
    hide CappedWins;
    hide ReplayBatch;
    if GivesUp(p, run, slots) {
      rows := BatchStopped(p, run, slots);
    } else if Asked(p, run, slots) > run.bankroll {
      rows := BatchUnfunded(p, run, slots);
    } else {
      rows := BatchSettled(p, run, slots);
    }
  }

  lemma {:induction false} MemoryKind(p: Policy, initial: real, batches: seq<Slots>)
    ensures ReplayAll(p, initial, batches).state.Recovery? <==> p.IsRecovery()
  {
    hide ReplayBatch;
    if batches != [] {
      var run := ReplayAll(p, initial, batches[..|batches| - 1]);
      MemoryKind(p, initial, batches[..|batches| - 1]);
      if run.terminated {
        Idle(p, run, batches[|batches| - 1]);
      } else {
        var rows := BatchEnds(p, run, batches[|batches| - 1]);
      }
    }
  }

  lemma Idle(p: Policy, run: Run, slots: Slots)
    requires run.terminated
    ensures ReplayBatch(p, run, slots) == run
  {
  }

  /** Every batch of every replay adds one row for each slot, as its end demands, until the replay is over. */
  lemma EveryBatch(p: Policy, initial: real, batches: seq<Slots>, k: nat) returns (rows: seq<Row>)
    requires k < |batches|
    ensures var run, next := ReplayAll(p, initial, batches[..k]), ReplayAll(p, initial, batches[..k + 1]);
            if run.terminated then next == run else BatchTells(p, run, batches[k], next, rows)
  {
    hide ReplayBatch;
    hide BatchTells;
    assert batches[..k + 1][..k] == batches[..k];
    var run := ReplayAll(p, initial, batches[..k]);
    MemoryKind(p, initial, batches[..k]);
    if run.terminated {
      Idle(p, run, batches[k]);
      rows := [];
    } else {
      rows := BatchEnds(p, run, batches[k]);
    }
  }
}

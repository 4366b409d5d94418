/**
  What the lengths of closed recovery sequences count: the bets settled since the
  sequence began, as long as no two bets are settled together.
 */
module SequenceLengths {
  import opened Common
  import opened Policies
  import opened Decisions
  import opened Replay

  /** Closed lengths and the running count, for results in order. */
  datatype Tally = Tally(closed: seq<nat>, running: nat)

  /** Every bet counts; a win closes the sequence. */
  function Count(from: nat, wins: seq<bool>): Tally {
    if wins == [] then Tally([], from)
    else
      var t := Count(from, wins[..|wins| - 1]);
      if wins[|wins| - 1] then Tally(t.closed + [t.running + 1], 0) else Tally(t.closed, t.running + 1)
  }

  /** Bets of one batch all carry the step that was next before the batch. */
  function CountTogether(from: nat, wins: seq<bool>): Tally {
    if wins == [] then Tally([], from)
    else
      var t := CountTogether(from, wins[..|wins| - 1]);
      if wins[|wins| - 1] then Tally(t.closed + [from + 1], 0) else Tally(t.closed, from + 1)
  }

  /** Whatever the results, a batch counts its bets right if and only if it has at most one. */
  lemma CountsRightIff(from: nat, n: nat)
    ensures (forall wins: seq<bool> :: |wins| == n ==> CountTogether(from, wins) == Count(from, wins)) <==> n <= 1
  {
    if n <= 1 {
      forall wins: seq<bool> | |wins| == n
        ensures CountTogether(from, wins) == Count(from, wins)
      {
        OneAlike(from, wins);
      }
    } else {
      AllLost(from, n);
    }
  }

  lemma OneAlike(from: nat, wins: seq<bool>)
    requires |wins| <= 1
    ensures CountTogether(from, wins) == Count(from, wins)
  {
    if wins != [] {
      assert wins[..0] == [];
      assert Count(from, []) == CountTogether(from, []);
    }
  }

  /** Two or more bets lost together count as one. */
  lemma {:induction false} AllLost(from: nat, n: nat)
    requires 1 <= n
    ensures var wins := seq(n, i requires 0 <= i < n => false);
            CountTogether(from, wins).running == from + 1 && Count(from, wins).running == from + n
  {
    var wins := seq(n, i requires 0 <= i < n => false);
    if n == 1 {
      OneAlike(from, wins);
      assert wins[..0] == [];
      assert Count(from, []).running == from;
    } else {
      AllLost(from, n - 1);
      assert wins[..n - 1] == seq(n - 1, i requires 0 <= i < n - 1 => false);
    }
  }

  // ---- the batches of a replay -----------------------------------------------------------

  /** The results of the bets of a batch, in order. */
  function Results(slots: Slots): seq<bool> {
    if slots == [] then []
    else
      var last := slots[|slots| - 1];
      Results(slots[..|slots| - 1]) + if last.Some? then [last.value.won] else []
  }

  ghost predicate Counting(state: PolicyState, t: Tally) {
    state.Recovery? && state.step == t.running
  }

  /** Settling a batch adds the lengths of the sequences it closes. */
  lemma {:induction false} BatchTally(p: Policy, run: Run, slots: Slots)
    requires p.Valid() && p.IsRecovery() && p.Fits(run.state)
    ensures var requests := Requests(p, run.bankroll, run.state, slots);
            var s, t := SettleSlots(p, run, slots, requests), CountTogether(run.state.step, Results(slots));
            s.lengths == run.lengths + t.closed && Counting(s.state, t)
  {
    hide Policy.Request;
    var requests := Requests(p, run.bankroll, run.state, slots);
    if slots != [] {
      var last := |slots| - 1;
      BatchTally(p, run, slots[..last]);
      assert requests[..last] == Requests(p, run.bankroll, run.state, slots[..last]);
      SlotTally(p, run, SettleSlots(p, run, slots[..last], requests[..last]), slots[last],
                CountTogether(run.state.step, Results(slots[..last])));
      ResultsLast(slots);
      hide SettleSlot;
      hide SettleSlots;
    }
  }

  lemma ResultsLast(slots: Slots)
    requires slots != []
    ensures var last := slots[|slots| - 1];
            if last.Some? then Results(slots) != [] && Results(slots)[..|Results(slots)| - 1] == Results(slots[..|slots| - 1])
                               && Results(slots)[|Results(slots)| - 1] == last.value.won
            else Results(slots) == Results(slots[..|slots| - 1])
  {
  }

  lemma SlotTally(p: Policy, run: Run, s: Settling, slot: Option<Bet>, t: Tally)
    requires p.Valid() && p.IsRecovery() && p.Fits(run.state) && Counting(s.state, t) && s.lengths == run.lengths + t.closed
    ensures var d := SettleSlot(p, s, slot, Ask(p, run.bankroll, run.state, slot));
            if slot.None? then d.lengths == s.lengths && Counting(d.state, t)
            else if slot.value.won then
              d.lengths == run.lengths + (t.closed + [run.state.step + 1]) && Counting(d.state, Tally(t.closed, 0))
            else d.lengths == s.lengths && Counting(d.state, Tally(t.closed, run.state.step + 1))
  {
    if slot.Some? {
      StepNext(p, slot.value.price, slot.value.probability, run.bankroll, run.state);
      hide Policy.Request;
    }
  }

  /** A recovery request is one step further than the memory. */
  lemma StepNext(p: Policy, price: Price, probability: real, bankroll: real, state: PolicyState)
    requires p.IsRecovery() && state.Recovery?
    ensures p.Request(price, probability, bankroll, state).step == Some(state.step + 1)
  {
  }

  // ---- a whole replay --------------------------------------------------------------------

  /** The results of the bets that moved money, in ledger order. */
  function Paid(rows: seq<Row>): seq<bool> {
    if rows == [] then []
    else
      var last := rows[|rows| - 1];
      Paid(rows[..|rows| - 1]) + if last.pnl != 0.0 then [last.won] else []
  }

  lemma {:induction false} PaidAppend(a: seq<Row>, b: seq<Row>)
    ensures Paid(a + b) == Paid(a) + Paid(b)
  {
    if b == [] {
      assert a + b == a;
    } else {
      PaidAppend(a, b[..|b| - 1]);
      assert (a + b)[..|a + b| - 1] == a + b[..|b| - 1];
    }
  }

  lemma {:induction false} PaidNothing(rows: seq<Row>)
    requires forall i :: 0 <= i < |rows| ==> rows[i].pnl == 0.0
    ensures Paid(rows) == []
  {
    if rows != [] { PaidNothing(rows[..|rows| - 1]); }
  }

  /** A row of a settled batch moves money exactly when it is a bet. */
  ghost predicate Moves(row: Row, slot: Option<Bet>) {
    if slot.Some? then row.pnl != 0.0 && row.won == slot.value.won else row.pnl == 0.0
  }

  lemma {:induction false} PaidResults(rows: seq<Row>, slots: Slots)
    requires |rows| == |slots| && forall i :: 0 <= i < |slots| ==> Moves(rows[i], slots[i])
    ensures Paid(rows) == Results(slots)
  {
    if rows != [] { PaidResults(rows[..|rows| - 1], slots[..|slots| - 1]); }
  }

  lemma {:induction false} EntriesMove(p: Policy, run: Run, slots: Slots)
    requires p.Valid() && p.IsRecovery() && p.Fits(run.state) && 0.0 < run.bankroll
    requires !Stops(Requests(p, run.bankroll, run.state, slots))
    ensures var s := SettleSlots(p, run, slots, Requests(p, run.bankroll, run.state, slots));
            forall i :: 0 <= i < |slots| ==> if slots[i].Some? then s.entries[i].pnl != 0.0 else s.entries[i].pnl == 0.0
  {
    hide Policy.Request;
    var requests := Requests(p, run.bankroll, run.state, slots);
    if slots != [] {
      var last := |slots| - 1;
      var fewer := Requests(p, run.bankroll, run.state, slots[..last]);
      assert requests[..last] == fewer;
      StopsPrefix(requests, last);
      EntriesMove(p, run, slots[..last]);
      if slots[last].Some? {
        StakeMoves(p, run, slots[last].value);
        assert requests[last] == Some(p.Request(slots[last].value.price, slots[last].value.probability, run.bankroll, run.state));
        assert requests[last].value.termination == Running;
      }
      SlotEntry(p, SettleSlots(p, run, slots[..last], fewer), slots[last], requests[last]);
      hide SettleSlot;
    }
  }

  lemma SlotEntry(p: Policy, s: Settling, slot: Option<Bet>, request: Option<StakeRequest>)
    requires slot.Some? == request.Some?
    ensures var d := SettleSlot(p, s, slot, request);
            && |d.entries| == |s.entries| + 1 && d.entries[..|s.entries|] == s.entries
            && d.entries[|s.entries|].pnl ==
               if slot.None? then 0.0 else Pnl(request.value.applied, slot.value.price, slot.value.won)
  {
    hide Policy.Settle;
  }

  lemma StopsPrefix(requests: seq<Option<StakeRequest>>, n: nat)
    requires n <= |requests| && !Stops(requests)
    ensures !Stops(requests[..n])
    ensures forall i :: 0 <= i < |requests| && requests[i].Some? ==> requests[i].value.termination == Running
  {
  }

  lemma StakeMoves(p: Policy, run: Run, bet: Bet)
    requires p.Valid() && p.IsRecovery() && p.Fits(run.state) && 0.0 < run.bankroll
    ensures var r := p.Request(bet.price, bet.probability, run.bankroll, run.state);
            r.termination == Running ==> Pnl(r.applied, bet.price, bet.won) != 0.0
  {
    hide Policy.Request;
    hide Policy.Fits;
    hide Pnl;
    RequestSound(p, bet.price, bet.probability, run.bankroll, run.state);
    var r := p.Request(bet.price, bet.probability, run.bankroll, run.state);
    if r.termination == Running { PnlMoves(r.applied, bet.price, bet.won); }
  }

  lemma PnlMoves(applied: real, price: Price, won: bool)
    requires 0.0 < applied
    ensures Pnl(applied, price, won) != 0.0
  {
    ProductPositive(applied, price - 1.0);
  }

  /** The lengths of a run are those of its paid results. */
  ghost predicate Tallied(run: Run) {
    && run.lengths == Count(0, Paid(run.ledger)).closed && Counting(run.state, Count(0, Paid(run.ledger)))
  }

  lemma CountMore(wins: seq<bool>, more: seq<bool>)
    requires |more| <= 1
    ensures var t := Count(0, wins);
            var u := CountTogether(t.running, more);
            Count(0, wins + more) == Tally(t.closed + u.closed, u.running)
  {
    if more == [] {
      assert wins + more == wins;
      assert CountTogether(Count(0, wins).running, more) == Tally([], Count(0, wins).running);
    } else {
      assert (wins + more)[..|wins|] == wins && more[..0] == [];
      assert CountTogether(Count(0, wins).running, []) == Tally([], Count(0, wins).running);
    }
  }

  lemma HaltedTallied(run: Run, rows: seq<Row>)
    requires Tallied(run) && forall i :: 0 <= i < |rows| ==> rows[i].pnl == 0.0
    ensures Tallied(run.(ledger := run.ledger + rows, batches := run.batches + 1, terminated := true))
  {
    hide Counting;
    PaidNothing(rows);
    PaidAppend(run.ledger, rows);
    assert Paid(run.ledger) + [] == Paid(run.ledger);
  }

  lemma BatchTallied(p: Policy, run: Run, slots: Slots)
    requires p.Valid() && p.IsRecovery() && p.Fits(run.state) && (run.terminated || 0.0 < run.bankroll)
    requires Tallied(run) && |Results(slots)| <= 1
    ensures Tallied(ReplayBatch(p, run, slots))
  {
    hide Policy.Request;
    hide Policy.Fits;
    hide Counting;
    hide Requests;
    hide Stops;
    hide SettleSlots;
    if !run.terminated {
      var requests := Requests(p, run.bankroll, run.state, slots);
      if Stops(requests) {
        HaltedTallied(run, StopRows(run, slots, requests));
      } else if Exposure(requests) > run.bankroll {
        HaltedTallied(run, UnfundedRows(run, slots, requests));
      } else {
        SettledTallied(p, run, slots);
      }
    }
  }

  lemma SettledTallied(p: Policy, run: Run, slots: Slots)
    requires p.Valid() && p.IsRecovery() && p.Fits(run.state) && 0.0 < run.bankroll
    requires Tallied(run) && |Results(slots)| <= 1 && !Stops(Requests(p, run.bankroll, run.state, slots))
    ensures var s := SettleSlots(p, run, slots, Requests(p, run.bankroll, run.state, slots));
            var t := Count(0, Paid(run.ledger + SettledRows(run, slots, s)));
            s.lengths == t.closed && Counting(s.state, t)
  {
    hide Requests;
    hide Stops;
    var s := SettleSlots(p, run, slots, Requests(p, run.bankroll, run.state, slots));
    hide SettleSlots;
    BatchTally(p, run, slots);
    EntriesMove(p, run, slots);
    var rows := SettledRows(run, slots, s);
    PaidResults(rows, slots);
    PaidAppend(run.ledger, rows);
    CountMore(Paid(run.ledger), Results(slots));
  }

  /**
    Over every replay that bets at most once per batch, as a recovery policy must: each closed length is the number of bets
    settled since the sequence began, and the memory counts those of the sequence in progress.
   */
  lemma {:induction false} LengthsCount(p: Policy, initial: real, batches: seq<Slots>)
    requires p.Valid() && p.IsRecovery() && 0.0 < initial
    requires forall i :: 0 <= i < |batches| ==> |Results(batches[i])| <= 1
    ensures var run := ReplayAll(p, initial, batches);
            && run.lengths == Count(0, Paid(run.ledger)).closed
            && run.state.Recovery? && run.state.step == Count(0, Paid(run.ledger)).running
            && p.Fits(run.state) && (run.terminated || 0.0 < run.bankroll)
  {
    if batches != [] {
      var last := |batches| - 1;
      LengthsCount(p, initial, batches[..last]);
      var run := ReplayAll(p, initial, batches[..last]);
      BatchTallied(p, run, batches[last]);
      BatchFits(p, run, batches[last]);
      hide ReplayBatch;
    }
  }

  lemma BatchFits(p: Policy, run: Run, slots: Slots)
    requires p.Valid() && p.IsRecovery() && p.Fits(run.state) && (run.terminated || 0.0 < run.bankroll)
    ensures var next := ReplayBatch(p, run, slots);
            p.Fits(next.state) && (next.terminated || 0.0 < next.bankroll)
  {
    hide Policy.Request;
    hide Policy.Fits;
    hide SettleSlots;
    if !run.terminated { SlotsFit(p, run, slots); }
  }

  lemma {:induction false} SlotsFit(p: Policy, run: Run, slots: Slots)
    requires p.Valid() && p.IsRecovery() && p.Fits(run.state) && 0.0 < run.bankroll
    ensures p.Fits(SettleSlots(p, run, slots, Requests(p, run.bankroll, run.state, slots)).state)
  {
    hide Policy.Request;
    hide Policy.Settle;
    hide Policy.Fits;
    if slots != [] {
      var last := |slots| - 1;
      SlotsFit(p, run, slots[..last]);
      var requests := Requests(p, run.bankroll, run.state, slots);
      assert requests[..last] == Requests(p, run.bankroll, run.state, slots[..last]);
      var s := SettleSlots(p, run, slots[..last], requests[..last]);
      if slots[last].Some? {
        var b := slots[last].value;
        RequestSound(p, b.price, b.probability, run.bankroll, run.state);
        SettleFits(p, s.state, p.Request(b.price, b.probability, run.bankroll, run.state), b.won);
      }
    }
  }
}

/**
  Every path of the vectorised simulation is a replay: path i ends exactly as
  the replay of the same decisions with path i's stressed prices,
  probabilities and drawn results.
 */
module SimulationRefinesReplay {
  import opened Common
  import opened Policies
  import opened Decisions
  import opened Replay
  import opened LedgerMetrics
  import opened Simulation
  import opened SimulationRun

  /** The policy memory that the vectors encode for one path. */
  function MemoryOf(p: Policy, ps: Path): PolicyState {
    if p.IsRecovery() then Recovery(ps.target, ps.loss, ps.step) else Stateless
  }

  /** The vectorised request is the policy's own request. */
  ghost predicate SameRequest(a: Answer, r: StakeRequest) {
    a.requested == r.requested && a.applied == r.applied && a.capHit == r.capHit && a.stop == (r.termination != Running)
  }

  lemma {:induction false} QuotientSign(n: real, d: real)
    requires n <= 0.0 < d
    ensures n / d <= 0.0
  {
  }

  lemma {:induction false} KellyAgrees(share: real, edge: real, odds: real, bankroll: real)
    requires 0.0 < odds
    ensures share * Max(0.0, edge / odds) * bankroll == KellyRequest(share, edge, odds, bankroll).requested
  {
    if edge <= 0.0 { QuotientSign(edge, odds); } else { QuotientPositive(edge, odds); }
  }

  lemma {:induction false} CapAgrees(p: Policy, requested: real, bankroll: real)
    requires p.LegacyCapped?
    ensures CapAt(p, requested, bankroll) ==
            if p.Bound(bankroll).Some? then Min(requested, p.Bound(bankroll).value) else requested
  {
  }

  lemma {:induction false} CappedAgrees(p: Policy, price: Price, bankroll: real, memory: Sequence)
    requires p.Valid() && p.LegacyCapped? && memory.Ok() && 0.0 <= bankroll
    ensures SameRequest(AnswerAt(p, price, 0.0, bankroll, memory.target, memory.loss, memory.step),
                        CappedRequest(p.initialStake, p.Bound(bankroll), p.maxSteps, price - 1.0, memory))
  {
    BoundPositive(p, bankroll);
    CappedRequestSound(p, p.Bound(bankroll), price - 1.0, bankroll, memory);
    CapAgrees(p, RequestedAt(p, price, 0.0, bankroll, memory.target, memory.loss), bankroll);
    hide CapAt;
    hide Policy.Bound;
  }

  lemma {:induction false} RecoveryAgrees(p: Policy, price: Price, bankroll: real, memory: Sequence)
    requires p.LegacyRecovery?
    ensures SameRequest(AnswerAt(p, price, 0.0, bankroll, memory.target, memory.loss, memory.step),
                        RecoveryRequest(p.initialStake, price - 1.0, memory))
  {
  }

  lemma {:induction false} PartialAgrees(p: Policy, price: Price, bankroll: real, memory: Sequence)
    requires p.LegacyPartial?
    ensures SameRequest(AnswerAt(p, price, 0.0, bankroll, memory.target, memory.loss, memory.step),
                        PartialRequest(p.target, p.alpha, price - 1.0, memory))
  {
  }

  lemma {:induction false} StatelessAgrees(p: Policy, price: Price, probability: real, bankroll: real)
    requires !p.IsRecovery()
    ensures SameRequest(AnswerAt(p, price, probability, bankroll, None, 0.0, 0), p.Request(price, probability, bankroll, Stateless))
  {
    if p.FractionalKelly? {
      KellyAgrees(p.share, probability * price - 1.0, price - 1.0, bankroll);
    }
  }

  lemma {:induction false} OnlyWhatMatters(p: Policy, price: Price, probability: real, bankroll: real, target: Option<real>, loss: real, step: nat)
    ensures p.IsRecovery() ==>
              AnswerAt(p, price, probability, bankroll, target, loss, step) == AnswerAt(p, price, 0.0, bankroll, target, loss, step)
    ensures !p.IsRecovery() ==>
              AnswerAt(p, price, probability, bankroll, target, loss, step) == AnswerAt(p, price, probability, bankroll, None, 0.0, 0)
  {
  }

  lemma {:induction false} RequestsAgree(p: Policy, ps: Path, bet: Bet)
    requires p.Valid() && MemoryOf(p, ps).Ok() && 0.0 <= ps.bankroll
    ensures SameRequest(AnswerFor(p, ps, bet), p.Request(bet.price, bet.probability, ps.bankroll, MemoryOf(p, ps)))
  {
    hide AnswerAt;
    hide CappedRequest;
    hide RecoveryRequest;
    hide PartialRequest;
    hide KellyRequest;
    OnlyWhatMatters(p, bet.price, bet.probability, ps.bankroll, ps.target, ps.loss, ps.step);
    if p.LegacyCapped? {
      CappedAgrees(p, bet.price, ps.bankroll, MemoryOf(p, ps));
    } else if p.LegacyRecovery? {
      RecoveryAgrees(p, bet.price, ps.bankroll, MemoryOf(p, ps));
    } else if p.LegacyPartial? {
      PartialAgrees(p, bet.price, ps.bankroll, MemoryOf(p, ps));
    } else {
      StatelessAgrees(p, bet.price, bet.probability, ps.bankroll);
    }
  }

  // ---- a block of answers ------------------------------------------------------------

  /** The answers of one batch, slot by slot. */
  function Answers(requests: seq<Option<StakeRequest>>): seq<StakeRequest> {
    seq(|requests|, i requires 0 <= i < |requests| => requests[i].GetOr(ZeroRequest))
  }

  function FoldStake(base: real, answers: seq<StakeRequest>): real {
    if answers == [] then base else Max(FoldStake(base, answers[..|answers| - 1]), answers[|answers| - 1].applied)
  }

  function FoldRatio(base: real, bankroll: real, answers: seq<StakeRequest>): real {
    if answers == [] then base
    else Max(FoldRatio(base, bankroll, answers[..|answers| - 1]), Ratio(answers[|answers| - 1].applied, bankroll))
  }

  function FoldCaps(answers: seq<StakeRequest>): nat {
    if answers == [] then 0 else FoldCaps(answers[..|answers| - 1]) + if answers[|answers| - 1].capHit then 1 else 0
  }

  /** Rows that record these answers from one bankroll. */
  ghost predicate Records(rows: seq<Row>, answers: seq<StakeRequest>, bankroll: real) {
    |rows| == |answers| &&
    forall j :: 0 <= j < |rows| ==>
      && rows[j].request.applied == answers[j].applied
      && rows[j].request.capHit == answers[j].capHit
      && rows[j].before == bankroll
  }

  lemma {:induction false} RowsFold(ledger: seq<Row>, rows: seq<Row>, answers: seq<StakeRequest>, bankroll: real)
    requires Records(rows, answers, bankroll)
    ensures MaxStake(ledger + rows) == FoldStake(MaxStake(ledger), answers)
    ensures MaxRatio(ledger + rows) == FoldRatio(MaxRatio(ledger), bankroll, answers)
    ensures CapHits(ledger + rows) == CapHits(ledger) + FoldCaps(answers)
  {
    if rows == [] {
      assert ledger + rows == ledger;
    } else {
      var last := |rows| - 1;
      RowsFold(ledger, rows[..last], answers[..last], bankroll);
      assert (ledger + rows)[..|ledger + rows| - 1] == ledger + rows[..last];
    }
  }

  lemma {:induction false} RowsRuin(ledger: seq<Row>, rows: seq<Row>)
    ensures Ruined(ledger + rows) <==> Ruined(ledger) || exists j :: 0 <= j < |rows| && rows[j].ruin
  {
    if rows == [] {
      assert ledger + rows == ledger;
    } else {
      var last := |rows| - 1;
      RowsRuin(ledger, rows[..last]);
      assert (ledger + rows)[..|ledger + rows| - 1] == ledger + rows[..last];
      assert forall j :: 0 <= j < last ==> rows[..last][j] == rows[j];
    }
  }

  /** A new batch adds one point to the bankroll curve. */
  lemma {:induction false} RowsCurve(ledger: seq<Row>, rows: seq<Row>, batch: nat, after: real)
    requires rows != [] && forall j :: 0 <= j < |rows| ==> rows[j].batch == batch && rows[j].after == after
    requires forall j :: 0 <= j < |ledger| ==> ledger[j].batch < batch
    ensures Curve(ledger + rows) == Curve(ledger) + [after]
  {
    var last := |rows| - 1;
    assert (ledger + rows)[..|ledger + rows| - 1] == ledger + rows[..last];
    if last == 0 {
      assert ledger + rows[..last] == ledger;
    } else {
      RowsCurve(ledger, rows[..last], batch, after);
    }
  }

  lemma {:induction false} FoldIdle(base: real, bankroll: real, answers: seq<StakeRequest>)
    requires 0.0 <= base && forall j :: 0 <= j < |answers| ==> answers[j].applied == 0.0
    ensures FoldStake(base, answers) == base && FoldRatio(base, bankroll, answers) == base
  {
    if answers != [] { FoldIdle(base, bankroll, answers[..|answers| - 1]); }
  }

  // ---- one batch -------------------------------------------------------------------

  lemma {:induction false} RequestsPrefix(p: Policy, bankroll: real, state: PolicyState, slots: Slots, i: nat)
    requires i <= |slots|
    ensures Requests(p, bankroll, state, slots)[..i] == Requests(p, bankroll, state, slots[..i])
  {
  }

  lemma {:induction false} AskAgrees(p: Policy, ps: Path, slots: Slots)
    requires p.Valid() && MemoryOf(p, ps).Ok() && 0.0 <= ps.bankroll
    ensures var requests := Requests(p, ps.bankroll, MemoryOf(p, ps), slots);
            AskBatch(p, ps, slots) == Asked(Exposure(requests), Stops(requests), FoldCaps(Answers(requests)))
  {
    hide AnswerFor;
    hide Policy.Request;
    var requests := Requests(p, ps.bankroll, MemoryOf(p, ps), slots);
    if slots != [] {
      var last := |slots| - 1;
      AskAgrees(p, ps, slots[..last]);
      RequestsPrefix(p, ps.bankroll, MemoryOf(p, ps), slots, last);
      assert Answers(requests)[..last] == Answers(requests[..last]);
      if slots[last].Some? { RequestsAgree(p, ps, slots[last].value); }
      StopsLast(requests);
    }
  }

  lemma {:induction false} StopsLast(requests: seq<Option<StakeRequest>>)
    requires requests != []
    ensures var last := |requests| - 1;
            Stops(requests) <==> Stops(requests[..last]) || (requests[last].Some? && requests[last].value.termination != Running)
  {
    var last := |requests| - 1;
    if Stops(requests[..last]) {
      var i :| 0 <= i < last && requests[..last][i].Some? && requests[..last][i].value.termination != Running;
      assert requests[i] == requests[..last][i];
    }
    if Stops(requests) {
      var i :| 0 <= i < |requests| && requests[i].Some? && requests[i].value.termination != Running;
      if i < last { assert requests[..last][i] == requests[i]; }
    }
  }

  /** The memory that a partly taken batch encodes. */
  function TakenMemory(p: Policy, t: Taken): PolicyState {
    if p.IsRecovery() then Recovery(t.target, t.loss, t.step) else Stateless
  }

  lemma {:induction false} RecoverAgrees(p: Policy, ps: Path, bet: Bet, t: Taken)
    requires p.Valid() && MemoryOf(p, ps).Ok() && 0.0 <= ps.bankroll
    requires p.IsRecovery() ==> t.loss == ps.loss && t.target == ps.target && t.step == ps.step
    ensures var r := p.Request(bet.price, bet.probability, ps.bankroll, MemoryOf(p, ps));
            TakenMemory(p, Recover(p, bet, r.applied, true, t)) == p.Settle(TakenMemory(p, t), r, bet.won).0
  {
    RequestShape(p, bet, ps.bankroll, MemoryOf(p, ps));
    hide Policy.Request;
    hide DerivedTarget;
    var r := p.Request(bet.price, bet.probability, ps.bankroll, MemoryOf(p, ps));
    if p.IsRecovery() && !bet.won {
      var next := p.Settle(TakenMemory(p, t), r, bet.won).0;
      var u := Recover(p, bet, r.applied, true, t);
      assert next.loss == u.loss && next.step == u.step;
      assert next.target == u.target;
    }
  }

  /** Every recovery request carries the next step and the target of its sequence. */
  lemma {:induction false} RequestShape(p: Policy, bet: Bet, bankroll: real, state: PolicyState)
    requires p.IsRecovery() ==> state.Recovery?
    ensures var r := p.Request(bet.price, bet.probability, bankroll, state);
            p.IsRecovery() ==>
              && r.step == Some(state.step + 1)
              && (state.target.None? ==> r.target == Some(DerivedTarget(p, bet.price)))
  {
    if p.LegacyRecovery? {
      hide CappedRequest;
      var odds := bet.price - 1.0;
      var r := RecoveryRequest(p.initialStake, odds, state);
      assert p.Request(bet.price, bet.probability, bankroll, state) == r;
      assert DerivedTarget(p, bet.price) == p.initialStake * odds;
      assert state.target.None? ==> r.target == Some(p.initialStake * odds);
    } else if p.LegacyCapped? {
      hide RecoveryRequest;
      var odds := bet.price - 1.0;
      var r := CappedRequest(p.initialStake, p.Bound(bankroll), p.maxSteps, odds, state);
      assert p.Request(bet.price, bet.probability, bankroll, state) == r;
      assert DerivedTarget(p, bet.price) == p.initialStake * odds;
      assert state.target.None? ==> r.target == Some(p.initialStake * odds);
    }
  }

  /** What a funded batch takes on one path, against the settled slots of the replay. */
  ghost predicate Settles(p: Policy, ps: Path, slots: Slots, requests: seq<Option<StakeRequest>>, s: Settling, t: Taken) {
    && |s.entries| == |slots| == |requests|
    && s.pnl == t.pnl
    && s.state == TakenMemory(p, t)
    && t.maxStake == FoldStake(ps.maxStake, Answers(requests)) && 0.0 <= t.maxStake
    && t.maxRatio == FoldRatio(ps.maxRatio, ps.bankroll, Answers(requests)) && 0.0 <= t.maxRatio
    && (forall j :: 0 <= j < |slots| ==> s.entries[j].request == Answers(requests)[j])
    && (Bets(slots) == 0 ==> t.pnl == 0.0 && t.loss == ps.loss && t.target == ps.target && t.step == ps.step)
  }

  lemma {:induction false} RecoverFrame(p: Policy, bet: Bet, stake: real, funded: bool, t: Taken)
    ensures var u := Recover(p, bet, stake, funded, t);
            u.pnl == t.pnl && u.maxStake == t.maxStake && u.maxRatio == t.maxRatio
  {
  }

  lemma {:induction false} BookedIs(bankroll: real, t: Taken, bet: Bet, stake: real)
    ensures var u := Booked(bankroll, true, t, bet, stake);
            && u == Taken(t.pnl + Pnl(stake, bet.price, bet.won), Max(t.maxStake, stake),
                          Max(t.maxRatio, Ratio(stake, bankroll)), t.loss, t.target, t.step)
  {
  }

  lemma {:induction false} TakeBetAgrees(p: Policy, ps: Path, bet: Bet, t: Taken)
    requires p.Valid() && MemoryOf(p, ps).Ok() && 0.0 <= ps.bankroll
    requires p.IsRecovery() ==> t.loss == ps.loss && t.target == ps.target && t.step == ps.step
    ensures var r := p.Request(bet.price, bet.probability, ps.bankroll, MemoryOf(p, ps));
            var u := TakeBet(p, ps, true, t, bet);
            && u.pnl == t.pnl + Pnl(r.applied, bet.price, bet.won)
            && u.maxStake == Max(t.maxStake, r.applied)
            && u.maxRatio == Max(t.maxRatio, Ratio(r.applied, ps.bankroll))
            && TakenMemory(p, u) == p.Settle(TakenMemory(p, t), r, bet.won).0
  {
    hide AnswerFor;
    hide Policy.Request;
    hide Policy.Settle;
    hide Recover;
    hide Booked;
    hide MemoryOf;
    hide Pnl;
    RequestsAgree(p, ps, bet);
    var r := p.Request(bet.price, bet.probability, ps.bankroll, MemoryOf(p, ps));
    var b := Booked(ps.bankroll, true, t, bet, r.applied);
    BookedIs(ps.bankroll, t, bet, r.applied);
    RecoverFrame(p, bet, r.applied, true, b);
    RecoverAgrees(p, ps, bet, b);
  }

  /** A settled slot adds its profit, moves the memory and records its answer. */
  lemma {:induction false} SettleSlotIs(p: Policy, s: Settling, slot: Option<Bet>, request: Option<StakeRequest>)
    requires slot.Some? <==> request.Some?
    ensures var u := SettleSlot(p, s, slot, request);
            && |u.entries| == |s.entries| + 1
            && u.entries[..|s.entries|] == s.entries
            && u.entries[|s.entries|].request == request.GetOr(ZeroRequest)
            && (slot.None? ==> u.pnl == s.pnl && u.state == s.state)
            && (slot.Some? ==>
                  && u.pnl == s.pnl + Pnl(request.value.applied, slot.value.price, slot.value.won)
                  && u.state == p.Settle(s.state, request.value, slot.value.won).0)
  {
    hide Pnl;
    hide Policy.Settle;
  }

  /** One more slot of a funded batch. */
  lemma {:induction false} SettlesNext(p: Policy, ps: Path, slots: Slots, requests: seq<Option<StakeRequest>>, s: Settling, t: Taken)
    requires p.Valid() && MemoryOf(p, ps).Ok() && 0.0 <= ps.bankroll
    requires slots != [] && |requests| == |slots| && (p.IsRecovery() ==> Bets(slots) <= 1)
    requires var last := |slots| - 1;
             && Settles(p, ps, slots[..last], requests[..last], s, t)
             && requests[last] == Ask(p, ps.bankroll, MemoryOf(p, ps), slots[last])
    ensures var last := |slots| - 1;
            Settles(p, ps, slots, requests, SettleSlot(p, s, slots[last], requests[last]),
                    if slots[last].None? then t else TakeBet(p, ps, true, t, slots[last].value))
  {
    hide Policy.Request;
    hide Policy.Settle;
    hide TakeBet;
    hide SettleSlot;
    hide MemoryOf;
    hide Pnl;
    hide Ratio;
    hide TakenMemory;
    var last := |slots| - 1;
    assert Answers(requests)[..last] == Answers(requests[..last]);
    SettleSlotIs(p, s, slots[last], requests[last]);
    if slots[last].Some? {
      TakeBetAgrees(p, ps, slots[last].value, t);
    } else {
      assert Ratio(0.0, ps.bankroll) == 0.0 by { ZeroRatio(ps.bankroll); }
    }
    var u := SettleSlot(p, s, slots[last], requests[last]);
    forall j | 0 <= j < |slots| ensures u.entries[j].request == Answers(requests)[j] {
      if j < last { assert u.entries[..last][j] == s.entries[j] && Answers(requests)[..last][j] == Answers(requests)[j]; }
    }
  }

  lemma {:induction false} ZeroRatio(bankroll: real)
    ensures Ratio(0.0, bankroll) == 0.0
  {
  }

  lemma {:induction false} SettleAgrees(p: Policy, run: Run, ps: Path, slots: Slots)
    requires p.Valid() && MemoryOf(p, ps).Ok() && 0.0 <= ps.bankroll && 0.0 <= ps.maxStake && 0.0 <= ps.maxRatio
    requires run.bankroll == ps.bankroll && run.state == MemoryOf(p, ps)
    requires p.IsRecovery() ==> Bets(slots) <= 1
    ensures var requests := Requests(p, run.bankroll, run.state, slots);
            Settles(p, ps, slots, requests, SettleSlots(p, run, slots, requests), TakeBatch(p, ps, true, slots))
  {
    hide Ask;
    hide SettleSlot;
    hide TakeBet;
    hide MemoryOf;
    hide Settles;
    if slots == [] {
      NothingTaken(p, run, ps);
    } else {
      var last := |slots| - 1;
      var requests := Requests(p, run.bankroll, run.state, slots);
      SettleAgrees(p, run, ps, slots[..last]);
      RequestsPrefix(p, run.bankroll, run.state, slots, last);
      SettlesNext(p, ps, slots, requests, SettleSlots(p, run, slots[..last], requests[..last]), TakeBatch(p, ps, true, slots[..last]));
    }
  }

  lemma {:induction false} NothingTaken(p: Policy, run: Run, ps: Path)
    requires run.state == MemoryOf(p, ps) && 0.0 <= ps.maxStake && 0.0 <= ps.maxRatio
    ensures Settles(p, ps, [], Requests(p, run.bankroll, run.state, []),
                    SettleSlots(p, run, [], Requests(p, run.bankroll, run.state, [])), TakeBatch(p, ps, true, []))
  {
  }

  /** A settled batch never loses more than was asked for, and leaves a well formed memory. */
  lemma {:induction false} SettleFloor(p: Policy, run: Run, slots: Slots)
    requires p.Valid() && p.Fits(run.state) && 0.0 <= run.bankroll
    ensures var requests := Requests(p, run.bankroll, run.state, slots);
            var s := SettleSlots(p, run, slots, requests);
            -Exposure(requests) <= s.pnl && p.Fits(s.state)
  {
    hide Policy.Request;
    hide Policy.Settle;
    hide SettleSlot;
    hide Sound;
    if slots == [] {
    } else {
      var last := |slots| - 1;
      var requests := Requests(p, run.bankroll, run.state, slots);
      SettleFloor(p, run, slots[..last]);
      RequestsPrefix(p, run.bankroll, run.state, slots, last);
      SettleSlotFloor(p, run, SettleSlots(p, run, slots[..last], requests[..last]), slots[last]);
    }
  }

  lemma {:induction false} SettleSlotFloor(p: Policy, run: Run, s: Settling, slot: Option<Bet>)
    requires p.Valid() && p.Fits(run.state) && 0.0 <= run.bankroll && p.Fits(s.state)
    ensures var request := Ask(p, run.bankroll, run.state, slot);
            var u := SettleSlot(p, s, slot, request);
            && p.Fits(u.state)
            && s.pnl - (if request.Some? then request.value.requested else 0.0) <= u.pnl
  {
    if slot.Some? {
      var b := slot.value;
      var r := p.Request(b.price, b.probability, run.bankroll, run.state);
      RequestSound(p, b.price, b.probability, run.bankroll, run.state);
      SettleFits(p, s.state, r, b.won);
      hide Policy.Request;
      hide Policy.Settle;
      if b.won { ProductNonNegative(r.applied, b.price - 1.0); }
    }
  }

  // ---- agreement -------------------------------------------------------------------

  /** A simulated path agrees with a replay in everything that is reported. */
  ghost predicate Agrees(p: Policy, initial: real, run: Run, ps: Path) {
    && run.bankroll == ps.bankroll
    && run.terminated == ps.terminated && ps.active == !run.terminated
    && run.state == MemoryOf(p, ps)
    && MaxStake(run.ledger) == ps.maxStake
    && MaxRatio(run.ledger) == ps.maxRatio
    && CapHits(run.ledger) == ps.capHits
    && Ruined(run.ledger) == ps.ruined
    && TroughOf(initial, Curve(run.ledger)) == Trough(ps.peak, ps.drawdown)
  }

  /** What the reported values satisfy along the way. */
  ghost predicate Sane(p: Policy, run: Run, ps: Path) {
    && MemoryOf(p, ps).Ok()
    && 0.0 <= ps.maxStake && 0.0 <= ps.maxRatio && 0.0 <= ps.drawdown
    && 0.0 <= ps.bankroll <= ps.peak && 0.0 < ps.peak
    && (ps.peak - ps.bankroll) / ps.peak <= ps.drawdown
    && (ps.active ==> 0.0 < ps.bankroll)
    && (forall j :: 0 <= j < |run.ledger| ==> run.ledger[j].batch <= run.batches)
  }

  lemma {:induction false} FollowIs(t: Trough, bankroll: real)
    requires 0.0 < t.peak && 0.0 <= t.drawdown && 0.0 <= bankroll
    ensures var peak := Max(t.peak, bankroll);
            && Follow(t, bankroll) == Trough(peak, Max(t.drawdown, (peak - bankroll) / peak))
            && 0.0 < peak && bankroll <= peak
  {
    if bankroll >= t.peak { assert (bankroll - bankroll) / bankroll == 0.0; }
  }

  /** The ledger block of one batch, whatever its kind. */
  ghost predicate Block(run: Run, rows: seq<Row>, answers: seq<StakeRequest>, after: real) {
    && rows != [] && Records(rows, answers, run.bankroll)
    && forall j :: 0 <= j < |rows| ==> rows[j].batch == run.batches + 1 && rows[j].after == after
  }

  /** Appending one batch moves every metric as the closing of a batch moves the vectors. */
  lemma {:induction false} BlockMetrics(p: Policy, initial: real, run: Run, ps: Path, rows: seq<Row>, answers: seq<StakeRequest>, after: real)
    requires Agrees(p, initial, run, ps) && Sane(p, run, ps) && Block(run, rows, answers, after) && 0.0 <= after
    ensures var ledger := run.ledger + rows;
            && MaxStake(ledger) == FoldStake(ps.maxStake, answers)
            && MaxRatio(ledger) == FoldRatio(ps.maxRatio, ps.bankroll, answers)
            && CapHits(ledger) == ps.capHits + FoldCaps(answers)
            && (Ruined(ledger) <==> ps.ruined || exists j :: 0 <= j < |rows| && rows[j].ruin)
            && var peak := Max(ps.peak, after);
               TroughOf(initial, Curve(ledger)) == Trough(peak, Max(ps.drawdown, (peak - after) / peak))
               && 0.0 < peak && after <= peak
  {
    hide MaxStake;
    hide MaxRatio;
    hide CapHits;
    hide Ruined;
    hide Curve;
    hide MemoryOf;
    RowsFold(run.ledger, rows, answers, run.bankroll);
    RowsRuin(run.ledger, rows);
    RowsCurve(run.ledger, rows, run.batches + 1, after);
    CurveFollow(initial, Curve(run.ledger), after);
    FollowIs(Trough(ps.peak, ps.drawdown), after);
  }

  // ---- the four ways a batch can go --------------------------------------------------

  lemma {:induction false} IdleTake(p: Policy, ps: Path, slots: Slots)
    requires 0.0 <= ps.maxStake && 0.0 <= ps.maxRatio
    ensures TakeBatch(p, ps, false, slots) == Taken(0.0, ps.maxStake, ps.maxRatio, ps.loss, ps.target, ps.step)
  {
    hide AnswerFor;
    if slots != [] { IdleTake(p, ps, slots[..|slots| - 1]); }
  }

  /** A path that has stopped is left alone by every later batch. */
  lemma {:induction false} IdleBatch(p: Policy, ps: Path, run: Run, slots: Slots)
    requires Sane(p, run, ps) && !ps.active && ps.terminated
    ensures PathBatch(p, ps, slots) == ps
  {
    hide AskBatch;
    hide TakeBatch;
    hide MemoryOf;
    IdleTake(p, ps, slots);
  }

  lemma {:induction false} SomeBet(slots: Slots)
    ensures Bets(slots) == 0 <==> forall j :: 0 <= j < |slots| ==> slots[j].None?
  {
    if slots != [] { SomeBet(slots[..|slots| - 1]); }
  }

  /** Agreement after one batch, with what it needs to go on. */
  ghost predicate Going(p: Policy, initial: real, run: Run, ps: Path) {
    Agrees(p, initial, run, ps) && Sane(p, run, ps)
  }

  lemma {:induction false} RowsNumbered(run: Run, rows: seq<Row>, answers: seq<StakeRequest>, after: real)
    requires Block(run, rows, answers, after)
    requires forall j :: 0 <= j < |run.ledger| ==> run.ledger[j].batch <= run.batches
    ensures forall j :: 0 <= j < |run.ledger + rows| ==> (run.ledger + rows)[j].batch <= run.batches + 1
  {
  }

  /** Only a capped policy stops, and then at the same step for every bet of the batch: nothing is applied. */
  lemma {:induction false} StopAnswers(p: Policy, run: Run, slots: Slots)
    requires p.Valid() && p.Fits(run.state) && 0.0 <= run.bankroll
    requires Stops(Requests(p, run.bankroll, run.state, slots))
    ensures forall j :: 0 <= j < |slots| ==> Answers(Requests(p, run.bankroll, run.state, slots))[j].applied == 0.0
  {
  }

  lemma {:induction false} SameCaps(a: seq<StakeRequest>, b: seq<StakeRequest>)
    requires |a| == |b| && forall j :: 0 <= j < |a| ==> a[j].capHit == b[j].capHit
    ensures FoldCaps(a) == FoldCaps(b)
  {
    if a != [] { SameCaps(a[..|a| - 1], b[..|b| - 1]); }
  }

  /** A batch that halts the path: the rows stake nothing, and only lack of capital is ruin. */
  lemma {:induction false} HaltedGoing(p: Policy, initial: real, run: Run, ps: Path, rows: seq<Row>, answers: seq<StakeRequest>, asked: Asked, over: bool)
    requires Going(p, initial, run, ps) && ps.active && Block(run, rows, answers, run.bankroll)
    requires forall j :: 0 <= j < |answers| ==> answers[j].applied == 0.0
    requires asked.capHits == FoldCaps(answers) && (over || asked.stop)
    requires over <==> exists j :: 0 <= j < |rows| && rows[j].ruin
    ensures Going(p, initial,
                  run.(ledger := run.ledger + rows, batches := run.batches + 1, terminated := true),
                  CloseBatch(ps, asked, over, false, Taken(0.0, ps.maxStake, ps.maxRatio, ps.loss, ps.target, ps.step)))
  {
    hide MaxStake;
    hide MaxRatio;
    hide CapHits;
    hide Ruined;
    hide Curve;
    hide TroughOf;
    FoldIdle(ps.maxStake, ps.bankroll, answers);
    FoldIdle(ps.maxRatio, ps.bankroll, answers);
    BlockMetrics(p, initial, run, ps, rows, answers, run.bankroll);
    RowsNumbered(run, rows, answers, run.bankroll);
  }

  lemma {:induction false} StoppedRows(p: Policy, run: Run, slots: Slots)
    requires p.Valid() && p.Fits(run.state) && 0.0 <= run.bankroll && slots != []
    requires Stops(Requests(p, run.bankroll, run.state, slots))
    ensures var requests := Requests(p, run.bankroll, run.state, slots);
            && Block(run, StopRows(run, slots, requests), Answers(requests), run.bankroll)
            && (forall j :: 0 <= j < |slots| ==> Answers(requests)[j].applied == 0.0)
            && !exists j :: 0 <= j < |slots| && StopRows(run, slots, requests)[j].ruin
  {
    StopAnswers(p, run, slots);
    hide Policy.Request;
  }

  /** A policy that stops: nothing is staked, the caps are counted, no ruin. */
  lemma {:induction false} StoppedBatch(p: Policy, initial: real, run: Run, ps: Path, slots: Slots)
    requires p.Valid() && Going(p, initial, run, ps) && !run.terminated && slots != [] && 0 < Bets(slots)
    requires Stops(Requests(p, run.bankroll, run.state, slots))
    ensures Going(p, initial, ReplayBatch(p, run, slots), PathBatch(p, ps, slots))
  {
    hide MaxStake;
    hide MaxRatio;
    hide CapHits;
    hide Ruined;
    hide Curve;
    hide TroughOf;
    hide FoldCaps;
    var requests := Requests(p, run.bankroll, run.state, slots);
    StoppedRows(p, run, slots);
    AskAgrees(p, ps, slots);
    IdleTake(p, ps, slots);
    hide Requests;
    hide Stops;
    hide StopRows;
    hide Exposure;
    hide Answers;
    hide AskBatch;
    hide TakeBatch;
    hide CloseBatch;
    hide Block;
    HaltedGoing(p, initial, run, ps, StopRows(run, slots, requests), Answers(requests), AskBatch(p, ps, slots), false);
    hide Going;
  }

  /** The answers of a batch that is not funded. */
  function Unstaked(requests: seq<Option<StakeRequest>>): seq<StakeRequest> {
    seq(|requests|, i requires 0 <= i < |requests| => Unfunded(requests[i].GetOr(ZeroRequest)))
  }

  lemma {:induction false} UnfundedRuin(run: Run, slots: Slots, requests: seq<Option<StakeRequest>>)
    requires |slots| == |requests| && 0 < Bets(slots)
    ensures exists j :: 0 <= j < |slots| && UnfundedRows(run, slots, requests)[j].ruin
  {
    SomeBet(slots);
    var j :| 0 <= j < |slots| && slots[j].Some?;
    assert UnfundedRows(run, slots, requests)[j].ruin;
  }

  lemma {:induction false} UnfundedBlock(run: Run, slots: Slots, requests: seq<Option<StakeRequest>>)
    requires slots != [] && |slots| == |requests|
    ensures Block(run, UnfundedRows(run, slots, requests), Unstaked(requests), run.bankroll)
    ensures forall j :: 0 <= j < |slots| ==> Unstaked(requests)[j].applied == 0.0
    ensures FoldCaps(Unstaked(requests)) == FoldCaps(Answers(requests))
  {
    SameCaps(Unstaked(requests), Answers(requests));
  }

  /** Not enough capital for the batch: nothing is staked, the path is ruined. */
  lemma {:induction false} UnfundedBatch(p: Policy, initial: real, run: Run, ps: Path, slots: Slots)
    requires p.Valid() && Going(p, initial, run, ps) && !run.terminated && slots != [] && 0 < Bets(slots)
    requires !Stops(Requests(p, run.bankroll, run.state, slots))
    requires Exposure(Requests(p, run.bankroll, run.state, slots)) > run.bankroll
    ensures Going(p, initial, ReplayBatch(p, run, slots), PathBatch(p, ps, slots))
  {
    var requests := Requests(p, run.bankroll, run.state, slots);
    UnfundedBlock(run, slots, requests);
    UnfundedRuin(run, slots, requests);
    AskAgrees(p, ps, slots);
    IdleTake(p, ps, slots);
    hide Requests;
    hide Stops;
    hide UnfundedRows;
    hide Unstaked;
    hide Exposure;
    hide Answers;
    hide AskBatch;
    hide TakeBatch;
    hide CloseBatch;
    hide Block;
    HaltedGoing(p, initial, run, ps, UnfundedRows(run, slots, requests), Unstaked(requests), AskBatch(p, ps, slots), true);
    hide Going;
  }

  /** A funded batch: the rows stake what the vectors take. */
  lemma {:induction false} FundedGoing(p: Policy, initial: real, run: Run, ps: Path, rows: seq<Row>, answers: seq<StakeRequest>,
                    asked: Asked, s: Settling, t: Taken)
    requires Going(p, initial, run, ps) && ps.active && Block(run, rows, answers, run.bankroll + s.pnl)
    requires 0.0 <= run.bankroll + s.pnl && p.Fits(s.state) && s.state == TakenMemory(p, t) && s.pnl == t.pnl
    requires t.maxStake == FoldStake(ps.maxStake, answers) && 0.0 <= t.maxStake
    requires t.maxRatio == FoldRatio(ps.maxRatio, ps.bankroll, answers) && 0.0 <= t.maxRatio
    requires asked.capHits == FoldCaps(answers) && !asked.stop
    requires (exists j :: 0 <= j < |rows| && rows[j].ruin) <==> run.bankroll + s.pnl <= 0.0
    ensures Going(p, initial,
                  Run(run.bankroll + s.pnl, s.state, run.ledger + rows, run.batches + 1, s.lengths, s.incomplete,
                      run.bankroll + s.pnl <= 0.0),
                  CloseBatch(ps, asked, false, true, t))
  {
    hide MaxStake;
    hide MaxRatio;
    hide CapHits;
    hide Ruined;
    hide Curve;
    hide TroughOf;
    hide FoldStake;
    hide FoldRatio;
    BlockMetrics(p, initial, run, ps, rows, answers, run.bankroll + s.pnl);
    RowsNumbered(run, rows, answers, run.bankroll + s.pnl);
  }

  lemma {:induction false} SettledBlock(p: Policy, run: Run, slots: Slots, requests: seq<Option<StakeRequest>>, s: Settling)
    requires slots != [] && |s.entries| == |slots| == |requests|
    requires forall j :: 0 <= j < |slots| ==> s.entries[j].request == Answers(requests)[j]
    ensures var rows := SettledRows(run, slots, s);
            && Block(run, rows, Answers(requests), run.bankroll + s.pnl)
            && ((exists j :: 0 <= j < |rows| && rows[j].ruin) <==> run.bankroll + s.pnl <= 0.0 && 0 < Bets(slots))
  {
    var rows := SettledRows(run, slots, s);
    SomeBet(slots);
    if 0 < Bets(slots) {
      var j :| 0 <= j < |slots| && slots[j].Some?;
      assert rows[j].ruin <==> run.bankroll + s.pnl <= 0.0;
    }
  }

  lemma {:induction false} SettledBatch(p: Policy, initial: real, run: Run, ps: Path, slots: Slots)
    requires p.Valid() && Going(p, initial, run, ps) && !run.terminated && slots != [] && 0 < Bets(slots)
    requires p.IsRecovery() ==> Bets(slots) <= 1
    requires !Stops(Requests(p, run.bankroll, run.state, slots))
    requires Exposure(Requests(p, run.bankroll, run.state, slots)) <= run.bankroll
    ensures Going(p, initial, ReplayBatch(p, run, slots), PathBatch(p, ps, slots))
  {
    hide Requests;
    hide Stops;
    hide SettledRows;
    hide SettleSlots;
    hide Exposure;
    hide Answers;
    hide AskBatch;
    hide TakeBatch;
    hide CloseBatch;
    hide Block;
    hide FoldStake;
    hide FoldRatio;
    hide FoldCaps;
    hide MaxStake;
    hide MaxRatio;
    hide CapHits;
    hide Ruined;
    hide Curve;
    var requests := Requests(p, run.bankroll, run.state, slots);
    var s := SettleSlots(p, run, slots, requests);
    AskAgrees(p, ps, slots);
    SettleAgrees(p, run, ps, slots);
    SettleFloor(p, run, slots);
    SettledBlock(p, run, slots, requests, s);
    FundedGoing(p, initial, run, ps, SettledRows(run, slots, s), Answers(requests), AskBatch(p, ps, slots), s,
                TakeBatch(p, ps, true, slots));
    hide Going;
  }

  /** A batch without bets leaves the path alone; the replay records it and goes on. */
  lemma {:induction false} BetlessBatch(p: Policy, initial: real, run: Run, ps: Path, slots: Slots)
    requires p.Valid() && Going(p, initial, run, ps) && !run.terminated && slots != [] && Bets(slots) == 0
    ensures Going(p, initial, ReplayBatch(p, run, slots), ps)
  {
    hide SettledRows;
    hide SettleSlots;
    hide TakeBatch;
    hide Block;
    hide Stops;
    hide Exposure;
    hide MaxStake;
    hide MaxRatio;
    hide CapHits;
    hide Ruined;
    hide Curve;
    hide FoldCaps;
    hide FoldStake;
    hide FoldRatio;
    var requests := Requests(p, run.bankroll, run.state, slots);
    var s := SettleSlots(p, run, slots, requests);
    BetlessRequests(p, run.bankroll, run.state, slots);
    BetlessAnswers(requests);
    SettleAgrees(p, run, ps, slots);
    hide Requests;
    hide Answers;
    SettledBlock(p, run, slots, requests, s);
    QuietGoing(p, initial, run, ps, SettledRows(run, slots, s), Answers(requests), s);
    hide Going;
  }

  lemma {:induction false} BetlessRequests(p: Policy, bankroll: real, state: PolicyState, slots: Slots)
    requires Bets(slots) == 0
    ensures forall j :: 0 <= j < |slots| ==> Requests(p, bankroll, state, slots)[j].None?
  {
    SomeBet(slots);
  }

  /** A block that stakes nothing leaves every reported value alone. */
  lemma {:induction false} QuietGoing(p: Policy, initial: real, run: Run, ps: Path, rows: seq<Row>, answers: seq<StakeRequest>, s: Settling)
    requires Going(p, initial, run, ps) && ps.active && Block(run, rows, answers, run.bankroll)
    requires forall j :: 0 <= j < |answers| ==> answers[j].applied == 0.0
    requires FoldCaps(answers) == 0 && !exists j :: 0 <= j < |rows| && rows[j].ruin
    requires s.pnl == 0.0 && s.state == MemoryOf(p, ps)
    ensures Going(p, initial,
                  Run(run.bankroll + s.pnl, s.state, run.ledger + rows, run.batches + 1, s.lengths, s.incomplete,
                      run.bankroll + s.pnl <= 0.0), ps)
  {
    hide MaxStake;
    hide MaxRatio;
    hide CapHits;
    hide Ruined;
    hide Curve;
    hide TroughOf;
    FoldIdle(ps.maxStake, ps.bankroll, answers);
    FoldIdle(ps.maxRatio, ps.bankroll, answers);
    BlockMetrics(p, initial, run, ps, rows, answers, run.bankroll);
    RowsNumbered(run, rows, answers, run.bankroll);
  }

  lemma {:induction false} BetlessAnswers(requests: seq<Option<StakeRequest>>)
    requires forall j :: 0 <= j < |requests| ==> requests[j].None?
    ensures !Stops(requests) && Exposure(requests) == 0.0 && FoldCaps(Answers(requests)) == 0
    ensures forall j :: 0 <= j < |requests| ==> Answers(requests)[j].applied == 0.0
  {
    if requests != [] {
      var last := |requests| - 1;
      BetlessAnswers(requests[..last]);
      assert Answers(requests)[..last] == Answers(requests[..last]);
    }
  }

  lemma {:induction false} BatchAgrees(p: Policy, initial: real, run: Run, ps: Path, slots: Slots)
    requires p.Valid() && Going(p, initial, run, ps) && slots != [] && (p.IsRecovery() ==> Bets(slots) <= 1)
    ensures Going(p, initial, ReplayBatch(p, run, slots), PathBatch(p, ps, slots))
  {
    if run.terminated {
      IdleBatch(p, ps, run, slots);
    } else if Bets(slots) == 0 {
      BetlessBatch(p, initial, run, ps, slots);
    } else if Stops(Requests(p, run.bankroll, run.state, slots)) {
      StoppedBatch(p, initial, run, ps, slots);
    } else if Exposure(Requests(p, run.bankroll, run.state, slots)) > run.bankroll {
      UnfundedBatch(p, initial, run, ps, slots);
    } else {
      SettledBatch(p, initial, run, ps, slots);
    }
  }

  lemma {:induction false} FreshGoing(p: Policy, initial: real)
    requires p.Valid() && 0.0 < initial
    ensures Going(p, initial, Begin(p, initial), Fresh(initial))
  {
  }

  /** Every batch has something in it, and a recovery policy never has two bets in one. */
  ghost predicate Usable(p: Policy, batches: seq<Slots>) {
    forall i :: 0 <= i < |batches| ==> batches[i] != [] && (p.IsRecovery() ==> Bets(batches[i]) <= 1)
  }

  lemma {:induction false} RunAgrees(p: Policy, initial: real, batches: seq<Slots>)
    requires p.Valid() && 0.0 < initial && Usable(p, batches)
    ensures Going(p, initial, ReplayAll(p, initial, batches), PathAll(p, initial, batches))
  {
    hide Going;
    hide ReplayBatch;
    hide PathBatch;
    if batches == [] {
      FreshGoing(p, initial);
    } else {
      var last := |batches| - 1;
      RunAgrees(p, initial, batches[..last]);
      BatchAgrees(p, initial, ReplayAll(p, initial, batches[..last]), PathAll(p, initial, batches[..last]), batches[last]);
    }
  }

  /**
    The fast form refines the simple one: whatever the policy, the stress and
    the draws, path i of the simulation reports exactly what the replay of path
    i's scenario reports.
   */
  lemma {:induction false} PathIsReplay(p: Policy, initial: real, stress: ValidStress, draws: Draws, batches: seq<Slots>)
    requires p.Valid() && 0.0 < initial && Usable(p, batches)
    ensures var scenario := Scenarios(stress, draws, batches);
            var ps := PathAll(p, initial, scenario);
            var run := ReplayAll(p, initial, scenario);
            var m := MetricsOf(initial, run.ledger);
            && ps.bankroll == run.bankroll
            && ps.terminated == run.terminated
            && ps.ruined == m.ruined
            && ps.capHits == m.capHits
            && ps.maxStake == m.maxStake
            && ps.maxRatio == m.maxRatio
            && ps.drawdown == m.drawdown
  {
    hide PathAll;
    hide ReplayAll;
    hide Scenarios;
    ScenariosUsable(p, stress, draws, batches);
    RunAgrees(p, initial, Scenarios(stress, draws, batches));
  }

  lemma {:induction false} ScenariosUsable(p: Policy, stress: ValidStress, draws: Draws, batches: seq<Slots>)
    requires Usable(p, batches)
    ensures Usable(p, Scenarios(stress, draws, batches))
  {
    hide Scenario;
    if batches != [] {
      var last := |batches| - 1;
      ScenariosUsable(p, stress, draws, batches[..last]);
      ScenarioBets(stress, draws, AllBets(batches[..last]), batches[last]);
    }
  }

  lemma {:induction false} ActionsAreBets(batch: seq<Decision>)
    requires forall d :: d in batch ==> Decisions.Priced(d)
    ensures Bets(SlotsOf(batch)) == Actions(batch)
  {
    if batch != [] {
      var last := |batch| - 1;
      ActionsAreBets(batch[..last]);
      assert SlotsOf(batch)[..last] == SlotsOf(batch[..last]);
      assert batch[last] in batch;
    }
  }

  /** A validated basis is grouped into usable batches. */
  lemma {:induction false} BasisUsable(ds: seq<Decision>, p: Policy)
    requires ValidateBasis(ds, p, false).None? && AllPriced(ds)
    ensures Usable(p, AllSlots(GroupByTime(ds)))
  {
    var groups := GroupByTime(ds);
    forall i | 0 <= i < |groups|
      ensures AllSlots(groups)[i] != [] && (p.IsRecovery() ==> Bets(AllSlots(groups)[i]) <= 1)
    {
      forall d | d in groups[i]
        ensures Decisions.Priced(d)
      {
        var j :| 0 <= j < |groups[i]| && groups[i][j] == d;
      }
      ActionsAreBets(groups[i]);
      assert AllSlots(groups)[i] == SlotsOf(groups[i]);
    }
  }

  /** Without stress a path sees the quoted price and probability, and only its result is drawn. */
  lemma {:induction false} NoStress(bet: Bet, action: nat, draw: real)
    requires 0.0 <= bet.probability <= 1.0
    ensures Stressed(Stress(0.0, 0.0, 0, 0), bet, action, draw) == bet.(won := draw < bet.probability)
  {
    var odds := bet.price - 1.0;
    assert odds * (1.0 - 0.0) == odds;
  }

  /** The simulation of a validated list of decisions: every reported vector is, at i, what replaying path i reports. */
  lemma {:induction false} SimulationIsReplay(ds: seq<Decision>, p: Policy, initial: real, paths: int, stress: ValidStress, draws: Matrix,
                                              now: seq<Path>, i: nat)
    requires p.Valid() && SimulationFlaw(ds, p, initial, paths, stress).None? && AllPriced(ds) && i < |now|
    requires LivedAll(p, initial, now, stress, draws, AllSlots(GroupByTime(ds)))
    ensures var run := ReplayAll(p, initial, Scenarios(stress, Column(draws, i), AllSlots(GroupByTime(ds))));
            var m := MetricsOf(initial, run.ledger);
            && now[i].bankroll == run.bankroll && now[i].terminated == run.terminated
            && now[i].ruined == m.ruined && now[i].capHits == m.capHits
            && now[i].maxStake == m.maxStake && now[i].maxRatio == m.maxRatio && now[i].drawdown == m.drawdown
  {
    hide ReplayAll;
    hide PathAll;
    hide Scenarios;
    hide MetricsOf;
    BasisUsable(ds, p);
    PathIsReplay(p, initial, stress, Column(draws, i), AllSlots(GroupByTime(ds)));
  }
}

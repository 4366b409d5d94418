/**
  Without stress, path i of the simulation is the replay of the very same
  decisions, each with the outcome that path i drew for it.
 */
module DrawnDecisions {
  import opened Common
  import opened Policies
  import opened Decisions
  import opened Replay
  import opened LedgerMetrics
  import opened Simulation
  import opened SimulationRun
  import opened SimulationRefinesReplay

  const Calm: ValidStress := Stress(0.0, 0.0, 0, 0)

  /** Some side that is not this one. */
  function OtherSide(side: Side): Side {
    match side
    case Home => Draw
    case Draw => Away
    case Away => Home
  }

  /** A decision whose bet has won or lost. */
  function Resolved(d: Decision, won: bool): Decision {
    if d.action.Some? then d.(outcome := Some(if won then d.action.value else OtherSide(d.action.value))) else d
  }

  /** Decisions with the outcomes of one path, the n-th bet winning when its draw lies below its probability. */
  function Drawn(ds: seq<Decision>, draws: Draws): (r: seq<Decision>)
    ensures |r| == |ds|
  {
    if ds == [] then []
    else
      var before, d := ds[..|ds| - 1], ds[|ds| - 1];
      Drawn(before, draws) + [Resolved(d, draws(Actions(before)) < d.probability.GetOr(0.0))]
  }

  /** A decision that can be simulated. */
  predicate Simulable(d: Decision) {
    Decisions.Priced(d) && (d.Actionable() ==> d.probability.Some? && 0.0 <= d.probability.value <= 1.0)
  }

  ghost predicate AllSimulable(ds: seq<Decision>) {
    forall i :: 0 <= i < |ds| ==> Simulable(ds[i])
  }

  lemma GroupsPriced(ds: seq<Decision>)
    requires AllSimulable(ds)
    ensures AllPriced(ds)
  {
    GroupedFrom(ds);
    var groups := GroupByTime(ds);
    forall i, j | 0 <= i < |groups| && 0 <= j < |groups[i]|
      ensures Decisions.Priced(groups[i][j])
    {
      assert groups[i] in groups && groups[i][j] in groups[i];
    }
  }

  lemma {:induction false} DrawnSimulable(ds: seq<Decision>, draws: Draws)
    requires AllSimulable(ds)
    ensures AllSimulable(Drawn(ds, draws))
  {
    if ds != [] { DrawnSimulable(ds[..|ds| - 1], draws); }
  }

  /** The batches of a list as the engines see them. */
  ghost function BatchSlots(ds: seq<Decision>): seq<Slots>
    requires AllSimulable(ds)
  {
    GroupsPriced(ds);
    AllSlots(GroupByTime(ds))
  }

  predicate Joins(groups: seq<seq<Decision>>, d: Decision)
    requires forall i :: 0 <= i < |groups| ==> groups[i] != []
  {
    groups != [] && groups[|groups| - 1][0].time == d.time
  }

  /** One more decision: it joins the last batch, or opens a new one. */
  lemma BatchSlotsNext(ds: seq<Decision>)
    requires ds != [] && AllSimulable(ds)
    ensures var before, d := ds[..|ds| - 1], ds[|ds| - 1];
            AllSimulable(before) &&
            var slots, last := BatchSlots(before), |BatchSlots(before)| - 1;
            BatchSlots(ds) ==
            if Joins(GroupByTime(before), d) then slots[..last] + [slots[last] + [BetOf(d)]] else slots + [[BetOf(d)]]
    ensures Joins(GroupByTime(ds[..|ds| - 1]), ds[|ds| - 1]) ==> BatchSlots(ds[..|ds| - 1]) != []
  {
    var before, d := ds[..|ds| - 1], ds[|ds| - 1];
    assert AllSimulable(before);
    GroupsPriced(ds);
    GroupsPriced(before);
    var groups := GroupByTime(before);
    if Joins(groups, d) {
      var last := |groups| - 1;
      assert SlotsOf(groups[last] + [d]) == SlotsOf(groups[last]) + [BetOf(d)];
      assert GroupByTime(ds) == groups[..last] + [groups[last] + [d]];
    } else {
      assert SlotsOf([d]) == [BetOf(d)];
      assert GroupByTime(ds) == groups + [[d]];
    }
  }

  /** Two groupings into batches of the same sizes and times. */
  ghost predicate SameShape(a: seq<seq<Decision>>, b: seq<seq<Decision>>) {
    && |a| == |b|
    && forall i :: 0 <= i < |a| ==> a[i] != [] && b[i] != [] && |a[i]| == |b[i]| && a[i][0].time == b[i][0].time
  }

  function Grouped(groups: seq<seq<Decision>>, d: Decision): seq<seq<Decision>>
    requires forall i :: 0 <= i < |groups| ==> groups[i] != []
  {
    if Joins(groups, d) then groups[..|groups| - 1] + [groups[|groups| - 1] + [d]] else groups + [[d]]
  }

  lemma GroupedSame(a: seq<seq<Decision>>, b: seq<seq<Decision>>, d: Decision, e: Decision)
    requires SameShape(a, b) && d.time == e.time
    ensures SameShape(Grouped(a, d), Grouped(b, e)) && (Joins(a, d) <==> Joins(b, e))
  {
  }

  /** The draws change no time, so the drawn decisions fall into the same batches. */
  lemma {:induction false} SameGroups(ds: seq<Decision>, draws: Draws)
    ensures SameShape(GroupByTime(ds), GroupByTime(Drawn(ds, draws)))
  {
    if ds != [] {
      var before, d := ds[..|ds| - 1], ds[|ds| - 1];
      var drawn := Drawn(ds, draws);
      SameGroups(before, draws);
      assert drawn[..|ds| - 1] == Drawn(before, draws) && drawn[|ds| - 1].time == d.time;
      assert GroupByTime(ds) == Grouped(GroupByTime(before), d);
      assert GroupByTime(drawn) == Grouped(GroupByTime(drawn[..|ds| - 1]), drawn[|ds| - 1]);
      hide GroupByTime;
      hide Drawn;
      GroupedSame(GroupByTime(before), GroupByTime(Drawn(before, draws)), d, drawn[|ds| - 1]);
    }
  }

  lemma BetsMore(slots: Slots, slot: Option<Bet>)
    ensures Bets(slots + [slot]) == Bets(slots) + if slot.Some? then 1 else 0
  {
    assert (slots + [slot])[..|slots|] == slots;
  }

  lemma AllBetsMore(batches: seq<Slots>, batch: Slots)
    ensures AllBets(batches + [batch]) == AllBets(batches) + Bets(batch)
  {
    assert (batches + [batch])[..|batches|] == batches;
  }

  lemma BetOfSome(d: Decision)
    requires Decisions.Priced(d)
    ensures BetOf(d).Some? <==> d.Actionable()
  {
  }

  lemma JoinedBets(slots: seq<Slots>, slot: Option<Bet>)
    requires slots != []
    ensures var last := |slots| - 1;
            AllBets(slots[..last] + [slots[last] + [slot]]) == AllBets(slots) + if slot.Some? then 1 else 0
  {
    hide Bets;
    var before, last := slots[..|slots| - 1], slots[|slots| - 1];
    AllBetsMore(before, last + [slot]);
    BetsMore(last, slot);
  }

  lemma OpenedBets(slots: seq<Slots>, slot: Option<Bet>)
    ensures AllBets(slots + [[slot]]) == AllBets(slots) + if slot.Some? then 1 else 0
  {
    hide AllBets;
    AllBetsMore(slots, [slot]);
    BetsMore([], slot);
    assert [] + [slot] == [slot];
  }

  lemma {:induction false} BetsSoFar(ds: seq<Decision>)
    requires AllSimulable(ds)
    ensures AllBets(BatchSlots(ds)) == Actions(ds)
  {
    if ds == [] {
      GroupsPriced(ds);
    } else {
      var before, d := ds[..|ds| - 1], ds[|ds| - 1];
      BatchSlotsNext(ds);
      BetsSoFar(before);
      BetOfSome(d);
      hide BatchSlots;
      hide BetOf;
      hide GroupByTime;
      hide AllBets;
      if Joins(GroupByTime(before), d) {
        JoinedBets(BatchSlots(before), BetOf(d));
      } else {
        OpenedBets(BatchSlots(before), BetOf(d));
      }
    }
  }

  lemma ScenarioMore(draws: Draws, first: nat, slots: Slots, slot: Option<Bet>)
    ensures Scenario(Calm, draws, first, slots + [slot]) ==
            Scenario(Calm, draws, first, slots) +
            [if slot.Some? then Some(Stressed(Calm, slot.value, first + Bets(slots), draws(first + Bets(slots)))) else None]
  {
    hide Stressed;
    assert (slots + [slot])[..|slots|] == slots;
  }

  lemma ScenariosMore(draws: Draws, batches: seq<Slots>, batch: Slots)
    ensures Scenarios(Calm, draws, batches + [batch]) ==
            Scenarios(Calm, draws, batches) + [Scenario(Calm, draws, AllBets(batches), batch)]
  {
    hide Scenario;
    assert (batches + [batch])[..|batches|] == batches;
  }

  lemma ScenariosLast(draws: Draws, batches: seq<Slots>)
    requires batches != []
    ensures var last := |batches| - 1;
            Scenarios(Calm, draws, batches)[..last] == Scenarios(Calm, draws, batches[..last])
            && Scenarios(Calm, draws, batches)[last] == Scenario(Calm, draws, AllBets(batches[..last]), batches[last])
            && AllBets(batches) == AllBets(batches[..last]) + Bets(batches[last])
  {
    hide Scenario;
  }

  /** What path i sees of one decision is the bet of the decision with its drawn outcome. */
  lemma DrawnBetOf(d: Decision, draws: Draws, n: nat)
    requires Simulable(d)
    ensures var r := Resolved(d, draws(n) < d.probability.GetOr(0.0));
            Simulable(r) && r.time == d.time
            && BetOf(r) == if BetOf(d).Some? then Some(Stressed(Calm, BetOf(d).value, n, draws(n))) else None
  {
    if d.Actionable() { NoStress(BetOf(d).value, n, draws(n)); }
    hide Stressed;
  }

  /** One more slot in the last batch of a scenario. */
  lemma ScenariosJoin(draws: Draws, before: seq<Slots>, last: Slots, slot: Option<Bet>, drawn: Option<Bet>)
    requires var n := AllBets(before) + Bets(last);
             drawn == if slot.Some? then Some(Stressed(Calm, slot.value, n, draws(n))) else None
    ensures Scenarios(Calm, draws, before + [last + [slot]]) ==
            Scenarios(Calm, draws, before) + [Scenario(Calm, draws, AllBets(before), last) + [drawn]]
  {
    hide Stressed;
    hide Scenario;
    hide Scenarios;
    hide AllBets;
    hide Bets;
    ScenariosMore(draws, before, last + [slot]);
    ScenarioMore(draws, AllBets(before), last, slot);
  }

  /** One more slot in a new batch of a scenario. */
  lemma ScenariosOpen(draws: Draws, slots: seq<Slots>, slot: Option<Bet>, drawn: Option<Bet>)
    requires drawn == if slot.Some? then Some(Stressed(Calm, slot.value, AllBets(slots), draws(AllBets(slots)))) else None
    ensures Scenarios(Calm, draws, slots + [[slot]]) == Scenarios(Calm, draws, slots) + [[drawn]]
  {
    hide Stressed;
    assert Scenario(Calm, draws, AllBets(slots), []) == [] && Bets([]) == 0;
    hide Scenario;
    hide Scenarios;
    hide AllBets;
    hide Bets;
    ScenariosMore(draws, slots, [slot]);
    ScenarioMore(draws, AllBets(slots), [], slot);
    assert [] + [slot] == [slot];
    assert Scenario(Calm, draws, AllBets(slots), [slot]) == [drawn];
  }

  lemma NothingDrawn(draws: Draws)
    ensures Drawn([], draws) == [] && AllSimulable([]) && BatchSlots([]) == [] && Scenarios(Calm, draws, []) == []
  {
    GroupsPriced([]);
  }

  lemma DrawnBefore(ds: seq<Decision>, draws: Draws)
    requires AllSimulable(ds) && ds != []
    ensures var last := |ds| - 1;
            && Drawn(ds, draws)[..last] == Drawn(ds[..last], draws)
            && Drawn(ds, draws)[last] == Resolved(ds[last], draws(Actions(ds[..last])) < ds[last].probability.GetOr(0.0))
            && AllSimulable(ds[..last]) && Simulable(ds[last]) && Simulable(Drawn(ds, draws)[last])
  {
    DrawnSimulable(ds, draws);
    hide Resolved;
    hide Simulable;
  }

  /** The batches of the drawn decisions are the scenario of the batches. */
  lemma {:induction false} DrawnIsScenario(ds: seq<Decision>, draws: Draws)
    requires AllSimulable(ds)
    ensures AllSimulable(Drawn(ds, draws)) && BatchSlots(Drawn(ds, draws)) == Scenarios(Calm, draws, BatchSlots(ds))
  {
    hide AllSimulable;
    hide Drawn;
    hide Resolved;
    hide BatchSlots;
    hide Scenarios;
    hide Stressed;
    hide GroupByTime;
    hide Joins;
    hide BetOf;
    DrawnSimulable(ds, draws);
    if ds == [] {
      NothingDrawn(draws);
    } else {
      var before, d := ds[..|ds| - 1], ds[|ds| - 1];
      var drawn := Drawn(ds, draws);
      DrawnBefore(ds, draws);
      DrawnIsScenario(before, draws);
      BatchSlotsNext(ds);
      BatchSlotsNext(drawn);
      SameGroups(before, draws);
      BetsSoFar(before);
      DrawnBetOf(d, draws, Actions(before));
      GroupedSame(GroupByTime(before), GroupByTime(Drawn(before, draws)), d, drawn[|ds| - 1]);
      if Joins(GroupByTime(before), d) {
        var slots := BatchSlots(before);
        ScenariosLast(draws, slots);
        ScenariosJoin(draws, slots[..|slots| - 1], slots[|slots| - 1], BetOf(d), BetOf(drawn[|ds| - 1]));
      } else {
        ScenariosOpen(draws, BatchSlots(before), BetOf(d), BetOf(drawn[|ds| - 1]));
      }
    }
  }

  // ---- the simulation as replays -------------------------------------------------------

  lemma {:induction false} DrawnDecision(ds: seq<Decision>, draws: Draws, i: nat)
    requires i < |ds|
    ensures exists won :: Drawn(ds, draws)[i] == Resolved(ds[i], won)
  {
    hide Resolved;
    if i < |ds| - 1 {
      DrawnDecision(ds[..|ds| - 1], draws, i);
    } else {
      assert Drawn(ds, draws)[i] == Resolved(ds[i], draws(Actions(ds[..i])) < ds[i].probability.GetOr(0.0));
    }
  }

  lemma {:induction false} NoFirstFlaw(ds: seq<Decision>, p: Policy)
    requires forall i :: 0 <= i < |ds| ==> Flaw(ds[i], p, true).None?
    ensures FirstFlaw(ds, p, true).None?
  {
    hide Flaw;
    if ds != [] { NoFirstFlaw(ds[..|ds| - 1], p); }
  }

  /** What the simulation accepts can be simulated. */
  lemma FlawlessSimulable(ds: seq<Decision>, p: Policy)
    requires ValidateBasis(ds, p, false).None? && ProbabilityFlaw(ds).None?
    ensures AllSimulable(ds)
  {
    NoFlaw(ds, p, false);
    forall i | 0 <= i < |ds|
      ensures Simulable(ds[i])
    {
      assert ds[i] in ds && Flaw(ds[i], p, false).None?;
    }
  }

  /** The drawn decisions are a valid basis of a replay. */
  lemma DrawnValid(ds: seq<Decision>, p: Policy, draws: Draws)
    requires ValidateBasis(ds, p, false).None? && ProbabilityFlaw(ds).None?
    ensures ValidateBasis(Drawn(ds, draws), p, true).None?
  {
    FlawlessSimulable(ds, p);
    NoFlaw(ds, p, false);
    var drawn := Drawn(ds, draws);
    forall i | 0 <= i < |drawn|
      ensures Flaw(drawn[i], p, true).None?
    {
      DrawnDecision(ds, draws, i);
      assert ds[i] in ds && Flaw(ds[i], p, false).None? && Simulable(ds[i]);
    }
    NoFirstFlaw(drawn, p);
    if p.IsRecovery() {
      forall i | 0 <= i < |GroupByTime(drawn)|
        ensures Actions(GroupByTime(drawn)[i]) <= 1
      {
        SameGroups(ds, draws);
        assert Actions(GroupByTime(ds)[i]) <= 1;
        SameActions(ds, draws, i);
      }
    }
  }

  /** A batch of drawn decisions holds as many bets as before. */
  lemma SameActions(ds: seq<Decision>, draws: Draws, i: nat)
    requires AllSimulable(ds) && i < |GroupByTime(ds)| == |GroupByTime(Drawn(ds, draws))|
    ensures Actions(GroupByTime(Drawn(ds, draws))[i]) == Actions(GroupByTime(ds)[i])
  {
    var drawn := Drawn(ds, draws);
    DrawnIsScenario(ds, draws);
    BatchActions(ds, i);
    BatchActions(drawn, i);
    ScenarioAt(draws, BatchSlots(ds), i);
    ScenarioBets(Calm, draws, AllBets(BatchSlots(ds)[..i]), BatchSlots(ds)[i]);
    hide BatchSlots;
    hide Scenario;
    hide Scenarios;
    hide GroupByTime;
    hide Drawn;
  }

  lemma BatchActions(ds: seq<Decision>, i: nat)
    requires AllSimulable(ds) && i < |GroupByTime(ds)|
    ensures |BatchSlots(ds)| == |GroupByTime(ds)| && Bets(BatchSlots(ds)[i]) == Actions(GroupByTime(ds)[i])
  {
    GroupsPriced(ds);
    var batch := GroupByTime(ds)[i];
    forall d | d in batch
      ensures Decisions.Priced(d)
    {
      var j :| 0 <= j < |batch| && batch[j] == d;
    }
    ActionsAreBets(batch);
  }

  lemma {:induction false} ScenarioAt(draws: Draws, batches: seq<Slots>, i: nat)
    requires i < |batches|
    ensures Scenarios(Calm, draws, batches)[i] == Scenario(Calm, draws, AllBets(batches[..i]), batches[i])
  {
    hide Scenario;
    hide AllBets;
    var last := |batches| - 1;
    if i < last {
      ScenarioAt(draws, batches[..last], i);
      assert batches[..last][..i] == batches[..i];
    }
  }

  /**
    The simulation without stress, path by path: what path i reports is what
    replaying the same decisions reports, each with the outcome drawn for it.
   */
  lemma CalmPathIsReplay(ds: seq<Decision>, p: Policy, initial: real, paths: int, draws: Matrix, now: seq<Path>, i: nat)
    requires p.Valid() && SimulationFlaw(ds, p, initial, paths, Calm).None? && AllPriced(ds) && i < |now|
    requires LivedAll(p, initial, now, Calm, draws, AllSlots(GroupByTime(ds)))
    ensures var drawn := Drawn(ds, Column(draws, i));
            && ValidateBasis(drawn, p, true).None? && AllPriced(drawn)
            && var run := ReplayAll(p, initial, AllSlots(GroupByTime(drawn)));
               var m := MetricsOf(initial, run.ledger);
               && now[i].bankroll == run.bankroll && now[i].terminated == run.terminated
               && now[i].ruined == m.ruined && now[i].capHits == m.capHits
               && now[i].maxStake == m.maxStake && now[i].maxRatio == m.maxRatio && now[i].drawdown == m.drawdown
  {
    FlawlessSimulable(ds, p);
    DrawnValid(ds, p, Column(draws, i));
    DrawnIsScenario(ds, Column(draws, i));
    GroupsPriced(Drawn(ds, Column(draws, i)));
    hide ReplayAll;
    hide MetricsOf;
    hide LivedAll;
    hide Scenarios;
    SimulationIsReplay(ds, p, initial, paths, Calm, draws, now, i);
  }
}

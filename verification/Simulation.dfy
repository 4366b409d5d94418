/**
  The vectorised Monte Carlo of football/capital/simulation.py: state vectors
  over all paths, updated in place batch by batch. Path i is specified by
  `PathAll`, which never looks at another path.
 */
module Simulation {
  import opened Common
  import opened Policies
  import opened Decisions

  // ---- stress ----------------------------------------------------------------------

  datatype Stress = Stress(probabilityDelta: real, priceHaircut: real, forcedStart: int, forcedLength: int) {
    predicate Valid() {
      0.0 <= probabilityDelta <= 1.0 && 0.0 <= priceHaircut < 1.0 && 0 <= forcedStart && 0 <= forcedLength
    }
  }

  type ValidStress = s: Stress | s.Valid() witness Stress(0.0, 0.0, 0, 0)

  function DeterioratedProbability(probability: real, delta: real): real {
    Min(Max(probability - delta, 0.0), 1.0)
  }

  function DeterioratedPrice(price: Price, haircut: real): Price
    requires 0.0 <= haircut < 1.0
  {
    HaircutValid(price, haircut);
    1.0 + (price - 1.0) * (1.0 - haircut)
  }

  predicate ForcedLoss(stress: Stress, action: int) {
    stress.forcedStart <= action < stress.forcedStart + stress.forcedLength
  }

  /** A bet under stress on one path: its price and probability deteriorate, its result is drawn. */
  function Stressed(stress: ValidStress, bet: Bet, action: nat, draw: real): Bet {
    var probability := DeterioratedProbability(bet.probability, stress.probabilityDelta);
    Bet(DeterioratedPrice(bet.price, stress.priceHaircut), probability,
        draw < probability && !ForcedLoss(stress, action))
  }

  function Bets(slots: Slots): nat {
    if slots == [] then 0 else Bets(slots[..|slots| - 1]) + if slots[|slots| - 1].Some? then 1 else 0
  }

  function AllBets(batches: seq<Slots>): nat {
    if batches == [] then 0 else AllBets(batches[..|batches| - 1]) + Bets(batches[|batches| - 1])
  }

  /** The draws of one path, one for each bet in order. */
  type Draws = nat -> real

  /** One batch as path i lives it, the first bet being the `first`-th of the whole run. */
  function Scenario(stress: ValidStress, draws: Draws, first: nat, slots: Slots): (r: Slots)
    ensures |r| == |slots|
  {
    if slots == [] then []
    else
      var last := |slots| - 1;
      Scenario(stress, draws, first, slots[..last]) +
      [if slots[last].Some? then
         Some(Stressed(stress, slots[last].value, first + Bets(slots[..last]), draws(first + Bets(slots[..last]))))
       else None]
  }

  /** Stress changes no bet into none, and none into a bet. */
  lemma {:induction false} ScenarioBets(stress: ValidStress, draws: Draws, first: nat, slots: Slots)
    ensures Bets(Scenario(stress, draws, first, slots)) == Bets(slots)
  {
    hide Stressed;
    if slots != [] {
      var last := |slots| - 1;
      ScenarioBets(stress, draws, first, slots[..last]);
      assert Scenario(stress, draws, first, slots)[..last] == Scenario(stress, draws, first, slots[..last]);
    }
  }

  /** The whole run as path i lives it. */
  function Scenarios(stress: ValidStress, draws: Draws, batches: seq<Slots>): (r: seq<Slots>)
    ensures |r| == |batches|
  {
    if batches == [] then []
    else
      var last := |batches| - 1;
      Scenarios(stress, draws, batches[..last]) + [Scenario(stress, draws, AllBets(batches[..last]), batches[last])]
  }

  // ---- one path --------------------------------------------------------------------

  /** What the vectors hold for one path; `target` is None where the target vector holds NaN. */
  datatype Path = Path(
    bankroll: real,
    peak: real,
    drawdown: real,
    maxStake: real,
    maxRatio: real,
    ruined: bool,
    terminated: bool,
    capHits: nat,
    active: bool,
    loss: real,
    target: Option<real>,
    step: nat)

  function Fresh(initial: real): Path {
    Path(initial, initial, 0.0, 0.0, 0.0, false, false, 0, true, 0.0, None, 0)
  }

  datatype Answer = Answer(requested: real, applied: real, capHit: bool, stop: bool)

  /** One component of the vectorised stake request. */
  function RequestedAt(p: Policy, price: Price, probability: real, bankroll: real, target: Option<real>, loss: real): real {
    match p
    case FlatUnit(unit) => unit
    case FixedFraction(fraction) => fraction * bankroll
    case FixedTarget(t) => t / (price - 1.0)
    case FractionalKelly(share) => share * Max(0.0, (probability * price - 1.0) / (price - 1.0)) * bankroll
    case LegacyRecovery(initial) =>
      if target.None? then initial else Ceiling((target.value + loss) / (price - 1.0)) as real
    case LegacyCapped(initial, _, _, _) =>
      if target.None? then initial else (target.value + loss) / (price - 1.0)
    case LegacyPartial(t, alpha) => (t + alpha * loss) / (price - 1.0)
  }

  function CapAt(p: Policy, requested: real, bankroll: real): real
    requires p.LegacyCapped?
  {
    var byFraction := if p.maxFraction.Some? then Min(requested, p.maxFraction.value * bankroll) else requested;
    if p.maxAbsolute.Some? then Min(byFraction, p.maxAbsolute.value) else byFraction
  }

  function AnswerAt(p: Policy, price: Price, probability: real, bankroll: real, target: Option<real>, loss: real, step: nat): Answer {
    var requested := RequestedAt(p, price, probability, bankroll, target, loss);
    if p.LegacyCapped? then
      var stop := p.maxSteps.Some? && p.maxSteps.value < step + 1;
      var applied := if stop then 0.0 else CapAt(p, requested, bankroll);
      Answer(requested, applied, applied < requested, stop)
    else
      Answer(requested, requested, false, false)
  }

  function AnswerFor(p: Policy, ps: Path, bet: Bet): Answer {
    AnswerAt(p, bet.price, bet.probability, ps.bankroll, ps.target, ps.loss, ps.step)
  }

  /** What the requests of one batch add up to. */
  datatype Asked = Asked(exposure: real, stop: bool, capHits: nat)

  function AskBatch(p: Policy, ps: Path, slots: Slots): Asked {
    if slots == [] then Asked(0.0, false, 0)
    else
      var last := slots[|slots| - 1];
      var before := AskBatch(p, ps, slots[..|slots| - 1]);
      if last.None? then before
      else
        var a := AnswerFor(p, ps, last.value);
        Asked(before.exposure + a.requested, before.stop || a.stop, before.capHits + if a.capHit then 1 else 0)
  }

  /** What settling one batch accumulates on one path. */
  datatype Taken = Taken(pnl: real, maxStake: real, maxRatio: real, loss: real, target: Option<real>, step: nat)

  /** The target of a sequence that starts with this bet. */
  function DerivedTarget(p: Policy, price: Price): real
    requires p.IsRecovery()
  {
    if p.LegacyPartial? then p.target else p.initialStake * (price - 1.0)
  }

  /** One component of the vectorised recovery settlement. */
  function Recover(p: Policy, bet: Bet, stake: real, funded: bool, t: Taken): Taken {
    if !funded || !p.IsRecovery() then t
    else if bet.won then t.(loss := 0.0, target := None, step := 0)
    else
      t.(loss := t.loss + stake,
         target := if t.target.None? then Some(DerivedTarget(p, bet.price)) else t.target,
         step := t.step + 1)
  }

  /** Book one stake: the profit or loss, and the largest stake so far. */
  function Booked(bankroll: real, funded: bool, t: Taken, bet: Bet, stake: real): Taken {
    var ratio := if funded && 0.0 < bankroll then stake / bankroll else 0.0;
    var pnl := if funded then (if bet.won then stake * (bet.price - 1.0) else -stake) else 0.0;
    t.(pnl := t.pnl + pnl, maxStake := Max(t.maxStake, stake), maxRatio := Max(t.maxRatio, ratio))
  }

  function TakeBet(p: Policy, ps: Path, funded: bool, t: Taken, bet: Bet): Taken {
    var stake := if funded then AnswerFor(p, ps, bet).applied else 0.0;
    Recover(p, bet, stake, funded, Booked(ps.bankroll, funded, t, bet, stake))
  }

  function TakeBatch(p: Policy, ps: Path, funded: bool, slots: Slots): Taken {
    if slots == [] then Taken(0.0, ps.maxStake, ps.maxRatio, ps.loss, ps.target, ps.step)
    else
      var last := slots[|slots| - 1];
      var before := TakeBatch(p, ps, funded, slots[..|slots| - 1]);
      if last.None? then before else TakeBet(p, ps, funded, before, last.value)
  }

  /** The end of a batch on one path, once its bets are taken. */
  function CloseBatch(ps: Path, asked: Asked, over: bool, funded: bool, t: Taken): Path {
    var bankroll := ps.bankroll + t.pnl;
    var depleted := funded && bankroll <= 0.0;
    var peak := Max(ps.peak, bankroll);
    Path(bankroll, peak,
         Max(ps.drawdown, if 0.0 < peak then (peak - bankroll) / peak else 0.0),
         t.maxStake, t.maxRatio,
         ps.ruined || over || depleted,
         ps.terminated || over || (asked.stop && ps.active) || depleted,
         ps.capHits + if ps.active then asked.capHits else 0,
         ps.active && !over && !(asked.stop && ps.active) && !depleted,
         t.loss, t.target, t.step)
  }

  function PathBatch(p: Policy, ps: Path, slots: Slots): Path {
    if Bets(slots) == 0 then ps
    else
      var asked := AskBatch(p, ps, slots);
      var stop := asked.stop && ps.active;
      var over := ps.active && !stop && asked.exposure > ps.bankroll;
      var funded := ps.active && !over && !stop;
      CloseBatch(ps, asked, over, funded, TakeBatch(p, ps, funded, slots))
  }

  function PathAll(p: Policy, initial: real, batches: seq<Slots>): Path {
    if batches == [] then Fresh(initial)
    else PathBatch(p, PathAll(p, initial, batches[..|batches| - 1]), batches[|batches| - 1])
  }
}

/**
  The state vectors of football/capital/simulation.py, updated in place for all
  paths at once, and proved path by path against `Simulation.PathAll`.
 */
module SimulationRun {
  import opened Common
  import opened Policies
  import opened Decisions
  import opened Simulation
  import Replay

  /** One uniform draw for each bet of the run and each path. */
  type Matrix = (nat, nat) -> real

  /** The draws that path i sees. */
  function Column(draws: Matrix, i: nat): Draws {
    (action: nat) => draws(action, i)
  }

  /** The vector of answers to one bet. */
  function RequestVectors(p: Policy, bet: Bet, bankroll: seq<real>, target: seq<Option<real>>, loss: seq<real>, step: seq<nat>)
    : (r: seq<Answer>)
    requires |bankroll| == |target| == |loss| == |step|
    ensures |r| == |bankroll|
  {
    seq(|bankroll|, i requires 0 <= i < |bankroll| =>
      AnswerAt(p, bet.price, bet.probability, bankroll[i], target[i], loss[i], step[i]))
  }

  /** A bet under stress, before any path has drawn its result. */
  function Quoted(stress: ValidStress, bet: Bet): Bet {
    Bet(DeterioratedPrice(bet.price, stress.priceHaircut),
        DeterioratedProbability(bet.probability, stress.probabilityDelta), false)
  }

  /** Who wins one bet, path by path. */
  function Wins(stress: ValidStress, probability: real, action: nat, draws: Matrix, paths: nat): seq<bool> {
    seq(paths, i requires 0 <= i < paths => draws(action, i) < probability && !ForcedLoss(stress, action))
  }

  /** Slot k of a batch as path i lives it. */
  function DrawnBet(stress: ValidStress, draws: Draws, first: nat, slots: Slots, k: nat): Bet
    requires k < |slots| && slots[k].Some?
  {
    var action := first + Bets(slots[..k]);
    Stressed(stress, slots[k].value, action, draws(action))
  }

  /** The answers to one bet and its results, path by path. */
  datatype Heard = Heard(answers: seq<Answer>, wins: seq<bool>)

  /** Every path was asked from its own state before the batch, and drew its own result. */
  ghost predicate HeardWell(p: Policy, was: seq<Path>, stress: ValidStress, draws: Matrix, first: nat, slots: Slots, k: nat, h: Heard)
    requires k < |slots| && slots[k].Some?
  {
    && |h.answers| == |h.wins| == |was|
    && forall i :: 0 <= i < |was| ==>
         var bet := DrawnBet(stress, Column(draws, i), first, slots, k);
         h.answers[i] == AnswerFor(p, was[i], bet) && h.wins[i] == bet.won
  }

  ghost predicate AllHeard(p: Policy, was: seq<Path>, stress: ValidStress, draws: Matrix, first: nat, slots: Slots, n: nat,
                           heard: seq<Option<Heard>>)
  {
    && n <= |slots| && n == |heard|
    && (forall k :: 0 <= k < n ==> (slots[k].Some? <==> heard[k].Some?))
    && (forall k :: 0 <= k < n && slots[k].Some? ==> HeardWell(p, was, stress, draws, first, slots, k, heard[k].value))
  }

  /** What asking has accumulated, path by path. */
  ghost predicate AskedWell(p: Policy, was: seq<Path>, stress: ValidStress, draws: Matrix, first: nat, slots: Slots,
                            exposure: seq<real>, stops: seq<bool>, caps: seq<nat>)
  {
    && |exposure| == |stops| == |caps| == |was|
    && forall i :: 0 <= i < |was| ==>
         var a := AskBatch(p, was[i], Scenario(stress, Column(draws, i), first, slots));
         && exposure[i] == a.exposure && stops[i] == (was[i].active && a.stop)
         && caps[i] == was[i].capHits + if was[i].active then a.capHits else 0
  }

  lemma {:induction false} ScenarioNext(stress: ValidStress, draws: Draws, first: nat, slots: Slots, k: nat)
    requires k < |slots|
    ensures Scenario(stress, draws, first, slots[..k + 1]) ==
            Scenario(stress, draws, first, slots[..k]) +
            [if slots[k].Some? then Some(DrawnBet(stress, draws, first, slots, k)) else None]
  {
    hide Stressed;
    assert slots[..k + 1][..k] == slots[..k];
  }

  /** What asking for one more bet adds. */
  function AskedMore(a: Asked, answer: Answer): Asked {
    Asked(a.exposure + answer.requested, a.stop || answer.stop, a.capHits + if answer.capHit then 1 else 0)
  }

  lemma {:induction false} AskNext(p: Policy, ps: Path, stress: ValidStress, draws: Draws, first: nat, slots: Slots, k: nat)
    requires k < |slots|
    ensures var before := AskBatch(p, ps, Scenario(stress, draws, first, slots[..k]));
            AskBatch(p, ps, Scenario(stress, draws, first, slots[..k + 1])) ==
            if slots[k].None? then before
            else AskedMore(before, AnswerFor(p, ps, DrawnBet(stress, draws, first, slots, k)))
  {
    hide DrawnBet;
    hide AnswerFor;
    var before := Scenario(stress, draws, first, slots[..k]);
    ScenarioNext(stress, draws, first, slots, k);
    hide Scenario;
    var after := Scenario(stress, draws, first, slots[..k + 1]);
    assert after[..|after| - 1] == before;
  }

  /** The vectors after one more bet, from the vectors before it. */
  ghost predicate Accumulated(was: seq<Path>, answers: seq<Answer>, exposure: seq<real>, stops: seq<bool>, caps: seq<nat>,
                              exposed: seq<real>, stopped: seq<bool>, capped: seq<nat>)
  {
    && |exposure| == |stops| == |caps| == |exposed| == |stopped| == |capped| == |answers| == |was|
    && forall i :: 0 <= i < |was| ==>
         && exposed[i] == exposure[i] + answers[i].requested
         && stopped[i] == (stops[i] || (answers[i].stop && was[i].active))
         && capped[i] == caps[i] + if was[i].active && answers[i].capHit then 1 else 0
  }

  lemma {:induction false} AskedNext(p: Policy, was: seq<Path>, stress: ValidStress, draws: Matrix, first: nat, slots: Slots, k: nat, h: Heard,
                                     exposure: seq<real>, stops: seq<bool>, caps: seq<nat>,
                                     exposed: seq<real>, stopped: seq<bool>, capped: seq<nat>)
    requires k < |slots| && slots[k].Some? && HeardWell(p, was, stress, draws, first, slots, k, h)
    requires AskedWell(p, was, stress, draws, first, slots[..k], exposure, stops, caps)
    requires Accumulated(was, h.answers, exposure, stops, caps, exposed, stopped, capped)
    ensures AskedWell(p, was, stress, draws, first, slots[..k + 1], exposed, stopped, capped)
  {
    hide AskBatch;
    hide Scenario;
    hide AnswerFor;
    hide DrawnBet;
    forall i | 0 <= i < |was| {
      AskNext(p, was[i], stress, Column(draws, i), first, slots, k);
    }
  }

  lemma {:induction false} AskedSkip(p: Policy, was: seq<Path>, stress: ValidStress, draws: Matrix, first: nat, slots: Slots, k: nat,
                                     exposure: seq<real>, stops: seq<bool>, caps: seq<nat>)
    requires k < |slots| && slots[k].None?
    requires AskedWell(p, was, stress, draws, first, slots[..k], exposure, stops, caps)
    ensures AskedWell(p, was, stress, draws, first, slots[..k + 1], exposure, stops, caps)
  {
    hide AskBatch;
    hide Scenario;
    forall i | 0 <= i < |was| {
      AskNext(p, was[i], stress, Column(draws, i), first, slots, k);
    }
  }

  lemma {:induction false} AskedNothing(p: Policy, was: seq<Path>, stress: ValidStress, draws: Matrix, first: nat,
                                        exposure: seq<real>, stops: seq<bool>, caps: seq<nat>)
    requires |exposure| == |stops| == |caps| == |was|
    requires forall i :: 0 <= i < |was| ==> exposure[i] == 0.0 && !stops[i] && caps[i] == was[i].capHits
    ensures AskedWell(p, was, stress, draws, first, [], exposure, stops, caps)
  {
  }

  lemma {:induction false} HeardMore(p: Policy, was: seq<Path>, stress: ValidStress, draws: Matrix, first: nat, slots: Slots, n: nat,
                                     heard: seq<Option<Heard>>, more: Option<Heard>)
    requires AllHeard(p, was, stress, draws, first, slots, n, heard) && n < |slots|
    requires slots[n].Some? <==> more.Some?
    requires more.Some? ==> HeardWell(p, was, stress, draws, first, slots, n, more.value)
    ensures AllHeard(p, was, stress, draws, first, slots, n + 1, heard + [more])
  {
    hide HeardWell;
  }

  lemma AskedSize(p: Policy, was: seq<Path>, stress: ValidStress, draws: Matrix, first: nat, slots: Slots,
                  exposure: seq<real>, stops: seq<bool>, caps: seq<nat>)
    requires AskedWell(p, was, stress, draws, first, slots, exposure, stops, caps)
    ensures |exposure| == |stops| == |caps| == |was|
  {
  }

  /** A path's answer does not depend on what it is about to draw. */
  lemma {:induction false} QuotedHeard(p: Policy, was: seq<Path>, stress: ValidStress, draws: Matrix, first: nat, slots: Slots, k: nat, h: Heard)
    requires k < |slots| && slots[k].Some? && |h.answers| == |was|
    requires var bet := Quoted(stress, slots[k].value);
             && h.wins == Wins(stress, bet.probability, first + Bets(slots[..k]), draws, |was|)
             && forall i :: 0 <= i < |was| ==> h.answers[i] == AnswerFor(p, was[i], bet)
    ensures HeardWell(p, was, stress, draws, first, slots, k, h)
  {
    hide AnswerAt;
    hide DeterioratedPrice;
    hide DeterioratedProbability;
    hide ForcedLoss;
  }

  lemma {:induction false} TakeNext(p: Policy, ps: Path, funded: bool, stress: ValidStress, draws: Draws, first: nat, slots: Slots, k: nat)
    requires k < |slots|
    ensures var before := TakeBatch(p, ps, funded, Scenario(stress, draws, first, slots[..k]));
            TakeBatch(p, ps, funded, Scenario(stress, draws, first, slots[..k + 1])) ==
            if slots[k].None? then before else TakeBet(p, ps, funded, before, DrawnBet(stress, draws, first, slots, k))
  {
    hide DrawnBet;
    hide TakeBet;
    var before := Scenario(stress, draws, first, slots[..k]);
    ScenarioNext(stress, draws, first, slots, k);
    hide Scenario;
    var after := Scenario(stress, draws, first, slots[..k + 1]);
    assert after[..|after| - 1] == before;
  }

  lemma HeardSize(p: Policy, was: seq<Path>, stress: ValidStress, draws: Matrix, first: nat, slots: Slots, k: nat,
                  heard: seq<Option<Heard>>)
    requires AllHeard(p, was, stress, draws, first, slots, |slots|, heard) && k < |slots| && slots[k].Some?
    ensures heard[k].Some? && |heard[k].value.answers| == |heard[k].value.wins| == |was|
  {
  }

  /** What taking bets has accumulated, path by path. */
  ghost predicate TakenWell(p: Policy, was: seq<Path>, funded: seq<bool>, stress: ValidStress, draws: Matrix, first: nat, slots: Slots,
                            taken: seq<Taken>)
  {
    && |taken| == |funded| == |was|
    && forall i :: 0 <= i < |was| ==>
         taken[i] == TakeBatch(p, was[i], funded[i], Scenario(stress, Column(draws, i), first, slots))
  }

  /** A quoted bet with its result. */
  function Drawn(bet: Bet, won: bool): Bet {
    bet.(won := won)
  }

  function StakeOf(funded: bool, applied: real): real {
    if funded then applied else 0.0
  }

  /** One bet taken on every path. */
  ghost predicate TookOne(p: Policy, was: seq<Path>, funded: seq<bool>, bet: Bet, h: Heard, before: seq<Taken>, after: seq<Taken>)
    requires |was| == |funded| == |h.answers| == |h.wins|
  {
    && |before| == |after| == |was|
    && forall i :: 0 <= i < |was| ==>
         var stake := StakeOf(funded[i], h.answers[i].applied);
         after[i] == Recover(p, Drawn(bet, h.wins[i]), stake, funded[i],
                             Booked(was[i].bankroll, funded[i], before[i], Drawn(bet, h.wins[i]), stake))
  }

  lemma {:induction false} TakenNext(p: Policy, was: seq<Path>, funded: seq<bool>, stress: ValidStress, draws: Matrix, first: nat,
                                     slots: Slots, k: nat, h: Heard, before: seq<Taken>, after: seq<Taken>)
    requires k < |slots| && slots[k].Some? && HeardWell(p, was, stress, draws, first, slots, k, h) && |funded| == |was|
    requires TakenWell(p, was, funded, stress, draws, first, slots[..k], before)
    requires TookOne(p, was, funded, Quoted(stress, slots[k].value), h, before, after)
    ensures TakenWell(p, was, funded, stress, draws, first, slots[..k + 1], after)
  {
    hide TakeBatch;
    hide Scenario;
    hide AnswerFor;
    hide Recover;
    hide Booked;
    hide DeterioratedPrice;
    hide DeterioratedProbability;
    hide ForcedLoss;
    forall i | 0 <= i < |was|
      ensures after[i] == TakeBatch(p, was[i], funded[i], Scenario(stress, Column(draws, i), first, slots[..k + 1]))
    {
      TakeNext(p, was[i], funded[i], stress, Column(draws, i), first, slots, k);
      assert DrawnBet(stress, Column(draws, i), first, slots, k) == Drawn(Quoted(stress, slots[k].value), h.wins[i]);
    }
  }

  lemma {:induction false} TakenSkip(p: Policy, was: seq<Path>, funded: seq<bool>, stress: ValidStress, draws: Matrix, first: nat,
                                     slots: Slots, k: nat, taken: seq<Taken>)
    requires k < |slots| && slots[k].None?
    requires TakenWell(p, was, funded, stress, draws, first, slots[..k], taken)
    ensures TakenWell(p, was, funded, stress, draws, first, slots[..k + 1], taken)
  {
    hide TakeBatch;
    hide Scenario;
    forall i | 0 <= i < |was| {
      TakeNext(p, was[i], funded[i], stress, Column(draws, i), first, slots, k);
    }
  }

  lemma {:induction false} TakenNothing(p: Policy, was: seq<Path>, funded: seq<bool>, stress: ValidStress, draws: Matrix, first: nat,
                                        taken: seq<Taken>)
    requires |taken| == |funded| == |was|
    requires forall i :: 0 <= i < |was| ==>
               taken[i] == Taken(0.0, was[i].maxStake, was[i].maxRatio, was[i].loss, was[i].target, was[i].step)
    ensures TakenWell(p, was, funded, stress, draws, first, [], taken)
  {
  }

  /** The end of a batch on one path, from what the vectors hold just before it. */
  function CloseAt(was: Path, caps: nat, over: bool, stop: bool, funded: bool, t: Taken): Path {
    var bankroll := was.bankroll + t.pnl;
    var depleted := funded && bankroll <= 0.0;
    var peak := Max(was.peak, bankroll);
    Path(bankroll, peak, Max(was.drawdown, if 0.0 < peak then (peak - bankroll) / peak else 0.0),
         t.maxStake, t.maxRatio, was.ruined || over || depleted, was.terminated || over || stop || depleted, caps,
         was.active && !over && !stop && !depleted, t.loss, t.target, t.step)
  }

  /** What the vectors hold for one path once its bets are taken and the batch is still open. */
  function Midway(was: Path, caps: nat, over: bool, stop: bool, t: Taken): Path {
    Path(was.bankroll, was.peak, was.drawdown, t.maxStake, t.maxRatio, was.ruined || over, was.terminated || over || stop, caps,
         was.active, t.loss, t.target, t.step)
  }

  predicate Overcommitted(active: bool, stop: bool, exposure: real, bankroll: real) {
    active && !stop && exposure > bankroll
  }

  lemma {:induction false} BatchClosed(p: Policy, ps: Path, slots: Slots, exposure: real, stop: bool, caps: nat)
    requires 0 < Bets(slots)
    requires var a := AskBatch(p, ps, slots);
             exposure == a.exposure && stop == (ps.active && a.stop) && caps == ps.capHits + if ps.active then a.capHits else 0
    ensures var over := Overcommitted(ps.active, stop, exposure, ps.bankroll);
            var funded := ps.active && !over && !stop;
            PathBatch(p, ps, slots) == CloseAt(ps, caps, over, stop, funded, TakeBatch(p, ps, funded, slots))
  {
    hide AskBatch;
    hide TakeBatch;
    hide Bets;
  }

  lemma {:induction false} AskNone(p: Policy, ps: Path, slots: Slots)
    requires Bets(slots) == 0
    ensures AskBatch(p, ps, slots) == Asked(0.0, false, 0)
  {
    if slots != [] {
      AskNone(p, ps, slots[..|slots| - 1]);
    }
  }

  /** Every path has lived one batch. */
  ghost predicate Lived(p: Policy, was: seq<Path>, now: seq<Path>, stress: ValidStress, draws: Matrix, first: nat, slots: Slots) {
    |now| == |was| && forall i :: 0 <= i < |was| ==> now[i] == PathBatch(p, was[i], Scenario(stress, Column(draws, i), first, slots))
  }

  lemma {:induction false} BatchIdle(p: Policy, was: seq<Path>, now: seq<Path>, stress: ValidStress, draws: Matrix, first: nat, slots: Slots,
                                     exposure: seq<real>, stops: seq<bool>, caps: seq<nat>)
    requires Bets(slots) == 0 && AskedWell(p, was, stress, draws, first, slots, exposure, stops, caps) && |now| == |was|
    requires forall i :: 0 <= i < |was| ==> now[i] == was[i].(capHits := caps[i])
    ensures Lived(p, was, now, stress, draws, first, slots)
  {
    hide Scenario;
    hide AskBatch;
    forall i | 0 <= i < |was|
      ensures now[i] == PathBatch(p, was[i], Scenario(stress, Column(draws, i), first, slots))
    {
      ScenarioBets(stress, Column(draws, i), first, slots);
      AskNone(p, was[i], Scenario(stress, Column(draws, i), first, slots));
    }
  }

  lemma {:induction false} BatchLived(p: Policy, was: seq<Path>, now: seq<Path>, stress: ValidStress, draws: Matrix, first: nat, slots: Slots,
                                      exposure: seq<real>, stops: seq<bool>, caps: seq<nat>, over: seq<bool>, funded: seq<bool>, taken: seq<Taken>)
    requires 0 < Bets(slots) && AskedWell(p, was, stress, draws, first, slots, exposure, stops, caps)
    requires |over| == |funded| == |now| == |was| && TakenWell(p, was, funded, stress, draws, first, slots, taken)
    requires forall i :: 0 <= i < |was| ==>
               && over[i] == Overcommitted(was[i].active, stops[i], exposure[i], was[i].bankroll)
               && funded[i] == (was[i].active && !over[i] && !stops[i])
               && now[i] == CloseAt(was[i], caps[i], over[i], stops[i], funded[i], taken[i])
    ensures Lived(p, was, now, stress, draws, first, slots)
  {
    hide Scenario;
    hide AskBatch;
    hide TakeBatch;
    hide PathBatch;
    hide CloseAt;
    hide Overcommitted;
    forall i | 0 <= i < |was|
      ensures now[i] == PathBatch(p, was[i], Scenario(stress, Column(draws, i), first, slots))
    {
      var scenario := Scenario(stress, Column(draws, i), first, slots);
      ScenarioBets(stress, Column(draws, i), first, slots);
      BatchClosed(p, was[i], scenario, exposure[i], stops[i], caps[i]);
    }
  }

  class Vectors {
    const size: nat
    const bankroll: array<real>
    const peak: array<real>
    const drawdown: array<real>
    const maxStake: array<real>
    const maxRatio: array<real>
    const ruined: array<bool>
    const terminated: array<bool>
    const capHits: array<nat>
    const active: array<bool>
    const loss: array<real>
    const target: array<Option<real>>
    const step: array<nat>

    ghost predicate Shaped() {
      && bankroll.Length == peak.Length == drawdown.Length == maxStake.Length == maxRatio.Length == loss.Length == size
      && ruined.Length == terminated.Length == active.Length == capHits.Length == step.Length == target.Length == size
    }

    ghost predicate Apart() {
      && bankroll != peak && bankroll != drawdown && bankroll != maxStake && bankroll != maxRatio && bankroll != loss
      && peak != drawdown && peak != maxStake && peak != maxRatio && peak != loss
      && drawdown != maxStake && drawdown != maxRatio && drawdown != loss
      && maxStake != maxRatio && maxStake != loss && maxRatio != loss
      && ruined != terminated && ruined != active && terminated != active && capHits != step
    }

    ghost predicate Valid() {
      Shaped() && Apart()
    }

    ghost function Repr(): set<object> {
      {bankroll, peak, drawdown, maxStake, maxRatio, ruined, terminated, capHits, active, loss, target, step}
    }

    /** What the vectors hold for path i. */
    ghost function View(i: nat): Path
      requires Shaped() && i < size
      reads Repr()
    {
      Path(bankroll[i], peak[i], drawdown[i], maxStake[i], maxRatio[i], ruined[i], terminated[i], capHits[i],
           active[i], loss[i], target[i], step[i])
    }

    ghost function Views(): (r: seq<Path>)
      requires Shaped()
      reads Repr()
      ensures |r| == size && forall i :: 0 <= i < size ==> r[i] == View(i)
    {
      seq(size, i requires 0 <= i < size && Shaped() reads Repr() => View(i))
    }

    constructor (paths: nat, initial: real)
      ensures Valid() && fresh(Repr()) && size == paths
      ensures forall i :: 0 <= i < size ==> View(i) == Fresh(initial)
    {
      size := paths;
      bankroll := new real[paths](_ => initial);
      peak := new real[paths](_ => initial);
      drawdown := new real[paths](_ => 0.0);
      maxStake := new real[paths](_ => 0.0);
      maxRatio := new real[paths](_ => 0.0);
      ruined := new bool[paths](_ => false);
      terminated := new bool[paths](_ => false);
      capHits := new nat[paths](_ => 0);
      active := new bool[paths](_ => true);
      loss := new real[paths](_ => 0.0);
      target := new Option<real>[paths](_ => None);
      step := new nat[paths](_ => 0);
    }

    /** Ask for one bet on every path, and count the caps that were hit on the active ones. */
    method AskOne(p: Policy, bet: Bet) returns (answers: seq<Answer>)
      requires Valid()
      modifies capHits
      ensures |answers| == size
      ensures forall i :: 0 <= i < size ==>
                && answers[i] == AnswerFor(p, old(View(i)), bet)
                && capHits[i] == old(capHits[i]) + if old(active[i]) && answers[i].capHit then 1 else 0
    {
      answers := RequestVectors(p, bet, bankroll[..], target[..], loss[..], step[..]);
      hide AnswerAt;
      forall i | 0 <= i < size && answers[i].capHit && active[i] {
        capHits[i] := capHits[i] + 1;
      }
    }

    /** `_settle_recovery_vectors`: masked updates of the three memory vectors. */
    method SettleRecovery(p: Policy, price: Price, stakes: seq<real>, wins: seq<bool>, funded: seq<bool>)
      requires Valid() && p.IsRecovery() && |stakes| == |wins| == |funded| == size
      modifies loss, target, step
      ensures forall i :: 0 <= i < size && !funded[i] ==> Remembers(i, old(loss[i]), old(target[i]), old(step[i]))
      ensures forall i :: 0 <= i < size && funded[i] && wins[i] ==> Remembers(i, 0.0, None, 0)
      ensures forall i :: 0 <= i < size && funded[i] && !wins[i] ==>
                Remembers(i, old(loss[i]) + stakes[i],
                            if old(target[i]).None? then Some(DerivedTarget(p, price)) else old(target[i]), old(step[i]) + 1)
    {
      var derived := DerivedTarget(p, price);
      forall i | 0 <= i < size && funded[i] && target[i].None? {
        target[i] := Some(derived);
      }
      forall i | 0 <= i < size && funded[i] {
        step[i] := step[i] + 1;
      }
      forall i | 0 <= i < size && funded[i] && !wins[i] {
        loss[i] := loss[i] + stakes[i];
      }
      forall i | 0 <= i < size && funded[i] && wins[i] {
        target[i] := None;
      }
      forall i | 0 <= i < size && funded[i] && wins[i] {
        loss[i] := 0.0;
      }
      forall i | 0 <= i < size && funded[i] && wins[i] {
        step[i] := 0;
      }
    }

    ghost predicate Remembers(i: nat, l: real, t: Option<real>, s: nat)
      requires Shaped() && i < size
      reads loss, target, step
    {
      loss[i] == l && target[i] == t && step[i] == s
    }

    /** Only the cap counters have moved since `was`. */
    ghost predicate OnlyCapsMoved(was: seq<Path>)
      requires Shaped()
      reads Repr()
    {
      |was| == size && forall i :: 0 <= i < size ==> View(i).(capHits := 0) == was[i].(capHits := 0)
    }

    /** One bet of a batch: every path answers from its own state before the batch, and draws its result. */
    method AskSlot(p: Policy, stress: ValidStress, draws: Matrix, ghost first: nat, slots: Slots, k: nat, action: nat,
                   exposure: seq<real>, stops: seq<bool>, ghost was: seq<Path>)
      returns (h: Heard, exposed: seq<real>, stopped: seq<bool>)
      requires Valid() && OnlyCapsMoved(was) && k < |slots| && slots[k].Some? && action == first + Bets(slots[..k])
      requires AskedWell(p, was, stress, draws, first, slots[..k], exposure, stops, capHits[..])
      modifies capHits
      ensures OnlyCapsMoved(was) && HeardWell(p, was, stress, draws, first, slots, k, h)
      ensures AskedWell(p, was, stress, draws, first, slots[..k + 1], exposed, stopped, capHits[..])
    {
      hide AnswerAt;
      hide Quoted;
      hide Wins;
      hide Bets;
      hide AskedWell;
      hide HeardWell;
      ghost var caps := capHits[..];
      var bet := Quoted(stress, slots[k].value);
      var answers := AskOne(p, bet);
      var wins := Wins(stress, bet.probability, action, draws, size);
      h := Heard(answers, wins);
      assert |exposure| == |stops| == size by { AskedSize(p, was, stress, draws, first, slots[..k], exposure, stops, caps); }
      exposed := seq(size, i requires 0 <= i < size => exposure[i] + answers[i].requested);
      stopped := seq(size, i requires 0 <= i < size && Valid() reads active => stops[i] || (answers[i].stop && active[i]));
      QuotedHeard(p, was, stress, draws, first, slots, k, h);
      AskedNext(p, was, stress, draws, first, slots, k, h, exposure, stops, caps, exposed, stopped, capHits[..]);
    }

    /** Ask for every bet of a batch. */
    method AskAll(p: Policy, stress: ValidStress, draws: Matrix, first: nat, slots: Slots, ghost was: seq<Path>)
      returns (heard: seq<Option<Heard>>, exposure: seq<real>, stops: seq<bool>, action: nat)
      requires Valid() && was == Views()
      modifies capHits
      ensures OnlyCapsMoved(was) && AllHeard(p, was, stress, draws, first, slots, |slots|, heard)
      ensures AskedWell(p, was, stress, draws, first, slots, exposure, stops, capHits[..])
      ensures action == first + Bets(slots)
    {
      heard, action := [], first;
      exposure, stops := seq(size, _ => 0.0), seq(size, _ => false);
      AskedNothing(p, was, stress, draws, first, exposure, stops, capHits[..]);
      assert slots[..0] == [];
      hide AskedWell;
      hide HeardWell;
      for k := 0 to |slots|
        invariant OnlyCapsMoved(was) && AllHeard(p, was, stress, draws, first, slots, k, heard)
        invariant AskedWell(p, was, stress, draws, first, slots[..k], exposure, stops, capHits[..])
        invariant action == first + Bets(slots[..k])
      {
        hide AllHeard;
        hide OnlyCapsMoved;
        assert slots[..k + 1][..k] == slots[..k];
        if slots[k].None? {
          AskedSkip(p, was, stress, draws, first, slots, k, exposure, stops, capHits[..]);
          HeardMore(p, was, stress, draws, first, slots, k, heard, None);
          heard := heard + [None];
        } else {
          var h;
          h, exposure, stops := AskSlot(p, stress, draws, first, slots, k, action, exposure, stops, was);
          HeardMore(p, was, stress, draws, first, slots, k, heard, Some(h));
          heard := heard + [Some(h)];
          action := action + 1;
        }
      }
      assert slots[..|slots|] == slots;
    }

    /** What the vectors have accumulated within a batch, given the profit or loss so far. */
    ghost function Takings(pnl: seq<real>): (r: seq<Taken>)
      requires Shaped() && |pnl| == size
      reads Repr()
      ensures |r| == size
      ensures forall i :: 0 <= i < size ==> r[i] == Taken(pnl[i], maxStake[i], maxRatio[i], loss[i], target[i], step[i])
    {
      seq(size, i requires 0 <= i < size && Shaped() && |pnl| == size reads Repr() =>
        Taken(pnl[i], maxStake[i], maxRatio[i], loss[i], target[i], step[i]))
    }

    /** Book one bet on every path: the largest stakes so far, and the profit or loss. */
    method BookOne(bet: Bet, h: Heard, stakes: seq<real>, pre: seq<real>, funded: seq<bool>, pnl: seq<real>)
      returns (total: seq<real>)
      requires Valid() && |pre| == |funded| == |pnl| == |h.wins| == |stakes| == size
      modifies maxStake, maxRatio
      ensures |total| == size
      ensures forall i :: 0 <= i < size ==>
                Takings(total)[i] == Booked(pre[i], funded[i], old(Takings(pnl))[i], Drawn(bet, h.wins[i]), stakes[i])
    {
      forall i | 0 <= i < size {
        maxStake[i] := Max(maxStake[i], stakes[i]);
      }
      forall i | 0 <= i < size {
        maxRatio[i] := Max(maxRatio[i], if funded[i] && 0.0 < pre[i] then stakes[i] / pre[i] else 0.0);
      }
      total := seq(size, i requires 0 <= i < size =>
        pnl[i] + if funded[i] then (if h.wins[i] then stakes[i] * (bet.price - 1.0) else -stakes[i]) else 0.0);
    }

    /** The masked updates are `Recover`, path by path. */
    method RecoverOne(p: Policy, bet: Bet, h: Heard, stakes: seq<real>, funded: seq<bool>, ghost total: seq<real>)
      requires Valid() && |funded| == |h.wins| == |stakes| == |total| == size
      modifies loss, target, step
      ensures forall i :: 0 <= i < size ==>
                Takings(total)[i] == Recover(p, Drawn(bet, h.wins[i]), stakes[i], funded[i], old(Takings(total))[i])
    {
      hide DerivedTarget;
      if p.IsRecovery() {
        hide Policy.IsRecovery;
        SettleRecovery(p, bet.price, stakes, h.wins, funded);
      }
    }

    /** Settle one bet on every path. */
    method TakeOne(p: Policy, bet: Bet, h: Heard, pre: seq<real>, funded: seq<bool>, pnl: seq<real>, ghost was: seq<Path>)
      returns (total: seq<real>)
      requires Valid() && |pre| == |funded| == |pnl| == |h.answers| == |h.wins| == |was| == size
      requires forall i :: 0 <= i < size ==> pre[i] == was[i].bankroll
      modifies maxStake, maxRatio, loss, target, step
      ensures |total| == size && TookOne(p, was, funded, bet, h, old(Takings(pnl)), Takings(total))
    {
      hide Recover;
      hide Booked;
      hide Vectors.Takings;
      var stakes := seq(size, i requires 0 <= i < size => StakeOf(funded[i], h.answers[i].applied));
      total := BookOne(bet, h, stakes, pre, funded, pnl);
      RecoverOne(p, bet, h, stakes, funded, total);
    }

    /** What a batch accumulates is still what it was. */
    ghost predicate NothingTaken(was: seq<Path>)
      requires Shaped()
      reads Repr()
    {
      && |was| == size
      && forall i :: 0 <= i < size ==>
           && maxStake[i] == was[i].maxStake && maxRatio[i] == was[i].maxRatio
           && loss[i] == was[i].loss && target[i] == was[i].target && step[i] == was[i].step
    }

    /** Settle every bet of a batch, in order. */
    method TakeAll(p: Policy, stress: ValidStress, draws: Matrix, ghost first: nat, slots: Slots, heard: seq<Option<Heard>>,
                   pre: seq<real>, funded: seq<bool>, ghost was: seq<Path>)
      returns (pnl: seq<real>)
      requires Valid() && |pre| == |funded| == |was| == size && AllHeard(p, was, stress, draws, first, slots, |slots|, heard)
      requires forall i :: 0 <= i < size ==> pre[i] == was[i].bankroll
      requires NothingTaken(was)
      modifies maxStake, maxRatio, loss, target, step
      ensures |pnl| == size && TakenWell(p, was, funded, stress, draws, first, slots, Takings(pnl))
    {
      pnl := seq(size, _ => 0.0);
      TakenNothing(p, was, funded, stress, draws, first, Takings(pnl));
      assert slots[..0] == [];
      hide TakenWell;
      hide Vectors.NothingTaken;
      hide HeardWell;
      for k := 0 to |slots|
        invariant |pnl| == size && TakenWell(p, was, funded, stress, draws, first, slots[..k], Takings(pnl))
      {
        hide Quoted;
        if slots[k].None? {
          TakenSkip(p, was, funded, stress, draws, first, slots, k, Takings(pnl));
        } else {
          hide TookOne;
          HeardSize(p, was, stress, draws, first, slots, k, heard);
          var bet := Quoted(stress, slots[k].value);
          ghost var before := Takings(pnl);
          pnl := TakeOne(p, bet, heard[k].value, pre, funded, pnl, was);
          TakenNext(p, was, funded, stress, draws, first, slots, k, heard[k].value, before, Takings(pnl));
        }
      }
      assert slots[..|slots|] == slots;
    }

    /** Before a batch is taken: who is over-committed or stopped is out. */
    method Halt(over: seq<bool>, stops: seq<bool>)
      requires Valid() && |over| == |stops| == size
      modifies ruined, terminated
      ensures forall i :: 0 <= i < size ==> ruined[i] == (old(ruined[i]) || over[i])
      ensures forall i :: 0 <= i < size ==> terminated[i] == (old(terminated[i]) || over[i] || stops[i])
    {
      forall i | 0 <= i < size {
        ruined[i] := ruined[i] || over[i];
      }
      forall i | 0 <= i < size {
        terminated[i] := terminated[i] || over[i];
      }
      forall i | 0 <= i < size {
        terminated[i] := terminated[i] || stops[i];
      }
    }

    /** The batch result reaches the bankroll; who has nothing left is out. */
    method Deplete(pre: seq<real>, pnl: seq<real>, over: seq<bool>, stops: seq<bool>, funded: seq<bool>)
      requires Valid() && |pre| == |pnl| == |over| == |stops| == |funded| == size
      modifies bankroll, ruined, terminated, active
      ensures forall i :: 0 <= i < size ==> bankroll[i] == pre[i] + pnl[i]
      ensures forall i :: 0 <= i < size ==> ruined[i] == (old(ruined[i]) || (funded[i] && bankroll[i] <= 0.0))
      ensures forall i :: 0 <= i < size ==> terminated[i] == (old(terminated[i]) || (funded[i] && bankroll[i] <= 0.0))
      ensures forall i :: 0 <= i < size ==>
                active[i] == (old(active[i]) && !over[i] && !stops[i] && !(funded[i] && bankroll[i] <= 0.0))
    {
      forall i | 0 <= i < size {
        bankroll[i] := pre[i] + pnl[i];
      }
      forall i | 0 <= i < size {
        ruined[i] := ruined[i] || (funded[i] && bankroll[i] <= 0.0);
      }
      forall i | 0 <= i < size {
        terminated[i] := terminated[i] || (funded[i] && bankroll[i] <= 0.0);
      }
      forall i | 0 <= i < size {
        active[i] := active[i] && !over[i] && !stops[i] && !(funded[i] && bankroll[i] <= 0.0);
      }
    }

    method Measure()
      requires Valid()
      modifies peak, drawdown
      ensures forall i :: 0 <= i < size ==> peak[i] == Max(old(peak[i]), bankroll[i])
      ensures forall i :: 0 <= i < size ==>
                drawdown[i] == Max(old(drawdown[i]), if 0.0 < peak[i] then (peak[i] - bankroll[i]) / peak[i] else 0.0)
    {
      forall i | 0 <= i < size {
        peak[i] := Max(peak[i], bankroll[i]);
      }
      forall i | 0 <= i < size {
        drawdown[i] := Max(drawdown[i], if 0.0 < peak[i] then (peak[i] - bankroll[i]) / peak[i] else 0.0);
      }
    }

    /** Take the bets of a batch, once it is known who funds them. */
    method Fund(p: Policy, stress: ValidStress, draws: Matrix, ghost first: nat, slots: Slots, heard: seq<Option<Heard>>,
                pre: seq<real>, over: seq<bool>, stops: seq<bool>, funded: seq<bool>, ghost was: seq<Path>)
      returns (pnl: seq<real>)
      requires Valid() && |pre| == |funded| == |over| == |stops| == |was| == size
      requires AllHeard(p, was, stress, draws, first, slots, |slots|, heard) && OnlyCapsMoved(was)
      requires forall i :: 0 <= i < size ==> pre[i] == was[i].bankroll
      modifies ruined, terminated, maxStake, maxRatio, loss, target, step
      ensures |pnl| == size && TakenWell(p, was, funded, stress, draws, first, slots, Takings(pnl))
      ensures forall i :: 0 <= i < size ==> View(i) == Midway(was[i], old(capHits[i]), over[i], stops[i], Takings(pnl)[i])
    {
      hide AllHeard;
      hide TakenWell;
      Halt(over, stops);
      pnl := TakeAll(p, stress, draws, first, slots, heard, pre, funded, was);
    }

    /** Close a batch: bankroll, depletion, peak and drawdown. */
    method Conclude(pre: seq<real>, pnl: seq<real>, over: seq<bool>, stops: seq<bool>, funded: seq<bool>,
                    ghost was: seq<Path>, ghost caps: seq<nat>)
      requires Valid() && |pre| == |pnl| == |over| == |stops| == |funded| == |was| == |caps| == size
      requires forall i :: 0 <= i < size ==> pre[i] == was[i].bankroll
      requires forall i :: 0 <= i < size ==> View(i) == Midway(was[i], caps[i], over[i], stops[i], Takings(pnl)[i])
      modifies bankroll, ruined, terminated, active, peak, drawdown
      ensures forall i :: 0 <= i < size ==>
                View(i) == CloseAt(was[i], caps[i], over[i], stops[i], funded[i], old(Takings(pnl))[i])
    {
      Deplete(pre, pnl, over, stops, funded);
      Measure();
    }

    /** One batch on every path. */
    method RunBatch(p: Policy, stress: ValidStress, draws: Matrix, first: nat, slots: Slots) returns (action: nat)
      requires Valid()
      modifies Repr()
      ensures Lived(p, old(Views()), Views(), stress, draws, first, slots)
      ensures action == first + Bets(slots)
    {
      hide AskedWell;
      hide TakenWell;
      hide AllHeard;
      hide Lived;
      hide Bets;
      hide Midway;
      hide CloseAt;
      hide Overcommitted;
      ghost var was := Views();
      var pre := bankroll[..];
      var heard, exposure, stops;
      heard, exposure, stops, action := AskAll(p, stress, draws, first, slots, was);
      ghost var caps := capHits[..];
      AskedSize(p, was, stress, draws, first, slots, exposure, stops, caps);
      if action == first {
        BatchIdle(p, was, Views(), stress, draws, first, slots, exposure, stops, caps);
      } else {
        var over := seq(size, i requires 0 <= i < size && Valid() reads active =>
          Overcommitted(active[i], stops[i], exposure[i], pre[i]));
        var funded := seq(size, i requires 0 <= i < size && Valid() reads active => active[i] && !over[i] && !stops[i]);
        var pnl := Fund(p, stress, draws, first, slots, heard, pre, over, stops, funded, was);
        ghost var taken := Takings(pnl);
        Conclude(pre, pnl, over, stops, funded, was, caps);
        BatchLived(p, was, Views(), stress, draws, first, slots, exposure, stops, caps, over, funded, taken);
      }
    }
  }

  /** Every path has lived every batch of the list. */
  ghost predicate LivedAll(p: Policy, initial: real, now: seq<Path>, stress: ValidStress, draws: Matrix, batches: seq<Slots>) {
    forall i :: 0 <= i < |now| ==> now[i] == PathAll(p, initial, Scenarios(stress, Column(draws, i), batches))
  }

  lemma {:induction false} LivedNext(p: Policy, initial: real, was: seq<Path>, now: seq<Path>, stress: ValidStress, draws: Matrix,
                                     batches: seq<Slots>, n: nat)
    requires n < |batches| && LivedAll(p, initial, was, stress, draws, batches[..n])
    requires Lived(p, was, now, stress, draws, AllBets(batches[..n]), batches[n])
    ensures LivedAll(p, initial, now, stress, draws, batches[..n + 1])
  {
    hide PathBatch;
    hide Scenario;
    hide AllBets;
    forall i | 0 <= i < |now|
      ensures now[i] == PathAll(p, initial, Scenarios(stress, Column(draws, i), batches[..n + 1]))
    {
      assert batches[..n + 1][..n] == batches[..n];
      var before, after := Scenarios(stress, Column(draws, i), batches[..n]), Scenarios(stress, Column(draws, i), batches[..n + 1]);
      assert after[..|after| - 1] == before;
    }
  }

  /** Run every batch on every path. */
  method RunBatches(p: Policy, initial: real, stress: ValidStress, draws: Matrix, batches: seq<Slots>, paths: nat)
    returns (v: Vectors)
    ensures fresh(v) && v.Valid() && v.size == paths && LivedAll(p, initial, v.Views(), stress, draws, batches)
  {
    v := new Vectors(paths, initial);
    var action := 0;
    assert batches[..0] == [];
    hide Vectors.Views;
    hide Lived;
    for k := 0 to |batches|
      invariant v.Valid() && fresh(v.Repr()) && v.size == paths && action == AllBets(batches[..k])
      invariant LivedAll(p, initial, v.Views(), stress, draws, batches[..k])
    {
      hide LivedAll;
      ghost var was := v.Views();
      assert batches[..k + 1][..k] == batches[..k];
      action := v.RunBatch(p, stress, draws, action, batches[k]);
      LivedNext(p, initial, was, v.Views(), stress, draws, batches, k);
    }
    assert batches[..|batches|] == batches;
  }

  // ---- the whole simulation ------------------------------------------------------------

  /** The first thing wrong with the probabilities of the bets. */
  function ProbabilityFlaw(ds: seq<Decision>): Option<Unavailable> {
    if exists d :: d in ds && d.Actionable() && d.probability.None? then Some(MissingModelProbability)
    else if exists d :: d in ds && d.Actionable() && d.probability.Some? && !(0.0 <= d.probability.value <= 1.0) then
      Some(InvalidModelProbability)
    else None
  }

  function SimulationFlaw(ds: seq<Decision>, p: Policy, initial: real, paths: int, stress: Stress): Option<Unavailable> {
    if ValidateBasis(ds, p, false).Some? then ValidateBasis(ds, p, false)
    else if ProbabilityFlaw(ds).Some? then ProbabilityFlaw(ds)
    else if initial <= 0.0 then Some(InvalidInitialBankroll)
    else if paths < 1 then Some(InvalidPathCount)
    else if !stress.Valid() then Some(InvalidStress)
    else None
  }

  /** A simulation is refused for exactly one of these: its decisions, their probabilities, the bankroll, the number of paths, or the stress, in this order. */
  lemma RefusalMeans(ds: seq<Decision>, p: Policy, initial: real, paths: int, stress: Stress)
    ensures var flaw := SimulationFlaw(ds, p, initial, paths, stress);
            var basis := ValidateBasis(ds, p, false);
            var missing := exists d :: d in ds && d.action.Some? && d.probability.None?;
            var improper := exists d :: d in ds && d.action.Some? && d.probability.Some? && (d.probability.value < 0.0 || 1.0 < d.probability.value);
            var mild := && 0.0 <= stress.probabilityDelta && stress.probabilityDelta <= 1.0 && 0.0 <= stress.priceHaircut
                        && stress.priceHaircut < 1.0 && 0 <= stress.forcedStart && 0 <= stress.forcedLength;
            && (flaw.None? <==> basis.None? && !missing && !improper && 0.0 < initial && 0 < paths && mild)
            && (basis.Some? ==> flaw == basis)
            && (basis.None? && missing ==> flaw == Some(MissingModelProbability))
            && (basis.None? && !missing && improper ==> flaw == Some(InvalidModelProbability))
            && (basis.None? && !missing && !improper && initial <= 0.0 ==> flaw == Some(InvalidInitialBankroll))
            && (basis.None? && !missing && !improper && 0.0 < initial && paths <= 0 ==> flaw == Some(InvalidPathCount))
            && (basis.None? && !missing && !improper && 0.0 < initial && 0 < paths && !mild ==> flaw == Some(InvalidStress))
  {
    hide ValidateBasis;
  }

  /**
    Simulate a list of decisions on many paths at once: path i is
    `Simulation.PathAll` on its own draws, so no path influences another.
   */
  method Simulate(ds: seq<Decision>, p: Policy, initial: real, paths: int, stress: Stress, draws: Matrix)
    returns (r: Result<Vectors, Unavailable>)
    ensures r.Failure? <==> SimulationFlaw(ds, p, initial, paths, stress).Some?
    ensures r.Failure? ==> Some(r.error) == SimulationFlaw(ds, p, initial, paths, stress)
    ensures r.Success? ==>
              && fresh(r.value) && r.value.Valid() && r.value.size == paths
              && AllPriced(ds)
              && LivedAll(p, initial, r.value.Views(), stress, draws, Replay.AllSlots(GroupByTime(ds)))
  {
    var flaw := SimulationFlaw(ds, p, initial, paths, stress);
    if flaw.Some? {
      return Failure(flaw.value);
    }
    Replay.SoundBatches(ds, p, false);
    var v := RunBatches(p, initial, stress, draws, Replay.AllSlots(GroupByTime(ds)), paths);
    r := Success(v);
  }

  /** Every batch holds priced decisions only. */
  ghost predicate AllPriced(ds: seq<Decision>) {
    forall i, j :: 0 <= i < |GroupByTime(ds)| && 0 <= j < |GroupByTime(ds)[i]| ==> Decisions.Priced(GroupByTime(ds)[i][j])
  }
}

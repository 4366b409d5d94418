/** Capital decisions, their validation and their grouping into batches (football/capital/contracts.py, replay.py). */
module Decisions {
  import opened Common
  import opened Policies

  datatype Side = Home | Draw | Away

  /** A decision as it is read: `action` is None for NO_BET, `outcome` None while unresolved. */
  datatype Decision = Decision(
    sourceId: int,
    time: int,
    action: Option<Side>,
    outcome: Option<Side>,
    price: Option<real>,
    probability: Option<real>,
    observationId: Option<int>,
    observationTime: Option<int>)
  {
    predicate Actionable() {
      action.Some?
    }
  }

  datatype Unavailable =
    | MissingTimestampValidPrice
    | InvalidDecimalPrice
    | UnresolvedOutcome
    | MissingModelProbability
    | InvalidModelProbability
    | ConcurrentRecoveryStep
    | InvalidInitialBankroll
    | InsufficientResolvedDecisions
    | InvalidPathCount
    | InvalidStress

  function RequiresProbability(p: Policy): bool {
    p.FractionalKelly?
  }

  /** The first thing wrong with one decision, if anything. */
  function Flaw(d: Decision, p: Policy, requireOutcome: bool): Option<Unavailable> {
    if !d.Actionable() then None
    else if d.price.None? || d.observationId.None? || d.observationTime.None? || d.observationTime.value >= d.time then
      Some(MissingTimestampValidPrice)
    else if d.price.value <= 1.0 then Some(InvalidDecimalPrice)
    else if requireOutcome && d.outcome.None? then Some(UnresolvedOutcome)
    else if RequiresProbability(p) && d.probability.None? then Some(MissingModelProbability)
    else None
  }

  function FirstFlaw(ds: seq<Decision>, p: Policy, requireOutcome: bool): Option<Unavailable> {
    if ds == [] then None
    else
      var before := FirstFlaw(ds[..|ds| - 1], p, requireOutcome);
      if before.Some? then before else Flaw(ds[|ds| - 1], p, requireOutcome)
  }

  /** Consecutive decisions with the same time form one batch. */
  function GroupByTime(ds: seq<Decision>): (batches: seq<seq<Decision>>)
    ensures forall i :: 0 <= i < |batches| ==> batches[i] != []
  {
    if ds == [] then []
    else
      var before := GroupByTime(ds[..|ds| - 1]);
      var d := ds[|ds| - 1];
      if before != [] && before[|before| - 1][0].time == d.time then
        before[..|before| - 1] + [before[|before| - 1] + [d]]
      else
        before + [[d]]
  }

  function Actions(batch: seq<Decision>): nat {
    if batch == [] then 0
    else Actions(batch[..|batch| - 1]) + if batch[|batch| - 1].Actionable() then 1 else 0
  }

  /** The basis is usable: every decision is sound, and a recovery policy never has two bets at once. */
  function ValidateBasis(ds: seq<Decision>, p: Policy, requireOutcome: bool): Option<Unavailable> {
    if FirstFlaw(ds, p, requireOutcome).Some? then FirstFlaw(ds, p, requireOutcome)
    else if p.IsRecovery() && exists i :: 0 <= i < |GroupByTime(ds)| && Actions(GroupByTime(ds)[i]) > 1 then
      Some(ConcurrentRecoveryStep)
    else None
  }

  type Price = x: real | 1.0 < x witness 2.0

  /** A haircut on the odds leaves a valid price. */
  lemma HaircutValid(price: real, haircut: real)
    requires 1.0 < price && 0.0 <= haircut < 1.0
    ensures 1.0 < 1.0 + (price - 1.0) * (1.0 - haircut)
  {
    var odds, kept := price - 1.0, 1.0 - haircut;
    ProductPositive(odds, kept);
    assert (price - 1.0) * (1.0 - haircut) == odds * kept;
  }

  /** A bet ready to be staked: a valid price, a probability, and whether it wins. */
  datatype Bet = Bet(price: Price, probability: real, won: bool)

  predicate Priced(d: Decision) {
    d.Actionable() ==> d.price.Some? && 1.0 < d.price.value
  }

  /** What a priced decision stakes on; nothing for NO_BET. */
  function BetOf(d: Decision): Option<Bet>
    requires Priced(d)
  {
    if d.Actionable() then Some(Bet(d.price.value, d.probability.GetOr(0.0), d.outcome == d.action)) else None
  }

  /** One batch seen as bets, position by position. */
  type Slots = seq<Option<Bet>>

  function SlotsOf(batch: seq<Decision>): Slots
    requires forall d :: d in batch ==> Priced(d)
  {
    seq(|batch|, i requires 0 <= i < |batch| => BetOf(batch[i]))
  }

  lemma {:induction false} NoFlaw(ds: seq<Decision>, p: Policy, requireOutcome: bool)
    requires FirstFlaw(ds, p, requireOutcome).None?
    ensures forall d :: d in ds ==> Flaw(d, p, requireOutcome).None?
  {
    if ds != [] {
      var last := |ds| - 1;
      NoFlaw(ds[..last], p, requireOutcome);
      assert ds == ds[..last] + [ds[last]];
    }
  }

  lemma {:induction false} GroupedFrom(ds: seq<Decision>)
    ensures forall b, d :: b in GroupByTime(ds) && d in b ==> d in ds
  {
    if ds != [] {
      var last := |ds| - 1;
      GroupedFrom(ds[..last]);
      assert ds == ds[..last] + [ds[last]];
    }
  }

  function Concat(batches: seq<seq<Decision>>): seq<Decision> {
    if batches == [] then [] else Concat(batches[..|batches| - 1]) + batches[|batches| - 1]
  }

  /** Grouping keeps every decision, in order. */
  lemma {:induction false} GroupingKeepsAll(ds: seq<Decision>)
    ensures Concat(GroupByTime(ds)) == ds
  {
    if ds != [] {
      var last := |ds| - 1;
      GroupingKeepsAll(ds[..last]);
      var before := GroupByTime(ds[..last]);
      var bs := GroupByTime(ds);
      assert ds == ds[..last] + [ds[last]];
      if |bs| == |before| {
        assert bs[..|bs| - 1] == before[..|before| - 1];
        assert Concat(before) == Concat(before[..|before| - 1]) + before[|before| - 1];
      } else {
        assert bs[..|bs| - 1] == before;
      }
    }
  }

  /** Each batch has one time, and neighbouring batches differ. */
  ghost predicate Batched(bs: seq<seq<Decision>>) {
    && (forall i :: 0 <= i < |bs| ==> bs[i] != [])
    && (forall i, j :: 0 <= i < |bs| && 0 <= j < |bs[i]| ==> bs[i][j].time == bs[i][0].time)
    && (forall i, j :: 0 <= i && j == i + 1 && j < |bs| ==> bs[i] != [] && bs[j] != [] && bs[i][0].time != bs[j][0].time)
  }

  lemma {:induction false} GroupingBatches(ds: seq<Decision>)
    ensures Batched(GroupByTime(ds))
  {
    if ds != [] {
      var last := |ds| - 1;
      GroupingBatches(ds[..last]);
      var before := GroupByTime(ds[..last]);
      var bs := GroupByTime(ds);
      assert forall i :: 0 <= i < |bs| - 1 ==> bs[i] == before[i];
    }
  }
}

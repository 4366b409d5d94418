/** What stress does to the bets of a run (football/capital/stress.py), bet by bet and in the bets' own figures. */
module StressedScenarios {
  import opened Common
  import opened Policies
  import opened Decisions
  import opened Simulation

  /** Bets are counted one by one. */
  lemma {:induction false} BetsCounted(slots: Slots)
    ensures Bets(slots) == |set k | 0 <= k < |slots| && slots[k].Some?|
  {
    var all := set k | 0 <= k < |slots| && slots[k].Some?;
    if slots == [] {
      assert all == {};
    } else {
      var last := |slots| - 1;
      BetsCounted(slots[..last]);
      var before := set k | 0 <= k < last && slots[..last][k].Some?;
      assert all == before + if slots[last].Some? then {last} else {};
    }
  }

  /** The place of a slot among all bets of a run, the first one being 0. */
  function Place(batches: seq<Slots>, b: nat, j: nat): nat
    requires b < |batches| && j <= |batches[b]|
  {
    AllBets(batches[..b]) + Bets(batches[b][..j])
  }

  /** The place counts every bet of the earlier batches, and of the same batch in front of the slot. */
  lemma PlaceNext(batches: seq<Slots>, b: nat, j: nat)
    requires b < |batches| && j < |batches[b]|
    ensures Place(batches, 0, 0) == 0
    ensures Place(batches, b, j + 1) == Place(batches, b, j) + if batches[b][j].Some? then 1 else 0
    ensures b + 1 < |batches| ==> Place(batches, b + 1, 0) == Place(batches, b, |batches[b]|)
  {
    assert batches[b][..j + 1][..j] == batches[b][..j];
    assert batches[..b + 1][..b] == batches[..b];
    assert batches[b][..|batches[b]|] == batches[b];
    assert batches[..0] == [] && batches[0][..0] == [];
    if b + 1 < |batches| { assert batches[b + 1][..0] == []; }
  }

  lemma {:induction false} SlotUnderStress(stress: ValidStress, draws: Draws, first: nat, slots: Slots, j: nat)
    requires j < |slots|
    ensures var n := first + Bets(slots[..j]);
            Scenario(stress, draws, first, slots)[j] ==
            if slots[j].Some? then Some(Stressed(stress, slots[j].value, n, draws(n))) else None
  {
    hide Stressed;
    var last := |slots| - 1;
    if j < last {
      SlotUnderStress(stress, draws, first, slots[..last], j);
      assert slots[..last][..j] == slots[..j];
    }
  }

  lemma {:induction false} BatchUnderStress(stress: ValidStress, draws: Draws, batches: seq<Slots>, b: nat)
    requires b < |batches|
    ensures Scenarios(stress, draws, batches)[b] == Scenario(stress, draws, AllBets(batches[..b]), batches[b])
  {
    hide Scenario;
    var last := |batches| - 1;
    if b < last {
      BatchUnderStress(stress, draws, batches[..last], b);
      assert batches[..last][..b] == batches[..b];
    }
  }

  /** A bet of a run under stress. */
  lemma AtPlace(stress: ValidStress, draws: Draws, batches: seq<Slots>, b: nat, j: nat)
    requires b < |batches| && j < |batches[b]|
    ensures var n, s := Place(batches, b, j), Scenarios(stress, draws, batches)[b];
            |s| == |batches[b]| &&
            s[j] == if batches[b][j].Some? then Some(Stressed(stress, batches[b][j].value, n, draws(n))) else None
  {
    hide Stressed;
    BatchUnderStress(stress, draws, batches, b);
    SlotUnderStress(stress, draws, AllBets(batches[..b]), batches[b], j);
  }

  /**
    A bet wins under stress exactly when its draw lies below its probability by
    more than the loss of probability and its place is outside the window of
    forced losses; a unit won pays the quoted odds less the haircut.
   */
  lemma StressMeans(stress: ValidStress, draws: Draws, batches: seq<Slots>, b: nat, j: nat)
    requires b < |batches| && j < |batches[b]|
    requires var n := Place(batches, b, j); 0.0 <= draws(n) < 1.0
    requires batches[b][j].Some? ==> 0.0 <= batches[b][j].value.probability <= 1.0
    ensures var n, s := Place(batches, b, j), Scenarios(stress, draws, batches)[b];
            && |s| == |batches[b]| && (s[j].Some? <==> batches[b][j].Some?)
            && (s[j].Some? ==>
                  var quoted, seen := batches[b][j].value, s[j].value;
                  && (seen.won <==> draws(n) + stress.probabilityDelta < quoted.probability
                                    && !(stress.forcedStart <= n < stress.forcedStart + stress.forcedLength))
                  && seen.price - 1.0 == (1.0 - stress.priceHaircut) * (quoted.price - 1.0)
                  && 0.0 <= seen.probability
                  && (stress.probabilityDelta <= quoted.probability ==>
                        seen.probability == quoted.probability - stress.probabilityDelta)
                  && (quoted.probability < stress.probabilityDelta ==> seen.probability == 0.0))
  {
    AtPlace(stress, draws, batches, b, j);
    hide Scenarios;
    hide Place;
    if batches[b][j].Some? {
      var quoted := batches[b][j].value;
      Commute(quoted.price - 1.0, 1.0 - stress.priceHaircut);
    }
  }

  lemma Commute(x: real, y: real)
    ensures x * y == y * x
  {
  }

  /** One stress is no milder than another in any of its parameters. */
  predicate Harsher(a: ValidStress, b: ValidStress) {
    && b.probabilityDelta <= a.probabilityDelta && b.priceHaircut <= a.priceHaircut
    && (b.forcedLength == 0
        || (a.forcedStart <= b.forcedStart && b.forcedStart + b.forcedLength <= a.forcedStart + a.forcedLength))
  }

  /** The same slot under a harsher and a milder stress: a win stays a win, at no smaller odds and probability. */
  predicate NoBetter(x: Option<Bet>, y: Option<Bet>) {
    && (x.Some? <==> y.Some?)
    && (x.Some? ==>
          && (x.value.won ==> y.value.won) && x.value.price <= y.value.price && x.value.probability <= y.value.probability)
  }

  /** For the same draws, whatever is won under a harsher stress is won under a milder one, at no smaller odds. */
  lemma HarsherWinsLess(a: ValidStress, b: ValidStress, draws: Draws, batches: seq<Slots>, i: nat, j: nat)
    requires Harsher(a, b) && i < |batches| && j < |batches[i]|
    requires var n := Place(batches, i, j); 0.0 <= draws(n) < 1.0
    requires batches[i][j].Some? ==> 0.0 <= batches[i][j].value.probability <= 1.0
    ensures |Scenarios(a, draws, batches)[i]| == |Scenarios(b, draws, batches)[i]| == |batches[i]|
    ensures NoBetter(Scenarios(a, draws, batches)[i][j], Scenarios(b, draws, batches)[i][j])
  {
    hide Scenarios;
    hide Place;
    hide NoBetter;
    StressMeans(a, draws, batches, i, j);
    StressMeans(b, draws, batches, i, j);
    var x, y := Scenarios(a, draws, batches)[i][j], Scenarios(b, draws, batches)[i][j];
    if batches[i][j].Some? {
      Shrinks(1.0 - a.priceHaircut, 1.0 - b.priceHaircut, batches[i][j].value.price - 1.0, x.value.price - 1.0, y.value.price - 1.0);
      SeenNoBetter(a, b, Place(batches, i, j), draws(Place(batches, i, j)), batches[i][j].value, x.value, y.value);
    } else {
      assert NoBetter(None, None) by { Nothing(); }
    }
  }

  lemma Nothing()
    ensures NoBetter(None, None)
  {
  }

  lemma SeenNoBetter(a: ValidStress, b: ValidStress, n: nat, draw: real, quoted: Bet, x: Bet, y: Bet)
    requires Harsher(a, b) && x.price <= y.price
    requires x.won <==> draw + a.probabilityDelta < quoted.probability && !(a.forcedStart <= n < a.forcedStart + a.forcedLength)
    requires y.won <==> draw + b.probabilityDelta < quoted.probability && !(b.forcedStart <= n < b.forcedStart + b.forcedLength)
    requires 0.0 <= y.probability
    requires if a.probabilityDelta <= quoted.probability then x.probability == quoted.probability - a.probabilityDelta else x.probability == 0.0
    requires b.probabilityDelta <= quoted.probability ==> y.probability == quoted.probability - b.probabilityDelta
    ensures NoBetter(Some(x), Some(y))
  {
  }

  lemma Shrinks(x: real, y: real, odds: real, less: real, more: real)
    requires x <= y && 0.0 < odds && less == x * odds && more == y * odds
    ensures less <= more
  {
    assert (y - x) * odds == y * odds - x * odds;
    ProductNonNegative(y - x, odds);
  }
}

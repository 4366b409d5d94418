/** What the selector's rows and its winner say, in the fields of the candidates. */
module SelectorMeaning {
  import opened Common
  import opened Medians
  import opened Selector

  // ---- one row ---------------------------------------------------------------------------

  lemma {:induction false} LeastIs(s: seq<real>)
    requires s != []
    ensures Least(s) in s && forall x :: x in s ==> Least(s) <= x
  {
    if |s| > 1 {
      LeastIs(s[..|s| - 1]);
      assert s == s[..|s| - 1] + [s[|s| - 1]];
    }
  }

  lemma {:induction false} GreatestIs(s: seq<real>)
    requires s != []
    ensures Greatest(s) in s && forall x :: x in s ==> x <= Greatest(s)
  {
    if |s| > 1 {
      GreatestIs(s[..|s| - 1]);
      assert s == s[..|s| - 1] + [s[|s| - 1]];
    }
  }

  /** What a tier asks of a candidate whose least return is `ret`. */
  ghost predicate Merits(c: Candidate, ret: real, benchmark: Option<real>, tier: int) {
    match tier
    case 1 => benchmark.Some? && benchmark.value < ret && c.clean && c.busy && forall m :: m in c.medians ==> 0.0 < m
    case 2 => 0.0 < ret && c.clean && c.busy && forall m :: m in c.medians ==> 0.0 < m
    case 3 => 0.0 < ret && c.clean && c.busy
    case 4 => 0.0 < ret && c.clean
    case 5 => 0.0 < ret
    case _ => false
  }

  /** A row states the worst case over all lags and blocks, and the best tier that this worst case merits. */
  lemma RowMeans(c: Candidate, benchmark: Option<real>)
    requires c.Complete()
    ensures var r := RowOf(c, benchmark);
            && r.index == c.index && r.placements == c.placements
            && r.ret in c.gains && (forall g :: g in c.gains ==> r.ret <= g)
            && r.drawdown in c.drawdowns && (forall d :: d in c.drawdowns ==> d <= r.drawdown)
            && -r.loss in c.tails && (forall t :: t in c.tails ==> -t <= r.loss)
            && (r.tier.Some? ==> Merits(c, r.ret, benchmark, r.tier.value)
                                 && forall k :: Merits(c, r.ret, benchmark, k) ==> r.tier.value <= k)
            && (r.tier.None? ==> forall k :: !Merits(c, r.ret, benchmark, k))
  {
    LeastIs(c.gains);
    GreatestIs(c.drawdowns);
    LeastIs(c.tails);
    hide Least;
    hide Greatest;
    AllPositive(c.medians);
  }

  lemma AllPositive(medians: seq<real>)
    ensures (forall k :: 0 <= k < |medians| ==> medians[k] > 0.0) <==> forall m :: m in medians ==> 0.0 < m
  {
    if forall m :: m in medians ==> 0.0 < m {
      forall k | 0 <= k < |medians| ensures medians[k] > 0.0 { assert medians[k] in medians; }
    }
  }

  // ---- the frontier ----------------------------------------------------------------------

  /** One row dominates another when it is nowhere worse and somewhere different. */
  predicate NowhereWorse(a: Row, b: Row) {
    && b.ret <= a.ret && a.drawdown <= b.drawdown && a.loss <= b.loss
    && (a.ret, a.drawdown, a.loss) != (b.ret, b.drawdown, b.loss)
  }

  /** A profitable row of the best tier that no row of its tier dominates. */
  ghost predicate OnFrontier(rows: seq<Row>, r: Row) {
    && r in rows && 0.0 < r.ret && r.tier.Some?
    && (forall x :: x in rows && 0.0 < x.ret && x.tier.Some? ==> r.tier.value <= x.tier.value)
    && (forall x :: x in rows && 0.0 < x.ret && x.tier == r.tier ==> !NowhereWorse(x, r))
  }

  lemma FrontierMeans(rows: seq<Row>, r: Row)
    requires Tiered(rows)
    ensures r in Frontier(rows) <==> OnFrontier(rows, r)
  {
    hide Frontier;
    hide InTier;
    hide BestTier;
    hide Undominated;
    hide NowhereWorse;
    hide Distinct;
    BestTierIsBest(rows);
    TierRows(rows);
    FrontierRows(rows);
    UndominatedMeans(InTier(rows), r);
    if OnFrontier(rows, r) {
      var x :| x in rows && x.ret > 0.0 && x.tier == BestTier(rows);
      assert r.tier.value <= x.tier.value;
    }
  }

  lemma UndominatedMeans(pool: seq<Row>, r: Row)
    ensures Undominated(pool, r) <==> forall x :: x in pool ==> !NowhereWorse(x, r)
  {
    assert forall x :: Dominates(x, r) <==> NowhereWorse(x, r);
    hide Dominates;
    hide NowhereWorse;
  }

  /** At most the tolerance above the robust median of the frontier, in drawdown and in loss. */
  predicate Affordable(frontier: seq<Row>, r: Row)
    requires frontier != []
  {
    r.drawdown - Threshold(Drawdowns(frontier)) <= TOLERANCE && r.loss - Threshold(Losses(frontier)) <= TOLERANCE
  }

  /** `x` is the larger of two overruns in their units, or nothing. */
  ghost predicate Overrun(d: real, u: real, l: real, v: real, x: real) {
    0.0 <= x && d <= x * u && l <= x * v && (x == 0.0 || d == x * u || l == x * v)
  }

  /** `x` is what a row exceeds the robust medians by, measured in their scales: the larger of both, or nothing. */
  ghost predicate Exceeds(frontier: seq<Row>, r: Row, x: real)
    requires frontier != []
  {
    var d, l := r.drawdown - Threshold(Drawdowns(frontier)), r.loss - Threshold(Losses(frontier));
    var u, v := Scale(Drawdowns(frontier)), Scale(Losses(frontier));
    0.0 < u && 0.0 < v && Overrun(d, u, l, v, x)
  }

  lemma QuotientCovers(n: real, d: real, x: real)
    requires 0.0 < d && n / d <= x
    ensures n <= x * d && (x == n / d ==> n == x * d)
  {
    var q := n / d;
    assert q * d == n;
    ProductNonNegative(x - q, d);
    assert (x - q) * d == x * d - q * d;
  }

  lemma ProductNonNegative(x: real, y: real)
    requires 0.0 <= x && 0.0 <= y
    ensures 0.0 <= x * y
  {
  }

  lemma LargerOverrun(d: real, u: real, l: real, v: real)
    requires 0.0 < u && 0.0 < v
    ensures Overrun(d, u, l, v, Max(0.0, Max(d / u, l / v)))
  {
    var p, q := d / u, l / v;
    var x := Max(0.0, Max(p, q));
    QuotientCovers(d, u, x);
    QuotientCovers(l, v, x);
  }

  lemma ExcessMeans(frontier: seq<Row>, r: Row)
    requires frontier != []
    ensures Exceeds(frontier, r, Excess(frontier, r))
  {
    hide Scale;
    hide Threshold;
    hide Drawdowns;
    hide Losses;
    hide Overrun;
    hide Max;
    ScalePositive(Drawdowns(frontier));
    ScalePositive(Losses(frontier));
    LargerOverrun(r.drawdown - Threshold(Drawdowns(frontier)), Scale(Drawdowns(frontier)),
                  r.loss - Threshold(Losses(frontier)), Scale(Losses(frontier)));
  }

  lemma ScalePositive(values: seq<real>)
    requires values != []
    ensures TOLERANCE <= Scale(values) && 0.0 < Scale(values)
  {
  }

  // ---- the winner ------------------------------------------------------------------------

  /** Higher return, lower loss, lower drawdown, more placements, smaller index. */
  predicate Ahead(a: Row, b: Row) {
    || a.ret > b.ret
    || (a.ret == b.ret &&
        (|| a.loss < b.loss
         || (a.loss == b.loss &&
             (|| a.drawdown < b.drawdown
              || (a.drawdown == b.drawdown &&
                  (a.placements > b.placements || (a.placements == b.placements && a.index < b.index)))))))
  }

  /** Without a positive return placements do not matter. */
  predicate AheadIdle(a: Row, b: Row) {
    || a.ret > b.ret
    || (a.ret == b.ret &&
        (|| a.loss < b.loss
         || (a.loss == b.loss && (a.drawdown < b.drawdown || (a.drawdown == b.drawdown && a.index < b.index)))))
  }

  lemma SurvivorAhead(rows: seq<Row>, w: Row, r: Row)
    requires IsWinner(rows, w) && exists x :: x in rows && x.ret > 0.0
    requires r in Survivors(rows) && r != w
    ensures Ahead(w, r)
  {
    PositiveRows(rows);
    hide Positive;
    hide Frontier;
    hide Survivors;
    hide Excess;
    SomeSurvivor(rows, r);
    assert Better(KeyOf(rows, w), KeyOf(rows, r));
  }

  lemma LeastExcess(rows: seq<Row>, w: Row, r: Row)
    requires IsWinner(rows, w) && exists x :: x in rows && x.ret > 0.0
    requires Survivors(rows) == [] && r in Frontier(rows) && r != w
    ensures var f := Frontier(rows); Excess(f, w) < Excess(f, r) || (Excess(f, w) == Excess(f, r) && Ahead(w, r))
  {
    PositiveRows(rows);
    hide Positive;
    hide Frontier;
    hide Survivors;
    hide Excess;
    assert Better(KeyOf(rows, w), KeyOf(rows, r));
  }

  /** With a positive return present, the winner is on the frontier. */
  lemma WinnerThere(rows: seq<Row>, w: Row)
    requires Tiered(rows) && IsWinner(rows, w) && exists r :: r in rows && 0.0 < r.ret
    ensures OnFrontier(rows, w) && Frontier(rows) != [] && w in Frontier(rows)
    ensures forall r :: r in Frontier(rows) <==> OnFrontier(rows, r)
  {
    hide OnFrontier;
    hide Frontier;
    hide IsWinner;
    hide Tiered;
    WinnerInBudget(rows, w);
    forall r
      ensures r in Frontier(rows) <==> OnFrontier(rows, r)
    {
      FrontierMeans(rows, r);
    }
  }

  /** If anyone on the frontier is affordable, the winner is, and ahead of everyone who is. */
  lemma WinnerAffordable(rows: seq<Row>, w: Row, r: Row)
    requires Tiered(rows) && IsWinner(rows, w) && OnFrontier(rows, r) && Frontier(rows) != [] && Affordable(Frontier(rows), r)
    ensures Affordable(Frontier(rows), w) && (r != w ==> Ahead(w, r))
  {
    hide IsWinner;
    WinnerInBudget(rows, w);
    FrontierMeans(rows, r);
    SameBudget(rows);
    SurvivorRows(rows);
    hide OnFrontier;
    hide Frontier;
    hide Survivors;
    hide WithinBudget;
    hide Affordable;
    hide Tiered;
    assert WithinBudget(Frontier(rows), r);
    if r != w { SurvivorAhead(rows, w, r); }
  }

  /** If nobody there is affordable, the winner exceeds the budget least, and is ahead of everyone who exceeds it as little. */
  lemma WinnerLeast(rows: seq<Row>, w: Row, r: Row)
    requires Tiered(rows) && IsWinner(rows, w) && OnFrontier(rows, r) && r != w
    requires forall x :: OnFrontier(rows, x) && Frontier(rows) != [] ==> !Affordable(Frontier(rows), x)
    ensures Frontier(rows) != [] &&
            exists x, y :: Exceeds(Frontier(rows), w, x) && Exceeds(Frontier(rows), r, y) && (x < y || (x == y && Ahead(w, r)))
  {
    hide IsWinner;
    WinnerThere(rows, w);
    SameBudget(rows);
    hide OnFrontier;
    hide Frontier;
    hide WithinBudget;
    hide Affordable;
    hide Exceeds;
    hide Excess;
    hide Tiered;
    NoSurvivor(rows);
    LeastExcess(rows, w, r);
    ExcessMeans(Frontier(rows), w);
    ExcessMeans(Frontier(rows), r);
  }

  lemma SomeSurvivor(rows: seq<Row>, r: Row)
    requires r in Survivors(rows)
    ensures Survivors(rows) != []
  {
  }

  lemma SameBudget(rows: seq<Row>)
    ensures forall r :: Frontier(rows) != [] ==> (WithinBudget(Frontier(rows), r) <==> Affordable(Frontier(rows), r))
  {
    hide Frontier;
    hide Threshold;
  }

  /** Without a positive return, a row that breaks even wins if there is one, and the best row otherwise. */
  lemma WinnerIdle(rows: seq<Row>, w: Row)
    requires Tiered(rows) && IsWinner(rows, w) && forall r :: r in rows ==> r.ret <= 0.0
    ensures w in rows && ((exists r :: r in rows && r.ret == 0.0) ==> w.ret == 0.0)
    ensures forall r :: r in rows && r != w ==> AheadIdle(w, r)
  {
    PositiveRows(rows);
    FilterKeeps(rows, (r: Row) => r.ret == 0.0);
    hide Positive;
    hide Survivors;
    hide Frontier;
    hide Excess;
    hide Filter;
    var zeros := Filter(rows, (r: Row) => r.ret == 0.0);
    SomeMember(zeros);
    forall r | r in rows && r != w
      ensures AheadIdle(w, r)
    {
      if zeros == [] || r in zeros {
        assert Better(KeyOf(rows, w), KeyOf(rows, r));
      }
    }
  }
}

/**
  The tiered Pareto selector of football/experiments/economic_selector.py. The
  winner is specified by what it beats, so it cannot depend on the order in
  which the candidates were listed.
 */
module Selector {
  import opened Common
  import opened Medians

  /** What is known about one candidate: returns and drawdowns over the lags, tail means and medians over the blocks. */
  datatype Candidate = Candidate(
    index: int,
    gains: seq<real>,
    drawdowns: seq<real>,
    tails: seq<real>,
    medians: seq<real>,
    clean: bool,
    busy: bool,
    placements: int)
  {
    predicate Complete() {
      gains != [] && drawdowns != [] && tails != []
    }
  }

  datatype Row = Row(index: int, ret: real, drawdown: real, loss: real, tier: Option<int>, placements: int)

  function Least(s: seq<real>): real
    requires s != []
  {
    if |s| == 1 then s[0] else Min(Least(s[..|s| - 1]), s[|s| - 1])
  }

  function Greatest(s: seq<real>): real
    requires s != []
  {
    if |s| == 1 then s[0] else Max(Greatest(s[..|s| - 1]), s[|s| - 1])
  }

  /** Benchmark beaten, clean, busy and bootstrap positive; then fewer and fewer of these; None without a positive return. */
  function TierOf(c: Candidate, ret: real, benchmark: Option<real>): Option<int> {
    var bootstrap := forall k :: 0 <= k < |c.medians| ==> c.medians[k] > 0.0;
    if benchmark.Some? && ret > benchmark.value && c.clean && c.busy && bootstrap then Some(1)
    else if ret > 0.0 && c.clean && c.busy && bootstrap then Some(2)
    else if ret > 0.0 && c.clean && c.busy then Some(3)
    else if ret > 0.0 && c.clean then Some(4)
    else if ret > 0.0 then Some(5)
    else None
  }

  function RowOf(c: Candidate, benchmark: Option<real>): Row
    requires c.Complete()
  {
    var ret := Least(c.gains);
    Row(c.index, ret, Greatest(c.drawdowns), -Least(c.tails), TierOf(c, ret, benchmark), c.placements)
  }

  // ---- filters -------------------------------------------------------------------------

  function Filter(rows: seq<Row>, p: Row -> bool): (r: seq<Row>)
  {
    if rows == [] then []
    else Filter(rows[..|rows| - 1], p) + if p(rows[|rows| - 1]) then [rows[|rows| - 1]] else []
  }

  lemma {:induction false} FilterKeeps(rows: seq<Row>, p: Row -> bool)
    ensures forall r :: r in Filter(rows, p) <==> r in rows && p(r)
    ensures forall r :: multiset(Filter(rows, p))[r] == if p(r) then multiset(rows)[r] else 0
  {
    if rows != [] {
      FilterKeeps(rows[..|rows| - 1], p);
      assert rows == rows[..|rows| - 1] + [rows[|rows| - 1]];
    }
  }

  /** Filtering the same rows in another order keeps the same rows. */
  lemma FilterForgets(a: seq<Row>, b: seq<Row>, p: Row -> bool, q: Row -> bool)
    requires multiset(a) == multiset(b) && forall r :: r in a ==> p(r) == q(r)
    ensures multiset(Filter(a, p)) == multiset(Filter(b, q))
  {
    FilterKeeps(a, p);
    FilterKeeps(b, q);
    forall r
      ensures multiset(Filter(a, p))[r] == multiset(Filter(b, q))[r]
    {
      assert r in multiset(a) <==> r in a;
    }
  }

  predicate Distinct(rows: seq<Row>) {
    forall i, j :: 0 <= i < j < |rows| ==> rows[i].index != rows[j].index
  }

  lemma SameRow(rows: seq<Row>, a: Row, b: Row)
    requires Distinct(rows) && a in rows && b in rows && a.index == b.index
    ensures a == b
  {
  }

  // ---- tier and frontier ---------------------------------------------------------------

  function Positive(rows: seq<Row>): seq<Row> {
    Filter(rows, (r: Row) => r.ret > 0.0)
  }

  /** The best tier among candidates with a positive return. */
  function BestTier(rows: seq<Row>): Option<int> {
    if rows == [] then None
    else
      var before, last := BestTier(rows[..|rows| - 1]), rows[|rows| - 1];
      if last.ret <= 0.0 || last.tier.None? then before
      else if before.None? || last.tier.value < before.value then last.tier
      else before
  }

  function InTier(rows: seq<Row>): seq<Row> {
    var tier := BestTier(rows);
    Filter(rows, (r: Row) => r.ret > 0.0 && r.tier == tier)
  }

  predicate Dominates(a: Row, b: Row) {
    && a.ret >= b.ret && a.drawdown <= b.drawdown && a.loss <= b.loss
    && (a.ret > b.ret || a.drawdown < b.drawdown || a.loss < b.loss)
  }

  predicate Undominated(pool: seq<Row>, r: Row) {
    forall a :: a in pool ==> !Dominates(a, r)
  }

  function Frontier(rows: seq<Row>): seq<Row> {
    var pool := InTier(rows);
    Filter(pool, (r: Row) => Undominated(pool, r))
  }

  // ---- risk budget ---------------------------------------------------------------------

  function Drawdowns(rows: seq<Row>): (v: seq<real>)
    ensures |v| == |rows|
  {
    seq(|rows|, i requires 0 <= i < |rows| => rows[i].drawdown)
  }

  function Losses(rows: seq<Row>): (v: seq<real>)
    ensures |v| == |rows|
  {
    seq(|rows|, i requires 0 <= i < |rows| => rows[i].loss)
  }

  predicate WithinBudget(frontier: seq<Row>, r: Row)
    requires frontier != []
  {
    && r.drawdown <= Threshold(Drawdowns(frontier)) + TOLERANCE
    && r.loss <= Threshold(Losses(frontier)) + TOLERANCE
  }

  function Survivors(rows: seq<Row>): seq<Row> {
    var frontier := Frontier(rows);
    Filter(frontier, (r: Row) => frontier != [] && WithinBudget(frontier, r))
  }

  /** How far a row exceeds the budget, in units of the frontier's own spread. */
  function Excess(frontier: seq<Row>, r: Row): real
    requires frontier != []
  {
    var d := (r.drawdown - Threshold(Drawdowns(frontier))) / Scale(Drawdowns(frontier));
    var l := (r.loss - Threshold(Losses(frontier))) / Scale(Losses(frontier));
    Max(0.0, Max(d, l))
  }

  // ---- preference ----------------------------------------------------------------------

  datatype Key = Key(excess: real, ret: real, loss: real, drawdown: real, placements: int, index: int)

  /** Least excess, highest return, least loss, least drawdown, most placements, least index. */
  predicate Better(a: Key, b: Key) {
    if a.excess != b.excess then a.excess < b.excess
    else if a.ret != b.ret then a.ret > b.ret
    else if a.loss != b.loss then a.loss < b.loss
    else if a.drawdown != b.drawdown then a.drawdown < b.drawdown
    else if a.placements != b.placements then a.placements > b.placements
    else a.index < b.index
  }

  /** Who may win. */
  function Pool(rows: seq<Row>): seq<Row> {
    if Positive(rows) == [] then
      var zeros := Filter(rows, (r: Row) => r.ret == 0.0);
      if zeros != [] then zeros else rows
    else if Survivors(rows) != [] then Survivors(rows)
    else Frontier(rows)
  }

  /** How the members of the pool compare. */
  function KeyOf(rows: seq<Row>, r: Row): Key {
    if Positive(rows) == [] then Key(0.0, r.ret, r.loss, r.drawdown, 0, r.index)
    else if Survivors(rows) != [] || Frontier(rows) == [] then Key(0.0, r.ret, r.loss, r.drawdown, r.placements, r.index)
    else Key(Excess(Frontier(rows), r), r.ret, r.loss, r.drawdown, r.placements, r.index)
  }

  lemma BetterTransitive(a: Key, b: Key, c: Key)
    requires Better(a, b) && Better(b, c)
    ensures Better(a, c)
  {
  }

  lemma BetterOnce(a: Key, b: Key)
    requires Better(a, b)
    ensures !Better(b, a)
  {
  }

  lemma KeysDiffer(rows: seq<Row>, a: Row, b: Row)
    requires Distinct(rows) && a in rows && b in rows && a != b
    ensures Better(KeyOf(rows, a), KeyOf(rows, b)) || Better(KeyOf(rows, b), KeyOf(rows, a))
  {
    if a.index == b.index { SameRow(rows, a, b); }
    KeyIndex(rows, a);
    KeyIndex(rows, b);
    hide KeyOf;
  }

  lemma KeyIndex(rows: seq<Row>, a: Row)
    ensures KeyOf(rows, a).index == a.index
  {
    hide Excess;
  }

  /** `w` beats every other row of a list. */
  ghost predicate Beats(rows: seq<Row>, pool: seq<Row>, w: Row) {
    w in pool && forall r :: r in pool && r != w ==> Better(KeyOf(rows, w), KeyOf(rows, r))
  }

  lemma BeatsMore(rows: seq<Row>, pool: seq<Row>, w: Row, next: Row) returns (v: Row)
    requires Distinct(rows) && Beats(rows, pool, w) && (forall r :: r in pool ==> r in rows) && next in rows
    ensures v == if Better(KeyOf(rows, next), KeyOf(rows, w)) then next else w
    ensures Beats(rows, pool + [next], v)
  {
    hide KeyOf;
    hide Better;
    hide Distinct;
    v := if Better(KeyOf(rows, next), KeyOf(rows, w)) then next else w;
    forall r | r in pool + [next] && r != v
      ensures Better(KeyOf(rows, v), KeyOf(rows, r))
    {
      if Better(KeyOf(rows, next), KeyOf(rows, w)) {
        if r != w { BetterTransitive(KeyOf(rows, v), KeyOf(rows, w), KeyOf(rows, r)); }
      } else if r !in pool {
        KeysDiffer(rows, v, r);
      }
    }
  }

  /** The first of the best, going through a pool from left to right. */
  method Best(rows: seq<Row>, pool: seq<Row>) returns (w: Row)
    requires pool != [] && Distinct(rows) && forall r :: r in pool ==> r in rows
    ensures Beats(rows, pool, w)
  {
    hide KeyOf;
    hide Better;
    hide Distinct;
    w := pool[0];
    for i := 1 to |pool|
      invariant Beats(rows, pool[..i], w)
    {
      assert pool[i] in pool;
      assert pool[..i + 1] == pool[..i] + [pool[i]];
      ghost var v := BeatsMore(rows, pool[..i], w, pool[i]);
      hide Beats;
      if Better(KeyOf(rows, pool[i]), KeyOf(rows, w)) {
        w := pool[i];
      }
    }
    assert pool[..|pool|] == pool;
  }

  ghost predicate IsWinner(rows: seq<Row>, w: Row) {
    Beats(rows, Pool(rows), w)
  }

  // ---- the pool ------------------------------------------------------------------------

  lemma {:induction false} BestTierIsBest(rows: seq<Row>)
    requires forall r :: r in rows && r.ret > 0.0 ==> r.tier.Some?
    ensures BestTier(rows).Some? <==> exists r :: r in rows && r.ret > 0.0
    ensures BestTier(rows).Some? ==>
              && (exists r :: r in rows && r.ret > 0.0 && r.tier == BestTier(rows))
              && forall r :: r in rows && r.ret > 0.0 ==> BestTier(rows).value <= r.tier.value
  {
    if rows != [] {
      var last := |rows| - 1;
      assert rows == rows[..last] + [rows[last]];
      BestTierIsBest(rows[..last]);
      if rows[last].ret > 0.0 {
        assert rows[last] in rows;
        if BestTier(rows) != rows[last].tier {
          var r :| r in rows[..last] && r.ret > 0.0 && r.tier == BestTier(rows[..last]);
          assert r in rows;
        }
      } else if BestTier(rows).Some? {
        var r :| r in rows[..last] && r.ret > 0.0 && r.tier == BestTier(rows[..last]);
        assert r in rows;
      }
    }
  }

  lemma DominatesTransitive(a: Row, b: Row, c: Row)
    requires Dominates(a, b) && Dominates(b, c)
    ensures Dominates(a, c)
  {
  }

  function Dominators(pool: seq<Row>, r: Row): set<Row> {
    set a | a in pool && Dominates(a, r)
  }

  /** Every row of a pool is undominated, or dominated by an undominated row of the pool. */
  lemma {:induction false} DominatedByUndominated(pool: seq<Row>, r: Row) returns (top: Row)
    requires r in pool
    ensures top in pool && Undominated(pool, top) && (top == r || Dominates(top, r))
    decreases |Dominators(pool, r)|
  {
    if Undominated(pool, r) {
      top := r;
    } else {
      var a :| a in pool && Dominates(a, r);
      assert Dominators(pool, a) < Dominators(pool, r) by {
        forall x | x in Dominators(pool, a)
          ensures x in Dominators(pool, r)
        {
          DominatesTransitive(x, a, r);
        }
        assert a in Dominators(pool, r) && a !in Dominators(pool, a);
      }
      SmallerSet(Dominators(pool, a), Dominators(pool, r));
      top := DominatedByUndominated(pool, a);
      if top != a { DominatesTransitive(top, a, r); }
    }
  }

  lemma SmallerSet(a: set<Row>, b: set<Row>)
    requires a < b
    ensures |a| < |b|
  {
    var x :| x in b && x !in a;
    var rest := b - {x};
    assert a <= rest;
    assert rest == a + (rest - a);
  }

  /** Rows as they are built: a positive return always has a tier. */
  ghost predicate Tiered(rows: seq<Row>) {
    Distinct(rows) && forall r :: r in rows ==> (r.ret > 0.0 ==> r.tier.Some?)
  }

  lemma PositiveRows(rows: seq<Row>)
    ensures Positive(rows) != [] <==> exists r :: r in rows && r.ret > 0.0
    ensures forall r :: r in Positive(rows) <==> r in rows && r.ret > 0.0
  {
    FilterKeeps(rows, (r: Row) => r.ret > 0.0);
    if exists r :: r in rows && r.ret > 0.0 {
      var r :| r in rows && r.ret > 0.0;
      assert r in Positive(rows);
    }
    if Positive(rows) != [] {
      assert Positive(rows)[0] in Positive(rows);
    }
  }

  lemma TierRows(rows: seq<Row>)
    ensures forall r :: r in InTier(rows) <==> r in rows && r.ret > 0.0 && r.tier == BestTier(rows)
  {
    var tier := BestTier(rows);
    FilterKeeps(rows, (r: Row) => r.ret > 0.0 && r.tier == tier);
  }

  lemma FrontierRows(rows: seq<Row>)
    ensures forall r :: r in Frontier(rows) <==> r in InTier(rows) && Undominated(InTier(rows), r)
  {
    var pool := InTier(rows);
    FilterKeeps(pool, (r: Row) => Undominated(pool, r));
  }

  lemma SurvivorRows(rows: seq<Row>)
    ensures forall r :: r in Survivors(rows) <==> r in Frontier(rows) && WithinBudget(Frontier(rows), r)
  {
    var frontier := Frontier(rows);
    FilterKeeps(frontier, (r: Row) => frontier != [] && WithinBudget(frontier, r));
  }

  lemma FrontierFound(rows: seq<Row>)
    requires Tiered(rows) && Positive(rows) != []
    ensures Frontier(rows) != []
  {
    PositiveRows(rows);
    BestTierIsBest(rows);
    var r :| r in rows && r.ret > 0.0 && r.tier == BestTier(rows);
    TierRows(rows);
    var top := DominatedByUndominated(InTier(rows), r);
    FrontierRows(rows);
    assert top in Frontier(rows);
  }

  lemma PoolRows(rows: seq<Row>)
    requires Tiered(rows) && rows != []
    ensures Pool(rows) != [] && forall r :: r in Pool(rows) ==> r in rows
  {
    hide Positive;
    hide Survivors;
    hide Frontier;
    hide InTier;
    if Positive(rows) == [] {
      FilterKeeps(rows, (r: Row) => r.ret == 0.0);
    } else {
      FrontierFound(rows);
      SurvivorRows(rows);
      FrontierRows(rows);
      TierRows(rows);
    }
  }

  /** Exactly one candidate wins. */
  lemma OneWinner(rows: seq<Row>, v: Row, w: Row)
    requires Tiered(rows) && rows != [] && IsWinner(rows, v) && IsWinner(rows, w)
    ensures v == w
  {
    hide KeyOf;
    hide Better;
    hide Pool;
    if v != w {
      BetterOnce(KeyOf(rows, v), KeyOf(rows, w));
    }
  }

  /**
    With a positive return present, the winner has the best tier, nobody in
    that tier dominates it, and every row of the tier off the frontier is
    dominated by a row on it.
   */
  lemma WinnerOnFrontier(rows: seq<Row>, w: Row)
    requires Tiered(rows) && IsWinner(rows, w) && exists r :: r in rows && r.ret > 0.0
    ensures w in rows && w.ret > 0.0 && w.tier == BestTier(rows)
    ensures forall r :: r in rows && r.ret > 0.0 ==> r.tier.Some? && w.tier.Some? && w.tier.value <= r.tier.value
    ensures forall r :: r in rows && r.ret > 0.0 && r.tier == w.tier ==> !Dominates(r, w)
  {
    PositiveRows(rows);
    BestTierIsBest(rows);
    TierRows(rows);
    FrontierRows(rows);
    SurvivorRows(rows);
    hide Positive;
    hide Survivors;
    hide Frontier;
    hide InTier;
    hide BestTier;
    hide KeyOf;
    hide Better;
    hide Dominates;
  }

  lemma OffFrontier(rows: seq<Row>, r: Row) returns (top: Row)
    requires r in InTier(rows) && r !in Frontier(rows)
    ensures top in Frontier(rows) && Dominates(top, r)
  {
    FrontierRows(rows);
    top := DominatedByUndominated(InTier(rows), r);
  }

  /** A winner inside the budget beats everyone inside it; outside it, it exceeds it least. */
  lemma WinnerInBudget(rows: seq<Row>, w: Row)
    requires Tiered(rows) && IsWinner(rows, w) && exists r :: r in rows && r.ret > 0.0
    ensures Frontier(rows) != [] && w in Frontier(rows)
    ensures (exists r :: r in Frontier(rows) && WithinBudget(Frontier(rows), r)) ==> WithinBudget(Frontier(rows), w)
    ensures forall r :: r in Frontier(rows) && !WithinBudget(Frontier(rows), w) ==>
              Excess(Frontier(rows), w) <= Excess(Frontier(rows), r)
    ensures forall r :: r in Frontier(rows) && WithinBudget(Frontier(rows), r) ==> w.ret >= r.ret
  {
    PositiveRows(rows);
    FrontierFound(rows);
    SurvivorRows(rows);
    hide Positive;
    hide Survivors;
    hide Frontier;
    hide Excess;
    hide WithinBudget;
    if exists r :: r in Frontier(rows) && WithinBudget(Frontier(rows), r) {
      var r :| r in Frontier(rows) && WithinBudget(Frontier(rows), r);
      assert r in Survivors(rows);
      assert Survivors(rows) != [];
    } else {
      NoSurvivor(rows);
    }
  }

  lemma NoSurvivor(rows: seq<Row>)
    requires forall r :: r in Frontier(rows) ==> !WithinBudget(Frontier(rows), r)
    ensures Survivors(rows) == []
  {
    SurvivorRows(rows);
    hide Survivors;
    hide Frontier;
    hide WithinBudget;
    SomeMember(Survivors(rows));
  }

  lemma SomeMember(rows: seq<Row>)
    ensures rows != [] ==> exists r :: r in rows
  {
    if rows != [] {
      assert rows[0] in rows;
    }
  }

  // ---- the order of the list -----------------------------------------------------------

  lemma SameMembers(a: seq<Row>, b: seq<Row>)
    requires multiset(a) == multiset(b)
    ensures |a| == |b| && forall r :: r in a <==> r in b
  {
    assert |a| == |multiset(a)| == |multiset(b)| == |b|;
    forall r
      ensures r in a <==> r in b
    {
      assert r in multiset(a) <==> r in multiset(b);
    }
  }

  lemma WithoutRowValues(rows: seq<Row>, j: nat)
    requires j < |rows|
    ensures multiset(RemoveAt(rows, j)) == multiset(rows) - multiset{rows[j]}
    ensures multiset(Drawdowns(rows)) == multiset(Drawdowns(RemoveAt(rows, j))) + multiset{rows[j].drawdown}
    ensures multiset(Losses(rows)) == multiset(Losses(RemoveAt(rows, j))) + multiset{rows[j].loss}
  {
    assert rows == rows[..j] + [rows[j]] + rows[j + 1..];
    assert Drawdowns(RemoveAt(rows, j)) == RemoveAt(Drawdowns(rows), j);
    assert Losses(RemoveAt(rows, j)) == RemoveAt(Losses(rows), j);
    assert Drawdowns(rows)[j] == rows[j].drawdown && Losses(rows)[j] == rows[j].loss;
    hide RemoveAt;
    hide Drawdowns;
    hide Losses;
    OneRemoved(Drawdowns(rows), j);
    OneRemoved(Losses(rows), j);
  }

  lemma OneRemoved(values: seq<real>, j: nat)
    requires j < |values|
    ensures multiset(values) == multiset(RemoveAt(values, j)) + multiset{values[j]}
  {
    RemovedValues(values, j);
    assert values[j] in multiset(values);
  }

  lemma {:induction false} ValuesForget(a: seq<Row>, b: seq<Row>)
    requires multiset(a) == multiset(b)
    ensures multiset(Drawdowns(a)) == multiset(Drawdowns(b)) && multiset(Losses(a)) == multiset(Losses(b))
    decreases |a|
  {
    SameMembers(a, b);
    if a != [] {
      assert a[0] in b;
      var j :| 0 <= j < |b| && b[j] == a[0];
      WithoutRowValues(a, 0);
      WithoutRowValues(b, j);
      hide RemoveAt;
      hide Drawdowns;
      hide Losses;
      ValuesForget(RemoveAt(a, 0), RemoveAt(b, j));
    }
  }

  lemma TierAtMost(a: seq<Row>, b: seq<Row>)
    requires (forall r :: r in a ==> r in b) && Tiered(a) && Tiered(b) && BestTier(a).Some?
    ensures BestTier(b).Some? && BestTier(b).value <= BestTier(a).value
  {
    BestTierIsBest(a);
    BestTierIsBest(b);
    hide BestTier;
    var r :| r in a && r.ret > 0.0 && r.tier == BestTier(a);
    assert r in b;
  }

  lemma TierForgets(a: seq<Row>, b: seq<Row>)
    requires multiset(a) == multiset(b) && Tiered(a) && Tiered(b)
    ensures BestTier(a) == BestTier(b)
  {
    SameMembers(a, b);
    if BestTier(a).Some? { TierAtMost(a, b); }
    if BestTier(b).Some? { TierAtMost(b, a); }
    hide BestTier;
  }

  lemma TierRowsForget(a: seq<Row>, b: seq<Row>)
    requires multiset(a) == multiset(b) && Tiered(a) && Tiered(b)
    ensures multiset(InTier(a)) == multiset(InTier(b)) && multiset(Positive(a)) == multiset(Positive(b))
  {
    TierForgets(a, b);
    hide BestTier;
    hide Tiered;
    var tier := BestTier(a);
    var p, q := (r: Row) => r.ret > 0.0 && r.tier == tier, (r: Row) => r.ret > 0.0;
    FilterForgets(a, b, p, p);
    FilterForgets(a, b, q, q);
    hide Filter;
  }

  lemma FrontierForgets(a: seq<Row>, b: seq<Row>)
    requires multiset(InTier(a)) == multiset(InTier(b))
    ensures multiset(Frontier(a)) == multiset(Frontier(b))
  {
    hide InTier;
    hide Dominates;
    var p, q := InTier(a), InTier(b);
    SameMembers(p, q);
    FilterForgets(p, q, (r: Row) => Undominated(p, r), (r: Row) => Undominated(q, r));
  }

  lemma BudgetForgets(a: seq<Row>, b: seq<Row>, r: Row)
    requires multiset(a) == multiset(b) && a != []
    ensures b != [] && WithinBudget(a, r) == WithinBudget(b, r) && Excess(a, r) == Excess(b, r)
  {
    hide Threshold;
    hide Scale;
    hide Drawdowns;
    hide Losses;
    SameMembers(a, b);
    ValuesForget(a, b);
    ThresholdForgets(Drawdowns(a), Drawdowns(b));
    ThresholdForgets(Losses(a), Losses(b));
    ScaleForgets(Drawdowns(a), Drawdowns(b));
    ScaleForgets(Losses(a), Losses(b));
  }

  lemma SurvivorsForget(a: seq<Row>, b: seq<Row>)
    requires multiset(Frontier(a)) == multiset(Frontier(b))
    ensures multiset(Survivors(a)) == multiset(Survivors(b))
  {
    hide Frontier;
    hide WithinBudget;
    var p, q := Frontier(a), Frontier(b);
    SameMembers(p, q);
    if p != [] {
      forall r {
        BudgetForgets(p, q, r);
      }
    }
    FilterForgets(p, q, (r: Row) => p != [] && WithinBudget(p, r), (r: Row) => q != [] && WithinBudget(q, r));
  }

  lemma PoolForgets(a: seq<Row>, b: seq<Row>)
    requires multiset(a) == multiset(b) && Tiered(a) && Tiered(b)
    ensures multiset(Pool(a)) == multiset(Pool(b))
    ensures forall r :: KeyOf(a, r) == KeyOf(b, r)
  {
    TierRowsForget(a, b);
    FrontierForgets(a, b);
    SurvivorsForget(a, b);
    hide Positive;
    hide Frontier;
    hide Survivors;
    hide Excess;
    SameMembers(Positive(a), Positive(b));
    SameMembers(Frontier(a), Frontier(b));
    SameMembers(Survivors(a), Survivors(b));
    FilterForgets(a, b, (r: Row) => r.ret == 0.0, (r: Row) => r.ret == 0.0);
    hide Filter;
    SameMembers(Filter(a, (r: Row) => r.ret == 0.0), Filter(b, (r: Row) => r.ret == 0.0));
    if Frontier(a) != [] {
      forall r {
        BudgetForgets(Frontier(a), Frontier(b), r);
      }
    }
  }

  /** The chosen candidate does not depend on the order of the list. */
  lemma WinnerForgetsOrder(a: seq<Row>, b: seq<Row>, w: Row)
    requires multiset(a) == multiset(b) && Tiered(a) && Tiered(b)
    ensures IsWinner(a, w) <==> IsWinner(b, w)
  {
    PoolForgets(a, b);
    SameMembers(Pool(a), Pool(b));
    hide Pool;
    hide KeyOf;
    hide Better;
  }

  // ---- selection -----------------------------------------------------------------------

  datatype Reason = Selected | NonPositiveReturn | LowerPriorityTier | ParetoDominated | RobustRiskBudget | LowerSelectionRank

  function ReasonFor(rows: seq<Row>, w: Row, r: Row): Reason {
    var positive := Positive(rows) != [];
    if r == w then Selected
    else if positive && r.ret <= 0.0 then NonPositiveReturn
    else if positive && r.tier != BestTier(rows) then LowerPriorityTier
    else if positive && r !in Frontier(rows) then ParetoDominated
    else if positive && r !in Survivors(rows) && Survivors(rows) != [] then RobustRiskBudget
    else LowerSelectionRank
  }

  /** What a reason says about a row, when a positive return is present. */
  lemma ReasonMeans(rows: seq<Row>, w: Row, r: Row)
    requires Tiered(rows) && IsWinner(rows, w) && r in rows && exists x :: x in rows && x.ret > 0.0
    ensures ReasonFor(rows, w, r) == ParetoDominated <==>
              r.ret > 0.0 && r.tier == w.tier && exists x :: x in rows && x.ret > 0.0 && x.tier == w.tier && Dominates(x, r)
    ensures ReasonFor(rows, w, r) == RobustRiskBudget <==>
              r in Frontier(rows) && r != w && !WithinBudget(Frontier(rows), r)
              && exists x :: x in Frontier(rows) && WithinBudget(Frontier(rows), x)
    ensures ReasonFor(rows, w, r) == LowerPriorityTier <==> r.ret > 0.0 && r.tier != w.tier
  {
    WinnerOnFrontier(rows, w);
    WinnerInBudget(rows, w);
    PositiveRows(rows);
    TierRows(rows);
    FrontierRows(rows);
    SurvivorRows(rows);
    SomeMember(Survivors(rows));
    hide Positive;
    hide Frontier;
    hide Survivors;
    hide InTier;
    hide BestTier;
    hide IsWinner;
    hide Dominates;
    hide WithinBudget;
  }

  datatype Problem = EconomicIdentities | EconomicObserved

  datatype Selection = Selection(winner: Row, rows: seq<Row>, reasons: seq<Reason>)

  function RowsOf(cs: seq<Candidate>, benchmark: Option<real>): (r: seq<Row>)
    requires forall c :: c in cs ==> c.Complete()
    ensures |r| == |cs|
  {
    seq(|cs|, i requires 0 <= i < |cs| => RowOf(cs[i], benchmark))
  }

  predicate Identified(cs: seq<Candidate>) {
    cs != [] && forall i, j :: 0 <= i < j < |cs| ==> cs[i].index != cs[j].index
  }

  lemma RowsTiered(cs: seq<Candidate>, benchmark: Option<real>)
    requires Identified(cs) && forall c :: c in cs ==> c.Complete()
    ensures Tiered(RowsOf(cs, benchmark))
  {
    hide Least;
    hide Greatest;
  }

  /** Choose exactly one candidate, and say of every other one why not. */
  method Select(cs: seq<Candidate>, benchmark: Option<real>) returns (r: Result<Selection, Problem>)
    ensures r.Success? <==> Identified(cs) && forall c :: c in cs ==> c.Complete()
    ensures r.Success? ==>
              var s := r.value;
              && s.rows == RowsOf(cs, benchmark) && Tiered(s.rows) && IsWinner(s.rows, s.winner)
              && |s.reasons| == |cs| && forall i :: 0 <= i < |cs| ==> s.reasons[i] == ReasonFor(s.rows, s.winner, s.rows[i])
  {
    if !Identified(cs) {
      return Failure(EconomicIdentities);
    }
    if !forall c :: c in cs ==> c.Complete() {
      return Failure(EconomicObserved);
    }
    hide IsWinner;
    hide Beats;
    hide Pool;
    hide RowsOf;
    hide Tiered;
    hide Identified;
    var rows := BuildRows(cs, benchmark);
    RowsTiered(cs, benchmark);
    PoolRows(rows);
    assert Distinct(rows) by { TieredDistinct(rows); }
    hide Distinct;
    var w := Best(rows, Pool(rows));
    WinnerIsBest(rows, w);
    var reasons := GiveReasons(rows, w);
    r := Success(Selection(w, rows, reasons));
  }

  lemma TieredDistinct(rows: seq<Row>)
    requires Tiered(rows)
    ensures Distinct(rows)
  {
  }

  method BuildRows(cs: seq<Candidate>, benchmark: Option<real>) returns (rows: seq<Row>)
    requires forall c :: c in cs ==> c.Complete()
    ensures rows == RowsOf(cs, benchmark)
  {
    rows := [];
    for i := 0 to |cs|
      invariant rows == RowsOf(cs, benchmark)[..i]
    {
      hide RowOf;
      assert cs[i] in cs;
      rows := rows + [RowOf(cs[i], benchmark)];
    }
    assert RowsOf(cs, benchmark)[..|cs|] == RowsOf(cs, benchmark);
  }

  method GiveReasons(rows: seq<Row>, w: Row) returns (reasons: seq<Reason>)
    ensures |reasons| == |rows| && forall i :: 0 <= i < |rows| ==> reasons[i] == ReasonFor(rows, w, rows[i])
  {
    hide ReasonFor;
    reasons := [];
    for i := 0 to |rows|
      invariant |reasons| == i && forall k :: 0 <= k < i ==> reasons[k] == ReasonFor(rows, w, rows[k])
    {
      reasons := reasons + [ReasonFor(rows, w, rows[i])];
    }
  }

  lemma WinnerIsBest(rows: seq<Row>, w: Row)
    requires Beats(rows, Pool(rows), w)
    ensures IsWinner(rows, w)
  {
    hide Beats;
    hide Pool;
  }

  // ---- the order of the candidates -----------------------------------------------------

  lemma SameCandidates(cs: seq<Candidate>, ds: seq<Candidate>)
    requires multiset(cs) == multiset(ds)
    ensures |cs| == |ds| && forall c :: c in cs <==> c in ds
  {
    assert |cs| == |multiset(cs)| == |multiset(ds)| == |ds|;
    forall c
      ensures c in cs <==> c in ds
    {
      assert c in multiset(cs) <==> c in multiset(ds);
    }
  }

  lemma RemovedOne<T>(s: seq<T>, j: nat)
    requires j < |s|
    ensures multiset(s) == multiset(RemoveAt(s, j)) + multiset{s[j]}
    ensures forall x :: x in RemoveAt(s, j) ==> x in s
  {
    assert s == s[..j] + [s[j]] + s[j + 1..];
  }

  lemma RowsWithout(cs: seq<Candidate>, benchmark: Option<real>, j: nat)
    requires j < |cs| && forall c :: c in cs ==> c.Complete()
    ensures forall c :: c in RemoveAt(cs, j) ==> c.Complete()
    ensures RowsOf(RemoveAt(cs, j), benchmark) == RemoveAt(RowsOf(cs, benchmark), j)
  {
    hide RowOf;
    RemovedOne(cs, j);
  }

  lemma WithoutCandidate(cs: seq<Candidate>, benchmark: Option<real>, j: nat)
    requires j < |cs| && forall c :: c in cs ==> c.Complete()
    ensures multiset(RemoveAt(cs, j)) == multiset(cs) - multiset{cs[j]}
    ensures forall c :: c in RemoveAt(cs, j) ==> c.Complete()
    ensures multiset(RowsOf(cs, benchmark)) == multiset(RowsOf(RemoveAt(cs, j), benchmark)) + multiset{RowOf(cs[j], benchmark)}
  {
    hide RowOf;
    RowsWithout(cs, benchmark, j);
    RemovedOne(cs, j);
    RemovedOne(RowsOf(cs, benchmark), j);
    hide RemoveAt;
    assert multiset(RemoveAt(cs, j)) + multiset{cs[j]} - multiset{cs[j]} == multiset(RemoveAt(cs, j));
  }

  lemma {:induction false} RowsForget(cs: seq<Candidate>, ds: seq<Candidate>, benchmark: Option<real>)
    requires multiset(cs) == multiset(ds) && (forall c :: c in cs ==> c.Complete()) && forall c :: c in ds ==> c.Complete()
    ensures multiset(RowsOf(cs, benchmark)) == multiset(RowsOf(ds, benchmark))
    decreases |cs|
  {
    SameCandidates(cs, ds);
    if cs != [] {
      assert cs[0] in ds;
      var j :| 0 <= j < |ds| && ds[j] == cs[0];
      WithoutCandidate(cs, benchmark, 0);
      WithoutCandidate(ds, benchmark, j);
      hide RemoveAt;
      hide RowsOf;
      hide RowOf;
      RowsForget(RemoveAt(cs, 0), RemoveAt(ds, j), benchmark);
    }
  }

  lemma {:induction false} IdentifiedApart(cs: seq<Candidate>, c: Candidate, d: Candidate)
    requires Identified(cs) && c in cs && d in cs && c.index == d.index
    ensures c == d
  {
  }

  lemma IdentifiedForgets(cs: seq<Candidate>, ds: seq<Candidate>)
    requires multiset(cs) == multiset(ds) && Identified(cs)
    ensures Identified(ds)
  {
    SameCandidates(cs, ds);
    forall i, j | 0 <= i < j < |ds|
      ensures ds[i].index != ds[j].index
    {
      if ds[i].index == ds[j].index {
        IdentifiedApart(cs, ds[i], ds[j]);
        TwoListings(ds, i, j);
        OnceOnly(cs, ds[i]);
      }
    }
  }

  lemma {:induction false} OnceOnly(cs: seq<Candidate>, c: Candidate)
    requires forall i, j :: 0 <= i < j < |cs| ==> cs[i].index != cs[j].index
    ensures multiset(cs)[c] <= 1
  {
    if cs != [] {
      var last := |cs| - 1;
      assert cs == cs[..last] + [cs[last]];
      OnceOnly(cs[..last], c);
      if c == cs[last] {
        assert c !in cs[..last];
        assert c !in multiset(cs[..last]);
      }
    }
  }

  lemma TwoListings(ds: seq<Candidate>, i: nat, j: nat)
    requires i < j < |ds| && ds[i] == ds[j]
    ensures multiset(ds)[ds[i]] >= 2
  {
    assert ds == ds[..j] + [ds[j]] + ds[j + 1..];
    assert ds[..j][i] == ds[i];
    assert ds[i] in multiset(ds[..j]);
  }

  /** Listing the candidates in another order selects the same one. */
  lemma SelectionForgetsOrder(cs: seq<Candidate>, ds: seq<Candidate>, benchmark: Option<real>, v: Row, w: Row)
    requires multiset(cs) == multiset(ds) && Identified(cs) && forall c :: c in cs ==> c.Complete()
    ensures Identified(ds) && forall c :: c in ds ==> c.Complete()
    ensures IsWinner(RowsOf(cs, benchmark), v) && IsWinner(RowsOf(ds, benchmark), w) ==> v == w
  {
    SameCandidates(cs, ds);
    IdentifiedForgets(cs, ds);
    RowsForget(cs, ds, benchmark);
    RowsTiered(cs, benchmark);
    RowsTiered(ds, benchmark);
    var rows := RowsOf(cs, benchmark);
    assert rows != [];
    hide RowsOf;
    hide IsWinner;
    hide Tiered;
    if IsWinner(RowsOf(cs, benchmark), v) && IsWinner(RowsOf(ds, benchmark), w) {
      WinnerForgetsOrder(rows, RowsOf(ds, benchmark), w);
      OneWinner(rows, v, w);
    }
  }
}

/**
  Restartable shards of a bootstrap design (football/experiments/capital_runner.py):
  whatever shards earlier attempts left behind, filling the gaps and reducing
  gives the scores of one run over the whole range.
 */
module Shards {
  import opened Common
  import opened Ordering

  const REPLICATES: int := 5000
  const STEP: int := 100

  /** The scores of all candidates for one replicate. */
  type Column = seq<real>

  /** What the bootstrap computes for one absolute replicate index: its scores, or nothing when they cannot be estimated. */
  type Scores = int -> Option<Column>

  /** A stored shard; `sealed` says that its own identity matches its content. */
  datatype Shard = Shard(start: int, stop: int, payload: Option<seq<Column>>, sealed: bool)

  datatype Problem = OverlappingShards | IdentityMismatch | RangeMismatch | Incomplete | PathUnestimable

  // ---- what a range is worth -----------------------------------------------------------

  predicate Estimable(scores: Scores, start: int, stop: int) {
    forall i :: start <= i < stop ==> scores(i).Some?
  }

  /** The columns of a range, one for each replicate. */
  function Columns(scores: Scores, start: int, stop: int): (r: seq<Column>)
    requires start <= stop && Estimable(scores, start, stop)
    ensures |r| == stop - start
  {
    seq(stop - start, k requires 0 <= k < stop - start => scores(start + k).value)
  }

  /** `bootstrap_scores`, by absolute replicate index: the whole range, or nothing. */
  function Bootstrap(scores: Scores, start: int, stop: int): Option<seq<Column>>
    requires start <= stop
  {
    if Estimable(scores, start, stop) then Some(Columns(scores, start, stop)) else None
  }

  /** A shard that execution writes: a proper range with exactly its scores. */
  ghost predicate Honest(scores: Scores, s: Shard) {
    0 <= s.start < s.stop <= REPLICATES && s.payload == Bootstrap(scores, s.start, s.stop)
  }

  /** What a seal guarantees. */
  ghost predicate AllHonest(scores: Scores, files: seq<Shard>) {
    forall i :: 0 <= i < |files| && files[i].sealed ==> Honest(scores, files[i])
  }

  // ---- chains --------------------------------------------------------------------------

  /** Shards that follow one another from 0 to `cursor`, all sealed. */
  ghost predicate Chain(scores: Scores, chain: seq<Shard>, cursor: int) {
    && (forall i :: 0 <= i < |chain| ==> chain[i].sealed && Honest(scores, chain[i]))
    && (chain != [] ==> chain[0].start == 0)
    && (forall i, j :: 0 <= i && j == i + 1 && j < |chain| ==> chain[j].start == chain[i].stop)
    && cursor == if chain == [] then 0 else chain[|chain| - 1].stop
  }

  lemma ChainMore(scores: Scores, chain: seq<Shard>, cursor: int, s: Shard)
    requires Chain(scores, chain, cursor) && s.sealed && Honest(scores, s) && s.start == cursor
    ensures Chain(scores, chain + [s], s.stop)
  {
    hide Honest;
  }

  function Joined(chain: seq<Shard>): seq<Column> {
    if chain == [] then []
    else Joined(chain[..|chain| - 1]) + chain[|chain| - 1].payload.GetOr([])
  }

  predicate AllComplete(chain: seq<Shard>) {
    forall i :: 0 <= i < |chain| ==> chain[i].payload.Some?
  }

  lemma ChainPrefix(scores: Scores, chain: seq<Shard>, cursor: int)
    requires Chain(scores, chain, cursor) && chain != []
    ensures Chain(scores, chain[..|chain| - 1], chain[|chain| - 1].start)
  {
    hide Honest;
    var last := |chain| - 1;
    if 0 < last {
      assert chain[last].start == chain[last - 1].stop;
    }
  }

  lemma ColumnsJoin(scores: Scores, start: int, middle: int, stop: int)
    requires start <= middle <= stop && Estimable(scores, start, middle) && Estimable(scores, middle, stop)
    ensures Estimable(scores, start, stop)
    ensures Columns(scores, start, stop) == Columns(scores, start, middle) + Columns(scores, middle, stop)
  {
  }

  /** A chain joins to the bootstrap of its whole range. */
  lemma {:induction false} ChainIsBootstrap(scores: Scores, chain: seq<Shard>, cursor: int)
    requires Chain(scores, chain, cursor)
    ensures 0 <= cursor && (AllComplete(chain) <==> Estimable(scores, 0, cursor))
    ensures AllComplete(chain) ==> Joined(chain) == Columns(scores, 0, cursor)
  {
    if chain != [] {
      var last := chain[|chain| - 1];
      var before := chain[..|chain| - 1];
      ChainPrefix(scores, chain, cursor);
      ChainIsBootstrap(scores, before, last.start);
      assert AllComplete(chain) <==> AllComplete(before) && last.payload.Some?;
      assert Honest(scores, last);
      hide Columns;
      hide Chain;
      if Estimable(scores, 0, last.start) && Estimable(scores, last.start, last.stop) {
        ColumnsJoin(scores, 0, last.start, last.stop);
      }
    }
  }

  // ---- reducing ------------------------------------------------------------------------

  /** Check that shards form the whole range, and put their columns side by side. */
  method Reduce(chain: seq<Shard>, ghost scores: Scores) returns (r: Result<seq<Column>, Problem>)
    requires Chain(scores, chain, REPLICATES)
    ensures r == if Estimable(scores, 0, REPLICATES) then Success(Columns(scores, 0, REPLICATES)) else Failure(PathUnestimable)
  {
    ChainIsBootstrap(scores, chain, REPLICATES);
    hide Columns;
    var cursor, joined := 0, [];
    for i := 0 to |chain|
      invariant cursor == if i == 0 then 0 else chain[i - 1].stop
      invariant joined == Joined(chain[..i])
    {
      assert chain[..i + 1][..i] == chain[..i];
      assert Honest(scores, chain[i]);
      if !chain[i].sealed || chain[i].start != cursor {
        return Failure(IdentityMismatch);
      }
      if chain[i].stop <= cursor || chain[i].stop > REPLICATES {
        return Failure(RangeMismatch);
      }
      cursor := chain[i].stop;
      joined := joined + chain[i].payload.GetOr([]);
    }
    assert chain[..|chain|] == chain;
    if cursor != REPLICATES {
      return Failure(Incomplete);
    }
    if !AllComplete(chain) {
      return Failure(PathUnestimable);
    }
    r := Success(joined);
  }

  // ---- resuming ------------------------------------------------------------------------

  /** No two shards claim the same replicate. */
  ghost predicate Disjoint(files: seq<Shard>) {
    forall i, j :: 0 <= i < j < |files| ==> files[i].stop <= files[j].start || files[j].stop <= files[i].start
  }

  ghost predicate AllSealed(files: seq<Shard>) {
    forall i :: 0 <= i < |files| ==> files[i].sealed
  }

  function Starts(files: seq<Shard>): map<int, Rank> {
    map i | 0 <= i < |files| :: Ordering.Rank(0.0, files[i].start)
  }

  /** The shards by start. */
  ghost predicate ByStart(files: seq<Shard>, ids: seq<int>) {
    && (forall i :: 0 <= i < |ids| ==> 0 <= ids[i] < |files|)
    && (forall k :: 0 <= k < |files| ==> k in ids)
    && (forall i, j :: 0 <= i < j < |ids| ==> ids[i] != ids[j] && files[ids[i]].start <= files[ids[j]].start)
  }

  lemma OrderByStart(files: seq<Shard>)
    ensures ByStart(files, Order(Starts(files)))
  {
    var ranks, ids := Starts(files), Order(Starts(files));
    forall i | 0 <= i < |ids|
      ensures 0 <= ids[i] < |files|
    {
      assert ids[i] in ranks;
    }
    forall i, j | 0 <= i < j < |ids|
      ensures ids[i] != ids[j] && files[ids[i]].start <= files[ids[j]].start
    {
      assert Before(ranks[ids[i]], ids[i], ranks[ids[j]], ids[j]);
    }
  }

  /** In start order, disjoint shards are those of which each starts where the one before has stopped, or later. */
  ghost predicate Spaced(files: seq<Shard>, ids: seq<int>, n: nat)
    requires n <= |ids| && forall i :: 0 <= i < |ids| ==> 0 <= ids[i] < |files|
  {
    forall i, j :: 0 <= i && j == i + 1 && j < n ==> files[ids[i]].stop <= files[ids[j]].start
  }

  lemma {:induction false} SpacedFar(files: seq<Shard>, ids: seq<int>, i: nat, j: nat)
    requires ByStart(files, ids) && Spaced(files, ids, |ids|) && i < j < |ids|
    requires forall k :: 0 <= k < |files| ==> files[k].start < files[k].stop
    ensures files[ids[i]].stop <= files[ids[j]].start
  {
    if i + 1 < j { SpacedFar(files, ids, i, j - 1); }
  }

  /** Where an identity stands in the order. */
  lemma Place(files: seq<Shard>, ids: seq<int>, k: nat) returns (i: nat)
    requires ByStart(files, ids) && k < |files|
    ensures i < |ids| && ids[i] == k
  {
    assert k in ids;
    i :| 0 <= i < |ids| && ids[i] == k;
  }

  lemma DisjointPair(files: seq<Shard>, a: nat, b: nat)
    requires Disjoint(files) && a < |files| && b < |files| && a != b && files[a].start <= files[b].start
    requires files[b].start < files[b].stop
    ensures files[a].stop <= files[b].start
  {
  }

  lemma SpacedIffDisjoint(files: seq<Shard>, ids: seq<int>)
    requires ByStart(files, ids) && forall k :: 0 <= k < |files| ==> files[k].start < files[k].stop
    ensures Spaced(files, ids, |ids|) <==> Disjoint(files)
  {
    if Spaced(files, ids, |ids|) {
      forall a, b | 0 <= a < b < |files|
        ensures files[a].stop <= files[b].start || files[b].stop <= files[a].start
      {
        var i := Place(files, ids, a);
        var j := Place(files, ids, b);
        if i < j { SpacedFar(files, ids, i, j); } else { SpacedFar(files, ids, j, i); }
      }
    }
    if Disjoint(files) {
      forall i, j | 0 <= i && j == i + 1 && j < |ids|
        ensures files[ids[i]].stop <= files[ids[j]].start
      {
        DisjointPair(files, ids[i], ids[j]);
      }
    }
  }

  class Workspace {
    const scores: Scores
    var files: seq<Shard>

    /** Every sealed file holds exactly what the bootstrap computes for its range. */
    ghost predicate Valid()
      reads this
    {
      AllHonest(scores, files)
    }

    constructor (computed: Scores)
      ensures scores == computed && files == [] && Valid()
    {
      scores := computed;
      files := [];
    }

    /** `execute_shard`: verify what is there, or compute and write it; nothing is overwritten. */
    method Execute(start: int, stop: int) returns (r: Result<Shard, Problem>)
      requires Valid()
      modifies this
      ensures Valid() && old(files) <= files
      ensures AllSealed(old(files)) ==> AllSealed(files) && (r.Success? <==> 0 <= start < stop <= REPLICATES)
      ensures r.Success? ==>
                r.value.sealed && r.value.start == start && r.value.stop == stop && Honest(scores, r.value) && r.value in files
    {
      if !(0 <= start < stop <= REPLICATES) {
        return Failure(RangeMismatch);
      }
      hide Bootstrap;
      for i := 0 to |files|
      {
        if files[i].start == start && files[i].stop == stop {
          if !files[i].sealed {
            return Failure(IdentityMismatch);
          }
          return Success(files[i]);
        }
      }
      var s := Shard(start, stop, Bootstrap(scores, start, stop), true);
      files := files + [s];
      r := Success(s);
    }

    /** Fill the gap from `cursor` to `target` with shards of at most a hundred replicates. */
    method Fill(chain: seq<Shard>, cursor: int, target: int) returns (r: Result<seq<Shard>, Problem>)
      requires Valid() && Chain(scores, chain, cursor) && 0 <= cursor <= target
      modifies this
      ensures Valid() && old(files) <= files
      ensures AllSealed(old(files)) ==> AllSealed(files) && (target <= REPLICATES ==> r.Success?)
      ensures r.Success? ==> Chain(scores, r.value, target)
    {
      var filled, at := chain, cursor;
      while at < target
        invariant Valid() && old(files) <= files && (AllSealed(old(files)) ==> AllSealed(files))
        invariant Chain(scores, filled, at) && 0 <= at <= target
        decreases target - at
      {
        hide Workspace.Valid;
        hide Honest;
        hide AllSealed;
        var stop := if at + STEP < target then at + STEP else target;
        var made := Execute(at, stop);
        if made.Failure? {
          return Failure(made.error);
        }
        ChainMore(scores, filled, at, made.value);
        hide Chain;
        filled, at := filled + [made.value], stop;
      }
      r := Success(filled);
    }

    /** Take the shards found in start order, and fill every gap between them. */
    method Collect(found: seq<Shard>, ids: seq<int>) returns (r: Result<seq<Shard>, Problem>)
      requires Valid() && files == found && ByStart(found, ids)
      modifies this
      ensures Valid()
      ensures r.Success? ==> AllSealed(found) && Spaced(found, ids, |ids|) && Chain(scores, r.value, REPLICATES)
      ensures AllSealed(found) && Spaced(found, ids, |ids|) ==> r.Success?
    {
      var cursor, chain := 0, [];
      for i := 0 to |ids|
        invariant Valid() && AllHonest(scores, found) && Chain(scores, chain, cursor) && 0 <= cursor <= REPLICATES
        invariant cursor == if i == 0 then 0 else found[ids[i - 1]].stop
        invariant Spaced(found, ids, i) && (forall k :: 0 <= k < i ==> found[ids[k]].sealed)
        invariant AllSealed(found) ==> AllSealed(files)
      {
        var s := found[ids[i]];
        assert s.sealed ==> Honest(scores, s);
        if s.start < cursor {
          return Failure(OverlappingShards);
        }
        var filled := Fill(chain, cursor, s.start);
        if filled.Failure? {
          return Failure(filled.error);
        }
        if !s.sealed {
          return Failure(IdentityMismatch);
        }
        ChainMore(scores, filled.value, s.start, s);
        chain, cursor := filled.value + [s], s.stop;
      }
      EverySealed(found, ids);
      r := Fill(chain, cursor, REPLICATES);
    }

    /**
      Resume a design. Whatever the shards on disk are, the result is that of one
      run over the whole range, unless a shard is damaged or two overlap.
     */
    method DesignScores() returns (r: Result<seq<Column>, Problem>)
      requires Valid()
      modifies this
      ensures Valid()
      ensures r.Success? <==> AllSealed(old(files)) && Disjoint(old(files)) && Estimable(scores, 0, REPLICATES)
      ensures r.Success? ==> r.value == Columns(scores, 0, REPLICATES)
    {
      ghost var found := files;
      OrderByStart(files);
      var ids := Sort(Starts(files));
      if AllSealed(found) {
        SpacedIffDisjoint(found, ids);
      }
      var chain := Collect(files, ids);
      if chain.Failure? {
        return Failure(chain.error);
      }
      r := Reduce(chain.value, scores);
    }
  }

  lemma EverySealed(files: seq<Shard>, ids: seq<int>)
    requires ByStart(files, ids)
    ensures (forall k :: 0 <= k < |ids| ==> files[ids[k]].sealed) ==> AllSealed(files)
  {
    if forall k :: 0 <= k < |ids| ==> files[ids[k]].sealed {
      forall a | 0 <= a < |files|
        ensures files[a].sealed
      {
        var i := Place(files, ids, a);
      }
    }
  }
}

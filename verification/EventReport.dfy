/** What the report of an event-time path says of its ledger, and which candidates it is made for. */
module EventReport {
  import opened Common
  import opened Policies
  import opened EventPath
  import opened EventInvariants
  import opened EventCompletion
  import opened EventLedger
  import R = RecoveryAccounting
  import E = EventRun

  /** The profit and loss of all settlements. */
  function Earned(rows: seq<Event>): real {
    if rows == [] then 0.0
    else
      var last := rows[|rows| - 1].kind;
      Earned(rows[..|rows| - 1]) + if last.Settlement? then last.pnl else 0.0
  }

  lemma {:induction false} EarnedIsProfit(p: Policy, rows: seq<Event>)
    ensures Earned(rows) == R.TallyOf(p, rows).profit
  {
    if rows != [] {
      EarnedIsProfit(p, rows[..|rows| - 1]);
      hide Policy.Settle;
    }
  }

  lemma {:induction false} EarnedMore(rows: seq<Event>, late: seq<Event>)
    requires forall i :: 0 <= i < |late| ==> late[i].kind.Expiry?
    ensures Earned(rows + late) == Earned(rows)
  {
    if late == [] {
      assert rows + late == rows;
    } else {
      EarnedMore(rows, late[..|late| - 1]);
      assert (rows + late)[..|rows + late| - 1] == rows + late[..|late| - 1];
    }
  }

  lemma EndKeeps(e: Engine)
    ensures var f := Finish(e);
            f.equity == e.equity && f.termination == e.termination && f.ruined == e.ruined && Earned(f.ledger) == Earned(e.ledger)
  {
    hide LateExpiry;
    hide Earned;
    LateExpires(e);
    var rows := LateExpiry(e).ledger;
    OnlyExpires(e, rows[|e.ledger|..]);
    hide Expires;
    EarnedMore(e.ledger, rows[|e.ledger|..]);
    assert rows == e.ledger + rows[|e.ledger|..];
    LateFigures(e);
  }

  lemma OnlyExpires(e: Engine, late: seq<Event>)
    requires Expires(e, late)
    ensures forall i :: 0 <= i < |late| ==> late[i].kind.Expiry?
  {
    hide Earlier;
  }

  lemma LateFigures(e: Engine)
    ensures var d := LateExpiry(e); d.equity == e.equity && d.termination == e.termination && d.ruined == e.ruined
  {
    FinalListed(e);
    LateSame(e, Ordering.Order(FinalRanks(e)));
    hide FinalRanks;
  }

  lemma {:induction false} LateSame(e: Engine, ids: seq<int>)
    requires forall i :: 0 <= i < |ids| ==> ids[i] in e.pending
    ensures var d := ExpireLateEach(e, ids); d.equity == e.equity && d.termination == e.termination && d.ruined == e.ruined
  {
    if ids != [] { LateSame(e, ids[..|ids| - 1]); }
  }

  lemma ProfitIs(env: Env, e: Engine)
    requires R.Audited(env, e)
    ensures e.equity == INITIAL + Earned(e.ledger)
  {
    EarnedIsProfit(env.policy, e.ledger);
    hide Earned;
    hide R.TallyOf;
  }

  lemma PathFigures(env: Env, opps: Book)
    requires env.Valid() && Keyed(opps)
    ensures var f := Path(env, opps);
            && f.equity == INITIAL + Earned(f.ledger) && f.totalStaked == Sum(Applied(f.ledger))
            && 0.0 <= f.equity && (f.ruined <==> f.equity == 0.0) && (f.termination == BankrollDepleted ==> f.equity == 0.0)
            && f.termination != InsufficientCapital && (f.termination == Running ==> 0.0 < f.equity)
  {
    hide Play;
    hide Inv;
    hide Finish;
    hide Earned;
    hide Sum;
    hide Applied;
    hide R.TallyOf;
    hide AllClose;
    hide EventLedger.InOrder;
    hide Expires;
    hide SettledLater;
    var last := Play(env, opps, Bound(opps));
    R.PathAudited(env, opps, Bound(opps));
    ProfitIs(env, last);
    hide R.Audited;
    PlayInv(env, opps, Bound(opps));
    EndKeeps(last);
    PathTells(env, opps);
    StandsOrFalls(env, opps, last);
  }

  /**
    The return and the yield of every path are its recorded profit over the initial bankroll and over all that was staked;
    it is ruined exactly without equity, and passes exactly with equity and a policy that never gave up.
   */
  lemma ReportMeans(env: Env, opps: Book, n: nat)
    requires env.Valid() && Keyed(opps)
    ensures var f := Path(env, opps);
            var r, staked := E.ReportOf(f, n), Sum(Applied(f.ledger));
            && r.final == f && f.equity == 100.0 + Earned(f.ledger) && r.totalReturn * 100.0 == Earned(f.ledger)
            && (r.roi.None? <==> staked == 0.0) && (r.roi.Some? ==> r.roi.value * staked == Earned(f.ledger))
            && (r.economicRuin <==> f.equity <= 0.0)
            && (r.hardRiskPass <==> 0.0 < f.equity && f.termination != RecoveryStepsExhausted)
            && (r.structurallyComplete <==> |f.statuses| == n)
  {
    hide Path;
    hide Earned;
    hide Sum;
    hide Applied;
    var f := Path(env, opps);
    PathFigures(env, opps);
    Yields(f.equity - INITIAL, f.totalStaked);
  }

  lemma Yields(gain: real, staked: real)
    ensures staked != 0.0 ==> gain / staked * staked == gain
    ensures gain / INITIAL * 100.0 == gain
  {
  }

  /** Ruin, equity and the reason to stop agree. */
  lemma StandsOrFalls(env: Env, opps: Book, e: Engine)
    requires Inv(env, opps, e)
    ensures 0.0 <= e.equity && (e.ruined <==> e.equity == 0.0)
    ensures e.termination == BankrollDepleted ==> e.equity == 0.0
    ensures e.termination != InsufficientCapital && (e.termination == Running ==> 0.0 < e.equity)
  {
    hide Books;
    hide Clock;
    hide Scheduled;
    hide Hopeful;
  }

  /** Two policies share a version exactly when they are of the same kind. */
  lemma VersionsTell(a: Policy, b: Policy)
    ensures E.Version(a) == E.Version(b) <==>
              || (a.FlatUnit? && b.FlatUnit?) || (a.FixedFraction? && b.FixedFraction?) || (a.FixedTarget? && b.FixedTarget?)
              || (a.LegacyRecovery? && b.LegacyRecovery?) || (a.LegacyCapped? && b.LegacyCapped?)
              || (a.LegacyPartial? && b.LegacyPartial?) || (a.FractionalKelly? && b.FractionalKelly?)
  {
    Lengths();
  }

  lemma Lengths()
    ensures |"fs004-flat-unit-v1"| == 18 && |"fs004-fixed-fraction-bankroll-v1"| == 32
    ensures |"fs004-fixed-target-no-recovery-v1"| == 33 && |"fs004-legacy-recovery-deviation-1-v1"| == 36
    ensures |"fs004-legacy-capped-v1"| == 22 && |"fs004-legacy-partial-v1"| == 23 && |"fs004-fractional-kelly-v1"| == 25
  {
  }

  /** A candidate matches with the version of its policy and any positive number of lanes. */
  lemma CandidateMeans(c: E.Candidate)
    ensures c.version == E.Version(c.policy) ==> (E.Matches(c) <==> 0 < c.maxLanes)
    ensures c.version != E.Version(c.policy) ==> !E.Matches(c)
  {
  }
}

/**
  What a settlement makes of a placement, over whole runs of transactions: the
  money, the memory it starts from, and what a void result gives back.
 */
module RuntimeResults {
  import opened Common
  import opened Policies
  import opened Decisions
  import opened Runtime
  import opened RuntimeSafety
  import opened RuntimeRefinement
  import opened Drawdowns

  // ---- one transaction in figures --------------------------------------------------------

  /** A placement reserves what the policy asks of the equity and the memory of the moment, and moves no money. */
  ghost predicate Reserves(c: Config, a: Account, basis: Basis, matchId: int, b: Account)
    requires basis.Stakeable()
  {
    var q := c.policy.Request(basis.price.value, basis.probability, a.equity, a.state);
    && b.equity == a.equity && b.state == a.state && b.reserved == a.reserved + q.applied
    && b.nextId == a.nextId + 1 && |OpenIds(a.positions)| < c.maxLanes
    && q.termination == Running && 0.0 < q.applied && q.requested <= a.equity - a.reserved
    && a.nextId in b.positions && b.positions == a.positions[a.nextId := b.positions[a.nextId]]
    && var p := b.positions[a.nextId];
       p.matchId == matchId && p.basis == basis && p.request == q && p.stateBefore == a.state && p.fate == Open && p.pnl == 0.0
  }

  lemma PlacedReserves(c: Config, a: Account, t: Attempt)
    requires c.Valid() && Kept(c, a) && Place(c, a, t).1 == PlacedNow
    ensures BasisOf(a, t).Stakeable() && Reserves(c, a, BasisOf(a, t), t.matchId, Place(c, a, t).0)
    ensures a.nextId !in a.positions
  {
    NoneThere(c, a);
    ScreenNever(c, a, t);
    ScreenedOut(c, a, t);
    hide Screen;
    hide Policy.Request;
    hide Kept;
    hide BasisOf;
    hide Max;
    hide OpenIds;
  }

  lemma NoneThere(c: Config, a: Account)
    requires Kept(c, a)
    ensures a.nextId !in a.positions
  {
    hide Solvent;
  }

  lemma ScreenNever(c: Config, a: Account, t: Attempt)
    ensures Screen(c, a, t).Some? ==> Screen(c, a, t).value.1 != PlacedNow
  {
    hide OpenIds;
  }

  /** What a result makes of a position. */
  ghost predicate Books(c: Config, a: Account, id: int, o: Observation, b: Account)
    requires id in a.positions && a.positions[id].Stakeable()
  {
    var p := a.positions[id];
    var won := p.basis.action == o.outcome;
    var stripped := p.request.(reason := NoReason, termination := Running);
    && p.fate == Open && o.matchId == p.matchId
    && b.reserved == a.reserved - p.request.applied
    && id in b.positions && b.positions == a.positions[id := b.positions[id]]
    && b.positions[id].fate == (if o.void then Void else if won then SettledWin else SettledLoss)
    && b.positions[id].pnl == b.equity - a.equity && b.positions[id].stateAfter == b.state
    && (o.void ==> b.equity == a.equity && b.state == p.stateBefore)
    && (!o.void && won ==>
          b.equity == a.equity + p.request.applied * (p.basis.price.value - 1.0)
          && b.state == c.policy.Settle(p.stateBefore, stripped, true).0)
    && (!o.void && !won ==>
          b.equity == a.equity - p.request.applied && b.state == c.policy.Settle(p.stateBefore, stripped, false).0)
  }

  lemma SettledBooks(c: Config, a: Account, id: int, o: Observation)
    requires Sane(a) && Settle(c, a, id, o).1.SettledAs?
    ensures id in a.positions && Books(c, a, id, o, Settle(c, a, id, o).0)
    ensures Settle(c, a, id, o).1.fate == Settle(c, a, id, o).0.positions[id].fate
  {
    hide Policy.Settle;
    hide Max;
  }

  // ---- a placement and its settlement ----------------------------------------------------

  /** The n-th transaction places the position and the m-th settles it. */
  ghost predicate Pair(c: Config, ops: seq<Op>, n: nat, m: nat) {
    && n < m < |ops| && ops[n].PlaceOp? && ops[m].SettleOp? && ops[m].id == Run(c, ops[..n]).nextId
    && OutcomeAt(c, ops, n) == PlacedNow && OutcomeAt(c, ops, m).SettledAs?
  }

  lemma RunNext(c: Config, ops: seq<Op>, n: nat)
    requires n < |ops|
    ensures Run(c, ops[..n + 1]) == Apply(c, Run(c, ops[..n]), ops[n]).0 && OutcomeAt(c, ops, n) == Apply(c, Run(c, ops[..n]), ops[n]).1
  {
    hide Apply;
    assert ops[..n + 1][..n] == ops[..n];
  }

  /** What was stored at placement stays on file. */
  lemma OnFile(c: Config, ops: seq<Op>, n: nat, m: nat, id: int)
    requires c.Valid() && n <= m <= |ops| && id in Run(c, ops[..n]).positions
    ensures var b := Run(c, ops[..m]);
            var p := Run(c, ops[..n]).positions[id];
            && Kept(c, b) && Sane(b) && id in b.positions
            && b.positions[id].basis == p.basis && b.positions[id].matchId == p.matchId
            && b.positions[id].request == p.request && b.positions[id].stateBefore == p.stateBefore
  {
    hide Run;
    hide Kept;
    hide StatesForward;
    RunKept(c, ops[..m]);
    KeptSane(c, Run(c, ops[..m]));
    RunForward(c, ops, n, m);
  }

  lemma PlacedThen(c: Config, ops: seq<Op>, n: nat)
    requires c.Valid() && n < |ops| && ops[n].PlaceOp? && OutcomeAt(c, ops, n) == PlacedNow
    ensures var a, t := Run(c, ops[..n]), ops[n].attempt;
            BasisOf(a, t).Stakeable() && Reserves(c, a, BasisOf(a, t), t.matchId, Run(c, ops[..n + 1]))
  {
    hide Place;
    hide BasisOf;
    hide Kept;
    hide Reserves;
    RunKept(c, ops[..n]);
    RunNext(c, ops, n);
    hide Run;
    PlacedReserves(c, Run(c, ops[..n]), ops[n].attempt);
  }

  /**
    Whatever happened in between, a settlement pays the stake that the placement reserved, and hands the result to the
    policy together with the memory of the placement; a void result moves no money and brings that memory back.
   */
  lemma SettledFromPlacement(c: Config, ops: seq<Op>, n: nat, m: nat)
    requires c.Valid() && Pair(c, ops, n, m)
    ensures var a, b, d := Run(c, ops[..n]), Run(c, ops[..m]), Run(c, ops[..m + 1]);
            var basis, o := BasisOf(a, ops[n].attempt), ops[m].observation;
            basis.Stakeable() &&
            var q := c.policy.Request(basis.price.value, basis.probability, a.equity, a.state);
            var won := basis.action == o.outcome;
            var stripped := q.(reason := NoReason, termination := Running);
            && d.reserved == b.reserved - q.applied
            && OutcomeAt(c, ops, m) == SettledAs(if o.void then Void else if won then SettledWin else SettledLoss)
            && (o.void ==> d.equity == b.equity && d.state == a.state)
            && (!o.void && won ==>
                  d.equity == b.equity + q.applied * (basis.price.value - 1.0) && d.state == c.policy.Settle(a.state, stripped, true).0)
            && (!o.void && !won ==>
                  d.equity == b.equity - q.applied && d.state == c.policy.Settle(a.state, stripped, false).0)
  {
    hide BasisOf;
    hide Kept;
    hide Policy.Request;
    hide Policy.Settle;
    hide Place;
    hide Settle;
    hide Run;
    hide OpenIds;
    PlacedThen(c, ops, n);
    OnFile(c, ops, n + 1, m, ops[m].id);
    RunNext(c, ops, m);
    SettledBooks(c, Run(c, ops[..m]), ops[m].id, ops[m].observation);
  }

  // ---- one lane --------------------------------------------------------------------------

  /** Money and memory are the same. */
  ghost predicate Level(a: Account, b: Account) {
    a.equity == b.equity && a.reserved == b.reserved && a.state == b.state
  }

  /** While the only lane is taken, nothing else moves. */
  lemma TakenLane(c: Config, a: Account, op: Op, id: int)
    requires c.Valid() && c.maxLanes <= 1 && Kept(c, a) && Sane(a)
    requires id in a.positions && a.positions[id].fate == Open
    requires id in Apply(c, a, op).0.positions && Apply(c, a, op).0.positions[id].fate == Open
    ensures Level(a, Apply(c, a, op).0)
  {
    match op
    case PlaceOp(t) =>
      OneTaken(a.positions, id);
      FullScreens(c, a, t);
      hide Solvent;
      hide OpenIds;
      ScreenRestates(c, a, t);
      hide Screen;
    case SettleOp(k, o) =>
      hide StateAfter;
      hide Book;
      hide OpenIds;
      hide Solvent;
      if k in a.positions && a.positions[k].fate == Open {
        OnlyLane(c, a, k, id);
        SettleCloses(c, a, id, o);
      }
  }

  lemma OneTaken(positions: map<int, Position>, id: int)
    requires id in positions && positions[id].fate == Open
    ensures 1 <= |OpenIds(positions)|
  {
    assert id in OpenIds(positions);
    SubsetSize({id}, OpenIds(positions));
  }

  lemma OnlyLane(c: Config, a: Account, i: int, j: int)
    requires Kept(c, a) && c.maxLanes <= 1 && i in a.positions && j in a.positions
    requires a.positions[i].fate == Open && a.positions[j].fate == Open
    ensures i == j
  {
    assert i in OpenIds(a.positions) && j in OpenIds(a.positions);
    hide Solvent;
    hide OpenIds;
    OnlyOneOpen(a.positions, i, j);
  }

  lemma FullScreens(c: Config, a: Account, t: Attempt)
    requires c.maxLanes <= |OpenIds(a.positions)|
    ensures Screen(c, a, t).Some?
  {
    hide OpenIds;
  }

  lemma SettleCloses(c: Config, a: Account, id: int, o: Observation)
    requires Sane(a) && id in a.positions && a.positions[id].fate == Open
    ensures Settle(c, a, id, o).1.SettledAs? ==> id in Settle(c, a, id, o).0.positions && Settle(c, a, id, o).0.positions[id].fate != Open
    ensures !Settle(c, a, id, o).1.SettledAs? ==> Settle(c, a, id, o).0 == a
  {
    hide StateAfter;
    hide PnlOf;
    hide Max;
  }

  lemma {:induction false} LaneHeld(c: Config, ops: seq<Op>, n: nat, m: nat, id: int)
    requires c.Valid() && c.maxLanes <= 1 && n <= m <= |ops|
    requires forall k :: n <= k <= m ==> HasOpen(Run(c, ops[..k]), id)
    ensures Level(Run(c, ops[..n]), Run(c, ops[..m]))
  {
    hide Kept;
    hide Apply;
    hide Run;
    if n < m {
      LaneHeld(c, ops, n, m - 1, id);
      RunKept(c, ops[..m - 1]);
      RunNext(c, ops, m - 1);
      assert HasOpen(Run(c, ops[..m - 1]), id) && HasOpen(Run(c, ops[..m]), id);
      TakenLane(c, Run(c, ops[..m - 1]), ops[m - 1], id);
    }
  }

  ghost predicate HasOpen(a: Account, id: int) {
    id in a.positions && a.positions[id].fate == Open
  }

  /** A position that is open at the end of a stretch was open all along it. */
  lemma OpenThroughout(c: Config, ops: seq<Op>, n: nat, m: nat, k: nat, id: int)
    requires c.Valid() && n <= k <= m <= |ops| && id in Run(c, ops[..n]).positions && HasOpen(Run(c, ops[..m]), id)
    ensures HasOpen(Run(c, ops[..k]), id)
  {
    hide Run;
    hide StatesForward;
    RunForward(c, ops, n, k);
    RunForward(c, ops, k, m);
  }

  /**
    With one lane, placing a bet and then finding its match void gives back the equity, the reserve and the memory that
    the account had before, whatever the policy and whatever was tried in between.
   */
  lemma VoidUndoes(c: Config, ops: seq<Op>, n: nat, m: nat)
    requires c.Valid() && c.maxLanes <= 1 && Pair(c, ops, n, m) && ops[m].observation.void
    ensures var a, d := Run(c, ops[..n]), Run(c, ops[..m + 1]);
            d.equity == a.equity && d.reserved == a.reserved && d.state == a.state
  {
    hide BasisOf;
    hide Kept;
    hide Policy.Request;
    hide Policy.Settle;
    hide Place;
    hide Settle;
    hide Run;
    var id := ops[m].id;
    SettledFromPlacement(c, ops, n, m);
    PlacedThen(c, ops, n);
    OpenBefore(c, ops, m);
    forall k | n + 1 <= k <= m
      ensures HasOpen(Run(c, ops[..k]), id)
    {
      OpenThroughout(c, ops, n + 1, m, k, id);
    }
    LaneHeld(c, ops, n + 1, m, id);
    hide OpenIds;
  }

  lemma OpenBefore(c: Config, ops: seq<Op>, m: nat)
    requires m < |ops| && ops[m].SettleOp? && OutcomeAt(c, ops, m).SettledAs?
    ensures HasOpen(Run(c, ops[..m]), ops[m].id)
  {
    RunNext(c, ops, m);
    hide Run;
    SettledBy(c, Run(c, ops[..m]), ops[m].id, ops[m].observation);
    hide Settle;
  }

  // ---- peaks and drawdown over a run -----------------------------------------------------

  /** The equities that the account has after each transaction. */
  function Course(c: Config, ops: seq<Op>): (es: seq<real>)
    ensures |es| == |ops| + 1 && es[|ops|] == Run(c, ops).equity
  {
    if ops == [] then [c.initial] else Course(c, ops[..|ops| - 1]) + [Run(c, ops).equity]
  }

  function ReserveCourse(c: Config, ops: seq<Op>): (es: seq<real>)
    ensures |es| == |ops| + 1 && es[|ops|] == Run(c, ops).reserved
  {
    if ops == [] then [0.0] else ReserveCourse(c, ops[..|ops| - 1]) + [Run(c, ops).reserved]
  }

  /** How one transaction moves the extreme figures. */
  ghost predicate Moves(a: Account, b: Account) {
    && ((b.equity == a.equity && b.peakEquity == a.peakEquity && b.drawdown == a.drawdown)
        || (b.peakEquity == Max(a.peakEquity, b.equity)
            && (0.0 < b.peakEquity ==> b.drawdown == Max(a.drawdown, (b.peakEquity - b.equity) / b.peakEquity))))
    && ((b.reserved <= a.reserved && b.peakReserved == a.peakReserved) || b.peakReserved == Max(a.peakReserved, b.reserved))
  }

  lemma PlaceMoves(c: Config, a: Account, t: Attempt)
    requires Kept(c, a)
    ensures Moves(a, Place(c, a, t).0)
  {
    hide OpenIds;
    hide Policy.Request;
    hide Max;
    hide Kept;
    hide BasisOf;
    if Screen(c, a, t).Some? {
      ScreenLeaves(c, a, t);
      hide Screen;
    } else {
      AnsweredMoves(c, a, t, BasisOf(a, t), RequestFor(c, a, BasisOf(a, t)));
      hide Answered;
    }
  }

  lemma ScreenLeaves(c: Config, a: Account, t: Attempt)
    ensures Screen(c, a, t).Some? ==>
              var b := Screen(c, a, t).value.0;
              && b.equity == a.equity && b.reserved == a.reserved && b.peakEquity == a.peakEquity
              && b.peakReserved == a.peakReserved && b.drawdown == a.drawdown
  {
    hide OpenIds;
    hide BasisOf;
  }

  lemma AnsweredMoves(c: Config, a: Account, t: Attempt, basis: Basis, request: StakeRequest)
    ensures Moves(a, Answered(c, a, t, basis, request).0)
  {
    hide BasisOf;
    hide Max;
  }

  lemma SettleMoves(c: Config, a: Account, id: int, o: Observation)
    requires Kept(c, a)
    ensures Sane(a) && Moves(a, Settle(c, a, id, o).0)
  {
    KeptSane(c, a);
    hide StateAfter;
    hide PnlOf;
    hide FateOf;
    hide Max;
    if id in a.positions {
      assert Covered(c, a.positions[id]);
    }
    hide Kept;
    hide Policy.Fits;
  }

  lemma {:induction false} RunExtremes(c: Config, ops: seq<Op>)
    requires c.Valid()
    ensures var a := Run(c, ops);
            && Bankroll(Course(c, ops)) && IsPeak(Course(c, ops), a.peakEquity) && IsDrawdown(Course(c, ops), a.drawdown)
            && IsPeak(ReserveCourse(c, ops), a.peakReserved)
  {
    hide Apply;
    hide Kept;
    if ops == [] {
      Starts(c.initial);
      assert ReserveCourse(c, ops)[0] == 0.0;
    } else {
      var last := |ops| - 1;
      RunExtremes(c, ops[..last]);
      RunKept(c, ops[..last]);
      ApplyMoves(c, Run(c, ops[..last]), ops[last]);
      StepExtremes(c, ops);
    }
  }

  lemma ApplyMoves(c: Config, a: Account, op: Op)
    requires c.Valid() && Kept(c, a)
    ensures Sane(a) && Moves(a, Apply(c, a, op).0)
    ensures 0.0 <= Apply(c, a, op).0.equity && a.reserved <= a.peakReserved
  {
    KeptSane(c, a);
    ApplyKept(c, a, op);
    KeptEquity(c, a);
    KeptEquity(c, Apply(c, a, op).0);
    hide Moves;
    hide Place;
    hide Settle;
    hide Kept;
    match op
    case PlaceOp(t) => PlaceMoves(c, a, t);
    case SettleOp(id, o) => SettleMoves(c, a, id, o);
  }

  lemma KeptEquity(c: Config, a: Account)
    requires Kept(c, a)
    ensures 0.0 <= a.equity && a.reserved <= a.peakReserved
  {
    hide Linked;
  }

  lemma StepExtremes(c: Config, ops: seq<Op>)
    requires ops != []
    requires var a := Run(c, ops[..|ops| - 1]);
             && Bankroll(Course(c, ops[..|ops| - 1])) && IsPeak(Course(c, ops[..|ops| - 1]), a.peakEquity)
             && IsDrawdown(Course(c, ops[..|ops| - 1]), a.drawdown) && IsPeak(ReserveCourse(c, ops[..|ops| - 1]), a.peakReserved)
             && Moves(a, Run(c, ops)) && 0.0 <= Run(c, ops).equity && a.reserved <= a.peakReserved
    ensures var a := Run(c, ops);
            && Bankroll(Course(c, ops)) && IsPeak(Course(c, ops), a.peakEquity) && IsDrawdown(Course(c, ops), a.drawdown)
            && IsPeak(ReserveCourse(c, ops), a.peakReserved)
  {
    hide Run;
    var a, b := Run(c, ops[..|ops| - 1]), Run(c, ops);
    EquityMoves(Course(c, ops[..|ops| - 1]), a, b);
    ReserveMoves(ReserveCourse(c, ops[..|ops| - 1]), a, b);
    hide Bankroll;
    hide IsPeak;
    hide IsDrawdown;
    hide Moves;
  }

  lemma EquityMoves(es: seq<real>, a: Account, b: Account)
    requires Moves(a, b) && Bankroll(es) && es[|es| - 1] == a.equity && 0.0 <= b.equity
    requires IsPeak(es, a.peakEquity) && IsDrawdown(es, a.drawdown)
    ensures Bankroll(es + [b.equity]) && IsPeak(es + [b.equity], b.peakEquity) && IsDrawdown(es + [b.equity], b.drawdown)
  {
    DrawdownMore(es, a.peakEquity, a.drawdown, b.equity);
    if b.equity == a.equity {
      Repeats(es, a.peakEquity, a.drawdown, b.equity);
    }
    hide IsPeak;
    hide IsDrawdown;
    hide Bankroll;
  }

  lemma ReserveMoves(rs: seq<real>, a: Account, b: Account)
    requires Moves(a, b) && IsPeak(rs, a.peakReserved) && a.reserved <= a.peakReserved
    ensures IsPeak(rs + [b.reserved], b.peakReserved)
  {
    PeakMore(rs, a.peakReserved, b.reserved);
    hide IsPeak;
  }

  /**
    After every run the peak equity and the peak reserve are the largest the account ever had, and the drawdown is the
    largest share by which its equity ever fell below an earlier one.
   */
  lemma RunPeaks(c: Config, ops: seq<Op>)
    requires c.Valid()
    ensures forall k :: 0 <= k <= |ops| ==> Run(c, ops[..k]).equity == Course(c, ops)[k]
    ensures IsPeak(Course(c, ops), Run(c, ops).peakEquity) && IsDrawdown(Course(c, ops), Run(c, ops).drawdown)
    ensures forall k :: 0 <= k <= |ops| ==> Run(c, ops[..k]).reserved == ReserveCourse(c, ops)[k]
    ensures IsPeak(ReserveCourse(c, ops), Run(c, ops).peakReserved)
  {
    RunExtremes(c, ops);
    Courses(c, ops);
    hide IsPeak;
    hide IsDrawdown;
    hide Run;
  }

  lemma {:induction false} Courses(c: Config, ops: seq<Op>)
    ensures forall k :: 0 <= k <= |ops| ==> Run(c, ops[..k]).equity == Course(c, ops)[k]
    ensures forall k :: 0 <= k <= |ops| ==> Run(c, ops[..k]).reserved == ReserveCourse(c, ops)[k]
  {
    hide Run;
    if ops == [] {
      assert ops[..0] == ops;
    } else {
      var front := ops[..|ops| - 1];
      Courses(c, front);
      forall k | 0 <= k <= |ops|
        ensures Run(c, ops[..k]).equity == Course(c, ops)[k] && Run(c, ops[..k]).reserved == ReserveCourse(c, ops)[k]
      {
        if k == |ops| { assert ops[..k] == ops; } else { assert front[..k] == ops[..k]; }
      }
    }
  }

  // ---- how a run ends --------------------------------------------------------------------

  /** An account stops for good: without equity, unless it is restartable, or because a capped policy gave up. */
  ghost predicate Ended(c: Config, a: Account) {
    && (a.active <==> a.termination == Running) && (a.ruin <==> !a.active)
    && (a.termination == BankrollDepleted <==> !c.restartable && a.equity <= 0.0)
    && (a.termination != Running && a.termination != BankrollDepleted ==>
          a.termination == RecoveryStepsExhausted && c.policy.LegacyCapped?)
  }

  lemma PlaceEnded(c: Config, a: Account, t: Attempt)
    requires c.Valid() && Kept(c, a) && Ended(c, a)
    ensures Ended(c, Place(c, a, t).0)
  {
    hide OpenIds;
    hide BasisOf;
    if Screen(c, a, t).None? {
      ScreenedOut(c, a, t);
      AskedSound(c, a, t);
      hide Kept;
      hide Policy.Request;
      var request := RequestFor(c, a, BasisOf(a, t));
      hide RequestFor;
      hide Screen;
      AnsweredEnded(c, a, t, BasisOf(a, t), request);
      hide Answered;
    }
  }

  lemma AnsweredEnded(c: Config, a: Account, t: Attempt, basis: Basis, request: StakeRequest)
    requires Ended(c, a) && Sound(c.policy, a.equity, request) && a.active
    ensures Ended(c, Answered(c, a, t, basis, request).0)
  {
    hide BasisOf;
    hide Max;
  }

  lemma SettleEnded(c: Config, a: Account, id: int, o: Observation)
    requires c.Valid() && Kept(c, a) && Ended(c, a)
    ensures Sane(a) && Ended(c, Settle(c, a, id, o).0)
  {
    KeptSane(c, a);
    if id in a.positions && a.positions[id].fate == Open {
      OpenMeansEquity(c, a, id);
    }
    hide Kept;
    hide StateAfter;
    hide PnlOf;
    hide FateOf;
    hide Max;
  }

  /** Whoever has something open has equity. */
  lemma OpenMeansEquity(c: Config, a: Account, id: int)
    requires Kept(c, a) && id in a.positions && a.positions[id].fate == Open
    ensures 0.0 < a.equity
  {
    HoldingsCover(c, a.positions, id);
    assert Covered(c, a.positions[id]);
    hide Linked;
    hide Policy.Fits;
  }

  /** Every run ends for one of the two reasons, and says which. */
  lemma {:induction false} RunEnds(c: Config, ops: seq<Op>)
    requires c.Valid()
    ensures Ended(c, Run(c, ops))
  {
    hide Kept;
    hide Place;
    hide Settle;
    if ops != [] {
      var before := Run(c, ops[..|ops| - 1]);
      RunEnds(c, ops[..|ops| - 1]);
      RunKept(c, ops[..|ops| - 1]);
      hide Ended;
      match ops[|ops| - 1] {
        case PlaceOp(t) => PlaceEnded(c, before, t);
        case SettleOp(id, o) => SettleEnded(c, before, id, o);
      }
    }
  }

  // ---- why a match is not placed ---------------------------------------------------------

  /** Nothing but the state of the match changes, and it becomes final. */
  ghost predicate Refused(a: Account, m: int, why: Why, basis: Option<Basis>, at: int, b: Account, outcome: Outcome) {
    b == a.(states := a.states[m := NotPlaced(why, basis, at)]) && outcome == RefusedNow
  }

  /** The match goes on waiting, or starts to with what was offered. */
  ghost predicate Queued(a: Account, t: Attempt, b: Account, outcome: Outcome) {
    if t.matchId in a.states then b == a && outcome == NoWork
    else b == a.(states := a.states[t.matchId := Pending(t.offered)]) && outcome == Waiting
  }

  /** The answer to a match that is not waiting yet, before the policy is asked. */
  ghost predicate FirstAnswer(c: Config, a: Account, t: Attempt, b: Account, outcome: Outcome) {
    var m, offered := t.matchId, t.offered;
    if t.blocked.Some? then Refused(a, m, Blocked(t.blocked.value), None, t.at, b, outcome)
    else if !a.active then Refused(a, m, Ineligible, None, t.eventAt, b, outcome)
    else if !t.decided then Refused(a, m, NoDecision, None, t.eventAt, b, outcome)
    else if offered.action.None? then Refused(a, m, NoBetTaken, Some(offered), t.eventAt, b, outcome)
    else if offered.price.None? || offered.observation.None? then Refused(a, m, NoExecutionPrice, Some(offered), t.eventAt, b, outcome)
    else if t.kickoff <= t.at then Refused(a, m, ExpiredCapacity, Some(offered), t.at, b, outcome)
    else if c.maxLanes <= |OpenIds(a.positions)| then Queued(a, t, b, outcome)
    else PolicyAnswer(c, a, t, offered, Ineligible, t.eventAt, MissedWindow, b, outcome)
  }

  /** The answer to a match that waits on the evidence stored for it. */
  ghost predicate LaterAnswer(c: Config, a: Account, t: Attempt, stored: Basis, b: Account, outcome: Outcome) {
    var m := t.matchId;
    if t.kickoff <= t.at then Refused(a, m, ExpiredCapacity, Some(stored), t.at, b, outcome)
    else if t.blocked.Some? then Refused(a, m, Blocked(t.blocked.value), Some(stored), t.at, b, outcome)
    else if !a.active then Refused(a, m, Ineligible, Some(stored), t.at, b, outcome)
    else if c.maxLanes <= |OpenIds(a.positions)| then Queued(a, t, b, outcome)
    else PolicyAnswer(c, a, t, stored, Ineligible, t.at, ExpiredCapacity, b, outcome)
  }

  /** What the policy's request leads to; a restartable account looks at the clock once more. */
  ghost predicate PolicyAnswer(c: Config, a: Account, t: Attempt, basis: Basis, nothing: Why, at: int, late: Why,
                               b: Account, outcome: Outcome) {
    basis.Stakeable() &&
    var q := c.policy.Request(basis.price.value, basis.probability, a.equity, a.state);
    if q.termination != Running then
      Refused(a.(active := false, ruin := true, termination := q.termination), t.matchId, nothing, Some(basis), at, b, outcome)
    else if q.requested <= 0.0 || q.applied <= 0.0 then Refused(a, t.matchId, nothing, Some(basis), at, b, outcome)
    else if q.requested > a.equity - a.reserved then Queued(a, t, b, outcome)
    else if c.restartable && t.kickoff <= t.later then Refused(a, t.matchId, late, Some(basis), t.later, b, outcome)
    else
      && outcome == PlacedNow && t.matchId in b.states && b.states == a.states[t.matchId := Placed(basis, a.nextId)]
      && Reserves(c, a, basis, t.matchId, b)
  }

  /** Every attempt on every reachable account, answered from its rows: a final state stands, a waiting one uses its stored evidence. */
  lemma AttemptAnswered(c: Config, a: Account, t: Attempt)
    requires c.Valid() && Kept(c, a)
    ensures var (b, outcome) := Place(c, a, t);
            if t.matchId !in a.states then FirstAnswer(c, a, t, b, outcome)
            else if a.states[t.matchId].Pending? then LaterAnswer(c, a, t, a.states[t.matchId].basis, b, outcome)
            else b == a && outcome == NoWork
  {
    StoredStakeable(c, a, t);
    hide OpenIds;
    hide PolicyAnswer;
    if Screen(c, a, t).None? {
      ScreenedOut(c, a, t);
      var basis := BasisOf(a, t);
      AskedAnswer(c, a, t);
      hide Kept;
      hide Place;
    }
    hide Kept;
  }

  lemma StoredStakeable(c: Config, a: Account, t: Attempt)
    requires Kept(c, a)
    ensures t.matchId in a.states && a.states[t.matchId].Pending? ==> a.states[t.matchId].basis.Stakeable()
  {
    hide Solvent;
  }

  lemma AskedAnswer(c: Config, a: Account, t: Attempt)
    requires c.Valid() && Kept(c, a) && Screen(c, a, t).None?
    ensures var waits := t.matchId in a.states && a.states[t.matchId].Pending?;
            var basis := if waits then a.states[t.matchId].basis else t.offered;
            PolicyAnswer(c, a, t, basis, Ineligible, if waits then t.at else t.eventAt, if waits then ExpiredCapacity else MissedWindow,
                         Place(c, a, t).0, Place(c, a, t).1)
  {
    hide Kept;
    hide Screen;
    hide Reserves;
    hide Answered;
    hide Policy.Request;
    hide PolicyAnswer;
    ScreenedOut(c, a, t);
    PlaceKept(c, a, t);
    if Place(c, a, t).1 == PlacedNow { PlacedReserves(c, a, t); }
    PolicyAnswers(c, a, t);
  }

  lemma PolicyAnswers(c: Config, a: Account, t: Attempt)
    requires BasisOf(a, t).Stakeable() && Movable(RowsOf(a), t.matchId)
    requires var (b, outcome) := Answered(c, a, t, BasisOf(a, t), RequestFor(c, a, BasisOf(a, t)));
             !outcome.Failed? && (outcome == PlacedNow ==> Reserves(c, a, BasisOf(a, t), t.matchId, b))
    ensures var (b, outcome) := Answered(c, a, t, BasisOf(a, t), RequestFor(c, a, BasisOf(a, t)));
            var waits := t.matchId in a.states && a.states[t.matchId].Pending?;
            PolicyAnswer(c, a, t, BasisOf(a, t), Ineligible, if waits then t.at else t.eventAt, if waits then ExpiredCapacity else MissedWindow,
                         b, outcome)
  {
    hide Policy.Request;
    hide Reserves;
    hide Max;
  }
}

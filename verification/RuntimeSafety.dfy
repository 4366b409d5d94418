/** What every interleaving of placements and settlements keeps in the stored rows. */
module RuntimeSafety {
  import opened Common
  import opened Policies
  import opened Decisions
  import opened Sums
  import opened Runtime

  // ---- money ---------------------------------------------------------------------------

  function Held(p: Position): real {
    if p.fate == Open then p.request.applied else 0.0
  }

  function Holdings(positions: map<int, Position>): map<int, real> {
    map k | k in positions :: k := Held(positions[k])
  }

  function Earnings(positions: map<int, Position>): map<int, real> {
    map k | k in positions :: k := positions[k].pnl
  }

  /** A position whose stake is covered and, for a recovery policy, carries its target. */
  ghost predicate Covered(c: Config, p: Position) {
    && p.Stakeable()
    && 0.0 < p.request.applied <= p.request.requested
    && (c.policy.IsRecovery() ==> p.request.target.Some? && 0.0 < p.request.target.value)
    && c.policy.Fits(p.stateBefore)
    && (p.fate == Open || p.fate == Void ==> p.pnl == 0.0)
  }

  /** The part of the account that says what it owns and owes. */
  datatype Money = Money(
    active: bool, equity: real, reserved: real, peakEquity: real, peakReserved: real, drawdown: real,
    state: PolicyState, positions: map<int, Position>)

  function MoneyOf(a: Account): Money {
    Money(a.active, a.equity, a.reserved, a.peakEquity, a.peakReserved, a.drawdown, a.state, a.positions)
  }

  /** Reserves are exactly the open stakes, equity is the initial bankroll plus every realised result, and cash covers the rest. */
  ghost predicate Solvent(c: Config, m: Money) {
    && m.reserved == Total(Holdings(m.positions))
    && m.equity == c.initial + Total(Earnings(m.positions))
    && 0.0 <= m.reserved <= m.equity <= m.peakEquity
    && c.initial <= m.peakEquity
    && m.reserved <= m.peakReserved
    && 0.0 <= m.drawdown <= 1.0
    && c.policy.Fits(m.state)
    && (forall k :: k in m.positions ==> Covered(c, m.positions[k]))
    && (m.active && !c.restartable ==> 0.0 < m.equity)
  }

  lemma HoldingsChange(positions: map<int, Position>, id: int, p: Position)
    requires id in positions
    ensures Total(Holdings(positions[id := p])) == Total(Holdings(positions)) - Held(positions[id]) + Held(p)
  {
    var before, after := Holdings(positions), Holdings(positions[id := p]);
    TotalSplit(before, id);
    TotalSplit(after, id);
    assert before - {id} == after - {id};
  }

  lemma EarningsChange(positions: map<int, Position>, id: int, p: Position)
    requires id in positions
    ensures Total(Earnings(positions[id := p])) == Total(Earnings(positions)) - positions[id].pnl + p.pnl
  {
    var before, after := Earnings(positions), Earnings(positions[id := p]);
    TotalSplit(before, id);
    TotalSplit(after, id);
    assert before - {id} == after - {id};
  }

  lemma PositionAdded(positions: map<int, Position>, id: int, p: Position)
    requires id !in positions
    ensures Total(Holdings(positions[id := p])) == Total(Holdings(positions)) + Held(p)
    ensures Total(Earnings(positions[id := p])) == Total(Earnings(positions)) + p.pnl
  {
    hide Held;
    HoldingsAdded(positions, id, p);
    EarningsAdded(positions, id, p);
    TotalAdd(Holdings(positions), id, Held(p));
    TotalAdd(Earnings(positions), id, p.pnl);
  }

  lemma HoldingsAdded(positions: map<int, Position>, id: int, p: Position)
    requires id !in positions
    ensures Holdings(positions[id := p]) == Holdings(positions)[id := Held(p)] && id !in Holdings(positions)
  {
    hide Held;
  }

  lemma EarningsAdded(positions: map<int, Position>, id: int, p: Position)
    requires id !in positions
    ensures Earnings(positions[id := p]) == Earnings(positions)[id := p.pnl] && id !in Earnings(positions)
  {
  }

  lemma PnlBounds(p: Position, o: Observation)
    requires p.Stakeable() && 0.0 < p.request.applied
    ensures -p.request.applied <= PnlOf(p, o)
  {
    ProductPositive(p.request.applied, p.basis.price.value - 1.0);
  }

  lemma HoldingsCover(c: Config, positions: map<int, Position>, id: int)
    requires id in positions && forall k :: k in positions ==> Covered(c, positions[k])
    ensures Held(positions[id]) <= Total(Holdings(positions))
  {
    var held := Holdings(positions);
    TotalNonNegative(held);
    assert held[id] == Held(positions[id]);
  }

  lemma HoldingsNonNegative(c: Config, positions: map<int, Position>)
    requires forall k :: k in positions ==> Covered(c, positions[k])
    ensures 0.0 <= Total(Holdings(positions))
  {
    TotalNonNegative(Holdings(positions));
  }

  lemma StateAfterFits(c: Config, p: Position, o: Observation, before: PolicyState)
    requires c.Valid() && Covered(c, p) && c.policy.Fits(before)
    ensures c.policy.Fits(StateAfter(c, p, o, before))
  {
    if !o.void {
      SettleFits(c.policy, before, Rebuilt(p.request), FateOf(p, o) == SettledWin);
    }
  }

  lemma DrawdownBounds(peak: real, equity: real)
    requires 0.0 < peak && 0.0 <= equity <= peak
    ensures 0.0 <= (peak - equity) / peak <= 1.0
  {
  }

  /** The settled position is covered, and so are all the others. */
  lemma BookCovered(c: Config, a: Account, id: int, o: Observation, state: PolicyState)
    requires id in a.positions && a.positions[id].Stakeable() && a.positions[id].fate == Open
    requires forall k :: k in a.positions ==> Covered(c, a.positions[k])
    ensures forall k :: k in a.positions ==> Covered(c, Book(c, a, id, o, state).positions[k])
  {
    hide Policy.Fits;
    var p := a.positions[id];
    assert Covered(c, p);
  }

  /** What a settlement does to the sums. */
  lemma BookSums(c: Config, a: Account, id: int, o: Observation, state: PolicyState)
    requires id in a.positions && a.positions[id].Stakeable() && a.positions[id].fate == Open
    requires forall k :: k in a.positions ==> Covered(c, a.positions[k])
    ensures var p, after := a.positions[id], Book(c, a, id, o, state).positions;
            && Total(Holdings(after)) == Total(Holdings(a.positions)) - p.request.applied
            && Total(Earnings(after)) == Total(Earnings(a.positions)) + PnlOf(p, o)
            && p.request.applied <= Total(Holdings(a.positions)) && 0.0 <= Total(Holdings(after))
            && -p.request.applied <= PnlOf(p, o) && 0.0 < p.request.applied
  {
    var p := a.positions[id];
    HoldingsCover(c, a.positions, id);
    PnlBounds(p, o);
    var q := p.(fate := FateOf(p, o), pnl := PnlOf(p, o), stateAfter := state);
    HoldingsChange(a.positions, id, q);
    EarningsChange(a.positions, id, q);
    BookCovered(c, a, id, o, state);
    hide Covered;
    hide Holdings;
    hide Earnings;
    HoldingsNonNegative(c, a.positions[id := q]);
  }

  /** A settlement keeps the money straight, and its reserve never underflows. */
  lemma BookSolvent(c: Config, a: Account, id: int, o: Observation, state: PolicyState)
    requires c.Valid() && Solvent(c, MoneyOf(a)) && id in a.positions && a.positions[id].fate == Open
    requires c.policy.Fits(state)
    ensures a.positions[id].request.applied <= a.reserved
    ensures Solvent(c, MoneyOf(Book(c, a, id, o, state)))
  {
    hide Policy.Fits;
    hide Total;
    hide Holdings;
    hide Earnings;
    hide PnlOf;
    hide FateOf;
    BookSums(c, a, id, o, state);
    BookCovered(c, a, id, o, state);
    hide Covered;
    var b := Book(c, a, id, o, state);
    DrawdownBounds(b.peakEquity, b.equity);
  }

  lemma RequestSolvent(c: Config, a: Account, basis: Basis)
    requires c.Valid() && Solvent(c, MoneyOf(a)) && basis.Stakeable()
    ensures Sound(c.policy, a.equity, RequestFor(c, a, basis))
  {
    RequestSound(c.policy, basis.price.value, basis.probability, a.equity, a.state);
  }

  /** A placement that cash covers keeps the money straight, and never leaves negative cash. */
  lemma OpenSolvent(c: Config, a: Account, t: Attempt, basis: Basis, request: StakeRequest)
    requires c.Valid() && Solvent(c, MoneyOf(a)) && a.nextId !in a.positions && basis.Stakeable()
    requires Sound(c.policy, a.equity, request) && 0.0 < request.applied && request.requested <= a.equity - a.reserved
    ensures OpenPosition(a, t, basis, request).1 == PlacedNow
    ensures Solvent(c, MoneyOf(OpenPosition(a, t, basis, request).0))
  {
    hide Total;
    hide Holdings;
    hide Earnings;
    hide Policy.Fits;
    PositionAdded(a.positions, a.nextId, Position(t.matchId, basis, request, a.state, a.state, Open, 0.0));
  }

  // ---- rows ----------------------------------------------------------------------------

  /** The part of the account that says which match is where. */
  datatype Rows = Rows(states: map<int, Execution>, positions: map<int, Position>, nextId: int)

  function RowsOf(a: Account): Rows {
    Rows(a.states, a.positions, a.nextId)
  }

  /** Placed states and positions match one to one, and only a stakeable basis waits. */
  ghost predicate Linked(c: Config, r: Rows) {
    && (forall k :: k in r.positions ==>
          k < r.nextId && r.positions[k].matchId in r.states
          && r.states[r.positions[k].matchId] == Placed(r.positions[k].basis, k))
    && (forall m :: m in r.states && r.states[m].Placed? ==>
          r.states[m].position in r.positions && r.positions[r.states[m].position].matchId == m)
    && (forall m :: m in r.states && r.states[m].Pending? ==> r.states[m].basis.Stakeable())
    && |OpenIds(r.positions)| <= c.maxLanes
  }

  /** At most one position per match. */
  lemma OnePositionPerMatch(c: Config, r: Rows, i: int, j: int)
    requires Linked(c, r) && i in r.positions && j in r.positions && r.positions[i].matchId == r.positions[j].matchId
    ensures i == j
  {
    assert r.states[r.positions[i].matchId] == Placed(r.positions[i].basis, i);
  }

  ghost predicate Movable(r: Rows, matchId: int) {
    matchId in r.states ==> r.states[matchId].Pending?
  }

  lemma OpenLinked(c: Config, a: Account, t: Attempt, request: StakeRequest)
    requires Linked(c, RowsOf(a)) && Movable(RowsOf(a), t.matchId) && |OpenIds(a.positions)| < c.maxLanes
    ensures a.nextId !in a.positions
    ensures Linked(c, RowsOf(OpenPosition(a, t, BasisOf(a, t), request).0))
  {
    hide BasisOf;
    var p := Position(t.matchId, BasisOf(a, t), request, a.state, a.state, Open, 0.0);
    OneMoreOpen(a.positions, a.nextId, p);
    hide OpenIds;
  }

  lemma OneMoreOpen(positions: map<int, Position>, id: int, p: Position)
    requires id !in positions && p.fate == Open
    ensures |OpenIds(positions[id := p])| == |OpenIds(positions)| + 1
  {
    assert OpenIds(positions[id := p]) == OpenIds(positions) + {id};
  }

  lemma BookLinked(c: Config, a: Account, id: int, o: Observation, state: PolicyState)
    requires Linked(c, RowsOf(a)) && id in a.positions && a.positions[id].Stakeable() && a.positions[id].fate == Open
    ensures Linked(c, RowsOf(Book(c, a, id, o, state)))
  {
    SubsetSize(OpenIds(Book(c, a, id, o, state).positions), OpenIds(a.positions));
  }

  // ---- steps ---------------------------------------------------------------------------

  ghost predicate Kept(c: Config, a: Account) {
    Solvent(c, MoneyOf(a)) && Linked(c, RowsOf(a))
  }

  lemma KeptSane(c: Config, a: Account)
    requires Kept(c, a)
    ensures Sane(a)
  {
  }

  /** An account that differs only in the state of one movable match. */
  ghost predicate Restated(a: Account, b: Account, matchId: int) {
    || b == a
    || (matchId in b.states
        && var x := b.states[matchId];
           b == a.(states := a.states[matchId := x]) && !x.Placed? && (x.Pending? ==> x.basis.Stakeable()))
  }

  lemma RestatedKept(c: Config, a: Account, b: Account, matchId: int)
    requires Kept(c, a) && Restated(a, b, matchId) && Movable(RowsOf(a), matchId)
    ensures Kept(c, b)
  {
    hide Solvent;
    assert MoneyOf(b) == MoneyOf(a);
    hide OpenIds;
  }

  lemma ScreenRestates(c: Config, a: Account, t: Attempt)
    requires Screen(c, a, t).Some? && Linked(c, RowsOf(a))
    ensures Restated(a, Screen(c, a, t).value.0, t.matchId) && !Screen(c, a, t).value.1.Failed?
    ensures Movable(RowsOf(a), t.matchId) || Screen(c, a, t).value.0 == a
  {
    hide OpenIds;
  }

  lemma ScreenKept(c: Config, a: Account, t: Attempt)
    requires c.Valid() && Kept(c, a) && Screen(c, a, t).Some?
    ensures Kept(c, Screen(c, a, t).value.0) && !Screen(c, a, t).value.1.Failed?
  {
    ScreenRestates(c, a, t);
    hide Screen;
    hide Kept;
    if Movable(RowsOf(a), t.matchId) {
      RestatedKept(c, a, Screen(c, a, t).value.0, t.matchId);
    }
  }

  lemma ScreenedOut(c: Config, a: Account, t: Attempt)
    requires Screen(c, a, t).None?
    ensures a.active && Movable(RowsOf(a), t.matchId) && BasisOf(a, t).Stakeable() && |OpenIds(a.positions)| < c.maxLanes
  {
  }

  /** A termination stops the account and nothing else. */
  lemma StoppedKept(c: Config, a: Account, reason: Termination)
    requires Kept(c, a)
    ensures Kept(c, a.(active := false, ruin := true, termination := reason))
  {
    var stopped := a.(active := false, ruin := true, termination := reason);
    assert MoneyOf(stopped) == MoneyOf(a).(active := false);
    assert RowsOf(stopped) == RowsOf(a);
    hide Linked;
  }

  lemma RefuseAsRestates(a: Account, t: Attempt, waiting: Why, first: Why, basis: Option<Basis>, firstAt: int, waitingAt: int)
    ensures Restated(a, RefuseAs(a, t, waiting, first, basis, firstAt, waitingAt).0, t.matchId)
  {
  }

  lemma WaitForRestates(a: Account, t: Attempt)
    requires BasisOf(a, t).Stakeable()
    ensures Restated(a, WaitFor(a, t).0, t.matchId)
  {
  }

  lemma OpenKept(c: Config, a: Account, t: Attempt, request: StakeRequest)
    requires c.Valid() && Kept(c, a) && Screen(c, a, t).None?
    requires Sound(c.policy, a.equity, request) && 0.0 < request.applied && request.requested <= a.equity - a.reserved
    ensures Kept(c, OpenPosition(a, t, BasisOf(a, t), request).0)
    ensures OpenPosition(a, t, BasisOf(a, t), request).1 == PlacedNow
  {
    ScreenedOut(c, a, t);
    hide Screen;
    OpenLinked(c, a, t, request);
    OpenSolvent(c, a, t, BasisOf(a, t), request);
    hide Linked;
    hide Solvent;
    hide OpenPosition;
  }

  lemma AnsweredKept(c: Config, a: Account, t: Attempt, request: StakeRequest)
    requires c.Valid() && Kept(c, a) && Screen(c, a, t).None?
    requires Sound(c.policy, a.equity, request)
    ensures Kept(c, Answered(c, a, t, BasisOf(a, t), request).0)
    ensures !Answered(c, a, t, BasisOf(a, t), request).1.Failed?
  {
    hide Kept;
    hide OpenPosition;
    var basis := BasisOf(a, t);
    ScreenedOut(c, a, t);
    if request.termination != Running {
      var stopped := a.(active := false, ruin := true, termination := request.termination);
      StoppedKept(c, a, request.termination);
      RefuseAsRestates(stopped, t, Ineligible, Ineligible, Some(basis), t.eventAt, t.at);
      RestatedKept(c, stopped, Answered(c, a, t, basis, request).0, t.matchId);
    } else if request.requested <= 0.0 || request.applied <= 0.0 {
      RefuseAsRestates(a, t, Ineligible, Ineligible, Some(basis), t.eventAt, t.at);
      RestatedKept(c, a, Answered(c, a, t, basis, request).0, t.matchId);
    } else if request.requested > a.equity - a.reserved {
      WaitForRestates(a, t);
      RestatedKept(c, a, Answered(c, a, t, basis, request).0, t.matchId);
    } else if c.restartable && t.later >= t.kickoff {
      RefuseAsRestates(a, t, ExpiredCapacity, MissedWindow, Some(basis), t.later, t.later);
      RestatedKept(c, a, Answered(c, a, t, basis, request).0, t.matchId);
    } else {
      OpenKept(c, a, t, request);
    }
  }

  lemma AskedSound(c: Config, a: Account, t: Attempt)
    requires c.Valid() && Kept(c, a) && Screen(c, a, t).None?
    ensures Sound(c.policy, a.equity, RequestFor(c, a, BasisOf(a, t)))
  {
    RequestSolvent(c, a, BasisOf(a, t));
  }

  /** A placement keeps everything, and its invariant error cannot happen. */
  lemma PlaceKept(c: Config, a: Account, t: Attempt)
    requires c.Valid() && Kept(c, a)
    ensures Kept(c, Place(c, a, t).0) && !Place(c, a, t).1.Failed?
  {
    hide Kept;
    hide Answered;
    if Screen(c, a, t).Some? {
      ScreenKept(c, a, t);
    } else {
      AskedSound(c, a, t);
      hide RequestFor;
      AnsweredKept(c, a, t, RequestFor(c, a, BasisOf(a, t)));
    }
  }

  /** A settlement keeps everything; it fails only when it is given a foreign result or an unknown position. */
  lemma SettleKept(c: Config, a: Account, id: int, o: Observation)
    requires c.Valid() && Kept(c, a)
    ensures Sane(a) && Kept(c, Settle(c, a, id, o).0)
    ensures Settle(c, a, id, o).1.Failed? <==>
              id !in a.positions || (a.positions[id].fate == Open && o.matchId != a.positions[id].matchId)
    ensures Settle(c, a, id, o).1 != Failed(ReservedExposureUnderflow)
  {
    if id in a.positions && a.positions[id].fate == Open && o.matchId == a.positions[id].matchId {
      var p := a.positions[id];
      StateAfterFits(c, p, o, p.stateBefore);
      var state := StateAfter(c, p, o, p.stateBefore);
      hide StateAfter;
      BookSolvent(c, a, id, o, state);
      BookLinked(c, a, id, o, state);
      hide Solvent;
      hide Linked;
      hide Book;
    }
  }

  // ---- runs ----------------------------------------------------------------------------

  /** Transactions interleave freely. */
  datatype Op = PlaceOp(attempt: Attempt) | SettleOp(id: int, observation: Observation)

  function Apply(c: Config, a: Account, op: Op): (Account, Outcome)
    requires Sane(a)
  {
    match op
    case PlaceOp(t) => Place(c, a, t)
    case SettleOp(id, o) => Settle(c, a, id, o)
  }

  function Run(c: Config, ops: seq<Op>): (a: Account)
    ensures Sane(a)
  {
    if ops == [] then Opening(c)
    else
      var last := ops[|ops| - 1];
      var before := Run(c, ops[..|ops| - 1]);
      ApplySane(c, before, last);
      Apply(c, before, last).0
  }

  lemma ApplySane(c: Config, a: Account, op: Op)
    requires Sane(a)
    ensures Sane(Apply(c, a, op).0)
  {
    match op
    case PlaceOp(t) => PlaceSane(c, a, t);
    case SettleOp(id, o) => SettleSane(c, a, id, o);
  }

  /** What the n-th transaction of a run reports. */
  function OutcomeAt(c: Config, ops: seq<Op>, n: nat): Outcome
    requires n < |ops|
  {
    Apply(c, Run(c, ops[..n]), ops[n]).1
  }

  lemma OpeningKept(c: Config)
    requires c.Valid()
    ensures Kept(c, Opening(c))
  {
    assert OpenIds(map[]) == {};
  }

  lemma ApplyKept(c: Config, a: Account, op: Op)
    requires c.Valid() && Kept(c, a)
    ensures Sane(a) && Kept(c, Apply(c, a, op).0)
    ensures Apply(c, a, op).1 != Failed(NegativeAvailableCash) && Apply(c, a, op).1 != Failed(ReservedExposureUnderflow)
  {
    KeptSane(c, a);
    hide Kept;
    hide Place;
    hide Settle;
    match op
    case PlaceOp(t) => PlaceKept(c, a, t);
    case SettleOp(id, o) => SettleKept(c, a, id, o);
  }

  /** Every reachable account is solvent and linked. */
  lemma {:induction false} RunKept(c: Config, ops: seq<Op>)
    requires c.Valid()
    ensures Kept(c, Run(c, ops))
  {
    hide Kept;
    hide Apply;
    if ops == [] {
      OpeningKept(c);
    } else {
      RunKept(c, ops[..|ops| - 1]);
      ApplyKept(c, Run(c, ops[..|ops| - 1]), ops[|ops| - 1]);
    }
  }

  /** What a reader of the rows may rely on after any interleaving of placements and settlements. */
  lemma {:induction false} EveryRunSafe(c: Config, ops: seq<Op>)
    requires c.Valid()
    ensures var a := Run(c, ops);
            && a.reserved == Total(Holdings(a.positions))
            && a.equity == c.initial + Total(Earnings(a.positions))
            && 0.0 <= a.reserved <= a.equity
            && 0.0 <= a.drawdown <= 1.0
            && |OpenIds(a.positions)| <= c.maxLanes
            && (forall i, j :: i in a.positions && j in a.positions && a.positions[i].matchId == a.positions[j].matchId ==> i == j)
            && (a.active && !c.restartable ==> 0.0 < a.equity)
    ensures forall n :: 0 <= n < |ops| ==>
              OutcomeAt(c, ops, n) != Failed(NegativeAvailableCash) && OutcomeAt(c, ops, n) != Failed(ReservedExposureUnderflow)
  {
    hide Apply;
    RunKept(c, ops);
    var a := Run(c, ops);
    forall i, j | i in a.positions && j in a.positions && a.positions[i].matchId == a.positions[j].matchId
      ensures i == j
    {
      OnePositionPerMatch(c, RowsOf(a), i, j);
    }
    hide Kept;
    forall n | 0 <= n < |ops|
      ensures OutcomeAt(c, ops, n) != Failed(NegativeAvailableCash) && OutcomeAt(c, ops, n) != Failed(ReservedExposureUnderflow)
    {
      RunKept(c, ops[..n]);
      ApplyKept(c, Run(c, ops[..n]), ops[n]);
    }
  }

  // ---- nothing is taken back -----------------------------------------------------------

  /** A final state of a match stays as it is. */
  ghost predicate StatesForward(a: map<int, Execution>, b: map<int, Execution>) {
    forall m :: m in a ==> m in b && (!a[m].Pending? ==> b[m] == a[m]) && (a[m].Pending? && b[m].Pending? ==> b[m] == a[m])
  }

  /** A position stays, its evidence stays, and once it is settled nothing about it changes. */
  ghost predicate PositionsForward(a: map<int, Position>, b: map<int, Position>) {
    forall k :: k in a ==>
      && k in b && b[k].matchId == a[k].matchId && b[k].basis == a[k].basis && b[k].request == a[k].request
      && b[k].stateBefore == a[k].stateBefore && (a[k].fate != Open ==> b[k] == a[k])
  }

  ghost predicate Forward(a: Account, b: Account) {
    && StatesForward(a.states, b.states) && PositionsForward(a.positions, b.positions)
    && (!a.active ==> !b.active) && a.peakEquity <= b.peakEquity && a.peakReserved <= b.peakReserved && a.drawdown <= b.drawdown
  }

  lemma RestatedForward(a: Account, b: Account, matchId: int)
    requires Restated(a, b, matchId) && Movable(RowsOf(a), matchId)
    requires matchId in a.states && b != a ==> !b.states[matchId].Pending?
    ensures Forward(a, b)
  {
  }

  lemma AnsweredForward(c: Config, a: Account, t: Attempt, request: StakeRequest)
    requires Movable(RowsOf(a), t.matchId) && a.nextId !in a.positions
    ensures Forward(a, Answered(c, a, t, BasisOf(a, t), request).0)
  {
    hide Forward;
    hide OpenPosition;
    hide WaitFor;
    hide RefuseAs;
    hide BasisOf;
    var stopped := a.(active := false, ruin := true, termination := request.termination);
    var basis := BasisOf(a, t);
    StoppedForward(a, stopped, t, Some(basis), t.eventAt, t.at);
    RefuseForward(a, t, Ineligible, Ineligible, Some(basis), t.eventAt, t.at);
    RefuseForward(a, t, ExpiredCapacity, MissedWindow, Some(basis), t.later, t.later);
    WaitForward(a, t);
    OpenForward(a, t, basis, request);
  }

  lemma RefuseForward(a: Account, t: Attempt, waiting: Why, first: Why, basis: Option<Basis>, firstAt: int, waitingAt: int)
    requires Movable(RowsOf(a), t.matchId)
    ensures Forward(a, RefuseAs(a, t, waiting, first, basis, firstAt, waitingAt).0)
  {
    hide Forward;
    hide Restated;
    hide BasisOf;
    RefuseAsRestates(a, t, waiting, first, basis, firstAt, waitingAt);
    RestatedForward(a, RefuseAs(a, t, waiting, first, basis, firstAt, waitingAt).0, t.matchId);
  }

  lemma StoppedForward(a: Account, stopped: Account, t: Attempt, basis: Option<Basis>, firstAt: int, waitingAt: int)
    requires Movable(RowsOf(a), t.matchId) && stopped == a.(active := false, ruin := stopped.ruin, termination := stopped.termination)
    ensures Forward(a, RefuseAs(stopped, t, Ineligible, Ineligible, basis, firstAt, waitingAt).0)
  {
    hide BasisOf;
  }

  lemma WaitForward(a: Account, t: Attempt)
    requires Movable(RowsOf(a), t.matchId)
    ensures Forward(a, WaitFor(a, t).0)
  {
  }

  lemma OpenForward(a: Account, t: Attempt, basis: Basis, request: StakeRequest)
    requires Movable(RowsOf(a), t.matchId) && a.nextId !in a.positions
    ensures Forward(a, OpenPosition(a, t, basis, request).0)
  {
  }

  /** What is decided before the policy is asked never makes a match wait anew. */
  lemma ScreenDecides(c: Config, a: Account, t: Attempt)
    requires Screen(c, a, t).Some?
    ensures var b := Screen(c, a, t).value.0;
            t.matchId in a.states && b != a ==> t.matchId in b.states && !b.states[t.matchId].Pending?
  {
    hide OpenIds;
  }

  lemma ScreenForward(c: Config, a: Account, t: Attempt)
    requires Kept(c, a) && Screen(c, a, t).Some?
    ensures Forward(a, Screen(c, a, t).value.0)
  {
    hide Screen;
    hide Solvent;
    hide Forward;
    hide Restated;
    ScreenRestates(c, a, t);
    var b := Screen(c, a, t).value.0;
    if Movable(RowsOf(a), t.matchId) {
      ScreenDecides(c, a, t);
      RestatedForward(a, b, t.matchId);
    } else {
      ForwardSame(a);
    }
  }

  lemma ForwardSame(a: Account)
    ensures Forward(a, a)
  {
  }

  lemma PlaceForward(c: Config, a: Account, t: Attempt)
    requires Kept(c, a)
    ensures Forward(a, Place(c, a, t).0)
  {
    hide Screen;
    hide Answered;
    hide RequestFor;
    hide Forward;
    if Screen(c, a, t).Some? {
      ScreenForward(c, a, t);
    } else {
      ScreenedOut(c, a, t);
      AnsweredForward(c, a, t, RequestFor(c, a, BasisOf(a, t)));
    }
  }

  lemma BookForward(c: Config, a: Account, id: int, o: Observation, state: PolicyState)
    requires id in a.positions && a.positions[id].Stakeable() && a.positions[id].fate == Open
    ensures Forward(a, Book(c, a, id, o, state))
  {
    hide PnlOf;
    hide FateOf;
  }

  lemma SettleForward(c: Config, a: Account, id: int, o: Observation)
    requires Kept(c, a)
    ensures Sane(a) && Forward(a, Settle(c, a, id, o).0)
  {
    KeptSane(c, a);
    ForwardSame(a);
    hide Kept;
    hide StateAfter;
    hide Book;
    hide Forward;
    hide FateOf;
    if id in a.positions && a.positions[id].fate == Open {
      BookForward(c, a, id, o, StateAfter(c, a.positions[id], o, a.positions[id].stateBefore));
    }
  }

  lemma ApplyForward(c: Config, a: Account, op: Op)
    requires Kept(c, a)
    ensures Sane(a) && Forward(a, Apply(c, a, op).0)
  {
    KeptSane(c, a);
    hide Kept;
    hide Forward;
    hide Place;
    hide Settle;
    match op
    case PlaceOp(t) => PlaceForward(c, a, t);
    case SettleOp(id, o) => SettleForward(c, a, id, o);
  }

  /** Later transactions never take back what earlier ones made final. */
  lemma {:induction false} RunForward(c: Config, ops: seq<Op>, i: nat, j: nat)
    requires c.Valid() && i <= j <= |ops|
    ensures Forward(Run(c, ops[..i]), Run(c, ops[..j]))
  {
    hide Apply;
    if i < j {
      RunForward(c, ops, i, j - 1);
      assert ops[..j][..j - 1] == ops[..j - 1];
      RunKept(c, ops[..j - 1]);
      hide Kept;
      ApplyForward(c, Run(c, ops[..j - 1]), ops[j - 1]);
    }
  }

  /** What a successful settlement says about its position before and after. */
  lemma SettledBy(c: Config, a: Account, id: int, o: Observation)
    requires Sane(a)
    ensures Settle(c, a, id, o).1.SettledAs? ==>
              && id in a.positions && a.positions[id].fate == Open
              && Settle(c, a, id, o).0.positions[id].fate == Settle(c, a, id, o).1.fate != Open
  {
  }

  /** No position is settled twice. */
  lemma {:induction false} SettledOnce(c: Config, ops: seq<Op>, i: nat, j: nat)
    requires c.Valid() && i < j < |ops| && ops[i].SettleOp? && ops[j].SettleOp? && ops[i].id == ops[j].id
    requires OutcomeAt(c, ops, i).SettledAs?
    ensures OutcomeAt(c, ops, j) == NoWork
  {
    var id := ops[i].id;
    SettledBy(c, Run(c, ops[..i]), id, ops[i].observation);
    assert ops[..i + 1][..i] == ops[..i];
    assert Run(c, ops[..i + 1]) == Settle(c, Run(c, ops[..i]), id, ops[i].observation).0;
    RunForward(c, ops, i + 1, j);
  }
}

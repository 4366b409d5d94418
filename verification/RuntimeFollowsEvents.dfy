/**
  The persistent runtime refines the event-time engine. Called at the engine's
  wakes and in their order, with nothing but the opportunities and, once they
  are due, their results, it gives every opportunity the same standing and ends
  with the same equity, reserve and policy memory, wherever two recovery
  positions can never be open at once.
 */
module RuntimeFollowsEvents {
  import opened Common
  import opened Policies
  import opened Decisions
  import opened Ordering
  import opened Runtime
  import opened RuntimeSafety
  import opened RuntimeRefinement
  import EventPath
  import EventInvariants
  import EventCompletion

  // ---- the calls -----------------------------------------------------------------------

  function SideOf(o: EventPath.Outcome): Side {
    match o
    case Home => Home
    case Draw => Draw
    case Away => Away
  }

  /** The evidence an opportunity carries. */
  function EvidenceOf(o: EventPath.Opportunity): Basis {
    match o.action
    case Skip => Basis(None, None, None, 0.0)
    case Bet(selected, price, probability) => Basis(Some(SideOf(selected)), Some(price), Some(0), probability)
  }

  function AttemptOf(o: EventPath.Opportunity, at: int): Attempt {
    Attempt(o.identity, o.kickoff, true, EvidenceOf(o), None, at, at, at)
  }

  function ResultOf(o: EventPath.Opportunity): Observation {
    Observation(o.identity, false, Some(SideOf(o.actual)))
  }

  /** A transaction and the instant at which it is called. */
  datatype Call = Call(at: int, op: Op)

  function OpsOf(calls: seq<Call>): (r: seq<Op>)
    ensures |r| == |calls|
  {
    seq(|calls|, i requires 0 <= i < |calls| => calls[i].op)
  }

  /** A call offers an opportunity that has executed, or reports a result that is due, and knows nothing else. */
  predicate Honest(env: EventPath.Env, opps: EventPath.Book, call: Call) {
    match call.op
    case PlaceOp(t) =>
      t.matchId in opps && t == AttemptOf(opps[t.matchId], call.at) && opps[t.matchId].executionAt <= call.at
    case SettleOp(_, o) =>
      o.matchId in opps && o == ResultOf(opps[o.matchId]) && env.SettlementAt(opps[o.matchId]) <= call.at
  }

  /** Honest calls whose instants never go back. */
  ghost predicate Chronicle(env: EventPath.Env, opps: EventPath.Book, calls: seq<Call>) {
    && (forall i :: 0 <= i < |calls| ==> Honest(env, opps, calls[i]))
    && forall i, j :: 0 <= i < j < |calls| ==> calls[i].at <= calls[j].at
  }

  /** The runtime has the engine's policy, lanes and bankroll. */
  predicate Twin(env: EventPath.Env, c: Config) {
    c.policy == env.policy && c.maxLanes == env.maxLanes && c.initial == EventPath.INITIAL && c.Valid()
  }

  // ---- what corresponds to what --------------------------------------------------------

  /** Where the engine has every opportunity. */
  datatype Board = Board(
    statuses: map<int, EventPath.Status>, live: map<int, EventPath.Position>, pending: map<int, EventPath.Wager>)

  function BoardOf(e: EventPath.Engine): Board {
    Board(e.statuses, e.live, e.pending)
  }

  predicate OpenAs(p: Position, o: EventPath.Opportunity, request: StakeRequest) {
    p.fate == Open && p.matchId == o.identity && p.basis == EvidenceOf(o) && p.request == request
  }

  /** One opportunity stands in the rows as it stands on the board. */
  ghost predicate Alike(opps: EventPath.Book, d: Board, r: Rows, k: int)
    requires k in d.statuses
  {
    && k in r.states && k in opps
    && match d.statuses[k]
       case Open =>
         && k in d.live && opps[k].action.Bet? && d.live[k].opportunity == opps[k]
         && r.states[k].Placed? && r.states[k].position in r.positions
         && OpenAs(r.positions[r.states[k].position], opps[k], d.live[k].request)
       case Settled =>
         && r.states[k].Placed? && r.states[k].position in r.positions
         && r.positions[r.states[k].position].fate == (if opps[k].Won() then SettledWin else SettledLoss)
       case PendingCapacity =>
         k in d.pending && opps[k].action.Bet? && d.pending[k] == opps[k] && r.states[k] == Pending(EvidenceOf(opps[k]))
       case _ => r.states[k].NotPlaced?
  }

  ghost predicate Level(opps: EventPath.Book, d: Board, r: Rows) {
    && (forall k :: k in d.statuses <==> k in r.states)
    && (forall k :: k in d.statuses ==> Alike(opps, d, r, k))
    && (forall k :: k in d.live ==> k in d.statuses && d.statuses[k] == EventPath.Open)
    && |OpenIds(r.positions)| == |d.live|
  }

  ghost predicate Waiting(d: Board) {
    forall k :: k in d.pending ==> k in d.statuses && d.statuses[k] == EventPath.PendingCapacity
  }

  ghost predicate SameMoney(e: EventPath.Engine, a: Account) {
    a.equity == e.equity && a.reserved == e.reserved && a.state == e.state && a.active == (e.termination == Running)
  }

  ghost predicate Mirrors(opps: EventPath.Book, e: EventPath.Engine, a: Account) {
    SameMoney(e, a) && Level(opps, BoardOf(e), RowsOf(a)) && Waiting(BoardOf(e))
  }

  // ---- one row at a time ---------------------------------------------------------------

  /** What happens to one opportunity leaves the others as they stand. */
  lemma AlikeElsewhere(opps: EventPath.Book, d: Board, r: Rows, d': Board, r': Rows, j: int)
    requires j in d.statuses && Alike(opps, d, r, j) && j in d'.statuses && d'.statuses[j] == d.statuses[j]
    requires j in d.live ==> j in d'.live && d'.live[j] == d.live[j]
    requires j in d.pending ==> j in d'.pending && d'.pending[j] == d.pending[j]
    requires j in r'.states && r'.states[j] == r.states[j]
    requires r.states[j].Placed? && r.states[j].position in r.positions ==>
               r.states[j].position in r'.positions && r'.positions[r.states[j].position] == r.positions[r.states[j].position]
    ensures Alike(opps, d', r', j)
  {
  }

  /** What is open on the board is open in the rows, for the same bet. */
  lemma OpenBet(opps: EventPath.Book, d: Board, r: Rows, k: int)
    requires EventInvariants.Keyed(opps) && Level(opps, d, r) && k in d.live
    ensures k in d.statuses && k in opps && opps[k].action.Bet? && d.live[k].opportunity == opps[k]
    ensures k in r.states && r.states[k].Placed? && r.states[k].position in r.positions
    ensures var p := r.positions[r.states[k].position];
            && p.fate == Open && p.matchId == k && p.request == d.live[k].request
            && p.basis.price == Some(opps[k].action.price) && (p.basis.action == ResultOf(opps[k]).outcome) == opps[k].Won()
  {
    assert Alike(opps, d, r, k);
    hide OpenIds;
  }

  lemma AlikeSettled(opps: EventPath.Book, d: Board, r: Rows, k: int)
    requires k in d.statuses && d.statuses[k] == EventPath.Settled && k in opps && k in r.states && r.states[k].Placed?
    requires r.states[k].position in r.positions
    requires r.positions[r.states[k].position].fate == (if opps[k].Won() then SettledWin else SettledLoss)
    ensures Alike(opps, d, r, k)
  {
  }

  lemma OneFewerOpen(positions: map<int, Position>, i: int, p: Position)
    requires i in positions && positions[i].fate == Open && p.fate != Open
    ensures |OpenIds(positions[i := p])| == |OpenIds(positions)| - 1
  {
    assert OpenIds(positions[i := p]) == OpenIds(positions) - {i};
  }

  lemma OneFewerLive(live: map<int, EventPath.Position>, k: int)
    requires k in live
    ensures |live - {k}| == |live| - 1
  {
    assert (live - {k}).Keys == live.Keys - {k};
  }

  lemma LevelSettle(c: Config, opps: EventPath.Book, d: Board, r: Rows, k: int, p: Position)
    requires EventInvariants.Keyed(opps) && Linked(c, r) && Level(opps, d, r) && Waiting(d) && k in d.live
    requires r.states[k].Placed? && p.fate == (if opps[k].Won() then SettledWin else SettledLoss)
    ensures var d' := Board(d.statuses[k := EventPath.Settled], d.live - {k}, d.pending);
            Level(opps, d', r.(positions := r.positions[r.states[k].position := p])) && Waiting(d')
  {
    hide OpenIds;
    hide Alike;
    var i := r.states[k].position;
    var d', r' := Board(d.statuses[k := EventPath.Settled], d.live - {k}, d.pending), r.(positions := r.positions[i := p]);
    OpenBet(opps, d, r, k);
    OneFewerOpen(r.positions, i, p);
    OneFewerLive(d.live, k);
    AlikeSettled(opps, d', r', k);
    forall j | j in d'.statuses && j != k
      ensures Alike(opps, d', r', j)
    {
      AlikeElsewhere(opps, d, r, d', r', j);
    }
  }

  /** An opportunity that may still be decided: it waits, or it has no status. */
  ghost predicate Undecided(d: Board, k: int) {
    k in d.pending || k !in d.statuses
  }

  lemma AlikeOpened(opps: EventPath.Book, d: Board, r: Rows, k: int, q: EventPath.Position)
    requires k in d.statuses && d.statuses[k] == EventPath.Open && k in d.live && d.live[k] == q
    requires k in opps && opps[k].action.Bet? && q.opportunity == opps[k]
    requires k in r.states && r.states[k].Placed? && r.states[k].position in r.positions
    requires OpenAs(r.positions[r.states[k].position], opps[k], q.request)
    ensures Alike(opps, d, r, k)
  {
  }

  lemma OneMoreLive(live: map<int, EventPath.Position>, k: int, q: EventPath.Position)
    requires k !in live
    ensures |live[k := q]| == |live| + 1
  {
    assert live[k := q].Keys == live.Keys + {k};
  }

  lemma LevelOpen(opps: EventPath.Book, d: Board, r: Rows, k: int, p: Position, q: EventPath.Position)
    requires Level(opps, d, r) && Waiting(d) && Undecided(d, k) && k in opps && opps[k].action.Bet?
    requires r.nextId !in r.positions && q.opportunity == opps[k] && OpenAs(p, opps[k], q.request) && p.fate == Open
    ensures var d' := Board(d.statuses[k := EventPath.Open], d.live[k := q], d.pending - {k});
            Level(opps, d', Rows(r.states[k := Placed(p.basis, r.nextId)], r.positions[r.nextId := p], r.nextId + 1)) && Waiting(d')
  {
    hide OpenIds;
    hide OpenAs;
    hide EvidenceOf;
    hide Alike;
    var d' := Board(d.statuses[k := EventPath.Open], d.live[k := q], d.pending - {k});
    var r' := Rows(r.states[k := Placed(p.basis, r.nextId)], r.positions[r.nextId := p], r.nextId + 1);
    OneMoreOpen(r.positions, r.nextId, p);
    AlikeOpened(opps, d', r', k, q);
    OneMoreLive(d.live, k, q);
    forall j | j in d'.statuses && j != k
      ensures Alike(opps, d', r', j)
    {
      AlikeElsewhere(opps, d, r, d', r', j);
    }
  }

  lemma LevelHold(opps: EventPath.Book, d: Board, r: Rows, k: int)
    requires Level(opps, d, r) && Waiting(d) && Undecided(d, k) && k in opps && opps[k].action.Bet?
    ensures var d' := Board(d.statuses[k := EventPath.PendingCapacity], d.live, d.pending[k := opps[k]]);
            Level(opps, d', r.(states := r.states[k := Pending(EvidenceOf(opps[k]))])) && Waiting(d')
  {
    var d' := Board(d.statuses[k := EventPath.PendingCapacity], d.live, d.pending[k := opps[k]]);
    var r' := r.(states := r.states[k := Pending(EvidenceOf(opps[k]))]);
    hide OpenIds;
    assert Alike(opps, d', r', k);
    hide Alike;
    forall j | j in d'.statuses && j != k
      ensures Alike(opps, d', r', j)
    {
      AlikeElsewhere(opps, d, r, d', r', j);
    }
  }

  lemma LevelDrop(opps: EventPath.Book, d: Board, r: Rows, k: int, status: EventPath.Status, x: Execution,
                  pending: map<int, EventPath.Wager>)
    requires Level(opps, d, r) && k in opps && (k in d.statuses ==> d.statuses[k] != EventPath.Open)
    requires status.Final() && status != EventPath.Settled && x.NotPlaced?
    requires forall j :: j in d.pending && j != k ==> j in pending && pending[j] == d.pending[j]
    ensures Level(opps, Board(d.statuses[k := status], d.live, pending), r.(states := r.states[k := x]))
  {
    var d', r' := Board(d.statuses[k := status], d.live, pending), r.(states := r.states[k := x]);
    hide OpenIds;
    hide Alike;
    assert Alike(opps, d', r', k) by { AlikeDropped(opps, d', r', k); }
    forall j | j in d'.statuses && j != k
      ensures Alike(opps, d', r', j)
    {
      AlikeElsewhere(opps, d, r, d', r', j);
    }
  }

  lemma WaitingDrop(d: Board, k: int, status: EventPath.Status)
    requires Waiting(d)
    ensures Waiting(Board(d.statuses[k := status], d.live, d.pending - {k}))
  {
  }

  lemma AlikeDropped(opps: EventPath.Book, d: Board, r: Rows, k: int)
    requires k in d.statuses && d.statuses[k].Final() && d.statuses[k] != EventPath.Settled
    requires k in opps && k in r.states && r.states[k].NotPlaced?
    ensures Alike(opps, d, r, k)
  {
  }

  // ---- settlements ---------------------------------------------------------------------

  /** What one settlement changes in the engine. */
  lemma EngineSettles(env: EventPath.Env, e: EventPath.Engine, at: int, k: int)
    requires k in e.live
    ensures var p := e.live[k];
            var r := EventPath.SettleOne(env, e, at, k);
            && BoardOf(r) == Board(e.statuses[k := EventPath.Settled], e.live - {k}, e.pending)
            && r.equity == e.equity + Pnl(p.request.applied, p.opportunity.action.price, p.opportunity.Won())
            && r.reserved == e.reserved - p.request.applied
            && r.state == env.policy.Settle(e.state, p.request, p.opportunity.Won()).0
            && (r.termination == Running <==> e.termination == Running && 0.0 < r.equity)
            && (r.ruined <==> e.ruined || r.equity <= 0.0) && r.lastAt == e.lastAt
  {
    hide Policy.Settle;
    hide Pnl;
    Tracked(EventPath.Realize(env, e, k), at);
    hide EventPath.Track;
  }

  lemma Tracked(e: EventPath.Engine, at: int)
    ensures var r := EventPath.Track(e, at);
            r == e.(peak := r.peak, drawdown := r.drawdown, underwaterAt := r.underwaterAt, maxUnderwater := r.maxUnderwater)
  {
  }

  lemma RebuiltSettles(p: Policy, state: PolicyState, r: StakeRequest, won: bool)
    ensures p.Settle(state, Rebuilt(r), won) == p.Settle(state, r, won)
  {
  }

  /** What one settlement changes in the account. */
  lemma AccountSettles(c: Config, a: Account, i: int, o: Observation)
    requires c.Valid() && Kept(c, a) && Aligned(a) && i in a.positions && a.positions[i].fate == Open
    requires o.matchId == a.positions[i].matchId && !o.void
    ensures Sane(a)
    ensures var p := a.positions[i];
            var won := p.basis.action == o.outcome;
            var b := Settle(c, a, i, o).0;
            && b.equity == a.equity + Pnl(p.request.applied, p.basis.price.value, won)
            && b.reserved == a.reserved - p.request.applied
            && b.state == c.policy.Settle(a.state, p.request, won).0
            && (b.active <==> a.active && (0.0 < b.equity || c.restartable))
            && i in b.positions && b.positions[i].fate == (if won then SettledWin else SettledLoss)
            && RowsOf(b) == RowsOf(a).(positions := a.positions[i := b.positions[i]])
  {
    KeptSane(c, a);
    SettleKept(c, a, i, o);
    var p := a.positions[i];
    RebuiltSettles(c.policy, a.state, p.request, p.basis.action == o.outcome);
    hide Kept;
    hide Policy.Settle;
    hide Pnl;
  }

  /** The call that reports the result of an open opportunity. */
  function SettleCall(opps: EventPath.Book, a: Account, k: int): Op
    requires k in opps && k in a.states && a.states[k].Placed?
  {
    SettleOp(a.states[k].position, ResultOf(opps[k]))
  }

  lemma SettleMirrors(env: EventPath.Env, opps: EventPath.Book, c: Config, e: EventPath.Engine, a: Account,
                      at: int, k: int)
    requires Twin(env, c) && EventInvariants.Keyed(opps) && Kept(c, a) && Aligned(a) && Mirrors(opps, e, a) && k in e.live
    ensures Sane(a) && k in opps && k in a.states && a.states[k].Placed?
    ensures var r, b := EventPath.SettleOne(env, e, at, k), Apply(c, a, SettleCall(opps, a, k)).0;
            Mirrors(opps, r, b) || (c.restartable && r.ruined)
  {
    hide EventPath.SettleOne;
    hide Settle;
    hide Level;
    hide Waiting;
    hide Policy.Settle;
    hide Pnl;
    hide Solvent;
    OpenBet(opps, BoardOf(e), RowsOf(a), k);
    var i, o := a.states[k].position, opps[k];
    EngineSettles(env, e, at, k);
    AccountSettles(c, a, i, ResultOf(o));
    var b := Settle(c, a, i, ResultOf(o)).0;
    LevelSettle(c, opps, BoardOf(e), RowsOf(a), k, b.positions[i]);
    hide Linked;
    hide Aligned;
  }

  // ---- placements ----------------------------------------------------------------------

  /** An attempt that comes too late, finds the account stopped, or offers no bet. */
  lemma Declined(c: Config, a: Account, t: Attempt)
    requires Movable(RowsOf(a), t.matchId) && t.blocked.None? && t.decided
    requires !a.active || t.kickoff <= t.at || (!Waits(a, t.matchId) && t.offered.action.None?)
    ensures var b := Place(c, a, t).0;
            t.matchId in b.states && b.states[t.matchId].NotPlaced? && b == a.(states := a.states[t.matchId := b.states[t.matchId]])
  {
    hide OpenIds;
    hide RequestFor;
    hide Answered;
  }

  lemma UndecidedMoves(opps: EventPath.Book, d: Board, r: Rows, k: int)
    requires Level(opps, d, r) && Waiting(d) && Undecided(d, k)
    ensures Movable(r, k) && (k in r.states <==> k in d.pending) && (k in d.statuses ==> d.statuses[k] == EventPath.PendingCapacity)
    ensures k in d.pending ==> k in opps && opps[k].action.Bet? && d.pending[k] == opps[k] && r.states[k] == Pending(EvidenceOf(opps[k]))
  {
    if k in d.statuses { assert Alike(opps, d, r, k); }
  }

  lemma DeclineMirrors(opps: EventPath.Book, c: Config, e: EventPath.Engine, a: Account, f: EventPath.Engine,
                       at: int, k: int, status: EventPath.Status)
    requires EventInvariants.Keyed(opps) && Mirrors(opps, e, a) && Undecided(BoardOf(e), k) && k in opps
    requires status.Final() && status != EventPath.Settled
    requires e.termination != Running || opps[k].kickoff <= at || (k !in e.pending && opps[k].action.Skip?)
    requires SameMoney(f, a) && BoardOf(f) == Board(e.statuses[k := status], e.live, e.pending - {k})
    ensures Mirrors(opps, f, Place(c, a, AttemptOf(opps[k], at)).0)
  {
    hide Level;
    hide Waiting;
    hide Place;
    var t := AttemptOf(opps[k], at);
    UndecidedMoves(opps, BoardOf(e), RowsOf(a), k);
    Declined(c, a, t);
    var b := Place(c, a, t).0;
    RefuseMirrors(opps, e, a, f, k, status, b);
  }

  /** What an attempt leads to when it is not declined and lanes are counted alike. */
  lemma Attempted(c: Config, a: Account, t: Attempt)
    requires Movable(RowsOf(a), t.matchId) && t.blocked.None? && t.decided && a.active && t.at < t.kickoff
    requires BasisOf(a, t).Stakeable()
    ensures Place(c, a, t) ==
            if c.maxLanes <= |OpenIds(a.positions)| then WaitFor(a, t)
            else Answered(c, a, t, BasisOf(a, t), RequestFor(c, a, BasisOf(a, t)))
    ensures |OpenIds(a.positions)| < c.maxLanes ==> Screen(c, a, t).None?
  {
    hide OpenIds;
    hide RequestFor;
    hide Answered;
    hide WaitFor;
  }

  lemma HoldMirrors(opps: EventPath.Book, e: EventPath.Engine, a: Account, f: EventPath.Engine, at: int, k: int)
    requires EventInvariants.Keyed(opps) && Mirrors(opps, e, a) && Undecided(BoardOf(e), k) && k in opps && opps[k].action.Bet?
    requires SameMoney(f, a)
    requires BoardOf(f) == Board(e.statuses[k := EventPath.PendingCapacity], e.live, e.pending[k := opps[k]])
    ensures Mirrors(opps, f, WaitFor(a, AttemptOf(opps[k], at)).0)
  {
    hide Level;
    hide Waiting;
    UndecidedMoves(opps, BoardOf(e), RowsOf(a), k);
    LevelHold(opps, BoardOf(e), RowsOf(a), k);
    var b := WaitFor(a, AttemptOf(opps[k], at)).0;
    assert RowsOf(b) == RowsOf(a).(states := a.states[k := Pending(EvidenceOf(opps[k]))]);
  }

  lemma NewId(c: Config, a: Account)
    requires Kept(c, a)
    ensures a.nextId !in a.positions
  {
  }

  lemma OpenMirrors(env: EventPath.Env, opps: EventPath.Book, c: Config, e: EventPath.Engine, a: Account,
                    f: EventPath.Engine, at: int, k: int, request: StakeRequest)
    requires EventInvariants.Keyed(opps) && Kept(c, a) && Mirrors(opps, e, a)
    requires Undecided(BoardOf(e), k) && k in opps && opps[k].action.Bet? && a.reserved + request.applied <= a.equity
    requires f.equity == a.equity && f.state == a.state && f.termination == e.termination && f.reserved == a.reserved + request.applied
    requires BoardOf(f) == Board(e.statuses[k := EventPath.Open],
                                 e.live[k := EventPath.Position(env.SettlementAt(opps[k]), opps[k], request)], e.pending - {k})
    ensures Mirrors(opps, f, OpenPosition(a, AttemptOf(opps[k], at), EvidenceOf(opps[k]), request).0)
  {
    hide Level;
    hide Waiting;
    hide Linked;
    var basis := EvidenceOf(opps[k]);
    var p := Position(k, basis, request, a.state, a.state, Open, 0.0);
    NewId(c, a);
    LevelOpen(opps, BoardOf(e), RowsOf(a), k, p, EventPath.Position(env.SettlementAt(opps[k]), opps[k], request));
    var b := OpenPosition(a, AttemptOf(opps[k], at), basis, request).0;
    assert RowsOf(b) == Rows(a.states[k := Placed(basis, a.nextId)], a.positions[a.nextId := p], a.nextId + 1);
  }

  lemma PlaceMirrors(env: EventPath.Env, opps: EventPath.Book, c: Config, e: EventPath.Engine, a: Account, at: int,
                     k: int)
    requires Twin(env, c) && EventInvariants.Keyed(opps) && Kept(c, a) && Mirrors(opps, e, a)
    requires Undecided(BoardOf(e), k) && k in opps && opps[k].action.Bet?
    ensures Mirrors(opps, EventPath.PlaceOne(env, e, at, opps[k]), Place(c, a, AttemptOf(opps[k], at)).0)
  {
    var o, t := opps[k], AttemptOf(opps[k], at);
    var f := EventPath.PlaceOne(env, e, at, o);
    UndecidedMoves(opps, BoardOf(e), RowsOf(a), k);
    var basis := EvidenceOf(o);
    assert BasisOf(a, t) == basis && basis.Stakeable();
    if e.termination != Running {
      DeclineMirrors(opps, c, e, a, f, at, k, EventPath.PathTerminated);
    } else if o.kickoff <= at {
      DeclineMirrors(opps, c, e, a, f, at, k, EventPath.ExpiredCapacity);
    } else {
      Attempted(c, a, t);
      hide Place;
      if env.maxLanes <= |e.live| {
        HoldMirrors(opps, e, a, f, at, k);
      } else {
        assert Screen(c, a, t).None?;
        AskedSound(c, a, t);
        hide Screen;
        AnswerMirrors(env, opps, c, e, a, at, k, RequestFor(c, a, basis));
      }
    }
  }

  /** What the policy's answer makes of a bet, on the board and in the purse. */
  ghost predicate AnsweredBy(env: EventPath.Env, e: EventPath.Engine, f: EventPath.Engine, o: EventPath.Wager, request: StakeRequest) {
    var k := o.identity;
    && f.equity == e.equity && f.state == e.state
    && (if request.termination != Running || request.requested <= 0.0 || request.applied <= 0.0 then
          var status := if request.termination != Running then EventPath.PolicyTermination else EventPath.ZeroStake;
          BoardOf(f) == Board(e.statuses[k := status], e.live, e.pending - {k}) && f.reserved == e.reserved
        else if e.equity - e.reserved < request.requested then
          BoardOf(f) == Board(e.statuses[k := EventPath.PendingCapacity], e.live, e.pending[k := o]) && f.reserved == e.reserved
        else
          && BoardOf(f) == Board(e.statuses[k := EventPath.Open],
                                 e.live[k := EventPath.Position(env.SettlementAt(o), o, request)], e.pending - {k})
          && f.reserved == e.reserved + request.applied)
  }

  lemma EngineDecides(env: EventPath.Env, e: EventPath.Engine, at: int, o: EventPath.Wager, request: StakeRequest)
    requires e.termination == Running
    ensures var f := EventPath.Decide(env, e, at, o, request);
            AnsweredBy(env, e, f, o, request) && f.termination == request.termination
  {
  }

  lemma EngineAnswers(env: EventPath.Env, e: EventPath.Engine, at: int, o: EventPath.Wager, request: StakeRequest)
    requires e.termination == Running && at < o.kickoff && |e.live| < env.maxLanes
    ensures var f := EventPath.PlaceWith(env, e, at, o, request);
            AnsweredBy(env, e, f, o, request) && f.termination == request.termination
  {
    hide EventPath.Decide;
    var asked := EventPath.Record(EventPath.NoteRetry(e, at, o), EventPath.Requested(request), at, o.identity);
    assert BoardOf(asked) == BoardOf(e) && asked.equity == e.equity && asked.reserved == e.reserved && asked.state == e.state;
    EngineDecides(env, asked, at, o, request);
    hide EventPath.Record;
    hide EventPath.NoteRetry;
  }

  /** The policy's answer has the same consequences on both sides. */
  lemma AnswerMirrors(env: EventPath.Env, opps: EventPath.Book, c: Config, e: EventPath.Engine, a: Account,
                      at: int, k: int, request: StakeRequest)
    requires Twin(env, c) && EventInvariants.Keyed(opps) && Kept(c, a) && Mirrors(opps, e, a)
    requires Undecided(BoardOf(e), k) && k in opps && opps[k].action.Bet?
    requires e.termination == Running && at < opps[k].kickoff && |e.live| < env.maxLanes && Sound(c.policy, a.equity, request)
    ensures Mirrors(opps, EventPath.PlaceWith(env, e, at, opps[k], request),
                    Answered(c, a, AttemptOf(opps[k], at), EvidenceOf(opps[k]), request).0)
  {
    hide Level;
    hide Waiting;
    hide OpenPosition;
    hide WaitFor;
    hide EventPath.PlaceWith;
    assert request.applied <= request.requested;
    hide Sound;
    hide Kept;
    var o, t := opps[k], AttemptOf(opps[k], at);
    UndecidedMoves(opps, BoardOf(e), RowsOf(a), k);
    EngineAnswers(env, e, at, o, request);
    var f := EventPath.PlaceWith(env, e, at, o, request);
    if request.termination != Running || request.requested <= 0.0 || request.applied <= 0.0 {
      RefuseMirrors(opps, e, a, f, k, if request.termination != Running then EventPath.PolicyTermination else EventPath.ZeroStake,
                    Answered(c, a, t, EvidenceOf(o), request).0);
    } else if request.requested > e.equity - e.reserved {
      HoldMirrors(opps, e, a, f, at, k);
    } else {
      OpenMirrors(env, opps, c, e, a, f, at, k, request);
    }
  }

  /** A match that is refused on both sides. */
  lemma RefuseMirrors(opps: EventPath.Book, e: EventPath.Engine, a: Account, f: EventPath.Engine, k: int,
                      status: EventPath.Status, b: Account)
    requires Mirrors(opps, e, a) && Undecided(BoardOf(e), k) && k in opps && status.Final() && status != EventPath.Settled
    requires k in b.states && b.states[k].NotPlaced? && SameMoney(f, b)
    requires RowsOf(b) == RowsOf(a).(states := a.states[k := b.states[k]])
    requires BoardOf(f) == Board(e.statuses[k := status], e.live, e.pending - {k})
    ensures Mirrors(opps, f, b)
  {
    hide Level;
    hide Waiting;
    UndecidedMoves(opps, BoardOf(e), RowsOf(a), k);
    LevelDrop(opps, BoardOf(e), RowsOf(a), k, status, b.states[k], e.pending - {k});
    WaitingDrop(BoardOf(e), k, status);
  }

  // ---- following the engine ------------------------------------------------------------

  ghost predicate Setting(env: EventPath.Env, opps: EventPath.Book, c: Config) {
    env.Valid() && EventInvariants.Keyed(opps) && Twin(env, c) && OneMemory(c)
  }

  /**
    These calls have brought the account where the engine is. A configuration
    that may be restarted goes on with an empty bankroll, where the engine stops.
   */
  ghost predicate Followed(env: EventPath.Env, opps: EventPath.Book, c: Config, e: EventPath.Engine, calls: seq<Call>) {
    && Chronicle(env, opps, calls) && Until(calls, e.lastAt)
    && (Mirrors(opps, e, Run(c, OpsOf(calls))) || (c.restartable && e.ruined))
  }

  /** No call lies after the last wake. */
  predicate Until(calls: seq<Call>, lastAt: Option<int>) {
    calls != [] ==> lastAt.Some? && calls[|calls| - 1].at <= lastAt.value
  }

  lemma ChronicleMore(env: EventPath.Env, opps: EventPath.Book, calls: seq<Call>, call: Call)
    requires Chronicle(env, opps, calls) && Honest(env, opps, call) && Until(calls, Some(call.at))
    ensures Chronicle(env, opps, calls + [call])
  {
    hide Honest;
    forall i, j | 0 <= i < j < |calls + [call]|
      ensures (calls + [call])[i].at <= (calls + [call])[j].at
    {
      if j == |calls| && i < |calls| - 1 { assert calls[i].at <= calls[|calls| - 1].at; }
    }
  }

  lemma CallMore(c: Config, calls: seq<Call>, call: Call)
    ensures Run(c, OpsOf(calls + [call])) == Apply(c, Run(c, OpsOf(calls)), call.op).0
  {
    hide Apply;
    hide Run;
    assert OpsOf(calls + [call]) == OpsOf(calls) + [call.op];
    RunMore(c, OpsOf(calls), call.op);
  }

  lemma FollowMore(env: EventPath.Env, opps: EventPath.Book, c: Config, e: EventPath.Engine, f: EventPath.Engine,
                   calls: seq<Call>, call: Call)
    requires Followed(env, opps, c, e, calls) && Honest(env, opps, call) && f.lastAt == e.lastAt == Some(call.at)
    requires Mirrors(opps, f, Apply(c, Run(c, OpsOf(calls)), call.op).0) || (c.restartable && f.ruined)
    ensures Followed(env, opps, c, f, calls + [call])
  {
    hide Mirrors;
    hide Honest;
    hide Apply;
    hide Run;
    hide OpsOf;
    hide Chronicle;
    CallMore(c, calls, call);
    ChronicleMore(env, opps, calls, call);
  }

  lemma SettleFollows(env: EventPath.Env, opps: EventPath.Book, c: Config, e: EventPath.Engine, calls: seq<Call>,
                      at: int, k: int)
    returns (more: seq<Call>)
    requires Setting(env, opps, c) && Followed(env, opps, c, e, calls) && k in e.live
    requires e.lastAt == Some(at) && k in opps && env.SettlementAt(opps[k]) <= at
    ensures Followed(env, opps, c, EventPath.SettleOne(env, e, at, k), more) && EventPath.SettleOne(env, e, at, k).lastAt == Some(at)
  {
    hide Mirrors;
    hide EventPath.SettleOne;
    hide Run;
    hide Settle;
    hide Policy.Settle;
    hide Kept;
    hide Aligned;
    hide Chronicle;
    EngineSettles(env, e, at, k);
    var a := Run(c, OpsOf(calls));
    if Mirrors(opps, e, a) {
      RunKept(c, OpsOf(calls));
      RunAligned(c, OpsOf(calls));
      SettleMirrors(env, opps, c, e, a, at, k);
      var call := Call(at, SettleCall(opps, a, k));
      FollowMore(env, opps, c, e, EventPath.SettleOne(env, e, at, k), calls, call);
      more := calls + [call];
    } else {
      more := calls;
    }
  }

  lemma {:induction false} SettleEachFollows(env: EventPath.Env, opps: EventPath.Book, c: Config,
                                             e: EventPath.Engine, calls: seq<Call>, at: int, ids: seq<int>)
    returns (more: seq<Call>)
    requires Setting(env, opps, c) && Followed(env, opps, c, e, calls) && EventPath.Listed(ids, e.live)
    requires e.lastAt == Some(at) && forall i :: 0 <= i < |ids| ==> ids[i] in opps && env.SettlementAt(opps[ids[i]]) <= at
    ensures Followed(env, opps, c, EventPath.SettleEach(env, e, at, ids), more)
    ensures EventPath.SettleEach(env, e, at, ids).lastAt == Some(at)
  {
    hide Setting;
    hide Followed;
    hide EventPath.SettleOne;
    if ids == [] {
      more := calls;
    } else {
      var last := |ids| - 1;
      more := SettleEachFollows(env, opps, c, e, calls, at, ids[..last]);
      assert ids[last] !in ids[..last];
      more := SettleFollows(env, opps, c, EventPath.SettleEach(env, e, at, ids[..last]), more, at, ids[last]);
    }
  }

  /** An opportunity that no longer needs an answer from the policy. */
  ghost predicate Settleable(opps: EventPath.Book, e: EventPath.Engine, at: int, k: int) {
    && k in opps && opps[k].executionAt <= at && e.lastAt == Some(at) && Undecided(BoardOf(e), k)
    && (e.termination != Running || opps[k].kickoff <= at || (k !in e.pending && opps[k].action.Skip?))
  }

  lemma DropFollows(env: EventPath.Env, opps: EventPath.Book, c: Config, e: EventPath.Engine, calls: seq<Call>,
                    kind: EventPath.Kind, status: EventPath.Status, at: int, k: int)
    returns (more: seq<Call>)
    requires Setting(env, opps, c) && Followed(env, opps, c, e, calls) && Settleable(opps, e, at, k)
    requires status.Final() && status != EventPath.Settled
    ensures Followed(env, opps, c, EventPath.Drop(e, kind, status, at, k), more)
  {
    hide Mirrors;
    hide Run;
    hide Place;
    hide Chronicle;
    var a, call := Run(c, OpsOf(calls)), Call(at, PlaceOp(AttemptOf(opps[k], at)));
    var f := EventPath.Drop(e, kind, status, at, k);
    if Mirrors(opps, e, a) {
      MoneyOnly(opps, e, a, f);
      DeclineMirrors(opps, c, e, a, f, at, k, status);
    }
    FollowMore(env, opps, c, e, f, calls, call);
    more := calls + [call];
  }

  lemma MoneyOnly(opps: EventPath.Book, e: EventPath.Engine, a: Account, f: EventPath.Engine)
    requires Mirrors(opps, e, a) && f.equity == e.equity && f.reserved == e.reserved && f.state == e.state && f.termination == e.termination
    ensures SameMoney(f, a)
  {
    hide Level;
  }

  lemma {:induction false} DropEachStatuses(e: EventPath.Engine, kind: EventPath.Kind, status: EventPath.Status,
                                            at: int, ids: seq<int>)
    ensures forall j :: j in EventPath.DropEach(e, kind, status, at, ids).statuses <==> j in e.statuses || j in ids
  {
    if ids != [] {
      var last := |ids| - 1;
      DropEachStatuses(e, kind, status, at, ids[..last]);
      assert forall j :: j in ids <==> j in ids[..last] || j == ids[last];
    }
  }

  lemma {:induction false} DropEachFollows(env: EventPath.Env, opps: EventPath.Book, c: Config,
                                           e: EventPath.Engine, calls: seq<Call>, kind: EventPath.Kind,
                                           status: EventPath.Status, at: int, ids: seq<int>)
    returns (more: seq<Call>)
    requires Setting(env, opps, c) && Followed(env, opps, c, e, calls) && Distinct(ids)
    requires forall i :: 0 <= i < |ids| ==> Settleable(opps, e, at, ids[i])
    requires status.Final() && status != EventPath.Settled
    ensures Followed(env, opps, c, EventPath.DropEach(e, kind, status, at, ids), more)
  {
    hide Setting;
    hide Followed;
    hide EventPath.Drop;
    if ids == [] {
      more := calls;
    } else {
      var last := |ids| - 1;
      EventInvariants.ElementsLast(ids);
      more := DropEachFollows(env, opps, c, e, calls, kind, status, at, ids[..last]);
      var d := EventPath.DropEach(e, kind, status, at, ids[..last]);
      StillSettleable(opps, e, kind, status, at, ids[..last], ids[last]);
      more := DropFollows(env, opps, c, d, more, kind, status, at, ids[last]);
    }
  }

  lemma StillSettleable(opps: EventPath.Book, e: EventPath.Engine, kind: EventPath.Kind, status: EventPath.Status,
                        at: int, ids: seq<int>, k: int)
    requires Settleable(opps, e, at, k) && Distinct(ids) && k !in ids
    ensures Settleable(opps, EventPath.DropEach(e, kind, status, at, ids), at, k)
  {
    EventInvariants.DropEachFrame(e, kind, status, at, ids);
    DropEachStatuses(e, kind, status, at, ids);
    hide EventPath.DropEach;
  }

  lemma PlaceFollows(env: EventPath.Env, opps: EventPath.Book, c: Config, e: EventPath.Engine, calls: seq<Call>,
                     at: int, k: int)
    returns (more: seq<Call>)
    requires Setting(env, opps, c) && Followed(env, opps, c, e, calls)
    requires Undecided(BoardOf(e), k) && k in opps && opps[k].action.Bet? && opps[k].executionAt <= at && e.lastAt == Some(at)
    ensures Followed(env, opps, c, EventPath.PlaceOne(env, e, at, opps[k]), more)
  {
    hide Mirrors;
    hide Run;
    hide Place;
    hide Kept;
    hide EventPath.PlaceOne;
    hide Chronicle;
    var a, call := Run(c, OpsOf(calls)), Call(at, PlaceOp(AttemptOf(opps[k], at)));
    PlaceChanges(env, e, at, opps[k]);
    if Mirrors(opps, e, a) {
      RunKept(c, OpsOf(calls));
      PlaceMirrors(env, opps, c, e, a, at, k);
    }
    FollowMore(env, opps, c, e, EventPath.PlaceOne(env, e, at, opps[k]), calls, call);
    more := calls + [call];
  }

  /** A change that leaves ruin, the clock and every other opportunity alone. */
  ghost predicate Only(e: EventPath.Engine, r: EventPath.Engine, k: int) {
    r.ruined == e.ruined && r.lastAt == e.lastAt && forall j :: j != k && Undecided(BoardOf(e), j) ==> Undecided(BoardOf(r), j)
  }

  lemma DropOnly(e: EventPath.Engine, kind: EventPath.Kind, status: EventPath.Status, at: int, k: int)
    ensures Only(e, EventPath.Drop(e, kind, status, at, k), k)
  {
  }

  lemma HoldOnly(e: EventPath.Engine, wait: EventPath.Wait, at: int, o: EventPath.Wager)
    ensures Only(e, EventPath.Hold(e, wait, at, o), o.identity)
  {
  }

  lemma OpenOnly(env: EventPath.Env, e: EventPath.Engine, at: int, o: EventPath.Wager, request: StakeRequest)
    ensures Only(e, EventPath.OpenOne(env, e, at, o, request), o.identity)
  {
  }

  lemma PlaceChanges(env: EventPath.Env, e: EventPath.Engine, at: int, o: EventPath.Wager)
    ensures Only(e, EventPath.PlaceOne(env, e, at, o), o.identity)
  {
    hide EventPath.RequestFor;
    hide EventPath.Drop;
    hide EventPath.Hold;
    hide EventPath.OpenOne;
    hide Undecided;
    var k, request := o.identity, EventPath.RequestFor(env, e, o);
    var noted := EventPath.NoteRetry(e, at, o);
    var asked := EventPath.Record(noted, EventPath.Requested(request), at, k);
    assert BoardOf(noted) == BoardOf(e) && BoardOf(asked) == BoardOf(e) && noted.ruined == asked.ruined == e.ruined;
    assert noted.lastAt == asked.lastAt == e.lastAt;
    DropOnly(e, EventPath.Terminated(e.termination), EventPath.PathTerminated, at, k);
    DropOnly(e, EventPath.Expiry, EventPath.ExpiredCapacity, at, k);
    HoldOnly(noted, EventPath.NoAvailableLane, at, o);
    StoppedOnly(asked, request.termination, at, k);
    DropOnly(asked, EventPath.NoStake, EventPath.ZeroStake, at, k);
    HoldOnly(asked, EventPath.InsufficientCash(request), at, o);
    OpenOnly(env, asked, at, o, request);
  }

  lemma StoppedOnly(e: EventPath.Engine, reason: Termination, at: int, k: int)
    ensures Only(e, EventPath.Drop(e.(termination := reason), EventPath.PolicyStopped(reason), EventPath.PolicyTermination, at, k), k)
  {
  }

  /** What placement at one wake works on. */
  ghost predicate Placeable(opps: EventPath.Book, e: EventPath.Engine, at: int, merged: map<int, EventPath.Wager>, k: int) {
    k in merged && k in opps && merged[k] == opps[k] && opps[k].executionAt <= at && Undecided(BoardOf(e), k)
  }

  lemma {:induction false} PlaceEachFollows(env: EventPath.Env, opps: EventPath.Book, c: Config,
                                            e: EventPath.Engine, calls: seq<Call>, at: int,
                                            merged: map<int, EventPath.Wager>, ids: seq<int>)
    returns (more: seq<Call>)
    requires Setting(env, opps, c) && Followed(env, opps, c, e, calls) && EventPath.Listed(ids, merged)
    requires e.lastAt == Some(at) && forall i :: 0 <= i < |ids| ==> Placeable(opps, e, at, merged, ids[i])
    ensures var r := EventPath.PlaceEach(env, e, at, merged, ids);
            && Followed(env, opps, c, r, more) && r.lastAt == Some(at)
            && forall j :: j !in ids && Undecided(BoardOf(e), j) ==> Undecided(BoardOf(r), j)
  {
    hide Followed;
    hide Undecided;
    hide Twin;
    hide OneMemory;
    hide EventPath.Env.Valid;
    hide EventPath.PlaceOne;
    if ids == [] {
      more := calls;
    } else {
      var last := |ids| - 1;
      EventInvariants.ElementsLast(ids);
      more := PlaceEachFollows(env, opps, c, e, calls, at, merged, ids[..last]);
      var d := EventPath.PlaceEach(env, e, at, merged, ids[..last]);
      assert Placeable(opps, e, at, merged, ids[last]);
      PlaceChanges(env, d, at, opps[ids[last]]);
      more := PlaceFollows(env, opps, c, d, more, at, ids[last]);
      assert forall j :: j !in ids ==> j !in ids[..last] && j != ids[last];
    }
  }

  // ---- one wake ------------------------------------------------------------------------

  lemma WakeFollows(env: EventPath.Env, opps: EventPath.Book, c: Config, e: EventPath.Engine, calls: seq<Call>, at: int)
    requires Followed(env, opps, c, e, calls) && (e.lastAt.Some? ==> e.lastAt.value < at)
    ensures Followed(env, opps, c, EventPath.Wake(e, at), calls)
  {
    hide Level;
    hide Chronicle;
    hide OpsOf;
    hide Run;
  }

  lemma SettlementFollows(env: EventPath.Env, opps: EventPath.Book, c: Config, e: EventPath.Engine,
                          calls: seq<Call>, at: int, arriving: set<int>)
    returns (more: seq<Call>)
    requires Setting(env, opps, c) && Followed(env, opps, c, e, calls) && e.lastAt == Some(at)
    requires EventInvariants.Books(env, opps, EventInvariants.DeskOf(e), arriving)
    ensures Followed(env, opps, c, EventPath.AfterSettlement(env, e, at), more)
  {
    hide Setting;
    hide Followed;
    hide EventPath.SettleEach;
    var ids := Order(EventPath.DueRanks(e, at));
    forall i | 0 <= i < |ids|
      ensures ids[i] in opps && env.SettlementAt(opps[ids[i]]) <= at
    {
      assert ids[i] in EventPath.DueRanks(e, at);
    }
    more := SettleEachFollows(env, opps, c, e, calls, at, ids);
  }

  lemma ExpiryFollows(env: EventPath.Env, opps: EventPath.Book, c: Config, e: EventPath.Engine, calls: seq<Call>,
                      at: int, arriving: set<int>)
    returns (more: seq<Call>)
    requires Setting(env, opps, c) && Followed(env, opps, c, e, calls) && EventInvariants.Mid(env, opps, e, at, arriving)
    ensures Followed(env, opps, c, EventPath.AfterExpiry(e, at), more)
  {
    hide Setting;
    hide Followed;
    hide EventPath.DropEach;
    hide EventInvariants.Cash;
    hide EventInvariants.Clock;
    var ids := Order(EventPath.ExpiryRanks(e, at));
    forall i | 0 <= i < |ids|
      ensures Settleable(opps, e, at, ids[i])
    {
      assert ids[i] in EventPath.ExpiryRanks(e, at);
    }
    more := DropEachFollows(env, opps, c, e, calls, EventPath.Expiry, EventPath.ExpiredCapacity, at, ids);
  }

  lemma SkipsFollow(env: EventPath.Env, opps: EventPath.Book, c: Config, e: EventPath.Engine, calls: seq<Call>, at: int)
    returns (more: seq<Call>)
    requires Setting(env, opps, c) && Followed(env, opps, c, e, calls)
    requires EventInvariants.Mid(env, opps, e, at, EventPath.Arrivals(opps, at).Keys)
    ensures Followed(env, opps, c, EventPath.AfterSkips(e, at, EventPath.Arrivals(opps, at)), more)
  {
    hide Setting;
    hide Followed;
    hide EventPath.DropEach;
    hide EventInvariants.Cash;
    hide EventInvariants.Clock;
    var arrivals := EventPath.Arrivals(opps, at);
    var ids := Order(EventPath.SkipRanks(arrivals));
    forall i | 0 <= i < |ids|
      ensures Settleable(opps, e, at, ids[i])
    {
      assert ids[i] in EventPath.SkipRanks(arrivals);
      assert ids[i] in arrivals.Keys && ids[i] !in e.statuses;
      assert ids[i] !in e.pending;
    }
    more := DropEachFollows(env, opps, c, e, calls, EventPath.NoBetSeen, EventPath.NotBet, at, ids);
  }

  lemma PlacementFollows(env: EventPath.Env, opps: EventPath.Book, c: Config, e: EventPath.Engine, calls: seq<Call>, at: int)
    returns (more: seq<Call>)
    requires Setting(env, opps, c) && Followed(env, opps, c, e, calls)
    requires EventInvariants.Mid(env, opps, e, at, EventInvariants.Bets(EventPath.Arrivals(opps, at)))
    requires EventInvariants.Hopeful(e.lastAt, e.pending)
    ensures Followed(env, opps, c, EventPath.AfterPlacement(env, e, at, EventPath.Arrivals(opps, at)), more)
  {
    hide Followed;
    hide Twin;
    hide OneMemory;
    hide EventPath.PlaceEach;
    hide EventInvariants.Cash;
    hide EventInvariants.Clock;
    hide EventPath.Merged;
    var arrivals := EventPath.Arrivals(opps, at);
    var merged := EventPath.Merged(e, arrivals);
    EventInvariants.MergedPlacing(env, opps, e, at, arrivals);
    var ids := Order(EventPath.BetRanks(merged));
    forall i | 0 <= i < |ids|
      ensures Placeable(opps, e, at, merged, ids[i])
    {
      assert ids[i] in merged;
      assert EventInvariants.Undecided(opps, EventInvariants.DeskOf(e), EventInvariants.Bets(arrivals), ids[i]);
    }
    more := PlaceEachFollows(env, opps, c, e, calls, at, merged, ids);
  }

  lemma FlushFollows(env: EventPath.Env, opps: EventPath.Book, c: Config, e: EventPath.Engine, calls: seq<Call>, at: int)
    returns (more: seq<Call>)
    requires Setting(env, opps, c) && Followed(env, opps, c, e, calls) && EventInvariants.Mid(env, opps, e, at, {})
    ensures Followed(env, opps, c, EventPath.AfterFlush(e, at), more)
  {
    hide Setting;
    hide Followed;
    hide EventPath.DropEach;
    hide EventInvariants.Cash;
    hide EventInvariants.Clock;
    if e.termination == Running {
      more := calls;
    } else {
      var ids := Order(EventPath.IdentityRanks(e.pending));
      forall i | 0 <= i < |ids|
        ensures Settleable(opps, e, at, ids[i])
      {
        assert ids[i] in EventPath.IdentityRanks(e.pending);
      }
      more := DropEachFollows(env, opps, c, e, calls, EventPath.Terminated(e.termination), EventPath.PathTerminated, at, ids);
    }
  }

  lemma WakeAhead(env: EventPath.Env, opps: EventPath.Book, e: EventPath.Engine, at: int)
    requires EventInvariants.Inv(env, opps, e) && EventPath.IsLeast(e.wakes, at)
    ensures (e.lastAt.Some? ==> e.lastAt.value < at) && EventPath.Wake(e, at).lastAt == Some(at)
    ensures EventInvariants.Books(env, opps, EventInvariants.DeskOf(EventPath.Wake(e, at)), EventPath.Arrivals(opps, at).Keys)
  {
    hide EventInvariants.Books;
    hide EventInvariants.Cash;
    EventInvariants.WakeBooks(env, opps, e, at);
  }

  /** One wake of the engine is a run of calls to the runtime. */
  lemma StepFollows(env: EventPath.Env, opps: EventPath.Book, c: Config, e: EventPath.Engine, calls: seq<Call>, at: int)
    returns (more: seq<Call>)
    requires Setting(env, opps, c) && Followed(env, opps, c, e, calls)
    requires EventInvariants.Inv(env, opps, e) && EventPath.IsLeast(e.wakes, at)
    ensures Followed(env, opps, c, EventPath.Step(env, e, at, EventPath.Arrivals(opps, at)), more)
  {
    hide Followed;
    hide Twin;
    hide OneMemory;
    hide EventInvariants.Inv;
    hide EventInvariants.Mid;
    hide EventInvariants.Books;
    hide EventPath.Wake;
    hide EventPath.AfterSettlement;
    hide EventPath.AfterExpiry;
    hide EventPath.AfterSkips;
    hide EventPath.AfterPlacement;
    hide EventPath.AfterFlush;
    hide EventPath.Arrivals;
    hide EventInvariants.Keyed;
    hide EventPath.Env.Valid;
    var arrivals := EventPath.Arrivals(opps, at);
    var w := EventPath.Wake(e, at);
    var s := EventPath.AfterSettlement(env, w, at);
    var x := EventPath.AfterExpiry(s, at);
    var b := EventPath.BeforePlacement(env, e, at, arrivals);
    WakeAhead(env, opps, e, at);
    WakeFollows(env, opps, c, e, calls, at);
    more := SettlementFollows(env, opps, c, w, calls, at, arrivals.Keys);
    EventInvariants.AfterSettlementMid(env, opps, e, at);
    more := ExpiryFollows(env, opps, c, s, more, at, arrivals.Keys);
    EventInvariants.AfterExpiryMid(env, opps, s, at, arrivals.Keys);
    more := SkipsFollow(env, opps, c, x, more, at);
    EventInvariants.BeforePlacementMid(env, opps, e, at);
    more := PlacementFollows(env, opps, c, b, more, at);
    EventInvariants.AfterPlacementMid(env, opps, e, at);
    more := FlushFollows(env, opps, c, EventPath.AfterPlacement(env, b, at, arrivals), more, at);
  }

  lemma StartFollows(env: EventPath.Env, opps: EventPath.Book, c: Config)
    requires Setting(env, opps, c)
    ensures Followed(env, opps, c, EventPath.Start(env, opps), [])
  {
    assert OpenIds(Opening(c).positions) == {};
    hide OpenIds;
    hide Alike;
  }

  /** After any number of wakes some run of the runtime stands where the engine stands. */
  lemma {:induction false} PlayFollows(env: EventPath.Env, opps: EventPath.Book, c: Config, n: nat) returns (calls: seq<Call>)
    requires Setting(env, opps, c)
    ensures Followed(env, opps, c, EventPath.Play(env, opps, n), calls)
  {
    hide Followed;
    hide Twin;
    hide OneMemory;
    hide EventPath.Start;
    hide EventPath.Step;
    hide EventInvariants.Inv;
    hide EventInvariants.Keyed;
    hide EventPath.Env.Valid;
    if n == 0 {
      StartFollows(env, opps, c);
      calls := [];
    } else {
      calls := PlayFollows(env, opps, c, n - 1);
      var e := EventPath.Play(env, opps, n - 1);
      if EventPath.Awake(e) {
        EventInvariants.PlayInv(env, opps, n - 1);
        calls := StepFollows(env, opps, c, e, calls, EventPath.Least(e.wakes));
      }
    }
  }

  // ---- the whole path ------------------------------------------------------------------

  /** Calls up to `limit` have brought the rows where the ended path stands. */
  ghost predicate Ended(env: EventPath.Env, opps: EventPath.Book, c: Config, e: EventPath.Engine, calls: seq<Call>, limit: int) {
    && Chronicle(env, opps, calls) && Until(calls, Some(limit))
    && ((c.restartable && e.ruined) || (SameMoney(e, Run(c, OpsOf(calls))) && Level(opps, BoardOf(e), RowsOf(Run(c, OpsOf(calls))))))
  }

  lemma LateLevel(opps: EventPath.Book, c: Config, e: EventPath.Engine, a: Account, k: int)
    requires EventInvariants.Keyed(opps) && SameMoney(e, a) && Level(opps, BoardOf(e), RowsOf(a))
    requires k in e.pending && k in opps && e.pending[k] == opps[k] && k in e.statuses && e.statuses[k] == EventPath.PendingCapacity
    ensures var b := Place(c, a, AttemptOf(opps[k], opps[k].kickoff)).0;
            SameMoney(EventPath.ExpireLate(e, k), b) && Level(opps, BoardOf(EventPath.ExpireLate(e, k)), RowsOf(b))
  {
    assert Alike(opps, BoardOf(e), RowsOf(a), k);
    hide Level;
    hide Alike;
    var t := AttemptOf(opps[k], opps[k].kickoff);
    Declined(c, a, t);
    hide Place;
    var b := Place(c, a, t).0;
    LevelDrop(opps, BoardOf(e), RowsOf(a), k, EventPath.ExpiredCapacity, b.states[k], e.pending);
    assert RowsOf(b) == RowsOf(a).(states := a.states[k := b.states[k]]);
  }

  /** A bet that waits when no wake is left. */
  predicate Late(opps: EventPath.Book, e: EventPath.Engine, k: int) {
    && k in e.pending && k in opps && e.pending[k] == opps[k] && opps[k].executionAt <= opps[k].kickoff
    && k in e.statuses && e.statuses[k] == EventPath.PendingCapacity
  }

  /** What expires at its own kickoff after the last wake is refused by the runtime then. */
  lemma LateFollows(env: EventPath.Env, opps: EventPath.Book, c: Config, e: EventPath.Engine, calls: seq<Call>, limit: int, k: int)
    returns (more: seq<Call>)
    requires EventInvariants.Keyed(opps) && Ended(env, opps, c, e, calls, limit) && Late(opps, e, k) && limit <= opps[k].kickoff
    ensures Ended(env, opps, c, EventPath.ExpireLate(e, k), more, opps[k].kickoff)
  {
    hide Level;
    hide Run;
    hide Place;
    hide OpsOf;
    hide Chronicle;
    var call := Call(opps[k].kickoff, PlaceOp(AttemptOf(opps[k], opps[k].kickoff)));
    var a := Run(c, OpsOf(calls));
    if SameMoney(e, a) && Level(opps, BoardOf(e), RowsOf(a)) {
      LateLevel(opps, c, e, a, k);
    }
    CallMore(c, calls, call);
    ChronicleMore(env, opps, calls, call);
    more := calls + [call];
  }

  function LastKickoff(opps: EventPath.Book, ids: seq<int>, limit: int): int
    requires forall i :: 0 <= i < |ids| ==> ids[i] in opps
  {
    if ids == [] then limit else opps[ids[|ids| - 1]].kickoff
  }

  lemma {:induction false} LateEachFollows(env: EventPath.Env, opps: EventPath.Book, c: Config,
                                           e: EventPath.Engine, calls: seq<Call>, limit: int, ids: seq<int>)
    returns (more: seq<Call>)
    requires EventInvariants.Keyed(opps) && Ended(env, opps, c, e, calls, limit) && Distinct(ids)
    requires forall i :: 0 <= i < |ids| ==>
               ids[i] in opps && ids[i] in e.pending && Late(opps, e, ids[i]) && limit <= opps[ids[i]].kickoff
    requires forall i, j :: 0 <= i < j < |ids| ==> opps[ids[i]].kickoff <= opps[ids[j]].kickoff
    ensures var r := EventPath.ExpireLateEach(e, ids);
            && Ended(env, opps, c, r, more, LastKickoff(opps, ids, limit))
            && forall j :: j in e.statuses && j !in ids ==> j in r.statuses && r.statuses[j] == e.statuses[j]
  {
    hide Ended;
    hide EventInvariants.Keyed;
    if ids == [] {
      more := calls;
    } else {
      var last := |ids| - 1;
      EventInvariants.ElementsLast(ids);
      more := LateEachFollows(env, opps, c, e, calls, limit, ids[..last]);
      var d := EventPath.ExpireLateEach(e, ids[..last]);
      assert ids[last] !in ids[..last];
      assert Late(opps, e, ids[last]);
      more := LateFollows(env, opps, c, d, more, LastKickoff(opps, ids[..last], limit), ids[last]);
    }
  }

  /** What waits after the last wake lies ahead of it, and expires in the order of kickoffs. */
  lemma LateInOrder(env: EventPath.Env, opps: EventPath.Book, e: EventPath.Engine, ids: seq<int>)
    requires EventInvariants.Inv(env, opps, e) && ids == Order(EventPath.FinalRanks(e))
    ensures forall i :: 0 <= i < |ids| ==>
              && ids[i] in opps && ids[i] in e.pending && Late(opps, e, ids[i])
              && e.lastAt.Some? && e.lastAt.value <= opps[ids[i]].kickoff
    ensures forall i, j :: 0 <= i < j < |ids| ==> opps[ids[i]].kickoff <= opps[ids[j]].kickoff
  {
    hide EventInvariants.Cash;
    hide EventInvariants.Clock;
    var ranks := EventPath.FinalRanks(e);
    forall i | 0 <= i < |ids|
      ensures Late(opps, e, ids[i]) && e.lastAt.Some? && e.lastAt.value <= opps[ids[i]].kickoff
      ensures ids[i] in ranks && ranks[ids[i]].instant == opps[ids[i]].kickoff
    {
      assert ids[i] in ranks;
    }
    forall i, j | 0 <= i < j < |ids|
      ensures opps[ids[i]].kickoff <= opps[ids[j]].kickoff
    {
      assert Before(ranks[ids[i]], ids[i], ranks[ids[j]], ids[j]);
    }
  }

  lemma LateExpiryFollows(env: EventPath.Env, opps: EventPath.Book, c: Config, e: EventPath.Engine, calls: seq<Call>)
    returns (more: seq<Call>, limit: int)
    requires Setting(env, opps, c) && Ended(env, opps, c, e, calls, e.lastAt.GetOr(0)) && EventInvariants.Inv(env, opps, e)
    ensures Ended(env, opps, c, EventPath.LateExpiry(e), more, limit)
  {
    hide Twin;
    hide OneMemory;
    hide Ended;
    hide Late;
    hide EventPath.Env.Valid;
    hide EventInvariants.Keyed;
    hide EventPath.ExpireLateEach;
    hide EventPath.FinalRanks;
    hide EventInvariants.Inv;
    var ids := Order(EventPath.FinalRanks(e));
    LateInOrder(env, opps, e, ids);
    more := LateEachFollows(env, opps, c, e, calls, e.lastAt.GetOr(0), ids);
    limit := LastKickoff(opps, ids, e.lastAt.GetOr(0));
  }

  lemma FinishFollows(env: EventPath.Env, opps: EventPath.Book, c: Config, e: EventPath.Engine, calls: seq<Call>)
    returns (more: seq<Call>, limit: int)
    requires Setting(env, opps, c) && Followed(env, opps, c, e, calls) && EventInvariants.Inv(env, opps, e)
    ensures Ended(env, opps, c, EventPath.Finish(e), more, limit)
  {
    hide Setting;
    hide Level;
    hide Chronicle;
    hide Run;
    hide OpsOf;
    hide EventPath.LateExpiry;
    hide EventInvariants.Inv;
    more, limit := LateExpiryFollows(env, opps, c, e, calls);
    var x := EventPath.LateExpiry(e);
    assert BoardOf(EventPath.Finish(e)) == BoardOf(x);
  }

  /** The same fate for every opportunity, and for each settled one a position with its result. */
  ghost predicate SameFates(opps: EventPath.Book, statuses: map<int, EventPath.Status>, a: Account) {
    forall k :: k in opps ==>
      && k in statuses && k in a.states && !a.states[k].Pending?
      && (a.states[k].Placed? <==> statuses[k] == EventPath.Settled)
      && (a.states[k].Placed? ==>
            && a.states[k].position in a.positions
            && a.positions[a.states[k].position].fate == if opps[k].Won() then SettledWin else SettledLoss)
  }

  lemma LevelFates(opps: EventPath.Book, e: EventPath.Engine, a: Account)
    requires Level(opps, BoardOf(e), RowsOf(a)) && EventCompletion.Complete(opps, e)
    ensures SameFates(opps, e.statuses, a)
  {
    hide OpenIds;
    forall k | k in opps
      ensures k in a.states && !a.states[k].Pending? && (a.states[k].Placed? <==> e.statuses[k] == EventPath.Settled)
    {
      assert Alike(opps, BoardOf(e), RowsOf(a), k);
    }
  }

  /**
    Every path of the engine is a run of the runtime: some sequence of calls in
    order of time, each offering an opportunity once it has executed or
    reporting a result once it is due, ends with the same money, the same memory
    and the same fate for every opportunity.
   */
  lemma RuntimeFollows(env: EventPath.Env, opps: EventPath.Book, c: Config) returns (calls: seq<Call>)
    requires env.Valid() && EventInvariants.Keyed(opps) && Twin(env, c) && OneMemory(c)
    ensures Chronicle(env, opps, calls)
    ensures var e, a := EventPath.Path(env, opps), Run(c, OpsOf(calls));
            || (c.restartable && e.ruined)
            || (&& a.equity == e.equity && a.reserved == e.reserved == 0.0 && a.state == e.state
                && (a.active <==> e.termination == Running) && SameFates(opps, e.statuses, a))
  {
    hide Level;
    hide Run;
    hide Chronicle;
    hide OpsOf;
    hide SameFates;
    hide EventPath.Finish;
    hide EventPath.Play;
    hide EventInvariants.Inv;
    hide Followed;
    var n := EventPath.Bound(opps);
    calls := PlayFollows(env, opps, c, n);
    EventInvariants.PlayInv(env, opps, n);
    var limit;
    calls, limit := FinishFollows(env, opps, c, EventPath.Play(env, opps, n), calls);
    EventCompletion.PathComplete(env, opps);
    var e, a := EventPath.Path(env, opps), Run(c, OpsOf(calls));
    if Level(opps, BoardOf(e), RowsOf(a)) {
      LevelFates(opps, e, a);
    }
  }
}

/**
  The persistent bankroll of football/capital/runtime.py: one configuration,
  its execution states and its positions. Each transaction is one atomic step.
  `Place` and `Settle` say what a step does to the stored rows; the class
  `Runtime` performs the steps on its fields.
 */
module Runtime {
  import opened Common
  import opened Policies
  import opened Decisions

  datatype Config = Config(policy: Policy, maxLanes: nat, initial: real, restartable: bool) {
    predicate Valid() {
      policy.Valid() && 0.0 < initial
    }
  }

  /** The evidence a placement is frozen on. */
  datatype Basis = Basis(action: Option<Side>, price: Option<Price>, observation: Option<int>, probability: real) {
    predicate Stakeable() {
      action.Some? && price.Some? && observation.Some?
    }
  }

  datatype Why =
    | Blocked(code: int)
    | NoBetTaken
    | NoExecutionPrice
    | NoDecision
    | ExpiredCapacity
    | MissedWindow
    | Ineligible

  datatype Execution =
    | Pending(basis: Basis)
    | Placed(basis: Basis, position: int)
    | NotPlaced(why: Why, evidence: Option<Basis>, at: int)

  datatype Fate = Open | SettledWin | SettledLoss | Void

  datatype Position = Position(
    matchId: int,
    basis: Basis,
    request: StakeRequest,
    stateBefore: PolicyState,
    stateAfter: PolicyState,
    fate: Fate,
    pnl: real)
  {
    predicate Stakeable() {
      basis.Stakeable()
    }
  }

  datatype Account = Account(
    active: bool,
    equity: real,
    reserved: real,
    peakEquity: real,
    peakReserved: real,
    drawdown: real,
    state: PolicyState,
    ruin: bool,
    termination: Termination,
    states: map<int, Execution>,
    positions: map<int, Position>,
    nextId: int)

  function Opening(c: Config): Account {
    Account(true, c.initial, 0.0, c.initial, 0.0, 0.0, c.policy.InitialState(), false, Running, map[], map[], 0)
  }

  datatype Fault = NegativeAvailableCash | ReservedExposureUnderflow | MatchMismatch | UnknownPosition
  datatype Outcome = NoWork | RefusedNow | Waiting | PlacedNow | SettledAs(fate: Fate) | Failed(fault: Fault)

  /** One call of place_candidate: the clock is read before and, for some configurations, again just before reserving. */
  datatype Attempt = Attempt(
    matchId: int, kickoff: int, decided: bool, offered: Basis, blocked: Option<int>, eventAt: int, at: int, later: int)

  /** A terminal result of one match; `void` for cancelled and abandoned matches. */
  datatype Observation = Observation(matchId: int, void: bool, outcome: Option<Side>)

  function OpenIds(positions: map<int, Position>): set<int> {
    set k | k in positions && positions[k].fate == Open
  }

  // ---- placing -------------------------------------------------------------------------

  /** Give a match its final zero-exposure state, whatever it was waiting for. */
  function Refuse(a: Account, matchId: int, why: Why, basis: Option<Basis>, at: int): Account {
    a.(states := a.states[matchId := NotPlaced(why, basis, at)])
  }

  /** The stored basis of a waiting match, or the one just offered. */
  function BasisOf(a: Account, t: Attempt): Basis {
    if t.matchId in a.states && a.states[t.matchId].Pending? then a.states[t.matchId].basis else t.offered
  }

  predicate Waits(a: Account, matchId: int) {
    matchId in a.states && a.states[matchId].Pending?
  }

  /** `_terminalize_pending` for a match that waits, `_terminal_state` for a new one. */
  function RefuseAs(a: Account, t: Attempt, waiting: Why, first: Why, basis: Option<Basis>, firstAt: int, waitingAt: int): (Account, Outcome) {
    if Waits(a, t.matchId) then (Refuse(a, t.matchId, waiting, Some(BasisOf(a, t)), waitingAt), RefusedNow)
    else (Refuse(a, t.matchId, first, basis, firstAt), RefusedNow)
  }

  /** Keep waiting, or start to. */
  function WaitFor(a: Account, t: Attempt): (Account, Outcome) {
    if Waits(a, t.matchId) then (a, NoWork)
    else (a.(states := a.states[t.matchId := Pending(t.offered)]), Waiting)
  }

  /** Everything that is decided before the policy is asked; None when it is to be asked. */
  function Screen(c: Config, a: Account, t: Attempt): Option<(Account, Outcome)> {
    var waits := Waits(a, t.matchId);
    var basis := BasisOf(a, t);
    if t.matchId in a.states && !waits then Some((a, NoWork))
    else if t.at >= t.kickoff && waits then Some(RefuseAs(a, t, ExpiredCapacity, ExpiredCapacity, None, t.at, t.at))
    else if t.blocked.Some? then
      Some(RefuseAs(a, t, Blocked(t.blocked.value), Blocked(t.blocked.value), None, t.at, t.at))
    else if !a.active then Some(RefuseAs(a, t, Ineligible, Ineligible, None, t.eventAt, t.at))
    else if !waits && !t.decided then Some((Refuse(a, t.matchId, NoDecision, None, t.eventAt), RefusedNow))
    else if basis.action.None? then
      Some((if waits then a else Refuse(a, t.matchId, NoBetTaken, Some(basis), t.eventAt), RefusedNow))
    else if basis.price.None? || basis.observation.None? then
      Some((if waits then a else Refuse(a, t.matchId, NoExecutionPrice, Some(basis), t.eventAt), RefusedNow))
    else if t.at >= t.kickoff then Some((Refuse(a, t.matchId, ExpiredCapacity, Some(basis), t.at), RefusedNow))
    else if |OpenIds(a.positions)| >= c.maxLanes then Some(WaitFor(a, t))
    else None
  }

  function RequestFor(c: Config, a: Account, basis: Basis): StakeRequest
    requires basis.Stakeable()
  {
    c.policy.Request(basis.price.value, basis.probability, a.equity, a.state)
  }

  /** Reserve the stake and record the position. */
  function OpenPosition(a: Account, t: Attempt, basis: Basis, request: StakeRequest): (Account, Outcome) {
    var reserved := a.reserved + request.applied;
    if reserved > a.equity then (a, Failed(NegativeAvailableCash))
    else
      (a.(reserved := reserved, peakReserved := Max(a.peakReserved, reserved),
          positions := a.positions[a.nextId := Position(t.matchId, basis, request, a.state, a.state, Open, 0.0)],
          nextId := a.nextId + 1,
          states := a.states[t.matchId := Placed(basis, a.nextId)]),
       PlacedNow)
  }

  /** What the policy's answer leads to. */
  function Answered(c: Config, a: Account, t: Attempt, basis: Basis, request: StakeRequest): (Account, Outcome) {
    if request.termination != Running then
      RefuseAs(a.(active := false, ruin := true, termination := request.termination), t, Ineligible, Ineligible,
               Some(basis), t.eventAt, t.at)
    else if request.requested <= 0.0 || request.applied <= 0.0 then
      RefuseAs(a, t, Ineligible, Ineligible, Some(basis), t.eventAt, t.at)
    else if request.requested > a.equity - a.reserved then WaitFor(a, t)
    else if c.restartable && t.later >= t.kickoff then
      RefuseAs(a, t, ExpiredCapacity, MissedWindow, Some(basis), t.later, t.later)
    else OpenPosition(a, t, basis, request)
  }

  function Place(c: Config, a: Account, t: Attempt): (Account, Outcome) {
    var screened := Screen(c, a, t);
    if screened.Some? then screened.value
    else Answered(c, a, t, BasisOf(a, t), RequestFor(c, a, BasisOf(a, t)))
  }

  // ---- settling ------------------------------------------------------------------------

  /** The request as it is rebuilt from the stored position. */
  function Rebuilt(r: StakeRequest): StakeRequest {
    r.(reason := NoReason, termination := Running)
  }

  function FateOf(p: Position, o: Observation): Fate {
    if o.void then Void else if p.basis.action == o.outcome then SettledWin else SettledLoss
  }

  function PnlOf(p: Position, o: Observation): real
    requires p.Stakeable()
  {
    if o.void then 0.0 else Pnl(p.request.applied, p.basis.price.value, FateOf(p, o) == SettledWin)
  }

  /** The policy memory after the settlement, starting from `before`. */
  function StateAfter(c: Config, p: Position, o: Observation, before: PolicyState): PolicyState {
    if o.void then before else c.policy.Settle(before, Rebuilt(p.request), FateOf(p, o) == SettledWin).0
  }

  /** Release the reserve, book the result and remember `state`. */
  function Book(c: Config, a: Account, id: int, o: Observation, state: PolicyState): Account
    requires id in a.positions && a.positions[id].Stakeable()
  {
    var p := a.positions[id];
    var equity := a.equity + PnlOf(p, o);
    var peak := Max(a.peakEquity, equity);
    var depleted := equity <= 0.0 && !c.restartable;
    a.(reserved := a.reserved - p.request.applied, equity := equity, state := state, peakEquity := peak,
       drawdown := if 0.0 < peak then Max(a.drawdown, (peak - equity) / peak) else a.drawdown,
       active := a.active && !depleted, ruin := a.ruin || depleted,
       termination := if depleted then BankrollDepleted else a.termination,
       positions := a.positions[id := p.(fate := FateOf(p, o), pnl := PnlOf(p, o), stateAfter := state)])
  }

  /** Every stored position was placed on a stakeable basis. */
  predicate Sane(a: Account) {
    forall k :: k in a.positions ==> a.positions[k].Stakeable()
  }

  /** One settlement that takes the policy memory to be `before`. */
  function SettleFrom(c: Config, a: Account, id: int, o: Observation, before: PolicyState): (Account, Outcome)
    requires Sane(a) && id in a.positions
  {
    var p := a.positions[id];
    if p.fate != Open then (a, NoWork)
    else if o.matchId != p.matchId then (a, Failed(MatchMismatch))
    else if a.reserved < p.request.applied then (a, Failed(ReservedExposureUnderflow))
    else (Book(c, a, id, o, StateAfter(c, p, o, before)), SettledAs(FateOf(p, o)))
  }

  /** The code settles from the memory stored when the position was placed. */
  function Settle(c: Config, a: Account, id: int, o: Observation): (Account, Outcome)
    requires Sane(a)
  {
    if id !in a.positions then (a, Failed(UnknownPosition))
    else SettleFrom(c, a, id, o, a.positions[id].stateBefore)
  }

  lemma PlaceSane(c: Config, a: Account, t: Attempt)
    requires Sane(a)
    ensures Sane(Place(c, a, t).0)
  {
  }

  lemma SettleSane(c: Config, a: Account, id: int, o: Observation)
    requires Sane(a)
    ensures Sane(Settle(c, a, id, o).0)
  {
  }

  // ---- the stored rows -----------------------------------------------------------------

  class Runtime {
    const config: Config
    var active: bool
    var equity: real
    var reserved: real
    var peakEquity: real
    var peakReserved: real
    var drawdown: real
    var state: PolicyState
    var ruin: bool
    var termination: Termination
    var states: map<int, Execution>
    var positions: map<int, Position>
    var nextId: int

    ghost function View(): Account
      reads this
    {
      Account(active, equity, reserved, peakEquity, peakReserved, drawdown, state, ruin, termination, states, positions, nextId)
    }

    constructor (c: Config)
      ensures config == c && View() == Opening(c)
    {
      config := c;
      active, equity, reserved, peakEquity, peakReserved, drawdown := true, c.initial, 0.0, c.initial, 0.0, 0.0;
      state, ruin, termination := c.policy.InitialState(), false, Running;
      states, positions, nextId := map[], map[], 0;
    }

    method Refusing(matchId: int, why: Why, basis: Option<Basis>, at: int)
      modifies this
      ensures View() == Refuse(old(View()), matchId, why, basis, at)
    {
      states := states[matchId := NotPlaced(why, basis, at)];
    }

    method RefusingAs(t: Attempt, waiting: Why, first: Why, basis: Option<Basis>, firstAt: int, waitingAt: int)
      returns (outcome: Outcome)
      modifies this
      ensures (View(), outcome) == RefuseAs(old(View()), t, waiting, first, basis, firstAt, waitingAt)
    {
      if t.matchId in states && states[t.matchId].Pending? {
        Refusing(t.matchId, waiting, Some(states[t.matchId].basis), waitingAt);
      } else {
        Refusing(t.matchId, first, basis, firstAt);
      }
      outcome := RefusedNow;
    }

    method WaitingFor(t: Attempt) returns (outcome: Outcome)
      modifies this
      ensures (View(), outcome) == WaitFor(old(View()), t)
    {
      if t.matchId in states && states[t.matchId].Pending? {
        outcome := NoWork;
      } else {
        states := states[t.matchId := Pending(t.offered)];
        outcome := Waiting;
      }
    }

    method OpenCount() returns (n: nat)
      ensures n == |OpenIds(positions)|
    {
      var ids := set k | k in positions && positions[k].fate == Open;
      assert ids == OpenIds(positions);
      n := |ids|;
    }

    method PlaceCandidate(t: Attempt) returns (outcome: Outcome)
      modifies this
      ensures (View(), outcome) == Place(config, old(View()), t)
    {
      var waits := false;
      var basis := t.offered;
      if t.matchId in states {
        if !states[t.matchId].Pending? {
          return NoWork;
        }
        waits := true;
        basis := states[t.matchId].basis;
      }
      if t.at >= t.kickoff && waits {
        outcome := RefusingAs(t, ExpiredCapacity, ExpiredCapacity, None, t.at, t.at);
        return;
      }
      if t.blocked.Some? {
        outcome := RefusingAs(t, Blocked(t.blocked.value), Blocked(t.blocked.value), None, t.at, t.at);
        return;
      }
      if !active {
        outcome := RefusingAs(t, Ineligible, Ineligible, None, t.eventAt, t.at);
        return;
      }
      if !waits && !t.decided {
        Refusing(t.matchId, NoDecision, None, t.eventAt);
        return RefusedNow;
      }
      if basis.action.None? {
        if !waits {
          Refusing(t.matchId, NoBetTaken, Some(basis), t.eventAt);
        }
        return RefusedNow;
      }
      if basis.price.None? || basis.observation.None? {
        if !waits {
          Refusing(t.matchId, NoExecutionPrice, Some(basis), t.eventAt);
        }
        return RefusedNow;
      }
      if t.at >= t.kickoff {
        Refusing(t.matchId, ExpiredCapacity, Some(basis), t.at);
        return RefusedNow;
      }
      var openCount := OpenCount();
      if openCount >= config.maxLanes {
        outcome := WaitingFor(t);
        return;
      }
      outcome := AskPolicy(t, basis);
    }

    method AskPolicy(t: Attempt, basis: Basis) returns (outcome: Outcome)
      requires basis.Stakeable()
      modifies this
      ensures (View(), outcome) == Answered(config, old(View()), t, basis, RequestFor(config, old(View()), basis))
    {
      hide Policy.Request;
      var request := config.policy.Request(basis.price.value, basis.probability, equity, state);
      if request.termination != Running {
        active, ruin, termination := false, true, request.termination;
        outcome := RefusingAs(t, Ineligible, Ineligible, Some(basis), t.eventAt, t.at);
      } else if request.requested <= 0.0 || request.applied <= 0.0 {
        outcome := RefusingAs(t, Ineligible, Ineligible, Some(basis), t.eventAt, t.at);
      } else if request.requested > equity - reserved {
        outcome := WaitingFor(t);
      } else if config.restartable && t.later >= t.kickoff {
        outcome := RefusingAs(t, ExpiredCapacity, MissedWindow, Some(basis), t.later, t.later);
      } else if reserved + request.applied > equity {
        outcome := Failed(NegativeAvailableCash);
      } else {
        reserved := reserved + request.applied;
        peakReserved := Max(peakReserved, reserved);
        positions := positions[nextId := Position(t.matchId, basis, request, state, state, Open, 0.0)];
        states := states[t.matchId := Placed(basis, nextId)];
        nextId := nextId + 1;
        outcome := PlacedNow;
      }
    }

    method SettlePosition(id: int, o: Observation) returns (outcome: Outcome)
      requires Sane(View())
      modifies this
      ensures (View(), outcome) == Settle(config, old(View()), id, o)
    {
      hide Policy.Settle;
      hide Book;
      if id !in positions {
        return Failed(UnknownPosition);
      }
      var p := positions[id];
      if p.fate != Open {
        return NoWork;
      }
      if o.matchId != p.matchId {
        return Failed(MatchMismatch);
      }
      var fate, pnl, after;
      if o.void {
        fate, pnl, after := Void, 0.0, p.stateBefore;
      } else {
        var won := p.basis.action == o.outcome;
        fate := if won then SettledWin else SettledLoss;
        pnl := if won then p.request.applied * (p.basis.price.value - 1.0) else -p.request.applied;
        after := config.policy.Settle(p.stateBefore, Rebuilt(p.request), won).0;
      }
      if reserved < p.request.applied {
        return Failed(ReservedExposureUnderflow);
      }
      Booking(id, o, fate, pnl, after);
      outcome := SettledAs(fate);
    }

    /** Release the reserve, book the result and store the settled position. */
    method Booking(id: int, ghost o: Observation, fate: Fate, pnl: real, after: PolicyState)
      requires Sane(View()) && id in positions && fate == FateOf(positions[id], o) && pnl == PnlOf(positions[id], o)
      modifies this
      ensures View() == Book(config, old(View()), id, o, after)
    {
      hide FateOf;
      hide PnlOf;
      hide Max;
      var p := positions[id];
      reserved := reserved - p.request.applied;
      equity := equity + pnl;
      state := after;
      peakEquity := Max(peakEquity, equity);
      if peakEquity > 0.0 {
        drawdown := Max(drawdown, (peakEquity - equity) / peakEquity);
      }
      if equity <= 0.0 && !config.restartable {
        active, ruin, termination := false, true, BankrollDepleted;
      }
      positions := positions[id := p.(fate := fate, pnl := pnl, stateAfter := after)];
    }
  }
}

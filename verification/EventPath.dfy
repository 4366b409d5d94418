/**
  The event-time capital path of football/experiments/capital_events.py as
  functions on values: what one wake does to the path, and the state that is
  reached after any number of wakes. `EventRun` proves the imperative form
  against these functions.
 */
module EventPath {
  import opened Common
  import opened Policies
  import opened Ordering

  const INITIAL: real := 100.0

  datatype Outcome = Home | Draw | Away

  datatype Action = Skip | Bet(selected: Outcome, price: real, probability: real)

  /** Instants are microseconds; of an identity only its place in the total order of identities matters. */
  datatype OpportunityRow = OpportunityRow(
    identity: int,
    kickoff: int,
    executionAt: int,
    action: Action,
    actual: Outcome)
  {
    predicate WellFormed() {
      action.Bet? ==> 1.0 < action.price && 0.0 <= action.probability <= 1.0
    }

    /** Best expected value first, then the earliest kickoff. */
    function Rank(): Rank
      requires action.Bet?
    {
      Ordering.Rank(-(action.probability * action.price - 1.0), kickoff)
    }

    predicate Won() {
      action.Bet? && actual == action.selected
    }
  }

  type Opportunity = o: OpportunityRow | o.WellFormed() witness OpportunityRow(0, 0, 0, Skip, Home)
  type Wager = o: OpportunityRow | o.WellFormed() && o.action.Bet? witness OpportunityRow(0, 0, 0, Bet(Home, 2.0, 0.5), Home)
  type Peak = x: real | 0.0 < x witness 1.0

  datatype Position = Position(settlementAt: int, opportunity: Wager, request: StakeRequest)

  datatype Status =
    | NotBet | Open | Settled | PendingCapacity | ExpiredCapacity | PathTerminated | PolicyTermination | ZeroStake
  {
    /** A status the path never revises. */
    predicate Final() {
      this != Open && this != PendingCapacity
    }
  }

  datatype Wait = NoAvailableLane | InsufficientCash(request: StakeRequest)

  datatype Kind =
    | Settlement(bet: StakeRequest, price: real, pnl: real, stateBefore: PolicyState, won: bool)
    | Expiry
    | NoBetSeen
    | Terminated(reason: Termination)
    | Retry
    | Waiting(wait: Wait)
    | Requested(bet: StakeRequest)
    | PolicyStopped(reason: Termination)
    | NoStake
    | Placement(bet: StakeRequest, settlementAt: int)

  datatype Event = Event(kind: Kind, at: int, identity: int, equity: real, reserved: real, state: PolicyState)

  datatype Env = Env(policy: Policy, maxLanes: int, lag: int) {
    predicate Valid() {
      policy.Valid() && 1 <= maxLanes && 0 < lag
    }

    /** The lag is in minutes, instants are in microseconds. */
    function SettlementAt(o: OpportunityRow): int {
      o.kickoff + lag * 60_000_000
    }
  }

  datatype Engine = Engine(
    equity: real,
    reserved: real,
    peak: Peak,
    drawdown: real,
    peakReserved: real,
    totalStaked: real,
    minCash: real,
    state: PolicyState,
    termination: Termination,
    ruined: bool,
    pending: map<int, Wager>,
    live: map<int, Position>,
    wakes: set<int>,
    statuses: map<int, Status>,
    ledger: seq<Event>,
    stakes: seq<real>,
    capHits: nat,
    underwaterAt: Option<int>,
    maxUnderwater: int,
    lastAt: Option<int>)

  type Book = map<int, Opportunity>

  function Start(env: Env, opps: Book): Engine {
    Engine(INITIAL, 0.0, INITIAL, 0.0, 0.0, 0.0, INITIAL, env.policy.InitialState(), Running, false,
           map[], map[], set k | k in opps :: opps[k].executionAt, map[], [], [], 0, None, 0, None)
  }

  function Record(e: Engine, kind: Kind, at: int, id: int): Engine {
    e.(ledger := e.ledger + [Event(kind, at, id, e.equity, e.reserved, e.state)])
  }

  /** The running extremes of the resource check. */
  function Observe(e: Engine): Engine {
    e.(minCash := Min(e.minCash, e.equity - e.reserved), peakReserved := Max(e.peakReserved, e.reserved))
  }

  // ---- settlement ------------------------------------------------------------

  function Track(e: Engine, at: int): Engine {
    var peak: Peak := if e.peak < e.equity then e.equity else e.peak;
    var since := if e.equity < peak && e.underwaterAt.None? then Some(at) else e.underwaterAt;
    var longest :=
      if since.Some? && e.maxUnderwater < at - since.value then at - since.value else e.maxUnderwater;
    e.(peak := peak,
       drawdown := Max(e.drawdown, (peak - e.equity) / peak),
       underwaterAt := if since.Some? && peak <= e.equity then None else since,
       maxUnderwater := longest)
  }

  /** Release the reserve of one position, then book its profit or loss. */
  function Realize(env: Env, e: Engine, id: int): Engine
    requires id in e.live
  {
    var p := e.live[id];
    var won := p.opportunity.Won();
    e.(live := e.live - {id},
       reserved := e.reserved - p.request.applied,
       state := env.policy.Settle(e.state, p.request, won).0,
       equity := e.equity + Pnl(p.request.applied, p.opportunity.action.price, won),
       statuses := e.statuses[id := Settled])
  }

  function SettlementKind(e: Engine, id: int): Kind
    requires id in e.live
  {
    var p := e.live[id];
    var won := p.opportunity.Won();
    Settlement(p.request, p.opportunity.action.price, Pnl(p.request.applied, p.opportunity.action.price, won), e.state, won)
  }

  function Deplete(e: Engine): Engine {
    if e.equity <= 0.0 then
      e.(ruined := true, termination := if e.termination == Running then BankrollDepleted else e.termination)
    else
      e
  }

  function SettleOne(env: Env, e: Engine, at: int, id: int): Engine
    requires id in e.live
  {
    Deplete(Observe(Record(Track(Realize(env, e, id), at), SettlementKind(e, id), e.live[id].settlementAt, id)))
  }

  ghost predicate Listed<T>(ids: seq<int>, rows: map<int, T>) {
    Distinct(ids) && forall i :: 0 <= i < |ids| ==> ids[i] in rows
  }

  ghost function SettleEach(env: Env, e: Engine, at: int, ids: seq<int>): (r: Engine)
    requires Listed(ids, e.live)
    ensures r.live == e.live - (set k | k in ids)
  {
    if ids == [] then e
    else
      var last := |ids| - 1;
      var r := SettleEach(env, e, at, ids[..last]);
      assert ids[last] !in ids[..last];
      SettleOne(env, r, at, ids[last])
  }

  function DueRanks(e: Engine, at: int): map<int, Rank> {
    map k | k in e.live && e.live[k].settlementAt <= at :: Ordering.Rank(0.0, e.live[k].settlementAt)
  }

  // ---- expiry and skipped opportunities ----------------------------------------

  /** Give an opportunity a final status and forget that it was waiting. */
  function Drop(e: Engine, kind: Kind, status: Status, at: int, id: int): Engine {
    Record(e.(pending := e.pending - {id}, statuses := e.statuses[id := status]), kind, at, id)
  }

  ghost function DropEach(e: Engine, kind: Kind, status: Status, at: int, ids: seq<int>): Engine {
    if ids == [] then e
    else Drop(DropEach(e, kind, status, at, ids[..|ids| - 1]), kind, status, at, ids[|ids| - 1])
  }

  function ExpiryRanks(e: Engine, at: int): map<int, Rank> {
    map k | k in e.pending && e.pending[k].kickoff <= at :: Ordering.Rank(0.0, 0)
  }

  function SkipRanks(arrivals: Book): map<int, Rank> {
    map k | k in arrivals && arrivals[k].action.Skip? :: Ordering.Rank(0.0, 0)
  }

  // ---- placement ---------------------------------------------------------------

  function RequestFor(env: Env, e: Engine, o: Wager): StakeRequest {
    env.policy.Request(o.action.price, o.action.probability, e.equity, e.state)
  }

  /** Keep an opportunity waiting for capacity. */
  function Hold(e: Engine, wait: Wait, at: int, o: Wager): Engine {
    Record(e.(pending := e.pending[o.identity := o], statuses := e.statuses[o.identity := PendingCapacity]),
           Waiting(wait), at, o.identity)
  }

  /** Reserve one stake. */
  function Commit(e: Engine, request: StakeRequest): Engine {
    e.(reserved := e.reserved + request.applied,
       totalStaked := e.totalStaked + request.applied,
       stakes := e.stakes + [request.applied],
       capHits := e.capHits + if request.capHit then 1 else 0)
  }

  /** Open the position and schedule its settlement. */
  function Enlist(env: Env, e: Engine, o: Wager, request: StakeRequest): Engine {
    e.(pending := e.pending - {o.identity},
       live := e.live[o.identity := Position(env.SettlementAt(o), o, request)],
       wakes := e.wakes + {env.SettlementAt(o)},
       statuses := e.statuses[o.identity := Open])
  }

  function OpenOne(env: Env, e: Engine, at: int, o: Wager, request: StakeRequest): Engine {
    Record(Observe(Enlist(env, Commit(e, request), o, request)), Placement(request, env.SettlementAt(o)), at, o.identity)
  }

  /** What the policy's answer does to an opportunity that has a free lane. */
  function Decide(env: Env, e: Engine, at: int, o: Wager, request: StakeRequest): Engine {
    if request.termination != Running then
      Drop(e.(termination := request.termination), PolicyStopped(request.termination), PolicyTermination, at, o.identity)
    else if request.requested <= 0.0 || request.applied <= 0.0 then
      Drop(e, NoStake, ZeroStake, at, o.identity)
    else if request.requested > e.equity - e.reserved then
      Hold(e, InsufficientCash(request), at, o)
    else
      OpenOne(env, e, at, o, request)
  }

  function NoteRetry(e: Engine, at: int, o: Wager): Engine {
    if o.identity in e.pending then Record(e, Retry, at, o.identity) else e
  }

  /** One opportunity's turn at one wake, given the policy's answer. */
  function PlaceWith(env: Env, e: Engine, at: int, o: Wager, request: StakeRequest): Engine {
    if e.termination != Running then
      Drop(e, Terminated(e.termination), PathTerminated, at, o.identity)
    else if o.kickoff <= at then
      Drop(e, Expiry, ExpiredCapacity, at, o.identity)
    else if |e.live| >= env.maxLanes then
      Hold(NoteRetry(e, at, o), NoAvailableLane, at, o)
    else
      Decide(env, Record(NoteRetry(e, at, o), Requested(request), at, o.identity), at, o, request)
  }

  /** The request is computed afresh at every turn, from the equity and policy memory of that moment. */
  function PlaceOne(env: Env, e: Engine, at: int, o: Wager): Engine {
    PlaceWith(env, e, at, o, RequestFor(env, e, o))
  }

  ghost function PlaceEach(env: Env, e: Engine, at: int, merged: map<int, Wager>, ids: seq<int>): Engine
    requires Listed(ids, merged)
  {
    if ids == [] then e
    else
      var last := |ids| - 1;
      PlaceOne(env, PlaceEach(env, e, at, merged, ids[..last]), at, merged[ids[last]])
  }

  function BetRanks(merged: map<int, Wager>): map<int, Rank> {
    map k | k in merged :: merged[k].Rank()
  }

  function IdentityRanks<T>(rows: map<int, T>): map<int, Rank> {
    map k | k in rows :: Ordering.Rank(0.0, 0)
  }

  // ---- one wake ----------------------------------------------------------------

  function Arrivals(opps: Book, at: int): Book {
    map k | k in opps && opps[k].executionAt == at :: opps[k]
  }

  /** Everything to be placed at one wake: what was waiting and what has just arrived. */
  function Merged(e: Engine, arrivals: Book): map<int, Wager> {
    e.pending + map k | k in arrivals && arrivals[k].action.Bet? :: arrivals[k]
  }

  function Wake(e: Engine, at: int): Engine {
    e.(wakes := e.wakes - {at}, lastAt := Some(at))
  }

  ghost function AfterSettlement(env: Env, e: Engine, at: int): Engine {
    SettleEach(env, e, at, Order(DueRanks(e, at)))
  }

  ghost function AfterExpiry(e: Engine, at: int): Engine {
    DropEach(e, Expiry, ExpiredCapacity, at, Order(ExpiryRanks(e, at)))
  }

  ghost function AfterSkips(e: Engine, at: int, arrivals: Book): Engine {
    DropEach(e, NoBetSeen, NotBet, at, Order(SkipRanks(arrivals)))
  }

  ghost function AfterPlacement(env: Env, e: Engine, at: int, arrivals: Book): Engine {
    var merged := Merged(e, arrivals);
    PlaceEach(env, e, at, merged, Order(BetRanks(merged)))
  }

  /** Once the path has stopped, nothing keeps waiting. */
  ghost function AfterFlush(e: Engine, at: int): Engine {
    if e.termination != Running then
      DropEach(e, Terminated(e.termination), PathTerminated, at, Order(IdentityRanks(e.pending)))
    else
      e
  }

  /** The state in which placement starts at one wake. */
  ghost function BeforePlacement(env: Env, e: Engine, at: int, arrivals: Book): Engine {
    AfterSkips(AfterExpiry(AfterSettlement(env, Wake(e, at), at), at), at, arrivals)
  }

  ghost function Step(env: Env, e: Engine, at: int, arrivals: Book): Engine {
    AfterFlush(AfterPlacement(env, BeforePlacement(env, e, at, arrivals), at, arrivals), at)
  }

  // ---- runs --------------------------------------------------------------------

  ghost predicate IsLeast(s: set<int>, x: int) {
    x in s && forall y :: y in s ==> x <= y
  }

  lemma {:induction false} LeastExists(s: set<int>)
    requires exists x :: x in s
    ensures exists x :: IsLeast(s, x)
    decreases |s|
  {
    var x :| x in s;
    var rest := s - {x};
    if exists y :: y in rest {
      LeastExists(rest);
      var y :| IsLeast(rest, y);
      var z := if x < y then x else y;
      assert forall w :: w in s ==> w == x || w in rest;
      assert IsLeast(s, z);
    } else {
      assert forall w :: w in s ==> w == x || w in rest;
      assert IsLeast(s, x);
    }
  }

  ghost function Least(s: set<int>): (x: int)
    requires exists x :: x in s
    ensures IsLeast(s, x)
  {
    LeastExists(s);
    var x :| IsLeast(s, x);
    x
  }

  ghost predicate Awake(e: Engine) {
    exists w :: w in e.wakes
  }

  ghost function Next(env: Env, opps: Book, e: Engine): Engine {
    if Awake(e) then Step(env, e, Least(e.wakes), Arrivals(opps, Least(e.wakes))) else e
  }

  /** The state after at most n wakes. */
  ghost function Play(env: Env, opps: Book, n: nat): Engine {
    if n == 0 then Start(env, opps) else Next(env, opps, Play(env, opps, n - 1))
  }

  function FinalRanks(e: Engine): map<int, Rank> {
    map k | k in e.pending :: Ordering.Rank(0.0, e.pending[k].kickoff)
  }

  /** What is still waiting when no wake is left expires at its own kickoff. */
  function ExpireLate(e: Engine, id: int): Engine
    requires id in e.pending
  {
    Record(e.(statuses := e.statuses[id := ExpiredCapacity]), Expiry, e.pending[id].kickoff, id)
  }

  ghost function ExpireLateEach(e: Engine, ids: seq<int>): (r: Engine)
    requires forall i :: 0 <= i < |ids| ==> ids[i] in e.pending
    ensures r.pending == e.pending
  {
    if ids == [] then e else ExpireLate(ExpireLateEach(e, ids[..|ids| - 1]), ids[|ids| - 1])
  }

  function CloseUnderwater(e: Engine): Engine {
    if e.underwaterAt.Some? && e.lastAt.Some? && e.maxUnderwater < e.lastAt.value - e.underwaterAt.value then
      e.(maxUnderwater := e.lastAt.value - e.underwaterAt.value)
    else
      e
  }

  ghost function LateExpiry(e: Engine): Engine {
    ExpireLateEach(e, Order(FinalRanks(e)))
  }

  ghost function Finish(e: Engine): Engine {
    CloseUnderwater(LateExpiry(e))
  }

  /** Enough wakes for every path over these opportunities to fall silent. */
  function Bound(opps: Book): nat {
    2 * |opps|
  }

  /** The complete path. */
  ghost function Path(env: Env, opps: Book): Engine {
    Finish(Play(env, opps, Bound(opps)))
  }
}

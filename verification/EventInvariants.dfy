/** What every wake of the event-time path keeps, and that the path falls silent. */
module EventInvariants {
  import opened Common
  import opened Policies
  import opened Ordering
  import opened Sums
  import opened EventPath

  // ---- cash --------------------------------------------------------------------

  function Stakes(live: map<int, Position>): map<int, real> {
    map k | k in live :: live[k].request.applied
  }

  ghost predicate Covered(p: Policy, r: StakeRequest) {
    0.0 < r.applied <= r.requested && (p.IsRecovery() ==> r.target.Some? && 0.0 < r.target.value && r.step.Some?)
  }

  /** The part of the engine that says what the path owns and owes. */
  datatype Money = Money(
    equity: real, reserved: real, peak: Peak, drawdown: real, minCash: real,
    state: PolicyState, live: map<int, Position>, ruined: bool, termination: Termination)

  function MoneyOf(e: Engine): Money {
    Money(e.equity, e.reserved, e.peak, e.drawdown, e.minCash, e.state, e.live, e.ruined, e.termination)
  }

  /** Reserves are exactly the open stakes and never exceed equity. */
  ghost predicate Solvent(policy: Policy, m: Money) {
    && m.reserved == Total(Stakes(m.live))
    && 0.0 <= m.reserved <= m.equity <= m.peak
    && INITIAL <= m.peak
    && 0.0 <= m.drawdown <= 1.0
    && 0.0 <= m.minCash
    && policy.Fits(m.state)
    && (forall k :: k in m.live ==> Covered(policy, m.live[k].request))
    && (m.ruined <==> m.equity == 0.0)
    && (m.termination == Running ==> 0.0 < m.equity)
    && (m.termination == BankrollDepleted ==> m.equity == 0.0)
    && m.termination != InsufficientCapital
  }

  ghost predicate Cash(env: Env, e: Engine) {
    Solvent(env.policy, MoneyOf(e))
  }

  lemma PnlBounds(applied: real, price: real, won: bool)
    requires 0.0 < applied && 1.0 < price
    ensures -applied <= Pnl(applied, price, won)
    ensures won ==> 0.0 < Pnl(applied, price, won)
  {
    ProductPositive(applied, price - 1.0);
  }

  lemma DrawdownBounds(peak: real, equity: real)
    requires 0.0 < peak && 0.0 <= equity <= peak
    ensures 0.0 <= (peak - equity) / peak <= 1.0
  {
  }

  lemma StakesRemove(live: map<int, Position>, id: int)
    requires id in live
    ensures Total(Stakes(live)) == live[id].request.applied + Total(Stakes(live - {id}))
  {
    TotalSplit(Stakes(live), id);
    assert Stakes(live) - {id} == Stakes(live - {id});
  }

  lemma StakesNonNegative(live: map<int, Position>)
    requires forall k :: k in live ==> 0.0 < live[k].request.applied
    ensures 0.0 <= Total(Stakes(live))
    ensures Total(Stakes(live)) == 0.0 ==> forall k :: k !in live
  {
    TotalNonNegative(Stakes(live));
    assert forall k :: k in live ==> Stakes(live)[k] <= Total(Stakes(live));
  }

  lemma StakesAdd(live: map<int, Position>, id: int, p: Position)
    requires id !in live
    ensures Total(Stakes(live[id := p])) == Total(Stakes(live)) + p.request.applied
  {
    TotalAdd(Stakes(live), id, p.request.applied);
    assert Stakes(live[id := p]) == Stakes(live)[id := p.request.applied];
  }

  lemma SettleOneCash(env: Env, e: Engine, at: int, id: int)
    requires env.Valid() && Cash(env, e) && id in e.live
    ensures Cash(env, SettleOne(env, e, at, id))
  {
    var p := e.live[id];
    PnlBounds(p.request.applied, p.opportunity.action.price, p.opportunity.Won());
    StakesRemove(e.live, id);
    var r := Realize(env, e, id);
    StakesNonNegative(r.live);
    SettleFits(env.policy, e.state, p.request, p.opportunity.Won());
    var t := Track(r, at);
    DrawdownBounds(t.peak, t.equity);
  }

  lemma OpenOneCash(env: Env, e: Engine, at: int, o: Wager, request: StakeRequest)
    requires env.Valid() && Cash(env, e) && o.identity !in e.live
    requires Covered(env.policy, request) && request.requested <= e.equity - e.reserved
    ensures Cash(env, OpenOne(env, e, at, o, request))
  {
    StakesAdd(e.live, o.identity, Position(env.SettlementAt(o), o, request));
  }

  lemma DecideCash(env: Env, e: Engine, at: int, o: Wager, request: StakeRequest)
    requires env.Valid() && Cash(env, e) && o.identity !in e.live
    requires Sound(env.policy, e.equity, request)
    ensures Cash(env, Decide(env, e, at, o, request))
  {
    hide OpenOne;
    if request.termination != Running {
      assert MoneyOf(Decide(env, e, at, o, request)) == MoneyOf(e).(termination := request.termination);
    } else if request.requested <= 0.0 || request.applied <= 0.0 || request.requested > e.equity - e.reserved {
      assert MoneyOf(Decide(env, e, at, o, request)) == MoneyOf(e);
    } else {
      OpenOneCash(env, e, at, o, request);
    }
  }

  lemma PlaceWithCash(env: Env, e: Engine, at: int, o: Wager, request: StakeRequest)
    requires env.Valid() && Cash(env, e) && o.identity !in e.live
    requires Sound(env.policy, e.equity, request)
    ensures Cash(env, PlaceWith(env, e, at, o, request))
  {
    hide Decide;
    hide Solvent;
    if e.termination == Running && at < o.kickoff && |e.live| < env.maxLanes {
      var d := Record(NoteRetry(e, at, o), Requested(request), at, o.identity);
      assert MoneyOf(d) == MoneyOf(e);
      DecideCash(env, d, at, o, request);
    } else {
      assert MoneyOf(PlaceWith(env, e, at, o, request)) == MoneyOf(e);
    }
  }

  // ---- books -------------------------------------------------------------------

  ghost predicate Keyed(opps: Book) {
    forall k :: k in opps ==> opps[k].identity == k
  }

  ghost predicate HasArrived(o: Opportunity, lastAt: Option<int>) {
    lastAt.Some? && o.executionAt <= lastAt.value
  }

  function PlacedIds(statuses: map<int, Status>): set<int> {
    set k | k in statuses && (statuses[k] == Open || statuses[k] == Settled)
  }

  /** The part of the engine that says where every opportunity stands. */
  datatype Desk = Desk(
    lastAt: Option<int>, statuses: map<int, Status>, live: map<int, Position>, pending: map<int, Wager>, placed: nat)

  function DeskOf(e: Engine): Desk {
    Desk(e.lastAt, e.statuses, e.live, e.pending, |e.stakes|)
  }

  /**
    Every opportunity that has arrived has one status, except those `arriving`
    that this wake has still to look at; open and waiting opportunities are
    exactly those with the matching status.
   */
  ghost predicate Books(env: Env, opps: Book, d: Desk, arriving: set<int>) {
    && (forall k :: k in d.statuses <==> k in opps && HasArrived(opps[k], d.lastAt) && k !in arriving)
    && (forall k :: k in d.live ==>
          && k in d.statuses && d.statuses[k] == Open && k in opps
          && d.live[k].opportunity == opps[k] && d.live[k].settlementAt == env.SettlementAt(opps[k]))
    && (forall k :: k in d.pending ==>
          k in d.statuses && d.statuses[k] == PendingCapacity && k in opps && d.pending[k] == opps[k])
    && (forall k :: k in d.statuses && d.statuses[k] == Open ==> k in d.live)
    && (forall k :: k in d.statuses && d.statuses[k] == PendingCapacity ==> k in d.pending)
    && d.placed == |PlacedIds(d.statuses)|
  }

  /** An opportunity that may still be decided: waiting, or arriving in this wake. */
  ghost predicate Undecided(opps: Book, d: Desk, arriving: set<int>, id: int) {
    id in d.pending || (id in arriving && id in opps && HasArrived(opps[id], d.lastAt))
  }

  lemma SettleBooks(env: Env, opps: Book, d: Desk, id: int, arriving: set<int>)
    requires Books(env, opps, d, arriving) && id in d.live
    ensures Books(env, opps, d.(live := d.live - {id}, statuses := d.statuses[id := Settled]), arriving)
  {
    assert PlacedIds(d.statuses[id := Settled]) == PlacedIds(d.statuses);
  }

  lemma DropBooks(env: Env, opps: Book, d: Desk, status: Status, id: int, arriving: set<int>)
    requires Books(env, opps, d, arriving) && Undecided(opps, d, arriving, id)
    requires status.Final() && status != Settled
    ensures Books(env, opps, d.(pending := d.pending - {id}, statuses := d.statuses[id := status]), arriving - {id})
  {
    assert PlacedIds(d.statuses[id := status]) == PlacedIds(d.statuses);
  }

  lemma HoldBooks(env: Env, opps: Book, d: Desk, o: Wager, arriving: set<int>)
    requires Books(env, opps, d, arriving) && Undecided(opps, d, arriving, o.identity)
    requires o.identity in opps && opps[o.identity] == o
    ensures Books(env, opps, d.(pending := d.pending[o.identity := o], statuses := d.statuses[o.identity := PendingCapacity]),
                  arriving - {o.identity})
  {
    assert PlacedIds(d.statuses[o.identity := PendingCapacity]) == PlacedIds(d.statuses);
  }

  lemma OpenBooks(env: Env, opps: Book, d: Desk, o: Wager, request: StakeRequest, arriving: set<int>)
    requires Books(env, opps, d, arriving) && Undecided(opps, d, arriving, o.identity)
    requires o.identity in opps && opps[o.identity] == o
    ensures var k := o.identity;
            Books(env, opps, Desk(d.lastAt, d.statuses[k := Open], d.live[k := Position(env.SettlementAt(o), o, request)],
                                  d.pending - {k}, d.placed + 1), arriving - {k})
  {
    assert o.identity !in PlacedIds(d.statuses);
    assert PlacedIds(d.statuses[o.identity := Open]) == PlacedIds(d.statuses) + {o.identity};
  }

  lemma DecideBooks(env: Env, opps: Book, e: Engine, at: int, o: Wager, request: StakeRequest, arriving: set<int>)
    requires Books(env, opps, DeskOf(e), arriving) && Undecided(opps, DeskOf(e), arriving, o.identity)
    requires o.identity in opps && opps[o.identity] == o
    ensures Books(env, opps, DeskOf(Decide(env, e, at, o, request)), arriving - {o.identity})
  {
    var id := o.identity;
    var d := DeskOf(e);
    if request.termination != Running {
      DropBooks(env, opps, d, PolicyTermination, id, arriving);
    } else if request.requested <= 0.0 || request.applied <= 0.0 {
      DropBooks(env, opps, d, ZeroStake, id, arriving);
    } else if request.requested > e.equity - e.reserved {
      HoldBooks(env, opps, d, o, arriving);
    } else {
      OpenBooks(env, opps, d, o, request, arriving);
    }
  }

  lemma PlaceWithBooks(env: Env, opps: Book, e: Engine, at: int, o: Wager, request: StakeRequest, arriving: set<int>)
    requires Books(env, opps, DeskOf(e), arriving) && Undecided(opps, DeskOf(e), arriving, o.identity)
    requires o.identity in opps && opps[o.identity] == o
    ensures Books(env, opps, DeskOf(PlaceWith(env, e, at, o, request)), arriving - {o.identity})
  {
    hide Decide;
    var id := o.identity;
    var d := DeskOf(e);
    if e.termination != Running {
      DropBooks(env, opps, d, PathTerminated, id, arriving);
    } else if o.kickoff <= at {
      DropBooks(env, opps, d, ExpiredCapacity, id, arriving);
    } else if |e.live| >= env.maxLanes {
      HoldBooks(env, opps, d, o, arriving);
    } else {
      var n := Record(NoteRetry(e, at, o), Requested(request), at, id);
      assert DeskOf(n) == d;
      DecideBooks(env, opps, n, at, o, request, arriving);
    }
  }

  // ---- clock -------------------------------------------------------------------

  /** Every wake lies ahead, and everything that will need a wake has one scheduled. */
  ghost predicate Clock(opps: Book, lastAt: Option<int>, wakes: set<int>) {
    && (forall w :: w in wakes && lastAt.Some? ==> lastAt.value < w)
    && (forall k :: k in opps && !HasArrived(opps[k], lastAt) ==> opps[k].executionAt in wakes)
  }

  ghost predicate Scheduled(live: map<int, Position>, wakes: set<int>) {
    forall k :: k in live ==> live[k].settlementAt in wakes
  }

  ghost predicate Hopeful(lastAt: Option<int>, pending: map<int, Wager>) {
    forall k :: k in pending ==> lastAt.Some? && lastAt.value < pending[k].kickoff
  }

  /** The invariant between two wakes. */
  ghost predicate Inv(env: Env, opps: Book, e: Engine) {
    && Cash(env, e)
    && Books(env, opps, DeskOf(e), {})
    && Clock(opps, e.lastAt, e.wakes)
    && Scheduled(e.live, e.wakes)
    && Hopeful(e.lastAt, e.pending)
    && |e.live| <= env.maxLanes
    && (e.termination != Running ==> e.pending.Keys == {})
  }

  lemma StartInv(env: Env, opps: Book)
    requires env.Valid()
    ensures Inv(env, opps, Start(env, opps))
  {
    var e := Start(env, opps);
    assert Stakes(e.live) == map[];
    assert PlacedIds(e.statuses) == {};
  }

  // ---- the phases of one wake ----------------------------------------------------

  /** The invariant inside a wake at `at`, once due positions are settled. */
  ghost predicate Mid(env: Env, opps: Book, e: Engine, at: int, arriving: set<int>) {
    && e.lastAt == Some(at)
    && Cash(env, e)
    && Books(env, opps, DeskOf(e), arriving)
    && Clock(opps, e.lastAt, e.wakes)
    && Scheduled(e.live, e.wakes)
    && |e.live| <= env.maxLanes
  }

  lemma WakeCash(env: Env, e: Engine, at: int)
    requires Cash(env, e)
    ensures Cash(env, Wake(e, at))
  {
    hide Solvent;
    assert MoneyOf(Wake(e, at)) == MoneyOf(e);
  }

  lemma ArrivedNext(opps: Book, lastAt: Option<int>, wakes: set<int>, at: int)
    requires Clock(opps, lastAt, wakes) && IsLeast(wakes, at)
    ensures forall k :: k in opps ==>
              (HasArrived(opps[k], Some(at)) <==> HasArrived(opps[k], lastAt) || opps[k].executionAt == at)
    ensures forall k :: k in opps && opps[k].executionAt == at ==> !HasArrived(opps[k], lastAt)
    ensures Clock(opps, Some(at), wakes - {at})
  {
    forall k | k in opps
      ensures HasArrived(opps[k], Some(at)) <==> HasArrived(opps[k], lastAt) || opps[k].executionAt == at
    {
      assert HasArrived(opps[k], lastAt) || opps[k].executionAt in wakes;
    }
  }

  lemma WakeBooks(env: Env, opps: Book, e: Engine, at: int)
    requires Inv(env, opps, e) && IsLeast(e.wakes, at)
    ensures Books(env, opps, DeskOf(Wake(e, at)), Arrivals(opps, at).Keys)
    ensures Clock(opps, Some(at), e.wakes - {at})
  {
    hide Cash;
    ArrivedNext(opps, e.lastAt, e.wakes, at);
    hide HasArrived;
    hide Clock;
  }

  lemma SettleOneKeeps(env: Env, opps: Book, e: Engine, at: int, id: int, arriving: set<int>)
    requires env.Valid() && id in e.live
    requires Cash(env, e) && Books(env, opps, DeskOf(e), arriving)
    ensures var r := SettleOne(env, e, at, id);
            && Cash(env, r) && Books(env, opps, DeskOf(r), arriving)
            && r.wakes == e.wakes && r.lastAt == e.lastAt && r.pending == e.pending
  {
    hide Cash;
    SettleOneCash(env, e, at, id);
    SettleBooks(env, opps, DeskOf(e), id, arriving);
  }

  lemma {:induction false} SettleEachKeeps(env: Env, opps: Book, e: Engine, at: int, ids: seq<int>, arriving: set<int>)
    requires env.Valid() && Listed(ids, e.live)
    requires Cash(env, e) && Books(env, opps, DeskOf(e), arriving)
    ensures var r := SettleEach(env, e, at, ids);
            && Cash(env, r) && Books(env, opps, DeskOf(r), arriving)
            && r.wakes == e.wakes && r.lastAt == e.lastAt && r.pending == e.pending
  {
    hide Cash;
    hide Books;
    hide SettleOne;
    if ids != [] {
      var last := |ids| - 1;
      SettleEachKeeps(env, opps, e, at, ids[..last], arriving);
      assert ids[last] !in ids[..last];
      SettleOneKeeps(env, opps, SettleEach(env, e, at, ids[..last]), at, ids[last], arriving);
    }
  }

  function Elements(ids: seq<int>): set<int> {
    set k | k in ids
  }

  lemma RemainingScheduled(e: Engine, at: int, r: Engine)
    requires IsLeast(e.wakes, at) && Scheduled(e.live, e.wakes)
    requires r.live == e.live - Elements(Order(DueRanks(Wake(e, at), at))) && r.wakes == e.wakes - {at}
    ensures Scheduled(r.live, r.wakes) && |r.live| <= |e.live|
  {
    var ids := Order(DueRanks(Wake(e, at), at));
    forall k | k in r.live
      ensures r.live[k].settlementAt in r.wakes
    {
      assert k !in ids;
      assert k !in DueRanks(Wake(e, at), at);
    }
    Fewer(e.live, Elements(ids));
  }

  lemma AfterSettlementMid(env: Env, opps: Book, e: Engine, at: int)
    requires env.Valid() && Inv(env, opps, e) && IsLeast(e.wakes, at)
    ensures var r := AfterSettlement(env, Wake(e, at), at);
            Mid(env, opps, r, at, Arrivals(opps, at).Keys) && r.pending == e.pending
  {
    var w := Wake(e, at);
    var ids := Order(DueRanks(w, at));
    WakeBooks(env, opps, e, at);
    WakeCash(env, e, at);
    hide Cash;
    hide Books;
    hide Clock;
    hide SettleEach;
    SettleEachKeeps(env, opps, w, at, ids, Arrivals(opps, at).Keys);
    RemainingScheduled(e, at, AfterSettlement(env, w, at));
  }

  lemma Fewer<T>(m: map<int, T>, gone: set<int>)
    ensures |m - gone| <= |m|
  {
    SubsetSize((m - gone).Keys, m.Keys);
    assert |m - gone| == |(m - gone).Keys| && |m| == |m.Keys|;
  }

  lemma ElementsLast(ids: seq<int>)
    requires Distinct(ids) && ids != []
    ensures var last := |ids| - 1;
            && Elements(ids) == Elements(ids[..last]) + {ids[last]}
            && ids[last] !in ids[..last] && Distinct(ids[..last])
  {
    var last := |ids| - 1;
    forall k | k in ids ensures k in ids[..last] || k == ids[last] {
      var i :| 0 <= i < |ids| && ids[i] == k;
      if i < last { assert ids[..last][i] == k; }
    }
  }

  lemma DropMid(env: Env, opps: Book, e: Engine, kind: Kind, status: Status, at: int, id: int, arriving: set<int>)
    requires Mid(env, opps, e, at, arriving) && Undecided(opps, DeskOf(e), arriving, id)
    requires status.Final() && status != Settled
    ensures Mid(env, opps, Drop(e, kind, status, at, id), at, arriving - {id})
  {
    DropBooks(env, opps, DeskOf(e), status, id, arriving);
  }

  /** Dropping touches only what waits, the statuses and the ledger. */
  lemma {:induction false} DropEachFrame(e: Engine, kind: Kind, status: Status, at: int, ids: seq<int>)
    requires Distinct(ids)
    ensures var r := DropEach(e, kind, status, at, ids);
            r == e.(pending := e.pending - Elements(ids), statuses := r.statuses, ledger := r.ledger)
  {
    if ids == [] {
      assert e.pending - Elements(ids) == e.pending;
    } else {
      var last := |ids| - 1;
      ElementsLast(ids);
      DropEachFrame(e, kind, status, at, ids[..last]);
      assert e.pending - Elements(ids[..last]) - {ids[last]} == e.pending - Elements(ids);
    }
  }

  lemma {:induction false} DropEachMid(env: Env, opps: Book, e: Engine, kind: Kind, status: Status, at: int,
                                       ids: seq<int>, arriving: set<int>)
    requires Mid(env, opps, e, at, arriving)
    requires Distinct(ids) && forall k :: k in Elements(ids) ==> Undecided(opps, DeskOf(e), arriving, k)
    requires status.Final() && status != Settled
    ensures Mid(env, opps, DropEach(e, kind, status, at, ids), at, arriving - Elements(ids))
  {
    hide Mid;
    hide Drop;
    if ids == [] {
      assert arriving - Elements(ids) == arriving;
    } else {
      var last := |ids| - 1;
      ElementsLast(ids);
      DropEachMid(env, opps, e, kind, status, at, ids[..last], arriving);
      DropEachFrame(e, kind, status, at, ids[..last]);
      var d := DropEach(e, kind, status, at, ids[..last]);
      var before := Elements(ids[..last]);
      assert Undecided(opps, DeskOf(d), arriving - before, ids[last]) by {
        assert ids[last] in Elements(ids);
      }
      DropMid(env, opps, d, kind, status, at, ids[last], arriving - before);
      assert arriving - before - {ids[last]} == arriving - Elements(ids);
    }
  }

  function Bets(arrivals: Book): set<int> {
    set k | k in arrivals && arrivals[k].action.Bet?
  }

  lemma AfterExpiryMid(env: Env, opps: Book, e: Engine, at: int, arriving: set<int>)
    requires Mid(env, opps, e, at, arriving)
    ensures Mid(env, opps, AfterExpiry(e, at), at, arriving)
    ensures AfterExpiry(e, at).pending == map k | k in e.pending && at < e.pending[k].kickoff :: e.pending[k]
  {
    hide Mid;
    hide DropEach;
    var expired := Order(ExpiryRanks(e, at));
    forall k ensures k in Elements(expired) <==> k in e.pending && e.pending[k].kickoff <= at {
      assert k in expired <==> k in ExpiryRanks(e, at);
    }
    WaitingMid(env, opps, e, Expiry, ExpiredCapacity, at, expired, arriving);
    DropEachFrame(e, Expiry, ExpiredCapacity, at, expired);
  }

  /** Dropping opportunities that wait leaves the arriving ones alone. */
  lemma WaitingMid(env: Env, opps: Book, e: Engine, kind: Kind, status: Status, at: int, ids: seq<int>, arriving: set<int>)
    requires Mid(env, opps, e, at, arriving)
    requires Distinct(ids) && forall k :: k in Elements(ids) ==> k in e.pending
    requires status.Final() && status != Settled
    ensures Mid(env, opps, DropEach(e, kind, status, at, ids), at, arriving)
  {
    hide DropEach;
    forall k | k in Elements(ids) ensures k !in arriving {
      assert k in e.statuses;
    }
    assert arriving - Elements(ids) == arriving;
    DropEachMid(env, opps, e, kind, status, at, ids, arriving);
  }

  lemma AfterSkipsMid(env: Env, opps: Book, e: Engine, at: int, arrivals: Book)
    requires Mid(env, opps, e, at, arrivals.Keys) && arrivals == Arrivals(opps, at)
    ensures Mid(env, opps, AfterSkips(e, at, arrivals), at, Bets(arrivals))
    ensures AfterSkips(e, at, arrivals).pending == e.pending
  {
    assert e.lastAt == Some(at);
    hide Mid;
    hide DropEach;
    var skipped := Order(SkipRanks(arrivals));
    forall k ensures k in Elements(skipped) <==> k in arrivals && arrivals[k].action.Skip? {
      assert k in skipped <==> k in SkipRanks(arrivals);
    }
    assert arrivals.Keys - Elements(skipped) == Bets(arrivals);
    forall k | k in Elements(skipped) ensures Undecided(opps, DeskOf(e), arrivals.Keys, k) {
      assert k in arrivals && arrivals[k].executionAt == at;
    }
    DropEachMid(env, opps, e, NoBetSeen, NotBet, at, skipped, arrivals.Keys);
    DropEachFrame(e, NoBetSeen, NotBet, at, skipped);
    NotWaiting(env, opps, e, at, arrivals.Keys, Elements(skipped));
  }

  lemma NotWaiting(env: Env, opps: Book, e: Engine, at: int, arriving: set<int>, ids: set<int>)
    requires Mid(env, opps, e, at, arriving) && ids <= arriving
    ensures e.pending - ids == e.pending
  {
    forall k | k in e.pending ensures k !in ids {
      assert k in e.statuses;
    }
  }

  lemma BeforePlacementMid(env: Env, opps: Book, e: Engine, at: int)
    requires env.Valid() && Inv(env, opps, e) && IsLeast(e.wakes, at)
    ensures var arrivals := Arrivals(opps, at);
            var r := BeforePlacement(env, e, at, arrivals);
            && Mid(env, opps, r, at, Bets(arrivals))
            && Hopeful(r.lastAt, r.pending)
            && r.pending == map k | k in e.pending && at < e.pending[k].kickoff :: e.pending[k]
  {
    hide AfterSettlement;
    hide AfterExpiry;
    hide AfterSkips;
    var arrivals := Arrivals(opps, at);
    AfterSettlementMid(env, opps, e, at);
    var s := AfterSettlement(env, Wake(e, at), at);
    AfterExpiryMid(env, opps, s, at, arrivals.Keys);
    AfterSkipsMid(env, opps, AfterExpiry(s, at), at, arrivals);
  }

  /** A turn changes nothing but its own opportunity, and adds at most a wake that lies ahead. */
  ghost predicate Turn(env: Env, e: Engine, r: Engine, at: int, o: Wager, request: StakeRequest) {
    && r.lastAt == e.lastAt
    && (if r.live == e.live then r.wakes == e.wakes else
        && |e.live| < env.maxLanes && at < o.kickoff
        && r.wakes == e.wakes + {env.SettlementAt(o)}
        && r.live == e.live[o.identity := Position(env.SettlementAt(o), o, request)])
    && r.pending - {o.identity} == e.pending - {o.identity}
    && (o.identity in r.pending ==> r.pending[o.identity] == o && at < o.kickoff)
  }

  lemma OpenTurn(env: Env, e: Engine, at: int, o: Wager, request: StakeRequest)
    requires o.identity !in e.live && at < o.kickoff && |e.live| < env.maxLanes
    ensures Turn(env, e, OpenOne(env, e, at, o, request), at, o, request)
  {
    var r := OpenOne(env, e, at, o, request);
    assert r.pending == e.pending - {o.identity};
    assert o.identity in r.live && r.live != e.live;
  }

  lemma StayTurn(env: Env, e: Engine, r: Engine, at: int, o: Wager, request: StakeRequest)
    requires r.lastAt == e.lastAt && r.live == e.live && r.wakes == e.wakes
    requires r.pending == e.pending - {o.identity} || (at < o.kickoff && r.pending == e.pending[o.identity := o])
    ensures Turn(env, e, r, at, o, request)
  {
    assert r.pending - {o.identity} == e.pending - {o.identity};
  }

  lemma DecideTurn(env: Env, e: Engine, at: int, o: Wager, request: StakeRequest)
    requires o.identity !in e.live && at < o.kickoff && |e.live| < env.maxLanes
    ensures Turn(env, e, Decide(env, e, at, o, request), at, o, request)
  {
    hide Turn;
    hide OpenOne;
    if request.termination == Running && 0.0 < request.requested && 0.0 < request.applied
       && request.requested <= e.equity - e.reserved {
      OpenTurn(env, e, at, o, request);
    } else {
      StayTurn(env, e, Decide(env, e, at, o, request), at, o, request);
    }
  }

  lemma PlaceWithTurn(env: Env, e: Engine, at: int, o: Wager, request: StakeRequest)
    requires o.identity !in e.live
    ensures Turn(env, e, PlaceWith(env, e, at, o, request), at, o, request)
  {
    hide Decide;
    if e.termination == Running && at < o.kickoff && |e.live| < env.maxLanes {
      DecideTurn(env, Record(NoteRetry(e, at, o), Requested(request), at, o.identity), at, o, request);
    } else {
      hide Turn;
      StayTurn(env, e, PlaceWith(env, e, at, o, request), at, o, request);
    }
  }

  lemma TurnClock(env: Env, opps: Book, e: Engine, r: Engine, at: int, o: Wager, request: StakeRequest)
    requires env.Valid() && Turn(env, e, r, at, o, request) && e.lastAt == Some(at)
    requires Clock(opps, e.lastAt, e.wakes) && Scheduled(e.live, e.wakes) && Hopeful(e.lastAt, e.pending)
    requires |e.live| <= env.maxLanes
    ensures Clock(opps, r.lastAt, r.wakes) && Scheduled(r.live, r.wakes) && Hopeful(r.lastAt, r.pending)
    ensures |r.live| <= env.maxLanes
  {
    forall k | k in r.pending ensures at < r.pending[k].kickoff {
      if k != o.identity {
        assert k in r.pending - {o.identity};
        assert k in e.pending && r.pending[k] == e.pending[k];
      }
    }
  }

  lemma PlaceWithMid(env: Env, opps: Book, e: Engine, at: int, o: Wager, request: StakeRequest, arriving: set<int>)
    requires env.Valid() && Mid(env, opps, e, at, arriving) && Hopeful(e.lastAt, e.pending)
    requires Undecided(opps, DeskOf(e), arriving, o.identity) && o.identity in opps && opps[o.identity] == o
    requires Sound(env.policy, e.equity, request)
    ensures var r := PlaceWith(env, e, at, o, request);
            && Mid(env, opps, r, at, arriving - {o.identity}) && Hopeful(r.lastAt, r.pending)
            && r.pending - {o.identity} == e.pending - {o.identity}
  {
    hide PlaceWith;
    hide Cash;
    assert o.identity !in e.live by {
      assert o.identity in e.statuses ==> e.statuses[o.identity] == PendingCapacity;
    }
    PlaceWithCash(env, e, at, o, request);
    PlaceWithBooks(env, opps, e, at, o, request, arriving);
    PlaceWithTurn(env, e, at, o, request);
    TurnClock(env, opps, e, PlaceWith(env, e, at, o, request), at, o, request);
  }

  lemma PlaceOneMid(env: Env, opps: Book, e: Engine, at: int, o: Wager, arriving: set<int>)
    requires env.Valid() && Mid(env, opps, e, at, arriving) && Hopeful(e.lastAt, e.pending)
    requires Undecided(opps, DeskOf(e), arriving, o.identity) && o.identity in opps && opps[o.identity] == o
    ensures var r := PlaceOne(env, e, at, o);
            && Mid(env, opps, r, at, arriving - {o.identity}) && Hopeful(r.lastAt, r.pending)
            && r.pending - {o.identity} == e.pending - {o.identity} && r.lastAt == e.lastAt
  {
    hide PlaceWith;
    hide Sound;
    RequestSound(env.policy, o.action.price, o.action.probability, e.equity, e.state);
    PlaceWithMid(env, opps, e, at, o, RequestFor(env, e, o), arriving);
  }

  lemma {:induction false} PlaceEachMid(env: Env, opps: Book, e: Engine, at: int, merged: map<int, Wager>,
                                        ids: seq<int>, arriving: set<int>)
    requires env.Valid() && Mid(env, opps, e, at, arriving) && Hopeful(e.lastAt, e.pending) && Keyed(opps)
    requires Listed(ids, merged)
    requires forall k :: k in merged ==> Undecided(opps, DeskOf(e), arriving, k) && k in opps && opps[k] == merged[k]
    ensures var r := PlaceEach(env, e, at, merged, ids);
            && Mid(env, opps, r, at, arriving - Elements(ids)) && Hopeful(r.lastAt, r.pending)
            && r.pending - Elements(ids) == e.pending - Elements(ids) && r.lastAt == e.lastAt
  {
    hide Mid;
    hide Hopeful;
    hide PlaceOne;
    if ids == [] {
      assert arriving - Elements(ids) == arriving;
    } else {
      var last := |ids| - 1;
      var id := ids[last];
      ElementsLast(ids);
      PlaceEachMid(env, opps, e, at, merged, ids[..last], arriving);
      var before := Elements(ids[..last]);
      var d := PlaceEach(env, e, at, merged, ids[..last]);
      assert Undecided(opps, DeskOf(d), arriving - before, id) by {
        if id in e.pending { assert id in e.pending - before; assert id in d.pending - before; }
      }
      PlaceOneMid(env, opps, d, at, merged[id], arriving - before);
      assert arriving - before - {id} == arriving - Elements(ids);
      MinusAgain(PlaceEach(env, e, at, merged, ids).pending, d.pending, e.pending, before, id);
    }
  }

  lemma MinusAgain<T>(r: map<int, T>, d: map<int, T>, e: map<int, T>, before: set<int>, id: int)
    requires r - {id} == d - {id} && d - before == e - before
    ensures r - (before + {id}) == e - (before + {id})
  {
    assert r - (before + {id}) == r - {id} - before;
    assert d - (before + {id}) == d - {id} - before == d - before - {id};
    assert e - (before + {id}) == e - before - {id};
  }

  lemma AfterPlacementMid(env: Env, opps: Book, e: Engine, at: int)
    requires env.Valid() && Inv(env, opps, e) && IsLeast(e.wakes, at) && Keyed(opps)
    ensures var arrivals := Arrivals(opps, at);
            var r := AfterPlacement(env, BeforePlacement(env, e, at, arrivals), at, arrivals);
            Mid(env, opps, r, at, {}) && Hopeful(r.lastAt, r.pending)
  {
    hide BeforePlacement;
    hide PlaceEach;
    var arrivals := Arrivals(opps, at);
    BeforePlacementMid(env, opps, e, at);
    var b := BeforePlacement(env, e, at, arrivals);
    var merged := Merged(b, arrivals);
    var ids := Order(BetRanks(merged));
    PlaceEachMid(env, opps, b, at, merged, ids, Bets(arrivals));
    assert Bets(arrivals) - Elements(ids) == {};
  }

  lemma StepInv(env: Env, opps: Book, e: Engine, at: int)
    requires env.Valid() && Inv(env, opps, e) && IsLeast(e.wakes, at) && Keyed(opps)
    ensures Inv(env, opps, Step(env, e, at, Arrivals(opps, at)))
    ensures Step(env, e, at, Arrivals(opps, at)).lastAt == Some(at)
  {
    hide BeforePlacement;
    hide AfterPlacement;
    hide DropEach;
    hide Cash;
    hide Books;
    var arrivals := Arrivals(opps, at);
    AfterPlacementMid(env, opps, e, at);
    var p := AfterPlacement(env, BeforePlacement(env, e, at, arrivals), at, arrivals);
    if p.termination != Running {
      var ids := Order(IdentityRanks(p.pending));
      DropEachMid(env, opps, p, Terminated(p.termination), PathTerminated, at, ids, {});
      DropEachFrame(p, Terminated(p.termination), PathTerminated, at, ids);
      assert {} - Elements(ids) == {};
    }
  }

  lemma NextInv(env: Env, opps: Book, e: Engine)
    requires env.Valid() && Keyed(opps) && Inv(env, opps, e)
    ensures Inv(env, opps, Next(env, opps, e))
  {
    hide Inv;
    hide Step;
    if Awake(e) { StepInv(env, opps, e, Least(e.wakes)); }
  }

  /** Every reachable state of every path satisfies the invariant. */
  lemma {:induction false} PlayInv(env: Env, opps: Book, n: nat)
    requires env.Valid() && Keyed(opps)
    ensures Inv(env, opps, Play(env, opps, n))
  {
    hide Inv;
    hide Next;
    if n == 0 {
      StartInv(env, opps);
    } else {
      PlayInv(env, opps, n - 1);
      NextInv(env, opps, Play(env, opps, n - 1));
    }
  }

  /** What placement at one wake works on, wherever the wake has got to. */
  ghost predicate Placing(env: Env, opps: Book, e: Engine, at: int, arriving: set<int>, merged: map<int, Wager>) {
    && env.Valid() && Keyed(opps)
    && Mid(env, opps, e, at, arriving) && Hopeful(e.lastAt, e.pending)
    && forall k :: k in merged ==> Undecided(opps, DeskOf(e), arriving, k) && k in opps && opps[k] == merged[k]
  }

  /** At every turn the cash invariant holds and the opportunity is not open. */
  lemma TurnReady(env: Env, opps: Book, e: Engine, at: int, arriving: set<int>, merged: map<int, Wager>, ids: seq<int>, i: nat)
    requires Placing(env, opps, e, at, arriving, merged) && Listed(ids, merged) && i < |ids|
    ensures Listed(ids[..i], merged)
    ensures var d := PlaceEach(env, e, at, merged, ids[..i]);
            Cash(env, d) && merged[ids[i]].identity !in d.live
  {
    hide Cash;
    var id := ids[i];
    assert ids[..i + 1][..i] == ids[..i];
    ElementsLast(ids[..i + 1]);
    PlaceEachMid(env, opps, e, at, merged, ids[..i], arriving);
    StillUndecided(env, opps, e, PlaceEach(env, e, at, merged, ids[..i]), at, arriving, ids[..i], id);
  }

  lemma StillUndecided(env: Env, opps: Book, e: Engine, d: Engine, at: int, arriving: set<int>, before: seq<int>, id: int)
    requires Undecided(opps, DeskOf(e), arriving, id) && id !in before
    requires Mid(env, opps, d, at, arriving - Elements(before))
    requires d.pending - Elements(before) == e.pending - Elements(before)
    ensures id !in d.live
  {
    hide Cash;
    hide Clock;
    if id in e.pending {
      assert id in e.pending - Elements(before);
      assert id in d.pending;
      assert id in d.statuses && d.statuses[id] == PendingCapacity;
    } else {
      assert id !in d.statuses;
    }
  }

  lemma MergedPlacing(env: Env, opps: Book, e: Engine, at: int, arrivals: Book)
    requires env.Valid() && Keyed(opps) && arrivals == Arrivals(opps, at)
    requires Mid(env, opps, e, at, Bets(arrivals)) && Hopeful(e.lastAt, e.pending)
    ensures Placing(env, opps, e, at, Bets(arrivals), Merged(e, arrivals))
  {
    hide Cash;
    hide Clock;
  }
}

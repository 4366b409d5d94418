/**
  What the ledger of every event-time path says of its bets: what each placement
  reserves and schedules, when and how it is settled, and in which order.
 */
module EventLedger {
  import opened Common
  import opened Policies
  import opened Ordering
  import opened EventPath
  import opened EventInvariants
  import opened EventCompletion

  /** A bet is settled so many minutes after its kickoff; instants are microseconds. */
  function Due(o: OpportunityRow, lag: int): int {
    o.kickoff + lag * 60 * 1_000_000
  }

  // ---- what is staked --------------------------------------------------------------------

  /** The stakes of all placements, in order. */
  function Applied(rows: seq<Event>): seq<real> {
    if rows == [] then []
    else
      var last := rows[|rows| - 1].kind;
      Applied(rows[..|rows| - 1]) + if last.Placement? then [last.bet.applied] else []
  }

  function Sum(stakes: seq<real>): real {
    if stakes == [] then 0.0 else Sum(stakes[..|stakes| - 1]) + stakes[|stakes| - 1]
  }

  /** How many placements were capped. */
  function Capped(rows: seq<Event>): nat {
    if rows == [] then 0
    else
      var last := rows[|rows| - 1].kind;
      Capped(rows[..|rows| - 1]) + if last.Placement? && last.bet.capHit then 1 else 0
  }

  ghost predicate Totals(e: Engine) {
    e.stakes == Applied(e.ledger) && e.totalStaked == Sum(e.stakes) && e.capHits == Capped(e.ledger)
  }

  // ---- placements and settlements --------------------------------------------------------

  /** Row `p` opens the position: it reserves its stake and fixes when it is due. */
  ghost predicate Opens(env: Env, opps: Book, rows: seq<Event>, p: int, id: int, x: Position) {
    && 0 <= p < |rows| && rows[p].kind.Placement? && rows[p].identity == id && id in opps && x.opportunity == opps[id]
    && rows[p].kind.bet == x.request && rows[p].kind.settlementAt == x.settlementAt == Due(opps[id], env.lag)
  }

  ghost predicate LiveOpened(env: Env, opps: Book, rows: seq<Event>, live: map<int, Position>) {
    forall k :: k in live ==> exists p :: Opens(env, opps, rows, p, k, live[k])
  }

  /** A won stake earns its odds, a lost one is gone. */
  predicate Pays(applied: real, price: real, won: bool, pnl: real) {
    if won then pnl == applied * (price - 1.0) else pnl == -applied
  }

  /** Row `i` settles what row `p` placed: when it is due, by the result of the match, and the policy learns it. */
  ghost predicate Closes(env: Env, opps: Book, rows: seq<Event>, p: int, i: int) {
    && 0 <= p < i < |rows| && rows[p].kind.Placement? && rows[i].kind.Settlement? && rows[p].identity == rows[i].identity
    && rows[i].identity in opps && opps[rows[i].identity].action.Bet?
    && var o, s := opps[rows[i].identity], rows[i].kind;
       && rows[i].at == Due(o, env.lag) && s.bet == rows[p].kind.bet && s.price == o.action.price
       && (s.won <==> o.actual == o.action.selected) && Pays(s.bet.applied, s.price, s.won, s.pnl)
       && rows[i].state == env.policy.Settle(s.stateBefore, s.bet, s.won).0
  }

  ghost predicate AllClose(env: Env, opps: Book, rows: seq<Event>) {
    forall i :: 0 <= i < |rows| && rows[i].kind.Settlement? ==> exists p :: Closes(env, opps, rows, p, i)
  }

  predicate Earlier(at: int, id: int, later: int, other: int) {
    at < later || (at == later && id < other)
  }

  /** Settlements stand in order of time, and of identity at one instant. */
  ghost predicate InOrder(rows: seq<Event>) {
    forall i, j :: 0 <= i < j < |rows| && rows[i].kind.Settlement? && rows[j].kind.Settlement? ==>
      Earlier(rows[i].at, rows[i].identity, rows[j].at, rows[j].identity)
  }

  /** What is open is due after all that has been settled. */
  ghost predicate OpenLater(rows: seq<Event>, live: map<int, Position>) {
    forall i, k :: 0 <= i < |rows| && rows[i].kind.Settlement? && k in live ==>
      Earlier(rows[i].at, rows[i].identity, live[k].settlementAt, k)
  }

  ghost predicate SettledBy(rows: seq<Event>, lastAt: Option<int>) {
    forall i :: 0 <= i < |rows| && rows[i].kind.Settlement? ==> lastAt.Some? && rows[i].at <= lastAt.value
  }

  /** Every placement is settled later, or still open. */
  ghost predicate Accounted(rows: seq<Event>, live: map<int, Position>) {
    forall p :: 0 <= p < |rows| && rows[p].kind.Placement? && rows[p].identity !in live ==> SettledLater(rows, p)
  }

  ghost predicate SettledLater(rows: seq<Event>, p: int)
    requires 0 <= p < |rows|
  {
    exists i :: p < i < |rows| && rows[i].kind.Settlement? && rows[i].identity == rows[p].identity
  }

  ghost predicate Told(env: Env, opps: Book, e: Engine) {
    && Totals(e) && Accounted(e.ledger, e.live) && LiveOpened(env, opps, e.ledger, e.live) && AllClose(env, opps, e.ledger)
    && InOrder(e.ledger) && OpenLater(e.ledger, e.live) && SettledBy(e.ledger, e.lastAt)
  }

  // ---- one more row ----------------------------------------------------------------------

  lemma AppliedMore(rows: seq<Event>, v: Event)
    ensures Applied(rows + [v]) == Applied(rows) + if v.kind.Placement? then [v.kind.bet.applied] else []
    ensures Capped(rows + [v]) == Capped(rows) + if v.kind.Placement? && v.kind.bet.capHit then 1 else 0
  {
    assert (rows + [v])[..|rows|] == rows;
  }

  lemma SumMore(stakes: seq<real>, x: real)
    ensures Sum(stakes + [x]) == Sum(stakes) + x
  {
    assert (stakes + [x])[..|stakes|] == stakes;
  }

  lemma OpensMore(env: Env, opps: Book, rows: seq<Event>, v: Event, live: map<int, Position>)
    requires LiveOpened(env, opps, rows, live)
    ensures LiveOpened(env, opps, rows + [v], live)
  {
    forall k | k in live
      ensures exists p :: Opens(env, opps, rows + [v], p, k, live[k])
    {
      var p :| Opens(env, opps, rows, p, k, live[k]);
      assert (rows + [v])[p] == rows[p];
      assert Opens(env, opps, rows + [v], p, k, live[k]);
    }
  }

  lemma ClosesMore(env: Env, opps: Book, rows: seq<Event>, v: Event)
    requires AllClose(env, opps, rows)
    requires v.kind.Settlement? ==> exists p :: Closes(env, opps, rows + [v], p, |rows|)
    ensures AllClose(env, opps, rows + [v])
  {
    forall i | 0 <= i < |rows| && rows[i].kind.Settlement?
      ensures exists p :: Closes(env, opps, rows + [v], p, i)
    {
      var p :| Closes(env, opps, rows, p, i);
      SameClose(env, opps, rows, v, p, i);
    }
    hide Closes;
  }

  lemma AccountedMore(rows: seq<Event>, v: Event, live: map<int, Position>, after: map<int, Position>)
    requires Accounted(rows, live) && (v.kind.Placement? ==> v.identity in after)
    requires forall k :: k in live ==> k in after || (v.kind.Settlement? && v.identity == k)
    ensures Accounted(rows + [v], after)
  {
    var more := rows + [v];
    forall p | 0 <= p < |more| && more[p].kind.Placement? && more[p].identity !in after
      ensures SettledLater(more, p)
    {
      assert more[p] == rows[p];
      if rows[p].identity in live {
        assert more[|rows|] == v;
      } else {
        assert SettledLater(rows, p);
        var i :| p < i < |rows| && rows[i].kind.Settlement? && rows[i].identity == rows[p].identity;
        assert more[i] == rows[i];
      }
    }
  }

  lemma SameClose(env: Env, opps: Book, rows: seq<Event>, v: Event, p: int, i: int)
    requires Closes(env, opps, rows, p, i)
    ensures Closes(env, opps, rows + [v], p, i)
  {
    hide Policy.Settle;
    hide Pays;
    assert (rows + [v])[p] == rows[p] && (rows + [v])[i] == rows[i];
  }

  /** A row that neither places nor settles. */
  lemma QuietTold(env: Env, opps: Book, e: Engine, r: Engine, v: Event)
    requires Told(env, opps, e) && r.ledger == e.ledger + [v] && !v.kind.Settlement? && !v.kind.Placement?
    requires r.live == e.live && r.stakes == e.stakes && r.totalStaked == e.totalStaked && r.capHits == e.capHits && r.lastAt == e.lastAt
    ensures Told(env, opps, r)
  {
    AppliedMore(e.ledger, v);
    OpensMore(env, opps, e.ledger, v, e.live);
    ClosesMore(env, opps, e.ledger, v);
    AccountedMore(e.ledger, v, e.live, e.live);
    hide Applied;
    hide Capped;
    hide LiveOpened;
    hide AllClose;
    hide Accounted;
    hide Earlier;
  }

  // ---- settlement ------------------------------------------------------------------------

  ghost predicate DueFirst(live: map<int, Position>, id: int) {
    id in live && forall k :: k in live && k != id ==> Earlier(live[id].settlementAt, id, live[k].settlementAt, k)
  }

  /** The row that a settlement adds. */
  ghost predicate Settles(env: Env, e: Engine, id: int, r: Engine, v: Event)
    requires id in e.live
  {
    var x := e.live[id];
    && r.ledger == e.ledger + [v] && r.live == e.live - {id} && r.stakes == e.stakes && r.totalStaked == e.totalStaked
    && r.capHits == e.capHits && r.lastAt == e.lastAt
    && v.kind.Settlement? && v.at == x.settlementAt && v.identity == id
    && v.kind.bet == x.request && v.kind.price == x.opportunity.action.price
    && (v.kind.won <==> x.opportunity.actual == x.opportunity.action.selected)
    && Pays(x.request.applied, v.kind.price, v.kind.won, v.kind.pnl)
    && v.kind.stateBefore == e.state && v.state == r.state == env.policy.Settle(e.state, x.request, v.kind.won).0
  }

  lemma SettleOneSettles(env: Env, e: Engine, at: int, id: int) returns (v: Event)
    requires id in e.live
    ensures Settles(env, e, id, SettleOne(env, e, at, id), v)
  {
    hide Policy.Settle;
    hide Max;
    hide Min;
    var r := SettleOne(env, e, at, id);
    v := r.ledger[|e.ledger|];
    assert r.ledger == e.ledger + [v];
  }

  lemma SettleCloses(env: Env, opps: Book, e: Engine, id: int, r: Engine, v: Event)
    requires id in e.live && LiveOpened(env, opps, e.ledger, e.live) && Settles(env, e, id, r, v)
    ensures exists p :: Closes(env, opps, r.ledger, p, |e.ledger|)
  {
    hide Policy.Settle;
    hide Pays;
    var p :| Opens(env, opps, e.ledger, p, id, e.live[id]);
    assert r.ledger[p] == e.ledger[p] && r.ledger[|e.ledger|] == v;
    assert Closes(env, opps, r.ledger, p, |e.ledger|);
  }

  lemma SettleInOrder(env: Env, e: Engine, id: int, r: Engine, v: Event)
    requires DueFirst(e.live, id) && InOrder(e.ledger) && OpenLater(e.ledger, e.live) && Settles(env, e, id, r, v)
    ensures InOrder(r.ledger) && OpenLater(r.ledger, r.live)
  {
    hide Policy.Settle;
    hide Pays;
    hide Earlier;
  }

  lemma SettleTotals(env: Env, e: Engine, id: int, r: Engine, v: Event)
    requires id in e.live && Totals(e) && Settles(env, e, id, r, v)
    ensures Totals(r)
  {
    hide Policy.Settle;
    hide Pays;
    AppliedMore(e.ledger, v);
    hide Applied;
    hide Sum;
    hide Capped;
  }

  lemma SettleBy(env: Env, e: Engine, id: int, r: Engine, v: Event, at: int)
    requires id in e.live && SettledBy(e.ledger, e.lastAt) && Settles(env, e, id, r, v)
    requires e.lastAt == Some(at) && e.live[id].settlementAt <= at
    ensures SettledBy(r.ledger, r.lastAt)
  {
    hide Policy.Settle;
    hide Pays;
  }

  lemma SettleTold(env: Env, opps: Book, e: Engine, at: int, id: int)
    requires Told(env, opps, e) && DueFirst(e.live, id) && e.lastAt == Some(at) && id in e.live && e.live[id].settlementAt <= at
    ensures Told(env, opps, SettleOne(env, e, at, id))
  {
    hide SettleOne;
    hide DueFirst;
    hide Accounted;
    hide LiveOpened;
    hide AllClose;
    hide InOrder;
    hide OpenLater;
    hide SettledBy;
    hide Totals;
    hide Closes;
    var v := SettleOneSettles(env, e, at, id);
    var r := SettleOne(env, e, at, id);
    SettleCloses(env, opps, e, id, r, v);
    SettleInOrder(env, e, id, r, v);
    SettleTotals(env, e, id, r, v);
    SettleBy(env, e, id, r, v, at);
    SettleRow(env, e, id, r, v);
    hide Settles;
    OpensMore(env, opps, e.ledger, v, e.live);
    FewerOpened(env, opps, r.ledger, e.live, id);
    ClosesMore(env, opps, e.ledger, v);
    AccountedMore(e.ledger, v, e.live, e.live - {id});
  }

  lemma SettleRow(env: Env, e: Engine, id: int, r: Engine, v: Event)
    requires id in e.live && Settles(env, e, id, r, v)
    ensures r.ledger == e.ledger + [v] && r.live == e.live - {id} && v.kind.Settlement? && v.identity == id
  {
    hide Policy.Settle;
    hide Pays;
  }

  lemma FewerOpened(env: Env, opps: Book, rows: seq<Event>, live: map<int, Position>, id: int)
    requires LiveOpened(env, opps, rows, live)
    ensures LiveOpened(env, opps, rows, live - {id})
  {
    hide Opens;
    var fewer := live - {id};
    forall k | k in fewer
      ensures exists p :: Opens(env, opps, rows, p, k, fewer[k])
    {
      var p :| Opens(env, opps, rows, p, k, live[k]);
      assert fewer[k] == live[k];
      assert Opens(env, opps, rows, p, k, fewer[k]);
    }
  }

  /** The listed positions are due in this order, and before every other. */
  ghost predicate InDueOrder(live: map<int, Position>, ids: seq<int>) {
    && (forall i :: 0 <= i < |ids| ==> ids[i] in live)
    && (forall i, j :: 0 <= i < j < |ids| ==> Earlier(live[ids[i]].settlementAt, ids[i], live[ids[j]].settlementAt, ids[j]))
    && forall i, k :: 0 <= i < |ids| && k in live && k !in ids ==>
         Earlier(live[ids[i]].settlementAt, ids[i], live[k].settlementAt, k)
  }

  lemma SortedIsDue(e: Engine, at: int)
    ensures InDueOrder(e.live, Order(DueRanks(e, at))) && Listed(Order(DueRanks(e, at)), e.live)
    ensures forall k :: k in Order(DueRanks(e, at)) ==> k in e.live && e.live[k].settlementAt <= at
  {
    var ranks := DueRanks(e, at);
    var due := Order(ranks);
    forall i, j | 0 <= i < j < |due|
      ensures due[i] in ranks && due[j] in ranks && Earlier(e.live[due[i]].settlementAt, due[i], e.live[due[j]].settlementAt, due[j])
    {
      assert Before(ranks[due[i]], due[i], ranks[due[j]], due[j]);
    }
    forall i | 0 <= i < |due|
      ensures due[i] in ranks
    {
      assert due[i] in due;
    }
    forall i, k | 0 <= i < |due| && k in e.live && k !in due
      ensures Earlier(e.live[due[i]].settlementAt, due[i], e.live[k].settlementAt, k)
    {
      assert due[i] in ranks && k !in ranks;
    }
  }

  lemma FrontOrLast(ids: seq<int>)
    requires ids != []
    ensures forall k :: k in ids ==> k in ids[..|ids| - 1] || k == ids[|ids| - 1]
  {
    assert ids == ids[..|ids| - 1] + [ids[|ids| - 1]];
  }

  lemma NextDue(live: map<int, Position>, ids: seq<int>)
    requires ids != [] && Listed(ids, live) && InDueOrder(live, ids)
    ensures Listed(ids[..|ids| - 1], live) && InDueOrder(live, ids[..|ids| - 1])
    ensures var front := ids[..|ids| - 1];
            DueFirst(live - (set k | k in front), ids[|ids| - 1])
  {
    hide Earlier;
    var last := |ids| - 1;
    var front := ids[..last];
    FrontOrLast(ids);
    assert ids[last] !in front;
    var rest := live - (set k | k in front);
    forall k | k in rest && k != ids[last]
      ensures Earlier(rest[ids[last]].settlementAt, ids[last], rest[k].settlementAt, k)
    {
      assert k in live && k !in ids;
    }
  }

  lemma {:induction false} SettleEachTold(env: Env, opps: Book, e: Engine, at: int, ids: seq<int>)
    requires Told(env, opps, e) && Listed(ids, e.live) && InDueOrder(e.live, ids) && e.lastAt == Some(at)
    requires forall i :: 0 <= i < |ids| ==> e.live[ids[i]].settlementAt <= at
    ensures Told(env, opps, SettleEach(env, e, at, ids)) && SettleEach(env, e, at, ids).lastAt == Some(at)
  {
    hide Told;
    hide SettleOne;
    hide InDueOrder;
    if ids != [] {
      var last := |ids| - 1;
      NextDue(e.live, ids);
      SettleEachTold(env, opps, e, at, ids[..last]);
      var d := SettleEach(env, e, at, ids[..last]);
      assert ids[last] in d.live && d.live[ids[last]] == e.live[ids[last]];
      SettleTold(env, opps, d, at, ids[last]);
      hide DueFirst;
      var v := SettleOneSettles(env, d, at, ids[last]);
      hide Policy.Settle;
      hide Pays;
    }
  }

  lemma AfterSettlementTold(env: Env, opps: Book, e: Engine, at: int)
    requires Told(env, opps, e) && e.lastAt == Some(at)
    ensures Told(env, opps, AfterSettlement(env, e, at)) && AfterSettlement(env, e, at).lastAt == Some(at)
  {
    hide Told;
    hide SettleEach;
    hide DueRanks;
    hide InDueOrder;
    SortedIsDue(e, at);
    SettleEachTold(env, opps, e, at, Order(DueRanks(e, at)));
  }

  // ---- rows that neither place nor settle ------------------------------------------------

  lemma RecordTold(env: Env, opps: Book, e: Engine, kind: Kind, at: int, id: int)
    requires Told(env, opps, e) && !kind.Settlement? && !kind.Placement?
    ensures Told(env, opps, Record(e, kind, at, id)) && Record(e, kind, at, id).lastAt == e.lastAt
  {
    hide Told;
    QuietTold(env, opps, e, Record(e, kind, at, id), Event(kind, at, id, e.equity, e.reserved, e.state));
  }

  lemma DropTold(env: Env, opps: Book, e: Engine, kind: Kind, status: Status, at: int, id: int)
    requires Told(env, opps, e) && !kind.Settlement? && !kind.Placement?
    ensures Told(env, opps, Drop(e, kind, status, at, id)) && Drop(e, kind, status, at, id).lastAt == e.lastAt
  {
    hide Told;
    QuietTold(env, opps, e, Drop(e, kind, status, at, id), Event(kind, at, id, e.equity, e.reserved, e.state));
  }

  lemma {:induction false} DropEachTold(env: Env, opps: Book, e: Engine, kind: Kind, status: Status, at: int, ids: seq<int>)
    requires Told(env, opps, e) && !kind.Settlement? && !kind.Placement?
    ensures Told(env, opps, DropEach(e, kind, status, at, ids)) && DropEach(e, kind, status, at, ids).lastAt == e.lastAt
  {
    hide Told;
    hide Drop;
    if ids != [] {
      DropEachTold(env, opps, e, kind, status, at, ids[..|ids| - 1]);
      DropTold(env, opps, DropEach(e, kind, status, at, ids[..|ids| - 1]), kind, status, at, ids[|ids| - 1]);
    }
  }

  lemma HoldTold(env: Env, opps: Book, e: Engine, wait: Wait, at: int, o: Wager)
    requires Told(env, opps, e)
    ensures Told(env, opps, Hold(e, wait, at, o)) && Hold(e, wait, at, o).lastAt == e.lastAt
  {
    hide Told;
    QuietTold(env, opps, e, Hold(e, wait, at, o), Event(Waiting(wait), at, o.identity, e.equity, e.reserved, e.state));
  }

  // ---- placement -------------------------------------------------------------------------

  /** The row that a placement adds. */
  ghost predicate Places(env: Env, e: Engine, at: int, o: Wager, request: StakeRequest, r: Engine, v: Event) {
    && r.ledger == e.ledger + [v] && r.lastAt == e.lastAt
    && r.live == e.live[o.identity := Position(Due(o, env.lag), o, request)]
    && r.stakes == e.stakes + [request.applied] && r.totalStaked == e.totalStaked + request.applied
    && r.capHits == e.capHits + (if request.capHit then 1 else 0)
    && v.kind == Placement(request, Due(o, env.lag)) && v.identity == o.identity && v.at == at
  }

  lemma OpenPlaces(env: Env, e: Engine, at: int, o: Wager, request: StakeRequest) returns (v: Event)
    ensures Places(env, e, at, o, request, OpenOne(env, e, at, o, request), v)
  {
    hide Max;
    hide Min;
    var r := OpenOne(env, e, at, o, request);
    v := r.ledger[|e.ledger|];
    assert r.ledger == e.ledger + [v];
  }

  lemma OpenTotals(env: Env, e: Engine, at: int, o: Wager, request: StakeRequest, r: Engine, v: Event)
    requires Totals(e) && Places(env, e, at, o, request, r, v)
    ensures Totals(r)
  {
    AppliedMore(e.ledger, v);
    SumMore(e.stakes, request.applied);
    hide Applied;
    hide Sum;
    hide Capped;
    hide Due;
  }

  lemma OpenInOrder(env: Env, e: Engine, at: int, o: Wager, request: StakeRequest, r: Engine, v: Event)
    requires InOrder(e.ledger) && OpenLater(e.ledger, e.live) && SettledBy(e.ledger, e.lastAt)
    requires Places(env, e, at, o, request, r, v) && e.lastAt == Some(at) && at < Due(o, env.lag)
    ensures InOrder(r.ledger) && OpenLater(r.ledger, r.live) && SettledBy(r.ledger, r.lastAt)
  {
    hide Due;
  }

  lemma OpenRow(env: Env, e: Engine, at: int, o: Wager, request: StakeRequest, r: Engine, v: Event)
    requires Places(env, e, at, o, request, r, v)
    ensures r.ledger == e.ledger + [v] && r.live == e.live[o.identity := Position(Due(o, env.lag), o, request)]
    ensures r.lastAt == e.lastAt && v.kind == Placement(request, Due(o, env.lag)) && v.identity == o.identity
  {
    hide Due;
  }

  lemma OpenTold(env: Env, opps: Book, e: Engine, at: int, o: Wager, request: StakeRequest)
    requires Told(env, opps, e) && e.lastAt == Some(at) && at < Due(o, env.lag)
    requires o.identity in opps && opps[o.identity] == o
    ensures Told(env, opps, OpenOne(env, e, at, o, request)) && OpenOne(env, e, at, o, request).lastAt == e.lastAt
  {
    hide OpenOne;
    hide Places;
    hide Due;
    hide Accounted;
    hide LiveOpened;
    hide AllClose;
    hide InOrder;
    hide OpenLater;
    hide SettledBy;
    hide Totals;
    hide Closes;
    var v := OpenPlaces(env, e, at, o, request);
    var r := OpenOne(env, e, at, o, request);
    OpenTotals(env, e, at, o, request, r, v);
    OpenInOrder(env, e, at, o, request, r, v);
    OpenRow(env, e, at, o, request, r, v);
    OpensMore(env, opps, e.ledger, v, e.live);
    NewOpened(env, opps, r.ledger, e.live, o, request);
    ClosesMore(env, opps, e.ledger, v);
    AccountedMore(e.ledger, v, e.live, r.live);
  }

  lemma NewOpened(env: Env, opps: Book, rows: seq<Event>, live: map<int, Position>, o: Wager, request: StakeRequest)
    requires LiveOpened(env, opps, rows, live) && o.identity in opps && opps[o.identity] == o && rows != []
    requires rows[|rows| - 1].kind == Placement(request, Due(o, env.lag)) && rows[|rows| - 1].identity == o.identity
    ensures LiveOpened(env, opps, rows, live[o.identity := Position(Due(o, env.lag), o, request)])
  {
    var x := Position(Due(o, env.lag), o, request);
    var more := live[o.identity := x];
    assert Opens(env, opps, rows, |rows| - 1, o.identity, x);
    hide Opens;
    forall k | k in more
      ensures exists p :: Opens(env, opps, rows, p, k, more[k])
    {
      if k != o.identity {
        var p :| Opens(env, opps, rows, p, k, live[k]);
        assert Opens(env, opps, rows, p, k, more[k]);
      }
    }
  }

  lemma DecideTold(env: Env, opps: Book, e: Engine, at: int, o: Wager, request: StakeRequest)
    requires Told(env, opps, e) && e.lastAt == Some(at) && at < Due(o, env.lag)
    requires o.identity in opps && opps[o.identity] == o
    ensures Told(env, opps, Decide(env, e, at, o, request)) && Decide(env, e, at, o, request).lastAt == e.lastAt
  {
    hide Told;
    hide Drop;
    hide Hold;
    hide OpenOne;
    hide Due;
    if request.termination != Running {
      StopTold(env, opps, e, at, o.identity, request.termination);
    } else if request.requested <= 0.0 || request.applied <= 0.0 {
      DropTold(env, opps, e, NoStake, ZeroStake, at, o.identity);
    } else if request.requested > e.equity - e.reserved {
      HoldTold(env, opps, e, InsufficientCash(request), at, o);
    } else {
      OpenTold(env, opps, e, at, o, request);
    }
  }

  lemma StopTold(env: Env, opps: Book, e: Engine, at: int, id: int, reason: Termination)
    requires Told(env, opps, e)
    ensures var r := Drop(e.(termination := reason), PolicyStopped(reason), PolicyTermination, at, id);
            Told(env, opps, r) && r.lastAt == e.lastAt
  {
    var d := e.(termination := reason);
    assert Told(env, opps, d);
    DropTold(env, opps, d, PolicyStopped(reason), PolicyTermination, at, id);
    hide Told;
  }

  lemma PlaceTold(env: Env, opps: Book, e: Engine, at: int, o: Wager, request: StakeRequest)
    requires Told(env, opps, e) && e.lastAt == Some(at) && 0 < env.lag
    requires o.identity in opps && opps[o.identity] == o
    ensures Told(env, opps, PlaceWith(env, e, at, o, request)) && PlaceWith(env, e, at, o, request).lastAt == e.lastAt
  {
    hide Told;
    hide Drop;
    hide Hold;
    hide Record;
    hide Decide;
    if e.termination != Running {
      DropTold(env, opps, e, Terminated(e.termination), PathTerminated, at, o.identity);
    } else if o.kickoff <= at {
      DropTold(env, opps, e, Expiry, ExpiredCapacity, at, o.identity);
    } else {
      if o.identity in e.pending { RecordTold(env, opps, e, Retry, at, o.identity); }
      var noted := NoteRetry(e, at, o);
      if |e.live| >= env.maxLanes {
        HoldTold(env, opps, noted, NoAvailableLane, at, o);
      } else {
        RecordTold(env, opps, noted, Requested(request), at, o.identity);
        DecideTold(env, opps, Record(noted, Requested(request), at, o.identity), at, o, request);
      }
    }
  }

  lemma {:induction false} PlaceEachTold(env: Env, opps: Book, e: Engine, at: int, merged: map<int, Wager>, ids: seq<int>)
    requires Told(env, opps, e) && e.lastAt == Some(at) && 0 < env.lag && Listed(ids, merged)
    requires forall k :: k in merged ==> k in opps && opps[k] == merged[k] && merged[k].identity == k
    ensures Told(env, opps, PlaceEach(env, e, at, merged, ids)) && PlaceEach(env, e, at, merged, ids).lastAt == Some(at)
  {
    hide Told;
    hide PlaceWith;
    hide RequestFor;
    if ids != [] {
      var last := |ids| - 1;
      PlaceEachTold(env, opps, e, at, merged, ids[..last]);
      var d := PlaceEach(env, e, at, merged, ids[..last]);
      PlaceTold(env, opps, d, at, merged[ids[last]], RequestFor(env, d, merged[ids[last]]));
    }
  }

  // ---- whole paths -----------------------------------------------------------------------

  lemma WakeTold(env: Env, opps: Book, e: Engine, at: int)
    requires Told(env, opps, e) && (e.lastAt.Some? ==> e.lastAt.value < at)
    ensures Told(env, opps, Wake(e, at)) && Wake(e, at).lastAt == Some(at)
  {
    hide Accounted;
    hide LiveOpened;
    hide AllClose;
    hide InOrder;
    hide OpenLater;
  }

  lemma BeforeTold(env: Env, opps: Book, e: Engine, at: int, arrivals: Book)
    requires Told(env, opps, e) && (e.lastAt.Some? ==> e.lastAt.value < at)
    ensures Told(env, opps, BeforePlacement(env, e, at, arrivals)) && BeforePlacement(env, e, at, arrivals).lastAt == Some(at)
  {
    hide Told;
    hide DropEach;
    hide AfterSettlement;
    hide Wake;
    WakeTold(env, opps, e, at);
    AfterSettlementTold(env, opps, Wake(e, at), at);
    var s := AfterSettlement(env, Wake(e, at), at);
    DropEachTold(env, opps, s, Expiry, ExpiredCapacity, at, Order(ExpiryRanks(s, at)));
    DropEachTold(env, opps, AfterExpiry(s, at), NoBetSeen, NotBet, at, Order(SkipRanks(arrivals)));
  }

  lemma PlacedTold(env: Env, opps: Book, b: Engine, at: int, arrivals: Book)
    requires env.Valid() && Keyed(opps) && arrivals == Arrivals(opps, at) && Told(env, opps, b)
    requires Mid(env, opps, b, at, Bets(arrivals)) && Hopeful(b.lastAt, b.pending)
    ensures Told(env, opps, AfterPlacement(env, b, at, arrivals))
  {
    hide Told;
    hide Mid;
    hide PlaceEach;
    hide Merged;
    MidAt(env, opps, b, at, Bets(arrivals));
    MergedPlacing(env, opps, b, at, arrivals);
    var merged := Merged(b, arrivals);
    MergedKnown(env, opps, b, at, Bets(arrivals), merged);
    PlaceEachTold(env, opps, b, at, merged, Order(BetRanks(merged)));
  }

  lemma MidAt(env: Env, opps: Book, e: Engine, at: int, arriving: set<int>)
    requires Mid(env, opps, e, at, arriving)
    ensures e.lastAt == Some(at)
  {
    hide Books;
    hide Cash;
  }

  lemma MergedKnown(env: Env, opps: Book, e: Engine, at: int, arriving: set<int>, merged: map<int, Wager>)
    requires Keyed(opps) && Placing(env, opps, e, at, arriving, merged)
    ensures forall k :: k in merged ==> k in opps && opps[k] == merged[k] && merged[k].identity == k
  {
    hide Mid;
  }

  lemma StepTold(env: Env, opps: Book, e: Engine, at: int)
    requires env.Valid() && Keyed(opps) && Inv(env, opps, e) && IsLeast(e.wakes, at) && Told(env, opps, e)
    ensures Told(env, opps, Step(env, e, at, Arrivals(opps, at)))
  {
    hide Told;
    hide Inv;
    hide Mid;
    hide Hopeful;
    hide BeforePlacement;
    hide AfterPlacement;
    hide Arrivals;
    hide DropEach;
    var arrivals := Arrivals(opps, at);
    Ahead(env, opps, e, at);
    BeforeTold(env, opps, e, at, arrivals);
    BeforePlacementMid(env, opps, e, at);
    var b := BeforePlacement(env, e, at, arrivals);
    PlacedTold(env, opps, b, at, arrivals);
    var p := AfterPlacement(env, b, at, arrivals);
    DropEachTold(env, opps, p, Terminated(p.termination), PathTerminated, at, Order(IdentityRanks(p.pending)));
  }

  lemma Ahead(env: Env, opps: Book, e: Engine, at: int)
    requires Inv(env, opps, e) && IsLeast(e.wakes, at)
    ensures e.lastAt.Some? ==> e.lastAt.value < at
  {
    hide Cash;
    hide Books;
  }

  lemma StartTold(env: Env, opps: Book)
    ensures Told(env, opps, Start(env, opps))
  {
  }

  lemma {:induction false} PlayTold(env: Env, opps: Book, n: nat)
    requires env.Valid() && Keyed(opps)
    ensures Told(env, opps, Play(env, opps, n))
  {
    hide Told;
    hide Inv;
    hide Step;
    hide Start;
    if n == 0 {
      StartTold(env, opps);
    } else {
      PlayTold(env, opps, n - 1);
      PlayInv(env, opps, n - 1);
      var e := Play(env, opps, n - 1);
      if Awake(e) { StepTold(env, opps, e, Least(e.wakes)); }
    }
  }

  // ---- what is left waiting --------------------------------------------------------------

  /** The rows that expire what nobody woke for: at its own kickoff, the earliest first, then the smallest identity. */
  ghost predicate Expires(e: Engine, rows: seq<Event>) {
    && (forall i :: 0 <= i < |rows| ==>
          rows[i].kind.Expiry? && rows[i].identity in e.pending && rows[i].at == e.pending[rows[i].identity].kickoff)
    && (forall k :: k in e.pending ==> exists i :: 0 <= i < |rows| && rows[i].identity == k)
    && forall i, j :: 0 <= i < j < |rows| ==> Earlier(rows[i].at, rows[i].identity, rows[j].at, rows[j].identity)
  }

  lemma {:induction false} LateRows(e: Engine, ids: seq<int>) returns (late: seq<Event>)
    requires forall i :: 0 <= i < |ids| ==> ids[i] in e.pending
    ensures ExpireLateEach(e, ids).ledger == e.ledger + late && |late| == |ids|
    ensures forall i :: 0 <= i < |ids| ==>
              late[i].kind.Expiry? && late[i].identity == ids[i] && late[i].at == e.pending[ids[i]].kickoff
  {
    late := [];
    if ids != [] {
      var last := |ids| - 1;
      late := LateRows(e, ids[..last]);
      var d := ExpireLateEach(e, ids[..last]);
      late := late + [Event(Expiry, e.pending[ids[last]].kickoff, ids[last], d.equity, d.reserved, d.state)];
    }
  }

  lemma LateSorted(e: Engine, ids: seq<int>, i: nat, j: nat)
    requires ids == Order(FinalRanks(e)) && i < j < |ids| && ids[i] in e.pending && ids[j] in e.pending
    ensures Earlier(e.pending[ids[i]].kickoff, ids[i], e.pending[ids[j]].kickoff, ids[j])
  {
    var ranks := FinalRanks(e);
    assert Before(ranks[ids[i]], ids[i], ranks[ids[j]], ids[j]);
  }

  lemma LateFound(e: Engine, ids: seq<int>, k: int) returns (i: nat)
    requires ids == Order(FinalRanks(e)) && k in e.pending
    ensures i < |ids| && ids[i] == k
  {
    assert k in FinalRanks(e);
    hide Sorted;
    hide Distinct;
    assert k in ids;
    i :| 0 <= i < |ids| && ids[i] == k;
  }

  lemma LateOrder(e: Engine, ids: seq<int>, late: seq<Event>)
    requires ids == Order(FinalRanks(e)) && |late| == |ids|
    requires forall i :: 0 <= i < |ids| ==>
               ids[i] in e.pending && late[i].kind.Expiry? && late[i].identity == ids[i] && late[i].at == e.pending[ids[i]].kickoff
    ensures Expires(e, late)
  {
    hide Order;
    hide FinalRanks;
    hide Earlier;
    forall i, j | 0 <= i < j < |late|
      ensures Earlier(late[i].at, late[i].identity, late[j].at, late[j].identity)
    {
      LateSorted(e, ids, i, j);
    }
    forall k | k in e.pending
      ensures exists i :: 0 <= i < |late| && late[i].identity == k
    {
      var i := LateFound(e, ids, k);
      assert late[i].identity == k;
    }
  }

  lemma FinalListed(e: Engine)
    ensures forall i :: 0 <= i < |Order(FinalRanks(e))| ==> Order(FinalRanks(e))[i] in e.pending
  {
    var ids := Order(FinalRanks(e));
    forall i | 0 <= i < |ids| ensures ids[i] in e.pending { assert ids[i] in ids; assert ids[i] in FinalRanks(e); }
  }

  lemma LateExpires(e: Engine)
    ensures var rows := LateExpiry(e).ledger;
            |e.ledger| <= |rows| && rows[..|e.ledger|] == e.ledger && Expires(e, rows[|e.ledger|..])
  {
    hide FinalRanks;
    hide Expires;
    hide ExpireLateEach;
    var ids := Order(FinalRanks(e));
    FinalListed(e);
    var late := LateRows(e, ids);
    assert LateExpiry(e).ledger[|e.ledger|..] == late;
    LateOrder(e, ids, late);
  }

  lemma {:induction false} LateTold(env: Env, opps: Book, e: Engine, ids: seq<int>)
    requires Told(env, opps, e) && forall i :: 0 <= i < |ids| ==> ids[i] in e.pending
    ensures Told(env, opps, ExpireLateEach(e, ids))
  {
    hide Told;
    if ids != [] {
      var last := |ids| - 1;
      LateTold(env, opps, e, ids[..last]);
      var d := ExpireLateEach(e, ids[..last]);
      QuietTold(env, opps, d, ExpireLate(d, ids[last]),
                Event(Expiry, d.pending[ids[last]].kickoff, ids[last], d.equity, d.reserved, d.state));
    }
  }

  lemma FinishTold(env: Env, opps: Book, e: Engine)
    requires Told(env, opps, e)
    ensures Told(env, opps, Finish(e))
  {
    FinalListed(e);
    LateTold(env, opps, e, Order(FinalRanks(e)));
    hide FinalRanks;
    hide ExpireLateEach;
    hide LiveOpened;
    hide AllClose;
    hide Accounted;
    hide InOrder;
    hide OpenLater;
    hide SettledBy;
  }

  /**
    The ledger of every whole path: each settlement closes an earlier placement at the lag after kickoff, by the match's own
    result, and hands it to the policy; settlements stand in order of time and identity; every placement is settled; the
    totals of the report are those of the placements; and what still waited at the end expires in order of kickoff.
   */
  lemma PathTells(env: Env, opps: Book)
    requires env.Valid() && Keyed(opps)
    ensures var e, last := Path(env, opps), Play(env, opps, Bound(opps));
            && AllClose(env, opps, e.ledger) && InOrder(e.ledger)
            && (forall p :: 0 <= p < |e.ledger| && e.ledger[p].kind.Placement? ==> SettledLater(e.ledger, p))
            && e.stakes == Applied(e.ledger) && e.totalStaked == Sum(Applied(e.ledger)) && e.capHits == Capped(e.ledger)
            && |last.ledger| <= |e.ledger| && e.ledger[..|last.ledger|] == last.ledger
            && Expires(last, e.ledger[|last.ledger|..])
  {
    var last := Play(env, opps, Bound(opps));
    PlayTold(env, opps, Bound(opps));
    FinishTold(env, opps, last);
    LateExpires(last);
    PathComplete(env, opps);
    NothingOpen(env, opps);
    hide Play;
    hide LateExpiry;
    hide AllClose;
    hide InOrder;
    hide Expires;
    hide OpenLater;
    hide LiveOpened;
    hide Applied;
    hide Sum;
    hide Capped;
    hide SettledLater;
  }

  lemma NothingOpen(env: Env, opps: Book)
    requires env.Valid() && Keyed(opps)
    ensures forall k :: k !in Path(env, opps).live
  {
    PathComplete(env, opps);
    hide Path;
  }
}

/**
  What a whole path's ledger says about its money and its recovery sequences:
  losses carried by the policy are exactly the stakes lost since the last win,
  and equity plus carried losses is the initial bankroll plus what the closed
  sequences earned.
 */
module RecoveryAccounting {
  import opened Common
  import opened Policies
  import opened Ordering
  import opened EventPath
  import opened EventInvariants

  // ---- one bet ---------------------------------------------------------------------

  /** What a won bet earns beyond the losses its sequence had piled up. */
  function SequenceGain(applied: real, price: real, before: PolicyState): real {
    applied * (price - 1.0) - before.Loss()
  }

  lemma CeilingCovers(need: real, odds: real)
    requires 0.0 < odds
    ensures need <= (Ceiling(need / odds) as real) * odds
  {
    var q := need / odds;
    assert q * odds == need;
    var c := Ceiling(q) as real;
    assert q <= c;
    ProductNonNegative(c - q, odds);
    assert (c - q) * odds == c * odds - q * odds;
  }

  /** A recovery win covers every carried loss and at least the target: the stake is rounded up, never down. */
  lemma RecoveryWin(p: Policy, odds: real, memory: Sequence)
    requires p.Valid() && p.LegacyRecovery? && memory.Ok() && 0.0 < odds
    ensures var r := RecoveryRequest(p.initialStake, odds, memory);
            r.target.Some? && r.target.value <= r.applied * odds - memory.loss
  {
    if memory.target.Some? { CeilingCovers(memory.target.value + memory.loss, odds); }
  }

  /** A capped win earns the target less what the cap left unstaked. */
  lemma CappedWin(p: Policy, bound: Option<real>, odds: real, memory: Sequence)
    requires p.LegacyCapped? && memory.Ok() && 0.0 < odds
    ensures var r := CappedRequest(p.initialStake, bound, p.maxSteps, odds, memory);
            r.target.Some? && r.applied * odds - memory.loss == r.target.value - r.shortfall * odds
  {
    var r := CappedRequest(p.initialStake, bound, p.maxSteps, odds, memory);
    assert r.requested * odds == r.target.value + memory.loss by {
      if memory.target.Some? {
        var need := memory.target.value + memory.loss;
        assert (need / odds) * odds == need;
      }
    }
    assert r.applied * odds == r.requested * odds - r.shortfall * odds by {
      assert r.applied == r.requested - r.shortfall;
      Distribute(r.requested, r.shortfall, odds);
    }
  }

  lemma Distribute(a: real, b: real, c: real)
    ensures (a - b) * c == a * c - b * c
  {
  }

  /** A partial win earns the target less the share of the losses the policy gave up. */
  lemma PartialWin(p: Policy, odds: real, memory: Sequence)
    requires p.LegacyPartial? && memory.Ok() && 0.0 < odds
    ensures var r := PartialRequest(p.target, p.alpha, odds, memory);
            r.target.Some? && r.applied * odds - memory.loss == p.target - (1.0 - p.alpha) * memory.loss
  {
    var need := p.target + p.alpha * memory.loss;
    assert (need / odds) * odds == need;
  }

  /** The exact price of closing one sequence, policy by policy. */
  predicate ClosesAs(p: Policy, r: StakeRequest, price: real, before: PolicyState) {
    p.IsRecovery() && before.Recovery? ==>
      && r.target.Some?
      && (p.LegacyRecovery? ==> r.target.value <= SequenceGain(r.applied, price, before))
      && (p.LegacyCapped? ==> SequenceGain(r.applied, price, before) == r.target.value - r.shortfall * (price - 1.0))
      && (p.LegacyPartial? ==> SequenceGain(r.applied, price, before) == p.target - (1.0 - p.alpha) * before.loss)
  }

  lemma EveryRequestCloses(p: Policy, price: real, probability: real, bankroll: real, state: PolicyState)
    requires p.Valid() && p.Fits(state) && 1.0 < price
    ensures ClosesAs(p, p.Request(price, probability, bankroll, state), price, state)
  {
    hide RecoveryRequest;
    hide CappedRequest;
    hide PartialRequest;
    hide KellyRequest;
    if p.LegacyRecovery? {
      RecoveryWin(p, price - 1.0, state);
    } else if p.LegacyCapped? {
      CappedWin(p, p.Bound(bankroll), price - 1.0, state);
    } else if p.LegacyPartial? {
      PartialWin(p, price - 1.0, state);
    }
  }

  /** A request goes on with the target of the sequence that is open. */
  predicate Continues(p: Policy, r: StakeRequest, before: PolicyState) {
    p.IsRecovery() && before.Recovery? ==> r.target.Some? && (before.target.Some? ==> r.target == before.target)
  }

  /** A partial policy has one target for every sequence. */
  predicate Steady(p: Policy, state: PolicyState) {
    p.LegacyPartial? && state.Recovery? && state.target.Some? ==> state.target.value == p.target
  }

  lemma RequestContinues(p: Policy, price: real, probability: real, bankroll: real, state: PolicyState)
    requires p.Fits(state) && Steady(p, state) && 1.0 < price
    ensures var r := p.Request(price, probability, bankroll, state);
            Continues(p, r, state) && (p.LegacyPartial? ==> r.target == Some(p.target))
  {
    hide Policy.Bound;
    hide KellyRequest;
  }

  lemma SettleSteady(p: Policy, state: PolicyState, r: StakeRequest, won: bool)
    requires Steady(p, state) && (p.LegacyPartial? ==> r.target == Some(p.target))
    ensures Steady(p, p.Settle(state, r, won).0)
  {
  }

  // ---- the ledger as the audit record ------------------------------------------------

  /**
    Realized profit, stakes lost since the last win, gains of closed sequences,
    whether every bet went on with its sequence and every win had its price;
    and the policy memory that the settlements lead to, with whether each of
    them started from it.
   */
  datatype Tally = Tally(profit: real, lost: real, gained: real, priced: bool, state: PolicyState, chained: bool)

  function Count(p: Policy, t: Tally, kind: Kind): Tally {
    if kind.Settlement? then
      Tally(t.profit + kind.pnl,
            if kind.won then 0.0 else t.lost + kind.bet.applied,
            if kind.won then t.gained + (kind.pnl - kind.stateBefore.Loss()) else t.gained,
            t.priced && Continues(p, kind.bet, kind.stateBefore) && (kind.won ==> ClosesAs(p, kind.bet, kind.price, kind.stateBefore)),
            p.Settle(t.state, kind.bet, kind.won).0,
            t.chained && kind.stateBefore == t.state)
    else
      t
  }

  function TallyOf(p: Policy, ledger: seq<Event>): Tally {
    if ledger == [] then Tally(0.0, 0.0, 0.0, true, p.InitialState(), true)
    else Count(p, TallyOf(p, ledger[..|ledger| - 1]), ledger[|ledger| - 1].kind)
  }

  /** The ledger accounts for the equity and for the policy memory. */
  ghost predicate Audited(env: Env, e: Engine) {
    var t := TallyOf(env.policy, e.ledger);
    && e.equity == INITIAL + t.profit && e.state == t.state && t.chained
    && (env.policy.IsRecovery() ==>
          && e.state.Recovery?
          && e.state.loss == t.lost
          && e.equity + e.state.loss == INITIAL + t.gained)
  }

  lemma RecordTally(p: Policy, e: Engine, kind: Kind, at: int, id: int)
    ensures TallyOf(p, Record(e, kind, at, id).ledger) == Count(p, TallyOf(p, e.ledger), kind)
  {
    var r := Record(e, kind, at, id);
    assert r.ledger[..|r.ledger| - 1] == e.ledger;
  }

  /** Nothing was settled in between. */
  ghost predicate Quiet(p: Policy, e: Engine, r: Engine) {
    r.equity == e.equity && r.state == e.state && TallyOf(p, r.ledger) == TallyOf(p, e.ledger)
  }

  lemma SettleOneAudit(env: Env, e: Engine, at: int, id: int)
    requires id in e.live && Audited(env, e)
    ensures Audited(env, SettleOne(env, e, at, id))
  {
    RecordTally(env.policy, Track(Realize(env, e, id), at), SettlementKind(e, id), e.live[id].settlementAt, id);
    hide TallyOf;
    hide Pnl;
    SettledEquity(env, e, at, id);
    PnlLoss(e.live[id].request.applied, e.live[id].opportunity.action.price);
  }

  lemma PnlLoss(applied: real, price: real)
    ensures Pnl(applied, price, false) == -applied
  {
  }

  lemma SettledEquity(env: Env, e: Engine, at: int, id: int)
    requires id in e.live
    ensures var r := SettleOne(env, e, at, id);
            && r.equity == Realize(env, e, id).equity && r.state == Realize(env, e, id).state
            && r.ledger == Record(Track(Realize(env, e, id), at), SettlementKind(e, id), e.live[id].settlementAt, id).ledger
  {
  }

  lemma {:induction false} SettleEachAudit(env: Env, e: Engine, at: int, ids: seq<int>)
    requires Listed(ids, e.live) && Audited(env, e)
    ensures Audited(env, SettleEach(env, e, at, ids))
  {
    hide Audited;
    hide SettleOne;
    if ids != [] {
      SettleEachAudit(env, e, at, ids[..|ids| - 1]);
      ElementsLast(ids);
      SettleOneAudit(env, SettleEach(env, e, at, ids[..|ids| - 1]), at, ids[|ids| - 1]);
    }
  }

  lemma DropQuiet(p: Policy, e: Engine, kind: Kind, status: Status, at: int, id: int)
    requires !kind.Settlement?
    ensures Quiet(p, e, Drop(e, kind, status, at, id))
  {
    RecordTally(p, e.(pending := e.pending - {id}, statuses := e.statuses[id := status]), kind, at, id);
  }

  lemma HoldQuiet(p: Policy, e: Engine, wait: Wait, at: int, o: Wager)
    ensures Quiet(p, e, Hold(e, wait, at, o))
  {
    RecordTally(p, e.(pending := e.pending[o.identity := o], statuses := e.statuses[o.identity := PendingCapacity]),
                Waiting(wait), at, o.identity);
  }

  lemma OpenOneQuiet(env: Env, e: Engine, at: int, o: Wager, request: StakeRequest)
    ensures Quiet(env.policy, e, OpenOne(env, e, at, o, request))
  {
    RecordTally(env.policy, Observe(Enlist(env, Commit(e, request), o, request)), Placement(request, env.SettlementAt(o)), at, o.identity);
  }

  lemma DecideQuiet(env: Env, e: Engine, at: int, o: Wager, request: StakeRequest)
    ensures Quiet(env.policy, e, Decide(env, e, at, o, request))
  {
    hide Drop;
    hide Hold;
    hide OpenOne;
    hide TallyOf;
    if request.termination != Running {
      DropQuiet(env.policy, e.(termination := request.termination), PolicyStopped(request.termination), PolicyTermination, at, o.identity);
    } else if request.requested <= 0.0 || request.applied <= 0.0 {
      DropQuiet(env.policy, e, NoStake, ZeroStake, at, o.identity);
    } else if request.requested > e.equity - e.reserved {
      HoldQuiet(env.policy, e, InsufficientCash(request), at, o);
    } else {
      OpenOneQuiet(env, e, at, o, request);
    }
  }

  lemma NoteQuiet(p: Policy, e: Engine, at: int, o: Wager)
    ensures Quiet(p, e, NoteRetry(e, at, o))
  {
    RecordTally(p, e, Retry, at, o.identity);
  }

  lemma PlaceWithQuiet(env: Env, e: Engine, at: int, o: Wager, request: StakeRequest)
    ensures Quiet(env.policy, e, PlaceWith(env, e, at, o, request))
  {
    hide Drop;
    hide Hold;
    hide Decide;
    hide TallyOf;
    if e.termination != Running {
      DropQuiet(env.policy, e, Terminated(e.termination), PathTerminated, at, o.identity);
    } else if o.kickoff <= at {
      DropQuiet(env.policy, e, Expiry, ExpiredCapacity, at, o.identity);
    } else {
      NoteQuiet(env.policy, e, at, o);
      if |e.live| >= env.maxLanes {
        HoldQuiet(env.policy, NoteRetry(e, at, o), NoAvailableLane, at, o);
      } else {
        RecordTally(env.policy, NoteRetry(e, at, o), Requested(request), at, o.identity);
        DecideQuiet(env, Record(NoteRetry(e, at, o), Requested(request), at, o.identity), at, o, request);
      }
    }
  }

  lemma {:induction false} DropEachQuiet(p: Policy, e: Engine, kind: Kind, status: Status, at: int, ids: seq<int>)
    requires !kind.Settlement?
    ensures Quiet(p, e, DropEach(e, kind, status, at, ids))
  {
    hide TallyOf;
    hide Drop;
    if ids != [] {
      DropEachQuiet(p, e, kind, status, at, ids[..|ids| - 1]);
      DropQuiet(p, DropEach(e, kind, status, at, ids[..|ids| - 1]), kind, status, at, ids[|ids| - 1]);
    }
  }

  lemma {:induction false} PlaceEachQuiet(env: Env, e: Engine, at: int, merged: map<int, Wager>, ids: seq<int>)
    requires Listed(ids, merged)
    ensures Quiet(env.policy, e, PlaceEach(env, e, at, merged, ids))
  {
    hide TallyOf;
    hide PlaceWith;
    hide RequestFor;
    if ids != [] {
      var last := |ids| - 1;
      PlaceEachQuiet(env, e, at, merged, ids[..last]);
      var d := PlaceEach(env, e, at, merged, ids[..last]);
      PlaceWithQuiet(env, d, at, merged[ids[last]], RequestFor(env, d, merged[ids[last]]));
    }
  }

  /** After the settlements of a wake, the rest of the wake changes neither equity nor memory. */
  lemma StepQuiet(env: Env, e: Engine, at: int, arrivals: Book)
    ensures Quiet(env.policy, AfterSettlement(env, Wake(e, at), at), Step(env, e, at, arrivals))
  {
    hide TallyOf;
    hide DropEach;
    hide PlaceEach;
    hide AfterSettlement;
    hide AfterPlacement;
    hide Merged;
    hide Wake;
    var s := AfterSettlement(env, Wake(e, at), at);
    DropEachQuiet(env.policy, s, Expiry, ExpiredCapacity, at, Order(ExpiryRanks(s, at)));
    var x := AfterExpiry(s, at);
    DropEachQuiet(env.policy, x, NoBetSeen, NotBet, at, Order(SkipRanks(arrivals)));
    var b := AfterSkips(x, at, arrivals);
    AfterPlacementQuiet(env, b, at, arrivals);
    var p := AfterPlacement(env, b, at, arrivals);
    DropEachQuiet(env.policy, p, Terminated(p.termination), PathTerminated, at, Order(IdentityRanks(p.pending)));
  }

  lemma AfterPlacementQuiet(env: Env, b: Engine, at: int, arrivals: Book)
    ensures Quiet(env.policy, b, AfterPlacement(env, b, at, arrivals))
  {
    hide PlaceEach;
    hide Merged;
    var merged := Merged(b, arrivals);
    PlaceEachQuiet(env, b, at, merged, Order(BetRanks(merged)));
  }

  lemma StepAudit(env: Env, e: Engine, at: int, arrivals: Book)
    requires Audited(env, e)
    ensures Audited(env, Step(env, e, at, arrivals))
  {
    hide Step;
    hide TallyOf;
    hide SettleEach;
    var ids := Order(DueRanks(Wake(e, at), at));
    SettleEachAudit(env, Wake(e, at), at, ids);
    StepQuiet(env, e, at, arrivals);
  }

  /**
    Conservation over every path: equity is the initial bankroll plus every
    realized profit; for a recovery policy the carried loss is the stakes lost
    since the last win, and equity plus carried loss is the initial bankroll
    plus the gains of the closed sequences.
   */
  lemma {:induction false} PathAudited(env: Env, opps: Book, n: nat)
    ensures Audited(env, Play(env, opps, n))
  {
    hide Step;
    if n == 0 {
      StartAudited(env, opps);
    } else {
      PathAudited(env, opps, n - 1);
      hide Audited;
      var e := Play(env, opps, n - 1);
      if Awake(e) { StepAudit(env, e, Least(e.wakes), Arrivals(opps, Least(e.wakes))); }
    }
  }

  lemma StartAudited(env: Env, opps: Book)
    ensures Audited(env, Start(env, opps))
  {
  }

  // ---- one lane --------------------------------------------------------------------

  /** Whatever is open was requested from the equity and memory the path still has. */
  ghost predicate Current(env: Env, e: Engine) {
    forall k :: k in e.live ==> e.live[k].request == RequestFor(env, e, e.live[k].opportunity)
  }

  ghost predicate OneLane(env: Env, e: Engine) {
    Current(env, e) && Steady(env.policy, e.state) && TallyOf(env.policy, e.ledger).priced
  }

  lemma OnlyOne<T>(m: map<int, T>, k: int)
    requires |m| <= 1 && k in m
    ensures forall j :: j in m ==> j == k
  {
    forall j | j in m ensures j == k {
      SubsetSize({j, k}, m.Keys);
      assert |m| == |m.Keys|;
    }
  }

  lemma SettleOneLane(env: Env, e: Engine, at: int, id: int)
    requires env.Valid() && Cash(env, e) && id in e.live && |e.live| <= 1 && OneLane(env, e)
    ensures var r := SettleOne(env, e, at, id);
            && OneLane(env, r)
            && (env.policy.LegacyRecovery? ==>
                  TallyOf(env.policy, e.ledger).gained <= TallyOf(env.policy, r.ledger).gained)
  {
    var p := e.live[id];
    var o := p.opportunity;
    OnlyOne(e.live, id);
    EveryRequestCloses(env.policy, o.action.price, o.action.probability, e.equity, e.state);
    RequestContinues(env.policy, o.action.price, o.action.probability, e.equity, e.state);
    SettleSteady(env.policy, e.state, p.request, o.Won());
    RequestSound(env.policy, o.action.price, o.action.probability, e.equity, e.state);
    RecordTally(env.policy, Track(Realize(env, e, id), at), SettlementKind(e, id), p.settlementAt, id);
    hide TallyOf;
    hide Policy.Request;
    hide Policy.Settle;
    hide ClosesAs;
    hide Continues;
    hide Steady;
    assert TallyOf(env.policy, SettleOne(env, e, at, id).ledger) ==
           Count(env.policy, TallyOf(env.policy, e.ledger), SettlementKind(e, id));
    if env.policy.LegacyRecovery? { RecoveryGain(env, e, id); }
  }

  lemma RecoveryGain(env: Env, e: Engine, id: int)
    requires env.policy.LegacyRecovery? && id in e.live && e.state.Recovery?
    requires ClosesAs(env.policy, e.live[id].request, e.live[id].opportunity.action.price, e.state)
    requires e.live[id].request.target.Some? ==> 0.0 < e.live[id].request.target.value
    ensures var kind := SettlementKind(e, id);
            kind.won ==> 0.0 < kind.pnl - kind.stateBefore.Loss()
  {
  }

  lemma {:induction false} SettleEachOneLane(env: Env, e: Engine, at: int, ids: seq<int>)
    requires env.Valid() && Cash(env, e) && Listed(ids, e.live) && |e.live| <= 1 && OneLane(env, e)
    ensures var r := SettleEach(env, e, at, ids);
            && OneLane(env, r) && Cash(env, r) && |r.live| <= 1
            && (env.policy.LegacyRecovery? ==>
                  TallyOf(env.policy, e.ledger).gained <= TallyOf(env.policy, r.ledger).gained)
  {
    hide SettleOne;
    hide OneLane;
    hide Cash;
    hide TallyOf;
    if ids != [] {
      var last := |ids| - 1;
      ElementsLast(ids);
      SettleEachOneLane(env, e, at, ids[..last]);
      var d := SettleEach(env, e, at, ids[..last]);
      SettleOneLane(env, d, at, ids[last]);
      SettleOneCash(env, d, at, ids[last]);
      Fewer(e.live, set k | k in ids);
    }
  }

  lemma QuietCurrent(env: Env, e: Engine, r: Engine)
    requires Current(env, e) && r.equity == e.equity && r.state == e.state && r.live == e.live
    ensures Current(env, r)
  {
    hide Policy.Request;
  }

  lemma PlaceOneCurrent(env: Env, e: Engine, at: int, o: Wager)
    requires Current(env, e) && o.identity !in e.live && env.maxLanes == 1
    ensures Current(env, PlaceOne(env, e, at, o))
  {
    var request := RequestFor(env, e, o);
    PlaceWithTurn(env, e, at, o, request);
    PlaceWithQuiet(env, e, at, o, request);
    hide PlaceWith;
    hide TallyOf;
    hide Policy.Request;
    var r := PlaceOne(env, e, at, o);
    forall k | k in r.live ensures r.live[k].request == RequestFor(env, r, r.live[k].opportunity) {
      assert r.live != e.live ==> |e.live| == 0;
      assert k == o.identity || k in e.live;
    }
  }

  lemma {:induction false} PlaceEachCurrent(env: Env, opps: Book, e: Engine, at: int, merged: map<int, Wager>,
                                            ids: seq<int>, arriving: set<int>)
    requires Placing(env, opps, e, at, arriving, merged) && Listed(ids, merged)
    requires Current(env, e) && env.maxLanes == 1
    ensures Current(env, PlaceEach(env, e, at, merged, ids))
  {
    hide Current;
    hide PlaceOne;
    hide Placing;
    if ids != [] {
      var last := |ids| - 1;
      PlaceEachCurrent(env, opps, e, at, merged, ids[..last], arriving);
      TurnReady(env, opps, e, at, arriving, merged, ids, last);
      PlaceOneCurrent(env, PlaceEach(env, e, at, merged, ids[..last]), at, merged[ids[last]]);
    }
  }

  /** Nothing but placement opens positions. */
  lemma BeforePlacementCurrent(env: Env, e: Engine, at: int, arrivals: Book)
    requires Current(env, AfterSettlement(env, Wake(e, at), at))
    ensures Current(env, BeforePlacement(env, e, at, arrivals))
  {
    var s := AfterSettlement(env, Wake(e, at), at);
    hide Current;
    hide AfterSettlement;
    hide DropEach;
    hide TallyOf;
    DropEachFrame(s, Expiry, ExpiredCapacity, at, Order(ExpiryRanks(s, at)));
    var x := AfterExpiry(s, at);
    DropEachFrame(x, NoBetSeen, NotBet, at, Order(SkipRanks(arrivals)));
    QuietCurrent(env, s, x);
    QuietCurrent(env, x, AfterSkips(x, at, arrivals));
  }

  lemma AfterFlushCurrent(env: Env, e: Engine, at: int)
    requires Current(env, e)
    ensures Current(env, AfterFlush(e, at))
  {
    hide Current;
    hide DropEach;
    var ids := Order(IdentityRanks(e.pending));
    DropEachFrame(e, Terminated(e.termination), PathTerminated, at, ids);
    QuietCurrent(env, e, AfterFlush(e, at));
  }

  lemma AfterPlacementCurrent(env: Env, opps: Book, e: Engine, at: int)
    requires env.Valid() && Keyed(opps) && Inv(env, opps, e) && IsLeast(e.wakes, at) && env.maxLanes == 1
    requires Current(env, AfterSettlement(env, Wake(e, at), at))
    ensures var arrivals := Arrivals(opps, at);
            Current(env, AfterPlacement(env, BeforePlacement(env, e, at, arrivals), at, arrivals))
  {
    hide Inv;
    hide Current;
    hide PlaceEach;
    hide Placing;
    hide Mid;
    hide Merged;
    hide AfterSettlement;
    hide BeforePlacement;
    var arrivals := Arrivals(opps, at);
    var b := BeforePlacement(env, e, at, arrivals);
    BeforePlacementCurrent(env, e, at, arrivals);
    BeforePlacementMid(env, opps, e, at);
    MergedPlacing(env, opps, b, at, arrivals);
    var merged := Merged(b, arrivals);
    PlaceEachCurrent(env, opps, b, at, merged, Order(BetRanks(merged)), Bets(arrivals));
  }

  lemma AfterSettlementOneLane(env: Env, e: Engine, at: int)
    requires env.Valid() && Cash(env, e) && |e.live| <= 1 && OneLane(env, e)
    ensures var s := AfterSettlement(env, Wake(e, at), at);
            && Current(env, s) && Steady(env.policy, s.state) && TallyOf(env.policy, s.ledger).priced
            && (env.policy.LegacyRecovery? ==>
                  TallyOf(env.policy, e.ledger).gained <= TallyOf(env.policy, s.ledger).gained)
  {
    var w := Wake(e, at);
    WakeCash(env, e, at);
    QuietCurrent(env, e, w);
    hide Cash;
    hide SettleEach;
    hide TallyOf;
    hide Current;
    SettleEachOneLane(env, w, at, Order(DueRanks(w, at)));
  }

  lemma StepOneLane(env: Env, opps: Book, e: Engine, at: int)
    requires env.Valid() && Keyed(opps) && Inv(env, opps, e) && IsLeast(e.wakes, at) && env.maxLanes == 1
    requires OneLane(env, e)
    ensures var r := Step(env, e, at, Arrivals(opps, at));
            && OneLane(env, r)
            && (env.policy.LegacyRecovery? ==>
                  TallyOf(env.policy, e.ledger).gained <= TallyOf(env.policy, r.ledger).gained)
  {
    hide TallyOf;
    hide Current;
    hide AfterSettlement;
    hide BeforePlacement;
    hide AfterPlacement;
    hide AfterFlush;
    hide Cash;
    AfterSettlementOneLane(env, e, at);
    AfterPlacementCurrent(env, opps, e, at);
    var arrivals := Arrivals(opps, at);
    AfterFlushCurrent(env, AfterPlacement(env, BeforePlacement(env, e, at, arrivals), at, arrivals), at);
    StepQuiet(env, e, at, arrivals);
  }

  /**
    With one lane every closed recovery sequence earned exactly its price:
    the target or more under full recovery, the target less the unstaked
    shortfall at the odds when capped, the target less the given-up share of the
    losses when partial.
   */
  lemma {:induction false} OneLaneSequences(env: Env, opps: Book, n: nat)
    requires env.Valid() && Keyed(opps) && env.maxLanes == 1
    ensures OneLane(env, Play(env, opps, n))
  {
    hide Step;
    hide Start;
    hide OneLane;
    hide Inv;
    if n == 0 {
      StartOneLane(env, opps);
    } else {
      OneLaneSequences(env, opps, n - 1);
      PlayInv(env, opps, n - 1);
      var e := Play(env, opps, n - 1);
      if Awake(e) { StepOneLane(env, opps, e, Least(e.wakes)); }
    }
  }

  lemma StartOneLane(env: Env, opps: Book)
    ensures OneLane(env, Start(env, opps))
  {
  }

  /** Each settlement that the ledger records as won closed its sequence at its price. */
  lemma {:induction false} PricedWins(p: Policy, ledger: seq<Event>, i: nat)
    requires TallyOf(p, ledger).priced && i < |ledger| && ledger[i].kind.Settlement? && ledger[i].kind.won
    ensures ClosesAs(p, ledger[i].kind.bet, ledger[i].kind.price, ledger[i].kind.stateBefore)
  {
    hide ClosesAs;
    if i < |ledger| - 1 {
      assert ledger[..|ledger| - 1][i] == ledger[i];
      PricedWins(p, ledger[..|ledger| - 1], i);
    }
  }

  lemma {:induction false} TallyPrefix(p: Policy, ledger: seq<Event>, n: nat)
    requires n <= |ledger|
    ensures TallyOf(p, ledger).priced ==> TallyOf(p, ledger[..n]).priced
    ensures TallyOf(p, ledger).chained ==> TallyOf(p, ledger[..n]).chained
    decreases |ledger|
  {
    if n < |ledger| {
      assert ledger[..|ledger| - 1][..n] == ledger[..n];
      TallyPrefix(p, ledger[..|ledger| - 1], n);
    } else {
      assert ledger[..n] == ledger;
    }
  }

  lemma TallyNext(p: Policy, ledger: seq<Event>, n: nat)
    requires n < |ledger|
    ensures TallyOf(p, ledger[..n + 1]) == Count(p, TallyOf(p, ledger[..n]), ledger[n].kind)
  {
    assert ledger[..n + 1][..n] == ledger[..n];
  }

  /** Bet i opens a sequence, and nothing is won from there to n. */
  ghost predicate SequenceFrom(ledger: seq<Event>, i: nat, n: nat) {
    && i < n <= |ledger| && ledger[i].kind.Settlement? && ledger[i].kind.stateBefore.Recovery?
    && ledger[i].kind.stateBefore.target.None?
    && forall k :: i <= k < n && ledger[k].kind.Settlement? ==> !ledger[k].kind.won
  }

  /** While a sequence is open the memory holds the target of its first bet. */
  lemma {:induction false} MemoryKeepsTarget(p: Policy, ledger: seq<Event>, i: nat, n: nat)
    requires p.IsRecovery() && TallyOf(p, ledger).priced && TallyOf(p, ledger).chained && SequenceFrom(ledger, i, n)
    ensures var t := TallyOf(p, ledger[..n]);
            ledger[i].kind.bet.target.Some? && t.state.Recovery? && t.state.target == ledger[i].kind.bet.target
  {
    hide TallyOf;
    hide ClosesAs;
    TallyNext(p, ledger, n - 1);
    TallyPrefix(p, ledger, n);
    if i < n - 1 {
      MemoryKeepsTarget(p, ledger, i, n - 1);
    }
  }

  /** What bet j of a sequence that bet i opened owes to the first target. */
  predicate Earns(p: Policy, first: Kind, last: Kind)
    requires first.Settlement? && last.Settlement?
  {
    && first.bet.target.Some? && last.bet.target == first.bet.target
    && (last.won ==>
          var gain := SequenceGain(last.bet.applied, last.price, last.stateBefore);
          && (p.LegacyRecovery? ==> first.bet.target.value <= gain)
          && (p.LegacyCapped? ==> gain == first.bet.target.value - last.bet.shortfall * (last.price - 1.0)))
  }

  lemma BetEarns(p: Policy, ledger: seq<Event>, i: nat, j: nat)
    requires p.IsRecovery() && TallyOf(p, ledger).priced && TallyOf(p, ledger).chained
    requires SequenceFrom(ledger, i, j) && j < |ledger| && ledger[j].kind.Settlement?
    ensures Earns(p, ledger[i].kind, ledger[j].kind)
  {
    hide TallyOf;
    hide SequenceGain;
    MemoryKeepsTarget(p, ledger, i, j);
    TallyNext(p, ledger, j);
    TallyPrefix(p, ledger, j + 1);
  }

  /**
    With one lane the target fixed by the first bet of a recovery sequence is
    the target of every bet that follows it up to the win that closes it, and
    what that win earns is measured against it.
   */
  lemma SequenceEarns(env: Env, opps: Book, n: nat, i: nat, j: nat)
    requires env.Valid() && Keyed(opps) && env.maxLanes == 1 && env.policy.IsRecovery()
    requires var ledger := Play(env, opps, n).ledger;
             SequenceFrom(ledger, i, j) && j < |ledger| && ledger[j].kind.Settlement?
    ensures Earns(env.policy, Play(env, opps, n).ledger[i].kind, Play(env, opps, n).ledger[j].kind)
  {
    hide Play;
    hide TallyOf;
    hide Current;
    hide Earns;
    hide Steady;
    OneLaneSequences(env, opps, n);
    PathAudited(env, opps, n);
    BetEarns(env.policy, Play(env, opps, n).ledger, i, j);
  }

  /** Equity plus carried losses. */
  function Potential(e: Engine): real {
    e.equity + e.state.Loss()
  }

  lemma NextPotential(env: Env, opps: Book, e: Engine)
    requires env.Valid() && Keyed(opps) && Inv(env, opps, e) && env.maxLanes == 1 && env.policy.LegacyRecovery?
    requires OneLane(env, e) && Audited(env, e)
    ensures Potential(e) <= Potential(Next(env, opps, e))
  {
    hide Step;
    hide TallyOf;
    hide Inv;
    hide OneLane;
    if Awake(e) {
      var at := Least(e.wakes);
      StepOneLane(env, opps, e, at);
      StepAudit(env, e, at, Arrivals(opps, at));
    }
  }

  /** Under full recovery with one lane, equity plus carried losses never falls along a path. */
  lemma {:induction false} PotentialNeverFalls(env: Env, opps: Book, n: nat, m: nat)
    requires env.Valid() && Keyed(opps) && env.maxLanes == 1 && env.policy.LegacyRecovery? && n <= m
    ensures Potential(Play(env, opps, n)) <= Potential(Play(env, opps, m))
    decreases m
  {
    hide Next;
    hide Potential;
    hide Audited;
    hide Inv;
    hide OneLane;
    if n < m {
      PotentialNeverFalls(env, opps, n, m - 1);
      PathAudited(env, opps, m - 1);
      OneLaneSequences(env, opps, m - 1);
      PlayInv(env, opps, m - 1);
      NextPotential(env, opps, Play(env, opps, m - 1));
    }
  }
}

/** The imperative form of the event-time path: one object per run, updated wake by wake. */
module EventRun {
  import opened Common
  import opened Policies
  import opened Ordering
  import opened EventPath
  import opened EventInvariants
  import opened EventCompletion

  datatype Candidate = Candidate(policy: Policy, version: string, maxLanes: int)

  datatype RunError = InvalidSettlementLag | DuplicateOpportunity | CandidateContractMismatch

  datatype Report = Report(
    final: Engine,
    totalReturn: real,
    roi: Option<real>,
    economicRuin: bool,
    hardRiskPass: bool,
    structurallyComplete: bool)

  function Version(policy: Policy): string {
    match policy
    case FlatUnit(_) => "fs004-flat-unit-v1"
    case FixedFraction(_) => "fs004-fixed-fraction-bankroll-v1"
    case FixedTarget(_) => "fs004-fixed-target-no-recovery-v1"
    case LegacyRecovery(_) => "fs004-legacy-recovery-deviation-1-v1"
    case LegacyCapped(_, _, _, _) => "fs004-legacy-capped-v1"
    case LegacyPartial(_, _) => "fs004-legacy-partial-v1"
    case FractionalKelly(_) => "fs004-fractional-kelly-v1"
  }

  /** The opportunities of a listing, by identity. */
  function ById(os: seq<Opportunity>): Book
    requires Unique(os)
  {
    map o | o in os :: o.identity := o
  }

  predicate Unique(os: seq<Opportunity>) {
    forall i, j :: 0 <= i < j < |os| ==> os[i].identity != os[j].identity
  }

  lemma UniqueElements(os: seq<Opportunity>, o: Opportunity, q: Opportunity)
    requires Unique(os) && o in os && q in os && o.identity == q.identity
    ensures o == q
  {
  }

  /** After one settlement the reserve is still covered, so the resource check passes. */
  lemma SettleOneCovered(env: Env, e: Engine, at: int, id: int)
    requires env.Valid() && Cash(env, e) && id in e.live
    ensures var r := Track(Realize(env, e, id), at); r.reserved <= r.equity
  {
    SettleOneCash(env, e, at, id);
  }

  lemma SettleNone(env: Env, e: Engine, at: int)
    ensures SettleEach(env, e, at, []) == e
  {
  }

  lemma SettleNext(env: Env, e: Engine, at: int, ids: seq<int>, i: nat)
    requires Listed(ids, e.live) && i < |ids|
    ensures var d := SettleEach(env, e, at, ids[..i]);
            ids[i] in d.live && SettleEach(env, e, at, ids[..i + 1]) == SettleOne(env, d, at, ids[i])
  {
    hide SettleOne;
    assert ids[..i + 1][..i] == ids[..i];
    assert ids[i] !in ids[..i];
  }

  lemma DropNone(e: Engine, kind: Kind, status: Status, at: int)
    ensures DropEach(e, kind, status, at, []) == e
  {
  }

  lemma DropNext(e: Engine, kind: Kind, status: Status, at: int, ids: seq<int>, i: nat)
    requires i < |ids|
    ensures DropEach(e, kind, status, at, ids[..i + 1]) == Drop(DropEach(e, kind, status, at, ids[..i]), kind, status, at, ids[i])
  {
    hide Drop;
    assert ids[..i + 1][..i] == ids[..i];
  }

  lemma PlaceNone(env: Env, e: Engine, at: int, merged: map<int, Wager>)
    ensures PlaceEach(env, e, at, merged, []) == e
  {
  }

  lemma PlaceNext(env: Env, e: Engine, at: int, merged: map<int, Wager>, ids: seq<int>, i: nat)
    requires Listed(ids, merged) && i < |ids|
    ensures Listed(ids[..i], merged) && Listed(ids[..i + 1], merged)
    ensures PlaceEach(env, e, at, merged, ids[..i + 1]) == PlaceOne(env, PlaceEach(env, e, at, merged, ids[..i]), at, merged[ids[i]])
  {
    hide PlaceOne;
    assert ids[..i + 1][..i] == ids[..i];
  }

  class EventRun {
    const env: Env
    var equity: real
    var reserved: real
    var peak: Peak
    var drawdown: real
    var peakReserved: real
    var totalStaked: real
    var minCash: real
    var state: PolicyState
    var termination: Termination
    var ruined: bool
    var pending: map<int, Wager>
    var live: map<int, Position>
    var wakes: set<int>
    var statuses: map<int, Status>
    var ledger: seq<Event>
    var stakes: seq<real>
    var capHits: nat
    var underwaterAt: Option<int>
    var maxUnderwater: int
    var lastAt: Option<int>

    /** The value this run has reached. */
    function View(): Engine
      reads this
    {
      Engine(equity, reserved, peak, drawdown, peakReserved, totalStaked, minCash, state, termination, ruined,
             pending, live, wakes, statuses, ledger, stakes, capHits, underwaterAt, maxUnderwater, lastAt)
    }

    constructor (env: Env, executions: set<int>)
      ensures this.env == env
      ensures View() == Engine(INITIAL, 0.0, INITIAL, 0.0, 0.0, 0.0, INITIAL, env.policy.InitialState(), Running, false,
                               map[], map[], executions, map[], [], [], 0, None, 0, None)
    {
      this.env := env;
      equity, reserved, peak, drawdown := INITIAL, 0.0, INITIAL, 0.0;
      peakReserved, totalStaked, minCash := 0.0, 0.0, INITIAL;
      state, termination, ruined := env.policy.InitialState(), Running, false;
      pending, live, wakes, statuses := map[], map[], executions, map[];
      ledger, stakes, capHits := [], [], 0;
      underwaterAt, maxUnderwater, lastAt := None, 0, None;
    }

    method Append(kind: Kind, at: int, id: int)
      modifies this`ledger
      ensures View() == Record(old(View()), kind, at, id)
    {
      ledger := ledger + [Event(kind, at, id, equity, reserved, state)];
    }

    /** The resource check: available cash is never negative here, so it cannot raise. */
    method CheckResources()
      requires reserved <= equity
      modifies this`minCash, this`peakReserved
      ensures View() == Observe(old(View()))
    {
      if reserved > equity && equity > 0.0 {
        assert false;
      }
      minCash := Min(minCash, equity - reserved);
      peakReserved := Max(peakReserved, reserved);
    }

    /** Release one position's reserve and book its profit or loss. */
    method BookResult(id: int)
      requires id in live
      modifies this`live, this`reserved, this`state, this`equity, this`statuses
      ensures View() == Realize(env, old(View()), id)
    {
      hide Policy.Settle;
      var p := live[id];
      var won := p.opportunity.actual == p.opportunity.action.selected;
      var pnl := Pnl(p.request.applied, p.opportunity.action.price, won);
      hide Pnl;
      var (next, _) := env.policy.Settle(state, p.request, won);
      live, reserved, state := live - {id}, reserved - p.request.applied, next;
      equity, statuses := equity + pnl, statuses[id := Settled];
    }

    /** Follow the peak, the drawdown and the time spent below the peak. */
    method TrackDrawdown(at: int)
      modifies this`peak, this`drawdown, this`underwaterAt, this`maxUnderwater
      ensures View() == Track(old(View()), at)
    {
      if peak < equity {
        peak := equity;
      }
      drawdown := Max(drawdown, (peak - equity) / peak);
      if equity < peak && underwaterAt.None? {
        underwaterAt := Some(at);
      }
      if underwaterAt.Some? {
        if maxUnderwater < at - underwaterAt.value {
          maxUnderwater := at - underwaterAt.value;
        }
        if equity >= peak {
          underwaterAt := None;
        }
      }
    }

    method StopIfDepleted()
      modifies this`ruined, this`termination
      ensures View() == Deplete(old(View()))
    {
      if equity <= 0.0 {
        ruined := true;
        if termination == Running {
          termination := BankrollDepleted;
        }
      }
    }

    method SettlePosition(at: int, id: int)
      requires env.Valid() && Cash(env, View()) && id in live
      modifies this
      ensures View() == SettleOne(env, old(View()), at, id)
      ensures Cash(env, View())
    {
      ghost var before := View();
      SettleOneCash(env, before, at, id);
      SettleOneCovered(env, before, at, id);
      hide Cash;
      hide Realize;
      hide Track;
      hide Observe;
      hide Deplete;
      var p := live[id];
      var won := p.opportunity.actual == p.opportunity.action.selected;
      var pnl := Pnl(p.request.applied, p.opportunity.action.price, won);
      var kind := Settlement(p.request, p.opportunity.action.price, pnl, state, won);
      BookResult(id);
      TrackDrawdown(at);
      Append(kind, p.settlementAt, id);
      CheckResources();
      StopIfDepleted();
    }

    method SettleEachOf(at: int, ids: seq<int>)
      requires env.Valid() && Cash(env, View()) && Listed(ids, live)
      modifies this
      ensures View() == SettleEach(env, old(View()), at, ids)
    {
      hide SettleOne;
      hide Cash;
      hide SettleEach;
      ghost var before := View();
      SettleNone(env, before, at);
      assert ids[..0] == [];
      for i := 0 to |ids|
        invariant View() == SettleEach(env, before, at, ids[..i])
        invariant Cash(env, View())
      {
        SettleNext(env, before, at, ids, i);
        SettlePosition(at, ids[i]);
      }
      assert ids[..|ids|] == ids;
    }

    method SettleDue(at: int)
      requires env.Valid() && Cash(env, View())
      modifies this
      ensures View() == AfterSettlement(env, old(View()), at)
    {
      var ids := Sort(DueRanks(View(), at));
      SettleEachOf(at, ids);
    }

    method Decline(kind: Kind, status: Status, at: int, id: int)
      modifies this`pending, this`statuses, this`ledger
      ensures View() == Drop(old(View()), kind, status, at, id)
    {
      pending := pending - {id};
      statuses := statuses[id := status];
      Append(kind, at, id);
    }

    method DeclineEach(kind: Kind, status: Status, at: int, ids: seq<int>)
      modifies this`pending, this`statuses, this`ledger
      ensures View() == DropEach(old(View()), kind, status, at, ids)
    {
      hide Drop;
      hide DropEach;
      ghost var before := View();
      DropNone(before, kind, status, at);
      assert ids[..0] == [];
      for i := 0 to |ids|
        invariant View() == DropEach(before, kind, status, at, ids[..i])
      {
        DropNext(before, kind, status, at, ids, i);
        Decline(kind, status, at, ids[i]);
      }
      assert ids[..|ids|] == ids;
    }

    method KeepWaiting(wait: Wait, at: int, o: Wager)
      modifies this`pending, this`statuses, this`ledger
      ensures View() == Hold(old(View()), wait, at, o)
    {
      pending := pending[o.identity := o];
      statuses := statuses[o.identity := PendingCapacity];
      Append(Waiting(wait), at, o.identity);
    }

    method Place(at: int, o: Wager)
      requires env.Valid() && Cash(env, View()) && o.identity !in live
      modifies this
      ensures View() == PlaceOne(env, old(View()), at, o)
      ensures Cash(env, View())
    {
      ghost var before := View();
      ghost var answer := RequestFor(env, before, o);
      RequestSound(env.policy, o.action.price, o.action.probability, equity, state);
      PlaceWithCash(env, before, at, o, answer);
      hide Policy.Request;
      hide Sound;
      var key := o.identity;
      if termination != Running {
        Decline(Terminated(termination), PathTerminated, at, key);
        return;
      }
      if o.kickoff <= at {
        Decline(Expiry, ExpiredCapacity, at, key);
        return;
      }
      if key in pending {
        Append(Retry, at, key);
      }
      if |live| >= env.maxLanes {
        KeepWaiting(NoAvailableLane, at, o);
        return;
      }
      var request := env.policy.Request(o.action.price, o.action.probability, equity, state);
      Append(Requested(request), at, key);
      Answer(at, o, request);
    }

    method CommitStake(request: StakeRequest)
      modifies this`reserved, this`totalStaked, this`stakes, this`capHits
      ensures View() == Commit(old(View()), request)
    {
      reserved := reserved + request.applied;
      totalStaked := totalStaked + request.applied;
      stakes := stakes + [request.applied];
      capHits := capHits + if request.capHit then 1 else 0;
    }

    method EnlistPosition(o: Wager, request: StakeRequest)
      modifies this`pending, this`live, this`wakes, this`statuses
      ensures View() == Enlist(env, old(View()), o, request)
    {
      hide Env.SettlementAt;
      var settlementAt := env.SettlementAt(o);
      pending, statuses := pending - {o.identity}, statuses[o.identity := Open];
      live, wakes := live[o.identity := Position(settlementAt, o, request)], wakes + {settlementAt};
    }

    /** Reserve the stake, open the position and schedule its settlement. */
    method OpenPosition(at: int, o: Wager, request: StakeRequest)
      requires reserved + request.applied <= equity
      modifies this
      ensures View() == OpenOne(env, old(View()), at, o, request)
    {
      hide Observe;
      CommitStake(request);
      EnlistPosition(o, request);
      CheckResources();
      Append(Placement(request, env.SettlementAt(o)), at, o.identity);
    }

    /** Act on the policy's answer. */
    method Answer(at: int, o: Wager, request: StakeRequest)
      requires request.requested <= equity - reserved ==> reserved + request.applied <= equity
      modifies this
      ensures View() == Decide(env, old(View()), at, o, request)
    {
      hide Drop;
      hide Hold;
      hide OpenOne;
      var key := o.identity;
      if request.termination != Running {
        termination := request.termination;
        Decline(PolicyStopped(termination), PolicyTermination, at, key);
      } else if request.requested <= 0.0 || request.applied <= 0.0 {
        Decline(NoStake, ZeroStake, at, key);
      } else if request.requested > equity - reserved {
        KeepWaiting(InsufficientCash(request), at, o);
      } else {
        OpenPosition(at, o, request);
      }
    }

    method PlaceEachOf(at: int, merged: map<int, Wager>, ids: seq<int>, ghost opps: Book, ghost arriving: set<int>)
      requires Placing(env, opps, View(), at, arriving, merged) && Listed(ids, merged)
      modifies this
      ensures View() == PlaceEach(env, old(View()), at, merged, ids)
    {
      ghost var before := View();
      hide PlaceOne;
      hide PlaceEach;
      hide Cash;
      PlaceNone(env, before, at, merged);
      assert ids[..0] == [];
      for i := 0 to |ids|
        invariant Listed(ids[..i], merged)
        invariant View() == PlaceEach(env, before, at, merged, ids[..i])
      {
        TurnReady(env, opps, before, at, arriving, merged, ids, i);
        PlaceNext(env, before, at, merged, ids, i);
        Place(at, merged[ids[i]]);
      }
      assert ids[..|ids|] == ids;
    }

    /** Everything that happens at one wake. */
    method HandleWake(at: int, arrivals: seq<Opportunity>, ghost opps: Book)
      requires env.Valid() && Keyed(opps) && Inv(env, opps, View()) && IsLeast(wakes, at)
      requires Unique(arrivals) && ById(arrivals) == Arrivals(opps, at)
      modifies this
      ensures View() == Step(env, old(View()), at, Arrivals(opps, at))
    {
      ghost var before := View();
      WakeCash(env, before, at);
      hide Inv;
      hide Cash;
      hide AfterSettlement;
      hide AfterExpiry;
      hide AfterSkips;
      hide AfterPlacement;
      hide AfterFlush;
      wakes, lastAt := wakes - {at}, Some(at);
      SettleDue(at);
      ExpireDue(at);
      SkipNoBets(at, ById(arrivals));
      BeforePlacementMid(env, opps, before, at);
      PlaceMerged(at, ById(arrivals), opps);
      FlushIfStopped(at);
    }

    method ExpireDue(at: int)
      modifies this`pending, this`statuses, this`ledger
      ensures View() == AfterExpiry(old(View()), at)
    {
      hide DropEach;
      var ids := Sort(ExpiryRanks(View(), at));
      DeclineEach(Expiry, ExpiredCapacity, at, ids);
    }

    method SkipNoBets(at: int, arrivals: Book)
      modifies this`pending, this`statuses, this`ledger
      ensures View() == AfterSkips(old(View()), at, arrivals)
    {
      hide DropEach;
      var ids := Sort(SkipRanks(arrivals));
      DeclineEach(NoBetSeen, NotBet, at, ids);
    }

    method PlaceMerged(at: int, arrivals: Book, ghost opps: Book)
      requires env.Valid() && Keyed(opps) && arrivals == Arrivals(opps, at)
      requires Mid(env, opps, View(), at, Bets(arrivals)) && Hopeful(lastAt, pending)
      modifies this
      ensures View() == AfterPlacement(env, old(View()), at, arrivals)
    {
      var merged := Merged(View(), arrivals);
      MergedPlacing(env, opps, View(), at, arrivals);
      hide Mid;
      hide Merged;
      hide PlaceEach;
      hide Placing;
      var ids := Sort(BetRanks(merged));
      PlaceEachOf(at, merged, ids, opps, Bets(arrivals));
    }

    method FlushIfStopped(at: int)
      modifies this`pending, this`statuses, this`ledger
      ensures View() == AfterFlush(old(View()), at)
    {
      hide DropEach;
      if termination != Running {
        var ids := Sort(IdentityRanks(pending));
        DeclineEach(Terminated(termination), PathTerminated, at, ids);
      }
    }

    method ExpireLateOne(id: int)
      requires id in pending
      modifies this`statuses, this`ledger
      ensures View() == ExpireLate(old(View()), id)
    {
      statuses := statuses[id := ExpiredCapacity];
      Append(Expiry, pending[id].kickoff, id);
    }

    method ExpireLateEachOf(ids: seq<int>)
      requires forall j :: 0 <= j < |ids| ==> ids[j] in pending
      modifies this`statuses, this`ledger
      ensures View() == ExpireLateEach(old(View()), ids)
    {
      hide ExpireLate;
      hide ExpireLateEach;
      ghost var before := View();
      LateNone(before);
      assert ids[..0] == [];
      for i := 0 to |ids|
        invariant View() == ExpireLateEach(before, ids[..i])
      {
        LateNext(before, ids, i);
        ExpireLateOne(ids[i]);
      }
      assert ids[..|ids|] == ids;
    }

    /** What still waits when the path has fallen silent expires at its kickoff. */
    method ExpireRest()
      modifies this`statuses, this`ledger, this`maxUnderwater
      ensures View() == Finish(old(View()))
    {
      hide ExpireLateEach;
      var ids := Sort(FinalRanks(View()));
      ExpireLateEachOf(ids);
      if underwaterAt.Some? && lastAt.Some? && maxUnderwater < lastAt.value - underwaterAt.value {
        maxUnderwater := lastAt.value - underwaterAt.value;
      }
    }
  }

  // ---- the whole path --------------------------------------------------------------

  /** The opportunities of a listing that execute at one instant, in listing order. */
  function Group(os: seq<Opportunity>, at: int): seq<Opportunity> {
    if os == [] then []
    else
      var last := os[|os| - 1];
      Group(os[..|os| - 1], at) + if last.executionAt == at then [last] else []
  }

  lemma {:induction false} GroupElements(os: seq<Opportunity>, at: int)
    ensures forall o :: o in Group(os, at) <==> o in os && o.executionAt == at
    ensures Unique(os) ==> Unique(Group(os, at))
  {
    if os != [] {
      var last := |os| - 1;
      GroupElements(os[..last], at);
      assert os == os[..last] + [os[last]];
      if Unique(os) {
        assert Unique(os[..last]);
        assert os[last] !in os[..last];
        assert forall o :: o in os[..last] ==> o.identity != os[last].identity;
      }
    }
  }

  lemma GroupArrives(os: seq<Opportunity>, at: int)
    requires Unique(os)
    ensures Unique(Group(os, at)) && ById(Group(os, at)) == Arrivals(ById(os), at)
  {
    GroupElements(os, at);
    var a, b := ById(Group(os, at)), Arrivals(ById(os), at);
    forall k ensures k in a <==> k in b {
      if k in b { assert b[k] in Group(os, at); }
    }
    forall k | k in a ensures a[k] == b[k] {
      UniqueElements(os, a[k], b[k]);
    }
  }

  function Identities(os: seq<Opportunity>): set<int> {
    set o | o in os :: o.identity
  }

  lemma IdentitiesLast(os: seq<Opportunity>)
    requires os != []
    ensures var last := |os| - 1;
            Identities(os) == Identities(os[..last]) + {os[last].identity}
  {
    var last := |os| - 1;
    assert os == os[..last] + [os[last]];
    forall k | k in Identities(os[..last]) + {os[last].identity} ensures k in Identities(os) {
      if k == os[last].identity {
        assert os[last] in os;
      } else {
        var o :| o in os[..last] && o.identity == k;
        assert o in os;
      }
    }
  }

  lemma UniqueLast(os: seq<Opportunity>)
    requires os != []
    ensures var last := |os| - 1;
            Unique(os) <==> Unique(os[..last]) && os[last].identity !in Identities(os[..last])
  {
    var last := |os| - 1;
    if Unique(os[..last]) && os[last].identity !in Identities(os[..last]) {
      forall i, j | 0 <= i < j < |os| ensures os[i].identity != os[j].identity {
        assert os[..last][i] == os[i];
        assert os[i].identity in Identities(os[..last]);
        if j < last { assert os[..last][j] == os[j]; }
      }
    }
  }

  lemma {:induction false} UniqueCount(os: seq<Opportunity>)
    ensures |Identities(os)| <= |os|
    ensures |Identities(os)| == |os| <==> Unique(os)
  {
    hide Unique;
    if os == [] {
      assert forall k :: k !in Identities(os);
      assert Identities(os) == {};
      UniqueEmpty(os);
    } else {
      var front := os[..|os| - 1];
      UniqueCount(front);
      IdentitiesLast(os);
      UniqueLast(os);
      hide Identities;
      if os[|os| - 1].identity in Identities(front) {
        assert Identities(os) == Identities(front);
      }
    }
  }

  lemma UniqueEmpty(os: seq<Opportunity>)
    requires os == []
    ensures Unique(os)
  {
  }

  lemma {:induction false} SilentStays(env: Env, opps: Book, n: nat, m: nat)
    requires n <= m && !Awake(Play(env, opps, n))
    ensures Play(env, opps, m) == Play(env, opps, n)
  {
    hide Step;
    if n < m { SilentStays(env, opps, n, m - 1); }
  }

  lemma SilentIsPath(env: Env, opps: Book, n: nat)
    requires env.Valid() && Keyed(opps) && !Awake(Play(env, opps, n))
    ensures Play(env, opps, n) == Play(env, opps, Bound(opps))
  {
    hide Play;
    FallsSilent(env, opps, Bound(opps));
    if n <= Bound(opps) { SilentStays(env, opps, n, Bound(opps)); } else { SilentStays(env, opps, Bound(opps), n); }
  }

  lemma LateNone(e: Engine)
    ensures ExpireLateEach(e, []) == e
  {
  }

  lemma LateNext(e: Engine, ids: seq<int>, i: nat)
    requires i < |ids| && forall j :: 0 <= j < |ids| ==> ids[j] in e.pending
    ensures var d := ExpireLateEach(e, ids[..i]);
            d.pending == e.pending && ExpireLateEach(e, ids[..i + 1]) == ExpireLate(d, ids[i])
  {
    hide ExpireLate;
    assert ids[..i + 1][..i] == ids[..i];
  }

  function ReportOf(f: Engine, opportunities: nat): Report {
    Report(f,
           (f.equity - INITIAL) / INITIAL,
           if f.totalStaked == 0.0 then None else Some((f.equity - INITIAL) / f.totalStaked),
           f.ruined || f.equity <= 0.0 || f.termination == BankrollDepleted,
           !(f.ruined || f.equity <= 0.0 || f.termination != Running),
           |f.statuses| == opportunities)
  }

  predicate Matches(c: Candidate) {
    c.version == Version(c.policy) && 1 <= c.maxLanes
  }

  /**
    Run one path from scratch. The result is the specified path over the set
    of opportunities, whatever the order in which they were listed.
   */
  method RunEventPath(opportunities: seq<Opportunity>, candidate: Candidate, lag: int)
    returns (r: Result<Report, RunError>)
    ensures lag !in {120, 130, 150} <==> r == Failure(InvalidSettlementLag)
    ensures lag in {120, 130, 150} && !Unique(opportunities) <==> r == Failure(DuplicateOpportunity)
    ensures r.Success? <==>
              lag in {120, 130, 150} && Unique(opportunities) && candidate.policy.Valid() && Matches(candidate)
    ensures r.Success? ==>
              && r.value == ReportOf(Path(Env(candidate.policy, candidate.maxLanes, lag), ById(opportunities)), |opportunities|)
              && r.value.structurallyComplete
              && (r.value.economicRuin <==> r.value.final.equity == 0.0)
  {
    if lag != 120 && lag != 130 && lag != 150 {
      return Failure(InvalidSettlementLag);
    }
    var identities := Identities(opportunities);
    UniqueCount(opportunities);
    if |identities| != |opportunities| {
      return Failure(DuplicateOpportunity);
    }
    if !candidate.policy.Valid() || !Matches(candidate) {
      return Failure(CandidateContractMismatch);
    }
    var env := Env(candidate.policy, candidate.maxLanes, lag);
    var f := RunToEnd(env, opportunities);
    PathComplete(env, ById(opportunities));
    PathRuin(env, ById(opportunities));
    StatusCount(f, opportunities);
    r := Success(ReportOf(f, |opportunities|));
  }

  lemma StatusCount(f: Engine, os: seq<Opportunity>)
    requires Unique(os) && Complete(ById(os), f)
    ensures |f.statuses| == |os|
  {
    UniqueCount(os);
    forall k ensures k in f.statuses <==> k in Identities(os) {
      assert k in ById(os) <==> k in Identities(os);
    }
    assert f.statuses.Keys == Identities(os);
    assert |f.statuses| == |f.statuses.Keys|;
  }

  lemma PathRuin(env: Env, opps: Book)
    requires env.Valid() && Keyed(opps)
    ensures var f := Path(env, opps);
            && 0.0 <= f.equity
            && (f.ruined <==> f.equity == 0.0)
            && (f.termination == BankrollDepleted ==> f.equity == 0.0)
  {
    hide LateExpiry;
    hide Books;
    PlayInv(env, opps, Bound(opps));
    LateStatuses(Play(env, opps, Bound(opps)));
  }

  /** What the groups still hold for one instant. */
  function Held(groups: map<int, seq<Opportunity>>, at: int): seq<Opportunity> {
    if at in groups then groups[at] else []
  }

  lemma GroupNext(os: seq<Opportunity>, i: nat, t: int)
    requires i < |os|
    ensures Group(os[..i + 1], t) == if os[i].executionAt == t then Group(os[..i], t) + [os[i]] else Group(os[..i], t)
  {
    assert os[..i + 1][..i] == os[..i];
  }

  /** The groups hold exactly the non-empty groups of a listing. */
  ghost predicate Grouped(groups: map<int, seq<Opportunity>>, os: seq<Opportunity>) {
    forall t :: Held(groups, t) == Group(os, t) && (t in groups <==> Group(os, t) != [])
  }

  lemma GroupAdd(groups: map<int, seq<Opportunity>>, os: seq<Opportunity>, i: nat)
    requires i < |os| && Grouped(groups, os[..i])
    ensures Grouped(groups[os[i].executionAt := Held(groups, os[i].executionAt) + [os[i]]], os[..i + 1])
  {
    var at := os[i].executionAt;
    var next := groups[at := Held(groups, at) + [os[i]]];
    forall t ensures Held(next, t) == Group(os[..i + 1], t) && (t in next <==> Group(os[..i + 1], t) != []) {
      GroupNext(os, i, t);
      assert Held(groups, t) == Group(os[..i], t);
    }
  }

  method GroupByExecution(os: seq<Opportunity>) returns (groups: map<int, seq<Opportunity>>)
    ensures Grouped(groups, os)
  {
    groups := map[];
    assert os[..0] == [];
    assert Grouped(groups, os[..0]);
    hide Grouped;
    for i := 0 to |os|
      invariant Grouped(groups, os[..i])
    {
      var o := os[i];
      GroupAdd(groups, os, i);
      groups := groups[o.executionAt := Held(groups, o.executionAt) + [o]];
    }
    assert os[..|os|] == os;
  }

  /** A run in its starting state, with the groups it will consume. */
  method Begin(env: Env, os: seq<Opportunity>) returns (run: EventRun, groups: map<int, seq<Opportunity>>)
    requires Unique(os)
    ensures fresh(run) && run.env == env && run.View() == Play(env, ById(os), 0) && run.lastAt == None
    ensures Grouped(groups, os)
  {
    groups := GroupByExecution(os);
    run := new EventRun(env, groups.Keys);
    StartWakes(env, os, groups);
    hide Grouped;
  }

  method RunToEnd(env: Env, opportunities: seq<Opportunity>) returns (f: Engine)
    requires env.Valid() && Unique(opportunities)
    ensures f == Path(env, ById(opportunities))
  {
    hide Inv;
    hide Step;
    hide Finish;
    hide Group;
    hide Held;
    hide Play;
    hide Owed;
    ghost var opps := ById(opportunities);
    assert Keyed(opps);
    hide ById;
    var run, groups := Begin(env, opportunities);
    ghost var n := 0;
    while exists w :: w in run.wakes
      invariant run.env == env && run.View() == Play(env, opps, n)
      invariant forall t :: (run.lastAt.Some? ==> run.lastAt.value < t) ==> Held(groups, t) == Group(opportunities, t)
      decreases Owed(run.View()) + |opps|
    {
      var at := NextWake(env, opps, run, n);
      GroupArrives(opportunities, at);
      var arrivals := Held(groups, at);
      HeldElsewhere(groups, at);
      groups := groups - {at};
      run.HandleWake(at, arrivals, opps);
      assert run.lastAt == run.View().lastAt;
      n := n + 1;
    }
    SilentIsPath(env, opps, n);
    run.ExpireRest();
    f := run.View();
  }

  lemma StartWakes(env: Env, os: seq<Opportunity>, groups: map<int, seq<Opportunity>>)
    requires Unique(os) && Grouped(groups, os)
    ensures Start(env, ById(os)).wakes == groups.Keys
  {
    var wakes := Start(env, ById(os)).wakes;
    forall t ensures t in wakes <==> t in groups {
      GroupElements(os, t);
      assert t in groups <==> Group(os, t) != [];
      if t in wakes {
        var k :| k in ById(os) && ById(os)[k].executionAt == t;
        assert ById(os)[k] in os;
      }
      if t in groups {
        var o := Group(os, t)[0];
        assert o in Group(os, t);
        assert o.identity in ById(os);
        UniqueElements(os, o, ById(os)[o.identity]);
      }
    }
  }

  /** The order in which opportunities are listed changes neither the trace nor any metric. */
  lemma ListingOrderIrrelevant(env: Env, os: seq<Opportunity>, qs: seq<Opportunity>)
    requires multiset(os) == multiset(qs)
    ensures Unique(os) <==> Unique(qs)
    ensures Unique(os) ==> ReportOf(Path(env, ById(os)), |os|) == ReportOf(Path(env, ById(qs)), |qs|)
  {
    hide Path;
    hide ById;
    hide ReportOf;
    SameListed(os, qs);
    UniqueCount(os);
    UniqueCount(qs);
    hide Unique;
    hide Identities;
    if Unique(os) { SameById(os, qs); }
  }

  lemma SameListed(os: seq<Opportunity>, qs: seq<Opportunity>)
    requires multiset(os) == multiset(qs)
    ensures |os| == |qs| && (forall o :: o in os <==> o in qs) && Identities(os) == Identities(qs)
  {
    assert |os| == |multiset(os)| && |qs| == |multiset(qs)|;
    forall o ensures o in os <==> o in qs {
      assert o in os <==> o in multiset(os);
      assert o in qs <==> o in multiset(qs);
    }
  }

  lemma SameById(os: seq<Opportunity>, qs: seq<Opportunity>)
    requires Unique(os) && Unique(qs) && forall o :: o in os <==> o in qs
    ensures ById(os) == ById(qs)
  {
    forall k ensures k in ById(os) <==> k in ById(qs) {
      if k in ById(os) { assert ById(os)[k] in qs; }
      if k in ById(qs) { assert ById(qs)[k] in os; }
    }
    forall k | k in ById(os) ensures ById(os)[k] == ById(qs)[k] {
      UniqueElements(os, ById(os)[k], ById(qs)[k]);
    }
  }

  lemma HeldElsewhere(groups: map<int, seq<Opportunity>>, at: int)
    ensures forall t :: at < t ==> Held(groups - {at}, t) == Held(groups, t)
  {
  }

  /** The least scheduled instant, and what is known about the wake it starts. */
  method NextWake(env: Env, ghost opps: Book, run: EventRun, ghost n: nat) returns (at: int)
    requires env.Valid() && Keyed(opps) && run.View() == Play(env, opps, n)
    requires exists w :: w in run.wakes
    ensures IsLeast(run.wakes, at) && Inv(env, opps, run.View())
    ensures run.lastAt.Some? ==> run.lastAt.value < at
    ensures Play(env, opps, n + 1) == Step(env, run.View(), at, Arrivals(opps, at))
    ensures Step(env, run.View(), at, Arrivals(opps, at)).lastAt == Some(at)
    ensures -|opps| < Owed(run.View())
    ensures Owed(Step(env, run.View(), at, Arrivals(opps, at))) < Owed(run.View())
  {
    hide Inv;
    hide Step;
    PlayInv(env, opps, n);
    OwedAtMost(env, opps, run.View());
    NextOwed(env, opps, run.View());
    WakesIncrease(env, opps, n);
    LeastExists(run.wakes);
    at :| at in run.wakes && forall w :: w in run.wakes ==> at <= w;
  }
}

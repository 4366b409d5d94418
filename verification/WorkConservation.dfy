/**
  Work conservation: an opportunity that could have been placed expires for
  want of capacity exactly when, at its turn of every wake between execution
  and kickoff, capacity was really missing.
 */
module WorkConservation {
  import opened Common
  import opened Policies
  import opened Ordering
  import opened EventPath
  import opened EventInvariants
  import opened EventCompletion

  ghost function IndexOf(ids: seq<int>, id: int): (i: nat)
    requires id in ids
    ensures i < |ids| && ids[i] == id
  {
    var i: nat :| i < |ids| && ids[i] == id;
    i
  }

  /** The state in which one merged opportunity has its turn, all better ranked ones having had theirs. */
  ghost function TurnIn(env: Env, b: Engine, at: int, merged: map<int, Wager>, id: int): Engine
    requires id in merged
  {
    var ids := Order(BetRanks(merged));
    assert id in BetRanks(merged);
    PlaceEach(env, b, at, merged, ids[..IndexOf(ids, id)])
  }

  /** Capacity is missing: no free lane, or a real request larger than the available cash. */
  ghost predicate LacksCapacity(env: Env, e: Engine, o: Wager) {
    var request := RequestFor(env, e, o);
    |e.live| >= env.maxLanes
    || (request.termination == Running && 0.0 < request.requested && 0.0 < request.applied
        && request.requested > e.equity - e.reserved)
  }

  /** At this wake the opportunity has its turn, capacity is missing, and the path does not stop. */
  ghost predicate Starved(env: Env, opps: Book, e: Engine, at: int, id: int) {
    var b := BeforePlacement(env, e, at, Arrivals(opps, at));
    var merged := Merged(b, Arrivals(opps, at));
    && id in merged
    && LacksCapacity(env, TurnIn(env, b, at, merged, id), merged[id])
    && Step(env, e, at, Arrivals(opps, at)).termination == Running
  }

  /** Where one opportunity stands: its status, and whether it waits. */
  datatype Standing = Standing(status: Option<Status>, waits: bool) {
    /** Decided in some way other than expiry. */
    predicate Gone() {
      status.Some? && status.value != PendingCapacity && status.value != ExpiredCapacity && !waits
    }
  }

  const Waiting := Standing(Some(PendingCapacity), true)
  const Expired := Standing(Some(ExpiredCapacity), false)

  function Look(e: Engine, id: int): Standing {
    Standing(if id in e.statuses then Some(e.statuses[id]) else None, id in e.pending)
  }

  // ---- who touches whose standing --------------------------------------------------

  lemma SettleOneLook(env: Env, e: Engine, at: int, k: int, id: int)
    requires k in e.live
    ensures Look(SettleOne(env, e, at, k), id) ==
            if id == k then Standing(Some(Settled), id in e.pending) else Look(e, id)
    ensures SettleOne(env, e, at, k).termination == Running ==> e.termination == Running
  {
  }

  lemma DropLook(e: Engine, kind: Kind, status: Status, at: int, k: int, id: int)
    ensures Look(Drop(e, kind, status, at, k), id) == if id == k then Standing(Some(status), false) else Look(e, id)
  {
  }

  lemma HoldLook(e: Engine, wait: Wait, at: int, o: Wager, id: int)
    ensures Look(Hold(e, wait, at, o), id) == if id == o.identity then Waiting else Look(e, id)
  {
  }

  lemma OpenOneLook(env: Env, e: Engine, at: int, o: Wager, request: StakeRequest, id: int)
    ensures Look(OpenOne(env, e, at, o, request), id) ==
            if id == o.identity then Standing(Some(Open), false) else Look(e, id)
  {
  }

  ghost predicate Capacity(env: Env, e: Engine, request: StakeRequest) {
    !(|e.live| >= env.maxLanes
      || (request.termination == Running && 0.0 < request.requested && 0.0 < request.applied
          && request.requested > e.equity - e.reserved))
  }

  lemma DecideLook(env: Env, e: Engine, at: int, o: Wager, request: StakeRequest, id: int)
    requires |e.live| < env.maxLanes
    ensures var r := Decide(env, e, at, o, request);
            if id != o.identity then Look(r, id) == Look(e, id)
            else if Capacity(env, e, request) then Look(r, id).Gone()
            else Look(r, id) == Waiting && r.termination == e.termination
  {
    hide Drop;
    hide Hold;
    hide OpenOne;
    hide Look;
    if request.termination != Running {
      DropLook(e.(termination := request.termination), PolicyStopped(request.termination), PolicyTermination, at, o.identity, id);
      StopLook(e, request.termination, id);
    } else if request.requested <= 0.0 || request.applied <= 0.0 {
      DropLook(e, NoStake, ZeroStake, at, o.identity, id);
    } else if request.requested > e.equity - e.reserved {
      HoldLook(e, InsufficientCash(request), at, o, id);
      assert Hold(e, InsufficientCash(request), at, o).termination == e.termination by { HoldRuns(e, InsufficientCash(request), at, o); }
    } else {
      OpenOneLook(env, e, at, o, request, id);
    }
  }

  lemma StopLook(e: Engine, reason: Termination, id: int)
    ensures Look(e.(termination := reason), id) == Look(e, id)
  {
  }

  lemma HoldRuns(e: Engine, wait: Wait, at: int, o: Wager)
    ensures Hold(e, wait, at, o).termination == e.termination
  {
  }

  /** What a turn does to every standing; before kickoff it ends waiting exactly when capacity is missing. */
  lemma PlaceWithLook(env: Env, e: Engine, at: int, o: Wager, request: StakeRequest, id: int)
    ensures var r := PlaceWith(env, e, at, o, request);
            if id != o.identity then Look(r, id) == Look(e, id)
            else at < o.kickoff ==>
                   if e.termination == Running && !Capacity(env, e, request) then
                     Look(r, id) == Waiting && r.termination == Running
                   else
                     Look(r, id).Gone()
  {
    hide Drop;
    hide Decide;
    if e.termination != Running {
      DropLook(e, Terminated(e.termination), PathTerminated, at, o.identity, id);
    } else if o.kickoff <= at {
      DropLook(e, Expiry, ExpiredCapacity, at, o.identity, id);
    } else if |e.live| >= env.maxLanes {
      HoldLook(NoteRetry(e, at, o), NoAvailableLane, at, o, id);
      assert Look(NoteRetry(e, at, o), id) == Look(e, id);
    } else {
      var n := Record(NoteRetry(e, at, o), Requested(request), at, o.identity);
      assert Look(n, id) == Look(e, id);
      DecideLook(env, n, at, o, request, id);
    }
  }

  lemma {:induction false} SettleEachLook(env: Env, e: Engine, at: int, ids: seq<int>, id: int)
    requires Listed(ids, e.live)
    ensures var r := SettleEach(env, e, at, ids);
            Look(r, id) == if id in Elements(ids) then Standing(Some(Settled), id in e.pending) else Look(e, id)
  {
    hide SettleOne;
    if ids != [] {
      var last := |ids| - 1;
      ElementsLast(ids);
      SettleEachLook(env, e, at, ids[..last], id);
      var d := SettleEach(env, e, at, ids[..last]);
      SettleOneLook(env, d, at, ids[last], id);
      assert id in d.pending <==> id in e.pending by { assert Look(d, id).waits == Look(e, id).waits; }
    }
  }

  lemma {:induction false} DropEachLook(e: Engine, kind: Kind, status: Status, at: int, ids: seq<int>, id: int)
    requires Distinct(ids)
    ensures Look(DropEach(e, kind, status, at, ids), id) ==
            if id in Elements(ids) then Standing(Some(status), false) else Look(e, id)
  {
    hide Look;
    hide Drop;
    if ids != [] {
      var last := |ids| - 1;
      ElementsLast(ids);
      DropEachLook(e, kind, status, at, ids[..last], id);
      DropLook(DropEach(e, kind, status, at, ids[..last]), kind, status, at, ids[last], id);
    }
  }

  lemma {:induction false} PlaceEachLook(env: Env, e: Engine, at: int, merged: map<int, Wager>, ids: seq<int>, i: nat, id: int)
    requires Listed(ids, merged) && i <= |ids| && forall k :: k in merged ==> merged[k].identity == k
    requires forall j :: i <= j < |ids| ==> ids[j] != id
    ensures Look(PlaceEach(env, e, at, merged, ids[..i]), id) == Look(PlaceEach(env, e, at, merged, ids), id)
  {
    hide Look;
    hide PlaceWith;
    hide RequestFor;
    if i == |ids| {
      assert ids[..i] == ids;
    } else {
      var last := |ids| - 1;
      assert ids[..last][..i] == ids[..i];
      PlaceEachLook(env, e, at, merged, ids[..last], i, id);
      var d := PlaceEach(env, e, at, merged, ids[..last]);
      PlaceWithLook(env, d, at, merged[ids[last]], RequestFor(env, d, merged[ids[last]]), id);
    }
  }

  lemma StoppedStays(env: Env, e: Engine, at: int, o: Wager, request: StakeRequest)
    requires e.termination != Running
    ensures PlaceWith(env, e, at, o, request).termination != Running
  {
    hide Decide;
  }

  lemma {:induction false} PlaceEachStops(env: Env, e: Engine, at: int, merged: map<int, Wager>, ids: seq<int>, i: nat)
    requires Listed(ids, merged) && i <= |ids|
    requires PlaceEach(env, e, at, merged, ids[..i]).termination != Running
    ensures PlaceEach(env, e, at, merged, ids).termination != Running
  {
    hide PlaceWith;
    hide RequestFor;
    if i == |ids| {
      assert ids[..i] == ids;
    } else {
      var last := |ids| - 1;
      assert ids[..last][..i] == ids[..i];
      PlaceEachStops(env, e, at, merged, ids[..last], i);
      var d := PlaceEach(env, e, at, merged, ids[..last]);
      StoppedStays(env, d, at, merged[ids[last]], RequestFor(env, d, merged[ids[last]]));
    }
  }

  lemma TurnLook(env: Env, b: Engine, at: int, merged: map<int, Wager>, ids: seq<int>, i: nat)
    requires Listed(ids, merged) && i < |ids| && forall k :: k in merged ==> merged[k].identity == k
    requires at < merged[ids[i]].kickoff
    ensures var t := PlaceEach(env, b, at, merged, ids[..i]);
            var p := PlaceEach(env, b, at, merged, ids);
            && (p.termination == Running ==> t.termination == Running)
            && if t.termination == Running && LacksCapacity(env, t, merged[ids[i]]) then
                 Look(p, ids[i]) == Waiting
               else
                 Look(p, ids[i]).Gone()
  {
    hide PlaceWith;
    hide Look;
    var id := ids[i];
    var t := PlaceEach(env, b, at, merged, ids[..i]);
    var request := RequestFor(env, t, merged[id]);
    PlaceWithLook(env, t, at, merged[id], request, id);
    assert Capacity(env, t, request) <==> !LacksCapacity(env, t, merged[id]);
    hide RequestFor;
    hide LacksCapacity;
    hide Capacity;
    assert ids[..i + 1][..i] == ids[..i];
    assert PlaceEach(env, b, at, merged, ids[..i + 1]) == PlaceWith(env, t, at, merged[id], request);
    PlaceEachLook(env, b, at, merged, ids, i + 1, id);
    if t.termination != Running { PlaceEachStops(env, b, at, merged, ids, i); }
  }

  /** Before kickoff, placement leaves an opportunity waiting exactly when capacity was missing at its turn. */
  lemma PlacementLook(env: Env, b: Engine, at: int, merged: map<int, Wager>, id: int)
    requires id in merged && at < merged[id].kickoff && forall k :: k in merged ==> merged[k].identity == k
    ensures var t := TurnIn(env, b, at, merged, id);
            var p := PlaceEach(env, b, at, merged, Order(BetRanks(merged)));
            && (p.termination == Running ==> t.termination == Running)
            && if t.termination == Running && LacksCapacity(env, t, merged[id]) then
                 Look(p, id) == Waiting
               else
                 Look(p, id).Gone()
  {
    hide Look;
    hide LacksCapacity;
    hide PlaceEach;
    var ids := Order(BetRanks(merged));
    assert id in BetRanks(merged);
    hide BetRanks;
    TurnLook(env, b, at, merged, ids, IndexOf(ids, id));
  }

  // ---- one wake --------------------------------------------------------------------

  /** The standing an opportunity has while all its turns so far lacked capacity. */
  ghost predicate OnCourse(opps: Book, e: Engine, id: int)
    requires id in opps
  {
    if !HasArrived(opps[id], e.lastAt) then Look(e, id) == Standing(None, false)
    else if e.lastAt.value < opps[id].kickoff then Look(e, id) == Waiting
    else Look(e, id) == Expired
  }

  /** Settling touches only what is open. */
  lemma AfterSettlementLook(env: Env, e: Engine, at: int, id: int)
    ensures id !in e.live ==> Look(AfterSettlement(env, e, at), id) == Look(e, id)
    ensures Look(e, id).Gone() ==> Look(AfterSettlement(env, e, at), id).Gone()
  {
    hide SettleEach;
    var ids := Order(DueRanks(e, at));
    SettleEachLook(env, e, at, ids, id);
    assert id in ids <==> id in DueRanks(e, at);
  }

  lemma AfterExpiryLook(e: Engine, at: int, id: int)
    ensures Look(AfterExpiry(e, at), id) ==
            if id in e.pending && e.pending[id].kickoff <= at then Expired else Look(e, id)
  {
    hide DropEach;
    hide Look;
    var ids := Order(ExpiryRanks(e, at));
    DropEachLook(e, Expiry, ExpiredCapacity, at, ids, id);
    assert id in ids <==> id in ExpiryRanks(e, at);
  }

  lemma AfterSkipsLook(e: Engine, at: int, arrivals: Book, id: int)
    requires id in arrivals ==> arrivals[id].action.Bet?
    ensures Look(AfterSkips(e, at, arrivals), id) == Look(e, id)
  {
    hide DropEach;
    hide Look;
    var ids := Order(SkipRanks(arrivals));
    DropEachLook(e, NoBetSeen, NotBet, at, ids, id);
    assert id in ids <==> id in SkipRanks(arrivals);
  }

  lemma AfterFlushLook(e: Engine, at: int, id: int)
    ensures AfterFlush(e, at).termination == e.termination
    ensures e.termination == Running ==> Look(AfterFlush(e, at), id) == Look(e, id)
    ensures e.termination != Running && Look(e, id).waits ==> Look(AfterFlush(e, at), id).Gone()
    ensures !Look(e, id).waits ==> Look(AfterFlush(e, at), id) == Look(e, id)
  {
    hide DropEach;
    var ids := Order(IdentityRanks(e.pending));
    DropEachLook(e, Terminated(e.termination), PathTerminated, at, ids, id);
    DropEachFrame(e, Terminated(e.termination), PathTerminated, at, ids);
    assert id in ids <==> id in IdentityRanks(e.pending);
  }

  lemma BeforePlacementLook(env: Env, opps: Book, e: Engine, at: int, id: int)
    requires env.Valid() && Inv(env, opps, e) && IsLeast(e.wakes, at)
    requires id in opps && opps[id].action.Bet?
    ensures var b := BeforePlacement(env, e, at, Arrivals(opps, at));
            && (Look(e, id).Gone() ==> Look(b, id).Gone())
            && (id !in e.live ==>
                  Look(b, id) == if id in e.pending && e.pending[id].kickoff <= at then Expired else Look(e, id))
  {
    AfterSettlementMid(env, opps, e, at);
    hide Inv;
    hide AfterSettlement;
    hide AfterExpiry;
    hide AfterSkips;
    var w := Wake(e, at);
    var s := AfterSettlement(env, w, at);
    AfterSettlementLook(env, w, at, id);
    AfterExpiryLook(s, at, id);
    AfterSkipsLook(AfterExpiry(s, at), at, Arrivals(opps, at), id);
    assert Look(w, id) == Look(e, id) && w.live == e.live;
  }

  /** What is merged at a wake: the arrivals of that instant and whatever still waits. */
  lemma MergedIs(env: Env, opps: Book, e: Engine, at: int, id: int)
    requires env.Valid() && Inv(env, opps, e) && IsLeast(e.wakes, at) && Keyed(opps)
    requires id in opps && opps[id].action.Bet?
    ensures var merged := Merged(BeforePlacement(env, e, at, Arrivals(opps, at)), Arrivals(opps, at));
            && (id in merged <==> opps[id].executionAt == at || (id in e.pending && at < opps[id].kickoff))
            && (id in merged ==> merged[id] == opps[id])
            && (forall k :: k in merged ==> merged[k].identity == k)
  {
    hide BeforePlacement;
    hide Cash;
    hide Clock;
    hide Mid;
    hide Scheduled;
    BeforePlacementMid(env, opps, e, at);
  }

  lemma UnmergedLook(env: Env, b: Engine, at: int, arrivals: Book, id: int)
    requires id !in Merged(b, arrivals) && forall k :: k in Merged(b, arrivals) ==> Merged(b, arrivals)[k].identity == k
    ensures Look(AfterPlacement(env, b, at, arrivals), id) == Look(b, id)
  {
    hide Look;
    hide PlaceEach;
    var merged := Merged(b, arrivals);
    var ids := Order(BetRanks(merged));
    forall j | 0 <= j < |ids| ensures ids[j] != id { assert ids[j] in BetRanks(merged); }
    hide Merged;
    hide BetRanks;
    PlaceEachLook(env, b, at, merged, ids, 0, id);
    StartOfPlacement(env, b, at, merged, ids);
  }

  lemma StartOfPlacement(env: Env, b: Engine, at: int, merged: map<int, Wager>, ids: seq<int>)
    requires Listed(ids, merged)
    ensures PlaceEach(env, b, at, merged, ids[..0]) == b
  {
  }

  lemma StepUnmerged(env: Env, opps: Book, e: Engine, at: int, id: int)
    requires env.Valid() && Inv(env, opps, e) && IsLeast(e.wakes, at) && Keyed(opps)
    requires id in opps && opps[id].action.Bet? && opps[id].executionAt != at
    requires id in e.pending ==> opps[id].kickoff <= at
    ensures var b := BeforePlacement(env, e, at, Arrivals(opps, at));
            var r := Step(env, e, at, Arrivals(opps, at));
            !Look(b, id).waits ==> Look(r, id) == Look(b, id)
  {
    hide Inv;
    hide Look;
    hide BeforePlacement;
    hide AfterPlacement;
    hide AfterFlush;
    var b := BeforePlacement(env, e, at, Arrivals(opps, at));
    MergedIs(env, opps, e, at, id);
    hide Merged;
    UnmergedLook(env, b, at, Arrivals(opps, at), id);
    AfterFlushLook(AfterPlacement(env, b, at, Arrivals(opps, at)), at, id);
  }

  lemma GoneBooks(env: Env, opps: Book, e: Engine, at: int, id: int)
    requires Inv(env, opps, e) && IsLeast(e.wakes, at) && id in opps && Look(e, id).Gone()
    ensures opps[id].executionAt != at && id !in e.pending
  {
    hide Cash;
    ArrivedNext(opps, e.lastAt, e.wakes, at);
  }

  /** A decision other than expiry is for good. */
  lemma StepGone(env: Env, opps: Book, e: Engine, at: int, id: int)
    requires env.Valid() && Inv(env, opps, e) && IsLeast(e.wakes, at) && Keyed(opps)
    requires id in opps && opps[id].action.Bet? && Look(e, id).Gone()
    ensures Look(Step(env, e, at, Arrivals(opps, at)), id).Gone()
  {
    hide Step;
    GoneBooks(env, opps, e, at, id);
    hide Inv;
    hide Look;
    BeforePlacementLook(env, opps, e, at, id);
    StepUnmerged(env, opps, e, at, id);
  }

  lemma StepMerged(env: Env, opps: Book, e: Engine, at: int, id: int)
    requires env.Valid() && Inv(env, opps, e) && IsLeast(e.wakes, at) && Keyed(opps)
    requires id in opps && opps[id].action.Bet? && at < opps[id].kickoff
    requires opps[id].executionAt == at || id in e.pending
    ensures var r := Step(env, e, at, Arrivals(opps, at));
            if Starved(env, opps, e, at, id) then Look(r, id) == Waiting else Look(r, id).Gone()
  {
    hide Inv;
    hide Look;
    hide BeforePlacement;
    hide AfterFlush;
    hide LacksCapacity;
    hide TurnIn;
    hide PlaceEach;
    var arrivals := Arrivals(opps, at);
    var b := BeforePlacement(env, e, at, arrivals);
    MergedIs(env, opps, e, at, id);
    var merged := Merged(b, arrivals);
    hide Merged;
    PlacementLook(env, b, at, merged, id);
    AfterFlushLook(AfterPlacement(env, b, at, arrivals), at, id);
  }

  /** The instants at which an opportunity could be placed. */
  ghost predicate InWindow(o: OpportunityRow, at: int) {
    o.executionAt <= at < o.kickoff
  }

  lemma CourseBooks(env: Env, opps: Book, e: Engine, at: int, id: int)
    requires Inv(env, opps, e) && IsLeast(e.wakes, at) && id in opps && OnCourse(opps, e, id)
    requires opps[id].executionAt < opps[id].kickoff
    ensures id !in e.live
    ensures InWindow(opps[id], at) ==> opps[id].executionAt == at || id in e.pending
    ensures !InWindow(opps[id], at) ==> opps[id].executionAt != at && (id in e.pending ==> opps[id].kickoff <= at)
    ensures id in e.pending ==> e.pending[id] == opps[id]
    ensures at < opps[id].executionAt <==> !HasArrived(opps[id], Some(at))
    ensures opps[id].kickoff <= at ==> HasArrived(opps[id], e.lastAt)
  {
    hide Cash;
    ArrivedNext(opps, e.lastAt, e.wakes, at);
  }

  lemma StepOutside(env: Env, opps: Book, e: Engine, at: int, id: int)
    requires env.Valid() && Inv(env, opps, e) && IsLeast(e.wakes, at) && Keyed(opps)
    requires id in opps && opps[id].action.Bet? && opps[id].executionAt < opps[id].kickoff
    requires OnCourse(opps, e, id) && !InWindow(opps[id], at)
    ensures Look(Step(env, e, at, Arrivals(opps, at)), id) ==
            if at < opps[id].executionAt then Standing(None, false) else Expired
  {
    hide Step;
    hide BeforePlacement;
    CourseBooks(env, opps, e, at, id);
    BeforePlacementLook(env, opps, e, at, id);
    StepUnmerged(env, opps, e, at, id);
    hide Inv;
  }

  /** One wake keeps an opportunity on course, unless capacity was there in its window. */
  lemma StepOnCourse(env: Env, opps: Book, e: Engine, at: int, id: int)
    requires env.Valid() && Inv(env, opps, e) && IsLeast(e.wakes, at) && Keyed(opps)
    requires id in opps && opps[id].action.Bet? && opps[id].executionAt < opps[id].kickoff
    requires OnCourse(opps, e, id)
    ensures var r := Step(env, e, at, Arrivals(opps, at));
            if InWindow(opps[id], at) && !Starved(env, opps, e, at, id) then Look(r, id).Gone() else OnCourse(opps, r, id)
  {
    hide Step;
    hide Starved;
    hide Inv;
    hide Look;
    StepInv(env, opps, e, at);
    if InWindow(opps[id], at) {
      CourseBooks(env, opps, e, at, id);
      StepMerged(env, opps, e, at, id);
    } else {
      StepOutside(env, opps, e, at, id);
    }
  }

  // ---- whole runs ------------------------------------------------------------------

  /** At every wake of its window among the first n, the opportunity lacked capacity. */
  ghost predicate AlwaysStarved(env: Env, opps: Book, id: int, n: nat)
    requires id in opps
  {
    forall m: nat :: m < n && Awake(Play(env, opps, m)) && InWindow(opps[id], Least(Play(env, opps, m).wakes)) ==>
      Starved(env, opps, Play(env, opps, m), Least(Play(env, opps, m).wakes), id)
  }

  lemma {:induction false} Fate(env: Env, opps: Book, id: int, n: nat)
    requires env.Valid() && Keyed(opps)
    requires id in opps && opps[id].action.Bet? && opps[id].executionAt < opps[id].kickoff
    ensures if AlwaysStarved(env, opps, id, n) then OnCourse(opps, Play(env, opps, n), id)
            else Look(Play(env, opps, n), id).Gone()
  {
    hide Step;
    hide Starved;
    hide OnCourse;
    if n == 0 {
      FateStart(env, opps, id);
    } else {
      Fate(env, opps, id, n - 1);
      var e := Play(env, opps, n - 1);
      if Awake(e) {
        PlayInv(env, opps, n - 1);
        hide Inv;
        if AlwaysStarved(env, opps, id, n - 1) {
          StepOnCourse(env, opps, e, Least(e.wakes), id);
        } else {
          StepGone(env, opps, e, Least(e.wakes), id);
        }
      }
    }
  }

  lemma FateStart(env: Env, opps: Book, id: int)
    requires id in opps
    ensures OnCourse(opps, Start(env, opps), id)
  {
  }

  lemma FinishLook(e: Engine, id: int)
    ensures Look(e, id).Gone() ==> id in Finish(e).statuses && Finish(e).statuses[id] != ExpiredCapacity
    ensures Look(e, id) == Waiting || Look(e, id) == Expired ==>
              id in Finish(e).statuses && Finish(e).statuses[id] == ExpiredCapacity
  {
    hide LateExpiry;
    LateStatuses(e);
  }

  lemma CourseEnd(env: Env, opps: Book, e: Engine, id: int)
    requires Inv(env, opps, e) && !Awake(e) && id in opps && OnCourse(opps, e, id)
    ensures Look(e, id) == Waiting || Look(e, id) == Expired
  {
    hide Cash;
    SomethingAhead(env, opps, e);
  }

  /** At every wake of its window the opportunity lacked capacity. */
  ghost predicate StarvedThroughout(env: Env, opps: Book, id: int)
    requires id in opps
  {
    forall m: nat :: Awake(Play(env, opps, m)) && InWindow(opps[id], Least(Play(env, opps, m).wakes)) ==>
      Starved(env, opps, Play(env, opps, m), Least(Play(env, opps, m).wakes), id)
  }

  /**
    Work conservation, both ways: an opportunity that was executable before its
    kickoff ends expired if and only if at every wake of its window it had its
    turn, capacity was missing at that turn, and the path went on.
   */
  lemma WorkConserving(env: Env, opps: Book, id: int)
    requires env.Valid() && Keyed(opps)
    requires id in opps && opps[id].action.Bet? && opps[id].executionAt < opps[id].kickoff
    ensures id in Path(env, opps).statuses
    ensures Path(env, opps).statuses[id] == ExpiredCapacity <==> StarvedThroughout(env, opps, id)
  {
    hide Path;
    hide Play;
    hide Inv;
    hide Awake;
    hide StarvedThroughout;
    hide AlwaysStarved;
    hide OnCourse;
    hide Look;
    var n := Bound(opps);
    Fate(env, opps, id, n);
    FallsSilent(env, opps, n);
    PlayInv(env, opps, n);
    PathLook(env, opps, id);
    Throughout(env, opps, id);
    if AlwaysStarved(env, opps, id, n) {
      CourseEnd(env, opps, Play(env, opps, n), id);
    }
  }

  lemma Throughout(env: Env, opps: Book, id: int)
    requires env.Valid() && Keyed(opps) && id in opps
    ensures StarvedThroughout(env, opps, id) <==> AlwaysStarved(env, opps, id, Bound(opps))
  {
    hide Play;
    hide Awake;
    hide Starved;
    hide InWindow;
    NoLateWindow(env, opps);
  }

  lemma PathLook(env: Env, opps: Book, id: int)
    ensures Look(Play(env, opps, Bound(opps)), id).Gone() ==>
              id in Path(env, opps).statuses && Path(env, opps).statuses[id] != ExpiredCapacity
    ensures Look(Play(env, opps, Bound(opps)), id) == Waiting || Look(Play(env, opps, Bound(opps)), id) == Expired ==>
              id in Path(env, opps).statuses && Path(env, opps).statuses[id] == ExpiredCapacity
  {
    hide Finish;
    hide Play;
    hide Look;
    FinishLook(Play(env, opps, Bound(opps)), id);
  }

  /** No path wakes later than its bound. */
  lemma NoLateWindow(env: Env, opps: Book)
    requires env.Valid() && Keyed(opps)
    ensures forall m: nat :: Bound(opps) <= m ==> !Awake(Play(env, opps, m))
  {
    hide Play;
    hide Awake;
    forall m: nat | Bound(opps) <= m ensures !Awake(Play(env, opps, m)) {
      FallsSilent(env, opps, m);
    }
  }
}

/**
  A path never uses what it cannot know yet: the state after every wake up to
  an instant depends only on the opportunities executable by then and on the
  outcomes that settle by then.
 */
module NoLookahead {
  import opened Common
  import opened Policies
  import opened Ordering
  import opened EventPath
  import opened EventInvariants
  import opened EventCompletion

  /** An opportunity with its outcome masked unless it settles by t. */
  function MaskWager(env: Env, t: int, o: Wager): Wager {
    if t < env.SettlementAt(o) then o.(actual := Home) else o
  }

  function MaskOpportunity(env: Env, t: int, o: Opportunity): Opportunity {
    if t < env.SettlementAt(o) then o.(actual := Home) else o
  }

  function MaskPosition(t: int, p: Position): Position {
    if t < p.settlementAt then p.(opportunity := p.opportunity.(actual := Home)) else p
  }

  function MaskWagers(env: Env, t: int, rows: map<int, Wager>): map<int, Wager> {
    map k | k in rows :: MaskWager(env, t, rows[k])
  }

  function MaskBook(env: Env, t: int, rows: Book): Book {
    map k | k in rows :: MaskOpportunity(env, t, rows[k])
  }

  function MaskLive(t: int, rows: map<int, Position>): map<int, Position> {
    map k | k in rows :: MaskPosition(t, rows[k])
  }

  function Until(t: int, wakes: set<int>): set<int> {
    set w | w in wakes && w <= t
  }

  /** What can be seen of a state at t: no outcome that settles later, no wake that comes later. */
  function Sight(env: Env, t: int, e: Engine): Engine {
    e.(pending := MaskWagers(env, t, e.pending), live := MaskLive(t, e.live), wakes := Until(t, e.wakes))
  }

  /** What is known at t about the opportunities: those executable by then, late outcomes masked. */
  function Known(env: Env, t: int, opps: Book): Book {
    map k | k in opps && opps[k].executionAt <= t :: MaskOpportunity(env, t, opps[k])
  }

  // ---- each operation sees only what is visible ------------------------------------

  lemma SettleOneSight(env: Env, t: int, e: Engine, at: int, id: int)
    requires id in e.live && e.live[id].settlementAt <= t
    ensures id in Sight(env, t, e).live
    ensures Sight(env, t, SettleOne(env, e, at, id)) == SettleOne(env, Sight(env, t, e), at, id)
  {
    assert MaskLive(t, e.live - {id}) == MaskLive(t, e.live) - {id};
  }

  lemma DropSight(env: Env, t: int, e: Engine, kind: Kind, status: Status, at: int, id: int)
    ensures Sight(env, t, Drop(e, kind, status, at, id)) == Drop(Sight(env, t, e), kind, status, at, id)
  {
    assert MaskWagers(env, t, e.pending - {id}) == MaskWagers(env, t, e.pending) - {id};
  }

  lemma HoldSight(env: Env, t: int, e: Engine, wait: Wait, at: int, o: Wager)
    ensures Sight(env, t, Hold(e, wait, at, o)) == Hold(Sight(env, t, e), wait, at, MaskWager(env, t, o))
  {
    assert MaskWagers(env, t, e.pending[o.identity := o])
        == MaskWagers(env, t, e.pending)[o.identity := MaskWager(env, t, o)];
  }

  /** Two states that look the same at t. */
  ghost predicate Alike(env: Env, t: int, e: Engine, f: Engine) {
    Sight(env, t, e) == Sight(env, t, f)
  }

  lemma SameMoney(env: Env, t: int, e: Engine, f: Engine)
    requires Alike(env, t, e, f)
    ensures e.equity == f.equity && e.reserved == f.reserved && e.state == f.state && e.termination == f.termination
    ensures forall k :: (k in e.live <==> k in f.live) && (k in e.pending <==> k in f.pending)
    ensures |e.live| == |f.live|
  {
    assert MaskLive(t, e.live).Keys == e.live.Keys && MaskLive(t, f.live).Keys == f.live.Keys;
    assert MaskWagers(env, t, e.pending).Keys == e.pending.Keys && MaskWagers(env, t, f.pending).Keys == f.pending.Keys;
    assert |e.live| == |e.live.Keys| && |f.live| == |f.live.Keys|;
  }

  lemma DropAlike(env: Env, t: int, e: Engine, f: Engine, kind: Kind, status: Status, at: int, id: int)
    requires Alike(env, t, e, f)
    ensures Alike(env, t, Drop(e, kind, status, at, id), Drop(f, kind, status, at, id))
  {
    hide Sight;
    DropSight(env, t, e, kind, status, at, id);
    DropSight(env, t, f, kind, status, at, id);
  }

  lemma HoldAlike(env: Env, t: int, e: Engine, f: Engine, wait: Wait, at: int, o: Wager, q: Wager)
    requires Alike(env, t, e, f) && MaskWager(env, t, o) == MaskWager(env, t, q)
    ensures Alike(env, t, Hold(e, wait, at, o), Hold(f, wait, at, q))
  {
    hide Sight;
    HoldSight(env, t, e, wait, at, o);
    HoldSight(env, t, f, wait, at, q);
  }

  lemma RecordAlike(env: Env, t: int, e: Engine, f: Engine, kind: Kind, at: int, id: int)
    requires Alike(env, t, e, f)
    ensures Alike(env, t, Record(e, kind, at, id), Record(f, kind, at, id))
  {
  }

  lemma OpenLive(t: int, live: map<int, Position>, id: int, p: Position)
    ensures MaskLive(t, live[id := p]) == MaskLive(t, live)[id := MaskPosition(t, p)]
  {
  }

  lemma OpenPending(env: Env, t: int, rows: map<int, Wager>, id: int)
    ensures MaskWagers(env, t, rows - {id}) == MaskWagers(env, t, rows) - {id}
  {
  }

  lemma OpenWakes(t: int, wakes: set<int>, w: int)
    ensures Until(t, wakes + {w}) == Until(t, wakes) + Until(t, {w})
  {
  }

  lemma OpenOneAlike(env: Env, t: int, e: Engine, f: Engine, at: int, o: Wager, q: Wager, request: StakeRequest)
    requires Alike(env, t, e, f) && MaskWager(env, t, o) == MaskWager(env, t, q)
    ensures Alike(env, t, OpenOne(env, e, at, o, request), OpenOne(env, f, at, q, request))
  {
    var k := o.identity;
    var s := env.SettlementAt(o);
    OpenLive(t, e.live, k, Position(s, o, request));
    OpenLive(t, f.live, k, Position(s, q, request));
    OpenPending(env, t, e.pending, k);
    OpenPending(env, t, f.pending, k);
    OpenWakes(t, e.wakes, s);
    OpenWakes(t, f.wakes, s);
    hide MaskLive;
    hide MaskWagers;
    hide Until;
  }

  lemma StopAlike(env: Env, t: int, e: Engine, f: Engine, reason: Termination)
    requires Alike(env, t, e, f)
    ensures Alike(env, t, e.(termination := reason), f.(termination := reason))
  {
  }

  lemma DecideAlike(env: Env, t: int, e: Engine, f: Engine, at: int, o: Wager, q: Wager, request: StakeRequest)
    requires Alike(env, t, e, f) && MaskWager(env, t, o) == MaskWager(env, t, q)
    ensures Alike(env, t, Decide(env, e, at, o, request), Decide(env, f, at, q, request))
  {
    SameMoney(env, t, e, f);
    hide Alike;
    hide OpenOne;
    hide Hold;
    hide Drop;
    if request.termination != Running {
      StopAlike(env, t, e, f, request.termination);
      DropAlike(env, t, e.(termination := request.termination), f.(termination := request.termination),
                PolicyStopped(request.termination), PolicyTermination, at, o.identity);
    } else if request.requested <= 0.0 || request.applied <= 0.0 {
      DropAlike(env, t, e, f, NoStake, ZeroStake, at, o.identity);
    } else if request.requested > e.equity - e.reserved {
      HoldAlike(env, t, e, f, InsufficientCash(request), at, o, q);
    } else {
      OpenOneAlike(env, t, e, f, at, o, q, request);
    }
  }

  lemma RetryAlike(env: Env, t: int, e: Engine, f: Engine, at: int, o: Wager, q: Wager)
    requires Alike(env, t, e, f) && MaskWager(env, t, o) == MaskWager(env, t, q)
    ensures Alike(env, t, NoteRetry(e, at, o), NoteRetry(f, at, q))
  {
    SameMoney(env, t, e, f);
    hide Alike;
    if o.identity in e.pending { RecordAlike(env, t, e, f, Retry, at, o.identity); }
  }

  lemma PlaceWithAlike(env: Env, t: int, e: Engine, f: Engine, at: int, o: Wager, q: Wager, request: StakeRequest)
    requires Alike(env, t, e, f) && MaskWager(env, t, o) == MaskWager(env, t, q)
    ensures Alike(env, t, PlaceWith(env, e, at, o, request), PlaceWith(env, f, at, q, request))
  {
    var id := o.identity;
    SameMoney(env, t, e, f);
    hide Alike;
    hide Decide;
    hide Drop;
    hide Hold;
    hide NoteRetry;
    hide Record;
    if e.termination != Running {
      DropAlike(env, t, e, f, Terminated(e.termination), PathTerminated, at, id);
    } else if o.kickoff <= at {
      DropAlike(env, t, e, f, Expiry, ExpiredCapacity, at, id);
    } else {
      var e1, f1 := NoteRetry(e, at, o), NoteRetry(f, at, q);
      RetryAlike(env, t, e, f, at, o, q);
      if |e.live| >= env.maxLanes {
        HoldAlike(env, t, e1, f1, NoAvailableLane, at, o, q);
      } else {
        RecordAlike(env, t, e1, f1, Requested(request), at, id);
        DecideAlike(env, t, Record(e1, Requested(request), at, id), Record(f1, Requested(request), at, id),
                    at, o, q, request);
      }
    }
  }

  lemma PlaceOneAlike(env: Env, t: int, e: Engine, f: Engine, at: int, o: Wager, q: Wager)
    requires Alike(env, t, e, f) && MaskWager(env, t, o) == MaskWager(env, t, q)
    ensures Alike(env, t, PlaceOne(env, e, at, o), PlaceOne(env, f, at, q))
  {
    SameMoney(env, t, e, f);
    assert o.action == q.action;
    assert RequestFor(env, e, o) == RequestFor(env, f, q);
    hide PlaceWith;
    hide RequestFor;
    PlaceWithAlike(env, t, e, f, at, o, q, RequestFor(env, e, o));
  }

  lemma SettleOneAlike(env: Env, t: int, e: Engine, f: Engine, at: int, id: int)
    requires Alike(env, t, e, f)
    requires id in e.live && e.live[id].settlementAt <= t && id in f.live && f.live[id].settlementAt <= t
    ensures Alike(env, t, SettleOne(env, e, at, id), SettleOne(env, f, at, id))
  {
    hide Sight;
    hide SettleOne;
    SettleOneSight(env, t, e, at, id);
    SettleOneSight(env, t, f, at, id);
  }

  // ---- each phase ------------------------------------------------------------------

  lemma {:induction false} SettleEachAlike(env: Env, t: int, e: Engine, f: Engine, at: int, ids: seq<int>)
    requires Alike(env, t, e, f) && Listed(ids, e.live) && Listed(ids, f.live)
    requires forall i :: 0 <= i < |ids| ==> e.live[ids[i]].settlementAt <= t && f.live[ids[i]].settlementAt <= t
    ensures Alike(env, t, SettleEach(env, e, at, ids), SettleEach(env, f, at, ids))
  {
    hide Alike;
    hide SettleOne;
    if ids != [] {
      var last := |ids| - 1;
      ElementsLast(ids);
      SettleEachAlike(env, t, e, f, at, ids[..last]);
      var e1, f1 := SettleEach(env, e, at, ids[..last]), SettleEach(env, f, at, ids[..last]);
      assert e1.live[ids[last]] == e.live[ids[last]] && f1.live[ids[last]] == f.live[ids[last]];
      SettleOneAlike(env, t, e1, f1, at, ids[last]);
    }
  }

  lemma {:induction false} DropEachAlike(env: Env, t: int, e: Engine, f: Engine, kind: Kind, status: Status, at: int,
                                         ids: seq<int>)
    requires Alike(env, t, e, f)
    ensures Alike(env, t, DropEach(e, kind, status, at, ids), DropEach(f, kind, status, at, ids))
  {
    hide Alike;
    hide Drop;
    if ids != [] {
      var before := ids[..|ids| - 1];
      DropEachAlike(env, t, e, f, kind, status, at, before);
      DropAlike(env, t, DropEach(e, kind, status, at, before), DropEach(f, kind, status, at, before),
                kind, status, at, ids[|ids| - 1]);
    }
  }

  lemma {:induction false} PlaceEachAlike(env: Env, t: int, e: Engine, f: Engine, at: int,
                                          merged: map<int, Wager>, other: map<int, Wager>, ids: seq<int>)
    requires Alike(env, t, e, f) && Listed(ids, merged) && Listed(ids, other)
    requires MaskWagers(env, t, merged) == MaskWagers(env, t, other)
    ensures Alike(env, t, PlaceEach(env, e, at, merged, ids), PlaceEach(env, f, at, other, ids))
  {
    hide Alike;
    hide PlaceOne;
    if ids != [] {
      var last := |ids| - 1;
      PlaceEachAlike(env, t, e, f, at, merged, other, ids[..last]);
      var o, q := merged[ids[last]], other[ids[last]];
      assert MaskWagers(env, t, merged)[ids[last]] == MaskWager(env, t, o);
      assert MaskWagers(env, t, other)[ids[last]] == MaskWager(env, t, q);
      PlaceOneAlike(env, t, PlaceEach(env, e, at, merged, ids[..last]), PlaceEach(env, f, at, other, ids[..last]), at, o, q);
    }
  }

  // ---- one wake and whole runs -------------------------------------------------------

  lemma WakeAlike(env: Env, t: int, e: Engine, f: Engine, at: int)
    requires Alike(env, t, e, f)
    ensures Alike(env, t, Wake(e, at), Wake(f, at))
  {
    assert Until(t, e.wakes - {at}) == Until(t, e.wakes) - {at};
    assert Until(t, f.wakes - {at}) == Until(t, f.wakes) - {at};
  }

  lemma AfterSettlementAlike(env: Env, t: int, e: Engine, f: Engine, at: int)
    requires Alike(env, t, e, f) && at <= t
    ensures Alike(env, t, AfterSettlement(env, e, at), AfterSettlement(env, f, at))
  {
    var ids := Order(DueRanks(e, at));
    forall k ensures k in e.live <==> k in f.live {
      assert k in MaskLive(t, e.live) <==> k in MaskLive(t, f.live);
    }
    forall k | k in e.live ensures e.live[k].settlementAt == f.live[k].settlementAt {
      assert MaskLive(t, e.live)[k] == MaskLive(t, f.live)[k];
    }
    assert DueRanks(e, at) == DueRanks(f, at);
    hide Alike;
    hide SettleEach;
    SettleEachAlike(env, t, e, f, at, ids);
  }

  lemma AfterExpiryAlike(env: Env, t: int, e: Engine, f: Engine, at: int)
    requires Alike(env, t, e, f)
    ensures Alike(env, t, AfterExpiry(e, at), AfterExpiry(f, at))
  {
    forall k ensures k in e.pending <==> k in f.pending {
      assert k in MaskWagers(env, t, e.pending) <==> k in MaskWagers(env, t, f.pending);
    }
    forall k | k in e.pending ensures e.pending[k].kickoff == f.pending[k].kickoff {
      assert MaskWagers(env, t, e.pending)[k] == MaskWagers(env, t, f.pending)[k];
    }
    assert ExpiryRanks(e, at) == ExpiryRanks(f, at);
    hide Alike;
    hide DropEach;
    DropEachAlike(env, t, e, f, Expiry, ExpiredCapacity, at, Order(ExpiryRanks(e, at)));
  }

  /** Two groups of arrivals that look the same at t. */
  lemma SameArrivals(env: Env, t: int, a: Book, b: Book)
    requires MaskBook(env, t, a) == MaskBook(env, t, b)
    ensures forall k :: k in a <==> k in b
    ensures forall k :: k in a ==> a[k].action == b[k].action && MaskOpportunity(env, t, a[k]) == MaskOpportunity(env, t, b[k])
  {
    forall k ensures k in a <==> k in b {
      assert k in MaskBook(env, t, a) <==> k in MaskBook(env, t, b);
    }
    forall k | k in a ensures MaskOpportunity(env, t, a[k]) == MaskOpportunity(env, t, b[k]) {
      assert MaskBook(env, t, a)[k] == MaskBook(env, t, b)[k];
    }
  }

  lemma AfterSkipsAlike(env: Env, t: int, e: Engine, f: Engine, at: int, a: Book, b: Book)
    requires Alike(env, t, e, f) && MaskBook(env, t, a) == MaskBook(env, t, b)
    ensures Alike(env, t, AfterSkips(e, at, a), AfterSkips(f, at, b))
  {
    SameArrivals(env, t, a, b);
    forall k ensures k in SkipRanks(a) <==> k in SkipRanks(b) {
      assert k in a <==> k in b;
    }
    assert SkipRanks(a) == SkipRanks(b);
    hide Alike;
    hide DropEach;
    DropEachAlike(env, t, e, f, NoBetSeen, NotBet, at, Order(SkipRanks(a)));
  }

  /** The betting opportunities among some arrivals. */
  function Wagers(arrivals: Book): map<int, Wager> {
    map k | k in arrivals && arrivals[k].action.Bet? :: arrivals[k]
  }

  lemma MergedMask(env: Env, t: int, e: Engine, a: Book)
    ensures MaskWagers(env, t, Merged(e, a)) == MaskWagers(env, t, e.pending) + Wagers(MaskBook(env, t, a))
  {
    assert Merged(e, a) == e.pending + Wagers(a);
    forall k | k in a ensures MaskBook(env, t, a)[k].action == a[k].action {}
    forall k ensures k in MaskWagers(env, t, Wagers(a)) <==> k in Wagers(MaskBook(env, t, a)) {
      if k in a { assert MaskBook(env, t, a)[k].action == a[k].action; }
    }
    var m, n := MaskWagers(env, t, Wagers(a)), Wagers(MaskBook(env, t, a));
    forall k | k in n ensures m[k] == n[k] {
      assert m[k] == MaskWager(env, t, a[k]) && n[k] == MaskOpportunity(env, t, a[k]);
    }
    assert m == n;
    assert MaskWagers(env, t, e.pending + Wagers(a)) == MaskWagers(env, t, e.pending) + MaskWagers(env, t, Wagers(a));
  }

  lemma MaskRanks(env: Env, t: int, merged: map<int, Wager>)
    ensures BetRanks(merged) == BetRanks(MaskWagers(env, t, merged))
  {
    forall k | k in merged ensures merged[k].Rank() == MaskWager(env, t, merged[k]).Rank() {}
  }

  lemma MergedAlike(env: Env, t: int, e: Engine, f: Engine, a: Book, b: Book)
    requires Alike(env, t, e, f) && MaskBook(env, t, a) == MaskBook(env, t, b)
    ensures MaskWagers(env, t, Merged(e, a)) == MaskWagers(env, t, Merged(f, b))
    ensures BetRanks(Merged(e, a)) == BetRanks(Merged(f, b))
  {
    assert MaskWagers(env, t, e.pending) == MaskWagers(env, t, f.pending);
    hide Alike;
    hide MaskBook;
    hide MaskWagers;
    hide Merged;
    hide BetRanks;
    MergedMask(env, t, e, a);
    MergedMask(env, t, f, b);
    MaskRanks(env, t, Merged(e, a));
    MaskRanks(env, t, Merged(f, b));
  }

  lemma AfterPlacementAlike(env: Env, t: int, e: Engine, f: Engine, at: int, a: Book, b: Book)
    requires Alike(env, t, e, f) && MaskBook(env, t, a) == MaskBook(env, t, b)
    ensures Alike(env, t, AfterPlacement(env, e, at, a), AfterPlacement(env, f, at, b))
  {
    MergedAlike(env, t, e, f, a, b);
    hide Alike;
    hide PlaceEach;
    hide Merged;
    PlaceEachAlike(env, t, e, f, at, Merged(e, a), Merged(f, b), Order(BetRanks(Merged(e, a))));
  }

  lemma AfterFlushAlike(env: Env, t: int, e: Engine, f: Engine, at: int)
    requires Alike(env, t, e, f)
    ensures Alike(env, t, AfterFlush(e, at), AfterFlush(f, at))
  {
    SameMoney(env, t, e, f);
    assert IdentityRanks(e.pending) == IdentityRanks(f.pending);
    hide Alike;
    hide DropEach;
    if e.termination != Running {
      DropEachAlike(env, t, e, f, Terminated(e.termination), PathTerminated, at, Order(IdentityRanks(e.pending)));
    }
  }

  lemma StepAlike(env: Env, t: int, e: Engine, f: Engine, at: int, a: Book, b: Book)
    requires Alike(env, t, e, f) && MaskBook(env, t, a) == MaskBook(env, t, b) && at <= t
    ensures Alike(env, t, Step(env, e, at, a), Step(env, f, at, b))
  {
    hide Alike;
    hide AfterSettlement;
    hide AfterExpiry;
    hide AfterSkips;
    hide AfterPlacement;
    hide AfterFlush;
    WakeAlike(env, t, e, f, at);
    var e1, f1 := AfterSettlement(env, Wake(e, at), at), AfterSettlement(env, Wake(f, at), at);
    AfterSettlementAlike(env, t, Wake(e, at), Wake(f, at), at);
    AfterExpiryAlike(env, t, e1, f1, at);
    AfterSkipsAlike(env, t, AfterExpiry(e1, at), AfterExpiry(f1, at), at, a, b);
    var e2, f2 := AfterSkips(AfterExpiry(e1, at), at, a), AfterSkips(AfterExpiry(f1, at), at, b);
    AfterPlacementAlike(env, t, e2, f2, at, a, b);
    AfterFlushAlike(env, t, AfterPlacement(env, e2, at, a), AfterPlacement(env, f2, at, b), at);
  }

  /** Process the next wake unless it lies beyond t. */
  ghost function NextUntil(env: Env, opps: Book, t: int, e: Engine): Engine {
    if exists w :: w in Until(t, e.wakes) then
      var at := Least(Until(t, e.wakes));
      Step(env, e, at, Arrivals(opps, at))
    else
      e
  }

  /** The state after at most n wakes, none of them beyond t. */
  ghost function PlayUntil(env: Env, opps: Book, t: int, n: nat): Engine {
    if n == 0 then Start(env, opps) else NextUntil(env, opps, t, PlayUntil(env, opps, t, n - 1))
  }

  lemma StartAlike(env: Env, t: int, a: Book, b: Book)
    requires Known(env, t, a) == Known(env, t, b)
    ensures Alike(env, t, Start(env, a), Start(env, b))
  {
    var e, f := Start(env, a), Start(env, b);
    forall w ensures w in Until(t, e.wakes) <==> w in Until(t, f.wakes) {
      if w in Until(t, e.wakes) {
        var k :| k in a && a[k].executionAt == w;
        assert k in Known(env, t, a) && Known(env, t, a)[k].executionAt == w;
        assert k in b && b[k].executionAt == w;
      }
      if w in Until(t, f.wakes) {
        var k :| k in b && b[k].executionAt == w;
        assert k in Known(env, t, b) && Known(env, t, b)[k].executionAt == w;
        assert k in a && a[k].executionAt == w;
      }
    }
    assert Until(t, e.wakes) == Until(t, f.wakes);
    assert MaskWagers(env, t, e.pending) == MaskWagers(env, t, f.pending);
    assert MaskLive(t, e.live) == MaskLive(t, f.live);
  }

  lemma ArrivalsAlike(env: Env, t: int, a: Book, b: Book, at: int)
    requires Known(env, t, a) == Known(env, t, b) && at <= t
    ensures MaskBook(env, t, Arrivals(a, at)) == MaskBook(env, t, Arrivals(b, at))
  {
    forall k ensures k in Arrivals(a, at) <==> k in Arrivals(b, at) {
      if k in Arrivals(a, at) { assert k in Known(env, t, a) && Known(env, t, a)[k].executionAt == at; }
      if k in Arrivals(b, at) { assert k in Known(env, t, b) && Known(env, t, b)[k].executionAt == at; }
    }
    forall k | k in Arrivals(a, at)
      ensures MaskOpportunity(env, t, a[k]) == MaskOpportunity(env, t, b[k])
    {
      assert Known(env, t, a)[k] == Known(env, t, b)[k];
    }
  }

  /**
    No look-ahead: two sets of opportunities that agree on what is executable
    by t and on what settles by t lead to states that look the same after every
    wake up to t, whatever else they contain.
   */
  lemma {:induction false} NoLookaheadUntil(env: Env, t: int, a: Book, b: Book, n: nat)
    requires Known(env, t, a) == Known(env, t, b)
    ensures Sight(env, t, PlayUntil(env, a, t, n)) == Sight(env, t, PlayUntil(env, b, t, n))
  {
    hide Known;
    hide Step;
    if n == 0 {
      StartAlike(env, t, a, b);
    } else {
      NoLookaheadUntil(env, t, a, b, n - 1);
      var e, f := PlayUntil(env, a, t, n - 1), PlayUntil(env, b, t, n - 1);
      assert Until(t, e.wakes) == Until(t, f.wakes) by { assert Sight(env, t, e).wakes == Sight(env, t, f).wakes; }
      hide Sight;
      if exists w :: w in Until(t, e.wakes) {
        var at := Least(Until(t, e.wakes));
        ArrivalsAlike(env, t, a, b, at);
        StepAlike(env, t, e, f, at, Arrivals(a, at), Arrivals(b, at));
      }
    }
  }

  /** The path has seen exactly the wakes up to t after its first m wakes. */
  ghost predicate SeenUntil(env: Env, opps: Book, t: int, m: nat) {
    var e := Play(env, opps, m);
    (e.lastAt.Some? ==> e.lastAt.value <= t) && forall w :: w in e.wakes ==> t < w
  }

  lemma {:induction false} LastAtMonotone(env: Env, opps: Book, j: nat, m: nat)
    requires env.Valid() && Keyed(opps) && j <= m && Play(env, opps, j).lastAt.Some?
    ensures Play(env, opps, m).lastAt.Some? && Play(env, opps, j).lastAt.value <= Play(env, opps, m).lastAt.value
    decreases m - j
  {
    hide Step;
    if j < m {
      var e := Play(env, opps, j);
      if Awake(e) { WakesIncrease(env, opps, j); }
      LastAtMonotone(env, opps, j + 1, m);
    }
  }

  lemma {:induction false} UntilMatches(env: Env, opps: Book, t: int, m: nat, j: nat)
    requires env.Valid() && Keyed(opps) && j <= m
    requires Play(env, opps, m).lastAt.Some? ==> Play(env, opps, m).lastAt.value <= t
    ensures PlayUntil(env, opps, t, j) == Play(env, opps, j)
  {
    hide Step;
    if j != 0 {
      UntilMatches(env, opps, t, m, j - 1);
      var e := Play(env, opps, j - 1);
      if Awake(e) {
        var at := Least(e.wakes);
        WakesIncrease(env, opps, j - 1);
        LastAtMonotone(env, opps, j, m);
        assert at in Until(t, e.wakes);
        assert Least(Until(t, e.wakes)) == at;
      }
    }
  }

  lemma {:induction false} UntilStays(env: Env, opps: Book, t: int, m: nat, n: nat)
    requires env.Valid() && Keyed(opps) && m <= n && SeenUntil(env, opps, t, m)
    ensures PlayUntil(env, opps, t, n) == Play(env, opps, m)
  {
    hide Step;
    if n == m {
      UntilMatches(env, opps, t, m, m);
    } else {
      UntilStays(env, opps, t, m, n - 1);
    }
  }

  /**
    No look-ahead, for whole runs: if two sets of opportunities agree on
    everything executable by t and on every outcome that settles by t, their
    paths are in the same state once all wakes up to t are over.
   */
  lemma NoLookahead(env: Env, t: int, a: Book, b: Book, m: nat, l: nat)
    requires env.Valid() && Keyed(a) && Keyed(b)
    requires Known(env, t, a) == Known(env, t, b)
    requires SeenUntil(env, a, t, m) && SeenUntil(env, b, t, l)
    ensures Sight(env, t, Play(env, a, m)) == Sight(env, t, Play(env, b, l))
  {
    var n := if m < l then l else m;
    hide SeenUntil;
    UntilStays(env, a, t, m, n);
    UntilStays(env, b, t, l, n);
    NoLookaheadUntil(env, t, a, b, n);
  }

  lemma {:induction false} SeenFrom(env: Env, opps: Book, t: int, n: nat) returns (m: nat)
    requires env.Valid() && Keyed(opps) && (Play(env, opps, n).lastAt.Some? ==> Play(env, opps, n).lastAt.value <= t)
    ensures SeenUntil(env, opps, t, m)
    decreases Bound(opps) - n
  {
    hide Next;
    var e := Play(env, opps, n);
    if forall w :: w in e.wakes ==> t < w {
      m := n;
    } else {
      assert Awake(e);
      if Bound(opps) <= n { FallsSilent(env, opps, n); }
      WakesIncrease(env, opps, n);
      m := SeenFrom(env, opps, t, n + 1);
    }
  }

  /** Every path comes to a moment at which its wakes up to t are over. */
  lemma SeenSometime(env: Env, opps: Book, t: int) returns (m: nat)
    requires env.Valid() && Keyed(opps)
    ensures SeenUntil(env, opps, t, m)
  {
    hide SeenUntil;
    m := SeenFrom(env, opps, t, 0);
  }

  /** No look-ahead at any instant: two sets with the same past reach that instant, and reach it in the same state. */
  lemma SamePastSameState(env: Env, t: int, a: Book, b: Book) returns (m: nat, l: nat)
    requires env.Valid() && Keyed(a) && Keyed(b) && Known(env, t, a) == Known(env, t, b)
    ensures SeenUntil(env, a, t, m) && SeenUntil(env, b, t, l)
    ensures Sight(env, t, Play(env, a, m)) == Sight(env, t, Play(env, b, l))
  {
    hide SeenUntil;
    m := SeenSometime(env, a, t);
    l := SeenSometime(env, b, t);
    NoLookahead(env, t, a, b, m, l);
  }
}

/** The event-time path falls silent, and then every opportunity has exactly one final status. */
module EventCompletion {
  import opened Common
  import opened Policies
  import opened Ordering
  import opened EventPath
  import opened EventInvariants

  /** Wakes still owed beyond those that placements account for. */
  function Owed(e: Engine): int {
    |e.wakes| - |e.stakes|
  }

  lemma {:induction false} SettleEachOwed(env: Env, e: Engine, at: int, ids: seq<int>)
    requires Listed(ids, e.live)
    ensures var r := SettleEach(env, e, at, ids); r.wakes == e.wakes && r.stakes == e.stakes
  {
    if ids != [] { SettleEachOwed(env, e, at, ids[..|ids| - 1]); }
  }

  lemma OpenOneOwed(env: Env, e: Engine, at: int, o: Wager, request: StakeRequest)
    ensures Owed(OpenOne(env, e, at, o, request)) <= Owed(e)
  {
    SubsetSize(e.wakes, e.wakes + {env.SettlementAt(o)});
    assert |OpenOne(env, e, at, o, request).stakes| == |e.stakes| + 1;
  }

  lemma DecideOwed(env: Env, e: Engine, at: int, o: Wager, request: StakeRequest)
    ensures Owed(Decide(env, e, at, o, request)) <= Owed(e)
  {
    if request.termination == Running && 0.0 < request.requested && 0.0 < request.applied
       && request.requested <= e.equity - e.reserved {
      OpenOneOwed(env, e, at, o, request);
    }
  }

  lemma PlaceWithOwed(env: Env, e: Engine, at: int, o: Wager, request: StakeRequest)
    ensures Owed(PlaceWith(env, e, at, o, request)) <= Owed(e)
  {
    if e.termination == Running && at < o.kickoff && |e.live| < env.maxLanes {
      DecideOwed(env, Record(NoteRetry(e, at, o), Requested(request), at, o.identity), at, o, request);
    }
  }

  lemma {:induction false} PlaceEachOwed(env: Env, e: Engine, at: int, merged: map<int, Wager>, ids: seq<int>)
    requires Listed(ids, merged)
    ensures Owed(PlaceEach(env, e, at, merged, ids)) <= Owed(e)
  {
    if ids != [] {
      var last := |ids| - 1;
      PlaceEachOwed(env, e, at, merged, ids[..last]);
      var d := PlaceEach(env, e, at, merged, ids[..last]);
      PlaceWithOwed(env, d, at, merged[ids[last]], RequestFor(env, d, merged[ids[last]]));
    }
  }

  lemma AfterPlacementOwed(env: Env, e: Engine, at: int, arrivals: Book)
    ensures Owed(AfterPlacement(env, e, at, arrivals)) <= Owed(e)
  {
    PlaceEachOwed(env, e, at, Merged(e, arrivals), Order(BetRanks(Merged(e, arrivals))));
  }

  lemma BeforePlacementOwed(env: Env, e: Engine, at: int, arrivals: Book)
    requires at in e.wakes
    ensures Owed(BeforePlacement(env, e, at, arrivals)) == Owed(e) - 1
  {
    hide DropEach;
    hide SettleEach;
    var s := AfterSettlement(env, Wake(e, at), at);
    SettleEachOwed(env, Wake(e, at), at, Order(DueRanks(Wake(e, at), at)));
    DropEachFrame(s, Expiry, ExpiredCapacity, at, Order(ExpiryRanks(s, at)));
    DropEachFrame(AfterExpiry(s, at), NoBetSeen, NotBet, at, Order(SkipRanks(arrivals)));
  }

  lemma AfterFlushOwed(e: Engine, at: int)
    ensures Owed(AfterFlush(e, at)) == Owed(e)
  {
    DropEachFrame(e, Terminated(e.termination), PathTerminated, at, Order(IdentityRanks(e.pending)));
  }

  /** Each wake uses up one owed wake. */
  lemma NextOwed(env: Env, opps: Book, e: Engine)
    requires Awake(e)
    ensures Owed(Next(env, opps, e)) < Owed(e)
  {
    hide BeforePlacement;
    hide AfterPlacement;
    hide AfterFlush;
    var at := Least(e.wakes);
    var arrivals := Arrivals(opps, at);
    BeforePlacementOwed(env, e, at, arrivals);
    AfterPlacementOwed(env, BeforePlacement(env, e, at, arrivals), at, arrivals);
    AfterFlushOwed(AfterPlacement(env, BeforePlacement(env, e, at, arrivals), at, arrivals), at);
  }

  lemma StaysSilent(env: Env, opps: Book, e: Engine)
    requires !Awake(e)
    ensures Next(env, opps, e) == e
  {
    hide Step;
  }

  lemma {:induction false} PlayOwed(env: Env, opps: Book, n: nat)
    requires Awake(Play(env, opps, n))
    ensures Owed(Play(env, opps, n)) <= Owed(Start(env, opps)) - n
  {
    hide Next;
    hide Owed;
    if n != 0 {
      if !Awake(Play(env, opps, n - 1)) { StaysSilent(env, opps, Play(env, opps, n - 1)); }
      PlayOwed(env, opps, n - 1);
      NextOwed(env, opps, Play(env, opps, n - 1));
    }
  }

  lemma {:induction false} InstantsBound(opps: Book)
    ensures |set k | k in opps :: opps[k].executionAt| <= |opps|
    decreases |opps|
  {
    var instants := set k | k in opps :: opps[k].executionAt;
    if k :| k in opps {
      var rest := opps - {k};
      assert rest.Keys == opps.Keys - {k};
      InstantsBound(rest);
      var fewer := set j | j in rest :: rest[j].executionAt;
      assert instants <= fewer + {opps[k].executionAt} by {
        forall x | x in instants ensures x in fewer + {opps[k].executionAt} {
          var j :| j in opps && opps[j].executionAt == x;
          if j != k { assert j in rest; }
        }
      }
      SubsetSize(instants, fewer + {opps[k].executionAt});
    } else {
      assert instants == {};
    }
  }

  lemma StartOwed(env: Env, opps: Book)
    ensures Owed(Start(env, opps)) <= |opps|
  {
    InstantsBound(opps);
  }

  /** No wake is left after twice as many wakes as there are opportunities. */
  lemma FallsSilent(env: Env, opps: Book, n: nat)
    requires env.Valid() && Keyed(opps) && Bound(opps) <= n
    ensures !Awake(Play(env, opps, n))
  {
    hide Inv;
    hide Owed;
    if Awake(Play(env, opps, n)) {
      PlayOwed(env, opps, n);
      StartOwed(env, opps);
      PlayInv(env, opps, n);
      OwedAtMost(env, opps, Play(env, opps, n));
      assert false;
    }
  }

  /** There are never more placements than opportunities. */
  lemma OwedAtMost(env: Env, opps: Book, e: Engine)
    requires Inv(env, opps, e) && Awake(e)
    ensures -|opps| < Owed(e)
  {
    forall k | k in PlacedIds(e.statuses) ensures k in opps {
      assert k in e.statuses;
    }
    SubsetSize(PlacedIds(e.statuses), opps.Keys);
    var w :| w in e.wakes;
    SubsetSize({w}, e.wakes);
  }

  /** Wakes happen at strictly increasing instants. */
  lemma WakesIncrease(env: Env, opps: Book, n: nat)
    requires env.Valid() && Keyed(opps) && Awake(Play(env, opps, n))
    ensures Play(env, opps, n + 1).lastAt == Some(Least(Play(env, opps, n).wakes))
    ensures Play(env, opps, n).lastAt.Some? ==>
              Play(env, opps, n).lastAt.value < Play(env, opps, n + 1).lastAt.value
  {
    var e := Play(env, opps, n);
    PlayInv(env, opps, n);
    StepInv(env, opps, e, Least(e.wakes));
  }

  lemma {:induction false} ExpireLateEachStatuses(e: Engine, ids: seq<int>)
    requires forall i :: 0 <= i < |ids| ==> ids[i] in e.pending
    ensures var r := ExpireLateEach(e, ids);
            && r == e.(statuses := r.statuses, ledger := r.ledger)
            && (forall k :: k in r.statuses <==> k in e.statuses || k in ids)
            && forall k :: k in r.statuses ==> r.statuses[k] == if k in ids then ExpiredCapacity else e.statuses[k]
  {
    if ids != [] {
      var last := |ids| - 1;
      ExpireLateEachStatuses(e, ids[..last]);
      assert forall k :: k in ids <==> k in ids[..last] || k == ids[last];
    }
  }

  /** While something is open or has not arrived, a wake is scheduled. */
  lemma SomethingAhead(env: Env, opps: Book, e: Engine)
    requires Inv(env, opps, e)
    ensures (exists k :: k in e.live) || (exists k :: k in opps && k !in e.statuses) ==> Awake(e)
  {
    hide Cash;
    forall k | k in e.live ensures e.live[k].settlementAt in e.wakes {}
    forall k | k in opps && k !in e.statuses ensures opps[k].executionAt in e.wakes {}
  }

  lemma NothingReserved(env: Env, opps: Book, e: Engine)
    requires Inv(env, opps, e) && forall k :: k !in e.live
    ensures e.reserved == 0.0
  {
    assert forall k :: k !in Stakes(e.live);
  }

  lemma OnlyPendingUnsettled(env: Env, opps: Book, e: Engine)
    requires Inv(env, opps, e) && forall k :: k !in e.live
    ensures forall k :: k in e.statuses && k !in e.pending ==> e.statuses[k].Final()
    ensures forall k :: k in e.pending ==> k in e.statuses
    ensures forall k :: k in e.statuses ==> k in opps
  {
    hide Cash;
  }

  /** Expiring what still waits leaves every other status alone. */
  lemma LateStatuses(e: Engine)
    ensures var x := LateExpiry(e);
            && x == e.(statuses := x.statuses, ledger := x.ledger)
            && (forall k :: k in x.statuses <==> k in e.statuses || k in e.pending)
            && forall k :: k in x.statuses ==> x.statuses[k] == if k in e.pending then ExpiredCapacity else e.statuses[k]
  {
    hide ExpireLateEach;
    var ids := Order(FinalRanks(e));
    ExpireLateEachStatuses(e, ids);
    forall k ensures k in ids <==> k in e.pending {
      assert k in ids <==> k in FinalRanks(e);
    }
  }

  /** A complete end: nothing open or reserved, and one final status for every opportunity. */
  ghost predicate Complete(opps: Book, f: Engine) {
    && (forall k :: k !in f.live)
    && (forall k :: k in f.statuses <==> k in opps)
    && (forall k :: k in f.statuses ==> f.statuses[k].Final())
    && f.reserved == 0.0
  }

  lemma LateComplete(opps: Book, e: Engine)
    requires (forall k :: k !in e.live) && e.reserved == 0.0
    requires forall k :: k in e.statuses <==> k in opps
    requires forall k :: k in e.pending ==> k in e.statuses
    requires forall k :: k in e.statuses && k !in e.pending ==> e.statuses[k].Final()
    ensures Complete(opps, LateExpiry(e))
  {
    hide LateExpiry;
    LateStatuses(e);
  }

  /** A path that meets its invariant and has no wake left ends complete. */
  lemma FinishComplete(env: Env, opps: Book, e: Engine)
    requires Inv(env, opps, e) && !Awake(e)
    ensures Complete(opps, Finish(e))
  {
    hide Inv;
    hide LateExpiry;
    assert forall k :: k !in e.live by { SomethingAhead(env, opps, e); }
    assert forall k :: k in opps ==> k in e.statuses by { SomethingAhead(env, opps, e); }
    NothingReserved(env, opps, e);
    OnlyPendingUnsettled(env, opps, e);
    LateComplete(opps, e);
  }

  /** The end of every path: nothing open, and one final status for every opportunity. */
  lemma PathComplete(env: Env, opps: Book)
    requires env.Valid() && Keyed(opps)
    ensures Complete(opps, Path(env, opps))
  {
    hide Inv;
    hide Finish;
    PlayInv(env, opps, Bound(opps));
    FallsSilent(env, opps, Bound(opps));
    FinishComplete(env, opps, Play(env, opps, Bound(opps)));
  }

  /** Available cash is never negative, and a depleted path has neither equity nor anything open. */
  lemma CashSafety(env: Env, opps: Book, n: nat)
    requires env.Valid() && Keyed(opps)
    ensures var e := Play(env, opps, n);
            && 0.0 <= e.reserved <= e.equity
            && e.reserved == Sums.Total(Stakes(e.live))
            && 0.0 <= e.minCash && 0.0 <= e.drawdown <= 1.0
            && |e.live| <= env.maxLanes
            && (e.termination == BankrollDepleted || e.ruined ==> e.equity == 0.0 && forall k :: k !in e.live)
  {
    PlayInv(env, opps, n);
    StakesNonNegative(Play(env, opps, n).live);
  }
}

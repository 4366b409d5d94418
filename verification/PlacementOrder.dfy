/**
  Who comes first at one instant: the ledger of every path tells that bets are
  considered by expected value, then by kickoff, then by identity, and that a
  bet which finds every lane taken is never overtaken by a worse one.
 */
module PlacementOrder {
  import opened Common
  import opened Policies
  import opened Ordering
  import opened EventPath
  import opened EventInvariants

  /** The events of a placement turn. */
  predicate OfTurn(k: Kind) {
    k.Retry? || k.Waiting? || k.Requested? || k.PolicyStopped? || k.NoStake? || k.Placement?
  }

  /** A larger product of probability and price; then the earlier kickoff; then the smaller identity. */
  predicate Better(a: OpportunityRow, b: OpportunityRow)
    requires a.action.Bet? && b.action.Bet?
  {
    var x, y := a.action.probability * a.action.price, b.action.probability * b.action.price;
    x > y || (x == y && (a.kickoff < b.kickoff || (a.kickoff == b.kickoff && a.identity < b.identity)))
  }

  lemma BetterOnce(a: OpportunityRow, b: OpportunityRow)
    requires a.action.Bet? && b.action.Bet? && Better(a, b)
    ensures !Better(b, a)
  {
    var x, y := a.action.probability * a.action.price, b.action.probability * b.action.price;
    assert x >= y;
  }

  ghost predicate Ahead(opps: Book, i: int, j: int) {
    i in opps && j in opps && opps[i].action.Bet? && opps[j].action.Bet? && Better(opps[i], opps[j])
  }

  /** Turns of one instant stand in the ledger from the best bet to the worst. */
  ghost predicate BestFirst(opps: Book, rows: seq<Event>) {
    forall i, j :: 0 <= i < j < |rows| && OfTurn(rows[i].kind) && OfTurn(rows[j].kind) && rows[i].at == rows[j].at
                   && rows[i].identity != rows[j].identity ==>
      Ahead(opps, rows[i].identity, rows[j].identity)
  }

  predicate Crowded(k: Kind) {
    k.Waiting? && k.wait.NoAvailableLane?
  }

  /** Once a bet has found every lane taken, nothing is placed at that instant any more. */
  ghost predicate Closed(rows: seq<Event>) {
    forall i, j :: 0 <= i < j < |rows| && Crowded(rows[i].kind) && rows[j].kind.Placement? ==> rows[i].at != rows[j].at
  }

  /** No turn lies after the last wake. */
  ghost predicate TurnsBy(rows: seq<Event>, lastAt: Option<int>) {
    forall i :: 0 <= i < |rows| && OfTurn(rows[i].kind) ==> lastAt.Some? && rows[i].at <= lastAt.value
  }

  /** No turn has happened at `at` yet. */
  ghost predicate NoTurnsAt(rows: seq<Event>, at: int) {
    forall i :: 0 <= i < |rows| && OfTurn(rows[i].kind) ==> rows[i].at < at
  }

  // ---- events that are no turns --------------------------------------------------------

  /** The ledger has only grown, by events that are no turns. */
  ghost predicate Aside(a: seq<Event>, b: seq<Event>) {
    |a| <= |b| && b[..|a|] == a && forall i :: |a| <= i < |b| ==> !OfTurn(b[i].kind)
  }

  lemma AsideKeeps(opps: Book, a: seq<Event>, b: seq<Event>)
    requires Aside(a, b)
    ensures BestFirst(opps, a) ==> BestFirst(opps, b)
    ensures Closed(a) ==> Closed(b)
    ensures forall t :: TurnsBy(a, t) ==> TurnsBy(b, t)
    ensures forall t :: NoTurnsAt(a, t) ==> NoTurnsAt(b, t)
  {
    hide Ahead;
    assert forall i :: 0 <= i < |a| ==> b[i] == a[i] by {
      forall i | 0 <= i < |a| ensures b[i] == a[i] { assert b[..|a|][i] == a[i]; }
    }
    assert forall i :: 0 <= i < |b| && OfTurn(b[i].kind) ==> i < |a|;
    hide OfTurn;
  }

  lemma AsideTransitive(a: seq<Event>, b: seq<Event>, c: seq<Event>)
    requires Aside(a, b) && Aside(b, c)
    ensures Aside(a, c)
  {
    assert c[..|a|] == b[..|a|];
    forall i | |a| <= i < |c| ensures !OfTurn(c[i].kind) {
      if i < |b| { assert c[i] == b[i]; }
    }
  }

  lemma SettleOneAside(env: Env, e: Engine, at: int, id: int)
    requires id in e.live
    ensures Aside(e.ledger, SettleOne(env, e, at, id).ledger)
  {
    hide Policy.Settle;
    hide Pnl;
  }

  lemma {:induction false} SettleEachAside(env: Env, e: Engine, at: int, ids: seq<int>)
    requires Listed(ids, e.live)
    ensures Aside(e.ledger, SettleEach(env, e, at, ids).ledger)
  {
    hide SettleOne;
    hide Aside;
    if ids == [] {
      assert Aside(e.ledger, e.ledger) by { AsideSame(e.ledger); }
    } else {
      var last := |ids| - 1;
      ElementsLast(ids);
      SettleEachAside(env, e, at, ids[..last]);
      SettleOneAside(env, SettleEach(env, e, at, ids[..last]), at, ids[last]);
      AsideTransitive(e.ledger, SettleEach(env, e, at, ids[..last]).ledger, SettleEach(env, e, at, ids).ledger);
    }
  }

  lemma AsideSame(a: seq<Event>)
    ensures Aside(a, a)
  {
    assert a[..|a|] == a;
  }

  lemma {:induction false} DropEachAside(e: Engine, kind: Kind, status: Status, at: int, ids: seq<int>)
    requires !OfTurn(kind)
    ensures Aside(e.ledger, DropEach(e, kind, status, at, ids).ledger)
  {
    hide OfTurn;
    if ids == [] {
      AsideSame(e.ledger);
    } else {
      var last := |ids| - 1;
      DropEachAside(e, kind, status, at, ids[..last]);
      var d := DropEach(e, kind, status, at, ids[..last]);
      AsideTransitive(e.ledger, d.ledger, Drop(d, kind, status, at, ids[last]).ledger);
    }
  }

  // ---- one turn ------------------------------------------------------------------------

  /** One turn adds events of its own opportunity; it places only into a free lane, and frees none. */
  ghost predicate OneTurn(env: Env, e: Engine, r: Engine, at: int, id: int) {
    && |e.ledger| <= |r.ledger| && r.ledger[..|e.ledger|] == e.ledger
    && (forall i :: |e.ledger| <= i < |r.ledger| ==> r.ledger[i].at == at && r.ledger[i].identity == id)
    && (forall i :: |e.ledger| <= i < |r.ledger| && Crowded(r.ledger[i].kind) ==> env.maxLanes <= |r.live|)
    && (forall i :: |e.ledger| <= i < |r.ledger| && r.ledger[i].kind.Placement? ==>
          && |e.live| < env.maxLanes && forall k :: |e.ledger| <= k < |r.ledger| ==> !Crowded(r.ledger[k].kind))
    && |e.live| <= |r.live|
  }

  lemma OneRow(env: Env, e: Engine, r: Engine, row: Event)
    requires r.ledger == e.ledger + [row] && |e.live| <= |r.live|
    requires Crowded(row.kind) ==> env.maxLanes <= |r.live|
    requires row.kind.Placement? ==> |e.live| < env.maxLanes
    ensures OneTurn(env, e, r, row.at, row.identity)
  {
  }

  lemma DropTurn(env: Env, e: Engine, kind: Kind, status: Status, at: int, id: int)
    requires !Crowded(kind) && !kind.Placement?
    ensures OneTurn(env, e, Drop(e, kind, status, at, id), at, id)
  {
    hide OneTurn;
    OneRow(env, e, Drop(e, kind, status, at, id), Event(kind, at, id, e.equity, e.reserved, e.state));
  }

  lemma HoldTurn(env: Env, e: Engine, wait: Wait, at: int, o: Wager)
    requires wait.NoAvailableLane? ==> env.maxLanes <= |e.live|
    ensures OneTurn(env, e, Hold(e, wait, at, o), at, o.identity)
  {
    hide OneTurn;
    OneRow(env, e, Hold(e, wait, at, o), Event(Waiting(wait), at, o.identity, e.equity, e.reserved, e.state));
  }

  lemma OpenTurnRow(env: Env, e: Engine, at: int, o: Wager, request: StakeRequest)
    requires |e.live| < env.maxLanes
    ensures OneTurn(env, e, OpenOne(env, e, at, o, request), at, o.identity)
  {
    hide OneTurn;
    var r := OpenOne(env, e, at, o, request);
    SubsetSize(e.live.Keys, r.live.Keys);
    assert |e.live| == |e.live.Keys| && |r.live| == |r.live.Keys|;
    OneRow(env, e, r, r.ledger[|e.ledger|]);
  }

  lemma DecideTurns(env: Env, e: Engine, at: int, o: Wager, request: StakeRequest)
    requires |e.live| < env.maxLanes
    ensures OneTurn(env, e, Decide(env, e, at, o, request), at, o.identity)
  {
    hide Drop;
    hide Hold;
    hide OpenOne;
    if request.termination != Running {
      var d := e.(termination := request.termination);
      DropTurn(env, d, PolicyStopped(request.termination), PolicyTermination, at, o.identity);
    } else if request.requested <= 0.0 || request.applied <= 0.0 {
      DropTurn(env, e, NoStake, ZeroStake, at, o.identity);
    } else if request.requested > e.equity - e.reserved {
      HoldTurn(env, e, InsufficientCash(request), at, o);
    } else {
      OpenTurnRow(env, e, at, o, request);
    }
  }

  /** Events of the same opportunity that come before its answer. */
  ghost predicate Noted(e: Engine, d: Engine, at: int, id: int) {
    && d.live == e.live && |e.ledger| <= |d.ledger| && d.ledger[..|e.ledger|] == e.ledger
    && forall i :: |e.ledger| <= i < |d.ledger| ==>
         d.ledger[i].at == at && d.ledger[i].identity == id && !Crowded(d.ledger[i].kind) && !d.ledger[i].kind.Placement?
  }

  lemma NoteNoted(e: Engine, at: int, o: Wager)
    ensures Noted(e, NoteRetry(e, at, o), at, o.identity)
  {
  }

  lemma AskNoted(e: Engine, d: Engine, request: StakeRequest, at: int, id: int)
    requires Noted(e, d, at, id)
    ensures Noted(e, Record(d, Requested(request), at, id), at, id)
  {
    var r := Record(d, Requested(request), at, id);
    assert r.ledger[..|d.ledger|] == d.ledger;
    assert r.ledger[..|e.ledger|] == d.ledger[..|e.ledger|];
  }

  lemma PlaceTurns(env: Env, e: Engine, at: int, o: Wager, request: StakeRequest)
    ensures OneTurn(env, e, PlaceWith(env, e, at, o, request), at, o.identity)
  {
    hide OneTurn;
    hide Noted;
    hide Decide;
    hide Drop;
    hide Hold;
    hide Record;
    hide NoteRetry;
    var noted := NoteRetry(e, at, o);
    NoteNoted(e, at, o);
    if e.termination != Running {
      DropTurn(env, e, Terminated(e.termination), PathTerminated, at, o.identity);
    } else if o.kickoff <= at {
      DropTurn(env, e, Expiry, ExpiredCapacity, at, o.identity);
    } else if env.maxLanes <= |e.live| {
      SameLive(e, noted, at, o.identity);
      HoldTurn(env, noted, NoAvailableLane, at, o);
      TurnAfter(env, e, noted, Hold(noted, NoAvailableLane, at, o), at, o.identity);
    } else {
      var asked := Record(noted, Requested(request), at, o.identity);
      AskNoted(e, noted, request, at, o.identity);
      SameLive(e, asked, at, o.identity);
      DecideTurns(env, asked, at, o, request);
      TurnAfter(env, e, asked, Decide(env, asked, at, o, request), at, o.identity);
    }
  }

  lemma SameLive(e: Engine, d: Engine, at: int, id: int)
    requires Noted(e, d, at, id)
    ensures d.live == e.live
  {
  }

  lemma TurnAfter(env: Env, e: Engine, d: Engine, r: Engine, at: int, id: int)
    requires OneTurn(env, d, r, at, id) && Noted(e, d, at, id)
    ensures OneTurn(env, e, r, at, id)
  {
    assert r.ledger[..|e.ledger|] == d.ledger[..|e.ledger|];
    forall i | |e.ledger| <= i < |d.ledger| ensures r.ledger[i] == d.ledger[i] {
      assert r.ledger[..|d.ledger|][i] == d.ledger[i];
    }
    hide Crowded;
  }

  // ---- all turns of one wake -----------------------------------------------------------

  /** Every turn at `at` so far belongs to one of `ids`. */
  ghost predicate TurnsOf(rows: seq<Event>, at: int, ids: seq<int>) {
    forall i :: 0 <= i < |rows| && OfTurn(rows[i].kind) && rows[i].at == at ==> rows[i].identity in ids
  }

  /** While somebody has found every lane taken, they still are. */
  ghost predicate StillFull(env: Env, e: Engine, at: int) {
    forall i :: 0 <= i < |e.ledger| && Crowded(e.ledger[i].kind) && e.ledger[i].at == at ==> env.maxLanes <= |e.live|
  }

  ghost predicate Turning(env: Env, opps: Book, e: Engine, at: int, ids: seq<int>) {
    && BestFirst(opps, e.ledger) && Closed(e.ledger) && TurnsBy(e.ledger, Some(at))
    && TurnsOf(e.ledger, at, ids) && StillFull(env, e, at)
  }

  lemma NewOrOld(e: Engine, r: Engine)
    requires |e.ledger| <= |r.ledger| && r.ledger[..|e.ledger|] == e.ledger
    ensures forall i :: 0 <= i < |e.ledger| ==> r.ledger[i] == e.ledger[i]
  {
    forall i | 0 <= i < |e.ledger| ensures r.ledger[i] == e.ledger[i] {
      assert r.ledger[..|e.ledger|][i] == e.ledger[i];
    }
  }

  lemma TurnBestFirst(env: Env, opps: Book, e: Engine, r: Engine, at: int, id: int, before: seq<int>)
    requires BestFirst(opps, e.ledger) && TurnsOf(e.ledger, at, before) && OneTurn(env, e, r, at, id)
    requires forall k :: k in before ==> Ahead(opps, k, id)
    ensures BestFirst(opps, r.ledger)
  {
    NewOrOld(e, r);
    hide Ahead;
    hide OfTurn;
    hide Crowded;
  }

  lemma TurnClosed(env: Env, e: Engine, r: Engine, at: int, id: int)
    requires Closed(e.ledger) && StillFull(env, e, at) && OneTurn(env, e, r, at, id)
    ensures Closed(r.ledger) && StillFull(env, r, at)
  {
    NewOrOld(e, r);
    hide Crowded;
  }

  lemma TurnTurning(env: Env, opps: Book, e: Engine, r: Engine, at: int, before: seq<int>, id: int)
    requires Turning(env, opps, e, at, before) && OneTurn(env, e, r, at, id)
    requires forall k :: k in before ==> Ahead(opps, k, id)
    ensures Turning(env, opps, r, at, before + [id])
  {
    TurnBestFirst(env, opps, e, r, at, id, before);
    TurnClosed(env, e, r, at, id);
    NewOrOld(e, r);
    hide BestFirst;
    hide Closed;
    hide StillFull;
    hide OfTurn;
    hide Crowded;
  }

  /** The order of turns is the order of expected values. */
  lemma RankIsBetter(opps: Book, merged: map<int, Wager>, i: int, j: int)
    requires Keyed(opps) && i in merged && j in merged && i in opps && j in opps && opps[i] == merged[i] && opps[j] == merged[j]
    requires Before(BetRanks(merged)[i], i, BetRanks(merged)[j], j)
    ensures Ahead(opps, i, j)
  {
  }

  lemma {:induction false} PlaceEachTurning(env: Env, opps: Book, e: Engine, at: int, merged: map<int, Wager>, ids: seq<int>)
    requires Keyed(opps) && Turning(env, opps, e, at, []) && Listed(ids, merged) && Sorted(BetRanks(merged), ids)
    requires forall k :: k in merged ==> k in opps && opps[k] == merged[k]
    ensures Turning(env, opps, PlaceEach(env, e, at, merged, ids), at, ids)
  {
    hide Turning;
    hide Ahead;
    hide PlaceWith;
    hide RequestFor;
    if ids != [] {
      var last := |ids| - 1;
      PlaceEachTurning(env, opps, e, at, merged, ids[..last]);
      var d := PlaceEach(env, e, at, merged, ids[..last]);
      forall k | k in ids[..last] ensures Ahead(opps, k, ids[last]) {
        var i :| 0 <= i < last && ids[i] == k;
        RankIsBetter(opps, merged, ids[i], ids[last]);
      }
      var o := merged[ids[last]];
      PlaceTurns(env, d, at, o, RequestFor(env, d, o));
      TurnTurning(env, opps, d, PlaceOne(env, d, at, o), at, ids[..last], ids[last]);
      assert ids[..last] + [ids[last]] == ids;
    }
  }

  // ---- wakes and paths -----------------------------------------------------------------

  ghost predicate InTurn(opps: Book, e: Engine) {
    BestFirst(opps, e.ledger) && Closed(e.ledger) && TurnsBy(e.ledger, e.lastAt)
  }

  /** Before placement nothing has had its turn at this instant. */
  lemma BeforeTurns(env: Env, opps: Book, e: Engine, at: int, arrivals: Book)
    requires InTurn(opps, e) && (e.lastAt.Some? ==> e.lastAt.value < at)
    ensures Turning(env, opps, BeforePlacement(env, e, at, arrivals), at, [])
  {
    hide SettleEach;
    hide DropEach;
    hide Aside;
    hide OfTurn;
    var w := Wake(e, at);
    var s := AfterSettlement(env, w, at);
    var x := AfterExpiry(s, at);
    var b := AfterSkips(x, at, arrivals);
    NotTurns();
    SettleEachAside(env, w, at, Order(DueRanks(w, at)));
    DropEachAside(s, Expiry, ExpiredCapacity, at, Order(ExpiryRanks(s, at)));
    DropEachAside(x, NoBetSeen, NotBet, at, Order(SkipRanks(arrivals)));
    AsideTransitive(e.ledger, s.ledger, x.ledger);
    AsideTransitive(e.ledger, x.ledger, b.ledger);
    AsideKeeps(opps, e.ledger, b.ledger);
    assert NoTurnsAt(e.ledger, at);
    NothingYet(env, opps, b, at);
  }

  lemma NotTurns()
    ensures !OfTurn(Expiry) && !OfTurn(NoBetSeen) && forall t :: !OfTurn(Terminated(t))
  {
  }

  lemma NothingYet(env: Env, opps: Book, e: Engine, at: int)
    requires BestFirst(opps, e.ledger) && Closed(e.ledger) && NoTurnsAt(e.ledger, at)
    ensures Turning(env, opps, e, at, [])
  {
    hide BestFirst;
    hide Closed;
    assert forall k :: Crowded(k) ==> OfTurn(k);
    hide OfTurn;
    hide Crowded;
  }

  lemma PlacementTurns(env: Env, opps: Book, b: Engine, at: int, arrivals: Book)
    requires env.Valid() && Keyed(opps) && arrivals == Arrivals(opps, at) && Turning(env, opps, b, at, [])
    requires Mid(env, opps, b, at, Bets(arrivals)) && Hopeful(b.lastAt, b.pending)
    ensures var p := AfterPlacement(env, b, at, arrivals);
            BestFirst(opps, p.ledger) && Closed(p.ledger) && TurnsBy(p.ledger, Some(at))
  {
    MergedPlacing(env, opps, b, at, arrivals);
    hide Mid;
    hide Turning;
    hide PlaceEach;
    hide Merged;
    hide BetRanks;
    hide Undecided;
    hide BestFirst;
    hide Closed;
    hide TurnsBy;
    hide Sorted;
    var merged := Merged(b, arrivals);
    PlaceEachTurning(env, opps, b, at, merged, Order(BetRanks(merged)));
    TurningEnds(env, opps, AfterPlacement(env, b, at, arrivals), at, Order(BetRanks(merged)));
  }

  lemma FlushTurns(opps: Book, p: Engine, at: int)
    requires BestFirst(opps, p.ledger) && Closed(p.ledger) && TurnsBy(p.ledger, Some(at))
    ensures var r := AfterFlush(p, at); BestFirst(opps, r.ledger) && Closed(r.ledger) && TurnsBy(r.ledger, Some(at))
  {
    hide BestFirst;
    hide Closed;
    hide TurnsBy;
    hide DropEach;
    hide OfTurn;
    NotTurns();
    DropEachAside(p, Terminated(p.termination), PathTerminated, at, Order(IdentityRanks(p.pending)));
    hide Aside;
    AsideKeeps(opps, p.ledger, AfterFlush(p, at).ledger);
  }

  lemma StepInTurn(env: Env, opps: Book, e: Engine, at: int)
    requires env.Valid() && Keyed(opps) && Inv(env, opps, e) && IsLeast(e.wakes, at) && InTurn(opps, e)
    ensures InTurn(opps, Step(env, e, at, Arrivals(opps, at)))
  {
    hide Inv;
    hide Mid;
    hide Hopeful;
    hide Turning;
    hide BestFirst;
    hide Closed;
    hide TurnsBy;
    hide BeforePlacement;
    hide AfterPlacement;
    hide AfterFlush;
    hide Arrivals;
    var arrivals := Arrivals(opps, at);
    WakeAhead(env, opps, e, at);
    BeforeTurns(env, opps, e, at, arrivals);
    BeforePlacementMid(env, opps, e, at);
    PlacementTurns(env, opps, BeforePlacement(env, e, at, arrivals), at, arrivals);
    FlushTurns(opps, AfterPlacement(env, BeforePlacement(env, e, at, arrivals), at, arrivals), at);
    StepInv(env, opps, e, at);
  }

  lemma WakeAhead(env: Env, opps: Book, e: Engine, at: int)
    requires Inv(env, opps, e) && IsLeast(e.wakes, at)
    ensures e.lastAt.Some? ==> e.lastAt.value < at
  {
    hide Cash;
    hide Books;
  }

  lemma TurningEnds(env: Env, opps: Book, e: Engine, at: int, ids: seq<int>)
    requires Turning(env, opps, e, at, ids)
    ensures BestFirst(opps, e.ledger) && Closed(e.ledger) && TurnsBy(e.ledger, Some(at))
  {
  }

  /** The ledger of every path is in turn after any number of wakes. */
  lemma {:induction false} PlayInTurn(env: Env, opps: Book, n: nat)
    requires env.Valid() && Keyed(opps)
    ensures InTurn(opps, Play(env, opps, n))
  {
    hide InTurn;
    hide Inv;
    hide Step;
    if n == 0 {
      assert InTurn(opps, Start(env, opps)) by { StartInTurn(env, opps); }
    } else {
      PlayInTurn(env, opps, n - 1);
      PlayInv(env, opps, n - 1);
      var e := Play(env, opps, n - 1);
      if Awake(e) { StepInTurn(env, opps, e, Least(e.wakes)); }
    }
  }

  lemma StartInTurn(env: Env, opps: Book)
    ensures InTurn(opps, Start(env, opps))
  {
  }

  lemma RowsByValue(opps: Book, rows: seq<Event>, i: nat, j: nat)
    requires BestFirst(opps, rows) && i < j < |rows| && OfTurn(rows[i].kind) && OfTurn(rows[j].kind)
    requires rows[i].at == rows[j].at && rows[i].identity != rows[j].identity
    ensures Ahead(opps, rows[i].identity, rows[j].identity)
  {
    hide Ahead;
  }

  lemma AheadMeans(opps: Book, a: int, b: int)
    requires Ahead(opps, a, b) && opps[a].identity == a && opps[b].identity == b
    ensures var x, y := opps[a].action.probability * opps[a].action.price, opps[b].action.probability * opps[b].action.price;
            && y <= x && (x == y ==> opps[a].kickoff <= opps[b].kickoff)
            && (x == y && opps[a].kickoff == opps[b].kickoff ==> a < b)
  {
  }

  /** Of two bets considered at one instant, the one that stands first in the ledger is the better one. */
  lemma TurnsByValue(env: Env, opps: Book, n: nat, i: nat, j: nat)
    requires env.Valid() && Keyed(opps)
    requires var rows := Play(env, opps, n).ledger;
             && i < j < |rows| && OfTurn(rows[i].kind) && OfTurn(rows[j].kind)
             && rows[i].at == rows[j].at && rows[i].identity != rows[j].identity
    ensures var rows := Play(env, opps, n).ledger;
            var a, b := rows[i].identity, rows[j].identity;
            && a in opps && b in opps && opps[a].action.Bet? && opps[b].action.Bet?
            && var x, y := opps[a].action.probability * opps[a].action.price, opps[b].action.probability * opps[b].action.price;
               && y <= x && (x == y ==> opps[a].kickoff <= opps[b].kickoff)
               && (x == y && opps[a].kickoff == opps[b].kickoff ==> a < b)
  {
    hide Play;
    hide BestFirst;
    hide Closed;
    hide TurnsBy;
    hide Better;
    PlayInTurn(env, opps, n);
    var rows := Play(env, opps, n).ledger;
    RowsByValue(opps, rows, i, j);
    AheadMeans(opps, rows[i].identity, rows[j].identity);
  }

  /** A bet is opened while another one finds every lane taken at the same instant only if it is the better one. */
  lemma NeverOvertaken(env: Env, opps: Book, n: nat, i: nat, j: nat)
    requires env.Valid() && Keyed(opps)
    requires var rows := Play(env, opps, n).ledger;
             && i < |rows| && j < |rows| && rows[i].kind.Waiting? && rows[i].kind.wait.NoAvailableLane?
             && rows[j].kind.Placement? && rows[i].at == rows[j].at && rows[i].identity != rows[j].identity
    ensures var rows := Play(env, opps, n).ledger;
            j < i && Ahead(opps, rows[j].identity, rows[i].identity) && !Ahead(opps, rows[i].identity, rows[j].identity)
  {
    hide Play;
    hide BestFirst;
    hide Closed;
    hide TurnsBy;
    hide Better;
    PlayInTurn(env, opps, n);
    var rows := Play(env, opps, n).ledger;
    ClosedMeans(rows, i, j);
    RowsByValue(opps, rows, j, i);
    BetterOnce(opps[rows[j].identity], opps[rows[i].identity]);
  }

  lemma ClosedMeans(rows: seq<Event>, i: nat, j: nat)
    requires Closed(rows) && i < |rows| && j < |rows| && Crowded(rows[i].kind) && rows[j].kind.Placement? && rows[i].at == rows[j].at
    ensures j < i
  {
    assert i != j;
  }
}

/**
  Three engines on one sequential stream: what an earlier decision opens is
  settled before the next one executes. The event-time path and the study path
  then end with the same equity and the same policy memory, for every policy.
  So does the batch replay, as far as its bankroll covers every request; it
  stops where the others pass over a bet.
 */
module Agreement {
  import opened Common
  import opened Policies
  import opened Decisions
  import opened Ordering
  import EventPath
  import EventInvariants
  import EventCompletion
  import Study
  import Replay

  const INITIAL: real := 100.0

  /** One decision of the stream; without a selection it is NO_BET and its price and probability are not read. */
  datatype Leg = Leg(
    identity: int, executionAt: int, kickoff: int, settlementAt: int, price: Price, probability: real,
    selected: Option<Side>, actual: Side)
  {
    predicate Won() {
      selected == Some(actual)
    }

    predicate WellPriced() {
      selected.Some? ==> 0.0 <= probability <= 1.0
    }
  }

  /** Each decision executes before its kickoff and is settled in the study by the time the next one executes. */
  ghost predicate Sequential(legs: seq<Leg>) {
    && (forall i :: 0 <= i < |legs| ==>
          legs[i].executionAt < legs[i].kickoff <= legs[i].settlementAt && legs[i].WellPriced())
    && (forall i, j :: 0 <= i && j == i + 1 && j < |legs| ==> legs[i].settlementAt <= legs[j].executionAt)
    && (forall i, j :: 0 <= i < j < |legs| ==> legs[i].identity != legs[j].identity)
  }

  lemma {:induction false} SettledBefore(legs: seq<Leg>, i: nat, j: nat)
    requires Sequential(legs) && i < j < |legs|
    ensures legs[i].settlementAt <= legs[j].executionAt
  {
    if i + 1 < j { SettledBefore(legs, i, j - 1); }
  }

  // ---- one decision after the other ------------------------------------------------------

  /** What is left of the capital, the policy memory, and whether bets are still placed. */
  datatype Purse = Purse(money: real, state: PolicyState, going: bool)

  function Ask(p: Policy, s: Purse, leg: Leg): StakeRequest {
    p.Request(leg.price, leg.probability, s.money, s.state)
  }

  function Collect(p: Policy, s: Purse, r: StakeRequest, leg: Leg): Purse {
    var money := s.money + Pnl(r.applied, leg.price, leg.Won());
    Purse(money, p.Settle(s.state, r, leg.Won()).0, 0.0 < money)
  }

  /** One decision from request to settlement; a request above the capital is passed over. */
  function Turn(p: Policy, s: Purse, leg: Leg): Purse {
    var r := Ask(p, s, leg);
    if !s.going || leg.selected.None? then s
    else if r.termination != Running then s.(going := false)
    else if r.requested <= 0.0 || s.money < r.requested then s
    else Collect(p, s, r, leg)
  }

  function After(p: Policy, legs: seq<Leg>): Purse {
    if legs == [] then Purse(INITIAL, p.InitialState(), true)
    else Turn(p, After(p, legs[..|legs| - 1]), legs[|legs| - 1])
  }

  ghost predicate Sane(p: Policy, s: Purse) {
    0.0 <= s.money && (s.going ==> 0.0 < s.money) && p.Fits(s.state)
  }

  lemma AskSound(p: Policy, s: Purse, leg: Leg)
    requires p.Valid() && Sane(p, s)
    ensures Sound(p, s.money, Ask(p, s, leg))
  {
    RequestSound(p, leg.price, leg.probability, s.money, s.state);
  }

  lemma TurnSane(p: Policy, s: Purse, leg: Leg)
    requires p.Valid() && Sane(p, s)
    ensures Sane(p, Turn(p, s, leg))
  {
    AskSound(p, s, leg);
    var r := Ask(p, s, leg);
    hide Policy.Request;
    if s.going && leg.selected.Some? && r.termination == Running && 0.0 < r.requested <= s.money {
      ProductPositive(r.applied, leg.price - 1.0);
      SettleFits(p, s.state, r, leg.Won());
      hide Policy.Settle;
    }
  }

  lemma {:induction false} AfterSane(p: Policy, legs: seq<Leg>)
    requires p.Valid()
    ensures Sane(p, After(p, legs))
  {
    hide Turn;
    if legs != [] {
      var last := |legs| - 1;
      AfterSane(p, legs[..last]);
      TurnSane(p, After(p, legs[..last]), legs[last]);
    }
  }

  lemma AfterNext(p: Policy, legs: seq<Leg>, n: nat)
    requires n < |legs|
    ensures After(p, legs[..n + 1]) == Turn(p, After(p, legs[..n]), legs[n])
  {
    hide Turn;
    assert legs[..n + 1][..n] == legs[..n];
  }

  // ---- the replay ------------------------------------------------------------------------

  /** The capital covers what is asked for this decision. */
  predicate Fundable(p: Policy, s: Purse, leg: Leg) {
    s.going && leg.selected.Some? && Ask(p, s, leg).termination == Running ==> Ask(p, s, leg).requested <= s.money
  }

  /** No request exceeds the capital of its moment. */
  ghost predicate Affordable(p: Policy, legs: seq<Leg>) {
    forall i :: 0 <= i < |legs| ==> Fundable(p, After(p, legs[..i]), legs[i])
  }

  /** How many decisions come before the first one that the capital does not cover. */
  function Reach(p: Policy, legs: seq<Leg>): (c: nat)
    ensures c <= |legs|
  {
    if legs == [] then 0
    else
      var last := |legs| - 1;
      var c := Reach(p, legs[..last]);
      if c < last || !Fundable(p, After(p, legs[..last]), legs[last]) then c else |legs|
  }

  lemma {:induction false} ReachMeans(p: Policy, legs: seq<Leg>)
    ensures var c := Reach(p, legs);
            && (forall i :: 0 <= i < c ==> Fundable(p, After(p, legs[..i]), legs[i]))
            && (c < |legs| ==> !Fundable(p, After(p, legs[..c]), legs[c]))
  {
    hide Fundable;
    hide After;
    if legs != [] {
      var last := |legs| - 1;
      ReachMeans(p, legs[..last]);
      assert forall i :: 0 <= i < last ==> legs[..last][..i] == legs[..i];
    }
  }

  function SlotOf(leg: Leg): Slots {
    [if leg.selected.Some? then Some(Bet(leg.price, leg.probability, leg.Won())) else None]
  }

  function BatchesOf(legs: seq<Leg>): (r: seq<Slots>)
    ensures |r| == |legs|
  {
    seq(|legs|, i requires 0 <= i < |legs| => SlotOf(legs[i]))
  }

  ghost predicate SameMoney(s: Purse, run: Replay.Run) {
    run.bankroll == s.money && run.state == s.state
  }

  lemma {:induction false} OneSlot(p: Policy, run: Replay.Run, leg: Leg, r: StakeRequest)
    requires leg.selected.Some? && r == p.Request(leg.price, leg.probability, run.bankroll, run.state)
    ensures var slots := SlotOf(leg);
            var requests := Replay.Requests(p, run.bankroll, run.state, slots);
            && requests == [Some(r)]
            && (Replay.Stops(requests) <==> r.termination != Running)
            && Replay.Exposure(requests) == r.requested
            && Replay.SettleSlots(p, run, slots, requests).pnl == Pnl(r.applied, leg.price, leg.Won())
            && Replay.SettleSlots(p, run, slots, requests).state == p.Settle(run.state, r, leg.Won()).0
  {
    var slots := SlotOf(leg);
    var requests := Replay.Requests(p, run.bankroll, run.state, slots);
    hide Policy.Request;
    hide Policy.Settle;
    hide Pnl;
    assert requests == [Some(r)];
    assert requests[0].value.termination == r.termination;
    assert requests[..0] == [] && slots[..0] == [];
    assert Replay.Exposure(requests[..0]) == 0.0;
    var none := Replay.SettleSlots(p, run, slots[..0], requests[..0]);
    assert none == Replay.Settling(run.state, 0.0, run.lengths, run.incomplete, []);
    assert Replay.SettleSlots(p, run, slots, requests) == Replay.SettleSlot(p, none, slots[0], requests[0]);
  }

  lemma IdleCollect(p: Policy, s: Purse, r: StakeRequest, leg: Leg)
    requires Sane(p, s) && Sound(p, s.money, r) && r.termination == Running && r.requested <= 0.0
    ensures Pnl(r.applied, leg.price, leg.Won()) == 0.0 && p.Settle(s.state, r, leg.Won()).0 == s.state
  {
    assert r.applied == 0.0;
    assert 0.0 * (leg.price - 1.0) == 0.0;
  }

  /** A batch that holds one bet is that bet's turn while its capital lasts; without it the replay stops. */
  lemma {:induction false} BetTurn(p: Policy, s: Purse, run: Replay.Run, leg: Leg)
    requires p.Valid() && Sane(p, s) && SameMoney(s, run) && run.terminated == !s.going && leg.selected.Some?
    ensures var r := Replay.ReplayBatch(p, run, SlotOf(leg));
            SameMoney(Turn(p, s, leg), r) && r.terminated == !(Fundable(p, s, leg) && Turn(p, s, leg).going)
  {
    AskSound(p, s, leg);
    var r := Ask(p, s, leg);
    OneSlot(p, run, leg, r);
    hide Replay.Requests;
    hide Replay.Stops;
    hide Replay.Exposure;
    hide Replay.SettleSlots;
    hide Replay.StopRows;
    hide Replay.UnfundedRows;
    hide Replay.SettledRows;
    hide SlotOf;
    if s.going && r.termination == Running && r.requested <= 0.0 {
      IdleCollect(p, s, r, leg);
    }
    hide Policy.Request;
    hide Policy.Settle;
    hide Pnl;
    hide Sound;
  }

  /** A batch that holds no bet leaves the replay alone. */
  lemma {:induction false} PassTurn(p: Policy, s: Purse, run: Replay.Run, leg: Leg)
    requires Sane(p, s) && SameMoney(s, run) && run.terminated == !s.going && leg.selected.None?
    ensures var r := Replay.ReplayBatch(p, run, SlotOf(leg));
            SameMoney(s, r) && r.terminated == !s.going
  {
    var slots := SlotOf(leg);
    var requests := Replay.Requests(p, run.bankroll, run.state, slots);
    assert requests == [None];
    assert requests[..0] == [] && slots[..0] == [];
    assert Replay.Exposure(requests) == 0.0;
    var none := Replay.SettleSlots(p, run, slots[..0], requests[..0]);
    assert none == Replay.Settling(run.state, 0.0, run.lengths, run.incomplete, []);
    assert Replay.SettleSlots(p, run, slots, requests) == Replay.SettleSlot(p, none, slots[0], requests[0]);
    hide Replay.SettleSlots;
    hide Replay.Requests;
    hide Replay.StopRows;
    hide Replay.UnfundedRows;
    hide Replay.SettledRows;
  }

  lemma ReplayTurn(p: Policy, s: Purse, run: Replay.Run, leg: Leg)
    requires p.Valid() && Sane(p, s) && SameMoney(s, run) && run.terminated == !s.going
    ensures var r := Replay.ReplayBatch(p, run, SlotOf(leg));
            SameMoney(Turn(p, s, leg), r) && r.terminated == !(Fundable(p, s, leg) && Turn(p, s, leg).going)
  {
    if leg.selected.Some? {
      BetTurn(p, s, run, leg);
    } else {
      PassTurn(p, s, run, leg);
    }
    hide Replay.ReplayBatch;
    hide SlotOf;
    hide Policy.Request;
  }

  lemma Stopped(p: Policy, run: Replay.Run, slots: Slots)
    requires run.terminated
    ensures Replay.ReplayBatch(p, run, slots) == run
  {
  }

  lemma PassedOver(p: Policy, s: Purse, leg: Leg)
    requires !Fundable(p, s, leg) && 0.0 <= s.money
    ensures Turn(p, s, leg) == s
  {
    hide Ask;
  }

  /** The replay of a sequential stream is the plain fold over its decisions up to the first one it cannot fund, and stops there. */
  lemma {:induction false} ReplayAgrees(p: Policy, legs: seq<Leg>)
    requires p.Valid()
    ensures var run, c := Replay.ReplayAll(p, INITIAL, BatchesOf(legs)), Reach(p, legs);
            && SameMoney(After(p, legs[..c]), run)
            && run.terminated == (c < |legs| || !After(p, legs[..c]).going)
  {
    hide Turn;
    hide Fundable;
    hide Replay.ReplayBatch;
    if legs != [] {
      var last := |legs| - 1;
      var s, c := After(p, legs[..last]), Reach(p, legs[..last]);
      ReplayAgrees(p, legs[..last]);
      AfterSane(p, legs[..last]);
      assert BatchesOf(legs)[..last] == BatchesOf(legs[..last]);
      assert legs[..last][..c] == legs[..c];
      if c == last {
        ReplayTurn(p, s, Replay.ReplayAll(p, INITIAL, BatchesOf(legs[..last])), legs[last]);
        assert legs[..|legs|] == legs;
        if !Fundable(p, s, legs[last]) { PassedOver(p, s, legs[last]); }
      } else {
        Stopped(p, Replay.ReplayAll(p, INITIAL, BatchesOf(legs[..last])), SlotOf(legs[last]));
      }
    }
  }

  /** The replay's verdict is the fold's exactly when every request was covered or bets no longer go on. */
  lemma ReplayVerdict(p: Policy, legs: seq<Leg>)
    requires p.Valid()
    ensures var run := Replay.ReplayAll(p, INITIAL, BatchesOf(legs));
            && (Affordable(p, legs) ==> SameMoney(After(p, legs), run))
            && ((run.terminated == !After(p, legs).going) <==> Affordable(p, legs) || !After(p, legs).going)
  {
    ReplayAgrees(p, legs);
    ReachMeans(p, legs);
    assert legs[..|legs|] == legs;
    hide Fundable;
    hide After;
    hide Reach;
    hide Replay.ReplayAll;
    hide BatchesOf;
  }

  /** The same stream as the decisions a replay reads. */
  function DecisionOf(leg: Leg): Decision {
    if leg.selected.Some? then
      Decision(leg.identity, leg.executionAt, leg.selected, Some(leg.actual), Some(leg.price), Some(leg.probability),
               Some(0), Some(leg.executionAt - 1))
    else
      Decision(leg.identity, leg.executionAt, None, Some(leg.actual), None, None, None, None)
  }

  function DecisionsOf(legs: seq<Leg>): (r: seq<Decision>)
    ensures |r| == |legs|
  {
    seq(|legs|, i requires 0 <= i < |legs| => DecisionOf(legs[i]))
  }

  function Singles(ds: seq<Decision>): (r: seq<seq<Decision>>)
    ensures |r| == |ds|
  {
    seq(|ds|, i requires 0 <= i < |ds| => [ds[i]])
  }

  lemma {:induction false} GroupSingles(legs: seq<Leg>, n: nat)
    requires Sequential(legs) && n <= |legs|
    ensures GroupByTime(DecisionsOf(legs)[..n]) == Singles(DecisionsOf(legs)[..n])
  {
    if 0 < n {
      GroupSingles(legs, n - 1);
      var ds := DecisionsOf(legs);
      forall i, j | 0 <= i && j == i + 1 && j < |legs|
        ensures ds[i].time != ds[j].time
      {
        SettledBefore(legs, i, j);
      }
      hide Sequential;
      hide DecisionsOf;
      GroupNext(ds, n - 1);
    }
  }

  /** A decision at a new time starts a batch of its own. */
  lemma GroupNext(ds: seq<Decision>, n: nat)
    requires n < |ds| && GroupByTime(ds[..n]) == Singles(ds[..n])
    requires 0 < n ==> ds[n - 1].time != ds[n].time
    ensures GroupByTime(ds[..n + 1]) == Singles(ds[..n + 1])
  {
    var before := GroupByTime(ds[..n]);
    assert ds[..n + 1][..n] == ds[..n] && ds[..n + 1][n] == ds[n];
    if 0 < n { assert before[n - 1] == [ds[n - 1]]; }
    assert Singles(ds[..n + 1]) == before + [[ds[n]]];
  }

  /** A replay of the stream's decisions runs on exactly these batches. */
  lemma StreamBatches(p: Policy, legs: seq<Leg>)
    requires Sequential(legs)
    ensures ValidateBasis(DecisionsOf(legs), p, true).None?
    ensures var groups := GroupByTime(DecisionsOf(legs));
            && (forall i, j :: 0 <= i < |groups| && 0 <= j < |groups[i]| ==> Decisions.Priced(groups[i][j]))
            && Replay.AllSlots(groups) == BatchesOf(legs)
  {
    var ds := DecisionsOf(legs);
    GroupSingles(legs, |legs|);
    assert ds[..|legs|] == ds;
    NoFlaws(legs, p, |legs|);
    forall i | 0 <= i < |ds|
      ensures Actions([ds[i]]) <= 1
    {
      assert [ds[i]][..0] == [];
    }
    forall i | 0 <= i < |legs|
      ensures SlotsOf([ds[i]]) == SlotOf(legs[i])
    {
    }
  }

  lemma {:induction false} NoFlaws(legs: seq<Leg>, p: Policy, n: nat)
    requires n <= |legs|
    ensures FirstFlaw(DecisionsOf(legs)[..n], p, true).None?
  {
    if 0 < n {
      NoFlaws(legs, p, n - 1);
      assert DecisionsOf(legs)[..n][..n - 1] == DecisionsOf(legs)[..n - 1];
    }
  }

  // ---- sorted orders ---------------------------------------------------------------------

  lemma OrderNone(ranks: map<int, Rank>)
    requires forall k :: k !in ranks
    ensures Order(ranks) == []
  {
    OrderUnique(ranks, []);
  }

  lemma OrderOne(ranks: map<int, Rank>, id: int)
    requires id in ranks && forall k :: k in ranks ==> k == id
    ensures Order(ranks) == [id]
  {
    OrderUnique(ranks, [id]);
  }

  function Ids(legs: seq<Leg>): (r: seq<int>)
    ensures |r| == |legs|
  {
    seq(|legs|, i requires 0 <= i < |legs| => legs[i].identity)
  }

  // ---- the study path --------------------------------------------------------------------

  function CandidateOf(leg: Leg): Study.Candidate {
    if leg.selected.Some? then
      Study.Candidate(leg.identity, leg.kickoff, leg.executionAt, leg.settlementAt, leg.selected, Some(leg.price),
                      Some(leg.probability))
    else
      Study.Candidate(leg.identity, leg.kickoff, leg.executionAt, leg.settlementAt, None, None, None)
  }

  function CandidatesOf(legs: seq<Leg>): Study.Book
    requires Sequential(legs)
  {
    map i | 0 <= i < |legs| :: legs[i].identity := CandidateOf(legs[i])
  }

  /** The canonical results of the stream, however many candidates were placed before. */
  ghost predicate Canonical(results: Study.Results, legs: seq<Leg>) {
    forall i, n: nat :: 0 <= i < |legs| && legs[i].selected.Some? ==>
      results(CandidateOf(legs[i]), n) == if legs[i].Won() then Study.Won else Study.Lost
  }

  lemma StudyBefore(legs: seq<Leg>, i: nat, j: nat)
    requires Sequential(legs) && i < j < |legs|
    ensures Before(CandidateOf(legs[i]).Rank(), legs[i].identity, CandidateOf(legs[j]).Rank(), legs[j].identity)
  {
    SettledBefore(legs, i, j);
  }

  lemma CandidateAt(legs: seq<Leg>, i: nat)
    requires Sequential(legs) && i < |legs|
    ensures var ranks := Study.Ranks(CandidatesOf(legs));
            legs[i].identity in ranks && ranks[legs[i].identity] == CandidateOf(legs[i]).Rank()
  {
    var book := CandidatesOf(legs);
    assert legs[i].identity in book && book[legs[i].identity] == CandidateOf(legs[i]);
    hide Study.Candidate.Rank;
  }

  lemma CandidateFrom(legs: seq<Leg>, k: int)
    requires Sequential(legs) && k in Study.Ranks(CandidatesOf(legs))
    ensures k in Ids(legs)
  {
    var i :| 0 <= i < |legs| && legs[i].identity == k;
    assert Ids(legs)[i] == k;
  }

  lemma StudyOrder(legs: seq<Leg>)
    requires Sequential(legs)
    ensures Order(Study.Ranks(CandidatesOf(legs))) == Ids(legs)
  {
    hide Study.Ranks;
    hide CandidatesOf;
    hide CandidateOf;
    hide Before;
    hide Study.Candidate.Rank;
    hide Sequential;
    var ranks, ids := Study.Ranks(CandidatesOf(legs)), Ids(legs);
    forall i | 0 <= i < |ids|
      ensures ids[i] in ranks && ranks[ids[i]] == CandidateOf(legs[i]).Rank()
    {
      CandidateAt(legs, i);
    }
    forall i, j | 0 <= i < j < |ids|
      ensures Before(ranks[ids[i]], ids[i], ranks[ids[j]], ids[j])
    {
      StudyBefore(legs, i, j);
    }
    forall k | k in ranks
      ensures k in ids
    {
      CandidateFrom(legs, k);
    }
    OrderUnique(ranks, ids);
  }

  /** The ticket of a leg placed from purse `s`. */
  function TicketOf(p: Policy, s: Purse, leg: Leg): Study.Ticket {
    Study.Ticket(CandidateOf(leg), Ask(p, s, leg), leg.price, if leg.Won() then Study.Won else Study.Lost)
  }

  /** Nothing is open, and the study path holds exactly the purse. */
  ghost predicate Empty(s: Purse, m: Study.Path) {
    && (forall k :: k !in m.open) && |m.open| == 0 && m.reserved == 0.0 && m.equity == s.money && m.state == s.state
    && m.active == s.going && m.ruin == !s.going
  }

  /** Only this leg is open, placed from the purse before it. */
  ghost predicate Busy(p: Policy, s: Purse, leg: Leg, m: Study.Path) {
    var r := Ask(p, s, leg);
    && s.going && leg.selected.Some? && r.termination == Running && 0.0 < r.requested <= s.money
    && m.open == map[leg.identity := TicketOf(p, s, leg)]
    && m.reserved == r.applied && m.equity == s.money && m.state == s.state && m.active && !m.ruin
  }

  /** After n legs the study path holds the purse, or has the last leg still open. */
  ghost predicate StudyAt(p: Policy, legs: seq<Leg>, n: nat, m: Study.Path)
    requires n <= |legs|
  {
    Empty(After(p, legs[..n]), m) || (0 < n && Busy(p, After(p, legs[..n - 1]), legs[n - 1], m))
  }

  lemma SettleNothing(t: Study.ValidTerms, m: Study.Path, until: Option<int>)
    requires forall k :: k !in m.open
    ensures Study.SettleDue(t, m, until) == m
  {
    OrderNone(Study.DueRanks(m, until));
  }

  lemma OneStudyDue(t: Study.ValidTerms, m: Study.Path, until: Option<int>, id: int)
    requires id in m.open && (until.Some? ==> m.open[id].candidate.settlementAt <= until.value) && forall k :: k in m.open ==> k == id
    ensures Study.SettleDue(t, m, until) == Study.SettleOne(t, m, id)
  {
    hide Study.SettleOne;
    OrderOne(Study.DueRanks(m, until), id);
    assert [id][..0] == [];
    assert Study.SettleEach(t, m, [id][..0]) == m;
  }

  /** What one settlement does to the study path. */
  lemma StudySettled(t: Study.ValidTerms, m: Study.Path, id: int)
    requires id in m.open && m.open[id].fate != Study.Void && !m.ruin && m.active
    ensures var k := m.open[id];
            var r := Study.SettleOne(t, m, id);
            var equity := m.equity + Pnl(k.request.applied, k.price, k.fate == Study.Won);
            && r.equity == equity && r.reserved == m.reserved - k.request.applied && r.open == m.open - {id}
            && r.state == t.policy.Settle(m.state, k.request, k.fate == Study.Won).0
            && r.active == (0.0 < equity) && r.ruin == !r.active
  {
    hide Policy.Settle;
    hide Pnl;
    hide Study.Fall;
    hide Study.Counted;
  }

  /** A bet that is open was collected from its purse. */
  lemma Collected(p: Policy, s: Purse, leg: Leg)
    requires s.going && leg.selected.Some? && Ask(p, s, leg).termination == Running && 0.0 < Ask(p, s, leg).requested <= s.money
    ensures Turn(p, s, leg) == Collect(p, s, Ask(p, s, leg), leg)
  {
    hide Ask;
    hide Collect;
  }

  lemma SettleBusy(t: Study.ValidTerms, s: Purse, leg: Leg, m: Study.Path, until: Option<int>)
    requires Busy(t.policy, s, leg, m) && (until.Some? ==> leg.settlementAt <= until.value)
    ensures Empty(Turn(t.policy, s, leg), Study.SettleDue(t, m, until))
  {
    hide Ask;
    hide Turn;
    hide Policy.Settle;
    hide Pnl;
    hide Study.SettleDue;
    hide Study.SettleOne;
    var id := leg.identity;
    Collected(t.policy, s, leg);
    OneStudyDue(t, m, until, id);
    StudySettled(t, m, id);
    assert m.open - {id} == map[];
  }

  lemma SettleStudy(t: Study.ValidTerms, legs: seq<Leg>, n: nat, m: Study.Path, until: Option<int>)
    requires Sequential(legs) && n <= |legs| && StudyAt(t.policy, legs, n, m)
    requires until.Some? ==> forall i :: 0 <= i < n ==> legs[i].settlementAt <= until.value
    ensures Empty(After(t.policy, legs[..n]), Study.SettleDue(t, m, until))
  {
    hide Turn;
    hide Busy;
    hide Empty;
    hide Study.SettleDue;
    hide Sequential;
    var s := After(t.policy, legs[..n]);
    if Empty(s, m) {
      EmptySettles(t, s, m, until);
    } else {
      AfterNext(t.policy, legs, n - 1);
      SettleBusy(t, After(t.policy, legs[..n - 1]), legs[n - 1], m, until);
    }
  }

  lemma EmptySettles(t: Study.ValidTerms, s: Purse, m: Study.Path, until: Option<int>)
    requires Empty(s, m)
    ensures Empty(s, Study.SettleDue(t, m, until))
  {
    SettleNothing(t, m, until);
  }

  lemma ConsiderLeg(t: Study.ValidTerms, s: Purse, leg: Leg, m: Study.Path, results: Study.Results)
    requires t.haircut == 0.0 && 1 <= t.maxLanes && Sane(t.policy, s) && Empty(s, m)
    requires leg.selected.Some? ==> forall n: nat :: results(CandidateOf(leg), n) == if leg.Won() then Study.Won else Study.Lost
    ensures var r := Study.Consider(t, m, CandidateOf(leg), results);
            Empty(Turn(t.policy, s, leg), r) || Busy(t.policy, s, leg, r)
  {
    var c := CandidateOf(leg);
    AskSound(t.policy, s, leg);
    hide Policy.Request;
    hide Policy.Settle;
    hide Pnl;
    if leg.selected.Some? {
      assert leg.price - 1.0 == (leg.price - 1.0) * (1.0 - 0.0);
      assert Study.Quoted(t, leg.price) == leg.price;
      hide Study.Quoted;
      assert Study.RequestFor(t, m, c, leg.price) == Ask(t.policy, s, leg);
    }
  }

  /** One more leg of the study path. */
  lemma StudyNext(t: Study.ValidTerms, legs: seq<Leg>, results: Study.Results, n: nat, before: Study.Path)
    requires Sequential(legs) && t.haircut == 0.0 && 1 <= t.maxLanes && Canonical(results, legs)
    requires n < |legs| && StudyAt(t.policy, legs, n, before)
    ensures var c := CandidateOf(legs[n]);
            StudyAt(t.policy, legs, n + 1, Study.Consider(t, Study.SettleDue(t, before, Some(c.executionAt)), c, results))
  {
    var leg := legs[n];
    forall i | 0 <= i < n
      ensures legs[i].settlementAt <= leg.executionAt
    {
      SettledBefore(legs, i, n);
    }
    assert leg.selected.Some? ==> forall m: nat :: results(CandidateOf(leg), m) == if leg.Won() then Study.Won else Study.Lost;
    AfterSane(t.policy, legs[..n]);
    AfterNext(t.policy, legs, n);
    SettleStudy(t, legs, n, before, Some(leg.executionAt));
    hide After;
    hide Turn;
    hide Busy;
    hide Empty;
    hide Study.Consider;
    hide Study.SettleDue;
    hide Canonical;
    hide Sequential;
    ConsiderLeg(t, After(t.policy, legs[..n]), leg, Study.SettleDue(t, before, Some(leg.executionAt)), results);
  }

  lemma StudyListed(legs: seq<Leg>, n: nat)
    requires Sequential(legs) && n <= |legs|
    ensures forall i :: 0 <= i < n ==> Ids(legs)[..n][i] in CandidatesOf(legs)
    ensures forall i :: 0 <= i < n ==> CandidatesOf(legs)[Ids(legs)[i]] == CandidateOf(legs[i])
  {
  }

  lemma {:induction false} WalkAgrees(t: Study.ValidTerms, legs: seq<Leg>, results: Study.Results, n: nat)
    requires Sequential(legs) && t.haircut == 0.0 && 1 <= t.maxLanes && Canonical(results, legs)
    requires n <= |legs|
    ensures forall i :: 0 <= i < n ==> Ids(legs)[..n][i] in CandidatesOf(legs)
    ensures StudyAt(t.policy, legs, n, Study.Walk(t, CandidatesOf(legs), results, Ids(legs)[..n]))
  {
    hide Turn;
    hide Busy;
    hide Canonical;
    hide Sequential;
    hide Study.Consider;
    hide Study.SettleDue;
    StudyListed(legs, n);
    hide CandidatesOf;
    if n == 0 {
      assert legs[..0] == [] && Ids(legs)[..0] == [];
    } else {
      WalkAgrees(t, legs, results, n - 1);
      hide StudyAt;
      hide After;
      StudyNext(t, legs, results, n - 1, Study.Walk(t, CandidatesOf(legs), results, Ids(legs)[..n - 1]));
      Study.WalkNext(t, CandidatesOf(legs), results, Ids(legs), n - 1);
      hide Study.Walk;
    }
  }

  /** The study path of a sequential stream is the plain fold over its decisions. */
  lemma StudyAgrees(t: Study.ValidTerms, legs: seq<Leg>, results: Study.Results)
    requires Sequential(legs) && t.haircut == 0.0 && 1 <= t.maxLanes && Canonical(results, legs)
    ensures Empty(After(t.policy, legs), Study.Complete(t, CandidatesOf(legs), results))
  {
    hide Study.Walk;
    hide Study.SettleDue;
    hide StudyAt;
    hide Empty;
    hide After;
    hide Turn;
    hide Sequential;
    hide Canonical;
    hide CandidatesOf;
    StudyOrder(legs);
    WalkAgrees(t, legs, results, |legs|);
    assert Ids(legs)[..|legs|] == Ids(legs) && legs[..|legs|] == legs;
    hide Ids;
    SettleStudy(t, legs, |legs|, Study.Walk(t, CandidatesOf(legs), results, Ids(legs)), None);
  }

  // ---- the event-time path ---------------------------------------------------------------

  function ToOutcome(side: Side): EventPath.Outcome {
    match side
    case Home => EventPath.Home
    case Draw => EventPath.Draw
    case Away => EventPath.Away
  }

  function OpportunityOf(leg: Leg): EventPath.OpportunityRow {
    EventPath.OpportunityRow(
      leg.identity, leg.kickoff, leg.executionAt,
      if leg.selected.Some? then EventPath.Bet(ToOutcome(leg.selected.value), leg.price, leg.probability) else EventPath.Skip,
      ToOutcome(leg.actual))
  }

  function OpportunitiesOf(legs: seq<Leg>): EventPath.Book
    requires Sequential(legs)
  {
    map i | 0 <= i < |legs| :: legs[i].identity := OpportunityOf(legs[i])
  }

  /** The engine settles by its own lag after kickoff, whatever the study's settlement instant is. */
  function DueAt(env: EventPath.Env, leg: Leg): int {
    env.SettlementAt(OpportunityOf(leg))
  }

  /** By its lag, too, each bet settles by the time the next decision executes. */
  ghost predicate Lagged(env: EventPath.Env, legs: seq<Leg>) {
    forall i, j :: 0 <= i && j == i + 1 && j < |legs| ==> DueAt(env, legs[i]) <= legs[j].executionAt
  }

  /** The part of the engine that this agreement is about. */
  datatype Core = Core(
    equity: real, reserved: real, state: PolicyState, running: bool, live: map<int, EventPath.Position>,
    pending: map<int, EventPath.Wager>)

  function CoreOf(e: EventPath.Engine): Core {
    Core(e.equity, e.reserved, e.state, e.termination == Running, e.live, e.pending)
  }

  /** Nothing is open, and the engine holds exactly the purse. */
  ghost predicate Free(s: Purse, m: Core) {
    && (forall k :: k !in m.live) && |m.live| == 0
    && m.reserved == 0.0 && m.equity == s.money && m.state == s.state && m.running == s.going
  }

  ghost predicate Idle(s: Purse, m: Core) {
    Free(s, m) && forall k :: k !in m.pending
  }

  /** Only this bet waits, for cash that the purse does not hold. */
  ghost predicate Held(s: Purse, leg: Leg, m: Core) {
    Free(s, m) && m.running && leg.WellPriced() && leg.selected.Some? && m.pending == map[leg.identity := OpportunityOf(leg)]
  }

  /** Only this bet is open, placed from the purse before it. */
  ghost predicate Engaged(p: Policy, s: Purse, leg: Leg, dueAt: int, m: Core) {
    var r := Ask(p, s, leg);
    && s.going && leg.selected.Some? && leg.WellPriced() && r.termination == Running && 0.0 < r.requested <= s.money
    && m.live == map[leg.identity := EventPath.Position(dueAt, OpportunityOf(leg), r)]
    && (forall k :: k !in m.pending)
    && m.reserved == r.applied && m.equity == s.money && m.state == s.state && m.running
  }

  /** After one more decision the engine holds the purse, keeps the bet waiting, or has it open and its settlement scheduled. */
  ghost predicate TurnAt(env: EventPath.Env, s: Purse, leg: Leg, m: Core, wakes: set<int>) {
    || Idle(Turn(env.policy, s, leg), m)
    || Held(Turn(env.policy, s, leg), leg, m)
    || (Engaged(env.policy, s, leg, DueAt(env, leg), m) && DueAt(env, leg) in wakes)
  }

  ghost predicate CoreAt(env: EventPath.Env, legs: seq<Leg>, n: nat, m: Core, wakes: set<int>)
    requires n <= |legs|
  {
    if n == 0 then Idle(After(env.policy, []), m) else TurnAt(env, After(env.policy, legs[..n - 1]), legs[n - 1], m, wakes)
  }

  lemma SettleIdle(env: EventPath.Env, e: EventPath.Engine, at: int)
    requires forall k :: k !in e.live
    ensures EventPath.AfterSettlement(env, e, at) == e
  {
    OrderNone(EventPath.DueRanks(e, at));
  }

  /** What one settlement does to the core. */
  lemma SettleOneCore(env: EventPath.Env, e: EventPath.Engine, at: int, id: int)
    requires id in e.live
    ensures var p := e.live[id];
            var equity := e.equity + Pnl(p.request.applied, p.opportunity.action.price, p.opportunity.Won());
            var r := EventPath.SettleOne(env, e, at, id);
            && CoreOf(r) == Core(equity, e.reserved - p.request.applied,
                                 env.policy.Settle(e.state, p.request, p.opportunity.Won()).0,
                                 e.termination == Running && 0.0 < equity, e.live - {id}, e.pending)
            && r.wakes == e.wakes && r.lastAt == e.lastAt
  {
    hide Policy.Settle;
    hide Pnl;
    TrackKeeps(EventPath.Realize(env, e, id), at);
    hide EventPath.Track;
  }

  lemma OneDue(env: EventPath.Env, e: EventPath.Engine, at: int, id: int)
    requires id in e.live && e.live[id].settlementAt <= at && forall k :: k in e.live ==> k == id
    ensures EventPath.AfterSettlement(env, e, at) == EventPath.SettleOne(env, e, at, id)
  {
    hide EventPath.SettleOne;
    OrderOne(EventPath.DueRanks(e, at), id);
    assert [id][..0] == [];
    assert EventPath.SettleEach(env, e, at, [id][..0]) == e;
  }

  lemma SettleEngaged(env: EventPath.Env, s: Purse, leg: Leg, dueAt: int, e: EventPath.Engine, at: int)
    requires Engaged(env.policy, s, leg, dueAt, CoreOf(e)) && dueAt <= at
    ensures var r := EventPath.AfterSettlement(env, e, at);
            Idle(Turn(env.policy, s, leg), CoreOf(r)) && r.wakes == e.wakes && r.lastAt == e.lastAt
  {
    hide Ask;
    hide Turn;
    hide Policy.Settle;
    hide Pnl;
    hide EventPath.SettleOne;
    hide EventPath.AfterSettlement;
    var id := leg.identity;
    Collected(env.policy, s, leg);
    OneDue(env, e, at, id);
    SettleOneCore(env, e, at, id);
    assert OpportunityOf(leg).Won() == leg.Won();
    assert e.live - {id} == map[];
  }

  lemma TrackKeeps(e: EventPath.Engine, at: int)
    ensures var r := EventPath.Track(e, at);
            CoreOf(r) == CoreOf(e) && r.wakes == e.wakes && r.lastAt == e.lastAt && r.termination == e.termination
  {
  }

  /** Nothing waits, so nothing expires. */
  lemma ExpireNothing(e: EventPath.Engine, at: int)
    requires forall k :: k !in e.pending
    ensures EventPath.AfterExpiry(e, at) == e
  {
    OrderNone(EventPath.ExpiryRanks(e, at));
  }

  lemma OneExpires(e: EventPath.Engine, at: int, id: int)
    requires id in e.pending && e.pending[id].kickoff <= at && forall k :: k in e.pending ==> k == id
    ensures EventPath.AfterExpiry(e, at) == EventPath.Drop(e, EventPath.Expiry, EventPath.ExpiredCapacity, at, id)
  {
    hide EventPath.Drop;
    OrderOne(EventPath.ExpiryRanks(e, at), id);
    assert [id][..0] == [];
    assert EventPath.DropEach(e, EventPath.Expiry, EventPath.ExpiredCapacity, at, [id][..0]) == e;
  }

  /** A bet that waited until its kickoff leaves nothing behind. */
  lemma ExpireHeld(s: Purse, leg: Leg, e: EventPath.Engine, at: int)
    requires Held(s, leg, CoreOf(e)) && leg.kickoff <= at
    ensures var r := EventPath.AfterExpiry(e, at);
            Idle(s, CoreOf(r)) && r.wakes == e.wakes && r.lastAt == e.lastAt
  {
    hide EventPath.AfterExpiry;
    OneExpires(e, at, leg.identity);
    assert e.pending - {leg.identity} == map[];
  }

  lemma SkipNothing(e: EventPath.Engine, at: int, arrivals: EventPath.Book)
    requires forall k :: k in arrivals ==> arrivals[k].action.Bet?
    ensures EventPath.AfterSkips(e, at, arrivals) == e
  {
    OrderNone(EventPath.SkipRanks(arrivals));
  }

  lemma SkipOne(e: EventPath.Engine, at: int, o: EventPath.Opportunity, arrivals: EventPath.Book)
    requires o.action.Skip? && arrivals == map[o.identity := o]
    ensures EventPath.AfterSkips(e, at, arrivals) == EventPath.Drop(e, EventPath.NoBetSeen, EventPath.NotBet, at, o.identity)
  {
    hide EventPath.Drop;
    var id := o.identity;
    OrderOne(EventPath.SkipRanks(arrivals), id);
    assert [id][..0] == [];
    assert EventPath.DropEach(e, EventPath.NoBetSeen, EventPath.NotBet, at, [id][..0]) == e;
  }

  lemma FlushNothing(e: EventPath.Engine, at: int)
    requires e.termination == Running || forall k :: k !in e.pending
    ensures EventPath.AfterFlush(e, at) == e
  {
    if e.termination != Running { OrderNone(EventPath.IdentityRanks(e.pending)); }
  }

  lemma PlaceNothing(env: EventPath.Env, e: EventPath.Engine, at: int, arrivals: EventPath.Book)
    requires (forall k :: k !in e.pending) && forall k :: k in arrivals ==> arrivals[k].action.Skip?
    ensures EventPath.AfterPlacement(env, e, at, arrivals) == e
  {
    OrderNone(EventPath.BetRanks(EventPath.Merged(e, arrivals)));
  }

  lemma PlaceArrival(env: EventPath.Env, e: EventPath.Engine, at: int, o: EventPath.Wager, arrivals: EventPath.Book)
    requires (forall k :: k !in e.pending)
    requires arrivals == map[o.identity := o]
    ensures EventPath.AfterPlacement(env, e, at, arrivals) == EventPath.PlaceOne(env, e, at, o)
  {
    hide EventPath.PlaceOne;
    var id := o.identity;
    var merged := EventPath.Merged(e, arrivals);
    assert id in merged && merged[id] == o;
    OrderOne(EventPath.BetRanks(merged), id);
    assert [id][..0] == [];
    assert EventPath.PlaceEach(env, e, at, merged, [id][..0]) == e;
  }

  /** What dropping an opportunity that does not wait does to the core. */
  lemma DropCore(e: EventPath.Engine, kind: EventPath.Kind, status: EventPath.Status, at: int, id: int)
    requires forall k :: k !in e.pending
    ensures var r := EventPath.Drop(e, kind, status, at, id);
            CoreOf(r) == CoreOf(e) && r.wakes == e.wakes && r.lastAt == e.lastAt
  {
    assert e.pending - {id} == e.pending;
  }

  lemma OpenCore(env: EventPath.Env, e: EventPath.Engine, at: int, o: EventPath.Wager, request: StakeRequest)
    requires forall k :: k !in e.pending
    ensures var r := EventPath.OpenOne(env, e, at, o, request);
            && CoreOf(r) == CoreOf(e).(reserved := e.reserved + request.applied,
                                       live := e.live[o.identity := EventPath.Position(env.SettlementAt(o), o, request)])
            && r.wakes == e.wakes + {env.SettlementAt(o)} && r.lastAt == e.lastAt
  {
    assert e.pending - {o.identity} == e.pending;
  }

  lemma HoldCore(e: EventPath.Engine, wait: EventPath.Wait, at: int, o: EventPath.Wager)
    ensures var r := EventPath.Hold(e, wait, at, o);
            CoreOf(r) == CoreOf(e).(pending := e.pending[o.identity := o]) && r.wakes == e.wakes && r.lastAt == e.lastAt
  {
  }

  /** The core after a turn that finds a free lane. */
  lemma TurnCore(env: EventPath.Env, e: EventPath.Engine, at: int, o: EventPath.Wager, request: StakeRequest)
    requires (forall k :: k !in e.pending) && |e.live| == 0 && 1 <= env.maxLanes && at < o.kickoff
    requires e.termination == Running && request.termination == Running && 0.0 < request.requested ==> 0.0 < request.applied
    ensures var r := EventPath.PlaceWith(env, e, at, o, request);
            && r.lastAt == e.lastAt
            && (if e.termination != Running || (request.termination == Running && request.requested <= 0.0) then
                  CoreOf(r) == CoreOf(e) && r.wakes == e.wakes
                else if request.termination != Running then
                  CoreOf(r) == CoreOf(e).(running := false) && r.wakes == e.wakes
                else if e.equity - e.reserved < request.requested then
                  CoreOf(r) == CoreOf(e).(pending := e.pending[o.identity := o]) && r.wakes == e.wakes
                else
                  && CoreOf(r) == CoreOf(e).(reserved := e.reserved + request.applied,
                                             live := e.live[o.identity := EventPath.Position(env.SettlementAt(o), o, request)])
                  && r.wakes == e.wakes + {env.SettlementAt(o)})
  {
    hide EventPath.Drop;
    hide EventPath.OpenOne;
    hide EventPath.Hold;
    var asked := EventPath.Record(EventPath.NoteRetry(e, at, o), EventPath.Requested(request), at, o.identity);
    assert CoreOf(asked) == CoreOf(e) && asked.wakes == e.wakes && asked.lastAt == e.lastAt;
    DropCore(e, EventPath.Terminated(e.termination), EventPath.PathTerminated, at, o.identity);
    DropCore(asked.(termination := request.termination), EventPath.PolicyStopped(request.termination),
             EventPath.PolicyTermination, at, o.identity);
    DropCore(asked, EventPath.NoStake, EventPath.ZeroStake, at, o.identity);
    HoldCore(asked, EventPath.InsufficientCash(request), at, o);
    OpenCore(env, asked, at, o, request);
  }

  /** The turn of a bet that finds nothing open and nothing waiting. */
  lemma PlaceLeg(env: EventPath.Env, s: Purse, leg: Leg, e: EventPath.Engine, at: int)
    requires env.Valid() && Sane(env.policy, s) && Idle(s, CoreOf(e)) && at < leg.kickoff
    requires leg.selected.Some? && leg.WellPriced()
    ensures var r := EventPath.PlaceOne(env, e, at, OpportunityOf(leg));
            && TurnAt(env, s, leg, CoreOf(r), r.wakes)
            && (r.wakes == e.wakes || r.wakes == e.wakes + {DueAt(env, leg)}) && r.lastAt == e.lastAt
            && (r.termination == Running || forall k :: k !in r.pending)
  {
    AskSound(env.policy, s, leg);
    var request := Ask(env.policy, s, leg);
    assert EventPath.RequestFor(env, e, OpportunityOf(leg)) == request;
    hide Policy.Request;
    hide Policy.Settle;
    hide Pnl;
    hide EventPath.PlaceWith;
    hide Ask;
    TurnCore(env, e, at, OpportunityOf(leg), request);
    assert e.live == map[] && e.pending == map[];
  }

  /** Where the engine stands after n decisions have arrived. */
  ghost predicate Tracked(env: EventPath.Env, legs: seq<Leg>, n: nat, e: EventPath.Engine) {
    n <= |legs| && CoreAt(env, legs, n, CoreOf(e), e.wakes) && Timed(env, legs, n, e.wakes, e.lastAt)
  }

  /** The instants at which something can still happen after n arrivals. */
  ghost predicate Expected(env: EventPath.Env, legs: seq<Leg>, n: nat, w: int)
    requires n <= |legs|
  {
    (exists i :: n <= i < |legs| && legs[i].executionAt == w) || (0 < n && w == DueAt(env, legs[n - 1]))
  }

  /** Decisions that have arrived lie behind, the others are scheduled ahead, and nothing else but the last settlement is. */
  ghost predicate Timed(env: EventPath.Env, legs: seq<Leg>, n: nat, wakes: set<int>, lastAt: Option<int>) {
    && n <= |legs|
    && (forall i :: 0 <= i < n ==> lastAt.Some? && legs[i].executionAt <= lastAt.value)
    && (forall i :: n <= i < |legs| ==> legs[i].executionAt in wakes)
    && (forall w :: w in wakes ==> (lastAt.Some? ==> lastAt.value < w) && Expected(env, legs, n, w))
  }

  lemma ArrivesAt(legs: seq<Leg>, at: int, k: int)
    requires Sequential(legs)
    ensures k in EventPath.Arrivals(OpportunitiesOf(legs), at) <==>
              exists i :: 0 <= i < |legs| && legs[i].identity == k && legs[i].executionAt == at
  {
  }

  lemma ArrivalsNone(legs: seq<Leg>, at: int)
    requires Sequential(legs) && forall i :: 0 <= i < |legs| ==> legs[i].executionAt != at
    ensures forall k :: k !in EventPath.Arrivals(OpportunitiesOf(legs), at)
  {
    hide EventPath.Arrivals;
    hide OpportunitiesOf;
    hide Sequential;
    forall k
      ensures k !in EventPath.Arrivals(OpportunitiesOf(legs), at)
    {
      ArrivesAt(legs, at, k);
    }
  }

  lemma ArrivalsOne(legs: seq<Leg>, n: nat, at: int)
    requires Sequential(legs) && n < |legs| && legs[n].executionAt == at
    ensures EventPath.Arrivals(OpportunitiesOf(legs), at) == map[legs[n].identity := OpportunityOf(legs[n])]
  {
    var arrivals := EventPath.Arrivals(OpportunitiesOf(legs), at);
    forall i | 0 <= i < |legs| && legs[i].executionAt == at
      ensures i == n
    {
      if i < n { SettledBefore(legs, i, n); } else if n < i { SettledBefore(legs, n, i); }
    }
    assert legs[n].identity in arrivals && arrivals[legs[n].identity] == OpportunityOf(legs[n]);
    hide EventPath.Arrivals;
    hide OpportunitiesOf;
    hide Sequential;
    forall k
      ensures k in arrivals <==> k == legs[n].identity
    {
      ArrivesAt(legs, at, k);
    }
  }

  /** The next wake is the next execution, or the last settlement before it. */
  lemma NextWake(env: EventPath.Env, legs: seq<Leg>, n: nat, wakes: set<int>, lastAt: Option<int>, at: int)
    requires Sequential(legs) && Lagged(env, legs) && Timed(env, legs, n, wakes, lastAt) && EventPath.IsLeast(wakes, at)
    ensures 0 < n ==> DueAt(env, legs[n - 1]) <= at
    ensures (n < |legs| && at == legs[n].executionAt) || forall i :: 0 <= i < |legs| ==> legs[i].executionAt != at
  {
    hide DueAt;
    assert Expected(env, legs, n, at);
    forall i | n < i < |legs|
      ensures at < legs[i].executionAt
    {
      SettledBefore(legs, n, i);
      assert legs[n].executionAt in wakes;
    }
    if exists i :: n <= i < |legs| && legs[i].executionAt == at {
      assert n < |legs| && legs[n].executionAt == at;
      if 0 < n { assert DueAt(env, legs[n - 1]) <= legs[n].executionAt; }
    }
  }

  lemma TimedQuiet(env: EventPath.Env, legs: seq<Leg>, n: nat, wakes: set<int>, lastAt: Option<int>, at: int)
    requires Timed(env, legs, n, wakes, lastAt) && EventPath.IsLeast(wakes, at)
    requires forall i :: 0 <= i < |legs| ==> legs[i].executionAt != at
    ensures Timed(env, legs, n, wakes - {at}, Some(at))
  {
    hide Expected;
  }

  lemma TimedArrival(env: EventPath.Env, legs: seq<Leg>, n: nat, wakes: set<int>, lastAt: Option<int>, at: int,
                     more: set<int>)
    requires env.Valid() && Sequential(legs) && Lagged(env, legs) && Timed(env, legs, n, wakes, lastAt)
    requires EventPath.IsLeast(wakes, at) && n < |legs| && legs[n].executionAt == at
    requires more == wakes - {at} || more == wakes - {at} + {DueAt(env, legs[n])}
    ensures Timed(env, legs, n + 1, more, Some(at))
  {
    forall i | n < i < |legs|
      ensures at < legs[i].executionAt
    {
      SettledBefore(legs, n, i);
    }
    assert at < DueAt(env, legs[n]);
    hide DueAt;
    forall w | w in more
      ensures at < w && Expected(env, legs, n + 1, w)
    {
      if w in wakes {
        assert Expected(env, legs, n, w) && at <= w;
        if 0 < n { assert DueAt(env, legs[n - 1]) <= at; }
      }
    }
  }

  /** Settlement and expiry at any wake leave nothing open and nothing waiting. */
  lemma WakeClears(env: EventPath.Env, legs: seq<Leg>, n: nat, e: EventPath.Engine, at: int)
    requires Sequential(legs) && Lagged(env, legs) && env.Valid() && Tracked(env, legs, n, e) && EventPath.IsLeast(e.wakes, at)
    ensures var r := EventPath.AfterExpiry(EventPath.AfterSettlement(env, EventPath.Wake(e, at), at), at);
            Idle(After(env.policy, legs[..n]), CoreOf(r)) && r.wakes == e.wakes - {at} && r.lastAt == Some(at)
  {
    hide After;
    hide Turn;
    hide Ask;
    hide EventPath.AfterSettlement;
    hide EventPath.AfterExpiry;
    hide Sequential;
    hide Lagged;
    hide Timed;
    var w := EventPath.Wake(e, at);
    assert CoreOf(w) == CoreOf(e);
    NextWake(env, legs, n, e.wakes, e.lastAt, at);
    if n == 0 {
      assert legs[..0] == [];
      SettleIdle(env, w, at);
      ExpireNothing(w, at);
    } else {
      AfterNext(env.policy, legs, n - 1);
      assert legs[n - 1].kickoff <= DueAt(env, legs[n - 1]);
      hide DueAt;
      TurnClears(env, After(env.policy, legs[..n - 1]), legs[n - 1], w, at);
    }
  }

  lemma TurnClears(env: EventPath.Env, s: Purse, leg: Leg, e: EventPath.Engine, at: int)
    requires TurnAt(env, s, leg, CoreOf(e), e.wakes + {at}) && leg.kickoff <= at && DueAt(env, leg) <= at
    ensures var r := EventPath.AfterExpiry(EventPath.AfterSettlement(env, e, at), at);
            Idle(Turn(env.policy, s, leg), CoreOf(r)) && r.wakes == e.wakes && r.lastAt == e.lastAt
  {
    hide Turn;
    hide Ask;
    hide DueAt;
    hide EventPath.AfterSettlement;
    hide EventPath.AfterExpiry;
    var t := Turn(env.policy, s, leg);
    if Idle(t, CoreOf(e)) {
      SettleIdle(env, e, at);
      ExpireNothing(e, at);
    } else if Held(t, leg, CoreOf(e)) {
      SettleIdle(env, e, at);
      ExpireHeld(t, leg, e, at);
    } else {
      SettleEngaged(env, s, leg, DueAt(env, leg), e, at);
      ExpireNothing(EventPath.AfterSettlement(env, e, at), at);
    }
  }

  /** A wake at which nothing arrives, once settlement and expiry have left nothing waiting. */
  lemma QuietStep(env: EventPath.Env, e: EventPath.Engine, at: int, arrivals: EventPath.Book, s: EventPath.Engine)
    requires s == EventPath.AfterExpiry(EventPath.AfterSettlement(env, EventPath.Wake(e, at), at), at)
    requires (forall k :: k !in s.pending) && forall k :: k !in arrivals
    ensures EventPath.Step(env, e, at, arrivals) == s
  {
    hide EventPath.AfterSettlement;
    hide EventPath.AfterExpiry;
    hide EventPath.AfterSkips;
    hide EventPath.AfterPlacement;
    hide EventPath.AfterFlush;
    SkipNothing(s, at, arrivals);
    PlaceNothing(env, s, at, arrivals);
    FlushNothing(s, at);
  }

  /** A wake at which one bet arrives is that bet's turn. */
  lemma BetStep(env: EventPath.Env, e: EventPath.Engine, at: int, o: EventPath.Wager, arrivals: EventPath.Book,
                s: EventPath.Engine)
    requires s == EventPath.AfterExpiry(EventPath.AfterSettlement(env, EventPath.Wake(e, at), at), at)
    requires arrivals == map[o.identity := o] && forall k :: k !in s.pending
    requires var r := EventPath.PlaceOne(env, s, at, o); r.termination == Running || forall k :: k !in r.pending
    ensures EventPath.Step(env, e, at, arrivals) == EventPath.PlaceOne(env, s, at, o)
  {
    hide EventPath.AfterSettlement;
    hide EventPath.AfterExpiry;
    hide EventPath.AfterSkips;
    hide EventPath.AfterPlacement;
    hide EventPath.AfterFlush;
    hide EventPath.PlaceOne;
    hide EventPath.Wake;
    SkipNothing(s, at, arrivals);
    PlaceArrival(env, s, at, o, arrivals);
    FlushNothing(EventPath.PlaceOne(env, s, at, o), at);
  }

  /** A wake at which one NO_BET arrives only gives it its status. */
  lemma SkipStep(env: EventPath.Env, e: EventPath.Engine, at: int, o: EventPath.Opportunity,
                 arrivals: EventPath.Book, s: EventPath.Engine)
    requires s == EventPath.AfterExpiry(EventPath.AfterSettlement(env, EventPath.Wake(e, at), at), at)
    requires o.action.Skip? && arrivals == map[o.identity := o] && forall k :: k !in s.pending
    ensures EventPath.Step(env, e, at, arrivals) == EventPath.Drop(s, EventPath.NoBetSeen, EventPath.NotBet, at, o.identity)
  {
    hide EventPath.AfterSettlement;
    hide EventPath.AfterExpiry;
    hide EventPath.AfterSkips;
    hide EventPath.AfterPlacement;
    hide EventPath.AfterFlush;
    hide EventPath.Wake;
    var r := EventPath.Drop(s, EventPath.NoBetSeen, EventPath.NotBet, at, o.identity);
    SkipOne(s, at, o, arrivals);
    DropCore(s, EventPath.NoBetSeen, EventPath.NotBet, at, o.identity);
    assert CoreOf(r).pending == CoreOf(s).pending;
    hide EventPath.Drop;
    PlaceNothing(env, r, at, arrivals);
    FlushNothing(r, at);
  }

  /** An engine that holds the purse may have held it for any number of wakes. */
  lemma ClearCore(env: EventPath.Env, legs: seq<Leg>, n: nat, m: Core, wakes: set<int>)
    requires n <= |legs| && Idle(After(env.policy, legs[..n]), m)
    ensures CoreAt(env, legs, n, m, wakes)
  {
    hide Idle;
    hide Turn;
    hide Held;
    hide Engaged;
    if n == 0 { assert legs[..0] == []; } else { AfterNext(env.policy, legs, n - 1); }
    hide After;
  }

  lemma QuietTracked(env: EventPath.Env, legs: seq<Leg>, n: nat, e: EventPath.Engine, at: int)
    requires Sequential(legs) && Lagged(env, legs) && env.Valid()
    requires Tracked(env, legs, n, e) && EventPath.IsLeast(e.wakes, at) && (n < |legs| ==> legs[n].executionAt != at)
    ensures Tracked(env, legs, n, EventPath.Step(env, e, at, EventPath.Arrivals(OpportunitiesOf(legs), at)))
  {
    hide After;
    hide Idle;
    hide CoreAt;
    hide Timed;
    hide DueAt;
    hide Sequential;
    hide Lagged;
    hide EventPath.AfterSettlement;
    hide EventPath.AfterExpiry;
    hide EventPath.Wake;
    hide EventPath.Step;
    hide EventPath.Arrivals;
    hide OpportunitiesOf;
    WakeClears(env, legs, n, e, at);
    NextWake(env, legs, n, e.wakes, e.lastAt, at);
    TimedQuiet(env, legs, n, e.wakes, e.lastAt, at);
    ArrivalsNone(legs, at);
    var s := EventPath.AfterExpiry(EventPath.AfterSettlement(env, EventPath.Wake(e, at), at), at);
    NonePending(After(env.policy, legs[..n]), s);
    QuietStep(env, e, at, EventPath.Arrivals(OpportunitiesOf(legs), at), s);
    ClearCore(env, legs, n, CoreOf(s), s.wakes);
  }

  lemma NonePending(s: Purse, e: EventPath.Engine)
    requires Idle(s, CoreOf(e))
    ensures forall k :: k !in e.pending
  {
  }

  /** The turn of a decision, bet or not, at the wake at which it arrives. */
  lemma ArrivalTurn(env: EventPath.Env, s: Purse, leg: Leg, e: EventPath.Engine, at: int, arrivals: EventPath.Book,
                    c: EventPath.Engine)
    requires env.Valid() && Sane(env.policy, s) && leg.WellPriced() && at < leg.kickoff
    requires arrivals == map[leg.identity := OpportunityOf(leg)]
    requires c == EventPath.AfterExpiry(EventPath.AfterSettlement(env, EventPath.Wake(e, at), at), at) && Idle(s, CoreOf(c))
    ensures var r := EventPath.Step(env, e, at, arrivals);
            && TurnAt(env, s, leg, CoreOf(r), r.wakes)
            && (r.wakes == c.wakes || r.wakes == c.wakes + {DueAt(env, leg)}) && r.lastAt == c.lastAt
  {
    hide Ask;
    hide EventPath.AfterSettlement;
    hide EventPath.AfterExpiry;
    hide EventPath.Step;
    hide EventPath.PlaceOne;
    hide EventPath.Drop;
    if leg.selected.Some? {
      PlaceLeg(env, s, leg, c, at);
      BetStep(env, e, at, OpportunityOf(leg), arrivals, c);
    } else {
      SkipStep(env, e, at, OpportunityOf(leg), arrivals, c);
      DropCore(c, EventPath.NoBetSeen, EventPath.NotBet, at, leg.identity);
    }
  }

  lemma ArrivalTracked(env: EventPath.Env, legs: seq<Leg>, n: nat, e: EventPath.Engine, at: int)
    requires Sequential(legs) && Lagged(env, legs) && env.Valid()
    requires Tracked(env, legs, n, e) && EventPath.IsLeast(e.wakes, at) && n < |legs| && legs[n].executionAt == at
    ensures Tracked(env, legs, n + 1, EventPath.Step(env, e, at, EventPath.Arrivals(OpportunitiesOf(legs), at)))
  {
    var s, leg, arrivals := After(env.policy, legs[..n]), legs[n], EventPath.Arrivals(OpportunitiesOf(legs), at);
    var c := EventPath.AfterExpiry(EventPath.AfterSettlement(env, EventPath.Wake(e, at), at), at);
    WakeClears(env, legs, n, e, at);
    ArrivalsOne(legs, n, at);
    AfterSane(env.policy, legs[..n]);
    assert leg.WellPriced() && at < leg.kickoff;
    hide After;
    hide Turn;
    hide TurnAt;
    hide Idle;
    hide Timed;
    hide DueAt;
    hide Sequential;
    hide Lagged;
    hide OpportunitiesOf;
    hide OpportunityOf;
    hide EventPath.AfterSettlement;
    hide EventPath.AfterExpiry;
    hide EventPath.Step;
    hide EventPath.Arrivals;
    ArrivalTurn(env, s, leg, e, at, arrivals, c);
    var r := EventPath.Step(env, e, at, arrivals);
    TimedArrival(env, legs, n, e.wakes, e.lastAt, at, r.wakes);
    assert legs[..n + 1 - 1] == legs[..n];
  }

  lemma StartTimed(env: EventPath.Env, legs: seq<Leg>)
    requires Sequential(legs)
    ensures Timed(env, legs, 0, EventPath.Start(env, OpportunitiesOf(legs)).wakes, None)
  {
    hide Sequential;
    hide DueAt;
    hide OpportunitiesOf;
    hide Policy.InitialState;
    var opps := OpportunitiesOf(legs);
    var wakes := EventPath.Start(env, opps).wakes;
    forall i | 0 <= i < |legs|
      ensures legs[i].executionAt in wakes
    {
      OpportunityAt(legs, i);
      assert opps[legs[i].identity].executionAt in wakes;
    }
    forall w | w in wakes
      ensures Expected(env, legs, 0, w)
    {
      var k :| k in opps && opps[k].executionAt == w;
      var i := OpportunityFrom(legs, k);
    }
  }

  lemma OpportunityAt(legs: seq<Leg>, i: nat)
    requires Sequential(legs) && i < |legs|
    ensures var opps := OpportunitiesOf(legs);
            legs[i].identity in opps && opps[legs[i].identity].executionAt == legs[i].executionAt
  {
  }

  lemma OpportunityFrom(legs: seq<Leg>, k: int) returns (i: nat)
    requires Sequential(legs) && k in OpportunitiesOf(legs)
    ensures i < |legs| && legs[i].executionAt == OpportunitiesOf(legs)[k].executionAt
  {
    i :| 0 <= i < |legs| && legs[i].identity == k;
  }

  lemma StartTracked(env: EventPath.Env, legs: seq<Leg>)
    requires Sequential(legs) && env.Valid()
    ensures Tracked(env, legs, 0, EventPath.Start(env, OpportunitiesOf(legs)))
  {
    StartTimed(env, legs);
    hide Timed;
    hide OpportunitiesOf;
    hide Sequential;
  }

  /** At every moment of the path some number of decisions has arrived. */
  lemma {:induction false} PlayTracked(env: EventPath.Env, legs: seq<Leg>, k: nat) returns (n: nat)
    requires Sequential(legs) && Lagged(env, legs) && env.Valid()
    ensures Tracked(env, legs, n, EventPath.Play(env, OpportunitiesOf(legs), k))
  {
    hide Sequential;
    hide Lagged;
    hide Tracked;
    hide OpportunitiesOf;
    hide EventPath.Start;
    hide EventPath.Step;
    if k == 0 {
      n := 0;
      StartTracked(env, legs);
    } else {
      n := PlayTracked(env, legs, k - 1);
      var e := EventPath.Play(env, OpportunitiesOf(legs), k - 1);
      if EventPath.Awake(e) {
        var at := EventPath.Least(e.wakes);
        assert n <= |legs| by { TrackedSize(env, legs, n, e); }
        if n < |legs| && legs[n].executionAt == at {
          ArrivalTracked(env, legs, n, e, at);
          n := n + 1;
        } else {
          QuietTracked(env, legs, n, e, at);
        }
      }
    }
  }

  lemma TrackedSize(env: EventPath.Env, legs: seq<Leg>, n: nat, e: EventPath.Engine)
    requires Tracked(env, legs, n, e)
    ensures n <= |legs|
  {
  }

  lemma SomeWakeAhead(env: EventPath.Env, legs: seq<Leg>, n: nat, wakes: set<int>, lastAt: Option<int>)
    requires Timed(env, legs, n, wakes, lastAt)
    ensures n < |legs| ==> exists w :: w in wakes
  {
    if n < |legs| {
      assert legs[n].executionAt in wakes;
    }
  }

  /** When no wake is left every decision has arrived and every bet has settled. */
  lemma SilentFree(env: EventPath.Env, legs: seq<Leg>, n: nat, e: EventPath.Engine)
    requires Tracked(env, legs, n, e) && !EventPath.Awake(e)
    ensures Free(After(env.policy, legs), CoreOf(e))
  {
    SomeWakeAhead(env, legs, n, e.wakes, e.lastAt);
    assert n == |legs|;
    assert legs[..n] == legs;
    if n == 0 { assert legs == []; } else { AfterNext(env.policy, legs, n - 1); }
    hide After;
    hide Turn;
    hide Ask;
    hide DueAt;
    hide Timed;
  }

  lemma FinishCore(e: EventPath.Engine)
    ensures CoreOf(EventPath.Finish(e)) == CoreOf(e)
  {
    EventCompletion.LateStatuses(e);
    hide EventPath.LateExpiry;
  }

  lemma OpportunitiesKeyed(legs: seq<Leg>)
    requires Sequential(legs)
    ensures EventInvariants.Keyed(OpportunitiesOf(legs))
  {
  }

  /** The event-time path of a sequential stream is the plain fold over its decisions. */
  lemma EventAgrees(env: EventPath.Env, legs: seq<Leg>)
    requires Sequential(legs) && Lagged(env, legs) && env.Valid()
    ensures Free(After(env.policy, legs), CoreOf(EventPath.Path(env, OpportunitiesOf(legs))))
  {
    hide Tracked;
    hide Free;
    hide After;
    hide EventPath.Play;
    hide EventPath.Finish;
    var opps := OpportunitiesOf(legs);
    OpportunitiesKeyed(legs);
    var bound := EventPath.Bound(opps);
    EventCompletion.FallsSilent(env, opps, bound);
    var n := PlayTracked(env, legs, bound);
    SilentFree(env, legs, n, EventPath.Play(env, opps, bound));
    FinishCore(EventPath.Play(env, opps, bound));
  }

  // ---- the three together ----------------------------------------------------------------

  /**
    The event-time path and the study path of every sequential stream end
    alike. The replay ends with the same money and memory when every request
    is covered, and with the same verdict exactly then or when bets have ended.
   */
  lemma EnginesAgree(env: EventPath.Env, t: Study.ValidTerms, results: Study.Results, legs: seq<Leg>)
    requires env.Valid() && t.policy == env.policy && t.haircut == 0.0 && 1 <= t.maxLanes
    requires Sequential(legs) && Lagged(env, legs) && Canonical(results, legs)
    ensures var event := EventPath.Path(env, OpportunitiesOf(legs));
            var study := Study.Complete(t, CandidatesOf(legs), results);
            var replay := Replay.ReplayAll(env.policy, INITIAL, BatchesOf(legs));
            && event.equity == study.equity && event.state == study.state && event.reserved == study.reserved == 0.0
            && (event.termination == Running <==> study.active)
            && (Affordable(env.policy, legs) ==> replay.bankroll == study.equity && replay.state == study.state)
            && (replay.terminated == !study.active <==> Affordable(env.policy, legs) || !study.active)
  {
    EventAgrees(env, legs);
    StudyAgrees(t, legs, results);
    ReplayVerdict(env.policy, legs);
    hide After;
    hide Affordable;
    hide EventPath.Path;
    hide Study.Complete;
    hide Replay.ReplayAll;
  }

  /** A first bet that the capital cannot fund, and ten hours later one that wins; the study settles two hours after kickoff. */
  function ShortStream(): seq<Leg> {
    [Leg(0, 0, 60_000_000, 7_260_000_000, 1.05, 0.5, Some(Home), Home),
     Leg(1, 36_000_000_000, 36_060_000_000, 43_260_000_000, 2.0, 0.5, Some(Home), Home)]
  }

  /** On it the event-time path and the study path win 10, and the replay has stopped at 100. */
  lemma ReplayStopsShort(t: Study.ValidTerms, results: Study.Results)
    requires t.policy == FixedTarget(10.0) && t.haircut == 0.0 && 1 <= t.maxLanes && Canonical(results, ShortStream())
    ensures var env, legs := EventPath.Env(t.policy, 1, 120), ShortStream();
            && Sequential(legs) && Lagged(env, legs)
            && EventPath.Path(env, OpportunitiesOf(legs)).equity == 110.0
            && Study.Complete(t, CandidatesOf(legs), results).equity == 110.0
            && var replay := Replay.ReplayAll(t.policy, INITIAL, BatchesOf(legs));
               replay.bankroll == 100.0 && replay.terminated
  {
    var env, legs := EventPath.Env(t.policy, 1, 120), ShortStream();
    EnginesAgree(env, t, results, legs);
    EventAgrees(env, legs);
    ReplayAgrees(t.policy, legs);
    ShortFold(t.policy);
    hide EventPath.Path;
    hide Study.Complete;
    hide Replay.ReplayAll;
    hide After;
    hide Reach;
  }

  lemma ShortFold(p: Policy)
    requires p == FixedTarget(10.0)
    ensures var legs := ShortStream();
            After(p, legs).money == 110.0 && Reach(p, legs) == 0 && After(p, legs[..0]).money == 100.0
  {
    var legs := ShortStream();
    var s := Purse(100.0, Stateless, true);
    assert legs[..0] == [] && legs[..1][..0] == [] && legs[..2] == legs;
    assert After(p, legs[..0]) == s;
    assert Ask(p, s, legs[0]).requested == 10.0 / (1.05 - 1.0) == 200.0;
    AfterNext(p, legs, 0);
    assert After(p, legs[..1]) == s;
    assert Ask(p, s, legs[1]).requested == 10.0;
    AfterNext(p, legs, 1);
    assert Reach(p, legs[..0]) == 0;
    assert Reach(p, legs[..1]) == 0;
  }
}

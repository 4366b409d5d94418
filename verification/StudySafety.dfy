/**
  What the ledger of every study path bears out: cash, lanes, counts, the order
  in which candidates are considered, and how each placed candidate ends.
 */
module StudySafety {
  import opened Common
  import opened Policies
  import opened Decisions
  import opened Ordering
  import opened Sums
  import opened Study

  // ---- money ---------------------------------------------------------------------------

  function Stakes(open: map<int, Ticket>): map<int, real> {
    map k | k in open :: open[k].request.applied
  }

  /** The profits that a ledger records. */
  function Profits(ledger: seq<Entry>): real {
    if ledger == [] then 0.0
    else
      var last := ledger[|ledger| - 1];
      Profits(ledger[..|ledger| - 1]) + if last.Settlement? then last.pnl else 0.0
  }

  /** How many settlements of one fate a ledger records. */
  function Settled(ledger: seq<Entry>, fate: Fate): nat {
    if ledger == [] then 0
    else
      var last := ledger[|ledger| - 1];
      Settled(ledger[..|ledger| - 1], fate) + if last.Settlement? && last.fate == fate then 1 else 0
  }

  function Placed(ledger: seq<Entry>): nat {
    if ledger == [] then 0 else Placed(ledger[..|ledger| - 1]) + if ledger[|ledger| - 1].Placement? then 1 else 0
  }

  ghost predicate Covered(p: Policy, k: Ticket) {
    0.0 < k.request.applied <= k.request.requested
    && (p.IsRecovery() ==> k.request.target.Some? && 0.0 < k.request.target.value)
  }

  /** The part of a path that says what it owns and owes. */
  datatype Money = Money(equity: real, reserved: real, state: PolicyState, open: map<int, Ticket>, active: bool, ruin: bool)

  function MoneyOf(s: Path): Money {
    Money(s.equity, s.reserved, s.state, s.open, s.active, s.ruin)
  }

  /** Reserves are the open stakes and never exceed equity; lanes are respected. */
  ghost predicate Solvent(t: ValidTerms, m: Money) {
    && m.reserved == Total(Stakes(m.open)) && 0.0 <= m.reserved <= m.equity
    && (forall k :: k in m.open ==> Covered(t.policy, m.open[k]))
    && (|m.open| <= t.maxLanes || |m.open| == 0)
    && t.policy.Fits(m.state) && (m.active ==> 0.0 < m.equity) && (m.active <==> !m.ruin)
  }

  /** Equity is the initial bankroll plus the recorded profits; every placement is counted and settled at most once. */
  ghost predicate Tallied(s: Path) {
    && s.equity == INITIAL + Profits(s.ledger)
    && s.wins == Settled(s.ledger, Won) && s.losses == Settled(s.ledger, Lost) && s.voids == Settled(s.ledger, Void)
    && s.actions == Placed(s.ledger) && s.actions == s.wins + s.losses + s.voids + |s.open|
  }

  lemma Appended(ledger: seq<Entry>, e: Entry)
    ensures Profits(ledger + [e]) == Profits(ledger) + if e.Settlement? then e.pnl else 0.0
    ensures forall f :: Settled(ledger + [e], f) == Settled(ledger, f) + if e.Settlement? && e.fate == f then 1 else 0
    ensures Placed(ledger + [e]) == Placed(ledger) + if e.Placement? then 1 else 0
  {
    assert (ledger + [e])[..|ledger|] == ledger;
  }

  lemma StakesWithout(open: map<int, Ticket>, id: int)
    requires id in open
    ensures Total(Stakes(open)) == open[id].request.applied + Total(Stakes(open - {id}))
    ensures |open - {id}| == |open| - 1
  {
    hide Total;
    TotalSplit(Stakes(open), id);
    assert Stakes(open) - {id} == Stakes(open - {id});
    assert (open - {id}).Keys == open.Keys - {id};
  }

  lemma StakesUpdate(open: map<int, Ticket>, id: int, k: Ticket)
    ensures Stakes(open[id := k]) == Stakes(open)[id := k.request.applied]
  {
  }

  lemma OpenMore(open: map<int, Ticket>, id: int, k: Ticket)
    requires id !in open
    ensures |open[id := k]| == |open| + 1
  {
    assert open[id := k].Keys == open.Keys + {id};
  }

  lemma StakesWith(open: map<int, Ticket>, id: int, k: Ticket)
    requires id !in open
    ensures Total(Stakes(open[id := k])) == Total(Stakes(open)) + k.request.applied
    ensures |open[id := k]| == |open| + 1
  {
    hide Total;
    StakesUpdate(open, id, k);
    OpenMore(open, id, k);
    assert id !in Stakes(open);
    hide Stakes;
    TotalAdd(Stakes(open), id, k.request.applied);
  }

  lemma StakesNonNegative(t: ValidTerms, open: map<int, Ticket>)
    requires forall k :: k in open ==> Covered(t.policy, open[k])
    ensures 0.0 <= Total(Stakes(open))
  {
    TotalNonNegative(Stakes(open));
  }

  /** What a fate makes of a stake. */
  predicate Pays(pnl: real, fate: Fate, applied: real, price: real) {
    match fate
    case Void => pnl == 0.0
    case Won => pnl == applied * (price - 1.0)
    case Lost => pnl == -applied
  }

  lemma TicketPays(k: Ticket)
    requires 0.0 < k.request.applied
    ensures Pays(TicketPnl(k), k.fate, k.request.applied, k.price) && -k.request.applied <= TicketPnl(k)
  {
    ProductPositive(k.request.applied, k.price - 1.0);
  }

  /** One settlement, in the figures of the path and its new entry. */
  lemma SettleFigures(t: ValidTerms, s: Path, id: int)
    requires id in s.open
    ensures var k, r := s.open[id], SettleOne(t, s, id);
            var fall := r.equity <= 0.0 && !s.ruin;
            && r.equity == s.equity + TicketPnl(k) && r.reserved == s.reserved - k.request.applied && r.open == s.open - {id}
            && r.state == (if k.fate == Void then s.state else t.policy.Settle(s.state, k.request, k.fate == Won).0)
            && (r.active <==> s.active && !fall) && (r.ruin <==> s.ruin || fall)
            && r.wins == s.wins + (if k.fate == Won then 1 else 0)
            && r.losses == s.losses + (if k.fate == Lost then 1 else 0)
            && r.voids == s.voids + (if k.fate == Void then 1 else 0) && r.actions == s.actions
            && |r.ledger| == |s.ledger| + 1 && r.ledger[..|s.ledger|] == s.ledger
            && var e := r.ledger[|s.ledger|];
               && e.Settlement? && e.identity == id && e.at == k.candidate.settlementAt && e.fate == k.fate
               && e.pnl == TicketPnl(k) && e.equity == r.equity && e.reserved == r.reserved
               && e.stateBefore == s.state && e.stateAfter == r.state
  {
    hide Policy.Settle;
    hide TicketPnl;
    hide Fall;
    hide Max;
  }

  lemma SettleSolvent(t: ValidTerms, s: Path, id: int)
    requires Solvent(t, MoneyOf(s)) && id in s.open
    ensures Solvent(t, MoneyOf(SettleOne(t, s, id)))
  {
    var k := s.open[id];
    SettleFigures(t, s, id);
    TicketPays(k);
    StakesWithout(s.open, id);
    StakesNonNegative(t, s.open - {id});
    SettleFits(t.policy, s.state, k.request, k.fate == Won);
    hide SettleOne;
    hide TicketPnl;
    hide Policy.Settle;
    hide Total;
    hide Stakes;
  }

  lemma SettleCounted(t: ValidTerms, s: Path, id: int)
    requires Tallied(s) && id in s.open
    ensures Tallied(SettleOne(t, s, id))
  {
    var r := SettleOne(t, s, id);
    SettleFigures(t, s, id);
    StakesWithout(s.open, id);
    assert r.ledger == s.ledger + [r.ledger[|s.ledger|]];
    Appended(s.ledger, r.ledger[|s.ledger|]);
    hide SettleOne;
    hide TicketPnl;
    hide Profits;
    hide Settled;
    hide Placed;
  }

  // ---- the first kept property: a safe path ----------------------------------------------

  ghost predicate Safe(t: ValidTerms, s: Path) {
    Solvent(t, MoneyOf(s)) && Tallied(s)
  }

  lemma {:induction false} SettleEachSafe(t: ValidTerms, s: Path, ids: seq<int>)
    requires Safe(t, s) && Listed(ids, s.open)
    ensures Safe(t, SettleEach(t, s, ids))
  {
    hide Solvent;
    hide Tallied;
    hide SettleOne;
    if ids != [] {
      var last := |ids| - 1;
      assert ids[last] !in ids[..last];
      SettleEachSafe(t, s, ids[..last]);
      SettleSolvent(t, SettleEach(t, s, ids[..last]), ids[last]);
      SettleCounted(t, SettleEach(t, s, ids[..last]), ids[last]);
    }
  }

  lemma SettleDueSafe(t: ValidTerms, s: Path, until: Option<int>)
    requires Safe(t, s)
    ensures Safe(t, SettleDue(t, s, until))
  {
    hide Safe;
    hide SettleEach;
    DueListed(s, until);
    SettleEachSafe(t, s, Order(DueRanks(s, until)));
  }

  lemma OpenSafe(t: ValidTerms, s: Path, c: Candidate, price: Price, request: StakeRequest, results: Results)
    requires Safe(t, s) && c.identity !in s.open && |s.open| < t.maxLanes && s.active
    requires Sound(t.policy, s.equity, request) && request.termination == Running && 0.0 < request.requested
    requires request.requested <= s.equity - s.reserved
    ensures Safe(t, Open(s, c, price, request, results))
  {
    var k := Ticket(c, request, price, results(c, s.actions));
    StakesWith(s.open, c.identity, k);
    Appended(s.ledger, Placement(c.identity, c.executionAt, price, request, s.equity, s.reserved, s.reserved + request.applied, s.state));
    hide Total;
    hide Stakes;
    hide Profits;
    hide Settled;
    hide Placed;
    hide Policy.Fits;
  }

  lemma NotedSafe(t: ValidTerms, s: Path, e: Entry)
    requires Safe(t, s) && e.NotPlaced?
    ensures Safe(t, s.(ledger := s.ledger + [e]))
    ensures forall reason :: Safe(t, s.(active := false, ruin := true, termination := reason, ledger := s.ledger + [e]))
  {
    Appended(s.ledger, e);
    hide Total;
    hide Stakes;
    hide Profits;
    hide Settled;
    hide Placed;
    hide Policy.Fits;
  }

  lemma DecideSafe(t: ValidTerms, s: Path, c: Candidate, price: Price, request: StakeRequest, results: Results)
    requires Safe(t, s) && c.identity !in s.open && |s.open| < t.maxLanes && s.active && Sound(t.policy, s.equity, request)
    ensures Safe(t, Decide(s, c, price, request, results))
  {
    hide Safe;
    hide Open;
    if request.termination == Running && 0.0 < request.requested && request.requested <= s.equity - s.reserved {
      OpenSafe(t, s, c, price, request, results);
    } else if request.termination != Running {
      NotedSafe(t, s, NotPlaced(c.identity, Ineligible, request.termination));
    } else {
      NotedSafe(t, s, NotPlaced(c.identity, Ineligible, Running));
      NotedSafe(t, s, NotPlaced(c.identity, InsufficientAvailableCash, Running));
    }
  }

  lemma AskedSafe(t: ValidTerms, s: Path, c: Candidate, price: Price, results: Results)
    requires Safe(t, s) && c.identity !in s.open && |s.open| < t.maxLanes && s.active
    ensures Safe(t, Decide(s, c, price, RequestFor(t, s, c, price), results))
  {
    hide Policy.Request;
    hide Decide;
    RequestSound(t.policy, price, c.probability.GetOr(0.0), s.equity, s.state);
    DecideSafe(t, s, c, price, RequestFor(t, s, c, price), results);
  }

  lemma ConsiderSafe(t: ValidTerms, s: Path, c: Candidate, results: Results)
    requires Safe(t, s) && c.identity !in s.open
    ensures Safe(t, Consider(t, s, c, results))
  {
    hide Safe;
    hide Decide;
    hide Quoted;
    hide RequestFor;
    NotedSafe(t, s, NotPlaced(c.identity, NoBetTaken, Running));
    NotedSafe(t, s, NotPlaced(c.identity, NoExecutionPrice, Running));
    NotedSafe(t, s, NotPlaced(c.identity, ExpiredCapacity, Running));
    if s.active && c.action.Some? && c.price.Some? && 1.0 < c.price.value && |s.open| < t.maxLanes {
      AskedSafe(t, s, c, Quoted(t, c.price.value), results);
    }
  }

  /** Candidates are known by their identity. */
  ghost predicate Keyed(book: Book) {
    forall k :: k in book ==> book[k].identity == k
  }

  /** Only candidates that were considered can be open. */
  lemma SettleDueOpen(t: ValidTerms, s: Path, until: Option<int>)
    ensures forall k :: k in SettleDue(t, s, until).open ==> k in s.open && SettleDue(t, s, until).open[k] == s.open[k]
    ensures forall k :: k in SettleDue(t, s, until).open ==> until.Some? && until.value < s.open[k].candidate.settlementAt
  {
    hide SettleEach;
    DueListed(s, until);
    var due := Order(DueRanks(s, until));
    assert SettleDue(t, s, until).open == s.open - (set k | k in due);
    forall k | k in SettleDue(t, s, until).open
      ensures k in s.open && SettleDue(t, s, until).open[k] == s.open[k] && until.Some? && until.value < s.open[k].candidate.settlementAt
    {
      assert k !in due;
      assert k !in DueRanks(s, until);
    }
  }

  lemma ConsiderOpen(t: ValidTerms, s: Path, c: Candidate, results: Results)
    ensures forall k :: k in Consider(t, s, c, results).open ==> k in s.open || k == c.identity
  {
    hide Quoted;
    hide Policy.Request;
  }

  lemma {:induction false} WalkOpen(t: ValidTerms, book: Book, results: Results, ids: seq<int>)
    requires Keyed(book) && forall i :: 0 <= i < |ids| ==> ids[i] in book
    ensures forall k :: k in Walk(t, book, results, ids).open ==> k in ids
  {
    hide Consider;
    hide SettleDue;
    if ids != [] {
      var last := |ids| - 1;
      var c := book[ids[last]];
      WalkOpen(t, book, results, ids[..last]);
      var s := Walk(t, book, results, ids[..last]);
      SettleDueOpen(t, s, Some(c.executionAt));
      var d := SettleDue(t, s, Some(c.executionAt));
      ConsiderOpen(t, d, c, results);
      assert Walk(t, book, results, ids) == Consider(t, d, c, results);
      forall k | k in Consider(t, d, c, results).open
        ensures k in ids
      {
        if k in d.open { assert k in s.open; } else { assert k == ids[last]; }
      }
    }
  }

  /** After any number of candidates cash, lanes and counts are in order. */
  lemma {:induction false} WalkSafe(t: ValidTerms, book: Book, results: Results, ids: seq<int>)
    requires Keyed(book) && Distinct(ids) && forall i :: 0 <= i < |ids| ==> ids[i] in book
    ensures Safe(t, Walk(t, book, results, ids))
  {
    hide Safe;
    hide Consider;
    hide SettleDue;
    if ids == [] {
      BeginSafe(t);
    } else {
      var last := |ids| - 1;
      var c := book[ids[last]];
      WalkSafe(t, book, results, ids[..last]);
      var s := Walk(t, book, results, ids[..last]);
      WalkOpen(t, book, results, ids[..last]);
      SettleDueSafe(t, s, Some(c.executionAt));
      SettleDueOpen(t, s, Some(c.executionAt));
      assert ids[last] !in ids[..last];
      ConsiderSafe(t, SettleDue(t, s, Some(c.executionAt)), c, results);
    }
  }

  lemma BeginSafe(t: ValidTerms)
    ensures Safe(t, Begin(t))
  {
    assert forall k :: k !in Stakes(Begin(t).open);
  }

  /** Every study path, at every candidate and at its end: cash, lanes, and a ledger that adds up. */
  lemma StudySafe(t: ValidTerms, book: Book, results: Results, n: nat)
    requires Keyed(book) && n <= |Order(Ranks(book))|
    ensures forall i :: 0 <= i < |Order(Ranks(book))| ==> Order(Ranks(book))[i] in book
    ensures var ids := Order(Ranks(book));
            forall s :: s == Walk(t, book, results, ids[..n]) || s == Complete(t, book, results) ==>
              && s.reserved == Total(Stakes(s.open)) && 0.0 <= s.reserved <= s.equity
              && (|s.open| <= t.maxLanes || |s.open| == 0)
              && s.equity == INITIAL + Profits(s.ledger)
              && s.wins == Settled(s.ledger, Won) && s.losses == Settled(s.ledger, Lost) && s.voids == Settled(s.ledger, Void)
              && s.actions == Placed(s.ledger) == s.wins + s.losses + s.voids + |s.open|
    ensures var s := Complete(t, book, results); (forall k :: k !in s.open) && s.reserved == 0.0 && s.actions == s.wins + s.losses + s.voids
  {
    RanksListed(book);
    var ids := Order(Ranks(book));
    hide Walk;
    hide SettleDue;
    WalkSafe(t, book, results, ids[..n]);
    WalkSafe(t, book, results, ids);
    SettleDueSafe(t, Walk(t, book, results, ids), None);
    SettleDueOpen(t, Walk(t, book, results, ids), None);
    NothingOpen(t, Complete(t, book, results));
    hide Total;
    hide Stakes;
    hide Profits;
    hide Settled;
    hide Placed;
  }

  lemma NoKeys(open: map<int, Ticket>)
    requires forall k :: k !in open
    ensures |open| == 0
  {
    var ranks := map k | k in open :: Rank(0.0, 0);
    OrderEmpty(ranks);
    assert ranks.Keys == open.Keys;
    assert |ranks| == |ranks.Keys| && |open| == |open.Keys|;
  }

  lemma NothingOpen(t: ValidTerms, s: Path)
    requires Safe(t, s) && forall k :: k !in s.open
    ensures |s.open| == 0 && s.reserved == 0.0
  {
    assert forall k :: k !in Stakes(s.open);
    NoKeys(s.open);
  }
}

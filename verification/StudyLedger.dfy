/**
  How every study path unfolds, read from its ledger alone: what each candidate
  is answered, in which order, when each placement is settled and how it ends.
 */
module StudyLedger {
  import opened Common
  import opened Policies
  import opened Decisions
  import opened Ordering
  import opened Sums
  import opened Study
  import opened StudySafety
  import opened Drawdowns

  // ---- the answer to one candidate -------------------------------------------------------

  /** What a candidate is answered, in the figures of the account just before its turn. */
  ghost predicate Answered(t: ValidTerms, c: Candidate, ordinal: nat, results: Results, before: Path, after: Path) {
    if !before.active then after == before
    else
      && |after.ledger| == |before.ledger| + 1 && after.ledger[..|before.ledger|] == before.ledger
      && after.equity == before.equity && after.state == before.state
      && var e := after.ledger[|before.ledger|];
         e.identity == c.identity &&
         if c.action.None? then TurnedAway(e, NoBetTaken, before, after)
         else if c.price.None? || c.price.value <= 1.0 then TurnedAway(e, NoExecutionPrice, before, after)
         else if |before.open| >= t.maxLanes then TurnedAway(e, ExpiredCapacity, before, after)
         else exists price: Price, q: StakeRequest :: AnsweredAt(t, c, price, q, ordinal, results, before, after, e)
  }

  /** The answer at the price after the haircut, to the request that the policy makes of the whole equity. */
  ghost predicate AnsweredAt(t: ValidTerms, c: Candidate, price: Price, q: StakeRequest, ordinal: nat, results: Results,
                             before: Path, after: Path, e: Entry)
    requires c.price.Some?
  {
    && price == 1.0 + (c.price.value - 1.0) * (1.0 - t.haircut)
    && q == t.policy.Request(price, if c.probability.Some? then c.probability.value else 0.0, before.equity, before.state)
    && if q.termination != Running then
         e.NotPlaced? && e.why == Ineligible && e.termination == q.termination
         && !after.active && after.ruin && after.termination == q.termination && after.open == before.open
       else if q.requested <= 0.0 then TurnedAway(e, Ineligible, before, after)
       else if q.requested > before.equity - before.reserved then TurnedAway(e, InsufficientAvailableCash, before, after)
       else
         && e == Placement(c.identity, c.executionAt, price, q, before.equity, before.reserved,
                           before.reserved + q.applied, before.state)
         && after.open == before.open[c.identity := Ticket(c, q, price, results(c, ordinal))]
         && after.active && !after.ruin
  }

  ghost predicate TurnedAway(e: Entry, why: Why, before: Path, after: Path) {
    e.NotPlaced? && e.why == why && e.termination == Running && after.open == before.open && after.active
  }

  lemma DecideAnswers(t: ValidTerms, s: Path, c: Candidate, price: Price, q: StakeRequest, results: Results)
    requires s.active && !s.ruin && c.price.Some? && price == 1.0 + (c.price.value - 1.0) * (1.0 - t.haircut)
    requires q == t.policy.Request(price, if c.probability.Some? then c.probability.value else 0.0, s.equity, s.state)
    ensures var r := Decide(s, c, price, q, results);
            && |r.ledger| == |s.ledger| + 1 && r.ledger[..|s.ledger|] == s.ledger && r.equity == s.equity && r.state == s.state
            && r.ledger[|s.ledger|].identity == c.identity
            && AnsweredAt(t, c, price, q, s.actions, results, s, r, r.ledger[|s.ledger|])
  {
    hide Policy.Request;
  }

  lemma ConsiderAnswers(t: ValidTerms, s: Path, c: Candidate, results: Results)
    requires s.active ==> !s.ruin
    ensures Answered(t, c, s.actions, results, s, Consider(t, s, c, results))
  {
    hide Policy.Request;
    hide AnsweredAt;
    hide Decide;
    if s.active && c.action.Some? && c.price.Some? && 1.0 < c.price.value && |s.open| < t.maxLanes {
      var price := Quoted(t, c.price.value);
      DecideAnswers(t, s, c, price, RequestFor(t, s, c, price), results);
    }
  }

  /**
    The turn of every candidate: everything due by its execution is settled first; the account then has the initial
    bankroll plus its recorded profits, less the stakes still open; and a request is refused for lack of cash exactly
    when it is larger than that.
   */
  lemma EveryTurn(t: ValidTerms, book: Book, results: Results, ids: seq<int>, i: nat)
    requires Keyed(book) && Distinct(ids) && i < |ids| && forall j :: 0 <= j < |ids| ==> ids[j] in book
    ensures var c := book[ids[i]];
            var walked := Walk(t, book, results, ids[..i]);
            var before := SettleDue(t, walked, Some(c.executionAt));
            && before.reserved == Total(Stakes(before.open)) && before.equity == INITIAL + Profits(before.ledger)
            && (forall k :: k in before.open <==> k in walked.open && c.executionAt < walked.open[k].candidate.settlementAt)
            && Answered(t, c, Placed(before.ledger), results, before, Walk(t, book, results, ids[..i + 1]))
  {
    hide Walk;
    hide SettleDue;
    hide Safe;
    hide Answered;
    hide Consider;
    hide Total;
    hide Stakes;
    hide Profits;
    hide Placed;
    var c := book[ids[i]];
    WalkSafe(t, book, results, ids[..i]);
    WalkNext(t, book, results, ids, i);
    var walked := Walk(t, book, results, ids[..i]);
    var before := SettleDue(t, walked, Some(c.executionAt));
    SettleDueSafe(t, walked, Some(c.executionAt));
    SettleDueKeeps(t, walked, Some(c.executionAt));
    SafeMeans(t, before);
    ConsiderAnswers(t, before, c, results);
  }

  lemma SafeMeans(t: ValidTerms, s: Path)
    requires Safe(t, s)
    ensures s.reserved == Total(Stakes(s.open)) && s.equity == INITIAL + Profits(s.ledger) && s.actions == Placed(s.ledger)
    ensures (s.active ==> !s.ruin) && 0.0 <= s.equity
    ensures forall k :: k in s.open ==> Covered(t.policy, s.open[k])
  {
    hide Total;
    hide Stakes;
    hide Profits;
    hide Settled;
    hide Placed;
    hide Policy.Fits;
  }

  lemma SettleDueKeeps(t: ValidTerms, s: Path, until: Option<int>)
    ensures forall k :: k in SettleDue(t, s, until).open <==>
                        k in s.open && until.Some? && until.value < s.open[k].candidate.settlementAt
  {
    hide SettleEach;
    DueListed(s, until);
    var due := Order(DueRanks(s, until));
    assert SettleDue(t, s, until).open == s.open - (set k | k in due);
    forall k | k in s.open
      ensures k in due <==> until.None? || s.open[k].candidate.settlementAt <= until.value
    {
      assert k in due <==> k in DueRanks(s, until);
    }
  }

  // ---- what a ledger tells ---------------------------------------------------------------

  /** Rows belong to the book and carry its dates. */
  ghost predicate Dated(book: Book, rows: seq<Entry>) {
    forall i :: 0 <= i < |rows| ==>
      && rows[i].identity in book
      && (rows[i].Settlement? ==> rows[i].at == book[rows[i].identity].settlementAt)
      && (rows[i].Placement? ==> rows[i].at == book[rows[i].identity].executionAt)
  }

  predicate Scored(c: Candidate) {
    c.price.Some? && c.probability.Some?
  }

  /** Earlier execution; then a known and larger product of probability and price; then kickoff; then identity. */
  predicate Preferred(a: Candidate, b: Candidate) {
    var tie := a.kickoff < b.kickoff || (a.kickoff == b.kickoff && a.identity < b.identity);
    a.executionAt < b.executionAt
    || (a.executionAt == b.executionAt &&
        if Scored(a) && Scored(b) then
          var x, y := a.probability.value * a.price.value, b.probability.value * b.price.value;
          x > y || (x == y && tie)
        else Scored(a) || (!Scored(b) && tie))
  }

  /** Candidates are answered in order of preference, each at most once. */
  ghost predicate BestFirst(book: Book, rows: seq<Entry>)
    requires Dated(book, rows)
  {
    forall i, j :: 0 <= i < j < |rows| && !rows[i].Settlement? && !rows[j].Settlement? ==>
      Preferred(book[rows[i].identity], book[rows[j].identity])
  }

  /** Nothing is settled before its time. */
  ghost predicate NotEarly(book: Book, rows: seq<Entry>)
    requires Dated(book, rows)
  {
    forall i, j :: 0 <= i < j < |rows| && rows[i].Settlement? && !rows[j].Settlement? ==>
      rows[i].at <= book[rows[j].identity].executionAt
  }

  /** A row that comes before the settlement of `id`. */
  predicate Precedes(book: Book, e: Entry, id: int)
    requires e.identity in book && id in book
  {
    var c, d := book[e.identity], book[id];
    if e.Settlement? then c.settlementAt < d.settlementAt || (c.settlementAt == d.settlementAt && e.identity < id)
    else c.executionAt < d.settlementAt
  }

  ghost predicate NotLateUntil(book: Book, rows: seq<Entry>, p: int, j: int)
    requires Dated(book, rows) && 0 <= p <= j <= |rows| && p < |rows|
  {
    forall i :: p < i < j ==> Precedes(book, rows[i], rows[p].identity)
  }

  /** Between a placement and its settlement stands only what lies before it in time, or has a smaller identity. */
  ghost predicate NotLate(book: Book, rows: seq<Entry>)
    requires Dated(book, rows)
  {
    forall p, j :: 0 <= p < j < |rows| && rows[p].Placement? && rows[j].Settlement? && rows[p].identity == rows[j].identity ==>
      NotLateUntil(book, rows, p, j)
  }

  ghost predicate StillInTime(book: Book, rows: seq<Entry>, open: map<int, Ticket>)
    requires Dated(book, rows)
  {
    forall p :: 0 <= p < |rows| && rows[p].Placement? && rows[p].identity in open ==> NotLateUntil(book, rows, p, |rows|)
  }

  /** Row `p` opens the ticket, and its result is the one of its place among all placements. */
  ghost predicate Opens(book: Book, results: Results, rows: seq<Entry>, p: int, k: Ticket) {
    && 0 <= p < |rows| && rows[p].Placement? && rows[p].identity in book && k.candidate == book[rows[p].identity]
    && k.request == rows[p].request && k.price == rows[p].price && k.fate == results(k.candidate, Placed(rows[..p]))
  }

  ghost predicate OpenTickets(book: Book, results: Results, rows: seq<Entry>, open: map<int, Ticket>) {
    forall k :: k in open ==> exists p :: Opens(book, results, rows, p, open[k]) && rows[p].identity == k
  }

  /** Row `i` pays what row `p` staked, by its result, and hands the result to the policy unless it is void. */
  ghost predicate Closes(t: ValidTerms, book: Book, results: Results, rows: seq<Entry>, p: int, i: int) {
    && 0 <= p < i < |rows| && rows[p].Placement? && rows[i].Settlement? && rows[p].identity == rows[i].identity
    && rows[p].identity in book && rows[i].fate == results(book[rows[p].identity], Placed(rows[..p]))
    && Pays(rows[i].pnl, rows[i].fate, rows[p].request.applied, rows[p].price)
    && match rows[i].fate
       case Void => rows[i].stateAfter == rows[i].stateBefore
       case Won => rows[i].stateAfter == t.policy.Settle(rows[i].stateBefore, rows[p].request, true).0
       case Lost => rows[i].stateAfter == t.policy.Settle(rows[i].stateBefore, rows[p].request, false).0
  }

  ghost predicate AllPaid(t: ValidTerms, book: Book, results: Results, rows: seq<Entry>) {
    forall i :: 0 <= i < |rows| && rows[i].Settlement? ==> exists p :: Closes(t, book, results, rows, p, i)
  }

  /** No candidate is settled twice, and none that is open has been settled. */
  ghost predicate SettledOnce(rows: seq<Entry>, open: map<int, Ticket>) {
    && (forall i, j :: 0 <= i < j < |rows| && rows[i].Settlement? && rows[j].Settlement? ==> rows[i].identity != rows[j].identity)
    && forall i :: 0 <= i < |rows| && rows[i].Settlement? ==> rows[i].identity !in open
  }

  /** Every placement is settled later or still open. */
  ghost predicate Accounted(rows: seq<Entry>, open: map<int, Ticket>) {
    forall p :: 0 <= p < |rows| && rows[p].Placement? && rows[p].identity !in open ==> SettledLater(rows, p)
  }

  ghost predicate SettledLater(rows: seq<Entry>, p: int)
    requires 0 <= p < |rows|
  {
    exists i :: p < i < |rows| && rows[i].Settlement? && rows[i].identity == rows[p].identity
  }

  /** The memory after the last settlement. */
  function Memory(t: ValidTerms, rows: seq<Entry>): PolicyState {
    if rows == [] then t.policy.InitialState()
    else
      var last := rows[|rows| - 1];
      if last.Settlement? then last.stateAfter else Memory(t, rows[..|rows| - 1])
  }

  /** Every row finds the memory that the last settlement left. */
  ghost predicate Remembered(t: ValidTerms, rows: seq<Entry>) {
    forall i :: 0 <= i < |rows| && !rows[i].NotPlaced? ==> rows[i].stateBefore == Memory(t, rows[..i])
  }

  /** The equities that a ledger goes through. */
  function Equities(rows: seq<Entry>): seq<real> {
    if rows == [] then [INITIAL]
    else
      var last := rows[|rows| - 1];
      Equities(rows[..|rows| - 1]) + if last.Settlement? then [last.equity] else []
  }

  /** Why a path stops: an equity of nothing, or a policy that gives up. */
  predicate Stops(e: Entry) {
    (e.Settlement? && e.equity <= 0.0) || (e.NotPlaced? && e.termination != Running)
  }

  ghost predicate NoStop(rows: seq<Entry>) {
    forall i :: 0 <= i < |rows| ==> !Stops(rows[i])
  }

  /** Row `i` stops the path first, for the reason given; afterwards the path only settles. */
  ghost predicate StopsAt(rows: seq<Entry>, i: int, termination: Termination) {
    && 0 <= i < |rows| && Stops(rows[i]) && NoStop(rows[..i])
    && termination == (if rows[i].Settlement? then BankrollDepleted else rows[i].termination)
    && forall j :: i < j < |rows| ==> rows[j].Settlement?
  }

  /** Settlements tell whether the path has stopped. */
  ghost predicate Marked(rows: seq<Entry>) {
    forall i :: 0 <= i < |rows| && rows[i].Settlement? ==> (rows[i].ruin <==> !NoStop(rows[..i + 1]))
  }

  /** A path is active until the first row that stops it, and its settlements say so. */
  ghost predicate Stopped(rows: seq<Entry>, active: bool, ruin: bool, termination: Termination) {
    && ruin == !active
    && (if active then termination == Running && NoStop(rows) else exists i :: StopsAt(rows, i, termination))
    && Marked(rows)
  }

  // ---- one more row: a turn --------------------------------------------------------------

  lemma TurnDated(book: Book, rows: seq<Entry>, e: Entry)
    requires Dated(book, rows) && e.identity in book
    requires e.Settlement? ==> e.at == book[e.identity].settlementAt
    requires e.Placement? ==> e.at == book[e.identity].executionAt
    ensures Dated(book, rows + [e])
  {
  }

  lemma TurnBestFirst(book: Book, rows: seq<Entry>, e: Entry)
    requires e.identity in book && Dated(book, rows) && Dated(book, rows + [e]) && BestFirst(book, rows)
    requires forall i :: 0 <= i < |rows| && !rows[i].Settlement? ==> Preferred(book[rows[i].identity], book[e.identity])
    ensures BestFirst(book, rows + [e])
  {
    hide Preferred;
  }

  lemma TurnNotEarly(book: Book, rows: seq<Entry>, e: Entry)
    requires e.identity in book && Dated(book, rows) && Dated(book, rows + [e]) && NotEarly(book, rows) && !e.Settlement?
    requires forall i :: 0 <= i < |rows| && rows[i].Settlement? ==> rows[i].at <= book[e.identity].executionAt
    ensures NotEarly(book, rows + [e])
  {
  }

  lemma TurnNotLate(book: Book, rows: seq<Entry>, e: Entry)
    requires Dated(book, rows) && Dated(book, rows + [e]) && NotLate(book, rows) && !e.Settlement?
    ensures NotLate(book, rows + [e])
  {
    hide Precedes;
    var more := rows + [e];
    forall p, j | 0 <= p < j < |more| && more[p].Placement? && more[j].Settlement? && more[p].identity == more[j].identity
      ensures NotLateUntil(book, more, p, j)
    {
      assert more[p] == rows[p] && more[j] == rows[j];
      assert NotLateUntil(book, rows, p, j);
    }
  }

  lemma TurnStillInTime(book: Book, rows: seq<Entry>, open: map<int, Ticket>, e: Entry, after: map<int, Ticket>)
    requires e.identity in book && Dated(book, rows) && Dated(book, rows + [e]) && StillInTime(book, rows, open) && !e.Settlement?
    requires forall k :: k in open ==> k in book && book[e.identity].executionAt < book[k].settlementAt
    requires forall k :: k in after ==> k in open || k == e.identity
    requires forall i :: 0 <= i < |rows| && !rows[i].Settlement? ==> rows[i].identity != e.identity
    ensures StillInTime(book, rows + [e], after)
  {
    var more := rows + [e];
    forall p | 0 <= p < |more| && more[p].Placement? && more[p].identity in after
      ensures NotLateUntil(book, more, p, |more|)
    {
      if p < |rows| {
        assert more[p] == rows[p];
        assert NotLateUntil(book, rows, p, |rows|);
      }
    }
  }

  lemma OpensMore(book: Book, results: Results, rows: seq<Entry>, e: Entry, p: int, k: Ticket)
    requires Opens(book, results, rows, p, k)
    ensures Opens(book, results, rows + [e], p, k)
  {
    assert (rows + [e])[..p] == rows[..p];
  }

  lemma TicketsMore(book: Book, results: Results, rows: seq<Entry>, open: map<int, Ticket>, e: Entry)
    requires OpenTickets(book, results, rows, open)
    ensures OpenTickets(book, results, rows + [e], open)
  {
    forall k | k in open
      ensures exists p :: Opens(book, results, rows + [e], p, open[k]) && (rows + [e])[p].identity == k
    {
      var p :| Opens(book, results, rows, p, open[k]) && rows[p].identity == k;
      OpensMore(book, results, rows, e, p, open[k]);
      assert (rows + [e])[p] == rows[p];
    }
  }

  lemma OpensNow(book: Book, results: Results, rows: seq<Entry>, e: Entry, k: Ticket)
    requires e.Placement? && e.identity in book && k.candidate == book[e.identity]
    requires k.request == e.request && k.price == e.price && k.fate == results(k.candidate, Placed(rows))
    ensures Opens(book, results, rows + [e], |rows|, k)
  {
    hide Placed;
    assert (rows + [e])[..|rows|] == rows;
  }

  lemma ClosesMore(t: ValidTerms, book: Book, results: Results, rows: seq<Entry>, e: Entry, p: int, i: int)
    requires Closes(t, book, results, rows, p, i)
    ensures Closes(t, book, results, rows + [e], p, i)
  {
    hide Policy.Settle;
    hide Pays;
    assert (rows + [e])[..p] == rows[..p];
  }

  lemma PaidMore(t: ValidTerms, book: Book, results: Results, rows: seq<Entry>, e: Entry)
    requires AllPaid(t, book, results, rows)
    requires e.Settlement? ==> exists p :: Closes(t, book, results, rows + [e], p, |rows|)
    ensures AllPaid(t, book, results, rows + [e])
  {
    hide Closes;
    forall i | 0 <= i < |rows| && rows[i].Settlement?
      ensures exists p :: Closes(t, book, results, rows + [e], p, i)
    {
      var p :| Closes(t, book, results, rows, p, i);
      ClosesMore(t, book, results, rows, e, p, i);
    }
  }

  /** The new settlement pays the ticket that some row opened. */
  lemma ClosesNow(t: ValidTerms, book: Book, results: Results, rows: seq<Entry>, e: Entry, p: int, k: Ticket)
    requires Opens(book, results, rows, p, k) && e.Settlement? && e.identity == rows[p].identity && e.fate == k.fate
    requires Pays(e.pnl, e.fate, k.request.applied, k.price)
    requires e.stateAfter == if k.fate == Void then e.stateBefore else t.policy.Settle(e.stateBefore, k.request, k.fate == Won).0
    ensures Closes(t, book, results, rows + [e], p, |rows|)
  {
    hide Policy.Settle;
    hide Pays;
    assert (rows + [e])[..p] == rows[..p];
  }

  lemma AccountedMore(rows: seq<Entry>, open: map<int, Ticket>, e: Entry, after: map<int, Ticket>)
    requires Accounted(rows, open)
    requires forall k :: k in open ==> k in after || (e.Settlement? && e.identity == k)
    requires e.Placement? ==> e.identity in after
    ensures Accounted(rows + [e], after)
  {
    var more := rows + [e];
    forall p | 0 <= p < |more| && more[p].Placement? && more[p].identity !in after
      ensures SettledLater(more, p)
    {
      assert more[p] == rows[p];
      if rows[p].identity in open {
        assert more[|rows|] == e;
      } else {
        assert SettledLater(rows, p);
        var i :| p < i < |rows| && rows[i].Settlement? && rows[i].identity == rows[p].identity;
        assert more[i] == rows[i];
      }
    }
  }

  lemma OnceMore(rows: seq<Entry>, open: map<int, Ticket>, e: Entry, after: map<int, Ticket>)
    requires SettledOnce(rows, open)
    requires forall k :: k in after ==> k in open || (k == e.identity && forall i :: 0 <= i < |rows| ==> rows[i].identity != k)
    requires e.Settlement? ==> e.identity in open && e.identity !in after
    ensures SettledOnce(rows + [e], after)
  {
  }

  lemma MemoryMore(t: ValidTerms, rows: seq<Entry>, e: Entry)
    ensures Memory(t, rows + [e]) == if e.Settlement? then e.stateAfter else Memory(t, rows)
  {
    assert (rows + [e])[..|rows|] == rows;
  }

  lemma RememberedMore(t: ValidTerms, rows: seq<Entry>, e: Entry)
    requires Remembered(t, rows) && (!e.NotPlaced? ==> e.stateBefore == Memory(t, rows))
    ensures Remembered(t, rows + [e])
  {
    hide Memory;
    var more := rows + [e];
    forall i | 0 <= i < |more| && !more[i].NotPlaced?
      ensures more[i].stateBefore == Memory(t, more[..i])
    {
      assert more[..i] == rows[..i];
      if i == |rows| { assert rows[..i] == rows; }
    }
  }

  lemma EquitiesMore(rows: seq<Entry>, e: Entry)
    ensures Equities(rows + [e]) == Equities(rows) + if e.Settlement? then [e.equity] else []
  {
    assert (rows + [e])[..|rows|] == rows;
  }

  lemma NoStopMore(rows: seq<Entry>, e: Entry)
    ensures NoStop(rows + [e]) <==> NoStop(rows) && !Stops(e)
  {
    hide Stops;
    var more := rows + [e];
    assert more[|rows|] == e;
    if NoStop(more) {
      forall i | 0 <= i < |rows| ensures !Stops(rows[i]) { assert more[i] == rows[i]; }
    }
  }

  lemma StopsAtMore(rows: seq<Entry>, e: Entry, i: int, termination: Termination)
    requires StopsAt(rows, i, termination) && e.Settlement?
    ensures StopsAt(rows + [e], i, termination)
  {
    hide Stops;
    hide NoStop;
    assert (rows + [e])[..i] == rows[..i];
  }

  lemma StopsNow(rows: seq<Entry>, e: Entry)
    requires NoStop(rows) && Stops(e)
    ensures StopsAt(rows + [e], |rows|, if e.Settlement? then BankrollDepleted else e.termination)
  {
    hide Stops;
    hide NoStop;
    assert (rows + [e])[..|rows|] == rows;
  }

  lemma MarkedMore(rows: seq<Entry>, e: Entry)
    requires Marked(rows) && (e.Settlement? ==> (e.ruin <==> !NoStop(rows + [e])))
    ensures Marked(rows + [e])
  {
    hide NoStop;
    var more := rows + [e];
    forall i | 0 <= i < |more| && more[i].Settlement?
      ensures more[i].ruin <==> !NoStop(more[..i + 1])
    {
      if i < |rows| { assert more[..i + 1] == rows[..i + 1]; } else { assert more[..i + 1] == more; }
    }
  }

  // ---- one more row: a settlement --------------------------------------------------------

  /** The next settlement is the one due first, by time and then by identity. */
  ghost predicate DueFirst(open: map<int, Ticket>, id: int)
    requires id in open
  {
    forall k :: k in open && k != id ==> DueBefore(open, id, k)
  }

  predicate DueBefore(open: map<int, Ticket>, i: int, j: int)
    requires i in open && j in open
  {
    var a, b := open[i].candidate.settlementAt, open[j].candidate.settlementAt;
    a < b || (a == b && i < j)
  }

  lemma SettledBestFirst(book: Book, rows: seq<Entry>, e: Entry)
    requires Dated(book, rows) && Dated(book, rows + [e]) && e.Settlement? && BestFirst(book, rows) && NotEarly(book, rows)
    ensures BestFirst(book, rows + [e]) && NotEarly(book, rows + [e])
  {
    hide Preferred;
  }

  lemma SettledNotLate(book: Book, rows: seq<Entry>, open: map<int, Ticket>, e: Entry)
    requires Dated(book, rows) && Dated(book, rows + [e]) && e.Settlement? && NotLate(book, rows)
    requires StillInTime(book, rows, open) && e.identity in open
    ensures NotLate(book, rows + [e])
  {
    hide Precedes;
    var more := rows + [e];
    forall p, j | 0 <= p < j < |more| && more[p].Placement? && more[j].Settlement? && more[p].identity == more[j].identity
      ensures NotLateUntil(book, more, p, j)
    {
      assert more[p] == rows[p];
      if j < |rows| {
        assert more[j] == rows[j];
        assert NotLateUntil(book, rows, p, j);
      } else {
        assert NotLateUntil(book, rows, p, |rows|);
      }
    }
  }

  lemma SettledStillInTime(book: Book, rows: seq<Entry>, open: map<int, Ticket>, e: Entry)
    requires Dated(book, rows) && Dated(book, rows + [e]) && e.Settlement? && StillInTime(book, rows, open)
    requires e.identity in open && forall k :: k in open ==> k in book && open[k].candidate == book[k]
    requires DueFirst(open, e.identity)
    ensures StillInTime(book, rows + [e], open - {e.identity})
  {
    var more := rows + [e];
    forall p | 0 <= p < |more| && more[p].Placement? && more[p].identity in open - {e.identity}
      ensures NotLateUntil(book, more, p, |more|)
    {
      assert more[p] == rows[p];
      assert NotLateUntil(book, rows, p, |rows|);
      assert Precedes(book, e, rows[p].identity);
    }
  }

  lemma TicketsFewer(book: Book, results: Results, rows: seq<Entry>, open: map<int, Ticket>, id: int)
    requires OpenTickets(book, results, rows, open)
    ensures OpenTickets(book, results, rows, open - {id})
  {
    forall k | k in open - {id}
      ensures exists p :: Opens(book, results, rows, p, (open - {id})[k]) && rows[p].identity == k
    {
      var p :| Opens(book, results, rows, p, open[k]) && rows[p].identity == k;
    }
  }

  lemma TicketsDated(book: Book, results: Results, rows: seq<Entry>, open: map<int, Ticket>)
    requires OpenTickets(book, results, rows, open)
    ensures forall k :: k in open ==> k in book && open[k].candidate == book[k]
  {
  }

  // ---- the two halves of the record ------------------------------------------------------

  /** Order and time. */
  ghost predicate Timely(book: Book, rows: seq<Entry>, open: map<int, Ticket>) {
    && Dated(book, rows) && BestFirst(book, rows) && NotEarly(book, rows) && NotLate(book, rows)
    && StillInTime(book, rows, open) && Accounted(rows, open) && SettledOnce(rows, open)
  }

  /** The peak and the drawdown are those of the equities in the ledger. */
  ghost predicate Worst(rows: seq<Entry>, peak: real, drawdown: real) {
    Bankroll(Equities(rows)) && IsPeak(Equities(rows), peak) && IsDrawdown(Equities(rows), drawdown)
  }

  /** Money and memory. */
  ghost predicate Booked(t: ValidTerms, book: Book, results: Results, s: Path) {
    && OpenTickets(book, results, s.ledger, s.open) && AllPaid(t, book, results, s.ledger)
    && Remembered(t, s.ledger) && s.state == Memory(t, s.ledger)
    && Worst(s.ledger, s.peak, s.drawdown)
    && Stopped(s.ledger, s.active, s.ruin, s.termination)
  }

  lemma SettleTimely(book: Book, rows: seq<Entry>, open: map<int, Ticket>, e: Entry)
    requires Timely(book, rows, open) && e.Settlement? && e.identity in open && DueFirst(open, e.identity)
    requires forall k :: k in open ==> k in book && open[k].candidate == book[k]
    requires e.at == open[e.identity].candidate.settlementAt
    ensures Timely(book, rows + [e], open - {e.identity})
  {
    TurnDated(book, rows, e);
    SettledBestFirst(book, rows, e);
    SettledNotLate(book, rows, open, e);
    SettledStillInTime(book, rows, open, e);
    AccountedMore(rows, open, e, open - {e.identity});
    OnceMore(rows, open, e, open - {e.identity});
    hide BestFirst;
    hide NotEarly;
    hide NotLate;
    hide StillInTime;
    hide Accounted;
    hide SettledOnce;
    hide Dated;
  }

  lemma AnswerTimely(book: Book, rows: seq<Entry>, open: map<int, Ticket>, e: Entry, after: map<int, Ticket>)
    requires Timely(book, rows, open) && !e.Settlement? && e.identity in book
    requires e.Placement? ==> e.at == book[e.identity].executionAt && e.identity in after
    requires forall i :: 0 <= i < |rows| && !rows[i].Settlement? ==> Preferred(book[rows[i].identity], book[e.identity])
    requires forall i :: 0 <= i < |rows| && rows[i].Settlement? ==> rows[i].at <= book[e.identity].executionAt
    requires forall i :: 0 <= i < |rows| ==> rows[i].identity != e.identity
    requires forall k :: k in open ==> k in book && book[e.identity].executionAt < book[k].settlementAt
    requires forall k :: k in after ==> k in open || k == e.identity
    requires forall k :: k in open ==> k in after
    ensures Timely(book, rows + [e], after)
  {
    TurnDated(book, rows, e);
    TurnBestFirst(book, rows, e);
    TurnNotEarly(book, rows, e);
    TurnNotLate(book, rows, e);
    TurnStillInTime(book, rows, open, e, after);
    AccountedMore(rows, open, e, after);
    OnceMore(rows, open, e, after);
    hide BestFirst;
    hide NotEarly;
    hide NotLate;
    hide StillInTime;
    hide Accounted;
    hide SettledOnce;
    hide Dated;
  }

  lemma BookedMeans(t: ValidTerms, book: Book, results: Results, s: Path)
    requires Booked(t, book, results, s)
    ensures forall k :: k in s.open ==> k in book && s.open[k].candidate == book[k]
  {
    hide AllPaid;
    hide Remembered;
    hide Memory;
    hide Worst;
    hide Stopped;
    TicketsDated(book, results, s.ledger, s.open);
  }

  lemma StoppedMore(rows: seq<Entry>, active: bool, ruin: bool, termination: Termination, e: Entry,
                    active': bool, termination': Termination)
    requires Stopped(rows, active, ruin, termination)
    requires if active && Stops(e) then !active' && termination' == (if e.Settlement? then BankrollDepleted else e.termination)
             else active' == active && termination' == termination
    requires e.Settlement? ==> e.ruin == !active'
    requires !active ==> e.Settlement?
    ensures Stopped(rows + [e], active', !active', termination')
  {
    hide Stops;
    hide NoStop;
    hide StopsAt;
    NoStopMore(rows, e);
    if active {
      if Stops(e) { StopsNow(rows, e); }
    } else {
      var i :| StopsAt(rows, i, termination);
      StopsAtMore(rows, e, i, termination);
      StopsStays(rows, i, termination);
    }
    MarkedMore(rows, e);
  }

  lemma StopsStays(rows: seq<Entry>, i: int, termination: Termination)
    requires StopsAt(rows, i, termination)
    ensures !NoStop(rows)
  {
    hide Stops;
  }

  /** What one settlement does to the worst figures and to the path's end. */
  lemma SettleWorst(t: ValidTerms, s: Path, id: int)
    requires id in s.open
    ensures var r := SettleOne(t, s, id);
            var e := r.ledger[|s.ledger|];
            && e.Settlement? && e.ruin == r.ruin && e.termination == r.termination
            && r.peak == Max(s.peak, r.equity)
            && (0.0 < r.peak ==> r.drawdown == Max(s.drawdown, (r.peak - r.equity) / r.peak))
            && r.termination == if r.equity <= 0.0 && !s.ruin then BankrollDepleted else s.termination
  {
    hide Policy.Settle;
    hide TicketPnl;
    hide Max;
  }

  lemma SettleFalls(rows: seq<Entry>, peak: real, drawdown: real, e: Entry, peak': real, drawdown': real)
    requires Worst(rows, peak, drawdown) && e.Settlement? && 0.0 <= e.equity && peak' == Max(peak, e.equity)
    requires 0.0 < peak' ==> drawdown' == Max(drawdown, (peak' - e.equity) / peak')
    ensures Worst(rows + [e], peak', drawdown')
  {
    hide Equities;
    hide Bankroll;
    hide IsPeak;
    hide IsDrawdown;
    DrawdownMore(Equities(rows), peak, drawdown, e.equity);
    EquitiesMore(rows, e);
  }

  /** The row that one settlement adds, in the figures around it. */
  ghost predicate Adds(t: ValidTerms, s: Path, id: int, e: Entry, r: Path)
    requires id in s.open
  {
    var k := s.open[id];
    && r.ledger == s.ledger + [e] && r.open == s.open - {id}
    && e.Settlement? && e.identity == id && e.at == k.candidate.settlementAt && e.fate == k.fate && e.pnl == TicketPnl(k)
    && e.stateBefore == s.state && e.stateAfter == r.state && e.equity == r.equity && e.ruin == r.ruin
    && r.state == (if k.fate == Void then s.state else t.policy.Settle(s.state, k.request, k.fate == Won).0)
    && (r.active <==> s.active && !(r.equity <= 0.0 && !s.ruin)) && (r.ruin <==> s.ruin || r.equity <= 0.0)
    && r.termination == (if r.equity <= 0.0 && !s.ruin then BankrollDepleted else s.termination)
    && r.peak == Max(s.peak, r.equity) && (0.0 < r.peak ==> r.drawdown == Max(s.drawdown, (r.peak - r.equity) / r.peak))
  }

  lemma SettleAdds(t: ValidTerms, s: Path, id: int) returns (e: Entry)
    requires id in s.open
    ensures Adds(t, s, id, e, SettleOne(t, s, id))
  {
    hide SettleOne;
    hide Policy.Settle;
    hide TicketPnl;
    hide Max;
    var r := SettleOne(t, s, id);
    SettleFigures(t, s, id);
    SettleWorst(t, s, id);
    e := r.ledger[|s.ledger|];
    assert r.ledger == s.ledger + [e];
  }

  lemma AddsTickets(t: ValidTerms, book: Book, results: Results, s: Path, id: int, e: Entry, r: Path)
    requires Booked(t, book, results, s) && id in s.open && Adds(t, s, id, e, r) && 0.0 < s.open[id].request.applied
    ensures OpenTickets(book, results, r.ledger, r.open) && AllPaid(t, book, results, r.ledger)
  {
    hide AllPaid;
    hide OpenTickets;
    hide Remembered;
    hide Memory;
    hide Worst;
    hide Stopped;
    hide Policy.Settle;
    hide TicketPnl;
    SettlePays(t, book, results, s, id, e);
    TicketsMore(book, results, s.ledger, s.open, e);
    TicketsFewer(book, results, s.ledger + [e], s.open, id);
    PaidMore(t, book, results, s.ledger, e);
  }

  lemma AddsFigures(t: ValidTerms, book: Book, results: Results, s: Path, id: int, e: Entry, r: Path)
    requires Booked(t, book, results, s) && id in s.open && Adds(t, s, id, e, r) && 0.0 <= r.equity
    ensures Remembered(t, r.ledger) && r.state == Memory(t, r.ledger) && Worst(r.ledger, r.peak, r.drawdown)
    ensures Stopped(r.ledger, r.active, r.ruin, r.termination)
  {
    hide AllPaid;
    hide OpenTickets;
    hide Remembered;
    hide Memory;
    hide Worst;
    hide Policy.Settle;
    hide TicketPnl;
    hide Max;
    hide Marked;
    hide NoStop;
    hide StopsAt;
    RememberedMore(t, s.ledger, e);
    MemoryMore(t, s.ledger, e);
    SettleFalls(s.ledger, s.peak, s.drawdown, e, r.peak, r.drawdown);
    StoppedMore(s.ledger, s.active, s.ruin, s.termination, e, r.active, r.termination);
  }

  lemma SettleBooked(t: ValidTerms, book: Book, results: Results, s: Path, id: int)
    requires Booked(t, book, results, s) && Safe(t, s) && id in s.open
    ensures Booked(t, book, results, SettleOne(t, s, id))
  {
    hide SettleOne;
    hide Safe;
    hide Adds;
    hide AllPaid;
    hide OpenTickets;
    hide Remembered;
    hide Memory;
    hide Worst;
    hide Stopped;
    var r := SettleOne(t, s, id);
    var e := SettleAdds(t, s, id);
    SettleOneSafe(t, s, id);
    SafeMeans(t, s);
    SafeMeans(t, r);
    CoveredStakes(t, s, id);
    AddsTickets(t, book, results, s, id, e, r);
    AddsFigures(t, book, results, s, id, e, r);
  }

  lemma SettleOneSafe(t: ValidTerms, s: Path, id: int)
    requires Safe(t, s) && id in s.open
    ensures Safe(t, SettleOne(t, s, id))
  {
    hide Solvent;
    hide Tallied;
    hide SettleOne;
    SettleSolvent(t, s, id);
    SettleCounted(t, s, id);
  }

  lemma CoveredStakes(t: ValidTerms, s: Path, id: int)
    requires id in s.open && Covered(t.policy, s.open[id])
    ensures 0.0 < s.open[id].request.applied
  {
  }

  lemma SettlePays(t: ValidTerms, book: Book, results: Results, s: Path, id: int, e: Entry)
    requires OpenTickets(book, results, s.ledger, s.open) && id in s.open && 0.0 < s.open[id].request.applied
    requires e.Settlement? && e.identity == id && e.fate == s.open[id].fate && e.pnl == TicketPnl(s.open[id])
    requires e.stateAfter == if e.fate == Void then e.stateBefore
                             else t.policy.Settle(e.stateBefore, s.open[id].request, e.fate == Won).0
    ensures exists p :: Closes(t, book, results, s.ledger + [e], p, |s.ledger|)
  {
    hide Policy.Settle;
    hide TicketPnl;
    TicketPays(s.open[id]);
    var p :| Opens(book, results, s.ledger, p, s.open[id]) && s.ledger[p].identity == id;
    ClosesNow(t, book, results, s.ledger, e, p, s.open[id]);
  }

  // ---- all that is due -------------------------------------------------------------------

  ghost predicate Kept(t: ValidTerms, book: Book, results: Results, s: Path) {
    Safe(t, s) && Timely(book, s.ledger, s.open) && Booked(t, book, results, s)
  }

  lemma SettleOneKept(t: ValidTerms, book: Book, results: Results, s: Path, id: int)
    requires Kept(t, book, results, s) && id in s.open && DueFirst(s.open, id)
    ensures Kept(t, book, results, SettleOne(t, s, id)) && SettleOne(t, s, id).open == s.open - {id}
  {
    hide Safe;
    hide Timely;
    hide Booked;
    hide SettleOne;
    var e := SettleAdds(t, s, id);
    BookedMeans(t, book, results, s);
    SettleTimely(book, s.ledger, s.open, e);
    SettleOneSafe(t, s, id);
    SettleBooked(t, book, results, s, id);
    hide DueFirst;
    hide Policy.Settle;
    hide TicketPnl;
  }

  /** The listed tickets are due in this order, and before every other. */
  ghost predicate InDueOrder(open: map<int, Ticket>, ids: seq<int>)
    requires Listed(ids, open)
  {
    && (forall i, j :: 0 <= i < j < |ids| ==> DueBefore(open, ids[i], ids[j]))
    && forall i, k :: 0 <= i < |ids| && k in open && k !in ids ==> DueBefore(open, ids[i], k)
  }

  lemma NextDue(open: map<int, Ticket>, ids: seq<int>)
    requires ids != [] && Listed(ids, open) && InDueOrder(open, ids)
    ensures Listed(ids[..|ids| - 1], open) && InDueOrder(open, ids[..|ids| - 1])
    ensures var front := ids[..|ids| - 1];
            var rest := open - (set k | k in front);
            ids[|ids| - 1] in rest && DueFirst(rest, ids[|ids| - 1])
  {
    hide DueBefore;
    var last := |ids| - 1;
    var front := ids[..last];
    assert ids[last] !in front;
    FrontOrLast(ids);
    forall i, k | 0 <= i < |front| && k in open && k !in front
      ensures DueBefore(open, front[i], k)
    {
      assert front[i] == ids[i];
    }
    var rest := open - (set k | k in front);
    forall k | k in rest && k != ids[last]
      ensures DueBefore(rest, ids[last], k)
    {
      SameDue(open, rest, ids[last], k);
    }
  }

  lemma FrontOrLast(ids: seq<int>)
    requires ids != []
    ensures forall k :: k in ids ==> k in ids[..|ids| - 1] || k == ids[|ids| - 1]
  {
    assert ids == ids[..|ids| - 1] + [ids[|ids| - 1]];
  }

  lemma SameDue(open: map<int, Ticket>, rest: map<int, Ticket>, i: int, j: int)
    requires i in open && j in open && i in rest && j in rest && open[i] == rest[i] && open[j] == rest[j]
    requires DueBefore(open, i, j)
    ensures DueBefore(rest, i, j)
  {
  }

  /** Settling adds one row for each ticket listed. */
  lemma {:induction false} EachRows(t: ValidTerms, s: Path, ids: seq<int>)
    requires Listed(ids, s.open)
    ensures var rows := SettleEach(t, s, ids).ledger;
            && |s.ledger| <= |rows| && rows[..|s.ledger|] == s.ledger
            && forall i :: |s.ledger| <= i < |rows| ==>
                 rows[i].Settlement? && rows[i].identity in ids && rows[i].at == s.open[rows[i].identity].candidate.settlementAt
  {
    hide SettleOne;
    if ids != [] {
      var last := |ids| - 1;
      assert ids[last] !in ids[..last];
      EachRows(t, s, ids[..last]);
      var d := SettleEach(t, s, ids[..last]);
      SettleFigures(t, d, ids[last]);
      var rows := SettleOne(t, d, ids[last]).ledger;
      assert rows == d.ledger + [rows[|d.ledger|]];
      hide Policy.Settle;
      hide TicketPnl;
    }
  }

  lemma {:induction false} SettleEachKept(t: ValidTerms, book: Book, results: Results, s: Path, ids: seq<int>)
    requires Kept(t, book, results, s) && Listed(ids, s.open) && InDueOrder(s.open, ids)
    ensures Kept(t, book, results, SettleEach(t, s, ids))
  {
    hide Kept;
    hide SettleOne;
    hide InDueOrder;
    hide DueFirst;
    if ids != [] {
      var last := |ids| - 1;
      NextDue(s.open, ids);
      SettleEachKept(t, book, results, s, ids[..last]);
      SettleOneKept(t, book, results, SettleEach(t, s, ids[..last]), ids[last]);
    }
  }

  lemma SortedIsDue(s: Path, until: Option<int>)
    ensures Listed(Order(DueRanks(s, until)), s.open) && InDueOrder(s.open, Order(DueRanks(s, until)))
  {
    var ranks := DueRanks(s, until);
    var due := Order(ranks);
    DueListed(s, until);
    forall i, j | 0 <= i < j < |due|
      ensures DueBefore(s.open, due[i], due[j])
    {
      assert Before(ranks[due[i]], due[i], ranks[due[j]], due[j]);
    }
    forall i, k | 0 <= i < |due| && k in s.open && k !in due
      ensures DueBefore(s.open, due[i], k)
    {
      assert due[i] in ranks && k !in ranks;
    }
  }

  lemma SettleDueKept(t: ValidTerms, book: Book, results: Results, s: Path, until: Option<int>)
    requires Kept(t, book, results, s)
    ensures Kept(t, book, results, SettleDue(t, s, until))
  {
    hide Kept;
    hide InDueOrder;
    hide SettleEach;
    SortedIsDue(s, until);
    SettleEachKept(t, book, results, s, Order(DueRanks(s, until)));
  }

  // ---- one candidate ---------------------------------------------------------------------

  /** Settlements so far lie before the candidate, and earlier turns belong to candidates ahead of it. */
  ghost predicate Next(book: Book, rows: seq<Entry>, c: Candidate)
    requires Dated(book, rows)
  {
    && (forall i :: 0 <= i < |rows| && rows[i].Settlement? ==> rows[i].at <= c.executionAt)
    && (forall i :: 0 <= i < |rows| && !rows[i].Settlement? ==> Preferred(book[rows[i].identity], c))
    && forall i :: 0 <= i < |rows| ==> rows[i].identity != c.identity
  }

  lemma AnswerMeans(t: ValidTerms, c: Candidate, results: Results, s: Path, r: Path)
    requires Answered(t, c, s.actions, results, s, r) && s.active && !s.ruin
    ensures |r.ledger| == |s.ledger| + 1 && r.ledger[..|s.ledger|] == s.ledger && r.state == s.state
    ensures var e := r.ledger[|s.ledger|];
            && e.identity == c.identity && !e.Settlement?
            && (e.Placement? ==> e.at == c.executionAt && e.stateBefore == s.state && c.identity in r.open
                                 && r.open == s.open[c.identity := r.open[c.identity]]
                                 && r.open[c.identity].candidate == c
                                 && r.open[c.identity].request == e.request && r.open[c.identity].price == e.price
                                 && r.open[c.identity].fate == results(c, s.actions))
            && (e.NotPlaced? ==> r.open == s.open)
            && (r.active <==> !Stops(e)) && (Stops(e) ==> r.termination == e.termination)
  {
    hide Policy.Request;
  }

  /** A turn leaves the worst figures alone, and without a stop the end as well. */
  lemma TurnLeaves(t: ValidTerms, s: Path, c: Candidate, results: Results)
    ensures var r := Consider(t, s, c, results);
            && r.peak == s.peak && r.drawdown == s.drawdown && r.wins == s.wins && r.losses == s.losses && r.voids == s.voids
            && (r.active ==> r.ruin == s.ruin && r.termination == s.termination) && (!r.active && s.active ==> r.ruin)
  {
    hide Quoted;
    hide RequestFor;
  }

  /** The row that a turn adds, in the figures around it. */
  ghost predicate Tells(c: Candidate, results: Results, s: Path, e: Entry, r: Path) {
    && r.ledger == s.ledger + [e] && r.state == s.state && r.peak == s.peak && r.drawdown == s.drawdown
    && e.identity == c.identity && !e.Settlement?
    && (e.Placement? ==> e.at == c.executionAt && e.stateBefore == s.state && c.identity in r.open
                         && r.open == s.open[c.identity := r.open[c.identity]]
                         && r.open[c.identity].candidate == c
                         && r.open[c.identity].request == e.request && r.open[c.identity].price == e.price
                         && r.open[c.identity].fate == results(c, s.actions))
    && (e.NotPlaced? ==> r.open == s.open)
    && (r.active <==> !Stops(e)) && r.ruin == !r.active
    && r.termination == if Stops(e) then e.termination else s.termination
  }

  lemma ConsiderTells(t: ValidTerms, s: Path, c: Candidate, results: Results) returns (e: Entry)
    requires s.active && !s.ruin
    ensures Tells(c, results, s, e, Consider(t, s, c, results))
  {
    hide Consider;
    hide Answered;
    hide Stops;
    var r := Consider(t, s, c, results);
    ConsiderAnswers(t, s, c, results);
    AnswerMeans(t, c, results, s, r);
    TurnLeaves(t, s, c, results);
    e := r.ledger[|s.ledger|];
    assert r.ledger == s.ledger + [e];
  }

  lemma TellsTickets(t: ValidTerms, book: Book, results: Results, s: Path, c: Candidate, e: Entry, r: Path)
    requires Booked(t, book, results, s) && Tells(c, results, s, e, r) && s.actions == Placed(s.ledger)
    requires c.identity in book && book[c.identity] == c
    ensures OpenTickets(book, results, r.ledger, r.open) && AllPaid(t, book, results, r.ledger)
  {
    hide AllPaid;
    hide Opens;
    hide Placed;
    hide Remembered;
    hide Memory;
    hide Worst;
    hide Stopped;
    hide Stops;
    TicketsMore(book, results, s.ledger, s.open, e);
    PaidMore(t, book, results, s.ledger, e);
    if e.Placement? {
      var k := r.open[c.identity];
      OpensNow(book, results, s.ledger, e, k);
      OneMoreTicket(book, results, r.ledger, s.open, c.identity, k, |s.ledger|);
    }
  }

  lemma OneMoreTicket(book: Book, results: Results, rows: seq<Entry>, open: map<int, Ticket>, id: int, k: Ticket, p: int)
    requires OpenTickets(book, results, rows, open) && Opens(book, results, rows, p, k) && rows[p].identity == id
    ensures OpenTickets(book, results, rows, open[id := k])
  {
    hide Placed;
    var after := open[id := k];
    forall j | j in after
      ensures exists q :: Opens(book, results, rows, q, after[j]) && rows[q].identity == j
    {
      if j != id {
        var q :| Opens(book, results, rows, q, open[j]) && rows[q].identity == j;
      }
    }
  }

  lemma TellsFigures(t: ValidTerms, book: Book, results: Results, s: Path, c: Candidate, e: Entry, r: Path)
    requires Booked(t, book, results, s) && Tells(c, results, s, e, r) && s.active
    ensures Remembered(t, r.ledger) && r.state == Memory(t, r.ledger) && Worst(r.ledger, r.peak, r.drawdown)
    ensures Stopped(r.ledger, r.active, r.ruin, r.termination)
  {
    hide AllPaid;
    hide OpenTickets;
    hide Remembered;
    hide Memory;
    hide Marked;
    hide NoStop;
    hide StopsAt;
    hide Stops;
    hide Equities;
    hide Bankroll;
    hide IsPeak;
    hide IsDrawdown;
    RememberedMore(t, s.ledger, e);
    MemoryMore(t, s.ledger, e);
    EquitiesMore(s.ledger, e);
    assert Equities(s.ledger) + [] == Equities(s.ledger);
    StoppedMore(s.ledger, s.active, s.ruin, s.termination, e, r.active, r.termination);
  }

  lemma TellsBooked(t: ValidTerms, book: Book, results: Results, s: Path, c: Candidate, e: Entry, r: Path)
    requires Booked(t, book, results, s) && Tells(c, results, s, e, r) && s.active && s.actions == Placed(s.ledger)
    requires c.identity in book && book[c.identity] == c
    ensures Booked(t, book, results, r)
  {
    hide Tells;
    hide OpenTickets;
    hide AllPaid;
    hide Remembered;
    hide Memory;
    hide Worst;
    hide Stopped;
    TellsTickets(t, book, results, s, c, e, r);
    TellsFigures(t, book, results, s, c, e, r);
  }

  lemma TellsTimely(book: Book, results: Results, s: Path, c: Candidate, e: Entry, r: Path)
    requires Timely(book, s.ledger, s.open) && Tells(c, results, s, e, r) && c.identity in book && book[c.identity] == c
    requires Next(book, s.ledger, c)
    requires forall k :: k in s.open ==> k in book && c.executionAt < book[k].settlementAt
    ensures Timely(book, r.ledger, r.open)
  {
    hide Stops;
    hide BestFirst;
    hide NotEarly;
    hide NotLate;
    hide StillInTime;
    hide Accounted;
    hide SettledOnce;
    hide Preferred;
    AnswerTimely(book, s.ledger, s.open, e, r.open);
  }

  lemma ConsiderKept(t: ValidTerms, book: Book, results: Results, s: Path, c: Candidate)
    requires Kept(t, book, results, s) && c.identity in book && book[c.identity] == c && c.identity !in s.open
    requires Dated(book, s.ledger) && Next(book, s.ledger, c)
    requires forall k :: k in s.open ==> k in book && c.executionAt < book[k].settlementAt
    ensures Kept(t, book, results, Consider(t, s, c, results))
  {
    hide Consider;
    hide Safe;
    hide Timely;
    hide Booked;
    hide Next;
    hide Tells;
    if s.active {
      SafeMeans(t, s);
      var e := ConsiderTells(t, s, c, results);
      TellsTimely(book, results, s, c, e, Consider(t, s, c, results));
      TellsBooked(t, book, results, s, c, e, Consider(t, s, c, results));
      ConsiderSafe(t, s, c, results);
    } else {
      InactiveStays(t, s, c, results);
    }
  }

  lemma InactiveStays(t: ValidTerms, s: Path, c: Candidate, results: Results)
    requires !s.active
    ensures Consider(t, s, c, results) == s
  {
  }

  // ---- a whole path ----------------------------------------------------------------------

  /** Rows belong to candidates that have been walked through, and settlements lie before the last of them. */
  ghost predicate Walked(book: Book, rows: seq<Entry>, ids: seq<int>)
    requires forall i :: 0 <= i < |ids| ==> ids[i] in book
  {
    && (forall i :: 0 <= i < |rows| ==> rows[i].identity in ids)
    && forall i :: 0 <= i < |rows| && rows[i].Settlement? ==> ids != [] && rows[i].at <= book[ids[|ids| - 1]].executionAt
  }

  lemma DueRows(t: ValidTerms, book: Book, s: Path, until: int)
    requires forall k :: k in s.open ==> k in book && s.open[k].candidate == book[k]
    ensures var rows := SettleDue(t, s, Some(until)).ledger;
            && |s.ledger| <= |rows| && rows[..|s.ledger|] == s.ledger
            && forall i :: |s.ledger| <= i < |rows| ==>
                 rows[i].Settlement? && rows[i].identity in s.open && rows[i].at <= until
  {
    hide SettleEach;
    var due := Order(DueRanks(s, Some(until)));
    DueListed(s, Some(until));
    EachRows(t, s, due);
    var rows := SettleDue(t, s, Some(until)).ledger;
    forall i | |s.ledger| <= i < |rows|
      ensures rows[i].Settlement? && rows[i].identity in s.open && rows[i].at <= until
    {
      assert rows[i].identity in due;
      assert rows[i].identity in DueRanks(s, Some(until));
    }
  }

  lemma RankPrefers(book: Book, i: int, j: int)
    requires Keyed(book) && i in book && j in book && Before(Ranks(book)[i], i, Ranks(book)[j], j)
    ensures Preferred(book[i], book[j])
  {
  }

  /** Before its turn a candidate finds only rows of earlier candidates, and no settlement of a later time. */
  lemma NextInLine(book: Book, rows: seq<Entry>, now: seq<Entry>, ids: seq<int>)
    requires Keyed(book) && Sorted(Ranks(book), ids) && Distinct(ids) && ids != [] && Dated(book, now)
    requires forall i :: 0 <= i < |ids| ==> ids[i] in book
    requires Walked(book, rows, ids[..|ids| - 1]) && |rows| <= |now| && now[..|rows|] == rows
    requires var c := book[ids[|ids| - 1]];
             forall i :: |rows| <= i < |now| ==>
               now[i].Settlement? && now[i].identity in ids[..|ids| - 1] && now[i].at <= c.executionAt
    ensures Next(book, now, book[ids[|ids| - 1]])
  {
    hide Before;
    hide Preferred;
    var last := |ids| - 1;
    var c := book[ids[last]];
    assert ids[last] !in ids[..last];
    forall i | 0 <= i < |now|
      ensures now[i].identity in ids[..last]
    {
      if i < |rows| { assert now[i] == rows[i]; }
    }
    forall i | 0 <= i < |now| && now[i].Settlement?
      ensures now[i].at <= c.executionAt
    {
      if i < |rows| {
        assert now[i] == rows[i];
        RankPrefers(book, ids[last - 1], ids[last]);
        PreferredLater(book[ids[last - 1]], c);
      }
    }
    forall i | 0 <= i < |now| && !now[i].Settlement?
      ensures Preferred(book[now[i].identity], c)
    {
      var j :| 0 <= j < last && ids[j] == now[i].identity;
      RankPrefers(book, ids[j], ids[last]);
    }
  }

  lemma PreferredLater(a: Candidate, b: Candidate)
    requires Preferred(a, b)
    ensures a.executionAt <= b.executionAt
  {
  }

  lemma {:induction false} WalkKept(t: ValidTerms, book: Book, results: Results, ids: seq<int>)
    requires Keyed(book) && Sorted(Ranks(book), ids) && Distinct(ids) && forall i :: 0 <= i < |ids| ==> ids[i] in book
    ensures Kept(t, book, results, Walk(t, book, results, ids)) && Walked(book, Walk(t, book, results, ids).ledger, ids)
  {
    hide Consider;
    hide SettleDue;
    hide Kept;
    hide Walked;
    hide Sorted;
    hide Ranks;
    if ids == [] {
      BeginKept(t, book, results);
      NoneWalked(book, ids);
    } else {
      var last := |ids| - 1;
      FrontSorted(Ranks(book), ids);
      WalkKept(t, book, results, ids[..last]);
      WalkOpen(t, book, results, ids[..last]);
      StepKept(t, book, results, ids, Walk(t, book, results, ids[..last]));
    }
  }

  lemma FrontSorted(ranks: map<int, Rank>, ids: seq<int>)
    requires ids != [] && Sorted(ranks, ids) && Distinct(ids)
    ensures Sorted(ranks, ids[..|ids| - 1]) && Distinct(ids[..|ids| - 1])
  {
    hide Before;
  }

  lemma NoneWalked(book: Book, ids: seq<int>)
    requires forall i :: 0 <= i < |ids| ==> ids[i] in book
    ensures Walked(book, [], ids)
  {
  }

  lemma BeginKept(t: ValidTerms, book: Book, results: Results)
    ensures Kept(t, book, results, Begin(t)) && Begin(t).ledger == []
  {
    BeginSafe(t);
    Starts(INITIAL);
    hide Safe;
    hide Bankroll;
    hide IsPeak;
    hide IsDrawdown;
  }

  lemma StepKept(t: ValidTerms, book: Book, results: Results, ids: seq<int>, s: Path)
    requires Keyed(book) && Sorted(Ranks(book), ids) && Distinct(ids) && ids != []
    requires forall i :: 0 <= i < |ids| ==> ids[i] in book
    requires Kept(t, book, results, s) && Walked(book, s.ledger, ids[..|ids| - 1])
    requires forall k :: k in s.open ==> k in ids[..|ids| - 1]
    ensures var c := book[ids[|ids| - 1]];
            var r := Consider(t, SettleDue(t, s, Some(c.executionAt)), c, results);
            Kept(t, book, results, r) && Walked(book, r.ledger, ids)
  {
    hide Safe;
    hide Timely;
    hide Booked;
    hide Consider;
    hide SettleDue;
    hide Sorted;
    hide Walked;
    hide Next;
    hide Dated;
    var last := |ids| - 1;
    var c := book[ids[last]];
    var d := SettleDue(t, s, Some(c.executionAt));
    KeptDated(t, book, results, s);
    DueRows(t, book, s, c.executionAt);
    SettleDueKept(t, book, results, s, Some(c.executionAt));
    SettleDueKeeps(t, s, Some(c.executionAt));
    KeptDated(t, book, results, d);
    assert ids[last] !in ids[..last];
    assert c.identity == ids[last];
    forall i | |s.ledger| <= i < |d.ledger|
      ensures d.ledger[i].Settlement? && d.ledger[i].identity in ids[..|ids| - 1] && d.ledger[i].at <= c.executionAt
    {
      assert d.ledger[i].identity in s.open;
    }
    NextInLine(book, s.ledger, d.ledger, ids);
    ConsiderKept(t, book, results, d, c);
    OneRowAtMost(t, d, c, results);
    WalkedOn(book, s.ledger, d.ledger, Consider(t, d, c, results).ledger, ids);
  }

  lemma KeptDated(t: ValidTerms, book: Book, results: Results, s: Path)
    requires Kept(t, book, results, s)
    ensures Dated(book, s.ledger) && forall k :: k in s.open ==> k in book && s.open[k].candidate == book[k]
  {
    hide Safe;
    hide Booked;
    hide Dated;
    BookedMeans(t, book, results, s);
  }

  lemma OneRowAtMost(t: ValidTerms, s: Path, c: Candidate, results: Results)
    ensures var rows := Consider(t, s, c, results).ledger;
            rows == s.ledger || (|rows| == |s.ledger| + 1 && rows[..|s.ledger|] == s.ledger
                                 && rows[|s.ledger|].identity == c.identity && !rows[|s.ledger|].Settlement?)
  {
    hide Quoted;
    hide RequestFor;
  }

  lemma WalkedOn(book: Book, rows: seq<Entry>, now: seq<Entry>, more: seq<Entry>, ids: seq<int>)
    requires ids != [] && (forall i :: 0 <= i < |ids| ==> ids[i] in book) && Keyed(book) && Dated(book, now)
    requires Walked(book, rows, ids[..|ids| - 1]) && |rows| <= |now| && now[..|rows|] == rows
    requires Next(book, now, book[ids[|ids| - 1]])
    requires forall i :: |rows| <= i < |now| ==> now[i].identity in ids[..|ids| - 1]
    requires more == now || (|more| == |now| + 1 && more[..|now|] == now && more[|now|].identity == ids[|ids| - 1]
                             && !more[|now|].Settlement?)
    ensures Walked(book, more, ids)
  {
    hide Preferred;
    var last := |ids| - 1;
    forall i | 0 <= i < |more|
      ensures more[i].identity in ids && (more[i].Settlement? ==> more[i].at <= book[ids[last]].executionAt)
    {
      if i < |now| {
        assert more[i] == now[i];
        if i < |rows| { assert now[i] == rows[i]; }
        assert now[i].identity in ids[..last];
      }
    }
  }

  /**
    The ledger of every whole study path. Candidates are answered from the best to the worst at each instant; nothing is
    settled before its time or overtaken by what comes later; every placement is settled exactly once, by the result of its
    place, and pays what it staked; the memory passes from each settlement to the next row; the peak and the drawdown are
    those of the equities recorded; and the path is active until the first row that stops it.
   */
  lemma StudyTells(t: ValidTerms, book: Book, results: Results)
    requires Keyed(book)
    ensures var s := Complete(t, book, results);
            && Dated(book, s.ledger) && BestFirst(book, s.ledger) && NotEarly(book, s.ledger) && NotLate(book, s.ledger)
            && AllPaid(t, book, results, s.ledger) && SettledOnce(s.ledger, map[])
            && (forall p :: 0 <= p < |s.ledger| && s.ledger[p].Placement? ==> SettledLater(s.ledger, p))
            && Remembered(t, s.ledger) && s.state == Memory(t, s.ledger)
            && IsPeak(Equities(s.ledger), s.peak) && IsDrawdown(Equities(s.ledger), s.drawdown)
            && Stopped(s.ledger, s.active, s.ruin, s.termination)
  {
    hide Walk;
    hide SettleDue;
    hide Safe;
    RanksListed(book);
    var ids := Order(Ranks(book));
    WalkKept(t, book, results, ids);
    SettleDueKept(t, book, results, Walk(t, book, results, ids), None);
    SettleDueKeeps(t, Walk(t, book, results, ids), None);
    KeptTells(t, book, results, Complete(t, book, results));
  }

  lemma KeptTells(t: ValidTerms, book: Book, results: Results, s: Path)
    requires Kept(t, book, results, s) && forall k :: k !in s.open
    ensures Dated(book, s.ledger) && BestFirst(book, s.ledger) && NotEarly(book, s.ledger) && NotLate(book, s.ledger)
    ensures AllPaid(t, book, results, s.ledger) && SettledOnce(s.ledger, map[])
    ensures forall p :: 0 <= p < |s.ledger| && s.ledger[p].Placement? ==> SettledLater(s.ledger, p)
    ensures Remembered(t, s.ledger) && s.state == Memory(t, s.ledger)
    ensures IsPeak(Equities(s.ledger), s.peak) && IsDrawdown(Equities(s.ledger), s.drawdown)
    ensures Stopped(s.ledger, s.active, s.ruin, s.termination)
  {
    hide Safe;
    hide BestFirst;
    hide NotEarly;
    hide NotLate;
    hide Dated;
    hide AllPaid;
    hide Remembered;
    hide Memory;
    hide IsPeak;
    hide IsDrawdown;
    hide Stopped;
    hide SettledLater;
    hide OpenTickets;
  }
}

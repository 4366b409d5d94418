/**
  The study path of football/capital/studies.py: a second event-time engine,
  which settles what is due before each candidate and never retries. `Walk`
  says what the path does; the class `StudyRun` does it on its fields.
 */
module Study {
  import opened Common
  import opened Policies
  import opened Decisions
  import opened Ordering

  const INITIAL: real := 100.0

  datatype Candidate = Candidate(
    identity: int,
    kickoff: int,
    executionAt: int,
    settlementAt: int,
    action: Option<Side>,
    price: Option<real>,
    probability: Option<real>)
  {
    /** Best expected value first within one execution time; without price or probability, last. */
    function Rank(): Rank {
      if price.Some? && probability.Some? then
        Ordering.Rank(-(probability.value * price.value - 1.0), kickoff, executionAt)
      else
        Ordering.Rank(0.0, kickoff, executionAt, true)
    }
  }

  datatype Fate = Won | Lost | Void

  /** How the n-th placed candidate ends: its canonical result, or a draw. */
  type Results = (Candidate, nat) -> Fate

  datatype Terms = Terms(policy: Policy, maxLanes: int, haircut: real) {
    predicate Valid() {
      policy.Valid() && 0.0 <= haircut < 1.0
    }
  }

  type ValidTerms = t: Terms | t.Valid() witness Terms(FlatUnit(1.0), 1, 0.0)

  datatype Ticket = Ticket(candidate: Candidate, request: StakeRequest, price: Price, fate: Fate)

  datatype Why = NoBetTaken | NoExecutionPrice | ExpiredCapacity | Ineligible | InsufficientAvailableCash

  datatype Entry =
    | Settlement(identity: int, at: int, fate: Fate, pnl: real, equity: real, reserved: real,
                 stateBefore: PolicyState, stateAfter: PolicyState, ruin: bool, termination: Termination)
    | NotPlaced(identity: int, why: Why, termination: Termination)
    | Placement(identity: int, at: int, price: real, request: StakeRequest, equity: real, reservedBefore: real,
                reservedAfter: real, stateBefore: PolicyState)

  datatype Path = Path(
    equity: real,
    peak: real,
    drawdown: real,
    reserved: real,
    state: PolicyState,
    open: map<int, Ticket>,
    ledger: seq<Entry>,
    wins: nat,
    losses: nat,
    voids: nat,
    active: bool,
    ruin: bool,
    termination: Termination,
    actions: nat)

  function Begin(t: ValidTerms): Path {
    Path(INITIAL, INITIAL, 0.0, 0.0, t.policy.InitialState(), map[], [], 0, 0, 0, true, false, Running, 0)
  }

  // ---- settlement ----------------------------------------------------------------------

  function TicketPnl(k: Ticket): real {
    if k.fate == Void then 0.0 else Pnl(k.request.applied, k.price, k.fate == Won)
  }

  /** The worst fall from the peak so far. */
  function Fall(drawdown: real, peak: real, equity: real): real {
    if 0.0 < peak then Max(drawdown, (peak - equity) / peak) else drawdown
  }

  function Counted(n: nat, fate: Fate, wanted: Fate): nat {
    if fate == wanted then n + 1 else n
  }

  /** Release the reserve, settle the policy unless void, and book the result. */
  function Realize(t: ValidTerms, s: Path, id: int): Path
    requires id in s.open
  {
    var k := s.open[id];
    var equity := s.equity + TicketPnl(k);
    var peak := Max(s.peak, equity);
    s.(open := s.open - {id}, reserved := s.reserved - k.request.applied, equity := equity, peak := peak,
       drawdown := Fall(s.drawdown, peak, equity),
       state := if k.fate == Void then s.state else t.policy.Settle(s.state, k.request, k.fate == Won).0,
       wins := Counted(s.wins, k.fate, Won), losses := Counted(s.losses, k.fate, Lost), voids := Counted(s.voids, k.fate, Void))
  }

  function Deplete(s: Path): Path {
    if s.equity <= 0.0 && !s.ruin then s.(active := false, ruin := true, termination := BankrollDepleted) else s
  }

  function SettleOne(t: ValidTerms, s: Path, id: int): Path
    requires id in s.open
  {
    var k := s.open[id];
    var d := Deplete(Realize(t, s, id));
    d.(ledger := d.ledger + [Settlement(id, k.candidate.settlementAt, k.fate, TicketPnl(k), d.equity, d.reserved, s.state,
                                        d.state, d.ruin, d.termination)])
  }

  ghost predicate Listed(ids: seq<int>, open: map<int, Ticket>) {
    Distinct(ids) && forall i :: 0 <= i < |ids| ==> ids[i] in open
  }

  ghost function SettleEach(t: ValidTerms, s: Path, ids: seq<int>): (r: Path)
    requires Listed(ids, s.open)
    ensures r.open == s.open - (set k | k in ids)
  {
    if ids == [] then s
    else
      var last := |ids| - 1;
      var r := SettleEach(t, s, ids[..last]);
      assert ids[last] !in ids[..last];
      SettleOne(t, r, ids[last])
  }

  /** What is due by `until`, or everything when no limit is given. */
  function DueRanks(s: Path, until: Option<int>): map<int, Rank> {
    map k | k in s.open && (until.Some? ==> s.open[k].candidate.settlementAt <= until.value) ::
      Ordering.Rank(0.0, s.open[k].candidate.settlementAt)
  }

  lemma EachNone(t: ValidTerms, s: Path, ids: seq<int>)
    ensures Listed(ids[..0], s.open) && SettleEach(t, s, ids[..0]) == s
  {
    assert ids[..0] == [];
  }

  lemma EachNext(t: ValidTerms, s: Path, ids: seq<int>, i: nat)
    requires Listed(ids, s.open) && i < |ids|
    ensures Listed(ids[..i], s.open) && Listed(ids[..i + 1], s.open)
    ensures ids[i] in SettleEach(t, s, ids[..i]).open
    ensures SettleEach(t, s, ids[..i + 1]) == SettleOne(t, SettleEach(t, s, ids[..i]), ids[i])
  {
    hide SettleOne;
    assert ids[..i + 1][..i] == ids[..i];
    assert ids[i] !in ids[..i];
  }

  lemma DueListed(s: Path, until: Option<int>)
    ensures Listed(Order(DueRanks(s, until)), s.open)
  {
    var due := Order(DueRanks(s, until));
    forall i | 0 <= i < |due|
      ensures due[i] in s.open
    {
      assert due[i] in DueRanks(s, until);
    }
  }

  ghost function SettleDue(t: ValidTerms, s: Path, until: Option<int>): Path {
    DueListed(s, until);
    SettleEach(t, s, Order(DueRanks(s, until)))
  }

  // ---- placement -----------------------------------------------------------------------

  function Refuse(s: Path, id: int, why: Why): Path {
    s.(ledger := s.ledger + [NotPlaced(id, why, Running)])
  }

  function Stop(s: Path, id: int, reason: Termination): Path {
    s.(active := false, ruin := true, termination := reason, ledger := s.ledger + [NotPlaced(id, Ineligible, reason)])
  }

  function Open(s: Path, c: Candidate, price: Price, request: StakeRequest, results: Results): Path {
    s.(reserved := s.reserved + request.applied,
       ledger := s.ledger + [Placement(c.identity, c.executionAt, price, request, s.equity, s.reserved,
                                       s.reserved + request.applied, s.state)],
       open := s.open[c.identity := Ticket(c, request, price, results(c, s.actions))],
       actions := s.actions + 1)
  }

  function Quoted(t: ValidTerms, price: Price): Price {
    HaircutValid(price, t.haircut);
    1.0 + (price - 1.0) * (1.0 - t.haircut)
  }

  function RequestFor(t: ValidTerms, s: Path, c: Candidate, price: Price): StakeRequest {
    t.policy.Request(price, c.probability.GetOr(0.0), s.equity, s.state)
  }

  function Decide(s: Path, c: Candidate, price: Price, request: StakeRequest, results: Results): Path {
    if request.termination != Running then Stop(s, c.identity, request.termination)
    else if request.requested <= 0.0 then Refuse(s, c.identity, Ineligible)
    else if request.requested > s.equity - s.reserved then Refuse(s, c.identity, InsufficientAvailableCash)
    else Open(s, c, price, request, results)
  }

  /** One candidate's only chance, once everything due by then is settled. */
  function Consider(t: ValidTerms, s: Path, c: Candidate, results: Results): Path {
    if !s.active then s
    else if c.action.None? then Refuse(s, c.identity, NoBetTaken)
    else if c.price.None? || c.price.value <= 1.0 then Refuse(s, c.identity, NoExecutionPrice)
    else if |s.open| >= t.maxLanes then Refuse(s, c.identity, ExpiredCapacity)
    else
      var price := Quoted(t, c.price.value);
      Decide(s, c, price, RequestFor(t, s, c, price), results)
  }

  type Book = map<int, Candidate>

  ghost function Walk(t: ValidTerms, book: Book, results: Results, ids: seq<int>): Path
    requires forall i :: 0 <= i < |ids| ==> ids[i] in book
  {
    if ids == [] then Begin(t)
    else
      var c := book[ids[|ids| - 1]];
      Consider(t, SettleDue(t, Walk(t, book, results, ids[..|ids| - 1]), Some(c.executionAt)), c, results)
  }

  function Ranks(book: Book): map<int, Rank> {
    map k | k in book :: book[k].Rank()
  }

  lemma WalkNone(t: ValidTerms, book: Book, results: Results, ids: seq<int>)
    requires forall i :: 0 <= i < |ids| ==> ids[i] in book
    ensures Walk(t, book, results, ids[..0]) == Begin(t)
  {
    assert ids[..0] == [];
  }

  lemma WalkNext(t: ValidTerms, book: Book, results: Results, ids: seq<int>, i: nat)
    requires i < |ids| && forall j :: 0 <= j < |ids| ==> ids[j] in book
    ensures var c := book[ids[i]];
            Walk(t, book, results, ids[..i + 1]) ==
            Consider(t, SettleDue(t, Walk(t, book, results, ids[..i]), Some(c.executionAt)), c, results)
  {
    hide Consider;
    hide SettleDue;
    assert ids[..i + 1][..i] == ids[..i];
  }

  lemma RanksListed(book: Book)
    ensures forall i :: 0 <= i < |Order(Ranks(book))| ==> Order(Ranks(book))[i] in book
  {
    forall i | 0 <= i < |Order(Ranks(book))|
      ensures Order(Ranks(book))[i] in book
    {
      assert Order(Ranks(book))[i] in Ranks(book);
    }
  }

  ghost function Complete(t: ValidTerms, book: Book, results: Results): Path {
    RanksListed(book);
    SettleDue(t, Walk(t, book, results, Order(Ranks(book))), None)
  }

  // ---- the loops -----------------------------------------------------------------------

  class StudyRun {
    const terms: ValidTerms
    const results: Results
    var equity: real
    var peak: real
    var drawdown: real
    var reserved: real
    var state: PolicyState
    var openRows: map<int, Ticket>
    var ledger: seq<Entry>
    var wins: nat
    var losses: nat
    var voids: nat
    var active: bool
    var ruin: bool
    var termination: Termination
    var actions: nat

    function View(): Path
      reads this
    {
      Path(equity, peak, drawdown, reserved, state, openRows, ledger, wins, losses, voids, active, ruin, termination, actions)
    }

    constructor (t: ValidTerms, r: Results)
      ensures terms == t && results == r && View() == Begin(t)
    {
      terms, results := t, r;
      equity, peak, drawdown, reserved, state := INITIAL, INITIAL, 0.0, 0.0, t.policy.InitialState();
      openRows, ledger, wins, losses, voids := map[], [], 0, 0, 0;
      active, ruin, termination, actions := true, false, Running, 0;
    }

    method CountRow(fate: Fate)
      modifies `wins, `losses, `voids
      ensures wins == Counted(old(wins), fate, Won) && losses == Counted(old(losses), fate, Lost)
      ensures voids == Counted(old(voids), fate, Void)
    {
      match fate
      case Void => voids := voids + 1;
      case Won => wins := wins + 1;
      case Lost => losses := losses + 1;
    }

    /** Book the result of a ticket and settle the policy, unless it is void. */
    method BookResult(k: Ticket)
      modifies `equity, `state
      ensures equity == old(equity) + TicketPnl(k)
      ensures state == if k.fate == Void then old(state) else terms.policy.Settle(old(state), k.request, k.fate == Won).0
    {
      hide Policy.Settle;
      hide Pnl;
      if k.fate != Void {
        equity := equity + Pnl(k.request.applied, k.price, k.fate == Won);
        state := terms.policy.Settle(state, k.request, k.fate == Won).0;
      }
    }

    method RealizeRow(id: int)
      requires id in openRows
      modifies this
      ensures View() == Realize(terms, old(View()), id)
    {
      hide Policy.Settle;
      hide TicketPnl;
      hide Counted;
      hide Fall;
      hide Max;
      var k := openRows[id];
      openRows := openRows - {id};
      reserved := reserved - k.request.applied;
      CountRow(k.fate);
      BookResult(k);
      peak := Max(peak, equity);
      drawdown := Fall(drawdown, peak, equity);
    }

    method SettleRow(id: int)
      requires id in openRows
      modifies this
      ensures View() == SettleOne(terms, old(View()), id)
    {
      hide Realize;
      hide TicketPnl;
      var k, before := openRows[id], state;
      RealizeRow(id);
      if equity <= 0.0 && !ruin {
        active, ruin, termination := false, true, BankrollDepleted;
      }
      var pnl := TicketPnl(k);
      ledger := ledger + [Settlement(id, k.candidate.settlementAt, k.fate, pnl, equity, reserved, before, state, ruin, termination)];
    }

    method SettleRows(ids: seq<int>)
      requires Listed(ids, openRows)
      modifies this
      ensures View() == SettleEach(terms, old(View()), ids)
    {
      hide SettleEach;
      hide SettleOne;
      hide Listed;
      ghost var was := View();
      EachNone(terms, was, ids);
      for i := 0 to |ids|
        invariant Listed(ids[..i], was.open)
        invariant View() == SettleEach(terms, was, ids[..i])
      {
        EachNext(terms, was, ids, i);
        SettleRow(ids[i]);
      }
      assert ids[..|ids|] == ids;
    }

    method SettleDueRows(until: Option<int>)
      modifies this
      ensures View() == SettleDue(terms, old(View()), until)
    {
      hide SettleEach;
      hide DueRanks;
      hide Listed;
      var due := Sort(DueRanks(View(), until));
      DueListed(View(), until);
      SettleRows(due);
    }

    method ConsiderCandidate(c: Candidate)
      modifies this
      ensures View() == Consider(terms, old(View()), c, results)
    {
      hide Policy.Request;
      hide Decide;
      if !active {
        return;
      }
      if c.action.None? {
        ledger := ledger + [NotPlaced(c.identity, NoBetTaken, Running)];
        return;
      }
      if c.price.None? || c.price.value <= 1.0 {
        ledger := ledger + [NotPlaced(c.identity, NoExecutionPrice, Running)];
        return;
      }
      if |openRows| >= terms.maxLanes {
        ledger := ledger + [NotPlaced(c.identity, ExpiredCapacity, Running)];
        return;
      }
      var price := Quoted(terms, c.price.value);
      hide Quoted;
      DecideCandidate(c, price, terms.policy.Request(price, c.probability.GetOr(0.0), equity, state));
    }

    method DecideCandidate(c: Candidate, price: Price, request: StakeRequest)
      modifies this
      ensures View() == Decide(old(View()), c, price, request, results)
    {
      if request.termination != Running {
        active, ruin, termination := false, true, request.termination;
        ledger := ledger + [NotPlaced(c.identity, Ineligible, request.termination)];
      } else if request.requested <= 0.0 {
        ledger := ledger + [NotPlaced(c.identity, Ineligible, Running)];
      } else if request.requested > equity - reserved {
        ledger := ledger + [NotPlaced(c.identity, InsufficientAvailableCash, Running)];
      } else {
        ledger := ledger + [Placement(c.identity, c.executionAt, price, request, equity, reserved,
                                      reserved + request.applied, state)];
        reserved := reserved + request.applied;
        openRows := openRows[c.identity := Ticket(c, request, price, results(c, actions))];
        actions := actions + 1;
      }
    }

    method WalkThrough(book: Book, ids: seq<int>)
      requires View() == Begin(terms) && forall i :: 0 <= i < |ids| ==> ids[i] in book
      modifies this
      ensures View() == Walk(terms, book, results, ids)
    {
      hide Consider;
      hide SettleDue;
      hide Begin;
      hide Walk;
      WalkNone(terms, book, results, ids);
      for i := 0 to |ids|
        invariant View() == Walk(terms, book, results, ids[..i])
      {
        WalkNext(terms, book, results, ids, i);
        SettleDueRows(Some(book[ids[i]].executionAt));
        ConsiderCandidate(book[ids[i]]);
      }
      assert ids[..|ids|] == ids;
    }

    /** Walk through the candidates in order, then settle whatever is still open. */
    method RunPath(book: Book)
      requires View() == Begin(terms)
      modifies this
      ensures View() == Complete(terms, book, results)
    {
      hide Walk;
      hide SettleDue;
      var ids := Sort(Ranks(book));
      RanksListed(book);
      WalkThrough(book, ids);
      SettleDueRows(None);
    }
  }
}

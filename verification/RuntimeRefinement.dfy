/**
  The code settles from the policy memory stored when a position was placed.
  The event-time engine settles from the live memory. The two agree in every
  reachable run exactly when two recovery positions can never be open at once.
 */
module RuntimeRefinement {
  import opened Common
  import opened Policies
  import opened Decisions
  import opened Runtime
  import opened RuntimeSafety
  import Sums

  /** A settlement from the memory of the moment, as the event-time engine does it. */
  function SettleLive(c: Config, a: Account, id: int, o: Observation): (Account, Outcome)
    requires Sane(a)
  {
    if id !in a.positions then (a, Failed(UnknownPosition)) else SettleFrom(c, a, id, o, a.state)
  }

  function ApplyLive(c: Config, a: Account, op: Op): (Account, Outcome)
    requires Sane(a)
  {
    match op
    case PlaceOp(t) => Place(c, a, t)
    case SettleOp(id, o) => SettleLive(c, a, id, o)
  }

  lemma ApplyLiveSane(c: Config, a: Account, op: Op)
    requires Sane(a)
    ensures Sane(ApplyLive(c, a, op).0)
  {
    if op.PlaceOp? { PlaceSane(c, a, op.attempt); }
  }

  function RunLive(c: Config, ops: seq<Op>): (a: Account)
    ensures Sane(a)
  {
    if ops == [] then Opening(c)
    else
      var before := RunLive(c, ops[..|ops| - 1]);
      ApplyLiveSane(c, before, ops[|ops| - 1]);
      ApplyLive(c, before, ops[|ops| - 1]).0
  }

  /** Every open position remembers the memory of the moment. */
  ghost predicate Aligned(a: Account) {
    forall k :: k in a.positions && a.positions[k].fate == Open ==> a.positions[k].stateBefore == a.state
  }

  lemma AlignedStep(c: Config, a: Account, op: Op)
    requires Sane(a) && Aligned(a)
    ensures ApplyLive(c, a, op) == Apply(c, a, op)
  {
    hide Place;
    hide StateAfter;
    hide Book;
  }

  /** Two recovery positions can never be open at once. */
  predicate OneMemory(c: Config) {
    c.maxLanes <= 1 || !c.policy.IsRecovery()
  }

  lemma StatelessAligned(c: Config, a: Account)
    requires Kept(c, a) && !c.policy.IsRecovery()
    ensures Aligned(a)
  {
    forall k | k in a.positions
      ensures a.positions[k].stateBefore == a.state
    {
      assert Covered(c, a.positions[k]);
    }
  }

  lemma TwoMembers(s: set<int>, i: int, j: int)
    requires i in s && j in s && i != j
    ensures 2 <= |s|
  {
    var rest := s - {i};
    assert j in rest;
    assert |rest| == |s| - 1;
  }

  lemma OnlyOneOpen(positions: map<int, Position>, i: int, j: int)
    requires |OpenIds(positions)| <= 1 && i in OpenIds(positions) && j in OpenIds(positions)
    ensures i == j
  {
    if i != j {
      TwoMembers(OpenIds(positions), i, j);
    }
  }

  lemma SettleAligned(c: Config, a: Account, id: int, o: Observation)
    requires Kept(c, a) && c.maxLanes <= 1 && Aligned(a)
    ensures Sane(a) && Aligned(Settle(c, a, id, o).0)
  {
    KeptSane(c, a);
    var b := Settle(c, a, id, o).0;
    if b != a {
      hide StateAfter;
      forall k | k in b.positions && b.positions[k].fate == Open
        ensures false
      {
        assert id in OpenIds(a.positions);
        assert k in OpenIds(a.positions);
        OnlyOneOpen(a.positions, id, k);
      }
    }
  }

  lemma PlaceAligned(c: Config, a: Account, t: Attempt)
    requires Kept(c, a) && Aligned(a)
    ensures Aligned(Place(c, a, t).0)
  {
    hide Screen;
    hide Aligned;
    hide RequestFor;
    hide Answered;
    hide Restated;
    hide Solvent;
    if Screen(c, a, t).Some? {
      ScreenRestates(c, a, t);
      RestatedAligned(a, Screen(c, a, t).value.0, t.matchId);
    } else {
      ScreenedOut(c, a, t);
      AnsweredAligned(c, a, t, BasisOf(a, t), RequestFor(c, a, BasisOf(a, t)));
    }
  }

  lemma RestatedAligned(a: Account, b: Account, matchId: int)
    requires Aligned(a) && Restated(a, b, matchId)
    ensures Aligned(b)
  {
  }

  lemma AnsweredAligned(c: Config, a: Account, t: Attempt, basis: Basis, request: StakeRequest)
    requires Aligned(a)
    ensures Aligned(Answered(c, a, t, basis, request).0)
  {
  }

  lemma {:induction false} RunAligned(c: Config, ops: seq<Op>)
    requires c.Valid() && OneMemory(c)
    ensures Aligned(Run(c, ops))
  {
    RunKept(c, ops);
    if !c.policy.IsRecovery() {
      StatelessAligned(c, Run(c, ops));
    } else if ops != [] {
      var before, op := Run(c, ops[..|ops| - 1]), ops[|ops| - 1];
      RunKept(c, ops[..|ops| - 1]);
      RunAligned(c, ops[..|ops| - 1]);
      hide Kept;
      hide Aligned;
      hide Place;
      hide Settle;
      match op {
        case PlaceOp(t) => PlaceAligned(c, before, t);
        case SettleOp(id, o) => SettleAligned(c, before, id, o);
      }
    }
  }

  /** With one lane, or a policy without memory, the stored memory is the live one in every run. */
  lemma {:induction false} StoredIsLive(c: Config, ops: seq<Op>)
    requires c.Valid() && OneMemory(c)
    ensures RunLive(c, ops) == Run(c, ops)
  {
    hide Apply;
    hide ApplyLive;
    if ops != [] {
      var last := |ops| - 1;
      StoredIsLive(c, ops[..last]);
      RunAligned(c, ops[..last]);
      AlignedStep(c, Run(c, ops[..last]), ops[last]);
    }
  }

  // ---- when two recovery positions can be open at once ---------------------------------

  /** What a recovery policy asks for at the start of a sequence. */
  function FirstStake(p: Policy, price: Price): real
    requires p.IsRecovery()
  {
    if p.LegacyPartial? then p.target / (price - 1.0) else p.initialStake
  }

  /** A first bet can ever be placed. */
  predicate CanStart(c: Config) {
    c.policy.IsRecovery() ==> c.policy.LegacyPartial? || c.policy.initialStake <= c.initial
  }

  lemma FirstRequest(c: Config, price: Price, probability: real, equity: real)
    requires c.Valid() && c.policy.IsRecovery() && 0.0 < equity
    ensures var r := c.policy.Request(price, probability, equity, c.policy.InitialState());
            && r.termination == Running && r.requested == FirstStake(c.policy, price) && 0.0 < r.applied <= r.requested
            && r.target.Some? && r.step.Some?
  {
    RequestSound(c.policy, price, probability, equity, c.policy.InitialState());
    var r := c.policy.Request(price, probability, equity, c.policy.InitialState());
    if c.policy.LegacyPartial? {
      assert c.policy.target + c.policy.alpha * 0.0 == c.policy.target;
    }
  }

  function Offer(matchId: int, price: Price): Attempt {
    Attempt(matchId, 1, true, Basis(Some(Home), Some(price), Some(0), 0.0), None, 0, 0, 0)
  }

  /** A first bet on a new match will be placed. */
  ghost predicate Ready(c: Config, a: Account, matchId: int, price: Price) {
    && c.Valid() && c.policy.IsRecovery() && Kept(c, a) && a.active && a.state == c.policy.InitialState()
    && 0.0 < a.equity && matchId !in a.states && |OpenIds(a.positions)| < c.maxLanes
    && FirstStake(c.policy, price) <= a.equity - a.reserved
  }

  function FirstPosition(c: Config, a: Account, matchId: int, price: Price): Position {
    var basis := Offer(matchId, price).offered;
    Position(matchId, basis, c.policy.Request(price, 0.0, a.equity, a.state), a.state, a.state, Open, 0.0)
  }

  /** What a first bet changes. */
  ghost predicate Started(c: Config, a: Account, b: Account, matchId: int, price: Price) {
    var p := FirstPosition(c, a, matchId, price);
    && c.policy.IsRecovery() && Kept(c, b) && b.active == a.active && b.state == a.state && b.equity == a.equity && b.nextId == a.nextId + 1
    && b.reserved == a.reserved + p.request.applied && 0.0 < p.request.applied <= FirstStake(c.policy, price)
    && p.request.target.Some? && p.request.step.Some?
    && b.positions == a.positions[a.nextId := p]
    && (forall m :: m in b.states <==> m in a.states || m == matchId)
  }

  lemma Start(c: Config, a: Account, matchId: int, price: Price)
    requires Ready(c, a, matchId, price)
    ensures Started(c, a, Place(c, a, Offer(matchId, price)).0, matchId, price)
  {
    FirstRequest(c, price, 0.0, a.equity);
    PlaceKept(c, a, Offer(matchId, price));
    hide Policy.Request;
    hide Kept;
    hide OpenIds;
    hide FirstStake;
    var t := Offer(matchId, price);
    assert Screen(c, a, t) == None && BasisOf(a, t) == t.offered;
    AskedSound(c, a, t);
    hide Screen;
    assert RequestFor(c, a, t.offered) == FirstPosition(c, a, matchId, price).request;
    OpenKept(c, a, t, RequestFor(c, a, t.offered));
    assert Place(c, a, t) == OpenPosition(a, t, t.offered, RequestFor(c, a, t.offered));
    hide Place;
    hide Sound;
  }

  function Result(matchId: int, won: bool): Observation {
    Observation(matchId, false, Some(if won then Home else Away))
  }

  lemma RunMore(c: Config, ops: seq<Op>, op: Op)
    ensures Run(c, ops + [op]) == Apply(c, Run(c, ops), op).0
    ensures RunLive(c, ops + [op]) == ApplyLive(c, RunLive(c, ops), op).0
  {
    assert (ops + [op])[..|ops|] == ops;
  }

  /** Both runs have reached the same aligned account. */
  ghost predicate Together(c: Config, ops: seq<Op>, a: Account) {
    Run(c, ops) == a && RunLive(c, ops) == a && Aligned(a)
  }

  lemma StartTogether(c: Config, ops: seq<Op>, a: Account, matchId: int, price: Price) returns (more: seq<Op>, b: Account)
    requires Ready(c, a, matchId, price) && Together(c, ops, a)
    ensures Together(c, more, b) && Started(c, a, b, matchId, price)
  {
    var op := PlaceOp(Offer(matchId, price));
    Start(c, a, matchId, price);
    b := Place(c, a, Offer(matchId, price)).0;
    more := ops + [op];
    RunMore(c, ops, op);
    hide Place;
    hide Kept;
    hide FirstPosition;
    assert b.positions[a.nextId].stateBefore == a.state by { PositionStarts(c, a, matchId, price); }
  }

  lemma PositionStarts(c: Config, a: Account, matchId: int, price: Price)
    requires c.policy.IsRecovery()
    ensures var p := FirstPosition(c, a, matchId, price);
            p.stateBefore == a.state && p.fate == Open && p.matchId == matchId && p.basis.price == Some(price)
  {
  }

  /** What settling one position changes, whichever memory it starts from. */
  lemma Settled(c: Config, a: Account, id: int, o: Observation, before: PolicyState)
    requires Sane(a) && id in a.positions && a.positions[id].fate == Open && a.positions[id].request.applied <= a.reserved
    requires o.matchId == a.positions[id].matchId && !o.void
    ensures var p := a.positions[id];
            var won := p.basis.action == o.outcome;
            var d := SettleFrom(c, a, id, o, before).0;
            && d.equity == a.equity + Pnl(p.request.applied, p.basis.price.value, won)
            && d.reserved == a.reserved - p.request.applied
            && d.state == c.policy.Settle(before, Rebuilt(p.request), won).0
            && (0.0 < d.equity ==> d.active == a.active)
            && d.states == a.states && d.nextId == a.nextId
            && id in d.positions && d.positions[id].fate != Open
            && d.positions == a.positions[id := d.positions[id]]
  {
    hide Policy.Settle;
    hide Pnl;
  }

  lemma OneOpen(positions: map<int, Position>, id: int)
    requires forall k :: k in positions && positions[k].fate == Open ==> k == id
    ensures |OpenIds(positions)| <= 1
  {
    var ids := OpenIds(positions);
    forall k | k in ids
      ensures k in {id}
    {
      assert positions[k].fate == Open;
    }
    SubsetSize(ids, {id});
  }

  /** The account before its first bet, and after that bet has won. */
  ghost predicate Won(c: Config, d: Account, enough: real) {
    && Kept(c, d) && d.active && d.state == c.policy.InitialState() && d.reserved == 0.0 && c.initial + enough <= d.equity
    && (forall k :: k in d.positions ==> d.positions[k].fate != Open && k < d.nextId)
    && 2 !in d.states && 3 !in d.states
  }

  /** The only position wins: the sequence closes, and the bankroll is as large as the price makes it. */
  lemma WinOnce(c: Config, b: Account, price: Price, enough: real)
    requires c.Valid() && Started(c, Opening(c), b, 1, price) && 0.0 < enough
    requires enough <= b.positions[0].request.applied * (price - 1.0)
    ensures Sane(b) && Won(c, Settle(c, b, 0, Result(1, true)).0, enough)
  {
    hide Kept;
    hide Policy.Settle;
    hide Policy.Request;
    PositionStarts(c, Opening(c), 1, price);
    var p := b.positions[0];
    assert p == FirstPosition(c, Opening(c), 1, price);
    assert p.basis.action == Some(Home);
    hide FirstPosition;
    SettleKept(c, b, 0, Result(1, true));
    hide SettleFrom;
    Settled(c, b, 0, Result(1, true), p.stateBefore);
    WinResets(c.policy, p.stateBefore, Rebuilt(p.request));
    assert Settle(c, b, 0, Result(1, true)).0 == SettleFrom(c, b, 0, Result(1, true), p.stateBefore).0;
    hide Settle;
  }

  lemma WinResets(p: Policy, before: PolicyState, r: StakeRequest)
    requires p.IsRecovery() && before.Recovery?
    ensures p.Settle(before, r, true).0 == p.InitialState()
  {
  }

  lemma LossCounts(p: Policy, before: PolicyState, r: StakeRequest)
    requires p.IsRecovery() && before.Recovery?
    ensures var after := p.Settle(before, r, false).0;
            after.Recovery? && after.loss == before.loss + r.applied
  {
  }

  lemma TwoHeld(c: Config, a: Account, i: int, j: int)
    requires Kept(c, a) && i in OpenIds(a.positions) && j in OpenIds(a.positions) && i != j
    ensures a.positions[i].request.applied + a.positions[j].request.applied <= a.reserved
    ensures 0.0 < a.positions[i].request.applied && 0.0 < a.positions[j].request.applied
  {
    var held := Holdings(a.positions);
    Sums.TotalSplit(held, i);
    forall k | k in held
      ensures 0.0 <= held[k]
    {
      assert Covered(c, a.positions[k]);
    }
    Sums.TotalNonNegative(held - {i});
    assert j in held - {i};
  }

  /** A result that the position loses. */
  predicate Loses(p: Position, o: Observation) {
    o.matchId == p.matchId && !o.void && p.basis.action != o.outcome
  }

  /**
    Two recovery positions open at once, both lost: the code forgets the first
    loss, because it settles the second from the memory stored before either.
   */
  lemma LostUpdate(c: Config, a: Account, i: int, j: int, first: Observation, second: Observation)
    requires Kept(c, a) && c.policy.IsRecovery() && Aligned(a) && i != j
    requires i in OpenIds(a.positions) && Loses(a.positions[i], first)
    requires j in OpenIds(a.positions) && Loses(a.positions[j], second)
    ensures var b := Settle(c, a, i, first).0;
            && Sane(a) && Sane(b) && SettleLive(c, a, i, first) == Settle(c, a, i, first)
            && Settle(c, b, j, second).0.state.Loss() == a.state.Loss() + a.positions[j].request.applied
            && SettleLive(c, b, j, second).0.state.Loss() ==
               a.state.Loss() + a.positions[i].request.applied + a.positions[j].request.applied
            && Settle(c, b, j, second).0.state.Loss() < SettleLive(c, b, j, second).0.state.Loss()
  {
    KeptSane(c, a);
    TwoHeld(c, a, i, j);
    assert Covered(c, a.positions[i]) && Covered(c, a.positions[j]);
    hide Kept;
    hide Policy.Settle;
    var pi, pj := a.positions[i], a.positions[j];
    Settled(c, a, i, first, pi.stateBefore);
    LossCounts(c.policy, pi.stateBefore, Rebuilt(pi.request));
    var b := Settle(c, a, i, first).0;
    SettleSane(c, a, i, first);
    hide SettleFrom;
    assert b.positions[j] == pj;
    Settled(c, b, j, second, pj.stateBefore);
    LossCounts(c.policy, pj.stateBefore, Rebuilt(pj.request));
    Settled(c, b, j, second, b.state);
    LossCounts(c.policy, b.state, Rebuilt(pj.request));
  }

  // ---- a run on which they differ --------------------------------------------------------

  /** A price at which a win brings at least `gain`. */
  function PriceFor(gain: real, stake: real): Price
    requires 0.0 < gain && 0.0 < stake
  {
    QuotientPositive(gain, stake);
    1.0 + gain / stake
  }

  /** What a first bet stakes; it does not depend on the price, except for a partial policy. */
  function FirstApplied(c: Config): real
    requires c.policy.IsRecovery() && !c.policy.LegacyPartial?
  {
    c.policy.Request(2.0, 0.0, c.initial, c.policy.InitialState()).applied
  }

  lemma FirstAppliedFixed(c: Config, price: Price)
    requires c.Valid() && c.policy.IsRecovery() && !c.policy.LegacyPartial?
    ensures c.policy.Request(price, 0.0, c.initial, c.policy.InitialState()).applied == FirstApplied(c)
    ensures 0.0 < FirstApplied(c)
  {
    FirstRequest(c, price, 0.0, c.initial);
    hide Policy.Bound;
  }

  /** Prices for the opening win and for the two bets after it, and what the win brings. */
  lemma Prices(c: Config) returns (winning: Price, later: Price, gain: real)
    requires c.Valid() && c.policy.IsRecovery() && CanStart(c)
    ensures 0.0 < gain && FirstStake(c.policy, winning) <= c.initial
    ensures gain <= c.policy.Request(winning, 0.0, c.initial, c.policy.InitialState()).applied * (winning - 1.0)
    ensures 2.0 * FirstStake(c.policy, later) <= c.initial + gain
  {
    if c.policy.LegacyPartial? {
      var target, half := c.policy.target, c.initial / 2.0;
      later := PriceFor(target, half);
      winning, gain := later, target;
      QuotientPositive(target, half);
      QuotientPositive(target, target / half);
      assert target / (target / half) == half by { Inverse(target, half); }
      FirstRequest(c, winning, 0.0, c.initial);
      assert c.policy.alpha * 0.0 == 0.0;
    } else {
      gain, later := 2.0 * c.policy.initialStake, 2.0;
      FirstAppliedFixed(c, 2.0);
      winning := PriceFor(gain, FirstApplied(c));
      FirstAppliedFixed(c, winning);
      hide FirstApplied;
      QuotientPositive(gain, FirstApplied(c));
    }
  }

  lemma Inverse(n: real, d: real)
    requires 0.0 < n && 0.0 < d
    ensures 0.0 < n / d && n / (n / d) == d
  {
    var q := n / d;
    QuotientPositive(n, d);
    assert q * d == n;
    assert (n / q) * q == n;
    assert (n / q - d) * q == 0.0;
  }

  lemma ReadyOpening(c: Config, price: Price)
    requires c.Valid() && c.policy.IsRecovery() && 2 <= c.maxLanes && FirstStake(c.policy, price) <= c.initial
    ensures Ready(c, Opening(c), 1, price) && Aligned(Opening(c))
  {
    OpeningKept(c);
    OneOpen(Opening(c).positions, 0);
    hide Kept;
    hide FirstStake;
  }

  lemma ReadyWon(c: Config, d: Account, price: Price)
    requires c.Valid() && c.policy.IsRecovery() && 2 <= c.maxLanes && Won(c, d, 0.0) && FirstStake(c.policy, price) <= d.equity
    ensures Ready(c, d, 2, price)
  {
    OneOpen(d.positions, 0);
    hide Kept;
    hide FirstStake;
  }

  lemma ReadyNext(c: Config, d: Account, b: Account, price: Price)
    requires c.Valid() && c.policy.IsRecovery() && 2 <= c.maxLanes && Won(c, d, 0.0) && 2.0 * FirstStake(c.policy, price) <= d.equity
    requires Started(c, d, b, 2, price)
    ensures Ready(c, b, 3, price)
  {
    OneOpen(b.positions, d.nextId);
    hide Kept;
    hide FirstStake;
    hide FirstPosition;
  }

  lemma WonAligned(c: Config, d: Account, enough: real)
    requires Won(c, d, enough) && 0.0 < enough
    ensures Aligned(d) && Won(c, d, 0.0)
  {
    hide Kept;
  }

  lemma StartedStake(c: Config, b: Account, price: Price, gain: real)
    requires Started(c, Opening(c), b, 1, price)
    requires gain <= c.policy.Request(price, 0.0, c.initial, c.policy.InitialState()).applied * (price - 1.0)
    ensures 0 in b.positions && gain <= b.positions[0].request.applied * (price - 1.0)
  {
    hide Policy.Request;
    hide Kept;
  }

  /** Place one bet and win it. */
  lemma OpeningWin(c: Config) returns (ops: seq<Op>, d: Account, later: Price)
    requires c.Valid() && c.policy.IsRecovery() && CanStart(c) && 2 <= c.maxLanes
    ensures Together(c, ops, d) && Won(c, d, 0.0) && 2.0 * FirstStake(c.policy, later) <= d.equity
  {
    hide Kept;
    hide FirstStake;
    hide Policy.Request;
    hide Started;
    hide Ready;
    hide Settle;
    hide Apply;
    var winning, gain;
    winning, later, gain := Prices(c);
    var a := Opening(c);
    ReadyOpening(c, winning);
    var placed, b := StartTogether(c, [], a, 1, winning);
    StartedStake(c, b, winning, gain);
    WinOnce(c, b, winning, gain);
    var op := SettleOp(0, Result(1, true));
    AlignedStep(c, b, op);
    RunMore(c, placed, op);
    ops := placed + [op];
    d := Apply(c, b, op).0;
    WonByApply(c, b, gain);
    WonAligned(c, d, gain);
  }

  lemma WonByApply(c: Config, b: Account, gain: real)
    requires Sane(b) && Won(c, Settle(c, b, 0, Result(1, true)).0, gain)
    ensures Won(c, Apply(c, b, SettleOp(0, Result(1, true))).0, gain)
  {
    hide Settle;
  }

  /** What a first bet leaves open. */
  lemma StartedOpen(c: Config, a: Account, b: Account, matchId: int, price: Price)
    requires Started(c, a, b, matchId, price)
    ensures a.nextId in OpenIds(b.positions) && b.positions[a.nextId].matchId == matchId
    ensures b.positions[a.nextId].basis.action == Some(Home) && b.nextId == a.nextId + 1 && Kept(c, b)
    ensures forall k :: k in OpenIds(a.positions) && k != a.nextId ==> k in OpenIds(b.positions) && b.positions[k] == a.positions[k]
  {
    hide Kept;
  }

  /** Open two bets at once. */
  lemma TwoOpen(c: Config) returns (ops: seq<Op>, a: Account, i: int, j: int)
    requires c.Valid() && c.policy.IsRecovery() && CanStart(c) && 2 <= c.maxLanes
    ensures Together(c, ops, a) && Kept(c, a) && i != j
    ensures i in OpenIds(a.positions) && a.positions[i].matchId == 2 && a.positions[i].basis.action == Some(Home)
    ensures j in OpenIds(a.positions) && a.positions[j].matchId == 3 && a.positions[j].basis.action == Some(Home)
  {
    hide Kept;
    hide FirstStake;
    hide Started;
    hide Ready;
    var won, d, later := OpeningWin(c);
    i, j := d.nextId, d.nextId + 1;
    StakePositive(c, later);
    ReadyWon(c, d, later);
    var first, b := StartTogether(c, won, d, 2, later);
    StartedOpen(c, d, b, 2, later);
    ReadyNext(c, d, b, later);
    ops, a := StartTogether(c, first, b, 3, later);
    StartedOpen(c, b, a, 3, later);
  }

  lemma StakePositive(c: Config, price: Price)
    requires c.Valid() && c.policy.IsRecovery()
    ensures 0.0 < FirstStake(c.policy, price)
  {
    if c.policy.LegacyPartial? { QuotientPositive(c.policy.target, price - 1.0); }
  }

  /** With two lanes a recovery policy that can start at all has a run on which the stored memory is not the live one. */
  lemma Diverges(c: Config) returns (ops: seq<Op>)
    requires c.Valid() && c.policy.IsRecovery() && CanStart(c) && 2 <= c.maxLanes
    ensures RunLive(c, ops) != Run(c, ops)
  {
    var two, a, i, j := TwoOpen(c);
    hide Kept;
    hide Settle;
    hide SettleLive;
    var first, second := Result(2, false), Result(3, false);
    LostUpdate(c, a, i, j, first, second);
    RunMore(c, two, SettleOp(i, first));
    var more := two + [SettleOp(i, first)];
    RunMore(c, more, SettleOp(j, second));
    ops := more + [SettleOp(j, second)];
  }

  // ---- a policy that can never start -----------------------------------------------------

  /** Nothing has ever been placed. */
  ghost predicate Untouched(c: Config, a: Account) {
    && (forall k :: k !in a.positions) && a.equity == c.initial && a.reserved == 0.0 && a.state == c.policy.InitialState()
  }

  lemma PlaceUntouched(c: Config, a: Account, t: Attempt)
    requires c.Valid() && !CanStart(c) && Kept(c, a) && Untouched(c, a)
    ensures Untouched(c, Place(c, a, t).0)
  {
    if Screen(c, a, t).Some? {
      ScreenRestates(c, a, t);
    } else {
      ScreenedOut(c, a, t);
      var basis := BasisOf(a, t);
      hide Screen;
      hide Kept;
      FirstRequest(c, basis.price.value, basis.probability, a.equity);
      hide Policy.Request;
    }
  }

  lemma {:induction false} NeverStarts(c: Config, ops: seq<Op>)
    requires c.Valid() && !CanStart(c)
    ensures Untouched(c, Run(c, ops)) && RunLive(c, ops) == Run(c, ops)
  {
    if ops != [] {
      var before, op := Run(c, ops[..|ops| - 1]), ops[|ops| - 1];
      NeverStarts(c, ops[..|ops| - 1]);
      RunKept(c, ops[..|ops| - 1]);
      hide Kept;
      hide Place;
      if op.PlaceOp? {
        PlaceUntouched(c, before, op.attempt);
      }
    }
  }

  /** The exact condition under which settling from the stored memory is settling from the live one. */
  lemma StoredIsLiveIff(c: Config)
    requires c.Valid()
    ensures (forall ops :: RunLive(c, ops) == Run(c, ops)) <==> OneMemory(c) || !CanStart(c)
  {
    if OneMemory(c) {
      forall ops ensures RunLive(c, ops) == Run(c, ops) { StoredIsLive(c, ops); }
    } else if !CanStart(c) {
      forall ops ensures RunLive(c, ops) == Run(c, ops) { NeverStarts(c, ops); }
    } else {
      var ops := Diverges(c);
    }
  }
}

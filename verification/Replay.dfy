/** The batch replay of football/capital/replay.py: its ledger as a function, and its loops against it. */
module Replay {
  import opened Common
  import opened Policies
  import opened Decisions

  datatype Row = Row(
    batch: nat,
    request: StakeRequest,
    before: real,
    after: real,
    pnl: real,
    isBet: bool,
    won: bool,
    ruin: bool,
    state: PolicyState)

  datatype Run = Run(
    bankroll: real,
    state: PolicyState,
    ledger: seq<Row>,
    batches: nat,
    lengths: seq<nat>,
    incomplete: nat,
    terminated: bool)

  const ZeroRequest := StakeRequest(0.0, 0.0, NoBet, false, 0.0, Running, None, None)

  function Begin(p: Policy, initial: real): Run {
    Run(initial, p.InitialState(), [], 0, [], 0, false)
  }

  function Ask(p: Policy, bankroll: real, state: PolicyState, slot: Option<Bet>): Option<StakeRequest> {
    match slot
    case Some(b) => Some(p.Request(b.price, b.probability, bankroll, state))
    case None => None
  }

  /** All requests of a batch are computed from the same bankroll and memory. */
  function Requests(p: Policy, bankroll: real, state: PolicyState, slots: Slots): (r: seq<Option<StakeRequest>>)
    ensures |r| == |slots|
  {
    seq(|slots|, i requires 0 <= i < |slots| => Ask(p, bankroll, state, slots[i]))
  }

  predicate Stops(requests: seq<Option<StakeRequest>>) {
    exists i :: 0 <= i < |requests| && requests[i].Some? && requests[i].value.termination != Running
  }

  function Exposure(requests: seq<Option<StakeRequest>>): real {
    if requests == [] then 0.0
    else
      var last := requests[|requests| - 1];
      Exposure(requests[..|requests| - 1]) + if last.Some? then last.value.requested else 0.0
  }

  function Won(slot: Option<Bet>): bool {
    slot.Some? && slot.value.won
  }

  /** A batch that stops the policy is recorded as asked, with nothing staked. */
  function StopRows(run: Run, slots: Slots, requests: seq<Option<StakeRequest>>): seq<Row>
    requires |slots| == |requests|
  {
    seq(|slots|, i requires 0 <= i < |slots| =>
      Row(run.batches + 1, requests[i].GetOr(ZeroRequest), run.bankroll, run.bankroll, 0.0,
          slots[i].Some?, Won(slots[i]), false, run.state))
  }

  function Unfunded(r: StakeRequest): StakeRequest {
    r.(applied := 0.0, shortfall := r.shortfall + r.applied, termination := InsufficientCapital)
  }

  function UnfundedRows(run: Run, slots: Slots, requests: seq<Option<StakeRequest>>): seq<Row>
    requires |slots| == |requests|
  {
    seq(|slots|, i requires 0 <= i < |slots| =>
      Row(run.batches + 1, Unfunded(requests[i].GetOr(ZeroRequest)), run.bankroll, run.bankroll, 0.0,
          slots[i].Some?, Won(slots[i]), slots[i].Some?, run.state))
  }

  /** One settled slot, and the batch settled so far. */
  datatype Entry = Entry(request: StakeRequest, pnl: real, state: PolicyState)
  datatype Settling = Settling(state: PolicyState, pnl: real, lengths: seq<nat>, incomplete: nat, entries: seq<Entry>)

  function SettleSlot(p: Policy, s: Settling, slot: Option<Bet>, request: Option<StakeRequest>): Settling {
    if slot.None? || request.None? then
      s.(entries := s.entries + [Entry(ZeroRequest, 0.0, s.state)])
    else
      var r := request.value;
      var pnl := Pnl(r.applied, slot.value.price, slot.value.won);
      var (state, closed) := p.Settle(s.state, r, slot.value.won);
      Settling(state, s.pnl + pnl,
               if closed.Some? then s.lengths + [closed.value] else s.lengths,
               s.incomplete + if closed.Some? && r.capHit && r.shortfall > 0.0 then 1 else 0,
               s.entries + [Entry(r, pnl, state)])
  }

  function SettleSlots(p: Policy, run: Run, slots: Slots, requests: seq<Option<StakeRequest>>): (s: Settling)
    requires |slots| == |requests|
    ensures |s.entries| == |slots|
  {
    if slots == [] then Settling(run.state, 0.0, run.lengths, run.incomplete, [])
    else
      var last := |slots| - 1;
      SettleSlot(p, SettleSlots(p, run, slots[..last], requests[..last]), slots[last], requests[last])
  }

  function SettledRows(run: Run, slots: Slots, s: Settling): seq<Row>
    requires |slots| == |s.entries|
  {
    var after := run.bankroll + s.pnl;
    seq(|slots|, i requires 0 <= i < |slots| =>
      var e := s.entries[i];
      var ruin := after <= 0.0 && slots[i].Some?;
      Row(run.batches + 1, if ruin then e.request.(termination := BankrollDepleted) else e.request,
          run.bankroll, after, e.pnl, slots[i].Some?, Won(slots[i]), ruin, e.state))
  }

  /** One batch: stop, fail for lack of capital, or settle everything together. */
  function ReplayBatch(p: Policy, run: Run, slots: Slots): Run {
    if run.terminated then run
    else
      var requests := Requests(p, run.bankroll, run.state, slots);
      if Stops(requests) then
        run.(ledger := run.ledger + StopRows(run, slots, requests), batches := run.batches + 1, terminated := true)
      else if Exposure(requests) > run.bankroll then
        run.(ledger := run.ledger + UnfundedRows(run, slots, requests), batches := run.batches + 1, terminated := true)
      else
        var s := SettleSlots(p, run, slots, requests);
        Run(run.bankroll + s.pnl, s.state, run.ledger + SettledRows(run, slots, s), run.batches + 1,
            s.lengths, s.incomplete, run.bankroll + s.pnl <= 0.0)
  }

  function ReplayAll(p: Policy, initial: real, batches: seq<Slots>): Run {
    if batches == [] then Begin(p, initial)
    else ReplayBatch(p, ReplayAll(p, initial, batches[..|batches| - 1]), batches[|batches| - 1])
  }

  function AllSlots(batches: seq<seq<Decision>>): seq<Slots>
    requires forall i, j :: 0 <= i < |batches| && 0 <= j < |batches[i]| ==> Decisions.Priced(batches[i][j])
  {
    seq(|batches|, i requires 0 <= i < |batches| =>
      (assert forall d :: d in batches[i] ==> Decisions.Priced(d); SlotsOf(batches[i])))
  }

  // ---- the loops -------------------------------------------------------------------

  method AskAll(p: Policy, bankroll: real, state: PolicyState, slots: Slots) returns (requests: seq<Option<StakeRequest>>)
    ensures requests == Requests(p, bankroll, state, slots)
  {
    ghost var all := Requests(p, bankroll, state, slots);
    requests := [];
    for i := 0 to |slots|
      invariant requests == all[..i]
    {
      assert all[..i + 1] == all[..i] + [Ask(p, bankroll, state, slots[i])];
      match slots[i] {
        case None =>
          requests := requests + [None];
        case Some(b) =>
          requests := requests + [Some(p.Request(b.price, b.probability, bankroll, state))];
      }
    }
  }

  method TotalExposure(requests: seq<Option<StakeRequest>>) returns (exposure: real)
    ensures exposure == Exposure(requests)
  {
    exposure := 0.0;
    for i := 0 to |requests|
      invariant exposure == Exposure(requests[..i])
    {
      assert requests[..i + 1][..i] == requests[..i];
      if requests[i].Some? {
        exposure := exposure + requests[i].value.requested;
      }
    }
    assert requests[..|requests|] == requests;
  }

  method SettleAll(p: Policy, run: Run, slots: Slots, requests: seq<Option<StakeRequest>>) returns (s: Settling)
    requires |slots| == |requests|
    ensures s == SettleSlots(p, run, slots, requests)
  {
    s := Settling(run.state, 0.0, run.lengths, run.incomplete, []);
    for i := 0 to |slots|
      invariant s == SettleSlots(p, run, slots[..i], requests[..i])
    {
      assert slots[..i + 1][..i] == slots[..i] && requests[..i + 1][..i] == requests[..i];
      s := SettleSlot(p, s, slots[i], requests[i]);
    }
    assert slots[..|slots|] == slots && requests[..|slots|] == requests;
  }

  method RunBatch(p: Policy, run: Run, slots: Slots) returns (next: Run)
    requires !run.terminated
    ensures next == ReplayBatch(p, run, slots)
  {
    hide Requests;
    hide Stops;
    hide Exposure;
    hide StopRows;
    hide UnfundedRows;
    hide SettleSlots;
    hide SettledRows;
    var requests := AskAll(p, run.bankroll, run.state, slots);
    var exposure := TotalExposure(requests);
    if Stops(requests) {
      next := run.(ledger := run.ledger + StopRows(run, slots, requests), batches := run.batches + 1, terminated := true);
    } else if exposure > run.bankroll {
      next := run.(ledger := run.ledger + UnfundedRows(run, slots, requests), batches := run.batches + 1, terminated := true);
    } else {
      var s := SettleAll(p, run, slots, requests);
      var bankroll := run.bankroll + s.pnl;
      next := Run(bankroll, s.state, run.ledger + SettledRows(run, slots, s), run.batches + 1, s.lengths, s.incomplete,
                  bankroll <= 0.0);
    }
  }

  method RunReplay(p: Policy, initial: real, batches: seq<Slots>) returns (run: Run)
    ensures run == ReplayAll(p, initial, batches)
  {
    hide ReplayBatch;
    run := Begin(p, initial);
    var i := 0;
    while i < |batches| && !run.terminated
      invariant 0 <= i <= |batches|
      invariant run == ReplayAll(p, initial, batches[..i])
    {
      assert batches[..i + 1][..i] == batches[..i];
      run := RunBatch(p, run, batches[i]);
      i := i + 1;
    }
    if i < |batches| {
      TerminatedStays(p, initial, batches, i, |batches|);
    }
    assert batches[..|batches|] == batches;
  }

  /** Once a replay has stopped, later batches leave it alone. */
  lemma {:induction false} TerminatedStays(p: Policy, initial: real, batches: seq<Slots>, i: nat, j: nat)
    requires i <= j <= |batches| && ReplayAll(p, initial, batches[..i]).terminated
    ensures ReplayAll(p, initial, batches[..j]) == ReplayAll(p, initial, batches[..i])
  {
    if i < j {
      TerminatedStays(p, initial, batches, i, j - 1);
      assert batches[..j][..j - 1] == batches[..j - 1];
    }
  }

  /** Replay a list of decisions, or say why that cannot be done honestly. */
  method ReplayDecisions(ds: seq<Decision>, p: Policy, initial: real) returns (r: Result<Run, Unavailable>)
    ensures initial <= 0.0 ==> r == Failure(InvalidInitialBankroll)
    ensures r.Success? <==>
              && 0.0 < initial
              && ((exists d :: d in ds && d.Actionable()) ==> exists d :: d in ds && d.Actionable() && d.outcome.Some?)
              && ValidateBasis(ds, p, true).None?
    ensures r.Success? ==>
              && (forall i, j :: 0 <= i < |GroupByTime(ds)| && 0 <= j < |GroupByTime(ds)[i]| ==>
                    Decisions.Priced(GroupByTime(ds)[i][j]))
              && r.value == ReplayAll(p, initial, AllSlots(GroupByTime(ds)))
  {
    if initial <= 0.0 {
      return Failure(InvalidInitialBankroll);
    }
    if (exists d :: d in ds && d.Actionable()) && !exists d :: d in ds && d.Actionable() && d.outcome.Some? {
      return Failure(InsufficientResolvedDecisions);
    }
    var flaw := ValidateBasis(ds, p, true);
    if flaw.Some? {
      return Failure(flaw.value);
    }
    SoundBatches(ds, p, true);
    var run := RunReplay(p, initial, AllSlots(GroupByTime(ds)));
    r := Success(run);
  }

  lemma SoundBatches(ds: seq<Decision>, p: Policy, requireOutcome: bool)
    requires ValidateBasis(ds, p, requireOutcome).None?
    ensures forall i, j :: 0 <= i < |GroupByTime(ds)| && 0 <= j < |GroupByTime(ds)[i]| ==>
              Decisions.Priced(GroupByTime(ds)[i][j])
  {
    NoFlaw(ds, p, requireOutcome);
    GroupedFrom(ds);
    forall i, j | 0 <= i < |GroupByTime(ds)| && 0 <= j < |GroupByTime(ds)[i]|
      ensures Decisions.Priced(GroupByTime(ds)[i][j])
    {
      var b := GroupByTime(ds)[i];
      assert b in GroupByTime(ds) && b[j] in b;
      assert Flaw(b[j], p, requireOutcome).None?;
    }
  }
}

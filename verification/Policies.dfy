/** The staking policies of football/capital/policies.py, over exact reals. */
module Policies {
  import opened Common

  /** Why a stake request was shaped the way it was. */
  datatype Reason = NoReason | NoBet | NoPositiveKellyEdge | CappedRecoveryShortfall | MaxRecoverySteps

  /** Why a path stops placing bets; `Running` is the empty reason. */
  datatype Termination = Running | RecoveryStepsExhausted | BankrollDepleted | InsufficientCapital

  datatype StakeRequest = StakeRequest(
    requested: real,
    applied: real,
    reason: Reason,
    capHit: bool,
    shortfall: real,
    termination: Termination,
    step: Option<nat>,
    target: Option<real>)

  function Plain(stake: real): StakeRequest {
    StakeRequest(stake, stake, NoReason, false, 0.0, Running, None, None)
  }

  /** The policy's own memory: nothing, or one recovery sequence in progress. */
  datatype PolicyState = Stateless | Recovery(target: Option<real>, loss: real, step: nat) {
    ghost predicate Ok() {
      Recovery? ==>
        && 0.0 <= loss
        && (target.Some? ==> 0.0 < target.value)
        && (target.None? ==> loss == 0.0 && step == 0)
    }

    function Loss(): real {
      if Recovery? then loss else 0.0
    }
  }

  datatype Policy =
    | FlatUnit(unit: real)
    | FixedFraction(fraction: real)
    | FixedTarget(target: real)
    | LegacyRecovery(initialStake: real)
    | LegacyCapped(initialStake: real, maxFraction: Option<real>, maxAbsolute: Option<real>, maxSteps: Option<nat>)
    | LegacyPartial(target: real, alpha: real)
    | FractionalKelly(share: real)
  {
    /** What the policy constructors demand of their configuration. */
    predicate Valid() {
      match this
      case FlatUnit(unit) => 0.0 < unit
      case FixedFraction(fraction) => 0.0 < fraction < 1.0
      case FixedTarget(target) => 0.0 < target
      case LegacyRecovery(initial) => 0.0 < initial
      case LegacyCapped(initial, fraction, absolute, steps) =>
        && 0.0 < initial
        && (fraction.Some? ==> 0.0 < fraction.value <= 1.0)
        && (absolute.Some? ==> 0.0 < absolute.value)
        && (steps.Some? ==> 1 <= steps.value)
        && (fraction.Some? || absolute.Some? || steps.Some?)
      case LegacyPartial(target, alpha) => 0.0 < target && 0.0 <= alpha <= 1.0
      case FractionalKelly(share) => 0.0 < share <= 1.0
    }

    predicate IsRecovery() {
      LegacyRecovery? || LegacyCapped? || LegacyPartial?
    }

    function InitialState(): PolicyState {
      if IsRecovery() then Recovery(None, 0.0, 0) else Stateless
    }

    ghost predicate Fits(state: PolicyState) {
      state.Ok() && (state.Recovery? <==> IsRecovery())
    }

    /** The stake proposed for one bet, from the bankroll and the policy memory. */
    function Request(price: real, probability: real, bankroll: real, state: PolicyState): StakeRequest
      requires 1.0 < price
    {
      match this
      case FlatUnit(unit) => Plain(unit)
      case FixedFraction(fraction) => Plain(fraction * bankroll)
      case FixedTarget(target) => Plain(target / (price - 1.0))
      case FractionalKelly(share) => KellyRequest(share, probability * price - 1.0, price - 1.0, bankroll)
      case LegacyRecovery(initial) => RecoveryRequest(initial, price - 1.0, Memory(state))
      case LegacyCapped(initial, _, _, steps) => CappedRequest(initial, Bound(bankroll), steps, price - 1.0, Memory(state))
      case LegacyPartial(target, alpha) => PartialRequest(target, alpha, price - 1.0, Memory(state))
    }

    /** The most a capped policy stakes, if it is bounded by an amount at all. */
    function Bound(bankroll: real): Option<real>
      requires LegacyCapped?
    {
      match (maxFraction, maxAbsolute)
      case (Some(f), Some(a)) => Some(Min(f * bankroll, a))
      case (Some(f), None) => Some(f * bankroll)
      case (None, bound) => bound
    }

    /** The policy memory after one bet is settled, and the length of a sequence that closed. */
    function Settle(state: PolicyState, request: StakeRequest, won: bool): (PolicyState, Option<nat>) {
      if IsRecovery() && state.Recovery? then
        if won then
          (InitialState(), request.step)
        else
          var target := if state.target.None? then request.target else state.target;
          (Recovery(target, state.loss + request.applied, request.step.GetOr(0)), None)
      else
        (state, None)
    }
  }

  /** The policy memory of a recovery policy; anything else reads as an empty sequence. */
  type Sequence = s: PolicyState | s.Recovery? witness Recovery(None, 0.0, 0)

  function Memory(state: PolicyState): Sequence {
    if state.Recovery? then state else Recovery(None, 0.0, 0)
  }

  function KellyRequest(share: real, edge: real, odds: real, bankroll: real): StakeRequest
    requires 0.0 < odds
  {
    if edge <= 0.0 then
      StakeRequest(0.0, 0.0, NoPositiveKellyEdge, false, 0.0, Running, None, None)
    else
      Plain(share * (edge / odds) * bankroll)
  }

  function RecoveryRequest(initial: real, odds: real, memory: Sequence): StakeRequest
    requires 0.0 < odds
  {
    var step := memory.step + 1;
    if memory.target.None? then
      StakeRequest(initial, initial, NoReason, false, 0.0, Running, Some(step), Some(initial * odds))
    else
      var requested := Ceiling((memory.target.value + memory.loss) / odds) as real;
      StakeRequest(requested, requested, NoReason, false, 0.0, Running, Some(step), memory.target)
  }

  function CappedRequest(initial: real, bound: Option<real>, steps: Option<nat>, odds: real, memory: Sequence): StakeRequest
    requires 0.0 < odds
  {
    var step := memory.step + 1;
    var target := if memory.target.None? then initial * odds else memory.target.value;
    var requested := if memory.target.None? then initial else (memory.target.value + memory.loss) / odds;
    if steps.Some? && steps.value < step then
      StakeRequest(requested, 0.0, MaxRecoverySteps, true, requested, RecoveryStepsExhausted, Some(step), Some(target))
    else
      var cap := if bound.Some? then Min(requested, bound.value) else requested;
      StakeRequest(requested, cap, if cap < requested then CappedRecoveryShortfall else NoReason,
                   cap < requested, requested - cap, Running, Some(step), Some(target))
  }

  function PartialRequest(target: real, alpha: real, odds: real, memory: Sequence): StakeRequest
    requires 0.0 < odds
  {
    var requested := (target + alpha * memory.loss) / odds;
    StakeRequest(requested, requested, NoReason, false, 0.0, Running, Some(memory.step + 1), Some(target))
  }

  /** ROUND_CEILING to an integer. */
  function Ceiling(x: real): (r: int)
    ensures x <= r as real < x + 1.0
  {
    -((-x).Floor)
  }

  /** The profit of a settled stake. */
  function Pnl(applied: real, price: real, won: bool): real {
    if won then applied * (price - 1.0) else -applied
  }

  lemma QuotientPositive(n: real, d: real)
    requires 0.0 < n && 0.0 < d
    ensures 0.0 < n / d && (n / d) * d == n
  {
  }

  lemma ProductPositive(x: real, y: real)
    requires 0.0 < x && 0.0 < y
    ensures 0.0 < x * y
  {
  }

  lemma ProductNonNegative(x: real, y: real)
    requires 0.0 <= x && 0.0 <= y
    ensures 0.0 <= x * y
  {
  }

  lemma KellyBounds(share: real, edge: real, odds: real, bankroll: real)
    requires 0.0 < share && 0.0 < odds && 0.0 <= bankroll
    ensures 0.0 < edge ==> 0.0 <= share * (edge / odds) * bankroll
    ensures 0.0 < edge && 0.0 < bankroll ==> 0.0 < share * (edge / odds) * bankroll
  {
    if 0.0 < edge {
      QuotientPositive(edge, odds);
      ProductPositive(share, edge / odds);
      ProductNonNegative(share * (edge / odds), bankroll);
      if 0.0 < bankroll { ProductPositive(share * (edge / odds), bankroll); }
    }
  }

  /** A request is sound when its stake is non-negative, covered by what was asked for, and positive when it may be. */
  ghost predicate Sound(p: Policy, bankroll: real, r: StakeRequest) {
    && 0.0 <= r.applied <= r.requested
    && (r.capHit <==> r.applied < r.requested)
    && r.shortfall == r.requested - r.applied
    && (p.IsRecovery() ==> 0.0 < r.requested && r.step.Some? && r.target.Some? && 0.0 < r.target.value)
    && (r.termination != Running ==>
          p.LegacyCapped? && r.termination == RecoveryStepsExhausted && r.capHit && r.applied == 0.0)
    && (r.termination == Running && 0.0 < bankroll && 0.0 < r.requested ==> 0.0 < r.applied)
  }

  lemma RecoveryRequestSound(p: Policy, odds: real, bankroll: real, memory: Sequence)
    requires p.Valid() && p.LegacyRecovery? && memory.Ok() && 0.0 < odds
    ensures Sound(p, bankroll, RecoveryRequest(p.initialStake, odds, memory))
  {
    if memory.target.Some? {
      QuotientPositive(memory.target.value + memory.loss, odds);
    } else {
      ProductPositive(p.initialStake, odds);
    }
  }

  lemma PartialRequestSound(p: Policy, odds: real, bankroll: real, memory: Sequence)
    requires p.Valid() && p.LegacyPartial? && memory.Ok() && 0.0 < odds
    ensures Sound(p, bankroll, PartialRequest(p.target, p.alpha, odds, memory))
  {
    ProductNonNegative(p.alpha, memory.loss);
    QuotientPositive(p.target + p.alpha * memory.loss, odds);
  }

  lemma CappedRequestSound(p: Policy, bound: Option<real>, odds: real, bankroll: real, memory: Sequence)
    requires p.Valid() && p.LegacyCapped? && memory.Ok() && 0.0 < odds
    requires bound.Some? ==> 0.0 <= bound.value && (0.0 < bankroll ==> 0.0 < bound.value)
    ensures Sound(p, bankroll, CappedRequest(p.initialStake, bound, p.maxSteps, odds, memory))
  {
    if memory.target.Some? {
      QuotientPositive(memory.target.value + memory.loss, odds);
    } else {
      ProductPositive(p.initialStake, odds);
    }
  }

  lemma BoundPositive(p: Policy, bankroll: real)
    requires p.Valid() && p.LegacyCapped? && 0.0 <= bankroll
    ensures var bound := p.Bound(bankroll);
            bound.Some? ==> 0.0 <= bound.value && (0.0 < bankroll ==> 0.0 < bound.value)
  {
    if p.maxFraction.Some? {
      ProductNonNegative(p.maxFraction.value, bankroll);
      if 0.0 < bankroll { ProductPositive(p.maxFraction.value, bankroll); }
    }
  }

  lemma FractionSound(p: Policy, bankroll: real)
    requires p.Valid() && p.FixedFraction? && 0.0 <= bankroll
    ensures Sound(p, bankroll, Plain(p.fraction * bankroll))
  {
    ProductNonNegative(p.fraction, bankroll);
    if 0.0 < bankroll { ProductPositive(p.fraction, bankroll); }
  }

  lemma KellySound(p: Policy, edge: real, odds: real, bankroll: real)
    requires p.Valid() && p.FractionalKelly? && 0.0 < odds && 0.0 <= bankroll
    ensures Sound(p, bankroll, KellyRequest(p.share, edge, odds, bankroll))
  {
    KellyBounds(p.share, edge, odds, bankroll);
  }

  /** Every request of every policy is sound. */
  lemma RequestSound(p: Policy, price: real, probability: real, bankroll: real, state: PolicyState)
    requires p.Valid() && p.Fits(state) && 1.0 < price && 0.0 <= bankroll
    ensures Sound(p, bankroll, p.Request(price, probability, bankroll, state))
  {
    hide KellyRequest;
    hide RecoveryRequest;
    hide CappedRequest;
    hide PartialRequest;
    match p
    case FlatUnit(_) =>
    case FixedTarget(target) => QuotientPositive(target, price - 1.0);
    case FixedFraction(_) => FractionSound(p, bankroll);
    case FractionalKelly(_) => KellySound(p, probability * price - 1.0, price - 1.0, bankroll);
    case LegacyRecovery(_) => RecoveryRequestSound(p, price - 1.0, bankroll, Memory(state));
    case LegacyPartial(_, _) => PartialRequestSound(p, price - 1.0, bankroll, Memory(state));
    case LegacyCapped(_, _, _, _) =>
      BoundPositive(p, bankroll);
      CappedRequestSound(p, p.Bound(bankroll), price - 1.0, bankroll, Memory(state));
  }

  /** Settling a covered request keeps the memory well formed. */
  lemma SettleFits(p: Policy, state: PolicyState, request: StakeRequest, won: bool)
    requires p.Valid() && p.Fits(state)
    requires p.IsRecovery() ==> 0.0 <= request.applied && request.target.Some? && 0.0 < request.target.value
    ensures p.Fits(p.Settle(state, request, won).0)
  {
  }
}

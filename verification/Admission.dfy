/**
  Quota admission of planned capture work (football/capture/planner.py), the
  reserve it protects (football/quota.py) and the re-admission under the
  executor's lock (football/capture/executor.py).
 */
module Admission {
  import opened Common

  datatype Purpose = FixtureRefresh | OddsCapture(t10: bool) | ResultRefresh | OtherPurpose {
    /** Discovery and final quotes are critical; everything else is optional. */
    predicate Critical() {
      FixtureRefresh? || (OddsCapture? && t10)
    }
  }

  datatype Status = Planned | QuotaReserve | InsufficientBudget | AlreadyFulfilled | StatusIneligible | NotDue | MissedWindow | Refused(code: int)

  datatype Item = Item(purpose: Purpose, status: Status, minCost: int, maxCost: int)

  datatype Basis = HeaderCurrent | BoundedBootstrap | HeaderStaleEpoch(establishing: bool)

  datatype Quota = Quota(basis: Basis, remaining: int)

  datatype Limits = Limits(maxAttempts: int, bootstrapAttempts: int, allowBootstrap: bool)

  /** The reserve keeps its total beside its parts. */
  datatype Reserve = Reserve(fixture: int, t10: int, openResult: int, quote: int, total: int) {
    ghost predicate Whole() {
      0 <= fixture && 0 <= t10 && 0 <= openResult && 0 <= quote && total == fixture + t10 + openResult + quote
    }

    function Of(p: Purpose): int {
      if p.FixtureRefresh? then fixture else t10
    }

    /** One critical call of this kind is no longer ahead. */
    function Served(p: Purpose): Reserve {
      if !p.Critical() || Of(p) <= 0 then this
      else if p.FixtureRefresh? then this.(fixture := fixture - 1, total := total - 1)
      else this.(t10 := t10 - 1, total := total - 1)
    }
  }

  datatype Desk = Desk(projected: int, allowed: int, reserve: Reserve)

  function IntMin(x: int, y: int): int {
    if y < x then y else x
  }

  /** What may be spent when admission starts. */
  function Begin(q: Quota, l: Limits, r: Reserve): Desk {
    match q.basis
    case HeaderCurrent => Desk(q.remaining, l.maxAttempts, r)
    case BoundedBootstrap => Desk(q.remaining, IntMin(l.maxAttempts, l.bootstrapAttempts), r)
    case HeaderStaleEpoch(establishing) => Desk(if establishing then 1 else 0, IntMin(l.maxAttempts, 1), r)
  }

  function Defer(i: Item, s: Status): Item {
    i.(status := s, minCost := 0, maxCost := 0)
  }

  /** Why a planned item is turned away, if it is. */
  function Verdict(q: Quota, l: Limits, d: Desk, i: Item): Option<Status> {
    var protected := if i.purpose.Critical() then 0 else d.reserve.total;
    if q.basis.BoundedBootstrap? && !i.purpose.Critical() && !l.allowBootstrap then Some(QuotaReserve)
    else if q.basis.HeaderStaleEpoch? && !i.purpose.Critical() then Some(QuotaReserve)
    else if q.basis.HeaderStaleEpoch? && i.purpose.OddsCapture? && d.reserve.fixture > 0 then Some(QuotaReserve)
    else if d.projected - 1 < protected then Some(QuotaReserve)
    else if d.allowed < 1 then Some(InsufficientBudget)
    else None
  }

  function Spend(d: Desk, p: Purpose): Desk {
    Desk(d.projected - 1, d.allowed - 1, d.reserve.Served(p))
  }

  function AdmitItem(q: Quota, l: Limits, d: Desk, i: Item): Item {
    if i.status != Planned then i
    else
      var verdict := Verdict(q, l, d, i);
      if verdict.Some? then Defer(i, verdict.value) else i.(maxCost := 1)
  }

  function AdmitDesk(q: Quota, l: Limits, d: Desk, i: Item): Desk {
    if i.status == Planned && Verdict(q, l, d, i).None? then Spend(d, i.purpose) else d
  }

  /** The desk after a list of items, in their order. */
  function DeskAfter(q: Quota, l: Limits, r: Reserve, items: seq<Item>): Desk {
    if items == [] then Begin(q, l, r)
    else AdmitDesk(q, l, DeskAfter(q, l, r, items[..|items| - 1]), items[|items| - 1])
  }

  function Admitted(q: Quota, l: Limits, r: Reserve, items: seq<Item>): (a: seq<Item>)
    ensures |a| == |items|
  {
    seq(|items|, i requires 0 <= i < |items| => AdmitItem(q, l, DeskAfter(q, l, r, items[..i]), items[i]))
  }

  lemma AdmittedAt(q: Quota, l: Limits, r: Reserve, items: seq<Item>, k: nat)
    requires k < |items|
    ensures Admitted(q, l, r, items)[k] == AdmitItem(q, l, DeskAfter(q, l, r, items[..k]), items[k])
    ensures DeskAfter(q, l, r, items[..k + 1]) == AdmitDesk(q, l, DeskAfter(q, l, r, items[..k]), items[k])
  {
    assert items[..k + 1][..k] == items[..k];
  }

  /** `_admit`: one pass over the items, rewriting them in place. */
  method Admit(items: array<Item>, q: Quota, l: Limits, r: Reserve) returns (d: Desk)
    modifies items
    ensures items[..] == Admitted(q, l, r, old(items[..]))
    ensures d == DeskAfter(q, l, r, old(items[..]))
  {
    var projected, allowed, reserve := q.remaining, l.maxAttempts, r;
    if q.basis.BoundedBootstrap? {
      allowed := IntMin(allowed, l.bootstrapAttempts);
    } else if q.basis.HeaderStaleEpoch? {
      projected := if q.basis.establishing then 1 else 0;
      allowed := IntMin(allowed, 1);
    }
    ghost var was := items[..];
    assert was[..0] == [];
    hide Admitted;
    for k := 0 to items.Length
      invariant Desk(projected, allowed, reserve) == DeskAfter(q, l, r, was[..k])
      invariant forall i :: 0 <= i < k ==> items[i] == Admitted(q, l, r, was)[i]
      invariant forall i :: k <= i < items.Length ==> items[i] == was[i]
    {
      AdmittedAt(q, l, r, was, k);
      hide DeskAfter;
      var item := items[k];
      if item.status == Planned {
        var verdict := Verdict(q, l, Desk(projected, allowed, reserve), item);
        hide Verdict;
        if verdict.Some? {
          items[k] := Defer(item, verdict.value);
        } else {
          items[k] := item.(maxCost := 1);
          projected, allowed := projected - 1, allowed - 1;
          reserve := reserve.Served(item.purpose);
        }
      }
    }
    assert was[..|was|] == was;
    d := Desk(projected, allowed, reserve);
  }

  // ---- what admission guarantees -------------------------------------------------------

  function PlannedCount(items: seq<Item>): nat {
    if items == [] then 0 else PlannedCount(items[..|items| - 1]) + if items[|items| - 1].status == Planned then 1 else 0
  }

  lemma AdmittedPrefix(q: Quota, l: Limits, r: Reserve, items: seq<Item>, n: nat)
    requires n <= |items|
    ensures Admitted(q, l, r, items)[..n] == Admitted(q, l, r, items[..n])
  {
    forall i | 0 <= i < n
      ensures items[..n][..i] == items[..i]
    {
    }
  }

  /** Every planned item is paid for, by the calls left and by the circuit breaker. */
  lemma {:induction false} EveryCallPaid(q: Quota, l: Limits, r: Reserve, items: seq<Item>)
    ensures var b, d := Begin(q, l, r), DeskAfter(q, l, r, items);
            && b.projected - d.projected == PlannedCount(Admitted(q, l, r, items)) == b.allowed - d.allowed
    ensures var b, d := Begin(q, l, r), DeskAfter(q, l, r, items);
            && (r.Whole() ==> d.reserve.Whole())
            && (0 <= r.total && r.Whole() ==> d.projected >= IntMin(0, b.projected)) && d.allowed >= IntMin(0, b.allowed)
  {
    if items != [] {
      var last := |items| - 1;
      EveryCallPaid(q, l, r, items[..last]);
      AdmittedPrefix(q, l, r, items, last);
    }
  }

  /** At most as many calls are planned as are left, and as the circuit breaker allows; the reserve's total stays the sum of its parts. */
  lemma WithinBudget(q: Quota, l: Limits, r: Reserve, items: seq<Item>)
    requires r.Whole()
    ensures var b, planned := Begin(q, l, r), PlannedCount(Admitted(q, l, r, items));
            planned == 0 || (planned <= b.projected && planned <= b.allowed)
    ensures DeskAfter(q, l, r, items).reserve.Whole()
  {
    EveryCallPaid(q, l, r, items);
  }

  /** Admission only turns planned items away; it changes no purpose and nothing that was not planned. */
  lemma OnlyShrinks(q: Quota, l: Limits, r: Reserve, items: seq<Item>, i: nat)
    requires i < |items|
    ensures var a := Admitted(q, l, r, items)[i];
            && a.purpose == items[i].purpose && (a.status == Planned ==> items[i].status == Planned)
            && (items[i].status != Planned ==> a == items[i])
            && (a.status != items[i].status ==> a.status == QuotaReserve || a.status == InsufficientBudget)
  {
  }

  /** In a stale epoch at most one call is planned, and it is a critical one. */
  lemma StaleEpoch(q: Quota, l: Limits, r: Reserve, items: seq<Item>)
    requires q.basis.HeaderStaleEpoch? && r.Whole()
    ensures PlannedCount(Admitted(q, l, r, items)) <= if q.basis.establishing then 1 else 0
    ensures forall i :: 0 <= i < |items| && Admitted(q, l, r, items)[i].status == Planned ==> items[i].purpose.Critical()
  {
    WithinBudget(q, l, r, items);
  }

  /** What is left is what there was less the calls planned: quota by the basis, attempts by the tightest bound that applies. */
  lemma BudgetSpent(q: Quota, l: Limits, r: Reserve, items: seq<Item>)
    ensures var d, planned := DeskAfter(q, l, r, items), PlannedCount(Admitted(q, l, r, items));
            var left := if !q.basis.HeaderStaleEpoch? then q.remaining else if q.basis.establishing then 1 else 0;
            && d.projected + planned == left && d.allowed + planned <= l.maxAttempts
            && (q.basis.BoundedBootstrap? ==> d.allowed + planned <= l.bootstrapAttempts)
            && (q.basis.HeaderStaleEpoch? ==> d.allowed + planned <= 1)
            && (|| d.allowed + planned == l.maxAttempts
                || (q.basis.BoundedBootstrap? && d.allowed + planned == l.bootstrapAttempts)
                || (q.basis.HeaderStaleEpoch? && d.allowed + planned == 1))
  {
    EveryCallPaid(q, l, r, items);
    hide DeskAfter;
    hide Admitted;
    hide PlannedCount;
  }

  // ---- protecting the critical work ----------------------------------------------------

  function PlannedOf(items: seq<Item>, p: Purpose): nat {
    if items == [] then 0
    else PlannedOf(items[1..], p) + if items[0].status == Planned && items[0].purpose == p then 1 else 0
  }

  /** Planned critical items of one kind from n on. */
  function Ahead(items: seq<Item>, p: Purpose, n: nat): nat
    requires n <= |items|
  {
    PlannedOf(items[n..], p)
  }

  lemma AheadNext(items: seq<Item>, p: Purpose, n: nat)
    requires n < |items|
    ensures Ahead(items, p, n) == Ahead(items, p, n + 1) + if items[n].status == Planned && items[n].purpose == p then 1 else 0
  {
    assert items[n..][1..] == items[n + 1..];
  }

  /** The reserve foresees every critical item still to come. */
  ghost predicate Foreseen(r: Reserve, items: seq<Item>, n: nat)
    requires n <= |items|
  {
    r.Whole() && Ahead(items, FixtureRefresh, n) <= r.fixture && Ahead(items, OddsCapture(true), n) <= r.t10
  }

  lemma {:induction false} StillForeseen(q: Quota, l: Limits, r: Reserve, items: seq<Item>, n: nat)
    requires Foreseen(r, items, 0) && n <= |items|
    ensures Foreseen(DeskAfter(q, l, r, items[..n]).reserve, items, n)
  {
    if n == 0 {
      assert items[..0] == [];
    } else {
      StillForeseen(q, l, r, items, n - 1);
      assert items[..n][..n - 1] == items[..n - 1];
      AheadNext(items, FixtureRefresh, n - 1);
      AheadNext(items, OddsCapture(true), n - 1);
      hide Ahead;
    }
  }

  lemma DeskNext(q: Quota, l: Limits, r: Reserve, items: seq<Item>, n: nat)
    requires n < |items|
    ensures DeskAfter(q, l, r, items[..n + 1]) == AdmitDesk(q, l, DeskAfter(q, l, r, items[..n]), items[n])
  {
    assert items[..n + 1][..n] == items[..n];
  }

  /** Once an optional item is admitted, the calls left always cover the reserve. */
  lemma {:induction false} StaysCovered(q: Quota, l: Limits, r: Reserve, items: seq<Item>, i: nat, n: nat)
    requires Foreseen(r, items, 0) && i < n <= |items|
    requires !items[i].purpose.Critical() && items[i].status == Planned && Admitted(q, l, r, items)[i].status == Planned
    ensures DeskAfter(q, l, r, items[..n]).reserve.total <= DeskAfter(q, l, r, items[..n]).projected
  {
    hide *;
    DeskNext(q, l, r, items, n - 1);
    StillReserved(q, l, r, items, n - 1);
    AdmittedAt(q, l, r, items, i);
    if i + 1 < n {
      StaysCovered(q, l, r, items, i, n - 1);
    }
    CoveredStep(q, l, DeskAfter(q, l, r, items[..n - 1]), items[n - 1]);
  }

  lemma CoveredStep(q: Quota, l: Limits, d: Desk, i: Item)
    requires d.reserve.Whole() && (i.status == Planned && i.purpose.Critical() ==> 1 <= d.reserve.Of(i.purpose))
    requires d.reserve.total <= d.projected
             || (i.status == Planned && !i.purpose.Critical() && AdmitItem(q, l, d, i).status == Planned)
    ensures var e := AdmitDesk(q, l, d, i); e.reserve.total <= e.projected
  {
  }

  /**
    When the reserve foresees the planned critical work, admitting an optional
    item never makes a later critical item be refused for quota.
   */
  lemma OptionalNeverStarves(q: Quota, l: Limits, r: Reserve, items: seq<Item>, i: nat, j: nat)
    requires Foreseen(r, items, 0) && i < j < |items|
    requires !items[i].purpose.Critical() && items[i].status == Planned && Admitted(q, l, r, items)[i].status == Planned
    requires items[j].purpose.Critical() && items[j].status == Planned
    ensures Admitted(q, l, r, items)[j].status != QuotaReserve
  {
    StaysCovered(q, l, r, items, i, j);
    StillForeseen(q, l, r, items, j);
    AheadNext(items, items[j].purpose, j);
    hide Ahead;
  }

  // ---- the circuit breaker -------------------------------------------------------------

  function PlannedKind(items: seq<Item>, critical: bool): nat {
    if items == [] then 0
    else
      var last := items[|items| - 1];
      PlannedKind(items[..|items| - 1], critical) + if last.status == Planned && last.purpose.Critical() == critical then 1 else 0
  }

  /** How many calls are planned before item n. */
  function Made(q: Quota, l: Limits, r: Reserve, items: seq<Item>, n: nat): nat
    requires n <= |items|
  {
    PlannedCount(Admitted(q, l, r, items)[..n])
  }

  lemma MadeIs(q: Quota, l: Limits, r: Reserve, items: seq<Item>, n: nat)
    requires n <= |items|
    ensures var b, d := Begin(q, l, r), DeskAfter(q, l, r, items[..n]);
            d.projected == b.projected - Made(q, l, r, items, n) && d.allowed == b.allowed - Made(q, l, r, items, n)
  {
    AdmittedPrefix(q, l, r, items, n);
    EveryCallPaid(q, l, r, items[..n]);
    hide Admitted;
    hide DeskAfter;
    hide PlannedCount;
  }

  /** A stale epoch lets the missing fixture dates go before a final quote. */
  predicate FixtureFirst(q: Quota, d: Desk, i: Item) {
    q.basis.HeaderStaleEpoch? && i.purpose.OddsCapture? && d.reserve.fixture > 0
  }

  /** For any list, basis and reserve: when a planned critical item meets the circuit breaker, and when it meets the quota. */
  lemma BreakerRefuses(q: Quota, l: Limits, r: Reserve, items: seq<Item>, j: nat)
    requires j < |items| && items[j].status == Planned && items[j].purpose.Critical()
    ensures var b, made, blocked := Begin(q, l, r), Made(q, l, r, items, j), FixtureFirst(q, DeskAfter(q, l, r, items[..j]), items[j]);
            var status := Admitted(q, l, r, items)[j].status;
            && (status == InsufficientBudget <==> !blocked && made < b.projected && b.allowed <= made)
            && (status == QuotaReserve <==> blocked || b.projected <= made)
            && (status == Planned <==> !blocked && made < b.projected && made < b.allowed)
  {
    AdmittedAt(q, l, r, items, j);
    MadeIs(q, l, r, items, j);
    hide Admitted;
    hide DeskAfter;
    hide Begin;
    hide Made;
  }

  lemma {:induction false} MadeAtMost(q: Quota, l: Limits, r: Reserve, items: seq<Item>, n: nat)
    requires n <= |items|
    ensures Made(q, l, r, items, n) <= PlannedCount(items[..n])
  {
    if n > 0 {
      MadeAtMost(q, l, r, items, n - 1);
      OnlyShrinks(q, l, r, items, n - 1);
      var a := Admitted(q, l, r, items);
      hide Admitted;
      assert a[..n][..n - 1] == a[..n - 1] && items[..n][..n - 1] == items[..n - 1];
    }
  }

  lemma {:induction false} PlannedCountGrows(items: seq<Item>, n: nat)
    requires n < |items| && items[n].status == Planned
    ensures PlannedCount(items[..n]) < PlannedCount(items)
    decreases |items|
  {
    var last := |items| - 1;
    if n < last {
      assert items[..last][..n] == items[..n];
      PlannedCountGrows(items[..last], n);
    }
  }

  /** A plan no longer than the circuit breaker allows never meets it. */
  lemma BreakerUnmet(q: Quota, l: Limits, r: Reserve, items: seq<Item>, i: nat)
    requires PlannedCount(items) <= Begin(q, l, r).allowed && i < |items|
    ensures Admitted(q, l, r, items)[i].status == InsufficientBudget <==> items[i].status == InsufficientBudget
  {
    AdmittedAt(q, l, r, items, i);
    if items[i].status == Planned {
      MadeIs(q, l, r, items, i);
      MadeAtMost(q, l, r, items, i);
      PlannedCountGrows(items, i);
    }
    hide Admitted;
    hide DeskAfter;
    hide Begin;
    hide Made;
    hide PlannedCount;
  }

  function Floor0(x: int): nat {
    if x < 0 then 0 else x
  }

  /** The calls that a foreseen list makes without a circuit breaker: every critical one, and optional ones out of what the reserve leaves. */
  function Demand(projected: int, total: int, critical: nat, optional: nat): nat {
    if projected >= total then critical + IntMin(optional, projected - total) as nat else IntMin(critical, Floor0(projected))
  }

  predicate OptionalsOpen(q: Quota, l: Limits) {
    q.basis.HeaderCurrent? || (q.basis.BoundedBootstrap? && l.allowBootstrap)
  }

  function OptionalDemand(q: Quota, l: Limits, items: seq<Item>): nat {
    if OptionalsOpen(q, l) then PlannedKind(items, false) else 0
  }

  /** The desk of a foreseen list, from counts of the items in front alone. */
  ghost predicate DeskCounts(b: Desk, total: int, c: nat, o: nat, d: Desk) {
    && d.allowed == b.allowed - IntMin(Demand(b.projected, total, c, o), Floor0(b.allowed))
    && (d.allowed > 0 ==>
          if b.projected >= total then
            d.reserve.total == total - c && d.projected == b.projected - c - IntMin(o, b.projected - total)
          else
            d.reserve.total == total - IntMin(c, Floor0(b.projected)) && d.projected == b.projected - IntMin(c, Floor0(b.projected)))
  }

  lemma CountsStep(q: Quota, l: Limits, b: Desk, total: int, c: nat, o: nat, d: Desk, i: Item)
    requires DeskCounts(b, total, c, o, d) && !q.basis.HeaderStaleEpoch? && d.reserve.Whole()
    requires i.status == Planned && i.purpose.Critical() ==> 1 <= d.reserve.Of(i.purpose)
    ensures var planned := i.status == Planned;
            DeskCounts(b, total, c + (if planned && i.purpose.Critical() then 1 else 0),
                       o + (if planned && !i.purpose.Critical() && OptionalsOpen(q, l) then 1 else 0), AdmitDesk(q, l, d, i))
  {
  }

  /** The reserve still holds a call for every foreseen critical item when its turn comes. */
  lemma StillReserved(q: Quota, l: Limits, r: Reserve, items: seq<Item>, n: nat)
    requires Foreseen(r, items, 0) && n < |items|
    ensures var d := DeskAfter(q, l, r, items[..n]);
            d.reserve.Whole() && (items[n].status == Planned && items[n].purpose.Critical() ==> 1 <= d.reserve.Of(items[n].purpose))
  {
    StillForeseen(q, l, r, items, n);
    AheadNext(items, items[n].purpose, n);
    hide Ahead;
    hide DeskAfter;
  }

  lemma CountsStart(b: Desk, total: int)
    requires total == b.reserve.total
    ensures DeskCounts(b, total, 0, 0, b)
  {
  }

  lemma CountsNext(q: Quota, l: Limits, items: seq<Item>, n: nat)
    requires n < |items|
    ensures var planned, critical := items[n].status == Planned, items[n].purpose.Critical();
            && PlannedKind(items[..n + 1], true) == PlannedKind(items[..n], true) + (if planned && critical then 1 else 0)
            && OptionalDemand(q, l, items[..n + 1]) ==
               OptionalDemand(q, l, items[..n]) + (if planned && !critical && OptionalsOpen(q, l) then 1 else 0)
  {
    assert items[..n + 1][..n] == items[..n];
  }

  lemma {:induction false} ForeseenCounts(q: Quota, l: Limits, r: Reserve, items: seq<Item>, n: nat)
    requires Foreseen(r, items, 0) && !q.basis.HeaderStaleEpoch? && n <= |items|
    ensures DeskCounts(Begin(q, l, r), r.total, PlannedKind(items[..n], true), OptionalDemand(q, l, items[..n]),
                       DeskAfter(q, l, r, items[..n]))
  {
    hide DeskCounts;
    hide AdmitDesk;
    hide Foreseen;
    if n == 0 {
      assert items[..0] == [];
      CountsStart(Begin(q, l, r), r.total);
    } else {
      hide DeskAfter;
      hide Begin;
      hide PlannedKind;
      hide OptionalDemand;
      ForeseenCounts(q, l, r, items, n - 1);
      StillReserved(q, l, r, items, n - 1);
      DeskNext(q, l, r, items, n - 1);
      CountsNext(q, l, items, n - 1);
      CountsStep(q, l, Begin(q, l, r), r.total, PlannedKind(items[..n - 1], true), OptionalDemand(q, l, items[..n - 1]),
                 DeskAfter(q, l, r, items[..n - 1]), items[n - 1]);
    }
  }

  /**
    The exact fate of a critical item that the reserve foresaw, from the quota
    and counts of the planned items in front of it: the circuit breaker refuses
    it exactly when the calls demanded in front reach what the breaker allows,
    and that is less than the quota.
   */
  lemma ForeseenFate(q: Quota, l: Limits, r: Reserve, items: seq<Item>, j: nat)
    requires Foreseen(r, items, 0) && !q.basis.HeaderStaleEpoch?
    requires j < |items| && items[j].status == Planned && items[j].purpose.Critical()
    ensures var b := Begin(q, l, r);
            var demand := Demand(b.projected, r.total, PlannedKind(items[..j], true), OptionalDemand(q, l, items[..j]));
            var status := Admitted(q, l, r, items)[j].status;
            && (status == InsufficientBudget <==> Floor0(b.allowed) <= demand && Floor0(b.allowed) < b.projected)
            && (status == QuotaReserve <==> b.projected <= demand && b.projected <= Floor0(b.allowed))
            && (status == Planned <==> demand < b.allowed && demand < b.projected)
  {
    BreakerRefuses(q, l, r, items, j);
    MadeIs(q, l, r, items, j);
    ForeseenCounts(q, l, r, items, j);
    hide Admitted;
    hide DeskAfter;
    hide Begin;
    hide Made;
    hide Demand;
    hide PlannedKind;
  }

  // ---- the order of the plan -----------------------------------------------------------

  /** The first sort key that the planner gives to an item it plans; the only window it schedules is the final quote. */
  predicate Keyed(i: Item, key: int) {
    i.status == Planned ==>
      match i.purpose
      case FixtureRefresh => key == 1
      case OddsCapture(t10) => t10 && key == 2
      case ResultRefresh => key == 4 || key == 5
      case OtherPurpose => false
  }

  /** The list as the planner sorts it; items that it does not plan may have any key. */
  ghost predicate Sorted(items: seq<Item>, keys: seq<int>) {
    && |keys| == |items|
    && (forall i :: 0 <= i < |items| ==> Keyed(items[i], keys[i]))
    && forall i, j :: 0 <= i < j < |items| ==> keys[i] <= keys[j]
  }

  /** No planned optional item stands before a planned critical one. */
  ghost predicate CriticalFirst(items: seq<Item>) {
    forall i, j :: 0 <= i < j < |items| && items[i].status == Planned && items[j].status == Planned && items[j].purpose.Critical() ==>
      items[i].purpose.Critical()
  }

  lemma SortedCriticalFirst(items: seq<Item>, keys: seq<int>)
    requires Sorted(items, keys)
    ensures CriticalFirst(items)
  {
    forall i, j | 0 <= i < j < |items| && items[i].status == Planned && items[j].status == Planned && items[j].purpose.Critical()
      ensures items[i].purpose.Critical()
    {
      assert Keyed(items[i], keys[i]) && Keyed(items[j], keys[j]);
    }
  }

  /** The list with every planned optional item taken out of the plan. */
  function CriticalOnly(items: seq<Item>): (r: seq<Item>)
    ensures |r| == |items|
  {
    seq(|items|, i requires 0 <= i < |items| =>
      if items[i].status == Planned && !items[i].purpose.Critical() then Defer(items[i], QuotaReserve) else items[i])
  }

  /** With the planned critical items in front, as the planner's sort puts them, no optional item ever takes a critical item's call. */
  lemma SortedProtects(q: Quota, l: Limits, r: Reserve, items: seq<Item>, j: nat)
    requires CriticalFirst(items) && j < |items| && items[j].status == Planned && items[j].purpose.Critical()
    ensures Admitted(q, l, r, items)[j] == Admitted(q, l, r, CriticalOnly(items))[j]
  {
    assert CriticalOnly(items)[..j] == items[..j];
    assert CriticalOnly(items)[j] == items[j];
    AdmittedAt(q, l, r, items, j);
    AdmittedAt(q, l, r, CriticalOnly(items), j);
    hide Admitted;
    hide DeskAfter;
  }

  lemma {:induction false} CriticalOnlyAhead(items: seq<Item>, p: Purpose)
    requires p.Critical()
    ensures PlannedOf(CriticalOnly(items), p) == PlannedOf(items, p)
  {
    if items != [] {
      CriticalOnlyAhead(items[1..], p);
      assert CriticalOnly(items)[1..] == CriticalOnly(items[1..]);
    }
  }

  lemma {:induction false} CriticalOnlyCounts(items: seq<Item>)
    ensures PlannedKind(CriticalOnly(items), true) == PlannedKind(items, true) && PlannedKind(CriticalOnly(items), false) == 0
  {
    if items != [] {
      var last := |items| - 1;
      CriticalOnlyCounts(items[..last]);
      assert CriticalOnly(items)[..last] == CriticalOnly(items[..last]);
    }
  }

  /**
    Out of the planner's order an optional item can take the call of a critical
    item that the reserve foresaw; it does so through the circuit breaker
    alone, exactly when the critical items in front leave a call and all the
    items in front together do not.
   */
  lemma UnsortedTakes(q: Quota, l: Limits, r: Reserve, items: seq<Item>, j: nat)
    requires Foreseen(r, items, 0) && !q.basis.HeaderStaleEpoch?
    requires j < |items| && items[j].status == Planned && items[j].purpose.Critical()
    ensures var b, c := Begin(q, l, r), PlannedKind(items[..j], true);
            var with, without := Admitted(q, l, r, items)[j].status, Admitted(q, l, r, CriticalOnly(items))[j].status;
            && (with != Planned && without == Planned <==>
                  c < b.projected && c < b.allowed <= Demand(b.projected, r.total, c, OptionalDemand(q, l, items[..j])))
            && (with != Planned && without == Planned ==> with == InsufficientBudget)
  {
    var alone := CriticalOnly(items);
    CriticalOnlyAhead(items, FixtureRefresh);
    CriticalOnlyAhead(items, OddsCapture(true));
    assert items[0..] == items && alone[0..] == alone;
    assert alone[..j] == CriticalOnly(items[..j]);
    CriticalOnlyCounts(items[..j]);
    ForeseenFate(q, l, r, items, j);
    ForeseenFate(q, l, r, alone, j);
    ForeseenRoom(r, items, j);
    hide Admitted;
    hide Begin;
    hide PlannedKind;
    hide CriticalOnly;
    hide Ahead;
  }

  lemma {:induction false} KindsOf(items: seq<Item>)
    ensures PlannedKind(items, true) == PlannedOf(items, FixtureRefresh) + PlannedOf(items, OddsCapture(true))
  {
    if items != [] {
      KindsOf(items[1..]);
      KindFirst(items);
    }
  }

  lemma {:induction false} KindFirst(items: seq<Item>)
    requires items != []
    ensures PlannedKind(items, true) == PlannedKind(items[1..], true) + if items[0].status == Planned && items[0].purpose.Critical() then 1 else 0
  {
    if |items| > 1 {
      var last := |items| - 1;
      KindFirst(items[..last]);
      assert items[..last][1..] == items[1..][..last - 1];
    } else {
      assert items[..0] == [] && items[1..] == [];
    }
  }

  lemma {:induction false} KindSplit(items: seq<Item>, n: nat)
    requires n < |items| && items[n].status == Planned && items[n].purpose.Critical()
    ensures PlannedKind(items[..n], true) < PlannedKind(items, true)
    decreases |items|
  {
    var last := |items| - 1;
    if n < last {
      assert items[..last][..n] == items[..n];
      KindSplit(items[..last], n);
    }
  }

  /** Fewer critical items stand in front of a foreseen one than are reserved. */
  lemma ForeseenRoom(r: Reserve, items: seq<Item>, j: nat)
    requires Foreseen(r, items, 0) && j < |items| && items[j].status == Planned && items[j].purpose.Critical()
    ensures PlannedKind(items[..j], true) < r.total
  {
    KindSplit(items, j);
    KindsOf(items);
    assert items[0..] == items;
  }

  // ---- admitting again -----------------------------------------------------------------

  lemma {:induction false} DeskAgain(q: Quota, l: Limits, r: Reserve, items: seq<Item>, n: nat)
    requires n <= |items|
    ensures DeskAfter(q, l, r, Admitted(q, l, r, items)[..n]) == DeskAfter(q, l, r, items[..n])
  {
    var once := Admitted(q, l, r, items);
    if n == 0 {
      assert once[..0] == items[..0] == [];
    } else {
      DeskAgain(q, l, r, items, n - 1);
      AdmittedAt(q, l, r, items, n - 1);
      AdmittedAt(q, l, r, once, n - 1);
      hide *;
      AdmitItemAgain(q, l, DeskAfter(q, l, r, items[..n - 1]), items[n - 1]);
    }
  }

  /** An admitted list admitted again under the same quota stays as it is. */
  lemma {:induction false} AdmitAgain(q: Quota, l: Limits, r: Reserve, items: seq<Item>)
    ensures Admitted(q, l, r, Admitted(q, l, r, items)) == Admitted(q, l, r, items)
    ensures DeskAfter(q, l, r, Admitted(q, l, r, items)) == DeskAfter(q, l, r, items)
  {
    hide *;
    var once := Admitted(q, l, r, items);
    var twice := Admitted(q, l, r, once);
    forall i | 0 <= i < |items|
      ensures twice[i] == once[i]
    {
      DeskAgain(q, l, r, items, i);
      AdmittedAt(q, l, r, items, i);
      AdmittedAt(q, l, r, once, i);
      AdmitItemAgain(q, l, DeskAfter(q, l, r, items[..i]), items[i]);
    }
    DeskAgain(q, l, r, items, |items|);
    assert once[..|items|] == once && items[..|items|] == items;
  }

  lemma AdmitItemAgain(q: Quota, l: Limits, d: Desk, i: Item)
    ensures AdmitItem(q, l, d, AdmitItem(q, l, d, i)) == AdmitItem(q, l, d, i)
    ensures AdmitDesk(q, l, d, AdmitItem(q, l, d, i)) == AdmitDesk(q, l, d, i)
  {
  }

  /** What the executor finds out about one item when it holds the lock. */
  datatype Facts = Facts(
    hasMatch: bool, resolved: bool, terminal: bool, kickoffMoved: bool, preMatch: bool,
    notBefore: Option<int>, notAfter: Option<int>, identity: Status)

  /** Why a planned item is withdrawn before it is admitted again, if it is. */
  function Withdrawn(i: Item, f: Facts, now: int): Option<Status> {
    if f.hasMatch && i.purpose.ResultRefresh? && f.resolved then Some(AlreadyFulfilled)
    else if f.hasMatch && i.purpose.ResultRefresh? && f.terminal then Some(StatusIneligible)
    else if f.hasMatch && i.purpose.OddsCapture? && f.kickoffMoved then Some(NotDue)
    else if f.hasMatch && i.purpose.OddsCapture? && !f.preMatch then Some(StatusIneligible)
    else if f.notBefore.Some? && now < f.notBefore.value then Some(NotDue)
    else if f.notAfter.Some? && now > f.notAfter.value then Some(MissedWindow)
    else if f.identity != Planned then Some(f.identity)
    else None
  }

  /** A planned item survives revalidation exactly when its window is open, its identity stands, and its match still needs it. */
  lemma RevalidationMeans(i: Item, f: Facts, now: int)
    requires i.status == Planned
    ensures var d := Revalidated(i, f, now);
            var early, late := f.notBefore.Some? && now < f.notBefore.value, f.notAfter.Some? && f.notAfter.value < now;
            var result, odds := f.hasMatch && i.purpose.ResultRefresh?, f.hasMatch && i.purpose.OddsCapture?;
            var needless, settled, moved, begun := result && f.resolved, result && f.terminal, odds && f.kickoffMoved, odds && !f.preMatch;
            && d.purpose == i.purpose && d.minCost == d.maxCost
            && (d.status == Planned && d.minCost == 1 <==>
                  !needless && !settled && !moved && !begun && !early && !late && f.identity == Planned)
            && (!(d.status == Planned && d.minCost == 1) ==> d.minCost == 0)
            && (needless ==> d.status == AlreadyFulfilled)
            && (settled && !needless ==> d.status == StatusIneligible)
            && (moved ==> d.status == NotDue) && (begun && !moved ==> d.status == StatusIneligible)
            && (!needless && !settled && !moved && !begun ==>
                  && (early ==> d.status == NotDue) && (late && !early ==> d.status == MissedWindow)
                  && (!early && !late ==> d.status == f.identity))
  {
  }

  function Revalidated(i: Item, f: Facts, now: int): Item {
    if i.status != Planned then i
    else
      var w := Withdrawn(i, f, now);
      if w.Some? then Defer(i, w.value) else i.(minCost := 1, maxCost := 1)
  }

  function RevalidatedAll(items: seq<Item>, facts: seq<Facts>, now: int): (r: seq<Item>)
    requires |facts| == |items|
    ensures |r| == |items|
  {
    seq(|items|, i requires 0 <= i < |items| => Revalidated(items[i], facts[i], now))
  }

  /** Under the lock: look at every planned item again, then admit under the fresh quota. */
  method RevalidateUnderLock(items: array<Item>, facts: seq<Facts>, now: int, q: Quota, l: Limits, r: Reserve) returns (d: Desk)
    requires |facts| == items.Length
    modifies items
    ensures items[..] == Admitted(q, l, r, RevalidatedAll(old(items[..]), facts, now))
    ensures d == DeskAfter(q, l, r, RevalidatedAll(old(items[..]), facts, now))
  {
    ghost var was := items[..];
    for k := 0 to items.Length
      invariant items[..k] == RevalidatedAll(was, facts, now)[..k] && items[k..] == was[k..]
    {
      assert items[k] == was[k] by { assert items[k] == items[k..][0]; }
      if items[k].status == Planned {
        var w := Withdrawn(items[k], facts[k], now);
        if w.Some? {
          items[k] := Defer(items[k], w.value);
        } else {
          items[k] := items[k].(minCost := 1, maxCost := 1);
        }
      }
      assert items[k] == RevalidatedAll(was, facts, now)[k];
    }
    assert items[..] == RevalidatedAll(was, facts, now);
    d := Admit(items, q, l, r);
  }

  /** Revalidation never plans what was not planned, and never more than the fresh quota pays for. */
  lemma RevalidationShrinks(items: seq<Item>, facts: seq<Facts>, now: int, q: Quota, l: Limits, r: Reserve)
    requires |facts| == |items| && r.Whole()
    ensures var a := Admitted(q, l, r, RevalidatedAll(items, facts, now));
            && (forall i :: 0 <= i < |items| && a[i].status == Planned ==>
                  items[i].status == Planned && Withdrawn(items[i], facts[i], now).None? && a[i].minCost == 1 && a[i].maxCost == 1)
            && (forall i :: 0 <= i < |items| && items[i].status != Planned ==> a[i] == items[i])
            && (PlannedCount(a) == 0 || (PlannedCount(a) <= Begin(q, l, r).projected && PlannedCount(a) <= Begin(q, l, r).allowed))
  {
    var again := RevalidatedAll(items, facts, now);
    WithinBudget(q, l, r, again);
    hide PlannedCount;
    hide DeskAfter;
    forall i | 0 <= i < |items|
      ensures Admitted(q, l, r, again)[i].status == Planned ==>
                items[i].status == Planned && Withdrawn(items[i], facts[i], now).None?
      ensures items[i].status != Planned ==> Admitted(q, l, r, again)[i] == items[i]
    {
      OnlyShrinks(q, l, r, again, i);
    }
  }

  // ---- when a result is looked up ------------------------------------------------------

  const MINUTE: int := 60_000_000
  const WAKE: int := 180_000_000

  /** The first three-minute wake for a deadline ahead; an overdue one uses this wake. Instants are UTC microseconds. */
  function ResultCheck(deadline: int, at: int): int {
    if deadline <= at then at
    else
      var minute := deadline / MINUTE % 60;
      var floor := deadline - deadline % MINUTE - minute % 3 * MINUTE;
      if deadline == floor then floor else floor + WAKE
  }

  lemma MinutesWithinHour(minutes: int)
    ensures minutes % 60 % 3 == minutes % 3
  {
    var hours := minutes / 60;
    assert minutes == 3 * (20 * hours) + minutes % 60;
  }

  /** The wake is the first multiple of three minutes at or after a deadline still ahead. */
  lemma ResultCheckFirst(deadline: int, at: int)
    ensures deadline <= at ==> ResultCheck(deadline, at) == at
    ensures at < deadline ==>
              var wake := ResultCheck(deadline, at);
              wake % WAKE == 0 && deadline <= wake < deadline + WAKE && at < wake
  {
    var minutes := deadline / MINUTE;
    MinutesWithinHour(minutes);
    assert deadline == minutes * MINUTE + deadline % MINUTE;
    var third := minutes / 3;
    assert minutes == third * 3 + minutes % 3;
    assert (third * WAKE) % WAKE == 0 && ((third + 1) * WAKE) % WAKE == 0;
  }
}

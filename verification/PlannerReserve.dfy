/**
  The critical work of a capture plan (football/capture/planner.py) and the
  reserve that protects it (football/quota.py), from the same stored facts. The
  reserve foresees every fixture refresh of the plan. Of the final quotes it
  misses exactly those of matches that were captured before, for another
  kickoff.
 */
module PlannerReserve {
  import opened Common
  import opened Admission

  const MINUTE: int := 60_000_000
  const DAY: int := 86_400_000_000
  const OFFSET: int := 10 * MINUTE
  const LATE: int := 8 * MINUTE

  /** What is stored under one logical identity. */
  datatype Work = Work(fulfilled: bool, attempted: bool) {
    function Standing(): Status {
      if fulfilled then AlreadyFulfilled else if attempted then Refused(0) else Planned
    }
  }

  /** A postponed match with an open position, and whether its identity is resolved. */
  datatype Recovery = Recovery(resolved: bool, work: Work)

  /**
    A match: `work` is stored for its final quote at the present kickoff;
    `captured` says whether a final quote was ever captured, for whatever
    kickoff.
   */
  datatype Match = Match(enabled: bool, preMatch: bool, viable: bool, kickoff: int, work: Work, captured: bool) {
    predicate Consistent() {
      work.fulfilled ==> captured
    }

    function Target(): int {
      kickoff - OFFSET
    }
  }

  /** UTC midnight after `at`. */
  function EpochEnd(at: int): int {
    (at / DAY + 1) * DAY
  }

  // ---- the plan ------------------------------------------------------------------------

  function ItemOf(p: Purpose, s: Status): Item {
    var cost := if s == Planned then 1 else 0;
    Item(p, s, cost, cost)
  }

  function DiscoveryItems(days: seq<Work>): seq<Item> {
    if days == [] then [] else [ItemOf(FixtureRefresh, days[0].Standing())] + DiscoveryItems(days[1..])
  }

  function RecoveryItems(rs: seq<Recovery>): seq<Item> {
    if rs == [] then []
    else if rs[0].resolved then [ItemOf(FixtureRefresh, rs[0].work.Standing())] + RecoveryItems(rs[1..])
    else RecoveryItems(rs[1..])
  }

  function WindowStatus(m: Match, at: int): Status {
    if m.work.Standing() != Planned then m.work.Standing()
    else if at < m.Target() then NotDue
    else if m.Target() + LATE < at then MissedWindow
    else Planned
  }

  function QuoteStatus(m: Match, at: int): Status {
    if !m.preMatch then StatusIneligible else if !m.viable then Refused(1) else WindowStatus(m, at)
  }

  /** The matches that the plan looks at. */
  predicate Listed(m: Match, at: int, horizon: int) {
    m.enabled && at < m.kickoff <= at + horizon
  }

  function QuoteItems(ms: seq<Match>, at: int, horizon: int): seq<Item> {
    if ms == [] then []
    else if Listed(ms[0], at, horizon) then
      [ItemOf(OddsCapture(true), QuoteStatus(ms[0], at))] + QuoteItems(ms[1..], at, horizon)
    else QuoteItems(ms[1..], at, horizon)
  }

  /** The stored facts a plan and its reserve are made from. */
  datatype Stored = Stored(discovery: bool, days: seq<Work>, recoveries: seq<Recovery>, matches: seq<Match>) {
    ghost predicate Consistent() {
      forall m :: m in matches ==> m.Consistent()
    }
  }

  /** Everything planned before sorting; `optional` are the result refreshes. */
  function Plan(f: Stored, at: int, horizon: int, optional: seq<Item>): seq<Item> {
    (if f.discovery then DiscoveryItems(f.days) + RecoveryItems(f.recoveries) else [])
    + QuoteItems(f.matches, at, horizon) + optional
  }

  // ---- the reserve ---------------------------------------------------------------------

  function Missing(days: seq<Work>): nat {
    if days == [] then 0 else Missing(days[1..]) + if days[0].fulfilled then 0 else 1
  }

  function Resolved(rs: seq<Recovery>): nat {
    if rs == [] then 0 else Resolved(rs[1..]) + if rs[0].resolved then 1 else 0
  }

  /** A final quote that the present epoch still owes. */
  predicate Obliged(m: Match, at: int) {
    && m.enabled && m.preMatch && at < m.kickoff <= EpochEnd(at) + OFFSET && m.viable
    && m.Target() < EpochEnd(at) && !m.captured && at <= m.Target() + LATE
  }

  function Obligations(ms: seq<Match>, at: int): nat {
    if ms == [] then 0 else Obligations(ms[1..], at) + if Obliged(ms[0], at) then 1 else 0
  }

  /** `dynamic_reserve`, with the open-result calls counted elsewhere. */
  function ReserveOf(f: Stored, at: int, openResult: nat): Reserve {
    var fixture := if f.discovery then Missing(f.days) + Resolved(f.recoveries) else 0;
    var t10 := Obligations(f.matches, at);
    Reserve(fixture, t10, openResult, 0, fixture + t10 + openResult)
  }

  // ---- what the reserve foresees -------------------------------------------------------

  /** A final quote that the plan asks for now. */
  predicate Scheduled(m: Match, at: int, horizon: int) {
    Listed(m, at, horizon) && QuoteStatus(m, at) == Planned
  }

  /** Scheduled quotes of matches captured before, for another kickoff. */
  function Recaptures(ms: seq<Match>, at: int, horizon: int): nat {
    if ms == [] then 0
    else Recaptures(ms[1..], at, horizon) + if Scheduled(ms[0], at, horizon) && ms[0].captured then 1 else 0
  }

  /** Quotes owed in this epoch that are not asked for now. */
  function Spare(ms: seq<Match>, at: int, horizon: int): nat {
    if ms == [] then 0
    else Spare(ms[1..], at, horizon) + if Obliged(ms[0], at) && !Scheduled(ms[0], at, horizon) then 1 else 0
  }

  /** A scheduled quote is owed exactly when the match was never captured. */
  lemma ScheduledObliged(m: Match, at: int, horizon: int)
    requires Scheduled(m, at, horizon)
    ensures Obliged(m, at) <==> !m.captured
  {
  }

  /** The epoch ends at the first whole day after `at`. */
  lemma EpochEnds(at: int)
    ensures at < EpochEnd(at) <= at + 24 * 60 * 60 * 1_000_000 && EpochEnd(at) % (24 * 60 * 60 * 1_000_000) == 0
  {
  }

  /**
    What the reserve holds back is what the plan will ask for: of a match whose quote nobody has touched, the present epoch
    owes the final quote if and only if none was captured and a plan made at some later instant of the epoch asks for it.
   */
  lemma OwedIsAsked(m: Match, at: int, horizon: int)
    requires OFFSET <= horizon && !m.work.fulfilled && !m.work.attempted
    ensures Obliged(m, at) <==> !m.captured && exists t :: at <= t < EpochEnd(at) && Scheduled(m, t, horizon)
  {
    EpochEnds(at);
    var t := if at < m.Target() then m.Target() else at;
    if Obliged(m, at) {
      assert Scheduled(m, t, horizon);
    }
  }

  /** One more match adds one item if it is enabled and kicks off within the horizon, priced at one call if it is asked for. */
  lemma {:induction false} QuoteItemsMore(ms: seq<Match>, m: Match, at: int, horizon: int)
    ensures QuoteItems([], at, horizon) == []
    ensures var items, more := QuoteItems(ms, at, horizon), QuoteItems(ms + [m], at, horizon);
            if m.enabled && at < m.kickoff && m.kickoff - at <= horizon then
              && |more| == |items| + 1 && more[..|items|] == items
              && var i := more[|items|];
                 && i.purpose == OddsCapture(true) && i.status == QuoteStatus(m, at)
                 && i.minCost == i.maxCost == (if i.status == Planned then 1 else 0)
            else more == items
  {
    hide QuoteStatus;
    if ms == [] {
      assert ms + [m] == [m] && [m][1..] == [];
      assert QuoteItems([m][1..], at, horizon) == [];
    } else {
      assert (ms + [m])[1..] == ms[1..] + [m];
      QuoteItemsMore(ms[1..], m, at, horizon);
    }
  }

  /** Why a listed quote is not asked for now: what is stored stands, a window not open yet, or one that has closed. */
  lemma StatusMeans(m: Match, at: int)
    ensures var s := QuoteStatus(m, at);
            && (!m.preMatch ==> s == StatusIneligible) && (m.preMatch && !m.viable ==> s.Refused?)
            && (m.preMatch && m.viable ==>
                  && (m.work.fulfilled ==> s == AlreadyFulfilled) && (m.work.attempted && !m.work.fulfilled ==> s.Refused?)
                  && (!m.work.fulfilled && !m.work.attempted ==>
                        && (s == NotDue <==> at < m.kickoff - 10 * 60 * 1_000_000)
                        && (s == MissedWindow <==> m.kickoff - 2 * 60 * 1_000_000 < at)
                        && (s == Planned <==> m.kickoff - 10 * 60 * 1_000_000 <= at <= m.kickoff - 2 * 60 * 1_000_000)))
  {
  }

  lemma {:induction false} PlannedOfJoin(a: seq<Item>, b: seq<Item>, p: Purpose)
    ensures PlannedOf(a + b, p) == PlannedOf(a, p) + PlannedOf(b, p)
  {
    if a == [] {
      assert a + b == b;
    } else {
      assert (a + b)[1..] == a[1..] + b;
      PlannedOfJoin(a[1..], b, p);
    }
  }

  lemma Without(s: seq<Item>, i: nat)
    requires i < |s|
    ensures multiset(s[..i] + s[i + 1..]) == multiset(s) - multiset{s[i]}
  {
    assert s == s[..i] + [s[i]] + s[i + 1..];
  }

  lemma CountWithout(s: seq<Item>, i: nat, p: Purpose)
    requires i < |s|
    ensures PlannedOf(s, p) == PlannedOf(s[..i] + s[i + 1..], p) + if s[i].status == Planned && s[i].purpose == p then 1 else 0
  {
    assert s == s[..i] + ([s[i]] + s[i + 1..]);
    assert ([s[i]] + s[i + 1..])[1..] == s[i + 1..];
    PlannedOfJoin(s[..i], [s[i]] + s[i + 1..], p);
    PlannedOfJoin(s[..i], s[i + 1..], p);
  }

  lemma SameWithoutFirst(a: seq<Item>, b: seq<Item>) returns (i: nat)
    requires a != [] && multiset(a) == multiset(b)
    ensures i < |b| && b[i] == a[0] && multiset(a[..0] + a[1..]) == multiset(b[..i] + b[i + 1..])
  {
    assert a[0] in multiset(b);
    i :| 0 <= i < |b| && b[i] == a[0];
    Without(a, 0);
    Without(b, i);
  }

  lemma {:induction false} PlannedOfForgets(a: seq<Item>, b: seq<Item>, p: Purpose)
    requires multiset(a) == multiset(b)
    ensures PlannedOf(a, p) == PlannedOf(b, p)
    decreases |a|
  {
    if a == [] {
      assert |b| == |multiset(b)| == 0;
    } else {
      hide PlannedOf;
      var i := SameWithoutFirst(a, b);
      CountWithout(a, 0, p);
      CountWithout(b, i, p);
      PlannedOfForgets(a[..0] + a[1..], b[..i] + b[i + 1..], p);
    }
  }

  lemma {:induction false} DiscoveryForeseen(days: seq<Work>)
    ensures PlannedOf(DiscoveryItems(days), FixtureRefresh) <= Missing(days)
    ensures PlannedOf(DiscoveryItems(days), OddsCapture(true)) == 0
  {
    if days != [] {
      DiscoveryForeseen(days[1..]);
      assert DiscoveryItems(days)[1..] == DiscoveryItems(days[1..]);
    }
  }

  lemma {:induction false} RecoveryForeseen(rs: seq<Recovery>)
    ensures PlannedOf(RecoveryItems(rs), FixtureRefresh) <= Resolved(rs)
    ensures PlannedOf(RecoveryItems(rs), OddsCapture(true)) == 0
  {
    if rs != [] {
      RecoveryForeseen(rs[1..]);
      if rs[0].resolved { assert RecoveryItems(rs)[1..] == RecoveryItems(rs[1..]); }
    }
  }

  /** Scheduled quotes and quotes owed differ by the recaptures and the spare ones. */
  lemma {:induction false} QuotesForeseen(ms: seq<Match>, at: int, horizon: int)
    requires forall m :: m in ms ==> m.Consistent()
    ensures PlannedOf(QuoteItems(ms, at, horizon), OddsCapture(true)) + Spare(ms, at, horizon) ==
            Obligations(ms, at) + Recaptures(ms, at, horizon)
    ensures PlannedOf(QuoteItems(ms, at, horizon), FixtureRefresh) == 0
  {
    if ms != [] {
      QuotesForeseen(ms[1..], at, horizon);
      if Scheduled(ms[0], at, horizon) { ScheduledObliged(ms[0], at, horizon); }
      hide Obliged;
      hide QuoteStatus;
      if Listed(ms[0], at, horizon) {
        assert QuoteItems(ms, at, horizon)[1..] == QuoteItems(ms[1..], at, horizon);
      }
    }
  }

  lemma {:induction false} OptionalUnplanned(items: seq<Item>, p: Purpose)
    requires p.Critical() && forall i :: i in items ==> !i.purpose.Critical()
    ensures PlannedOf(items, p) == 0
  {
    if items != [] {
      assert items[0] in items;
      OptionalUnplanned(items[1..], p);
    }
  }

  /** How many critical calls of each kind a plan asks for. */
  lemma PlanCounts(f: Stored, at: int, horizon: int, optional: seq<Item>)
    requires f.Consistent() && forall i :: i in optional ==> !i.purpose.Critical()
    ensures var plan, r := Plan(f, at, horizon, optional), ReserveOf(f, at, 0);
            && PlannedOf(plan, FixtureRefresh) <= r.fixture
            && PlannedOf(plan, OddsCapture(true)) + Spare(f.matches, at, horizon) == r.t10 + Recaptures(f.matches, at, horizon)
  {
    var fixtures := if f.discovery then DiscoveryItems(f.days) + RecoveryItems(f.recoveries) else [];
    var quotes := QuoteItems(f.matches, at, horizon);
    QuotesForeseen(f.matches, at, horizon);
    DiscoveryForeseen(f.days);
    RecoveryForeseen(f.recoveries);
    hide QuoteItems;
    hide DiscoveryItems;
    hide RecoveryItems;
    hide Obligations;
    forall p | p == FixtureRefresh || p == OddsCapture(true)
      ensures PlannedOf(Plan(f, at, horizon, optional), p) == PlannedOf(fixtures, p) + PlannedOf(quotes, p)
      ensures f.discovery ==>
                PlannedOf(fixtures, p) == PlannedOf(DiscoveryItems(f.days), p) + PlannedOf(RecoveryItems(f.recoveries), p)
    {
      PlannedOfJoin(DiscoveryItems(f.days), RecoveryItems(f.recoveries), p);
      PlannedOfJoin(fixtures, quotes, p);
      PlannedOfJoin(fixtures + quotes, optional, p);
      OptionalUnplanned(optional, p);
    }
  }

  lemma {:induction false} DaysExact(days: seq<Work>)
    requires forall i :: 0 <= i < |days| ==> !days[i].attempted
    ensures PlannedOf(DiscoveryItems(days), FixtureRefresh) == Missing(days)
  {
    if days != [] {
      DaysExact(days[1..]);
      assert DiscoveryItems(days)[1..] == DiscoveryItems(days[1..]);
    }
  }

  lemma {:induction false} RecoveriesExact(rs: seq<Recovery>)
    requires forall i :: 0 <= i < |rs| ==> !rs[i].work.attempted && !rs[i].work.fulfilled
    ensures PlannedOf(RecoveryItems(rs), FixtureRefresh) == Resolved(rs)
  {
    if rs != [] {
      RecoveriesExact(rs[1..]);
      if rs[0].resolved { assert RecoveryItems(rs)[1..] == RecoveryItems(rs[1..]); }
    }
  }

  /** Before anything was tried, the reserve holds back exactly the fixture refreshes that the plan asks for. */
  lemma FixturesExact(f: Stored, at: int, horizon: int, optional: seq<Item>)
    requires f.Consistent() && forall i :: i in optional ==> !i.purpose.Critical()
    requires forall i :: 0 <= i < |f.days| ==> !f.days[i].attempted
    requires forall i :: 0 <= i < |f.recoveries| ==> !f.recoveries[i].work.attempted && !f.recoveries[i].work.fulfilled
    ensures PlannedOf(Plan(f, at, horizon, optional), FixtureRefresh) == ReserveOf(f, at, 0).fixture
  {
    DaysExact(f.days);
    RecoveriesExact(f.recoveries);
    QuotesForeseen(f.matches, at, horizon);
    OptionalUnplanned(optional, FixtureRefresh);
    var fixtures := if f.discovery then DiscoveryItems(f.days) + RecoveryItems(f.recoveries) else [];
    var quotes := QuoteItems(f.matches, at, horizon);
    PlannedOfJoin(DiscoveryItems(f.days), RecoveryItems(f.recoveries), FixtureRefresh);
    PlannedOfJoin(fixtures, quotes, FixtureRefresh);
    PlannedOfJoin(fixtures + quotes, optional, FixtureRefresh);
    hide QuoteItems;
    hide DiscoveryItems;
    hide RecoveryItems;
    hide Obligations;
  }

  /**
    The reserve foresees the critical work of its plan, in whatever order the
    plan is listed, exactly when quotes that are owed but not asked for now make
    up for those of matches captured before for another kickoff.
   */
  lemma PlanForeseen(f: Stored, at: int, horizon: int, optional: seq<Item>, openResult: nat, items: seq<Item>)
    requires f.Consistent() && (forall i :: i in optional ==> !i.purpose.Critical())
    requires multiset(items) == multiset(Plan(f, at, horizon, optional))
    ensures Foreseen(ReserveOf(f, at, openResult), items, 0) <==>
            Recaptures(f.matches, at, horizon) <= Spare(f.matches, at, horizon)
  {
    PlanCounts(f, at, horizon, optional);
    PlannedOfForgets(items, Plan(f, at, horizon, optional), FixtureRefresh);
    PlannedOfForgets(items, Plan(f, at, horizon, optional), OddsCapture(true));
    assert items[0..] == items;
    hide Plan;
    hide Missing;
    hide Resolved;
    hide Obligations;
    hide PlannedOf;
  }

  /** A match captured for its former kickoff, delayed by an hour, and due again. */
  function Delayed(): Stored {
    Stored(true, [], [], [Match(true, true, true, 60 * MINUTE, Work(false, false), true)])
  }

  /** Its second quote is planned and no reserve is held for it. */
  lemma DelayedUnforeseen()
    ensures var at := 50 * MINUTE;
            && Delayed().Consistent()
            && Plan(Delayed(), at, DAY, []) == [Item(OddsCapture(true), Planned, 1, 1)]
            && ReserveOf(Delayed(), at, 0).total == 0
            && !Foreseen(ReserveOf(Delayed(), at, 0), Plan(Delayed(), at, DAY, []), 0)
  {
    var at, ms := 50 * MINUTE, Delayed().matches;
    assert ms[1..] == [];
    assert QuoteItems(ms[1..], at, DAY) == [] && Obligations(ms[1..], at) == 0;
    assert QuoteItems(ms, at, DAY) == [Item(OddsCapture(true), Planned, 1, 1)];
    var plan := Plan(Delayed(), at, DAY, []);
    assert DiscoveryItems([]) == [] && RecoveryItems([]) == [];
    assert plan == [Item(OddsCapture(true), Planned, 1, 1)];
    assert plan[0..] == plan && plan[1..] == [];
    assert PlannedOf(plan, OddsCapture(true)) == 1;
  }
}

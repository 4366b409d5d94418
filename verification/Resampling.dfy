/**
  Moving-block resampling of whole weeks (football/experiments/capital_analysis.py).
  Instants are UTC microseconds; Lima is five hours behind.
 */
module Resampling {
  const DAY: int := 86_400_000_000
  const WEEK: int := 604_800_000_000
  const LIMA: int := 18_000_000_000

  /** Any opportunity; `rest` stands for what a copy keeps untouched. */
  datatype Opportunity = Opportunity(identity: int, executionAt: int, kickoff: int, rest: int)

  /** A copy is known by its destination week and the identity it copies. */
  datatype Copy = Copy(destination: nat, identity: int, executionAt: int, kickoff: int, rest: int)

  /** Midnight in Lima on the Monday of that week; the epoch was a Thursday. */
  function WeekStart(at: int): int {
    var local := at - LIMA;
    var day := local / DAY;
    var weekday := (day + 3) % 7;
    (day - weekday) * DAY + LIMA
  }

  lemma WeekContains(at: int)
    ensures WeekStart(at) <= at < WeekStart(at) + WEEK
  {
  }

  lemma DayAhead(local: int, n: int)
    ensures (local + n * DAY) / DAY == local / DAY + n
  {
    assert (local / DAY + n) * DAY + local % DAY == local + n * DAY;
  }

  lemma WeekdayAhead(day: int, n: int)
    ensures (day + 7 * n + 3) % 7 == (day + 3) % 7
  {
    var q := (day + 3) / 7;
    assert day + 7 * n + 3 == 7 * (q + n) + (day + 3) % 7;
  }

  /** Whole weeks later it is the same moment of the week. */
  lemma WeeksAhead(at: int, n: int)
    ensures WeekStart(at + n * WEEK) == WeekStart(at) + n * WEEK
  {
    DayAhead(at - LIMA, 7 * n);
    WeekdayAhead((at - LIMA) / DAY, n);
    assert at + n * WEEK - LIMA == (at - LIMA) + 7 * n * DAY;
  }

  // ---- the calendar --------------------------------------------------------------------

  function FirstWeek(os: seq<Opportunity>): int
    requires os != []
  {
    var last := WeekStart(os[|os| - 1].executionAt);
    if |os| == 1 then last
    else
      var before := FirstWeek(os[..|os| - 1]);
      if last < before then last else before
  }

  function LastWeek(os: seq<Opportunity>): int
    requires os != []
  {
    var last := WeekStart(os[|os| - 1].executionAt);
    if |os| == 1 then last
    else
      var before := LastWeek(os[..|os| - 1]);
      if before < last then last else before
  }

  lemma {:induction false} WeeksBetween(os: seq<Opportunity>)
    requires os != []
    ensures forall i :: 0 <= i < |os| ==> FirstWeek(os) <= WeekStart(os[i].executionAt) <= LastWeek(os)
  {
    if |os| > 1 {
      WeeksBetween(os[..|os| - 1]);
      assert forall i :: 0 <= i < |os| - 1 ==> os[..|os| - 1][i] == os[i];
    }
  }

  /** Every week from the first execution to the last, empty ones included. */
  function Calendar(os: seq<Opportunity>): (weeks: seq<int>)
    requires os != []
    ensures |weeks| >= 1
  {
    WeeksBetween(os);
    var first := FirstWeek(os);
    seq((LastWeek(os) - first) / WEEK + 1, i requires 0 <= i => first + i * WEEK)
  }

  /** Weeks that follow one another. */
  ghost predicate Consecutive(weeks: seq<int>) {
    && (forall i :: 0 <= i < |weeks| ==> weeks[i] == weeks[0] + i * WEEK)
    && (weeks != [] ==> WeekStart(weeks[0]) == weeks[0])
  }

  lemma WeekStartStarts(at: int)
    ensures WeekStart(WeekStart(at)) == WeekStart(at)
  {
  }

  lemma {:induction false} FirstWeekStarts(os: seq<Opportunity>)
    requires os != []
    ensures WeekStart(FirstWeek(os)) == FirstWeek(os)
  {
    WeekStartStarts(os[|os| - 1].executionAt);
    hide WeekStart;
    if |os| > 1 { FirstWeekStarts(os[..|os| - 1]); }
  }

  lemma CalendarConsecutive(os: seq<Opportunity>)
    requires os != []
    ensures Consecutive(Calendar(os))
  {
    FirstWeekStarts(os);
    hide WeekStart;
  }

  /** Mondays lie whole weeks apart. */
  function WeekNumber(at: int): int {
    ((at - LIMA) / DAY + 3) / 7
  }

  lemma WeekAligned(at: int)
    ensures WeekStart(at) == WeekNumber(at) * WEEK - 3 * DAY + LIMA
  {
    var day := (at - LIMA) / DAY;
    assert day + 3 == 7 * WeekNumber(at) + (day + 3) % 7;
  }

  lemma {:induction false} FirstAligned(os: seq<Opportunity>)
    requires os != []
    ensures exists i :: 0 <= i < |os| && FirstWeek(os) == WeekStart(os[i].executionAt)
  {
    hide WeekStart;
    var last := |os| - 1;
    if last > 0 {
      FirstAligned(os[..last]);
      var i :| 0 <= i < last && FirstWeek(os[..last]) == WeekStart(os[..last][i].executionAt);
      assert FirstWeek(os) == WeekStart(os[last].executionAt) || FirstWeek(os) == WeekStart(os[i].executionAt);
    } else {
      assert FirstWeek(os) == WeekStart(os[0].executionAt);
    }
  }

  lemma {:induction false} LastAligned(os: seq<Opportunity>)
    requires os != []
    ensures exists i :: 0 <= i < |os| && LastWeek(os) == WeekStart(os[i].executionAt)
  {
    hide WeekStart;
    var last := |os| - 1;
    if last > 0 {
      LastAligned(os[..last]);
      var i :| 0 <= i < last && LastWeek(os[..last]) == WeekStart(os[..last][i].executionAt);
      assert LastWeek(os) == WeekStart(os[last].executionAt) || LastWeek(os) == WeekStart(os[i].executionAt);
    } else {
      assert LastWeek(os) == WeekStart(os[0].executionAt);
    }
  }

  /** The calendar begins and ends with a week in which something executes. */
  lemma CalendarTight(os: seq<Opportunity>)
    requires os != []
    ensures exists i :: 0 <= i < |os| && Calendar(os)[0] == WeekStart(os[i].executionAt)
    ensures exists i :: 0 <= i < |os| && Calendar(os)[|Calendar(os)| - 1] == WeekStart(os[i].executionAt)
  {
    FirstAligned(os);
    LastAligned(os);
    var j :| 0 <= j < |os| && FirstWeek(os) == WeekStart(os[j].executionAt);
    var i :| 0 <= i < |os| && LastWeek(os) == WeekStart(os[i].executionAt);
    WeekAligned(os[i].executionAt);
    WeekAligned(os[j].executionAt);
    WeeksBetween(os);
    hide WeekStart;
    hide WeekNumber;
    WholeWeeks(FirstWeek(os), LastWeek(os), WeekNumber(os[i].executionAt) - WeekNumber(os[j].executionAt));
    var k := |Calendar(os)| - 1;
    assert Calendar(os)[k] == FirstWeek(os) + k * WEEK;
  }

  lemma WholeWeeks(first: int, last: int, k: int)
    requires last == first + k * WEEK && first <= last
    ensures first + (last - first) / WEEK * WEEK == last
  {
  }

  /** Every opportunity executes in a week of the calendar. */
  lemma CalendarCovers(os: seq<Opportunity>, i: nat)
    requires i < |os|
    ensures WeekStart(os[i].executionAt) in Calendar(os)
  {
    WeeksBetween(os);
    FirstAligned(os);
    var j :| 0 <= j < |os| && FirstWeek(os) == WeekStart(os[j].executionAt);
    WeekAligned(os[i].executionAt);
    WeekAligned(os[j].executionAt);
    hide WeekStart;
    hide WeekNumber;
    var k := WeekNumber(os[i].executionAt) - WeekNumber(os[j].executionAt);
    InCalendar(FirstWeek(os), LastWeek(os), WeekStart(os[i].executionAt), k);
    assert Calendar(os)[k] == WeekStart(os[i].executionAt);
  }

  lemma InCalendar(first: int, last: int, week: int, k: int)
    requires week == first + k * WEEK && first <= week <= last
    ensures 0 <= k < (last - first) / WEEK + 1
  {
  }

  // ---- the draw ------------------------------------------------------------------------

  /** One start for each block, each block fitting into the calendar. */
  ghost predicate ValidDraw(starts: seq<int>, length: int, weeks: nat) {
    && 1 <= length <= weeks
    && |starts| == (weeks + length - 1) / length
    && forall i :: 0 <= i < |starts| ==> 0 <= starts[i] <= weeks - length
  }

  /** A draw has just enough blocks to fill the calendar, and each of them fits into it. */
  lemma DrawMeans(starts: seq<int>, length: int, weeks: nat)
    ensures ValidDraw(starts, length, weeks) <==>
              && 1 <= length <= weeks && (|starts| - 1) * length < weeks <= |starts| * length
              && forall i :: 0 <= i < |starts| ==> 0 <= starts[i] && starts[i] + length <= weeks
  {
    if 1 <= length <= weeks {
      var q := (weeks + length - 1) / length;
      JustEnough(weeks, length, q);
      if (|starts| - 1) * length < weeks <= |starts| * length { OneCount(weeks, length, q, |starts|); }
    }
  }

  lemma JustEnough(weeks: int, length: int, q: int)
    requires 1 <= length && q == (weeks + length - 1) / length
    ensures (q - 1) * length < weeks <= q * length
  {
    assert weeks + length - 1 == q * length + (weeks + length - 1) % length;
    assert (q - 1) * length == q * length - length;
  }

  lemma OneCount(weeks: int, length: int, a: int, b: int)
    requires 1 <= length && (a - 1) * length < weeks <= a * length && (b - 1) * length < weeks <= b * length
    ensures a == b
  {
    if a < b { AtMost(a, b - 1, length); }
    if b < a { AtMost(b, a - 1, length); }
  }

  lemma AtMost(a: int, b: int, length: int)
    requires a <= b && 1 <= length
    ensures a * length <= b * length
  {
    assert (b - a) * length >= 0;
    assert (b - a) * length == b * length - a * length;
  }

  function Block(start: int, length: nat): (r: seq<int>)
    ensures |r| == length
  {
    seq(length, i requires 0 <= i => start + i)
  }

  function Blocks(starts: seq<int>, length: nat): seq<int> {
    if starts == [] then [] else Blocks(starts[..|starts| - 1], length) + Block(starts[|starts| - 1], length)
  }

  lemma {:induction false} BlocksSize(starts: seq<int>, length: nat)
    ensures |Blocks(starts, length)| == |starts| * length
  {
    if starts != [] {
      var last := |starts| - 1;
      BlocksSize(starts[..last], length);
      assert (last + 1) * length == last * length + length;
    }
  }

  /** Within one block the source weeks follow one another. */
  lemma {:induction false} BlockAt(starts: seq<int>, length: nat, d: nat)
    requires 1 <= length && d < |starts| * length
    ensures |Blocks(starts, length)| == |starts| * length
    ensures 0 <= d / length < |starts| && Blocks(starts, length)[d] == starts[d / length] + d % length
  {
    var last := |starts| - 1;
    BlocksSize(starts, length);
    BlocksSize(starts[..last], length);
    Quotient(d, length, |starts|);
    if d < last * length {
      Quotient(d, length, last);
      BlockAt(starts[..last], length, d);
    } else {
      QuotientLast(d, length, last);
    }
  }

  lemma MulOrder(a: int, b: int, c: nat)
    ensures a >= b ==> a * c >= b * c
  {
  }

  lemma Quotient(d: int, length: int, n: int)
    requires 0 <= d < n * length && 1 <= length && 0 <= n
    ensures 0 <= d / length < n
  {
    MulOrder(d / length, n, length);
  }

  lemma QuotientLast(d: int, length: int, n: int)
    requires 0 <= n && n * length <= d < (n + 1) * length && 1 <= length
    ensures d / length == n && d % length == d - n * length
  {
    Quotient(d, length, n + 1);
    MulOrder(n - 1, d / length, length);
  }

  /** Where every destination week is taken from: the blocks side by side, cut to the length of the calendar. */
  function SourceWeeks(starts: seq<int>, length: nat, weeks: nat): seq<int> {
    var all := Blocks(starts, length);
    if |all| <= weeks then all else all[..weeks]
  }

  lemma SourcesSize(starts: seq<int>, length: nat, weeks: nat)
    requires ValidDraw(starts, length, weeks)
    ensures |SourceWeeks(starts, length, weeks)| == weeks <= |Blocks(starts, length)| == |starts| * length
  {
    BlocksSize(starts, length);
    Enough(weeks, length);
    hide Blocks;
  }

  /** The source of one destination: its block's start and its place in the block. */
  lemma SourceAt(starts: seq<int>, length: nat, weeks: nat, d: nat)
    requires ValidDraw(starts, length, weeks) && d < weeks
    ensures |SourceWeeks(starts, length, weeks)| == weeks && 0 <= d / length < |starts|
    ensures SourceWeeks(starts, length, weeks)[d] == starts[d / length] + d % length
    ensures 0 <= SourceWeeks(starts, length, weeks)[d] < weeks
  {
    SourcesSize(starts, length, weeks);
    BlockAt(starts, length, d);
    assert 0 <= d % length < length;
    assert SourceWeeks(starts, length, weeks)[d] == Blocks(starts, length)[d];
    hide Blocks;
    hide SourceWeeks;
  }

  /** Exactly one source week for every destination, all of them in the calendar. */
  lemma SourcesInRange(starts: seq<int>, length: nat, weeks: nat)
    requires ValidDraw(starts, length, weeks)
    ensures var s := SourceWeeks(starts, length, weeks);
            |s| == weeks && forall d :: 0 <= d < weeks ==> 0 <= s[d] < weeks
  {
    hide ValidDraw;
    hide SourceWeeks;
    SourcesSize(starts, length, weeks);
    forall d | 0 <= d < weeks
      ensures 0 <= SourceWeeks(starts, length, weeks)[d] < weeks
    {
      SourceAt(starts, length, weeks, d);
    }
  }

  lemma Enough(weeks: int, length: int)
    requires 1 <= length <= weeks
    ensures (weeks + length - 1) / length * length >= weeks
  {
    var q := (weeks + length - 1) / length;
    assert weeks + length - 1 == q * length + (weeks + length - 1) % length;
  }

  // ---- the sampled path ----------------------------------------------------------------

  /** The opportunities of one week, in order. */
  function Bucket(os: seq<Opportunity>, week: int): seq<Opportunity> {
    if os == [] then []
    else Bucket(os[..|os| - 1], week) +
         if WeekStart(os[|os| - 1].executionAt) == week then [os[|os| - 1]] else []
  }

  lemma {:induction false} BucketHolds(os: seq<Opportunity>, week: int)
    ensures forall o :: o in Bucket(os, week) <==> o in os && WeekStart(o.executionAt) == week
  {
    hide WeekStart;
    if os != [] {
      BucketHolds(os[..|os| - 1], week);
      assert os == os[..|os| - 1] + [os[|os| - 1]];
    }
  }

  function CopyTo(o: Opportunity, destination: nat, shift: int): Copy {
    Copy(destination, o.identity, o.executionAt + shift, o.kickoff + shift, o.rest)
  }

  function CopyAll(bucket: seq<Opportunity>, destination: nat, shift: int): (r: seq<Copy>)
    ensures |r| == |bucket|
  {
    seq(|bucket|, i requires 0 <= i < |bucket| => CopyTo(bucket[i], destination, shift))
  }

  /** The first n destination weeks. */
  function Sampled(os: seq<Opportunity>, weeks: seq<int>, sources: seq<int>, n: nat): seq<Copy>
    requires n <= |sources| && n <= |weeks| && forall d :: 0 <= d < n ==> 0 <= sources[d] < |weeks|
  {
    if n == 0 then []
    else
      var source := sources[n - 1];
      Sampled(os, weeks, sources, n - 1) + CopyAll(Bucket(os, weeks[source]), n - 1, weeks[n - 1] - weeks[source])
  }

  function Sizes(os: seq<Opportunity>, weeks: seq<int>, sources: seq<int>, n: nat): nat
    requires n <= |sources| && n <= |weeks| && forall d :: 0 <= d < n ==> 0 <= sources[d] < |weeks|
  {
    if n == 0 then 0 else Sizes(os, weeks, sources, n - 1) + |Bucket(os, weeks[sources[n - 1]])|
  }

  /** The path is as long as the chosen weeks together. */
  lemma {:induction false} SampledSize(os: seq<Opportunity>, weeks: seq<int>, sources: seq<int>, n: nat)
    requires n <= |sources| && n <= |weeks| && forall d :: 0 <= d < n ==> 0 <= sources[d] < |weeks|
    ensures |Sampled(os, weeks, sources, n)| == Sizes(os, weeks, sources, n)
  {
    if n > 0 { SampledSize(os, weeks, sources, n - 1); }
  }

  /** What a copy keeps of the opportunity it copies, and where it lands. */
  ghost predicate Landed(os: seq<Opportunity>, weeks: seq<int>, sources: seq<int>, c: Copy, o: Opportunity) {
    && o in os && c.destination < |weeks| && c.destination < |sources| && 0 <= sources[c.destination] < |weeks|
    && c.identity == o.identity && c.rest == o.rest
    && WeekStart(o.executionAt) == weeks[sources[c.destination]]
    && WeekStart(c.executionAt) == weeks[c.destination]
    && weeks[c.destination] <= c.executionAt < weeks[c.destination] + WEEK
    && c.executionAt - weeks[c.destination] == o.executionAt - weeks[sources[c.destination]]
    && c.kickoff - c.executionAt == o.kickoff - o.executionAt
  }

  /** A copy of some opportunity, landed where it should. */
  ghost predicate Copied(os: seq<Opportunity>, weeks: seq<int>, sources: seq<int>, c: Copy) {
    exists o :: Landed(os, weeks, sources, c, o)
  }

  lemma CopyLands(os: seq<Opportunity>, weeks: seq<int>, sources: seq<int>, d: nat, o: Opportunity)
    requires Consecutive(weeks) && d < |weeks| && d < |sources| && 0 <= sources[d] < |weeks| && o in Bucket(os, weeks[sources[d]])
    ensures Landed(os, weeks, sources, CopyTo(o, d, weeks[d] - weeks[sources[d]]), o)
  {
    BucketHolds(os, weeks[sources[d]]);
    var n := d - sources[d];
    assert weeks[d] - weeks[sources[d]] == n * WEEK;
    WeeksAhead(o.executionAt, n);
    WeekContains(o.executionAt + n * WEEK);
    hide WeekStart;
  }

  /** Every copy lands in its destination week, at the same moment of the week and with the same time to kickoff. */
  lemma {:induction false} SampledLands(os: seq<Opportunity>, weeks: seq<int>, sources: seq<int>, n: nat, i: nat) returns (o: Opportunity)
    requires Consecutive(weeks) && n <= |sources| && n <= |weeks| && forall d :: 0 <= d < n ==> 0 <= sources[d] < |weeks|
    requires i < |Sampled(os, weeks, sources, n)|
    ensures Landed(os, weeks, sources, Sampled(os, weeks, sources, n)[i], o)
  {
    hide Landed;
    hide Consecutive;
    hide WeekStart;
    hide Bucket;
    hide CopyTo;
    var before := Sampled(os, weeks, sources, n - 1);
    if i < |before| {
      o := SampledLands(os, weeks, sources, n - 1, i);
    } else {
      o := Bucket(os, weeks[sources[n - 1]])[i - |before|];
      CopyLands(os, weeks, sources, n - 1, o);
    }
  }

  ghost predicate Unique(os: seq<Opportunity>) {
    forall i, j :: 0 <= i < j < |os| ==> os[i].identity != os[j].identity
  }

  ghost predicate UniqueCopies(cs: seq<Copy>) {
    forall i, j :: 0 <= i < j < |cs| ==> cs[i].destination != cs[j].destination || cs[i].identity != cs[j].identity
  }

  lemma {:induction false} BucketUnique(os: seq<Opportunity>, week: int)
    requires Unique(os)
    ensures Unique(Bucket(os, week))
  {
    hide WeekStart;
    if os != [] {
      var last := |os| - 1;
      BucketUnique(os[..last], week);
      BucketHolds(os[..last], week);
      forall o | o in os[..last]
        ensures o.identity != os[last].identity
      {
        var i :| 0 <= i < last && os[i] == o;
      }
      var before := Bucket(os[..last], week);
      forall i | 0 <= i < |before|
        ensures before[i].identity != os[last].identity
      {
        assert before[i] in before;
      }
    }
  }

  lemma {:induction false} SampledBefore(os: seq<Opportunity>, weeks: seq<int>, sources: seq<int>, n: nat)
    requires n <= |sources| && n <= |weeks| && forall d :: 0 <= d < n ==> 0 <= sources[d] < |weeks|
    ensures forall i :: 0 <= i < |Sampled(os, weeks, sources, n)| ==> Sampled(os, weeks, sources, n)[i].destination < n
  {
    if n > 0 { SampledBefore(os, weeks, sources, n - 1); }
  }

  /** A week may be drawn twice; its copies are still told apart. */
  lemma {:induction false} SampledUnique(os: seq<Opportunity>, weeks: seq<int>, sources: seq<int>, n: nat)
    requires Unique(os) && n <= |sources| && n <= |weeks| && forall d :: 0 <= d < n ==> 0 <= sources[d] < |weeks|
    ensures UniqueCopies(Sampled(os, weeks, sources, n))
  {
    if n > 0 {
      SampledUnique(os, weeks, sources, n - 1);
      SampledBefore(os, weeks, sources, n - 1);
      BucketUnique(os, weeks[sources[n - 1]]);
      hide Bucket;
    }
  }

  // ---- the loops -----------------------------------------------------------------------

  method Buckets(os: seq<Opportunity>, weeks: seq<int>) returns (buckets: map<int, seq<Opportunity>>)
    requires forall i :: 0 <= i < |os| ==> WeekStart(os[i].executionAt) in weeks
    ensures forall w :: w in weeks ==> w in buckets && buckets[w] == Bucket(os, w)
  {
    buckets := map w | w in weeks :: [];
    for i := 0 to |os|
      invariant forall w :: w in weeks ==> w in buckets && buckets[w] == Bucket(os[..i], w)
    {
      hide WeekStart;
      assert os[..i + 1][..i] == os[..i];
      var week := WeekStart(os[i].executionAt);
      buckets := buckets[week := buckets[week] + [os[i]]];
    }
    assert os[..|os|] == os;
  }

  /** Translate whole weeks into their destinations. */
  method SampledPath(os: seq<Opportunity>, weeks: seq<int>, starts: seq<int>, length: nat) returns (copies: seq<Copy>)
    requires ValidDraw(starts, length, |weeks|)
    requires forall i :: 0 <= i < |os| ==> WeekStart(os[i].executionAt) in weeks
    ensures var sources := SourceWeeks(starts, length, |weeks|);
            && |sources| == |weeks| && (forall d :: 0 <= d < |weeks| ==> 0 <= sources[d] < |weeks|)
            && copies == Sampled(os, weeks, sources, |weeks|)
  {
    hide WeekStart;
    hide Bucket;
    hide SourceWeeks;
    hide ValidDraw;
    SourcesInRange(starts, length, |weeks|);
    var buckets := Buckets(os, weeks);
    var sources := SourceWeeks(starts, length, |weeks|);
    copies := [];
    for d := 0 to |weeks|
      invariant copies == Sampled(os, weeks, sources, d)
    {
      var source := sources[d];
      var week := weeks[source];
      assert week in weeks;
      assert week in buckets && buckets[week] == Bucket(os, week);
      copies := copies + CopyAll(buckets[week], d, weeks[d] - week);
    }
  }

  /** What every valid draw makes of a set of opportunities. */
  lemma BootstrapPath(os: seq<Opportunity>, starts: seq<int>, length: nat)
    requires os != [] && Unique(os) && ValidDraw(starts, length, |Calendar(os)|)
    ensures var weeks := Calendar(os);
            var sources := SourceWeeks(starts, length, |weeks|);
            && |sources| == |weeks| && (forall d :: 0 <= d < |weeks| ==> 0 <= sources[d] < |weeks|)
            && var copies := Sampled(os, weeks, sources, |weeks|);
               && |copies| == Sizes(os, weeks, sources, |weeks|)
               && UniqueCopies(copies)
               && forall i :: 0 <= i < |copies| ==> Copied(os, weeks, sources, copies[i])
  {
    var weeks := Calendar(os);
    CalendarConsecutive(os);
    hide Calendar;
    SourcesInRange(starts, length, |weeks|);
    hide ValidDraw;
    var sources := SourceWeeks(starts, length, |weeks|);
    hide SourceWeeks;
    SampledSize(os, weeks, sources, |weeks|);
    SampledUnique(os, weeks, sources, |weeks|);
    var copies := Sampled(os, weeks, sources, |weeks|);
    hide Landed;
    hide Consecutive;
    hide Sampled;
    hide Unique;
    forall i | 0 <= i < |copies|
      ensures Copied(os, weeks, sources, copies[i])
    {
      var o := SampledLands(os, weeks, sources, |weeks|, i);
    }
  }
}

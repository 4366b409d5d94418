/**
  The two-provider result protocol of football/result_provider.py and the
  terminal guard of football/sync.py, for one match and its observations.
 */
module ResultProvider {
  import opened Common

  datatype Side = Home | Draw | Away

  /** FT is regulation time; cancelled and abandoned matches have no score; other codes are terminal or still live. */
  datatype Status = FullTime | Called(code: int) | OtherTerminal(code: int) | Live(code: int) {
    predicate Terminal() {
      !Live?
    }
  }

  datatype Provider = BSD | ApiFootball

  /** The result of a match as a provider reports it. */
  datatype Score = Score(outcome: Option<Side>, home: Option<int>, away: Option<int>)

  datatype Report = Report(provider: Provider, ref: int, status: Status, score: Score, at: int)

  datatype Match = Match(
    status: Status, outcome: Option<Side>, home: Option<int>, away: Option<int>, ftHome: Option<int>, ftAway: Option<int>,
    observedAt: int)
  {
    /** What a terminal result must never lose. */
    function Core(): (Status, Option<Side>, Option<int>, Option<int>) {
      (status, outcome, ftHome, ftAway)
    }

    /** The regulation score; a full-time match without one falls back to the plain score. */
    function Canonical(): Score {
      if status.FullTime? && (ftHome.None? || ftAway.None?) then Score(outcome, home, away)
      else Score(outcome, ftHome, ftAway)
    }
  }

  datatype Observation = Observation(
    provider: Provider, ref: int, at: int, status: Status, score: Score,
    authoritative: bool, conflict: bool, pending: bool, revision: bool)

  datatype State = State(m: Match, seen: seq<Observation>)

  datatype Verdict = Recorded | AlreadyRecorded | PendingConflict | ResultConflict

  const HALF_HOUR: int := 1_800_000_000

  // ---- queries -------------------------------------------------------------------------

  predicate Relevant(o: Observation, provider: Provider) {
    o.provider == provider && o.status.Terminal()
  }

  /** The terminal observation of a provider with the latest instant, the last stored one on a tie. */
  function Latest(seen: seq<Observation>, provider: Provider): (i: Option<nat>)
    ensures i.Some? ==> i.value < |seen| && Relevant(seen[i.value], provider)
  {
    if seen == [] then None
    else
      var last := |seen| - 1;
      var before := Latest(seen[..last], provider);
      if Relevant(seen[last], provider) && (before.None? || seen[before.value].at <= seen[last].at) then Some(last) else before
  }

  /** The terminal observation of a provider with the earliest instant, the first stored one on a tie. */
  function Earliest(seen: seq<Observation>, provider: Provider): (i: Option<nat>)
    ensures i.Some? ==> i.value < |seen| && Relevant(seen[i.value], provider)
  {
    if seen == [] then None
    else
      var last := |seen| - 1;
      var before := Earliest(seen[..last], provider);
      if Relevant(seen[last], provider) && (before.None? || seen[last].at < seen[before.value].at) then Some(last) else before
  }

  /** The stored observation with the same provider, reference and instant. */
  function Stored(seen: seq<Observation>, r: Report): (i: Option<nat>)
    ensures i.Some? ==> i.value < |seen| && seen[i.value].provider == r.provider && seen[i.value].ref == r.ref && seen[i.value].at == r.at
  {
    if seen == [] then None
    else
      var last := |seen| - 1;
      var before := Stored(seen[..last], r);
      if before.Some? then before
      else if seen[last].provider == r.provider && seen[last].ref == r.ref && seen[last].at == r.at then Some(last)
      else None
  }

  predicate Different(o: Observation, r: Report) {
    o.status != r.status || o.score != r.score
  }

  function Other(p: Provider): Provider {
    if p.BSD? then ApiFootball else BSD
  }

  /** What the stored observations say about a new report. */
  datatype Judgement = Judgement(discrepancy: bool, revision: bool, confirmed: bool, converged: bool, first: Option<nat>)

  function Judge(seen: seq<Observation>, r: Report): (j: Judgement)
    ensures j.first.Some? ==> j.first.value < |seen| && seen[j.first.value].provider == BSD
    ensures j.confirmed ==> j.discrepancy
  {
    var counterpart, previous, first := Latest(seen, Other(r.provider)), Latest(seen, r.provider), Earliest(seen, BSD);
    var discrepancy := r.status.Terminal() && counterpart.Some? && Different(seen[counterpart.value], r);
    var revision := r.status.Terminal() && previous.Some? && Different(seen[previous.value], r);
    var late := first.Some? && r.at >= seen[first.value].at + HALF_HOUR;
    var converged :=
      && revision && r.provider.BSD? && previous == first && !seen[previous.value].authoritative && !seen[previous.value].conflict
      && seen[previous.value].pending && counterpart.Some? && !discrepancy && late;
    Judgement(discrepancy, revision, discrepancy && r.provider.BSD? && late, converged, first)
  }

  // ---- record --------------------------------------------------------------------------

  /** The observation a new report is stored as. */
  function Fresh(r: Report, authoritative: bool, j: Judgement): Observation {
    Observation(r.provider, r.ref, r.at, r.status, r.score, authoritative && !j.discrepancy && !j.revision,
                j.confirmed || (j.revision && !j.converged), j.discrepancy && !j.confirmed, j.revision)
  }

  function Blame(o: Observation): Observation {
    o.(conflict := true, authoritative := false)
  }

  /** The first terminal result is written; a later one may only complete a missing plain score. */
  function Write(m: Match, r: Report): Match {
    if !m.status.Terminal() then
      var written := m.(status := r.status, outcome := r.score.outcome, ftHome := r.score.home, ftAway := r.score.away, observedAt := r.at);
      if r.status.FullTime? then written.(home := r.score.home, away := r.score.away) else written
    else if r.status.FullTime? && m.status.FullTime? && (m.home.None? || m.away.None?) then
      m.(home := r.score.home, away := r.score.away)
    else m
  }

  /** An authoritative terminal report meets the match. */
  function Settle(m: Match, seen: seq<Observation>, id: nat, r: Report, verdict: Verdict): (State, Verdict)
    requires id < |seen|
  {
    if m.status.Terminal() && m.Canonical() != r.score then
      (State(m, seen[id := Blame(seen[id])]), ResultConflict)
    else (State(Write(m, r), seen), verdict)
  }

  /** Mark the first BSD report: in doubt, or no longer. */
  function Mark(seen: seq<Observation>, i: nat, pending: bool): seq<Observation>
    requires i < |seen|
  {
    seen[i := seen[i].(pending := pending)]
  }

  /** Everything after the report is stored. */
  function Resolve(m: Match, seen: seq<Observation>, id: nat, r: Report, authoritative: bool, j: Judgement, verdict: Verdict)
    : (State, Verdict)
    requires id < |seen| && (j.first.Some? ==> j.first.value < |seen|)
  {
    if j.revision && !j.converged then
      (State(m, if seen[id].conflict then seen else seen[id := Blame(seen[id]).(revision := true)]), ResultConflict)
    else
      var doubted := if j.discrepancy && r.provider.ApiFootball? && j.first.Some? then Mark(seen, j.first.value, true) else seen;
      if j.confirmed then
        (State(m, if doubted[id].conflict then doubted else doubted[id := doubted[id].(conflict := true, pending := false)]), ResultConflict)
      else if j.discrepancy then (State(m, doubted), PendingConflict)
      else
        var cleared :=
          if j.first.Some? && r.provider.BSD? && doubted[j.first.value].pending then Mark(doubted, j.first.value, false) else doubted;
        if authoritative && r.status.Terminal() then Settle(m, cleared, id, r, verdict) else (State(m, cleared), verdict)
  }

  function Record(s: State, r: Report, authoritative: bool): (State, Verdict) {
    var j := Judge(s.seen, r);
    var stored := Stored(s.seen, r);
    if stored.Some? then Resolve(s.m, s.seen, stored.value, r, authoritative, j, AlreadyRecorded)
    else Resolve(s.m, s.seen + [Fresh(r, authoritative, j)], |s.seen|, r, authoritative, j, Recorded)
  }

  // ---- sync ----------------------------------------------------------------------------

  /** The regulation result of a match row, as a report of the first provider. */
  function ReportOf(m: Match, ref: int): Report {
    var score := m.Canonical();
    var whole := if score.home.None? || score.away.None? then Score(None, None, None) else score;
    Report(ApiFootball, ref, m.status, if m.status.Called? then Score(None, None, None) else whole, m.observedAt)
  }

  /** A fixture payload meets the match. */
  function Sync(s: State, payload: Match, ref: int): State {
    if s.m.status.Terminal() && payload.status.Terminal() then
      if ReportOf(s.m, ref).score != ReportOf(payload, ref).score then Record(s, ReportOf(payload, ref), false).0 else s
    else s.(m := payload)
  }

  // ---- the stored rows -----------------------------------------------------------------

  class ResultDesk {
    var m: Match
    var seen: seq<Observation>

    function View(): State
      reads this
    {
      State(m, seen)
    }

    method RecordReport(r: Report, authoritative: bool) returns (verdict: Verdict)
      modifies this
      ensures (View(), verdict) == Record(old(View()), r, authoritative)
    {
      hide Judge;
      hide Stored;
      var j := Judge(seen, r);
      var stored := Stored(seen, r);
      var id := 0;
      if stored.Some? {
        id := stored.value;
        verdict := AlreadyRecorded;
      } else {
        id := |seen|;
        seen := seen + [Fresh(r, authoritative, j)];
        verdict := Recorded;
      }
      verdict := ResolveReport(id, r, authoritative, j, verdict);
    }

    method ResolveReport(id: nat, r: Report, authoritative: bool, j: Judgement, was: Verdict) returns (verdict: Verdict)
      requires id < |seen| && (j.first.Some? ==> j.first.value < |seen|)
      modifies this
      ensures (View(), verdict) == Resolve(old(m), old(seen), id, r, authoritative, j, was)
    {
      verdict := was;
      if j.revision && !j.converged {
        if !seen[id].conflict {
          seen := seen[id := Blame(seen[id]).(revision := true)];
        }
        return ResultConflict;
      }
      if j.discrepancy && r.provider.ApiFootball? && j.first.Some? {
        seen := Mark(seen, j.first.value, true);
      }
      if j.confirmed {
        if !seen[id].conflict {
          seen := seen[id := seen[id].(conflict := true, pending := false)];
        }
        return ResultConflict;
      }
      if j.discrepancy {
        return PendingConflict;
      }
      if j.first.Some? && r.provider.BSD? && seen[j.first.value].pending {
        seen := Mark(seen, j.first.value, false);
      }
      if authoritative && r.status.Terminal() {
        if m.status.Terminal() && m.Canonical() != r.score {
          seen := seen[id := Blame(seen[id])];
          return ResultConflict;
        }
        m := Write(m, r);
      }
    }

    method SyncPayload(payload: Match, ref: int)
      modifies this
      ensures View() == Sync(old(View()), payload, ref)
    {
      hide Record;
      if m.status.Terminal() && payload.status.Terminal() {
        var prior, incoming := ReportOf(m, ref), ReportOf(payload, ref);
        if prior.score != incoming.score {
          var verdict := RecordReport(incoming, false);
        }
      } else {
        m := payload;
      }
    }
  }

  // ---- what the protocol keeps ---------------------------------------------------------

  /** A stored observation keeps its content and its conflict, and never regains authority. */
  ghost predicate Kept(a: Observation, b: Observation) {
    && b.provider == a.provider && b.ref == a.ref && b.at == a.at && b.status == a.status && b.score == a.score
    && (a.conflict ==> b.conflict) && (b.authoritative ==> a.authoritative)
  }

  ghost predicate AllKept(a: seq<Observation>, b: seq<Observation>) {
    |a| <= |b| && forall i :: 0 <= i < |a| ==> Kept(a[i], b[i])
  }

  lemma AllKeptTransitive(a: seq<Observation>, b: seq<Observation>, c: seq<Observation>)
    requires AllKept(a, b) && AllKept(b, c)
    ensures AllKept(a, c)
  {
    forall i | 0 <= i < |a|
      ensures Kept(a[i], c[i])
    {
      assert Kept(a[i], b[i]) && Kept(b[i], c[i]);
    }
  }

  lemma ResolveKeeps(m: Match, seen: seq<Observation>, id: nat, r: Report, authoritative: bool, j: Judgement, verdict: Verdict)
    requires id < |seen| && (j.first.Some? ==> j.first.value < |seen|)
    ensures var s := Resolve(m, seen, id, r, authoritative, j, verdict).0;
            AllKept(seen, s.seen) && |s.seen| == |seen| && (m.status.Terminal() ==> s.m.Core() == m.Core() && s.m.Canonical().outcome == m.Canonical().outcome)
  {
  }

  /** Recording a report takes nothing back, and never changes a terminal result. */
  lemma RecordKeeps(s: State, r: Report, authoritative: bool)
    ensures AllKept(s.seen, Record(s, r, authoritative).0.seen)
    ensures s.m.status.Terminal() ==> Record(s, r, authoritative).0.m.Core() == s.m.Core()
  {
    hide Judge;
    hide Stored;
    hide Resolve;
    hide Fresh;
    var j := Judge(s.seen, r);
    var stored := Stored(s.seen, r);
    if stored.Some? {
      ResolveKeeps(s.m, s.seen, stored.value, r, authoritative, j, AlreadyRecorded);
    } else {
      var more := s.seen + [Fresh(r, authoritative, j)];
      ResolveKeeps(s.m, more, |s.seen|, r, authoritative, j, Recorded);
      assert AllKept(s.seen, more);
      AllKeptTransitive(s.seen, more, Record(s, r, authoritative).0.seen);
    }
  }

  /** Syncing a payload takes nothing back; a terminal match keeps its result exactly when the payload is terminal. */
  lemma SyncKeeps(s: State, payload: Match, ref: int)
    ensures AllKept(s.seen, Sync(s, payload, ref).seen)
    ensures s.m.status.Terminal() ==> (Sync(s, payload, ref).m.Core() == s.m.Core() <==> payload.status.Terminal())
  {
    RecordKeeps(s, ReportOf(payload, ref), false);
    hide Record;
  }

  /** A payload that is not terminal does overwrite a terminal result. */
  lemma LivePayloadOverwrites(s: State, payload: Match, ref: int)
    requires s.m.status.Terminal() && !payload.status.Terminal()
    ensures Sync(s, payload, ref).m == payload && !Sync(s, payload, ref).m.status.Terminal()
  {
    SyncKeeps(s, payload, ref);
  }

  // ---- runs ----------------------------------------------------------------------------

  datatype Op = RecordOp(report: Report, authoritative: bool) | SyncOp(payload: Match, ref: int)

  function Apply(s: State, op: Op): State {
    match op
    case RecordOp(r, authoritative) => Record(s, r, authoritative).0
    case SyncOp(payload, ref) => Sync(s, payload, ref)
  }

  function Run(s: State, ops: seq<Op>): State {
    if ops == [] then s else Apply(Run(s, ops[..|ops| - 1]), ops[|ops| - 1])
  }

  /** No live payload reaches the match once it is terminal. */
  ghost predicate Guarded(s: State, ops: seq<Op>) {
    forall i :: 0 <= i < |ops| && ops[i].SyncOp? && Run(s, ops[..i]).m.status.Terminal() ==> ops[i].payload.status.Terminal()
  }

  lemma GuardedPrefix(s: State, ops: seq<Op>, n: nat)
    requires Guarded(s, ops) && n <= |ops|
    ensures Guarded(s, ops[..n])
  {
    forall i | 0 <= i < n && ops[i].SyncOp? && Run(s, ops[..n][..i]).m.status.Terminal()
      ensures ops[i].payload.status.Terminal()
    {
      assert ops[..n][..i] == ops[..i];
    }
  }

  lemma ApplyKeeps(s: State, op: Op)
    ensures AllKept(s.seen, Apply(s, op).seen)
    ensures s.m.status.Terminal() && (op.SyncOp? ==> op.payload.status.Terminal()) ==> Apply(s, op).m.Core() == s.m.Core()
  {
    hide Record;
    hide Sync;
    match op
    case RecordOp(r, authoritative) => RecordKeeps(s, r, authoritative);
    case SyncOp(payload, ref) => SyncKeeps(s, payload, ref);
  }

  /** A terminal result survives every step of a run. */
  ghost predicate ResultsLast(s: State, ops: seq<Op>) {
    forall i :: 0 <= i < |ops| && Run(s, ops[..i]).m.status.Terminal() ==> Run(s, ops[..i + 1]).m.Core() == Run(s, ops[..i]).m.Core()
  }

  lemma StepResult(s: State, ops: seq<Op>, i: nat)
    requires i < |ops| && Run(s, ops[..i]).m.status.Terminal()
    ensures Run(s, ops[..i + 1]).m.Core() == Run(s, ops[..i]).m.Core() <==> (ops[i].SyncOp? ==> ops[i].payload.status.Terminal())
  {
    hide Record;
    hide Sync;
    assert ops[..i + 1][..i] == ops[..i];
    var before := Run(s, ops[..i]);
    match ops[i]
    case RecordOp(r, authoritative) => RecordKeeps(before, r, authoritative);
    case SyncOp(payload, ref) => SyncKeeps(before, payload, ref);
  }

  /** Over whole runs: terminal results survive if and only if no live payload reaches a terminal match. */
  lemma ResultsLastIff(s: State, ops: seq<Op>)
    ensures ResultsLast(s, ops) <==> Guarded(s, ops)
  {
    hide Run;
    if ResultsLast(s, ops) {
      forall i | 0 <= i < |ops| && ops[i].SyncOp? && Run(s, ops[..i]).m.status.Terminal()
        ensures ops[i].payload.status.Terminal()
      {
        StepResult(s, ops, i);
      }
    }
    if Guarded(s, ops) {
      forall i | 0 <= i < |ops| && Run(s, ops[..i]).m.status.Terminal()
        ensures Run(s, ops[..i + 1]).m.Core() == Run(s, ops[..i]).m.Core()
      {
        StepResult(s, ops, i);
      }
    }
  }

  /** Whatever happens, no conflict is cleared and no authority regained. */
  lemma {:induction false} FlagsOneWay(s: State, ops: seq<Op>)
    ensures AllKept(s.seen, Run(s, ops).seen)
  {
    hide Apply;
    if ops != [] {
      var last := |ops| - 1;
      FlagsOneWay(s, ops[..last]);
      ApplyKeeps(Run(s, ops[..last]), ops[last]);
      AllKeptTransitive(s.seen, Run(s, ops[..last]).seen, Run(s, ops).seen);
    }
  }

  /** Once a match is terminal its status, outcome and regulation score never change. */
  lemma {:induction false} TerminalStays(s: State, ops: seq<Op>)
    requires s.m.status.Terminal() && Guarded(s, ops)
    ensures Run(s, ops).m.Core() == s.m.Core()
  {
    hide Apply;
    if ops != [] {
      var last := |ops| - 1;
      GuardedPrefix(s, ops, last);
      TerminalStays(s, ops[..last]);
      var before := Run(s, ops[..last]);
      assert before.m.status == s.m.status;
      ApplyKeeps(before, ops[last]);
    }
  }

  // ---- authority -----------------------------------------------------------------------

  /** An observation that claims authority over a terminal result says what the match says. */
  ghost predicate Agrees(m: Match, o: Observation) {
    o.authoritative && o.status.Terminal() ==> m.status.Terminal() && o.score == m.Canonical()
  }

  ghost predicate AllAgree(s: State) {
    forall i :: 0 <= i < |s.seen| ==> Agrees(s.m, s.seen[i])
  }

  /** Writing a result that the match does not contradict makes the match say it, and keeps what it said. */
  lemma WriteCanonical(m: Match, r: Report)
    requires r.status.Terminal() && (m.status.Terminal() ==> m.Canonical() == r.score)
    ensures Write(m, r).status.Terminal() && Write(m, r).Canonical() == r.score
  {
  }

  lemma SettleAgrees(m: Match, seen: seq<Observation>, id: nat, r: Report, verdict: Verdict)
    requires id < |seen| && r.status.Terminal()
    requires forall i :: 0 <= i < |seen| && i != id ==> Agrees(m, seen[i])
    requires Agrees(m, seen[id]) || seen[id].score == r.score
    ensures AllAgree(Settle(m, seen, id, r, verdict).0)
  {
    if !(m.status.Terminal() && m.Canonical() != r.score) {
      WriteCanonical(m, r);
      hide Write;
    }
  }

  lemma ResolveAgrees(m: Match, seen: seq<Observation>, id: nat, r: Report, authoritative: bool, j: Judgement, verdict: Verdict)
    requires id < |seen| && (j.first.Some? ==> j.first.value < |seen|) && (j.confirmed ==> j.discrepancy)
    requires forall i :: 0 <= i < |seen| && i != id ==> Agrees(m, seen[i])
    requires Agrees(m, seen[id]) ||
             (seen[id].score == r.score && authoritative && r.status.Terminal() && !j.discrepancy && !j.revision)
    ensures AllAgree(Resolve(m, seen, id, r, authoritative, j, verdict).0)
  {
    if !(j.revision && !j.converged) && !j.discrepancy && !j.confirmed {
      var cleared := if j.first.Some? && r.provider.BSD? && seen[j.first.value].pending then Mark(seen, j.first.value, false) else seen;
      if authoritative && r.status.Terminal() {
        SettleAgrees(m, cleared, id, r, verdict);
      }
      hide Settle;
    }
  }

  lemma RecordAgrees(s: State, r: Report, authoritative: bool)
    requires AllAgree(s)
    ensures AllAgree(Record(s, r, authoritative).0)
  {
    var j := Judge(s.seen, r);
    var stored := Stored(s.seen, r);
    hide Judge;
    hide Stored;
    hide Resolve;
    if stored.Some? {
      ResolveAgrees(s.m, s.seen, stored.value, r, authoritative, j, AlreadyRecorded);
    } else {
      ResolveAgrees(s.m, s.seen + [Fresh(r, authoritative, j)], |s.seen|, r, authoritative, j, Recorded);
    }
  }

  /** While live payloads stay away from a terminal match, every authoritative result agrees with it, and so with every other one. */
  lemma {:induction false} AuthorityAgrees(s: State, ops: seq<Op>)
    requires AllAgree(s) && Guarded(s, ops)
    ensures AllAgree(Run(s, ops))
    ensures forall i, j :: 0 <= i < |Run(s, ops).seen| && 0 <= j < |Run(s, ops).seen| ==>
              var a, b := Run(s, ops).seen[i], Run(s, ops).seen[j];
              a.authoritative && a.status.Terminal() && b.authoritative && b.status.Terminal() ==> a.score == b.score
  {
    hide Record;
    if ops != [] {
      var last := |ops| - 1;
      GuardedPrefix(s, ops, last);
      AuthorityAgrees(s, ops[..last]);
      var before := Run(s, ops[..last]);
      hide Run;
      match ops[last] {
        case RecordOp(r, authoritative) =>
          RecordAgrees(before, r, authoritative);
        case SyncOp(payload, ref) =>
          RecordAgrees(before, ReportOf(payload, ref), false);
          hide ReportOf;
      }
    }
  }
}

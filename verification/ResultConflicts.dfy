/**
  When the two-provider protocol notices a contradiction: the verdict, the match
  and the stored rows after every report, in the fields of the rows alone.
 */
module ResultConflicts {
  import opened Common
  import opened ResultProvider

  // ---- what the stored rows say of a report ----------------------------------------------

  predicate SaysOtherwise(o: Observation, r: Report) {
    || o.status != r.status || o.score.outcome != r.score.outcome
    || o.score.home != r.score.home || o.score.away != r.score.away
  }

  predicate TerminalOf(o: Observation, p: Provider) {
    o.provider == p && !o.status.Live?
  }

  /** The provider's terminal row of the latest instant; among several, the one stored last. */
  ghost predicate IsLatest(seen: seq<Observation>, p: Provider, i: int) {
    && 0 <= i < |seen| && TerminalOf(seen[i], p)
    && forall k :: 0 <= k < |seen| && TerminalOf(seen[k], p) ==> seen[k].at < seen[i].at || (seen[k].at == seen[i].at && k <= i)
  }

  /** The provider's terminal row of the earliest instant; among several, the one stored first. */
  ghost predicate IsEarliest(seen: seq<Observation>, p: Provider, i: int) {
    && 0 <= i < |seen| && TerminalOf(seen[i], p)
    && forall k :: 0 <= k < |seen| && TerminalOf(seen[k], p) ==> seen[i].at < seen[k].at || (seen[i].at == seen[k].at && i <= k)
  }

  /** A terminal report differs from the latest terminal row of a provider. */
  ghost predicate Opposes(seen: seq<Observation>, p: Provider, r: Report) {
    !r.status.Live? && exists i :: IsLatest(seen, p, i) && SaysOtherwise(seen[i], r)
  }

  ghost predicate Contradicts(seen: seq<Observation>, r: Report) {
    Opposes(seen, if r.provider.BSD? then ApiFootball else BSD, r)
  }

  ghost predicate Revises(seen: seq<Observation>, r: Report) {
    Opposes(seen, r.provider, r)
  }

  /** Thirty minutes or more after the first terminal row of BSD. */
  ghost predicate Late(seen: seq<Observation>, r: Report) {
    exists i :: IsEarliest(seen, BSD, i) && seen[i].at + 30 * 60 * 1_000_000 <= r.at
  }

  ghost predicate Confirmed(seen: seq<Observation>, r: Report) {
    Contradicts(seen, r) && r.provider.BSD? && Late(seen, r)
  }

  /** BSD gives up its only doubted row, late enough, for what the other provider says. */
  ghost predicate Converges(seen: seq<Observation>, r: Report) {
    && r.provider.BSD? && !Contradicts(seen, r) && Late(seen, r)
    && (exists i :: IsLatest(seen, ApiFootball, i))
    && exists i :: IsLatest(seen, BSD, i) && IsEarliest(seen, BSD, i)
                   && !seen[i].authoritative && !seen[i].conflict && seen[i].pending
  }

  /** A revision that is no convergence. */
  ghost predicate Recants(seen: seq<Observation>, r: Report) {
    Revises(seen, r) && !Converges(seen, r)
  }

  /** The regulation score of a terminal match, or the plain one of a full-time match without it, differs. */
  predicate MatchOpposes(m: Match, r: Report) {
    var plain := m.status.FullTime? && (m.ftHome.None? || m.ftAway.None?);
    && !m.status.Live?
    && (m.outcome != r.score.outcome || (if plain then m.home else m.ftHome) != r.score.home
        || (if plain then m.away else m.ftAway) != r.score.away)
  }

  /** Nothing stored speaks against an authoritative terminal report, but the match does. */
  ghost predicate Overruled(s: State, r: Report, authoritative: bool) {
    && authoritative && !r.status.Live? && !Recants(s.seen, r) && !Contradicts(s.seen, r)
    && MatchOpposes(s.m, r)
  }

  /** The row of a report that has been stored before. */
  ghost predicate IsStored(seen: seq<Observation>, r: Report, i: int) {
    && 0 <= i < |seen| && seen[i].provider == r.provider && seen[i].ref == r.ref && seen[i].at == r.at
    && forall k :: 0 <= k < i ==> seen[k].provider != r.provider || seen[k].ref != r.ref || seen[k].at != r.at
  }

  // ---- the queries find these rows -------------------------------------------------------

  lemma {:induction false} LatestFinds(seen: seq<Observation>, p: Provider)
    ensures var q := Latest(seen, p);
            if q.Some? then IsLatest(seen, p, q.value) else forall i :: 0 <= i < |seen| ==> !TerminalOf(seen[i], p)
  {
    if seen != [] { LatestFinds(seen[..|seen| - 1], p); }
  }

  lemma {:induction false} EarliestFinds(seen: seq<Observation>, p: Provider)
    ensures var q := Earliest(seen, p);
            if q.Some? then IsEarliest(seen, p, q.value) else forall i :: 0 <= i < |seen| ==> !TerminalOf(seen[i], p)
  {
    if seen != [] { EarliestFinds(seen[..|seen| - 1], p); }
  }

  lemma {:induction false} StoredFinds(seen: seq<Observation>, r: Report)
    ensures var q := Stored(seen, r);
            if q.Some? then IsStored(seen, r, q.value)
            else forall i :: 0 <= i < |seen| ==> seen[i].provider != r.provider || seen[i].ref != r.ref || seen[i].at != r.at
  {
    if seen != [] { StoredFinds(seen[..|seen| - 1], r); }
  }

  lemma OneLatest(seen: seq<Observation>, p: Provider, i: int, j: int)
    requires IsLatest(seen, p, i) && IsLatest(seen, p, j)
    ensures i == j
  {
  }

  lemma OneEarliest(seen: seq<Observation>, p: Provider, i: int, j: int)
    requires IsEarliest(seen, p, i) && IsEarliest(seen, p, j)
    ensures i == j
  {
  }

  lemma OpposesBy(seen: seq<Observation>, p: Provider, r: Report)
    ensures Opposes(seen, p, r) <==>
              r.status.Terminal() && Latest(seen, p).Some? && Different(seen[Latest(seen, p).value], r)
  {
    hide Latest;
    hide IsLatest;
    LatestFinds(seen, p);
    LatestNone(seen, p);
    if Opposes(seen, p, r) {
      var i :| IsLatest(seen, p, i) && 0 <= i < |seen| && SaysOtherwise(seen[i], r);
      OneLatest(seen, p, i, Latest(seen, p).value);
    }
  }

  lemma LatestNone(seen: seq<Observation>, p: Provider)
    ensures Latest(seen, p).None? ==> forall i :: !IsLatest(seen, p, i)
    ensures forall i :: IsLatest(seen, p, i) ==> 0 <= i < |seen|
  {
    LatestFinds(seen, p);
  }

  lemma LateBy(seen: seq<Observation>, r: Report)
    ensures Late(seen, r) <==> Earliest(seen, BSD).Some? && r.at >= seen[Earliest(seen, BSD).value].at + HALF_HOUR
  {
    hide Earliest;
    EarliestFinds(seen, BSD);
    if Late(seen, r) {
      var i :| IsEarliest(seen, BSD, i) && seen[i].at + 30 * 60 * 1_000_000 <= r.at;
      assert Earliest(seen, BSD).Some?;
      OneEarliest(seen, BSD, i, Earliest(seen, BSD).value);
    }
  }

  /** The judgement is what the rows say. */
  lemma JudgeMeans(seen: seq<Observation>, r: Report)
    ensures var j := Judge(seen, r);
            && (j.discrepancy <==> Contradicts(seen, r)) && (j.revision <==> Revises(seen, r))
            && (j.confirmed <==> Confirmed(seen, r)) && (j.converged <==> Revises(seen, r) && Converges(seen, r))
            && (if j.first.Some? then IsEarliest(seen, BSD, j.first.value)
                else forall i :: 0 <= i < |seen| ==> !TerminalOf(seen[i], BSD))
  {
    OpposesBy(seen, if r.provider.BSD? then ApiFootball else BSD, r);
    OpposesBy(seen, r.provider, r);
    LateBy(seen, r);
    EarliestFinds(seen, BSD);
    ConvergesBy(seen, r);
    hide Latest;
    hide Earliest;
    hide Different;
    hide Opposes;
    hide Late;
    hide IsEarliest;
    hide TerminalOf;
    hide Converges;
  }

  lemma ConvergesBy(seen: seq<Observation>, r: Report)
    ensures var previous, first, other := Latest(seen, BSD), Earliest(seen, BSD), Latest(seen, ApiFootball);
            Converges(seen, r) <==>
              && r.provider.BSD? && !Contradicts(seen, r) && Late(seen, r) && other.Some?
              && previous.Some? && previous == first && !seen[previous.value].authoritative
              && !seen[previous.value].conflict && seen[previous.value].pending
  {
    hide Latest;
    hide Earliest;
    hide Contradicts;
    hide Late;
    LatestNone(seen, ApiFootball);
    LatestNone(seen, BSD);
    LatestFinds(seen, ApiFootball);
    LatestFinds(seen, BSD);
    EarliestFinds(seen, BSD);
    if Converges(seen, r) {
      var i :| IsLatest(seen, BSD, i) && IsEarliest(seen, BSD, i)
               && !seen[i].authoritative && !seen[i].conflict && seen[i].pending;
      OneLatest(seen, BSD, i, Latest(seen, BSD).value);
      assert Earliest(seen, BSD).Some?;
      OneEarliest(seen, BSD, i, Earliest(seen, BSD).value);
    }
    hide IsLatest;
    hide IsEarliest;
    hide TerminalOf;
  }

  // ---- the verdict, the match and the rows -----------------------------------------------

  /** Everything a report leads to: which verdict, which match, and which row with which marks. */
  ghost predicate Noticed(s: State, r: Report, authoritative: bool, d: State, v: Verdict) {
    var seen := s.seen;
    && (v == ResultConflict <==> Recants(seen, r) || Confirmed(seen, r) || Overruled(s, r, authoritative))
    && (v == PendingConflict <==> Contradicts(seen, r) && !Confirmed(seen, r) && !Recants(seen, r))
    && (v == AlreadyRecorded ==> exists i :: IsStored(seen, r, i))
    && (v == Recorded ==> forall i :: !IsStored(seen, r, i))
    && (v == ResultConflict || v == PendingConflict || !authoritative || r.status.Live? ==> d.m == s.m)
  }

  /** A report that was not stored yet gets a row of its own content, marked by what it contradicts. */
  ghost predicate Filed(s: State, r: Report, authoritative: bool, d: State) {
    && |d.seen| == |s.seen| + 1
    && var o := d.seen[|s.seen|];
       && o.provider == r.provider && o.ref == r.ref && o.at == r.at && o.status == r.status && o.score == r.score
       && (o.authoritative <==>
             authoritative && !Contradicts(s.seen, r) && !Revises(s.seen, r) && !Overruled(s, r, authoritative))
       && (o.conflict <==> Recants(s.seen, r) || Confirmed(s.seen, r) || Overruled(s, r, authoritative))
       && (o.pending <==> Contradicts(s.seen, r) && !Confirmed(s.seen, r)) && (o.revision <==> Revises(s.seen, r))
  }

  /** A row stored before for the same report: a contradiction puts it in conflict, and takes its authority except where only the other provider disagrees. */
  ghost predicate Refiled(s: State, r: Report, authoritative: bool, d: State, i: int)
    requires 0 <= i < |s.seen| && i < |d.seen|
  {
    var a, b := s.seen[i], d.seen[i];
    && (b.conflict <==> a.conflict || Recants(s.seen, r) || Confirmed(s.seen, r) || Overruled(s, r, authoritative))
    && (b.authoritative <==> a.authoritative && !Overruled(s, r, authoritative) && !(Recants(s.seen, r) && !a.conflict))
    && (b.revision <==> a.revision || (Recants(s.seen, r) && !a.conflict))
    && (b.pending <==>
          a.pending && (Recants(s.seen, r) || !(Confirmed(s.seen, r) && !a.conflict))
          && (Recants(s.seen, r) || Contradicts(s.seen, r) || !r.provider.BSD? || !IsEarliest(s.seen, BSD, i)))
    && b.provider == a.provider && b.ref == a.ref && b.at == a.at && b.status == a.status && b.score == a.score
  }

  /** Other rows stay; only the first BSD row may come into doubt, or out of it. */
  ghost predicate Unmoved(s: State, r: Report, d: State, i: int)
    requires 0 <= i < |s.seen| && i < |d.seen|
  {
    var a, b := s.seen[i], d.seen[i];
    var touched := IsEarliest(s.seen, BSD, i) && !Recants(s.seen, r);
    && b == a.(pending := b.pending)
    && (if touched && Contradicts(s.seen, r) && r.provider.ApiFootball? then b.pending
        else if touched && !Contradicts(s.seen, r) && r.provider.BSD? then !b.pending
        else b.pending == a.pending)
  }

  lemma ResolveVerdict(m: Match, seen: seq<Observation>, id: nat, r: Report, authoritative: bool, j: Judgement, was: Verdict)
    requires id < |seen| && (j.first.Some? ==> j.first.value < |seen|) && (j.confirmed ==> j.discrepancy)
    requires was == Recorded || was == AlreadyRecorded
    ensures var (d, v) := Resolve(m, seen, id, r, authoritative, j, was);
            var overruled := authoritative && !r.status.Live? && !(j.revision && !j.converged) && !j.discrepancy && MatchOpposes(m, r);
            && |d.seen| == |seen|
            && v == (if (j.revision && !j.converged) || j.confirmed || overruled then ResultConflict
                     else if j.discrepancy then PendingConflict else was)
            && (v == ResultConflict || v == PendingConflict || !authoritative || r.status.Live? ==> d.m == m)
            && (d.seen[id].conflict <==> seen[id].conflict || (j.revision && !j.converged) || j.confirmed || overruled)
            && (d.seen[id].authoritative <==>
                  seen[id].authoritative && !overruled && !(j.revision && !j.converged && !seen[id].conflict))
            && d.seen[id].provider == seen[id].provider && d.seen[id].ref == seen[id].ref && d.seen[id].at == seen[id].at
            && d.seen[id].status == seen[id].status && d.seen[id].score == seen[id].score
  {
    hide Write;
  }

  lemma ResolveOthers(m: Match, seen: seq<Observation>, id: nat, r: Report, authoritative: bool, j: Judgement, was: Verdict, i: nat)
    requires id < |seen| && (j.first.Some? ==> j.first.value < |seen|) && i < |seen| && i != id && (j.confirmed ==> j.discrepancy)
    ensures var d := Resolve(m, seen, id, r, authoritative, j, was).0;
            |d.seen| == |seen| &&
            var touched := j.first == Some(i) && !(j.revision && !j.converged);
            && d.seen[i] == seen[i].(pending := d.seen[i].pending)
            && d.seen[i].pending ==
               (if touched && j.discrepancy && r.provider.ApiFootball? then true
                else if touched && !j.discrepancy && r.provider.BSD? then false
                else seen[i].pending)
  {
    hide Write;
  }

  lemma ResolveFresh(m: Match, seen: seq<Observation>, id: nat, r: Report, authoritative: bool, j: Judgement, was: Verdict)
    requires id < |seen| && (j.first.Some? ==> j.first.value < |seen| && j.first.value != id) && (j.confirmed ==> j.discrepancy)
    requires seen[id] == Fresh(r, authoritative, j)
    ensures var d := Resolve(m, seen, id, r, authoritative, j, was).0;
            && |d.seen| == |seen|
            && (d.seen[id].pending <==> j.discrepancy && !j.confirmed) && (d.seen[id].revision <==> j.revision)
  {
    hide Write;
  }

  /** What an authoritative terminal report makes of a match that nothing contradicts. */
  ghost predicate Written(m: Match, r: Report, w: Match) {
    if m.status.Live? then
      && w.status == r.status && w.outcome == r.score.outcome && w.ftHome == r.score.home && w.ftAway == r.score.away
      && w.observedAt == r.at
      && (if r.status.FullTime? then w.home == r.score.home && w.away == r.score.away else w.home == m.home && w.away == m.away)
    else
      && w == m.(home := w.home, away := w.away)
      && (if r.status.FullTime? && m.status.FullTime? && (m.home.None? || m.away.None?) then
            w.home == r.score.home && w.away == r.score.away
          else w.home == m.home && w.away == m.away)
  }

  lemma ResolveWrites(m: Match, seen: seq<Observation>, id: nat, r: Report, authoritative: bool, j: Judgement, was: Verdict)
    requires id < |seen| && (j.first.Some? ==> j.first.value < |seen|) && (j.confirmed ==> j.discrepancy)
    requires was == Recorded || was == AlreadyRecorded
    ensures var (d, v) := Resolve(m, seen, id, r, authoritative, j, was);
            v == was && authoritative && !r.status.Live? ==> Written(m, r, d.m)
  {
  }

  lemma ResolvedNotices(s: State, seen: seq<Observation>, id: nat, r: Report, authoritative: bool, was: Verdict)
    requires id < |seen| && |s.seen| <= |seen|
    requires was == if exists i :: IsStored(s.seen, r, i) then AlreadyRecorded else Recorded
    ensures var j := Judge(s.seen, r);
            (j.first.Some? ==> j.first.value < |seen|)
            && var (d, v) := Resolve(s.m, seen, id, r, authoritative, j, was);
               && Noticed(s, r, authoritative, d, v)
               && (v != ResultConflict && v != PendingConflict && authoritative && !r.status.Live? ==> Written(s.m, r, d.m))
  {
    hide Contradicts;
    hide Revises;
    hide Confirmed;
    hide Converges;
    hide MatchOpposes;
    hide Written;
    hide IsEarliest;
    hide IsStored;
    JudgeMeans(s.seen, r);
    var j := Judge(s.seen, r);
    hide Judge;
    ConfirmedContradicts(s.seen, r);
    ResolveVerdict(s.m, seen, id, r, authoritative, j, was);
    ResolveWrites(s.m, seen, id, r, authoritative, j, was);
    hide Resolve;
  }

  lemma ConfirmedContradicts(seen: seq<Observation>, r: Report)
    ensures Confirmed(seen, r) ==> Contradicts(seen, r)
  {
  }

  lemma StoredOrNot(seen: seq<Observation>, r: Report)
    ensures if Stored(seen, r).Some? then IsStored(seen, r, Stored(seen, r).value) else forall i :: !IsStored(seen, r, i)
  {
    StoredFinds(seen, r);
    hide Stored;
  }

  lemma ResolveMarks(m: Match, seen: seq<Observation>, id: nat, r: Report, authoritative: bool, j: Judgement, was: Verdict)
    requires id < |seen| && (j.first.Some? ==> j.first.value < |seen|) && (j.confirmed ==> j.discrepancy)
    requires j.confirmed ==> r.provider.BSD?
    requires r.provider.ApiFootball? ==> j.first != Some(id)
    ensures var d := Resolve(m, seen, id, r, authoritative, j, was).0;
            var recants := j.revision && !j.converged;
            && |d.seen| == |seen|
            && (d.seen[id].revision <==> seen[id].revision || (recants && !seen[id].conflict))
            && (d.seen[id].pending <==>
                  seen[id].pending && (recants || !(j.confirmed && !seen[id].conflict))
                  && (recants || j.discrepancy || !r.provider.BSD? || j.first != Some(id)))
  {
    hide Write;
  }

  lemma RefiledMarks(s: State, r: Report, authoritative: bool, id: nat)
    requires IsStored(s.seen, r, id)
    ensures var j := Judge(s.seen, r);
            (j.first.Some? ==> j.first.value < |s.seen|) &&
            var d := Resolve(s.m, s.seen, id, r, authoritative, j, AlreadyRecorded).0;
            |d.seen| == |s.seen| &&
            var a, b := s.seen[id], d.seen[id];
            && (b.revision <==> a.revision || (Recants(s.seen, r) && !a.conflict))
            && (b.pending <==>
                  a.pending && (Recants(s.seen, r) || !(Confirmed(s.seen, r) && !a.conflict))
                  && (Recants(s.seen, r) || Contradicts(s.seen, r) || !r.provider.BSD? || !IsEarliest(s.seen, BSD, id)))
  {
    hide Contradicts;
    hide Revises;
    hide Converges;
    hide Late;
    JudgeMeans(s.seen, r);
    var j := Judge(s.seen, r);
    hide Judge;
    FirstIs(s.seen, j.first, id);
    ResolveMarks(s.m, s.seen, id, r, authoritative, j, AlreadyRecorded);
    hide Resolve;
  }

  lemma OneStored(seen: seq<Observation>, r: Report, i: int, j: int)
    requires IsStored(seen, r, i) && IsStored(seen, r, j)
    ensures i == j
  {
  }

  /** Which verdict a report gets, whether the match may change, and to what. */
  lemma ContradictionsNoticed(s: State, r: Report, authoritative: bool)
    ensures var (d, v) := Record(s, r, authoritative);
            && Noticed(s, r, authoritative, d, v)
            && (v != ResultConflict && v != PendingConflict && authoritative && !r.status.Live? ==> Written(s.m, r, d.m))
  {
    hide Noticed;
    hide Written;
    hide Judge;
    hide Resolve;
    hide Stored;
    hide IsStored;
    StoredOrNot(s.seen, r);
    var j := Judge(s.seen, r);
    var stored := Stored(s.seen, r);
    if stored.Some? {
      ResolvedNotices(s, s.seen, stored.value, r, authoritative, AlreadyRecorded);
    } else {
      ResolvedNotices(s, s.seen + [Fresh(r, authoritative, j)], |s.seen|, r, authoritative, Recorded);
    }
  }

  lemma ResolvedRow(s: State, seen: seq<Observation>, id: nat, r: Report, authoritative: bool, was: Verdict)
    requires id < |seen| && |s.seen| <= |seen| && (was == Recorded || was == AlreadyRecorded)
    ensures var j := Judge(s.seen, r);
            (j.first.Some? ==> j.first.value < |seen|) &&
            var d := Resolve(s.m, seen, id, r, authoritative, j, was).0;
            |d.seen| == |seen| &&
            var o, b := seen[id], d.seen[id];
            && (b.conflict <==> o.conflict || Recants(s.seen, r) || Confirmed(s.seen, r) || Overruled(s, r, authoritative))
            && (b.authoritative <==> o.authoritative && !Overruled(s, r, authoritative) && !(Recants(s.seen, r) && !o.conflict))
            && b.provider == o.provider && b.ref == o.ref && b.at == o.at && b.status == o.status && b.score == o.score
  {
    hide Contradicts;
    hide Revises;
    hide Confirmed;
    hide Converges;
    hide MatchOpposes;
    hide IsEarliest;
    JudgeMeans(s.seen, r);
    var j := Judge(s.seen, r);
    hide Judge;
    ConfirmedContradicts(s.seen, r);
    ResolveVerdict(s.m, seen, id, r, authoritative, j, was);
    hide Resolve;
  }

  lemma ResolvedOthers(s: State, seen: seq<Observation>, id: nat, r: Report, authoritative: bool, was: Verdict, i: nat)
    requires id < |seen| && |s.seen| <= |seen| && i < |s.seen| && i != id && seen[i] == s.seen[i]
    ensures var j := Judge(s.seen, r);
            (j.first.Some? ==> j.first.value < |seen|)
            && |Resolve(s.m, seen, id, r, authoritative, j, was).0.seen| == |seen|
            && Unmoved(s, r, Resolve(s.m, seen, id, r, authoritative, j, was).0, i)
  {
    hide Contradicts;
    hide Revises;
    hide Confirmed;
    hide Converges;
    JudgeMeans(s.seen, r);
    var j := Judge(s.seen, r);
    hide Judge;
    ConfirmedContradicts(s.seen, r);
    ResolveOthers(s.m, seen, id, r, authoritative, j, was, i);
    FirstIs(s.seen, j.first, i);
    hide IsEarliest;
    hide Resolve;
  }

  lemma FirstIs(seen: seq<Observation>, first: Option<nat>, i: nat)
    requires i < |seen|
    requires if first.Some? then IsEarliest(seen, BSD, first.value) else forall k :: 0 <= k < |seen| ==> !TerminalOf(seen[k], BSD)
    ensures first == Some(i) <==> IsEarliest(seen, BSD, i)
  {
    if first.Some? && IsEarliest(seen, BSD, i) {
      OneEarliest(seen, BSD, first.value, i);
    }
  }

  /** A new report is stored as one row, marked by what it contradicts; other rows change at most the doubt about the first BSD row. */
  lemma ReportFiled(s: State, r: Report, authoritative: bool)
    requires forall i :: !IsStored(s.seen, r, i)
    ensures var d := Record(s, r, authoritative).0;
            Filed(s, r, authoritative, d) && forall i :: 0 <= i < |s.seen| ==> Unmoved(s, r, d, i)
  {
    hide Unmoved;
    hide Judge;
    hide Resolve;
    hide Stored;
    hide IsStored;
    hide Recants;
    hide Overruled;
    hide Fresh;
    StoredOrNot(s.seen, r);
    var j := Judge(s.seen, r);
    var more := s.seen + [Fresh(r, authoritative, j)];
    ResolvedRow(s, more, |s.seen|, r, authoritative, Recorded);
    FreshMarks(s, r, authoritative);
    forall i | 0 <= i < |s.seen|
      ensures Unmoved(s, r, Record(s, r, authoritative).0, i)
    {
      ResolvedOthers(s, more, |s.seen|, r, authoritative, Recorded, i);
    }
  }

  lemma FreshMarks(s: State, r: Report, authoritative: bool)
    ensures var j := Judge(s.seen, r);
            var o := Fresh(r, authoritative, j);
            (j.first.Some? ==> j.first.value < |s.seen|) &&
            var d := Resolve(s.m, s.seen + [o], |s.seen|, r, authoritative, j, Recorded).0;
            && |d.seen| == |s.seen| + 1
            && (d.seen[|s.seen|].pending <==> Contradicts(s.seen, r) && !Confirmed(s.seen, r))
            && (d.seen[|s.seen|].revision <==> Revises(s.seen, r))
            && o.provider == r.provider && o.ref == r.ref && o.at == r.at && o.status == r.status && o.score == r.score
            && (o.authoritative <==> authoritative && !Contradicts(s.seen, r) && !Revises(s.seen, r))
            && (o.conflict <==> Confirmed(s.seen, r) || Recants(s.seen, r))
  {
    hide Contradicts;
    hide Revises;
    hide Confirmed;
    hide Converges;
    hide IsEarliest;
    JudgeMeans(s.seen, r);
    var j := Judge(s.seen, r);
    hide Judge;
    ConfirmedContradicts(s.seen, r);
    ResolveFresh(s.m, s.seen + [Fresh(r, authoritative, j)], |s.seen|, r, authoritative, j, Recorded);
    hide Resolve;
  }

  /** A report that was stored before gets no second row. */
  lemma ReportRefiled(s: State, r: Report, authoritative: bool, id: nat)
    requires IsStored(s.seen, r, id)
    ensures var d := Record(s, r, authoritative).0;
            && |d.seen| == |s.seen| && Refiled(s, r, authoritative, d, id)
            && forall i :: 0 <= i < |s.seen| && i != id ==> Unmoved(s, r, d, i)
  {
    hide Unmoved;
    hide Judge;
    hide Resolve;
    hide Stored;
    hide Recants;
    hide Overruled;
    StoredOrNot(s.seen, r);
    OneStored(s.seen, r, id, Stored(s.seen, r).value);
    ResolvedRow(s, s.seen, id, r, authoritative, AlreadyRecorded);
    RefiledMarks(s, r, authoritative, id);
    forall i | 0 <= i < |s.seen| && i != id
      ensures Unmoved(s, r, Record(s, r, authoritative).0, i)
    {
      ResolvedOthers(s, s.seen, id, r, authoritative, AlreadyRecorded, i);
    }
  }

  // ---- payloads --------------------------------------------------------------------------

  /** The regulation result that a match row states: complete, from the plain score if it must, and none for a called match. */
  ghost predicate States(m: Match, x: Score) {
    var plain := m.status.FullTime? && (m.ftHome.None? || m.ftAway.None?);
    var home, away := if plain then m.home else m.ftHome, if plain then m.away else m.ftAway;
    x == if m.status.Called? || home.None? || away.None? then Score(None, None, None) else Score(m.outcome, home, away)
  }

  /** A terminal payload never touches a terminal match: a different result is recorded as a report of API-Football, and the same one not at all. */
  lemma PayloadMeans(s: State, payload: Match, ref: int)
    ensures var d := Sync(s, payload, ref);
            if s.m.status.Live? || payload.status.Live? then d == State(payload, s.seen)
            else
              && d.m == s.m
              && exists x, y :: States(s.m, x) && States(payload, y)
                                && if x == y then d == s
                                   else d == Record(s, Report(ApiFootball, ref, payload.status, y, payload.observedAt), false).0
  {
    var x, y := ReportOf(s.m, ref).score, ReportOf(payload, ref).score;
    assert States(s.m, x) && States(payload, y);
    ContradictionsNoticed(s, ReportOf(payload, ref), false);
    assert ReportOf(payload, ref) == Report(ApiFootball, ref, payload.status, y, payload.observedAt);
    hide Record;
    hide States;
    hide ReportOf;
  }
}

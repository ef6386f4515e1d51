/**
 * The dashboard aggregation of `GET /scores/dashboard`: a fold of the user's
 * completed (session, score) rows, newest first, into a session count,
 * per-dimension averages, per-personality counts and averages, a chronological
 * trend, and the strongest and weakest dimension.
 */
module Scores {
  import opened Common
  import opened Store

  datatype Dimension =
    | TermUnderstanding | DescriptionBreadth | Conciseness | ObjectionHandling
    | UspFraming | Confidence | Overall

  /** The dimension list, in the order the aggregation visits it. */
  const Dimensions: seq<Dimension> :=
    [TermUnderstanding, DescriptionBreadth, Conciseness, ObjectionHandling, UspFraming, Confidence, Overall]

  lemma DimensionsDistinct()
    ensures forall i, j :: 0 <= i < j < |Dimensions| ==> Dimensions[i] != Dimensions[j]
  {
  }

  /** The six scored dimensions: every dimension but "overall", in list order. */
  const ScoreDimensions: seq<Dimension> :=
    [TermUnderstanding, DescriptionBreadth, Conciseness, ObjectionHandling, UspFraming, Confidence]

  /** The key of a dimension in the JSON response. */
  function DimensionKey(d: Dimension): string
  {
    match d
    case TermUnderstanding => "term_understanding"
    case DescriptionBreadth => "description_breadth"
    case Conciseness => "conciseness"
    case ObjectionHandling => "objection_handling"
    case UspFraming => "usp_framing"
    case Confidence => "confidence"
    case Overall => "overall"
  }

  function DimValue(s: ScoreRow, d: Dimension): real
  {
    match d
    case TermUnderstanding => s.termUnderstanding
    case DescriptionBreadth => s.descriptionBreadth
    case Conciseness => s.conciseness
    case ObjectionHandling => s.objectionHandling
    case UspFraming => s.uspFraming
    case Confidence => s.confidence
    case Overall => s.overall
  }

  datatype DashRow = DashRow(session: SessionRow, score: ScoreRow)

  datatype PersonalityStats = PersonalityStats(count: nat, totalOverall: real, averageOverall: real)

  datatype TrendPoint = TrendPoint(sessionId: int, date: int, overall: real, personality: string)

  datatype DashboardResult = DashboardResult(
    totalSessions: nat,
    averageScores: Option<map<Dimension, real>>,
    scoreTrend: seq<TrendPoint>,
    byPersonality: map<string, PersonalityStats>,
    strongest: Option<Dimension>,
    weakest: Option<Dimension>)

  const EmptyDashboard := DashboardResult(0, None, [], map[], None, None)

  // ---------------------------------------------------------------------------
  // Python's round(x, 1) on exact reals: nearest tenth, halves to the even tenth

  function Round1(x: real): (r: real)
  {
    var y := x * 10.0;
    var f := y.Floor;
    var frac := y - f as real;
    var n := if frac < 0.5 then f
             else if frac > 0.5 then f + 1
             else if f % 2 == 0 then f else f + 1;
    n as real / 10.0
  }

  /** Rounding moves a value by at most half a tenth. */
  lemma Round1Close(x: real)
    ensures x - 0.05 <= Round1(x) <= x + 0.05
  {
    var y := x * 10.0;
    var f := y.Floor;
    assert f as real <= y < f as real + 1.0;
  }

  // ---------------------------------------------------------------------------
  // The specification of the fold, by recursion on the last row

  function Total(rows: seq<DashRow>, d: Dimension): real
  {
    if rows == [] then 0.0 else Total(rows[..|rows| - 1], d) + DimValue(rows[|rows| - 1].score, d)
  }

  function CountOf(rows: seq<DashRow>, pt: string): nat
  {
    if rows == [] then 0
    else CountOf(rows[..|rows| - 1], pt) + (if rows[|rows| - 1].session.personalityType == pt then 1 else 0)
  }

  function OverallOf(rows: seq<DashRow>, pt: string): real
  {
    if rows == [] then 0.0
    else
      OverallOf(rows[..|rows| - 1], pt)
      + (if rows[|rows| - 1].session.personalityType == pt then rows[|rows| - 1].score.overall else 0.0)
  }

  function Personalities(rows: seq<DashRow>): set<string>
  {
    set i | 0 <= i < |rows| :: rows[i].session.personalityType
  }

  function Point(row: DashRow): TrendPoint
  {
    TrendPoint(row.session.id, row.session.createdAt, row.score.overall, row.session.personalityType)
  }

  function Points(rows: seq<DashRow>): (r: seq<TrendPoint>)
    ensures |r| == |rows| && forall i :: 0 <= i < |rows| ==> r[i] == Point(rows[i])
  {
    seq(|rows|, i requires 0 <= i < |rows| => Point(rows[i]))
  }

  function Reverse<T>(s: seq<T>): (r: seq<T>)
    ensures |r| == |s|
  {
    if s == [] then [] else Reverse(s[1..]) + [s[0]]
  }

  /** Element `k` of the reversal is element `|s| - 1 - k` of the original. */
  lemma {:induction false} ReverseAt<T>(s: seq<T>, k: nat)
    requires k < |s|
    ensures Reverse(s)[k] == s[|s| - 1 - k]
  {
    if k < |s| - 1 {
      ReverseAt(s[1..], k);
    }
  }

  function Average(rows: seq<DashRow>, d: Dimension): real
    requires rows != []
  {
    Total(rows, d) / |rows| as real
  }

  // ---------------------------------------------------------------------------
  // max(keys, key=avg.get) and min(...): the first key with the extreme value

  /** The first element of `ds` whose value is the largest (Python `max` with a key). */
  function FirstMax(ds: seq<Dimension>, avg: map<Dimension, real>): (r: Dimension)
    requires ds != [] && forall d :: d in ds ==> d in avg
    ensures r in ds
    ensures forall d :: d in ds ==> avg[d] <= avg[r]
    ensures forall i :: 0 <= i < |ds| && ds[i] != r ==> avg[ds[i]] < avg[r] || exists j :: 0 <= j < i && ds[j] == r
  {
    if |ds| == 1 then ds[0]
    else
      var best := FirstMax(ds[..|ds| - 1], avg);
      var last := ds[|ds| - 1];
      assert forall d :: d in ds ==> d in ds[..|ds| - 1] || d == last;
      if avg[last] > avg[best] then last else best
  }

  /** The first element of `ds` whose value is the smallest (Python `min` with a key). */
  function FirstMin(ds: seq<Dimension>, avg: map<Dimension, real>): (r: Dimension)
    requires ds != [] && forall d :: d in ds ==> d in avg
    ensures r in ds
    ensures forall d :: d in ds ==> avg[r] <= avg[d]
    ensures forall i :: 0 <= i < |ds| && ds[i] != r ==> avg[r] < avg[ds[i]] || exists j :: 0 <= j < i && ds[j] == r
  {
    if |ds| == 1 then ds[0]
    else
      var best := FirstMin(ds[..|ds| - 1], avg);
      var last := ds[|ds| - 1];
      assert forall d :: d in ds ==> d in ds[..|ds| - 1] || d == last;
      if avg[last] < avg[best] then last else best
  }

  // ---------------------------------------------------------------------------
  // The aggregation itself

  /**
   * The rows the dashboard reads: the user's completed sessions joined with
   * their score, newest first.
   */
  function DashboardRows(sessions: seq<SessionRow>, scores: seq<ScoreRow>, userId: int): (rows: seq<DashRow>)
    ensures forall k :: 0 <= k < |rows| ==>
      rows[k].session in sessions && Qualifies(rows[k].session, scores, userId)
      && rows[k].score == scores[FindScore(scores, rows[k].session.id).value]
    decreases |sessions|
  {
    if sessions == [] then []
    else
      var init := DashboardRows(sessions[..|sessions| - 1], scores, userId);
      assert forall k :: 0 <= k < |init| ==> init[k].session in sessions;
      JoinedRow(sessions[|sessions| - 1], scores, userId) + init
  }

  /** The row one session gives: itself joined with its score when it qualifies, else none. */
  function JoinedRow(s: SessionRow, scores: seq<ScoreRow>, userId: int): (r: seq<DashRow>)
    ensures |r| == (if Qualifies(s, scores, userId) then 1 else 0)
    ensures forall k :: 0 <= k < |r| ==> r[k].session == s
  {
    if Qualifies(s, scores, userId) then [DashRow(s, scores[FindScore(scores, s.id).value])] else []
  }

  /** A session the dashboard reads: the user's, completed, and scored. */
  predicate Qualifies(s: SessionRow, scores: seq<ScoreRow>, userId: int)
  {
    s.userId == userId && s.status == "completed" && FindScore(scores, s.id).Some?
  }

  /** The dashboard rows of a non-empty table: the newest session's row, then those of the older ones. */
  lemma DashboardRowsUnfold(sessions: seq<SessionRow>, scores: seq<ScoreRow>, userId: int)
    requires sessions != []
    ensures DashboardRows(sessions, scores, userId)
      == JoinedRow(sessions[|sessions| - 1], scores, userId) + DashboardRows(sessions[..|sessions| - 1], scores, userId)
  {
  }

  /** Row `k` exists and is about session `s`. */
  predicate RowIsAbout(rows: seq<DashRow>, k: nat, s: SessionRow)
  {
    k < |rows| && rows[k].session == s
  }

  /** The rows of the sessions older than some point are the tail of all the rows. */
  lemma {:induction false} DashboardRowsSuffix(sessions: seq<SessionRow>, scores: seq<ScoreRow>, userId: int, m: nat)
    returns (d: nat)
    requires m <= |sessions|
    ensures var rows := DashboardRows(sessions, scores, userId);
      d <= |rows| && rows[d..] == DashboardRows(sessions[..m], scores, userId)
    decreases |sessions|
  {
    if m == |sessions| {
      assert sessions[..m] == sessions;
      d := 0;
    } else {
      var init := sessions[..|sessions| - 1];
      var head := JoinedRow(sessions[|sessions| - 1], scores, userId);
      DashboardRowsUnfold(sessions, scores, userId);
      var d' := DashboardRowsSuffix(init, scores, userId, m);
      assert init[..m] == sessions[..m];
      ShiftTail(head, DashboardRows(init, scores, userId), d');
      d := |head| + d';
    }
  }

  /** The newest session, when it qualifies, has the first row, ahead of any older qualifying session's. */
  lemma NewestRowFirst(sessions: seq<SessionRow>, scores: seq<ScoreRow>, userId: int, a: nat) returns (k: nat)
    requires a < |sessions| - 1
    requires Qualifies(sessions[a], scores, userId) && Qualifies(sessions[|sessions| - 1], scores, userId)
    ensures RowIsAbout(DashboardRows(sessions, scores, userId), 0, sessions[|sessions| - 1])
    ensures 0 < k && RowIsAbout(DashboardRows(sessions, scores, userId), k, sessions[a])
  {
    var older := sessions[..|sessions| - 1];
    assert older[a] == sessions[a];
    DashboardRowsUnfold(sessions, scores, userId);
    var k' := DashboardRowsIndexOf(older, scores, userId, a);
    k := 1 + k';
  }

  /** The rows are newest first: of two qualifying sessions, the later-created one comes first. */
  lemma DashboardRowsNewestFirst(sessions: seq<SessionRow>, scores: seq<ScoreRow>, userId: int, a: nat, b: nat)
    returns (i: nat, j: nat)
    requires a < b < |sessions| && Qualifies(sessions[a], scores, userId) && Qualifies(sessions[b], scores, userId)
    ensures i < j
    ensures RowIsAbout(DashboardRows(sessions, scores, userId), i, sessions[b])
    ensures RowIsAbout(DashboardRows(sessions, scores, userId), j, sessions[a])
  {
    var upTo := sessions[..b + 1];
    assert upTo[a] == sessions[a] && upTo[b] == sessions[b];
    var k := NewestRowFirst(upTo, scores, userId, a);
    var d := DashboardRowsSuffix(sessions, scores, userId, b + 1);
    var rows, tail := DashboardRows(sessions, scores, userId), DashboardRows(upTo, scores, userId);
    TailRow(rows, tail, d, 0, upTo[b]);
    TailRow(rows, tail, d, k, upTo[a]);
    i, j := d, d + k;
  }

  /** A row of a tail of the rows is a row of the rows, shifted. */
  lemma TailRow(rows: seq<DashRow>, tail: seq<DashRow>, d: nat, k: nat, s: SessionRow)
    requires d <= |rows| && rows[d..] == tail && RowIsAbout(tail, k, s)
    ensures RowIsAbout(rows, d + k, s)
  {
    TailIndex(rows, tail, d, k);
  }

  /** Where a qualifying session's row sits among the dashboard rows. */
  lemma {:induction false} DashboardRowsIndexOf(sessions: seq<SessionRow>, scores: seq<ScoreRow>, userId: int, a: nat)
    returns (k: nat)
    requires a < |sessions| && Qualifies(sessions[a], scores, userId)
    ensures RowIsAbout(DashboardRows(sessions, scores, userId), k, sessions[a])
    decreases |sessions|
  {
    var n := |sessions|;
    var init := sessions[..n - 1];
    var head := JoinedRow(sessions[n - 1], scores, userId);
    DashboardRowsUnfold(sessions, scores, userId);
    if a == n - 1 {
      k := 0;
    } else {
      assert init[a] == sessions[a];
      var k' := DashboardRowsIndexOf(init, scores, userId, a);
      k := |head| + k';
    }
  }

  /** No two rows are about sessions with the same id. */
  predicate DistinctRowSessions(rows: seq<DashRow>)
  {
    forall i, j :: 0 <= i < j < |rows| ==> rows[i].session.id != rows[j].session.id
  }

  /** With unique session ids, no session gives two rows. */
  lemma {:induction false} DashboardRowsOnePerSession(sessions: seq<SessionRow>, scores: seq<ScoreRow>, userId: int)
    requires UniqueSessionIds(sessions)
    ensures DistinctRowSessions(DashboardRows(sessions, scores, userId))
    decreases |sessions|
  {
    if sessions != [] {
      var n := |sessions|;
      var init := sessions[..n - 1];
      var last := sessions[n - 1];
      OlderIdsDiffer(sessions);
      DashboardRowsOnePerSession(init, scores, userId);
      DashboardRowsUnfold(sessions, scores, userId);
      var rest := DashboardRows(init, scores, userId);
      assert forall k :: 0 <= k < |rest| ==> rest[k].session in init;
      DistinctWithHead(JoinedRow(last, scores, userId), rest, last.id);
    }
  }

  /** With unique ids, the sessions before the newest have unique ids and none has the newest one's id. */
  lemma OlderIdsDiffer(sessions: seq<SessionRow>)
    requires sessions != [] && UniqueSessionIds(sessions)
    ensures var init := sessions[..|sessions| - 1];
      UniqueSessionIds(init) && forall s :: s in init ==> s.id != sessions[|sessions| - 1].id
  {
    var init := sessions[..|sessions| - 1];
    forall i, j | 0 <= i < j < |init| ensures init[i].id != init[j].id {
      assert init[i] == sessions[i] && init[j] == sessions[j];
    }
    forall s | s in init ensures s.id != sessions[|sessions| - 1].id {
      var m :| 0 <= m < |init| && init[m] == s;
      assert sessions[m] == s;
    }
  }

  /** Putting at most one row about a new id in front of rows with distinct ids keeps them distinct. */
  lemma DistinctWithHead(head: seq<DashRow>, rest: seq<DashRow>, id: int)
    requires |head| <= 1 && (forall k :: 0 <= k < |head| ==> head[k].session.id == id)
    requires DistinctRowSessions(rest) && forall k :: 0 <= k < |rest| ==> rest[k].session.id != id
    ensures DistinctRowSessions(head + rest)
  {
    var rows := head + rest;
    forall i, j | 0 <= i < j < |rows|
      ensures rows[i].session.id != rows[j].session.id
    {
      if i < |head| {
        assert rows[i] == head[i] && rows[j] == rest[j - |head|];
      } else {
        assert rows[i] == rest[i - |head|] && rows[j] == rest[j - |head|];
      }
    }
  }

  /** Every completed session of the user that has a score is among the dashboard rows, with that score. */
  lemma {:induction false} DashboardRowsComplete(sessions: seq<SessionRow>, scores: seq<ScoreRow>, userId: int, i: nat)
    requires i < |sessions| && sessions[i].userId == userId && sessions[i].status == "completed"
    requires FindScore(scores, sessions[i].id).Some?
    ensures DashRow(sessions[i], scores[FindScore(scores, sessions[i].id).value]) in DashboardRows(sessions, scores, userId)
    decreases |sessions|
  {
    if i < |sessions| - 1 {
      DashboardRowsComplete(sessions[..|sessions| - 1], scores, userId, i);
    }
  }

  method GetDashboard(db: Database, userId: int) returns (r: DashboardResult)
    ensures r == Aggregate(DashboardRows(db.sessions, db.scores, userId))
  {
    r := AggregateRows(DashboardRows(db.sessions, db.scores, userId));
  }

  /** The rounded per-dimension averages. */
  function AveragesOf(rows: seq<DashRow>): map<Dimension, real>
    requires rows != []
  {
    map d | d in Dimensions :: Round1(Average(rows, d))
  }

  /** The trend: one point per row, in reverse row order. */
  function Trend(rows: seq<DashRow>): seq<TrendPoint>
  {
    Reverse(Points(rows))
  }

  /** The entry of one personality that occurs in the rows. */
  ghost function StatsOf(rows: seq<DashRow>, pt: string): PersonalityStats
    requires pt in Personalities(rows)
  {
    CountPositive(rows, pt);
    PersonalityStats(CountOf(rows, pt), OverallOf(rows, pt), Round1(OverallOf(rows, pt) / CountOf(rows, pt) as real))
  }

  ghost function ByPersonalityOf(rows: seq<DashRow>): map<string, PersonalityStats>
  {
    map pt | pt in Personalities(rows) :: StatsOf(rows, pt)
  }

  /** The dashboard that `AggregateRows` computes, stated over the rows. */
  ghost function Aggregate(rows: seq<DashRow>): DashboardResult
  {
    if rows == [] then EmptyDashboard
    else
      DashboardResult(
        |rows|,
        Some(AveragesOf(rows)),
        Trend(rows),
        ByPersonalityOf(rows),
        Some(FirstMax(ScoreDimensions, AveragesOf(rows))),
        Some(FirstMin(ScoreDimensions, AveragesOf(rows))))
  }

  lemma TotalSnoc(rows: seq<DashRow>, row: DashRow, d: Dimension)
    ensures Total(rows + [row], d) == Total(rows, d) + DimValue(row.score, d)
  {
    assert (rows + [row])[..|rows|] == rows;
  }

  /** The fold of the source's row loop: dimension totals, personality tallies and the trend. */
  method AccumulateRows(rows: seq<DashRow>)
    returns (totals: map<Dimension, real>, byPersonality: map<string, PersonalityStats>, trend: seq<TrendPoint>)
    ensures forall d :: d in totals <==> d in Dimensions
    ensures forall d :: d in Dimensions ==> totals[d] == Total(rows, d)
    ensures byPersonality.Keys == Personalities(rows)
    ensures forall pt :: pt in byPersonality ==>
      byPersonality[pt].count == CountOf(rows, pt) && byPersonality[pt].totalOverall == OverallOf(rows, pt)
    ensures trend == Points(rows)
  {
    totals := map d | d in Dimensions :: 0.0;
    byPersonality := map[];
    trend := [];
    var i := 0;
    while i < |rows|
      invariant 0 <= i <= |rows|
      invariant forall d :: d in totals <==> d in Dimensions
      invariant forall d :: d in Dimensions ==> totals[d] == Total(rows[..i], d)
      invariant byPersonality.Keys == Personalities(rows[..i])
      invariant forall pt :: pt in byPersonality ==>
        byPersonality[pt].count == CountOf(rows[..i], pt) && byPersonality[pt].totalOverall == OverallOf(rows[..i], pt)
      invariant trend == Points(rows[..i])
    {
      var row := rows[i];
      assert rows[..i + 1] == rows[..i] + [row];
      totals := AddScore(totals, row, rows[..i]);
      byPersonality := Tally(byPersonality, row, rows[..i]);
      trend := trend + [Point(row)];
      i := i + 1;
    }
    assert rows[..|rows|] == rows;
  }

  /** The source's inner loop: add one score's value into every dimension total. */
  method AddScore(totals0: map<Dimension, real>, row: DashRow, seen: seq<DashRow>) returns (totals: map<Dimension, real>)
    requires forall d :: d in totals0 <==> d in Dimensions
    requires forall d :: d in Dimensions ==> totals0[d] == Total(seen, d)
    ensures forall d :: d in totals <==> d in Dimensions
    ensures forall d :: d in Dimensions ==> totals[d] == Total(seen + [row], d)
  {
    totals := totals0;
    DimensionsDistinct();
    var j := 0;
    while j < |Dimensions|
      invariant 0 <= j <= |Dimensions|
      invariant forall d :: d in totals <==> d in Dimensions
      invariant forall k :: 0 <= k < j ==> totals[Dimensions[k]] == Total(seen, Dimensions[k]) + DimValue(row.score, Dimensions[k])
      invariant forall k :: j <= k < |Dimensions| ==> totals[Dimensions[k]] == Total(seen, Dimensions[k])
    {
      var d := Dimensions[j];
      totals := totals[d := totals[d] + DimValue(row.score, d)];
      j := j + 1;
    }
    forall d | d in Dimensions
      ensures totals[d] == Total(seen + [row], d)
    {
      TotalSnoc(seen, row, d);
    }
  }

  /** The personality tally of one row: create the entry if needed, then count the row. */
  method Tally(acc: map<string, PersonalityStats>, row: DashRow, seen: seq<DashRow>) returns (r: map<string, PersonalityStats>)
    requires acc.Keys == Personalities(seen)
    requires forall pt :: pt in acc ==> acc[pt].count == CountOf(seen, pt) && acc[pt].totalOverall == OverallOf(seen, pt)
    ensures r.Keys == Personalities(seen + [row])
    ensures forall pt :: pt in r ==> r[pt].count == CountOf(seen + [row], pt) && r[pt].totalOverall == OverallOf(seen + [row], pt)
  {
    var all := seen + [row];
    assert all[..|seen|] == seen;
    var pt := row.session.personalityType;
    r := acc;
    if pt !in r {
      r := r[pt := PersonalityStats(0, 0.0, 0.0)];
    }
    var st := r[pt];
    r := r[pt := st.(count := st.count + 1, totalOverall := st.totalOverall + row.score.overall)];
    assert Personalities(all) == Personalities(seen) + {pt} by {
      assert forall k :: 0 <= k < |seen| ==> all[k] == seen[k];
      assert all[|seen|] == row;
    }
    if pt !in acc {
      AbsentTallies(seen, pt);
    }
    assert all[|all| - 1] == row;
  }

  /** The source's second loop: give every personality entry its rounded average. */
  method AddAverages(acc: map<string, PersonalityStats>) returns (done: map<string, PersonalityStats>)
    requires forall pt :: pt in acc ==> acc[pt].count > 0
    ensures done.Keys == acc.Keys
    ensures forall pt :: pt in done ==>
      done[pt] == acc[pt].(averageOverall := Round1(acc[pt].totalOverall / acc[pt].count as real))
  {
    var pending := acc.Keys;
    done := acc;
    while pending != {}
      invariant pending <= acc.Keys && done.Keys == acc.Keys
      invariant forall pt :: pt in pending ==> done[pt] == acc[pt]
      invariant forall pt :: pt in done && pt !in pending ==>
        done[pt] == acc[pt].(averageOverall := Round1(acc[pt].totalOverall / acc[pt].count as real))
      decreases pending
    {
      var pt :| pt in pending;
      var st := done[pt];
      done := done[pt := st.(averageOverall := Round1(st.totalOverall / st.count as real))];
      pending := pending - {pt};
    }
  }

  method AggregateRows(rows: seq<DashRow>) returns (r: DashboardResult)
    ensures r == Aggregate(rows)
  {
    if rows == [] {
      return EmptyDashboard;
    }
    var totals, byPersonality, trend := AccumulateRows(rows);
    var count := |rows|;
    var averages := map d | d in Dimensions :: Round1(totals[d] / count as real);
    assert averages == AveragesOf(rows);
    var strongest := FirstMax(ScoreDimensions, averages);
    var weakest := FirstMin(ScoreDimensions, averages);
    forall pt | pt in byPersonality
      ensures byPersonality[pt].count > 0
    {
      CountPositive(rows, pt);
    }
    var done := AddAverages(byPersonality);
    assert done == ByPersonalityOf(rows);
    r := DashboardResult(count, Some(averages), Reverse(trend), done, Some(strongest), Some(weakest));
  }

  // ---------------------------------------------------------------------------
  // Properties of the aggregation

  /** An empty input gives zero sessions and nothing else. */
  lemma EmptyInput()
    ensures Aggregate([]) == DashboardResult(0, None, [], map[], None, None)
  {
  }

  /** Every row is counted once, and the trend has one point per row, oldest first. */
  lemma {:induction false} TrendIsChronological(rows: seq<DashRow>)
    ensures |Trend(rows)| == |rows|
    ensures forall k :: 0 <= k < |rows| ==> Trend(rows)[k] == Point(rows[|rows| - 1 - k])
  {
    forall k | 0 <= k < |rows|
      ensures Trend(rows)[k] == Point(rows[|rows| - 1 - k])
    {
      ReverseAt(Points(rows), k);
    }
  }

  /** A personality that occurs in the rows has a positive count; the others have none. */
  lemma {:induction false} CountPositive(rows: seq<DashRow>, pt: string)
    ensures CountOf(rows, pt) > 0 <==> pt in Personalities(rows)
  {
    if rows != [] {
      var init := rows[..|rows| - 1];
      CountPositive(init, pt);
      assert Personalities(rows) == Personalities(init) + {rows[|rows| - 1].session.personalityType} by {
        assert forall k :: 0 <= k < |init| ==> init[k] == rows[k];
      }
    }
  }

  /** A personality absent from the rows has a zero count and a zero total. */
  lemma {:induction false} AbsentTallies(rows: seq<DashRow>, pt: string)
    requires pt !in Personalities(rows)
    ensures CountOf(rows, pt) == 0 && OverallOf(rows, pt) == 0.0
  {
    if rows != [] {
      var init := rows[..|rows| - 1];
      assert Personalities(init) <= Personalities(rows) by {
        assert forall k :: 0 <= k < |init| ==> init[k] == rows[k];
      }
      assert rows[|rows| - 1].session.personalityType in Personalities(rows);
      AbsentTallies(init, pt);
    }
  }

  function SumCounts(keys: seq<string>, rows: seq<DashRow>): nat
  {
    if keys == [] then 0 else CountOf(rows, keys[0]) + SumCounts(keys[1..], rows)
  }

  lemma {:induction false} SumCountsStep(keys: seq<string>, rows: seq<DashRow>, row: DashRow)
    requires forall i, j :: 0 <= i < j < |keys| ==> keys[i] != keys[j]
    ensures SumCounts(keys, rows + [row]) == SumCounts(keys, rows) + (if row.session.personalityType in keys then 1 else 0)
  {
    assert (rows + [row])[..|rows|] == rows;
    if keys != [] {
      SumCountsStep(keys[1..], rows, row);
      assert keys[0] == row.session.personalityType ==> row.session.personalityType !in keys[1..];
      assert row.session.personalityType in keys <==> keys[0] == row.session.personalityType || row.session.personalityType in keys[1..];
    }
  }

  lemma {:induction false} EmptyCounts(keys: seq<string>)
    ensures SumCounts(keys, []) == 0
  {
    if keys != [] {
      EmptyCounts(keys[1..]);
    }
  }

  /**
   * The per-personality counts add up to the number of rows: summed over any
   * list that names each personality of the rows exactly once.
   */
  lemma {:induction false} CountsAddUp(keys: seq<string>, rows: seq<DashRow>)
    requires forall i, j :: 0 <= i < j < |keys| ==> keys[i] != keys[j]
    requires Personalities(rows) <= set k | k in keys
    ensures SumCounts(keys, rows) == |rows|
  {
    if rows == [] {
      EmptyCounts(keys);
    } else {
      var init := rows[..|rows| - 1];
      var last := rows[|rows| - 1];
      assert rows == init + [last];
      assert last.session.personalityType in Personalities(rows);
      assert Personalities(init) <= Personalities(rows) by {
        assert forall k :: 0 <= k < |init| ==> init[k] == rows[k];
      }
      CountsAddUp(keys, init);
      SumCountsStep(keys, init, last);
    }
  }

  /** The personality breakdown: its keys, counts, totals and averages. */
  lemma ByPersonalityIsExact(rows: seq<DashRow>, pt: string)
    ensures pt in ByPersonalityOf(rows) <==> CountOf(rows, pt) > 0
    ensures pt in ByPersonalityOf(rows) ==>
      var st := ByPersonalityOf(rows)[pt];
      st.count == CountOf(rows, pt) && st.totalOverall == OverallOf(rows, pt)
      && st.averageOverall == Round1(st.totalOverall / st.count as real)
  {
    CountPositive(rows, pt);
  }

  function MinValue(rows: seq<DashRow>, d: Dimension): real
    requires rows != []
  {
    if |rows| == 1 then DimValue(rows[0].score, d)
    else
      var m := MinValue(rows[..|rows| - 1], d);
      var v := DimValue(rows[|rows| - 1].score, d);
      if v < m then v else m
  }

  function MaxValue(rows: seq<DashRow>, d: Dimension): real
    requires rows != []
  {
    if |rows| == 1 then DimValue(rows[0].score, d)
    else
      var m := MaxValue(rows[..|rows| - 1], d);
      var v := DimValue(rows[|rows| - 1].score, d);
      if v > m then v else m
  }

  /** `n` copies of `x` added up: `n * x` without a product. */
  function Rep(n: nat, x: real): real
  {
    if n == 0 then 0.0 else Rep(n - 1, x) + x
  }

  lemma {:induction false} RepMono(n: nat, a: real, b: real)
    requires a <= b
    ensures Rep(n, a) <= Rep(n, b)
  {
    if n > 0 {
      RepMono(n - 1, a, b);
    }
  }

  lemma {:induction false} RepIsProduct(n: nat, x: real)
    ensures Rep(n, x) == n as real * x
  {
    if n > 0 {
      RepIsProduct(n - 1, x);
      assert n as real * x == (n - 1) as real * x + x;
    }
  }

  /** A dimension's total lies between count copies of its minimum and of its maximum. */
  lemma {:induction false} TotalBounds(rows: seq<DashRow>, d: Dimension)
    requires rows != []
    ensures Rep(|rows|, MinValue(rows, d)) <= Total(rows, d) <= Rep(|rows|, MaxValue(rows, d))
  {
    var init := rows[..|rows| - 1];
    if |rows| > 1 {
      TotalBounds(init, d);
      RepMono(|init|, MinValue(rows, d), MinValue(init, d));
      RepMono(|init|, MaxValue(init, d), MaxValue(rows, d));
    }
  }

  /** A total between n * lo and n * hi has its n-th part between lo and hi. */
  lemma DivBetween(t: real, n: real, lo: real, hi: real)
    requires n > 0.0 && n * lo <= t <= n * hi
    ensures lo <= t / n <= hi
  {
    assert n * (t / n) == t;
  }

  /** The unrounded average of a dimension lies between its smallest and largest value. */
  lemma AverageBetween(rows: seq<DashRow>, d: Dimension)
    requires rows != []
    ensures MinValue(rows, d) <= Average(rows, d) <= MaxValue(rows, d)
  {
    TotalBounds(rows, d);
    PartBetween(Total(rows, d), |rows|, MinValue(rows, d), MaxValue(rows, d));
  }

  /** A total between n copies of lo and n copies of hi has its n-th part between lo and hi. */
  lemma PartBetween(t: real, n: nat, lo: real, hi: real)
    requires n > 0 && Rep(n, lo) <= t <= Rep(n, hi)
    ensures lo <= t / n as real <= hi
  {
    RepIsProduct(n, lo);
    RepIsProduct(n, hi);
    DivBetween(t, n as real, lo, hi);
  }

  /** A reported average lies within half a tenth of the range of the dimension's values. */
  lemma AveragesBounded(rows: seq<DashRow>, d: Dimension)
    requires rows != [] && d in Dimensions
    ensures MinValue(rows, d) - 0.05 <= AveragesOf(rows)[d] <= MaxValue(rows, d) + 0.05
  {
    AverageBetween(rows, d);
    Round1Close(Average(rows, d));
  }
}

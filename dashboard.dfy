/**
 * The dashboard page: it loads the aggregate of `GET /scores/dashboard` and
 * the session listing together, and renders the headline numbers, the
 * per-dimension averages coloured by band, the per-personality cards and the
 * session history, each history row linking to its scorecard once completed.
 */
module Dashboard {
  import opened Common
  import opened Scores
  import opened Personality
  import opened Sessions
  import opened Scorecard
  import opened LiveCall

  // ---------------------------------------------------------------------------
  // Loading

  /** The page state: the aggregate (null until loaded), the listing and the spinner flag. */
  datatype DashboardPage = DashboardPage(dashboard: Option<DashboardResult>, sessions: seq<SessionSummary>, loading: bool)

  function Mounted(): DashboardPage
  {
    DashboardPage(None, [], true)
  }

  /**
   * Both requests settle together: only when both succeed are their payloads
   * stored; either way the spinner stops. A failed request is `None`.
   */
  function AfterLoad(p: DashboardPage, dash: Option<DashboardResult>, list: Option<seq<SessionSummary>>): (r: DashboardPage)
    ensures !r.loading
    ensures dash.Some? && list.Some? ==> r.dashboard == dash && r.sessions == list.value
    ensures dash.None? || list.None? ==> r.dashboard == p.dashboard && r.sessions == p.sessions
  {
    if dash.Some? && list.Some? then DashboardPage(dash, list.value, false)
    else DashboardPage(p.dashboard, p.sessions, false)
  }

  /** `hasData`: an aggregate was loaded and counts at least one session. */
  predicate HasData(p: DashboardPage)
  {
    p.dashboard.Some? && p.dashboard.value.totalSessions > 0
  }

  /** If either request fails, the page shows the empty state with no history. */
  lemma FailedLoadIsEmpty(dash: Option<DashboardResult>, list: Option<seq<SessionSummary>>)
    requires dash.None? || list.None?
    ensures var r := AfterLoad(Mounted(), dash, list);
      !r.loading && !HasData(r) && r.sessions == []
  {
  }

  /** A user with no completed session gets the empty state even when both requests succeed. */
  lemma NoCompletedSessionIsEmpty(list: seq<SessionSummary>)
    ensures !HasData(AfterLoad(Mounted(), Some(EmptyDashboard), Some(list)))
  {
  }

  // ---------------------------------------------------------------------------
  // Headline numbers

  /** The dashboard's own, shorter dimension labels. */
  function ShortDimensionLabel(d: Dimension): string
    requires d != Overall
  {
    match d
    case TermUnderstanding => "Term Knowledge"
    case DescriptionBreadth => "Breadth"
    case Conciseness => "Conciseness"
    case ObjectionHandling => "Objections"
    case UspFraming => "USP Framing"
    case Confidence => "Confidence"
  }

  /** `DIMENSION_LABELS[key] || '—'` for the strongest and weakest dimension. */
  function DimensionCard(d: Option<Dimension>): (r: string)
    ensures d.None? || d == Some(Overall) ==> r == "\U{2014}"
    ensures d.Some? && d.value != Overall ==> r == ShortDimensionLabel(d.value)
  {
    if d.Some? && d.value != Overall then ShortDimensionLabel(d.value) else "\U{2014}"
  }

  /** An average as the page reads it: `average_scores?.[key] || 0`. */
  function AverageOf(d: DashboardResult, dim: Dimension): (r: real)
    ensures d.averageScores.None? || dim !in d.averageScores.value ==> r == 0.0
    ensures d.averageScores.Some? && dim in d.averageScores.value ==> r == d.averageScores.value[dim]
  {
    if d.averageScores.Some? && dim in d.averageScores.value then d.averageScores.value[dim] else 0.0
  }

  /** The four stat cards. */
  datatype Stats = Stats(total: nat, averageScore: int, strongest: string, weakest: string)

  function StatsOf(d: DashboardResult): (r: Stats)
    ensures r.total == d.totalSessions
    ensures r.averageScore as real - 0.5 <= AverageOf(d, Overall) < r.averageScore as real + 0.5
    ensures r.strongest == DimensionCard(d.strongest) && r.weakest == DimensionCard(d.weakest)
  {
    Stats(d.totalSessions, JsRound(AverageOf(d, Overall)), DimensionCard(d.strongest), DimensionCard(d.weakest))
  }

  /** For a user with scored sessions, the headline counts them and shows the rounded overall average. */
  lemma HeadlineAverage(rows: seq<DashRow>)
    requires rows != []
    ensures var st := StatsOf(Aggregate(rows));
      && st.total == |rows|
      && st.averageScore as real - 0.5 <= AveragesOf(rows)[Overall] < st.averageScore as real + 0.5
  {
    AggregateHead(rows);
    assert Overall in Dimensions;
  }

  /** For a user with scored sessions, the strongest and weakest cards name real dimensions. */
  lemma HeadlineCards(rows: seq<DashRow>)
    requires rows != []
    ensures var st := StatsOf(Aggregate(rows));
      st.strongest != "\U{2014}" && st.weakest != "\U{2014}"
  {
    AggregateHead(rows);
    AveragesCover(rows);
    var avg := AveragesOf(rows);
    var best := FirstMax(ScoreDimensions, avg);
    var worst := FirstMin(ScoreDimensions, avg);
    NamedCard(best);
    NamedCard(worst);
  }

  lemma AggregateHead(rows: seq<DashRow>)
    requires rows != []
    ensures var d := Aggregate(rows);
      && d.totalSessions == |rows| && d.averageScores == Some(AveragesOf(rows))
      && d.strongest == Some(FirstMax(ScoreDimensions, AveragesOf(rows)))
      && d.weakest == Some(FirstMin(ScoreDimensions, AveragesOf(rows)))
  {
  }

  lemma AveragesCover(rows: seq<DashRow>)
    requires rows != []
    ensures forall d :: d in ScoreDimensions ==> d in AveragesOf(rows)
  {
    forall d | d in ScoreDimensions
      ensures d in AveragesOf(rows)
    {
      assert d in Dimensions;
    }
  }

  lemma NamedCard(d: Dimension)
    requires d in ScoreDimensions
    ensures DimensionCard(Some(d)) != "\U{2014}"
  {
    assert d != Overall;
    assert |ShortDimensionLabel(d)| > 1;
  }

  // ---------------------------------------------------------------------------
  // Averages by dimension

  function TextClass(b: Band): string
  {
    match b
    case Green => "text-green-400"
    case Amber => "text-amber-400"
    case Orange => "text-orange-400"
    case Red => "text-red-400"
  }

  /** The colour of an average tile or of a history row's score: red unless a threshold is reached, highest first. */
  function ScoreColour(val: real): (r: string)
    ensures r == TextClass(BandOf(val))
  {
    if val >= 80.0 then "text-green-400"
    else if val >= 60.0 then "text-amber-400"
    else if val >= 40.0 then "text-orange-400"
    else "text-red-400"
  }

  datatype Tile = Tile(labelText: string, value: int, colour: string)

  /** One tile per scored dimension, in label order: label, rounded average and colour. */
  function Tiles(d: DashboardResult): (r: seq<Tile>)
    ensures |r| == |ScoreDimensions|
    ensures forall i :: 0 <= i < |r| ==>
              var val := AverageOf(d, ScoreDimensions[i]);
              && r[i].labelText == ShortDimensionLabel(ScoreDimensions[i])
              && r[i].value as real - 0.5 <= val < r[i].value as real + 0.5
              && r[i].colour == TextClass(BandOf(val))
  {
    seq(|ScoreDimensions|, i requires 0 <= i < |ScoreDimensions| =>
      var val := AverageOf(d, ScoreDimensions[i]);
      Tile(ShortDimensionLabel(ScoreDimensions[i]), JsRound(val), ScoreColour(val)))
  }

  // ---------------------------------------------------------------------------
  // Personality cards and session history

  /** `PERSONALITY_LABELS`: the dashboard's short personality names. */
  function ShortLabel(k: Kind): string
  {
    match k
    case SkepticalBuyer => "Skeptical Buyer"
    case AnalyticalDecisionMaker => "Analytical"
    case BusyExecutive => "Busy Executive"
    case FriendlyNonCommittal => "Friendly"
    case TechnicalExpert => "Technical Expert"
    case PriceFocusedNegotiator => "Price Focused"
  }

  /** `PERSONALITY_LABELS[key] || key`: the short name of a known key, the raw key otherwise. */
  function PersonalityName(key: string): (r: string)
    ensures key in Keys ==> r == ShortLabel(KindOf(key).value)
    ensures key !in Keys ==> r == key
  {
    match KindOf(key)
    case Some(k) => ShortLabel(k)
    case None => key
  }

  /** Every personality the backend knows has a short name of its own. */
  lemma {:induction false} ShortNamesDistinct(k: Kind, l: Kind)
    requires k != l
    ensures PersonalityName(Key(k)) != PersonalityName(Key(l))
  {
    KeyNamesKind(k);
    KeyNamesKind(l);
    var a, b := ShortLabel(k), ShortLabel(l);
    assert a[..2] != b[..2] || |a| != |b|;
  }

  /** "1 session", "2 sessions", and "0 sessions". */
  function SessionCount(count: nat): (r: string)
  {
    NatToString(count) + " session" + (if count != 1 then "s" else "")
  }

  /** The word is plural exactly when the count is not one, and the number reads back as the count. */
  lemma SessionCountPlural(count: nat)
    ensures EndsWith(SessionCount(count), "s") <==> count != 1
    ensures var n := |NatToString(count)|;
      n < |SessionCount(count)| && ParseNat(SessionCount(count)[..n]) == count
  {
    var r := SessionCount(count);
    var n := |NatToString(count)|;
    assert r[..n] == NatToString(count);
    ParseNatToString(count);
    if count == 1 {
      assert r == "1 session";
      assert r[|r| - 1] == 'n';
    }
  }

  datatype Card = Card(labelText: string, average: int, countText: string)

  /** The card of one personality in the aggregate. */
  function CardOf(key: string, stats: PersonalityStats): (r: Card)
    ensures r.labelText == PersonalityName(key)
    ensures r.average as real - 0.5 <= stats.averageOverall < r.average as real + 0.5
    ensures r.countText == SessionCount(stats.count)
  {
    Card(PersonalityName(key), JsRound(stats.averageOverall), SessionCount(stats.count))
  }

  /** Where a history row links: the scorecard of a completed session, else nowhere. */
  function SessionLink(s: SessionSummary): (r: string)
    ensures s.status == "completed" && s.id >= 0 ==> r == ScorecardPath(s.id)
    ensures s.status != "completed" ==> r == "#"
  {
    if s.status == "completed" then "/scorecard/" + IntToString(s.id) else "#"
  }

  /** The right-hand side of a history row: a coloured rounded score, or the status when unscored. */
  datatype RowBadge = ScoreShown(value: int, colour: string) | StatusShown(status: string)

  function RowBadgeOf(s: SessionSummary): (r: RowBadge)
    ensures s.overallScore.None? <==> r == StatusShown(s.status)
    ensures s.overallScore.Some? ==>
      r.ScoreShown? && r.colour == TextClass(BandOf(s.overallScore.value))
      && r.value as real - 0.5 <= s.overallScore.value < r.value as real + 0.5
  {
    if s.overallScore.Some? then ScoreShown(JsRound(s.overallScore.value), ScoreColour(s.overallScore.value))
    else StatusShown(s.status)
  }

  datatype HistoryRow = HistoryRow(link: string, productName: string, personality: string, badge: RowBadge)

  /** The history list: one row per listed session, in listing order (newest first). */
  function History(sessions: seq<SessionSummary>): (r: seq<HistoryRow>)
    ensures |r| == |sessions|
    ensures forall i :: 0 <= i < |r| ==>
              r[i] == HistoryRow(SessionLink(sessions[i]), sessions[i].productName,
                                 PersonalityName(sessions[i].personalityType), RowBadgeOf(sessions[i]))
  {
    if sessions == [] then []
    else [HistoryRow(SessionLink(sessions[0]), sessions[0].productName,
                     PersonalityName(sessions[0].personalityType), RowBadgeOf(sessions[0]))]
         + History(sessions[1..])
  }

  /** A history row links to a scorecard exactly when its session is completed; a scored row shows its score. */
  lemma {:induction false} HistoryLinks(sessions: seq<SessionSummary>, i: nat)
    requires i < |sessions|
    ensures History(sessions)[i].link != "#" <==> sessions[i].status == "completed"
    ensures History(sessions)[i].badge.ScoreShown? <==> sessions[i].overallScore.Some?
  {
    var r := History(sessions);
    if sessions[i].status == "completed" {
      assert r[i].link[0] == '/';
    }
  }
}

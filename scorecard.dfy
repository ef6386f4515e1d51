/**
 * The scorecard page: it polls `GET /sessions/{id}` every three seconds until
 * the session is completed and scored, then renders the overall score, a radar
 * chart and a bar per dimension coloured by band, the feedback lists, a
 * rambling notice and, when the scorer gave no per-answer breakdown, the live
 * answer scores recorded during the call.
 */
module Scorecard {
  import opened Common
  import opened Store
  import opened Scores
  import opened Sessions

  // ---------------------------------------------------------------------------
  // Colour bands

  /** The four score bands the page colours by. */
  datatype Band = Green | Amber | Orange | Red

  /** Reference definition of the bands as intervals: [80, ∞), [60, 80), [40, 60), (-∞, 40). */
  function BandOf(v: real): (b: Band)
    ensures b == Green <==> 80.0 <= v
    ensures b == Amber <==> 60.0 <= v < 80.0
    ensures b == Orange <==> 40.0 <= v < 60.0
    ensures b == Red <==> v < 40.0
  {
    if v < 40.0 then Red
    else if v < 60.0 then Orange
    else if v < 80.0 then Amber
    else Green
  }

  function Rank(b: Band): nat
  {
    match b
    case Red => 0
    case Orange => 1
    case Amber => 2
    case Green => 3
  }

  /** A higher score never falls into a lower band. */
  lemma BandMonotone(v: real, w: real)
    requires v <= w
    ensures Rank(BandOf(v)) <= Rank(BandOf(w))
  {
  }

  function BadgeClass(b: Band): string
  {
    match b
    case Green => "text-green-400 bg-green-400/10"
    case Amber => "text-amber-400 bg-amber-400/10"
    case Orange => "text-orange-400 bg-orange-400/10"
    case Red => "text-red-400 bg-red-400/10"
  }

  function BarClass(b: Band): string
  {
    match b
    case Green => "bg-green-500"
    case Amber => "bg-amber-500"
    case Orange => "bg-orange-500"
    case Red => "bg-red-500"
  }

  /** The colour chosen by `ScoreBadge`: red unless one of the thresholds is reached, highest first. */
  function BadgeColour(score: real): (r: string)
    ensures r == BadgeClass(BandOf(score))
  {
    if score >= 80.0 then "text-green-400 bg-green-400/10"
    else if score >= 60.0 then "text-amber-400 bg-amber-400/10"
    else if score >= 40.0 then "text-orange-400 bg-orange-400/10"
    else "text-red-400 bg-red-400/10"
  }

  /** The bar colour of a dimension, chosen by the same thresholds. */
  function BarColour(val: real): (r: string)
    ensures r == BarClass(BandOf(val))
  {
    if val >= 80.0 then "bg-green-500"
    else if val >= 60.0 then "bg-amber-500"
    else if val >= 40.0 then "bg-orange-500"
    else "bg-red-500"
  }

  /** Different bands are shown in different colours, for the badge and for the bar. */
  lemma ColoursDistinguishBands(b: Band, c: Band)
    requires b != c
    ensures BadgeClass(b) != BadgeClass(c) && BarClass(b) != BarClass(c)
  {
    match b
    case Green => assert BadgeClass(b)[5] == 'g' && BarClass(b)[3] == 'g';
    case Amber => assert BadgeClass(b)[5] == 'a' && BarClass(b)[3] == 'a';
    case Orange => assert BadgeClass(b)[5] == 'o' && BarClass(b)[3] == 'o';
    case Red => assert BadgeClass(b)[5] == 'r' && BarClass(b)[3] == 'r';
  }

  /** A badge: the rounded score and its colour. */
  datatype Badge = Badge(shown: int, colour: string)

  function ScoreBadge(score: real): (r: Badge)
    ensures r.colour == BadgeClass(BandOf(score))
    ensures r.shown as real - 0.5 <= score < r.shown as real + 0.5
  {
    Badge(JsRound(score), BadgeColour(score))
  }

  // ---------------------------------------------------------------------------
  // Dimension chart and breakdown

  /** `DIMENSION_LABELS`, for the six scored dimensions. */
  function DimensionLabel(d: Dimension): string
    requires d != Overall
  {
    match d
    case TermUnderstanding => "Term Knowledge"
    case DescriptionBreadth => "Description Breadth"
    case Conciseness => "Conciseness"
    case ObjectionHandling => "Objection Handling"
    case UspFraming => "USP Framing"
    case Confidence => "Confidence"
  }

  /** A dimension of the score the page received. */
  function ViewDim(v: ScoreView, d: Dimension): real
  {
    match d
    case TermUnderstanding => v.termUnderstanding
    case DescriptionBreadth => v.descriptionBreadth
    case Conciseness => v.conciseness
    case ObjectionHandling => v.objectionHandling
    case UspFraming => v.uspFraming
    case Confidence => v.confidence
    case Overall => v.overall
  }

  /** The page reads each dimension out of the stored score under the same key. */
  lemma ViewDimIsStored(s: ScoreRow, d: Dimension)
    ensures ViewDim(ViewOfScore(s), d) == DimValue(s, d)
  {
  }

  /** `scores?.[key] || 0`: the dimension's value, or 0 without a score. */
  function Shown(scores: Option<ScoreView>, d: Dimension): (r: real)
    ensures scores.None? ==> r == 0.0
    ensures scores.Some? ==> r == ViewDim(scores.value, d)
  {
    if scores.None? then 0.0 else ViewDim(scores.value, d)
  }

  datatype RadarPoint = RadarPoint(dimension: string, score: real, fullMark: int)

  /** `radarData`: one point per scored dimension, in label order, on a 0-100 scale. */
  function RadarData(scores: Option<ScoreView>): (r: seq<RadarPoint>)
    ensures |r| == |ScoreDimensions|
    ensures forall i :: 0 <= i < |r| ==>
              r[i].dimension == DimensionLabel(ScoreDimensions[i]) && r[i].fullMark == 100
    ensures scores.None? ==> forall i :: 0 <= i < |r| ==> r[i].score == 0.0
    ensures scores.Some? ==> forall i :: 0 <= i < |r| ==> r[i].score == ViewDim(scores.value, ScoreDimensions[i])
  {
    seq(|ScoreDimensions|, i requires 0 <= i < |ScoreDimensions| =>
      RadarPoint(DimensionLabel(ScoreDimensions[i]), Shown(scores, ScoreDimensions[i]), 100))
  }

  /** The chart's labels name six different dimensions. */
  lemma RadarLabelsDistinct(scores: Option<ScoreView>)
    ensures var r := RadarData(scores);
      forall i, j :: 0 <= i < j < |r| ==> r[i].dimension != r[j].dimension
  {
    var r := RadarData(scores);
    forall i, j | 0 <= i < j < |r|
      ensures r[i].dimension != r[j].dimension
    {
      assert ScoreDimensions[i] != ScoreDimensions[j];
      LabelsDiffer(ScoreDimensions[i], ScoreDimensions[j]);
    }
  }

  /** Two scored dimensions have different labels: they differ in length or in their first letter. */
  lemma LabelsDiffer(d: Dimension, e: Dimension)
    requires d != Overall && e != Overall && d != e
    ensures DimensionLabel(d) != DimensionLabel(e)
  {
    var a, b := DimensionLabel(d), DimensionLabel(e);
    assert |a| != |b| || a[0] != b[0];
  }

  /** A row of the dimension breakdown: label, badge and bar (colour and width in percent). */
  datatype BarRow = BarRow(labelText: string, badge: Badge, barColour: string, width: real)

  function Breakdown(scores: Option<ScoreView>): (r: seq<BarRow>)
    ensures |r| == |ScoreDimensions|
    ensures forall i :: 0 <= i < |r| ==>
              var val := Shown(scores, ScoreDimensions[i]);
              && r[i].labelText == DimensionLabel(ScoreDimensions[i])
              && r[i].width == val
              && r[i].barColour == BarClass(BandOf(val))
              && r[i].badge.colour == BadgeClass(BandOf(val))
  {
    seq(|ScoreDimensions|, i requires 0 <= i < |ScoreDimensions| =>
      var val := Shown(scores, ScoreDimensions[i]);
      BarRow(DimensionLabel(ScoreDimensions[i]), ScoreBadge(val), BarColour(val), val))
  }

  /** The bar and the badge of a row always agree on the band. */
  lemma BarAndBadgeAgree(scores: Option<ScoreView>, i: nat, b: Band)
    requires i < |ScoreDimensions|
    ensures Breakdown(scores)[i].barColour == BarClass(b) <==> Breakdown(scores)[i].badge.colour == BadgeClass(b)
  {
    var val := Shown(scores, ScoreDimensions[i]);
    if b != BandOf(val) {
      ColoursDistinguishBands(b, BandOf(val));
    }
  }

  /** The large overall number: `Math.round(scores?.overall || 0)`. */
  function OverallShown(scores: Option<ScoreView>): (r: int)
    ensures scores.None? ==> r == 0
    ensures scores.Some? ==> r as real - 0.5 <= scores.value.overall < r as real + 0.5
  {
    JsRound(Shown(scores, Overall))
  }

  // ---------------------------------------------------------------------------
  // Header

  predicate IsWordChar(c: char)
  {
    'a' <= c <= 'z' || 'A' <= c <= 'Z' || '0' <= c <= '9' || c == '_'
  }

  function Underscores(s: string): (r: string)
    ensures |r| == |s|
    ensures forall i :: 0 <= i < |s| ==> r[i] == if s[i] == '_' then ' ' else s[i]
  {
    seq(|s|, i requires 0 <= i < |s| => if s[i] == '_' then ' ' else s[i])
  }

  /** The character at `i` starts a word: a word character after a non-word character or the start. */
  predicate WordStart(t: string, i: nat)
    requires i < |t|
  {
    IsWordChar(t[i]) && (i == 0 || !IsWordChar(t[i - 1]))
  }

  /**
   * The personality key as the header shows it: underscores become spaces,
   * then the first character of every word is upper-cased.
   */
  function TitleCase(s: string): (r: string)
    ensures |r| == |s|
    ensures forall i :: 0 <= i < |s| ==> r[i] != '_'
    ensures forall i :: 0 <= i < |s| ==>
              r[i] == if WordStart(Underscores(s), i) then AsciiUpper(Underscores(s)[i]) else Underscores(s)[i]
  {
    var t := Underscores(s);
    seq(|t|, i requires 0 <= i < |t| => if WordStart(t, i) then AsciiUpper(t[i]) else t[i])
  }

  /** Upper-casing a word character keeps it a word character, and a non-word character is untouched. */
  lemma UpperKeepsWordChar(c: char)
    ensures IsWordChar(AsciiUpper(c)) == IsWordChar(c)
  {
  }

  /** Title-casing twice changes nothing more. */
  lemma TitleCaseIdempotent(s: string)
    ensures TitleCase(TitleCase(s)) == TitleCase(s)
  {
    var r := TitleCase(s);
    var t := Underscores(s);
    assert Underscores(r) == r;
    forall i | 0 <= i < |r|
      ensures IsWordChar(r[i]) == IsWordChar(t[i])
    {
      UpperKeepsWordChar(t[i]);
    }
    forall i | 0 <= i < |r|
      ensures TitleCase(r)[i] == r[i]
    {
      assert WordStart(r, i) == WordStart(t, i);
    }
  }

  lemma TitleCaseExample()
    ensures TitleCase("skeptical_buyer") == "Skeptical Buyer"
  {
    var s := "skeptical_buyer";
    var r := TitleCase(s);
    assert WordStart(Underscores(s), 0) && WordStart(Underscores(s), 10);
    forall i | 0 <= i < |s| && i != 0 && i != 10
      ensures !WordStart(Underscores(s), i)
    {
    }
  }

  /** The line under the title: product name, a dash, then the title-cased personality. */
  function Header(d: SessionDetail): (r: string)
    ensures |r| == |d.productName| + 3 + |d.personalityType|
    ensures r[..|d.productName|] == d.productName
    ensures r[|d.productName| + 3..] == TitleCase(d.personalityType)
  {
    d.productName + " \U{2014} " + TitleCase(d.personalityType)
  }

  // ---------------------------------------------------------------------------
  // Sections

  /** The feedback of a session, or an empty one when it has no score (`scores?.detailed_feedback || {}`). */
  function FeedbackOf(scores: Option<ScoreView>): (f: DetailedFeedback)
    ensures scores.None? ==> f.perAnswerFeedback == [] && f.strengths == [] && f.improvements == []
    ensures scores.None? ==> f.ramblingInstances == 0
    ensures scores.Some? ==> f == scores.value.detailedFeedback
  {
    if scores.None? then DetailedFeedback([], [], [], 0) else scores.value.detailedFeedback
  }

  /** Which optional parts of the report are rendered. */
  datatype Sections = Sections(
    strengths: bool, improvements: bool, rambling: bool, perAnswer: bool, liveScores: bool)

  function SectionsOf(d: SessionDetail): (r: Sections)
    ensures r.strengths <==> |FeedbackOf(d.scores).strengths| > 0
    ensures r.improvements <==> |FeedbackOf(d.scores).improvements| > 0
    ensures r.rambling <==> FeedbackOf(d.scores).ramblingInstances > 0
    ensures r.perAnswer <==> |FeedbackOf(d.scores).perAnswerFeedback| > 0
    ensures r.liveScores <==> |d.answerScores| > 0 && |FeedbackOf(d.scores).perAnswerFeedback| == 0
  {
    var f := FeedbackOf(d.scores);
    Sections(|f.strengths| > 0, |f.improvements| > 0, f.ramblingInstances > 0,
      |f.perAnswerFeedback| > 0, |d.answerScores| > 0 && !(|f.perAnswerFeedback| > 0))
  }

  /** At most one answer-by-answer list is shown, and a session without a score shows only the live scores. */
  lemma OneAnswerList(d: SessionDetail)
    ensures !(SectionsOf(d).perAnswer && SectionsOf(d).liveScores)
    ensures d.scores.None? ==> SectionsOf(d) == Sections(false, false, false, false, |d.answerScores| > 0)
  {
  }

  /** The numbered improvement items: the i-th reads "i." before the text. */
  function ImprovementItems(xs: seq<string>): (r: seq<string>)
    ensures |r| == |xs|
    ensures forall i :: 0 <= i < |xs| ==> r[i] == NatToString(i + 1) + ". " + xs[i]
  {
    seq(|xs|, i requires 0 <= i < |xs| => NatToString(i + 1) + ". " + xs[i])
  }

  /** Items are numbered from 1 upwards, each number read back from its item. */
  lemma ImprovementNumbers(xs: seq<string>, i: nat)
    requires i < |xs|
    ensures var item := ImprovementItems(xs)[i];
      var n := |NatToString(i + 1)|;
      n < |item| && AllDigits(item[..n]) && ParseNat(item[..n]) == i + 1 && item[n] == '.'
  {
    var item := ImprovementItems(xs)[i];
    var n := |NatToString(i + 1)|;
    assert item[..n] == NatToString(i + 1);
    ParseNatToString(i + 1);
  }

  /** The rambling notice: absent without rambling, and "time" in the plural only above one. */
  function RamblingNotice(count: int): (r: Option<string>)
    ensures r.None? <==> count <= 0
    ensures r.Some? ==> var head := "You rambled " + IntToString(count) + " time";
      |head| < |r.value| && r.value[..|head|] == head && (r.value[|head|] == 's' <==> count > 1)
  {
    if count <= 0 then None
    else
      var head := "You rambled " + IntToString(count) + " time";
      Some(head + (if count > 1 then "s" else "") + " during this session. Work on delivering "
        + "tighter, more focused answers.")
  }

  // ---------------------------------------------------------------------------
  // Polling and the page as an object

  /** One answer from `api.getSession`: the session, or the message of the error it raised. */
  datatype Fetch = Fetched(data: SessionDetail) | FetchFailed(message: string)

  /** The page state; `retry` is the delay in milliseconds of the next scheduled poll, if any. */
  datatype PageState = PageState(session: Option<SessionDetail>, loading: bool, error: string, retry: Option<nat>)

  /** On mount: loading, nothing fetched, and the first poll due at once. */
  function Initial(): PageState
  {
    PageState(None, true, "", Some(0))
  }

  /** The data is final once the session is completed and carries scores. */
  predicate Settled(d: SessionDetail)
  {
    d.status == "completed" && d.scores.Some?
  }

  /** One run of `poll`. */
  function AfterPoll(s: PageState, f: Fetch): PageState
  {
    match f
    case Fetched(d) =>
      if Settled(d) then PageState(Some(d), false, s.error, None)
      else PageState(Some(d), s.loading, s.error, Some(3000))
    case FetchFailed(msg) => PageState(s.session, false, msg, None)
  }

  /** Polling stops exactly when the fetch failed or returned a settled session; otherwise it retries in three seconds. */
  lemma PollStops(s: PageState, f: Fetch)
    ensures AfterPoll(s, f).retry.None? <==> f.FetchFailed? || Settled(f.data)
    ensures AfterPoll(s, f).retry.Some? ==> AfterPoll(s, f).retry == Some(3000) && AfterPoll(s, f).loading == s.loading
    ensures AfterPoll(s, f).retry.None? ==> !AfterPoll(s, f).loading
    ensures f.Fetched? ==> AfterPoll(s, f).session == Some(f.data)
  {
  }

  /** The polls that happen: each one only while a retry is scheduled. */
  function Polls(s: PageState, fs: seq<Fetch>): PageState
    decreases |fs|
  {
    if fs == [] || s.retry.None? then s else Polls(AfterPoll(s, fs[0]), fs[1..])
  }

  /** As long as every answer is an unsettled session, the page keeps loading and keeps polling. */
  lemma {:induction false} PendingKeepsPolling(s: PageState, fs: seq<Fetch>)
    requires s.loading && s.retry.Some?
    requires forall i :: 0 <= i < |fs| ==> fs[i].Fetched? && !Settled(fs[i].data)
    ensures Polls(s, fs).loading && Polls(s, fs).retry.Some?
    ensures fs != [] ==> Polls(s, fs).session == Some(fs[|fs| - 1].data)
    decreases |fs|
  {
    if fs != [] {
      var next := AfterPoll(s, fs[0]);
      assert forall i :: 0 <= i < |fs[1..]| ==> fs[1..][i] == fs[i + 1];
      PendingKeepsPolling(next, fs[1..]);
      if |fs| > 1 {
        assert fs[1..][|fs[1..]| - 1] == fs[|fs| - 1];
      }
    }
  }

  /** Once polling has stopped, later answers change nothing. */
  lemma {:induction false} StoppedStaysStopped(s: PageState, fs: seq<Fetch>)
    requires s.retry.None?
    ensures Polls(s, fs) == s
  {
  }

  /** What the page renders. */
  datatype Page = LoadingPage | ErrorPage(message: string) | Report(data: SessionDetail)

  function PageOf(s: PageState): (r: Page)
    ensures r == LoadingPage <==> s.loading
    ensures r.ErrorPage? <==> !s.loading && (s.error != "" || s.session.None?)
    ensures r.ErrorPage? ==> r.message == (if s.error != "" then s.error else "Session not found")
    ensures r.Report? ==> s.session == Some(r.data) && s.error == ""
  {
    if s.loading then LoadingPage
    else if s.error != "" || s.session.None? then ErrorPage(if s.error != "" then s.error else "Session not found")
    else Report(s.session.value)
  }

  /** A settled answer after polls without error shows the report; a failure with a message shows that message. */
  lemma PollOutcomes(s: PageState, f: Fetch)
    ensures f.Fetched? && Settled(f.data) && s.error == "" ==> PageOf(AfterPoll(s, f)) == Report(f.data)
    ensures f.FetchFailed? && f.message != "" ==> PageOf(AfterPoll(s, f)) == ErrorPage(f.message)
    ensures f.Fetched? && !Settled(f.data) && s.loading ==> PageOf(AfterPoll(s, f)) == LoadingPage
  {
  }

  /** The scorecard page as an object: its state fields, updated by each poll. */
  class ScorecardView {
    var session: Option<SessionDetail>
    var loading: bool
    var error: string
    var retry: Option<nat>

    function State(): PageState
      reads this
    {
      PageState(session, loading, error, retry)
    }

    constructor ()
      ensures State() == Initial()
    {
      session, loading, error, retry := None, true, "", Some(0);
    }

    /** One run of `poll` with the answer `f` of `api.getSession`. */
    method Poll(f: Fetch)
      modifies this
      ensures State() == AfterPoll(old(State()), f)
    {
      match f {
        case Fetched(d) =>
          session := Some(d);
          if d.status == "completed" && d.scores.Some? {
            loading := false;
            retry := None;
          } else {
            retry := Some(3000);
          }
        case FetchFailed(msg) =>
          error := msg;
          loading := false;
          retry := None;
      }
    }
  }
}

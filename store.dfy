/**
 * The persisted rows of the backend (its SQLAlchemy models) and the database
 * that holds them. Each table is a sequence of rows in insertion order, so a
 * query's `.first()` is the first matching row of the table and an
 * `ORDER BY created_at` is the table order.
 */
module Store {
  import opened Common

  datatype Usp = Usp(title: Option<string>, description: Option<string>)
  datatype KeyTerm = KeyTerm(term: Option<string>, definition: Option<string>)
  datatype Objection = Objection(objection: Option<string>)

  /** A row of `products`; the three lists are what the USP extractor returned. */
  datatype Product = Product(
    id: int, userId: int, name: string, rawText: string,
    usps: seq<Usp>, keyTerms: seq<KeyTerm>, objections: seq<Objection>,
    clientFrames: Json, createdAt: int)

  /** One element of a session's JSON transcript column; a missing key is `None`. */
  datatype TranscriptEntry = TranscriptEntry(role: Option<string>, content: Option<string>, message: Option<string>)

  /** A row of `sessions`; `status` is one of "pending", "active", "completed". */
  datatype SessionRow = SessionRow(
    id: int, userId: int, productId: int, personalityType: string,
    vapiCallId: Option<string>, transcript: seq<TranscriptEntry>, status: string, createdAt: int)

  /** The `detailed_feedback` JSON column of a score. */
  datatype DetailedFeedback = DetailedFeedback(
    perAnswerFeedback: seq<Json>, strengths: seq<string>, improvements: seq<string>, ramblingInstances: int)

  /** A row of `scores`; `session_id` is unique in this table. */
  datatype ScoreRow = ScoreRow(
    sessionId: int,
    termUnderstanding: real, descriptionBreadth: real, conciseness: real,
    objectionHandling: real, uspFraming: real, confidence: real, overall: real,
    detailedFeedback: DetailedFeedback, createdAt: int)

  /** A row of `answer_scores`: one live score recorded during a call. */
  datatype AnswerScoreRow = AnswerScoreRow(
    sessionId: int, question: string, answerSummary: string,
    termAccuracy: real, conciseness: real, framingQuality: real, feedback: string, createdAt: int)

  // ---------------------------------------------------------------------------
  // Queries

  /** The index of the first element satisfying `p`: a query's `.first()`. */
  function FirstIndex<T>(s: seq<T>, p: T -> bool): (r: Option<nat>)
    ensures r.Some? ==> r.value < |s| && p(s[r.value]) && forall j :: 0 <= j < r.value ==> !p(s[j])
    ensures r.None? ==> forall j :: 0 <= j < |s| ==> !p(s[j])
  {
    if s == [] then None
    else if p(s[0]) then Some(0)
    else
      var r := FirstIndex(s[1..], p);
      if r.Some? then Some(r.value + 1) else None
  }

  /** The product with this id owned by this user. */
  function FindOwnedProduct(products: seq<Product>, id: int, userId: int): Option<nat>
  {
    FirstIndex(products, (p: Product) => p.id == id && p.userId == userId)
  }

  /** The product with this id, whoever owns it. */
  function FindProduct(products: seq<Product>, id: int): Option<nat>
  {
    FirstIndex(products, (p: Product) => p.id == id)
  }

  /** The session with this id owned by this user. */
  function FindOwnedSession(sessions: seq<SessionRow>, id: int, userId: int): Option<nat>
  {
    FirstIndex(sessions, (s: SessionRow) => s.id == id && s.userId == userId)
  }

  /** The first session whose voice-platform call id is `callId`. */
  function FindSessionByCallId(sessions: seq<SessionRow>, callId: string): Option<nat>
  {
    FirstIndex(sessions, (s: SessionRow) => s.vapiCallId == Some(callId))
  }

  /** The score of a session, when it has one. */
  function FindScore(scores: seq<ScoreRow>, sessionId: int): Option<nat>
  {
    FirstIndex(scores, (s: ScoreRow) => s.sessionId == sessionId)
  }

  /** The answer scores of a session, in creation order. */
  function AnswerScoresOf(rows: seq<AnswerScoreRow>, sessionId: int): (r: seq<AnswerScoreRow>)
    ensures |r| <= |rows|
    ensures forall a :: a in r ==> a in rows && a.sessionId == sessionId
    ensures forall a :: a in rows && a.sessionId == sessionId ==> a in r
  {
    if rows == [] then []
    else
      var rest := AnswerScoresOf(rows[..|rows| - 1], sessionId);
      var last := rows[|rows| - 1];
      assert rows == rows[..|rows| - 1] + [last];
      if last.sessionId == sessionId then rest + [last] else rest
  }

  // ---------------------------------------------------------------------------
  // Primary keys: a new row gets one more than the largest id in its table

  function MaxOf(xs: seq<int>): (m: int)
    ensures m >= 0 && forall i :: 0 <= i < |xs| ==> xs[i] <= m
  {
    if xs == [] then 0
    else
      var rest := MaxOf(xs[1..]);
      if xs[0] > rest then xs[0] else rest
  }

  /** The ids of a table's rows, in table order. */
  function Ids<T>(rows: seq<T>, id: T -> int): (ids: seq<int>)
    ensures |ids| == |rows| && forall i :: 0 <= i < |rows| ==> ids[i] == id(rows[i])
  {
    seq(|rows|, i requires 0 <= i < |rows| => id(rows[i]))
  }

  function NextProductId(products: seq<Product>): (id: int)
    ensures id >= 1 && forall i :: 0 <= i < |products| ==> products[i].id < id
  {
    MaxOf(Ids(products, (p: Product) => p.id)) + 1
  }

  function NextSessionId(sessions: seq<SessionRow>): (id: int)
    ensures id >= 1 && forall i :: 0 <= i < |sessions| ==> sessions[i].id < id
  {
    MaxOf(Ids(sessions, (s: SessionRow) => s.id)) + 1
  }

  // ---------------------------------------------------------------------------
  // Table constraints

  ghost predicate UniqueProductIds(products: seq<Product>)
  {
    forall i, j :: 0 <= i < j < |products| ==> products[i].id != products[j].id
  }

  ghost predicate UniqueSessionIds(sessions: seq<SessionRow>)
  {
    forall i, j :: 0 <= i < j < |sessions| ==> sessions[i].id != sessions[j].id
  }

  /** The unique constraint on `scores.session_id`. */
  ghost predicate OneScorePerSession(scores: seq<ScoreRow>)
  {
    forall i, j :: 0 <= i < j < |scores| ==> scores[i].sessionId != scores[j].sessionId
  }

  /** The database: one sequence per table (users are left to the auth layer). */
  class Database {
    var products: seq<Product>
    var sessions: seq<SessionRow>
    var scores: seq<ScoreRow>
    var answerScores: seq<AnswerScoreRow>

    ghost predicate Valid()
      reads this
    {
      UniqueProductIds(products) && UniqueSessionIds(sessions) && OneScorePerSession(scores)
    }

    constructor ()
      ensures Valid()
      ensures products == [] && sessions == [] && scores == [] && answerScores == []
    {
      products, sessions, scores, answerScores := [], [], [], [];
    }
  }
}

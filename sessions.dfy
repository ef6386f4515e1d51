/**
 * The session routes of the backend: the webhook address the voice platform
 * is given, session creation with its validation and call configuration,
 * attaching a voice-platform call id, and the two session read routes.
 * Environment variables and the clock are parameters.
 */
module Sessions {
  import opened Common
  import opened Store
  import opened Personality

  // ---------------------------------------------------------------------------
  // The webhook address

  /** Python `s.rstrip(c)`: `s` without its trailing run of `c`. */
  function RStrip(s: string, c: char): (r: string)
    ensures |r| <= |s| && r == s[..|r|]
    ensures r == [] || r[|r| - 1] != c
    ensures forall i :: |r| <= i < |s| ==> s[i] == c
  {
    if s == [] || s[|s| - 1] != c then s else RStrip(s[..|s| - 1], c)
  }

  /**
   * The source's `get_webhook_base_url`, given the values of
   * `WEBHOOK_BASE_URL` and `RAILWAY_PUBLIC_DOMAIN`: an explicit non-empty base
   * without its trailing slashes, else the Railway domain over https, else a
   * placeholder.
   */
  function WebhookBaseUrl(explicit: Option<string>, railwayDomain: Option<string>): (r: string)
    ensures Truthy(explicit) ==> r == RStrip(explicit.value, '/')
    ensures !Truthy(explicit) && Truthy(railwayDomain) ==> r == "https://" + railwayDomain.value
    ensures !Truthy(explicit) && !Truthy(railwayDomain) ==> r == "https://your-server.com"
  {
    if Truthy(explicit) then RStrip(explicit.value, '/')
    else if Truthy(railwayDomain) then "https://" + railwayDomain.value
    else "https://your-server.com"
  }

  /** The address the voice platform posts its messages to. */
  function ServerUrl(baseUrl: string): string
  {
    baseUrl + "/webhook/vapi"
  }

  /** An explicit base never leaves a trailing slash before the webhook path. */
  lemma ServerUrlShape(explicit: string)
    requires explicit != ""
    ensures var base := WebhookBaseUrl(Some(explicit), None);
      ServerUrl(base) == base + "/webhook/vapi"
      && (base == [] || base[|base| - 1] != '/')
      && explicit[..|base|] == base
  {
  }

  // ---------------------------------------------------------------------------
  // Creating a session

  /** The voice-platform call configuration the backend returns; its tool schema is a fixed JSON value and is not modelled. */
  datatype VapiConfig = VapiConfig(
    modelProvider: string, modelName: string, systemPrompt: string, toolName: string,
    voiceProvider: string, voiceId: string, firstMessage: string, serverUrl: string,
    serverMessages: seq<string>, stopSpeakingPlan: StopSpeakingPlan, endCallPhrases: seq<string>,
    sessionId: int)

  /** The personality echoed back by `create_session`. */
  datatype PersonalityEcho = PersonalityEcho(personalityType: string, labelText: string, description: string)

  datatype Created = Created(sessionId: int, config: VapiConfig, personality: PersonalityEcho)

  /** Python's `str` of a list of strings: `['a', 'b']`. */
  function PyStrList(xs: seq<string>): string
  {
    "[" + Join(", ", seq(|xs|, i requires 0 <= i < |xs| => "'" + xs[i] + "'")) + "]"
  }

  const InvalidPersonalityPrefix := "Invalid personality type. Choose from: "

  /** The checks of `create_session`, in the source's order: the product first, then the personality. */
  function CreateSessionError(products: seq<Product>, userId: int, productId: int, personalityType: string): (r: Option<HttpError>)
    ensures FindOwnedProduct(products, productId, userId).None? ==> r == Some(HttpError(404, "Product not found"))
    ensures FindOwnedProduct(products, productId, userId).Some? && personalityType !in Keys ==>
      r == Some(HttpError(400, InvalidPersonalityPrefix + PyStrList(Keys)))
    ensures r.None? <==> FindOwnedProduct(products, productId, userId).Some? && personalityType in Keys
  {
    if FindOwnedProduct(products, productId, userId).None? then Some(HttpError(404, "Product not found"))
    else if personalityType !in Keys then Some(HttpError(400, InvalidPersonalityPrefix + PyStrList(Keys)))
    else None
  }

  /** The row `create_session` adds: a fresh id, no call yet, an empty transcript, status "pending". */
  function NewSession(sessions: seq<SessionRow>, userId: int, productId: int, personalityType: string, now: int): (s: SessionRow)
    ensures forall i :: 0 <= i < |sessions| ==> sessions[i].id != s.id
    ensures s.status == "pending" && s.vapiCallId.None? && s.transcript == []
    ensures s.userId == userId && s.productId == productId && s.personalityType == personalityType
  {
    SessionRow(NextSessionId(sessions), userId, productId, personalityType, None, [], "pending", now)
  }

  const FirstMessage :=
    "Hey, thanks for jumping on this call. "
    + "I've got a few minutes \U{2014} tell me what "
    + "you've got. What is this product and why "
    + "should I care?"

  /** The call configuration for a new session of a product with a known personality. */
  function ConfigFor(prompt: string, k: Kind, sessionId: int, baseUrl: string): VapiConfig
  {
    VapiConfig(
      "openai", "gpt-4o", prompt, "score_response", "11labs", "burt", FirstMessage, ServerUrl(baseUrl),
      ["end-of-call-report", "tool-calls", "transcript", "status-update"], Plan(k),
      ["goodbye", "end the session", "that's all"], sessionId)
  }

  /** What `create_session` answers, given the tables before the call. */
  function CreateSessionResult(
    products: seq<Product>, sessions: seq<SessionRow>, userId: int, productId: int, personalityType: string,
    baseUrl: string): Result<Created>
  {
    var err := CreateSessionError(products, userId, productId, personalityType);
    if err.Some? then Err(err.value)
    else
      var product := products[FindOwnedProduct(products, productId, userId).value];
      var k := KindOf(personalityType).value;
      var id := NextSessionId(sessions);
      var prompt := SystemPrompt(personalityType, product.usps, product.keyTerms, product.objections);
      Ok(Created(id, ConfigFor(GetOr(prompt, ""), k, id, baseUrl), PersonalityEcho(personalityType, Label(k), Description(k))))
  }

  /**
   * A successful creation answers with the new session's id; the configuration
   * carries the personality's prompt and stop-speaking plan, the webhook path
   * and that id; and the personality's type, label and description are echoed.
   */
  lemma CreatedSessionShape(
    products: seq<Product>, sessions: seq<SessionRow>, userId: int, productId: int, personalityType: string,
    baseUrl: string)
    requires FindOwnedProduct(products, productId, userId).Some? && personalityType in Keys
    ensures var r := CreateSessionResult(products, sessions, userId, productId, personalityType, baseUrl);
      var product := products[FindOwnedProduct(products, productId, userId).value];
      var p := GetPersonality(personalityType).value;
      r.Ok?
      && r.value.sessionId == NextSessionId(sessions) == r.value.config.sessionId
      && r.value.config.stopSpeakingPlan == p.stopSpeakingPlan
      && r.value.config.serverUrl == baseUrl + "/webhook/vapi"
      && Some(r.value.config.systemPrompt) == SystemPrompt(personalityType, product.usps, product.keyTerms, product.objections)
      && r.value.personality == PersonalityEcho(personalityType, p.labelText, p.description)
      && product.id == productId && product.userId == userId
  {
    KnownPersonalityPrompt(personalityType, [], [], []);
    var product := products[FindOwnedProduct(products, productId, userId).value];
    KnownPersonalityPrompt(personalityType, product.usps, product.keyTerms, product.objections);
  }

  /** The source's `create_session`: validate, add a pending session, build its configuration. */
  method CreateSession(db: Database, userId: int, productId: int, personalityType: string, now: int, baseUrl: string)
    returns (r: Result<Created>)
    requires db.Valid()
    modifies db
    ensures db.Valid()
    ensures db.products == old(db.products) && db.scores == old(db.scores) && db.answerScores == old(db.answerScores)
    ensures r == CreateSessionResult(old(db.products), old(db.sessions), userId, productId, personalityType, baseUrl)
    ensures r.Err? ==> db.sessions == old(db.sessions)
    ensures r.Ok? ==> db.sessions == old(db.sessions) + [NewSession(old(db.sessions), userId, productId, personalityType, now)]
  {
    var err := CreateSessionError(db.products, userId, productId, personalityType);
    if err.Some? {
      return Err(err.value);
    }
    var session := NewSession(db.sessions, userId, productId, personalityType, now);
    db.sessions := db.sessions + [session];
    var product := db.products[FindOwnedProduct(db.products, productId, userId).value];
    var k := KindOf(personalityType).value;
    var prompt := SystemPrompt(personalityType, product.usps, product.keyTerms, product.objections);
    r := Ok(Created(session.id, ConfigFor(GetOr(prompt, ""), k, session.id, baseUrl),
      PersonalityEcho(personalityType, Label(k), Description(k))));
  }

  // ---------------------------------------------------------------------------
  // Attaching the voice platform's call id

  /** The sessions after the `i`-th one is given its call id and becomes "active". */
  function WithCallId(sessions: seq<SessionRow>, i: nat, callId: string): (r: seq<SessionRow>)
    requires i < |sessions|
    ensures |r| == |sessions| && r[i].vapiCallId == Some(callId) && r[i].status == "active"
    ensures forall j :: 0 <= j < |r| ==> r[j].id == sessions[j].id && r[j].userId == sessions[j].userId
    ensures forall j :: 0 <= j < |r| && j != i ==> r[j] == sessions[j]
  {
    sessions[i := sessions[i].(vapiCallId := Some(callId), status := "active")]
  }

  /** The source's `update_call_id`: a missing or foreign session is a 404, otherwise the call id is stored. */
  method UpdateCallId(db: Database, userId: int, sessionId: int, callId: string) returns (r: Result<string>)
    requires db.Valid()
    modifies db
    ensures db.Valid()
    ensures db.products == old(db.products) && db.scores == old(db.scores) && db.answerScores == old(db.answerScores)
    ensures FindOwnedSession(old(db.sessions), sessionId, userId).None? ==>
      r == Err(HttpError(404, "Session not found")) && db.sessions == old(db.sessions)
    ensures FindOwnedSession(old(db.sessions), sessionId, userId).Some? ==>
      r == Ok("updated") && db.sessions == WithCallId(old(db.sessions), FindOwnedSession(old(db.sessions), sessionId, userId).value, callId)
  {
    var found := FindOwnedSession(db.sessions, sessionId, userId);
    if found.None? {
      return Err(HttpError(404, "Session not found"));
    }
    db.sessions := WithCallId(db.sessions, found.value, callId);
    r := Ok("updated");
  }

  /**
   * Once a session has its call id, the webhook's lookup by that call id finds
   * a session no later than it, and exactly it when no earlier session carries that id.
   */
  lemma {:induction false} CallIdFindsSession(sessions: seq<SessionRow>, i: nat, callId: string)
    requires i < |sessions|
    ensures var r := FindSessionByCallId(WithCallId(sessions, i, callId), callId);
      r.Some? && r.value <= i
      && ((forall j :: 0 <= j < i ==> sessions[j].vapiCallId != Some(callId)) ==> r == Some(i))
  {
    var after := WithCallId(sessions, i, callId);
    assert after[i].vapiCallId == Some(callId);
  }

  // ---------------------------------------------------------------------------
  // Listing sessions

  /** One entry of the session listing; `createdAt` stands for its ISO rendering. */
  datatype SessionSummary = SessionSummary(
    id: int, productName: string, personalityType: string, status: string, overallScore: Option<real>, createdAt: int)

  /** A user's sessions, newest first (creation order reversed). */
  function OwnSessionsNewestFirst(sessions: seq<SessionRow>, userId: int): (r: seq<SessionRow>)
    ensures |r| <= |sessions|
    ensures forall s :: s in r ==> s in sessions && s.userId == userId
    ensures forall s :: s in sessions && s.userId == userId ==> s in r
  {
    if sessions == [] then []
    else
      var last := sessions[|sessions| - 1];
      var rest := OwnSessionsNewestFirst(sessions[..|sessions| - 1], userId);
      assert sessions == sessions[..|sessions| - 1] + [last];
      if last.userId == userId then [last] + rest else rest
  }

  /** The name of a session's product, or "Unknown" when it is gone. */
  function ProductName(products: seq<Product>, productId: int): (r: string)
    ensures FindProduct(products, productId).None? ==> r == "Unknown"
    ensures FindProduct(products, productId).Some? ==> r == products[FindProduct(products, productId).value].name
  {
    var found := FindProduct(products, productId);
    if found.Some? then products[found.value].name else "Unknown"
  }

  /** The listing entry of a session. */
  function SummaryOf(products: seq<Product>, scores: seq<ScoreRow>, s: SessionRow): (r: SessionSummary)
    ensures r.id == s.id && r.personalityType == s.personalityType && r.status == s.status && r.createdAt == s.createdAt
    ensures r.productName == ProductName(products, s.productId)
    ensures FindProduct(products, s.productId).None? ==> r.productName == "Unknown"
    ensures r.overallScore.None? <==> FindScore(scores, s.id).None?
    ensures r.overallScore.Some? ==> r.overallScore.value == scores[FindScore(scores, s.id).value].overall
  {
    var score := FindScore(scores, s.id);
    SessionSummary(s.id, ProductName(products, s.productId), s.personalityType, s.status,
      if score.Some? then Some(scores[score.value].overall) else None, s.createdAt)
  }

  function Listing(products: seq<Product>, scores: seq<ScoreRow>, rows: seq<SessionRow>): seq<SessionSummary>
  {
    seq(|rows|, i requires 0 <= i < |rows| => SummaryOf(products, scores, rows[i]))
  }

  /** The source's `list_sessions` loop: one entry per own session, newest first. */
  method ListSessions(db: Database, userId: int) returns (results: seq<SessionSummary>)
    ensures results == Listing(db.products, db.scores, OwnSessionsNewestFirst(db.sessions, userId))
  {
    var rows := OwnSessionsNewestFirst(db.sessions, userId);
    results := [];
    for i := 0 to |rows|
      invariant results == Listing(db.products, db.scores, rows[..i])
    {
      results := results + [SummaryOf(db.products, db.scores, rows[i])];
    }
    assert rows[..|rows|] == rows;
  }

  /** Every listed entry is one of the user's sessions, and each of them is listed, with its own score. */
  lemma ListingIsOwnSessions(products: seq<Product>, sessions: seq<SessionRow>, scores: seq<ScoreRow>, userId: int)
    ensures var rows := OwnSessionsNewestFirst(sessions, userId);
      var out := Listing(products, scores, rows);
      |out| == |rows|
      && (forall i :: 0 <= i < |out| ==>
            (rows[i] in sessions && rows[i].userId == userId && out[i].id == rows[i].id
             && (out[i].overallScore.None? <==> FindScore(scores, rows[i].id).None?)))
      && (forall s :: s in sessions && s.userId == userId ==> exists i :: 0 <= i < |out| && out[i] == SummaryOf(products, scores, s))
  {
    var rows := OwnSessionsNewestFirst(sessions, userId);
    var out := Listing(products, scores, rows);
    forall s | s in sessions && s.userId == userId
      ensures exists i :: 0 <= i < |out| && out[i] == SummaryOf(products, scores, s)
    {
      var i :| 0 <= i < |rows| && rows[i] == s;
      assert out[i] == SummaryOf(products, scores, s);
    }
  }

  /** The listing is newest first: of two sessions of the user, the later-created one comes first. */
  lemma {:induction false} NewestFirstOrder(sessions: seq<SessionRow>, userId: int, a: nat, b: nat) returns (i: nat, j: nat)
    requires a < b < |sessions| && sessions[a].userId == userId && sessions[b].userId == userId
    ensures var rows := OwnSessionsNewestFirst(sessions, userId);
      i < j < |rows| && rows[i] == sessions[b] && rows[j] == sessions[a]
  {
    var init := sessions[..|sessions| - 1];
    var rows := OwnSessionsNewestFirst(sessions, userId);
    var rest := OwnSessionsNewestFirst(init, userId);
    if b == |sessions| - 1 {
      assert sessions[a] == init[a];
      assert sessions[a] in rest;
      var k :| 0 <= k < |rest| && rest[k] == sessions[a];
      assert rows == [sessions[b]] + rest;
      i, j := 0, k + 1;
    } else {
      assert init[a] == sessions[a] && init[b] == sessions[b];
      var i', j' := NewestFirstOrder(init, userId, a, b);
      if sessions[|sessions| - 1].userId == userId {
        assert rows == [sessions[|sessions| - 1]] + rest;
        i, j := i' + 1, j' + 1;
      } else {
        i, j := i', j';
      }
    }
  }

  // ---------------------------------------------------------------------------
  // Reading one session

  /** The seven numbers and the feedback of a score, as `get_session` reports them. */
  datatype ScoreView = ScoreView(
    termUnderstanding: real, descriptionBreadth: real, conciseness: real,
    objectionHandling: real, uspFraming: real, confidence: real, overall: real,
    detailedFeedback: DetailedFeedback)

  datatype AnswerView = AnswerView(
    question: string, answerSummary: string, termAccuracy: real, conciseness: real, framingQuality: real, feedback: string)

  datatype SessionDetail = SessionDetail(
    id: int, productName: string, personalityType: string, status: string, transcript: seq<TranscriptEntry>,
    createdAt: int, scores: Option<ScoreView>, answerScores: seq<AnswerView>)

  function ViewOfScore(s: ScoreRow): ScoreView
  {
    ScoreView(s.termUnderstanding, s.descriptionBreadth, s.conciseness, s.objectionHandling, s.uspFraming,
      s.confidence, s.overall, s.detailedFeedback)
  }

  function ViewOfAnswer(a: AnswerScoreRow): AnswerView
  {
    AnswerView(a.question, a.answerSummary, a.termAccuracy, a.conciseness, a.framingQuality, a.feedback)
  }

  /** The source's `get_session`. */
  function GetSession(
    products: seq<Product>, sessions: seq<SessionRow>, scores: seq<ScoreRow>, answerScores: seq<AnswerScoreRow>,
    userId: int, sessionId: int): (r: Result<SessionDetail>)
    ensures FindOwnedSession(sessions, sessionId, userId).None? <==> r == Err(HttpError(404, "Session not found"))
    ensures r.Ok? ==>
      var s := sessions[FindOwnedSession(sessions, sessionId, userId).value];
      var answers := AnswerScoresOf(answerScores, s.id);
      r.value.id == sessionId && s.userId == userId
      && r.value.transcript == s.transcript && r.value.status == s.status
      && r.value.personalityType == s.personalityType && r.value.createdAt == s.createdAt
      && r.value.productName == ProductName(products, s.productId)
      && (FindProduct(products, s.productId).None? ==> r.value.productName == "Unknown")
      && (r.value.scores.None? <==> FindScore(scores, s.id).None?)
      && (r.value.scores.Some? ==> r.value.scores.value == ViewOfScore(scores[FindScore(scores, s.id).value]))
      && |r.value.answerScores| == |answers|
      && forall i :: 0 <= i < |answers| ==> r.value.answerScores[i] == ViewOfAnswer(answers[i])
  {
    var found := FindOwnedSession(sessions, sessionId, userId);
    if found.None? then Err(HttpError(404, "Session not found"))
    else
      var s := sessions[found.value];
      var score := FindScore(scores, s.id);
      var answers := AnswerScoresOf(answerScores, s.id);
      Ok(SessionDetail(s.id, ProductName(products, s.productId), s.personalityType, s.status, s.transcript, s.createdAt,
        if score.Some? then Some(ViewOfScore(scores[score.value])) else None,
        seq(|answers|, i requires 0 <= i < |answers| => ViewOfAnswer(answers[i]))))
  }

  /** The answer scores reported for a session keep their creation order. */
  lemma {:induction false} AnswerScoresInOrder(rows: seq<AnswerScoreRow>, sessionId: int, a: nat, b: nat) returns (i: nat, j: nat)
    requires a < b < |rows| && rows[a].sessionId == sessionId && rows[b].sessionId == sessionId
    ensures var r := AnswerScoresOf(rows, sessionId);
      i < j < |r| && r[i] == rows[a] && r[j] == rows[b]
  {
    var init := rows[..|rows| - 1];
    var rest := AnswerScoresOf(init, sessionId);
    var r := AnswerScoresOf(rows, sessionId);
    if b == |rows| - 1 {
      assert init[a] == rows[a];
      assert rows[a] in rest;
      var k :| 0 <= k < |rest| && rest[k] == rows[a];
      assert r == rest + [rows[b]];
      i, j := k, |rest|;
    } else {
      assert init[a] == rows[a] && init[b] == rows[b];
      i, j := AnswerScoresInOrder(init, sessionId, a, b);
      if rows[|rows| - 1].sessionId == sessionId {
        assert r == rest + [rows[|rows| - 1]];
      }
    }
  }
}

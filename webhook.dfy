/**
 * The voice platform's webhook: a dispatch on the message type, the live
 * scoring tool calls, transcript fragments, call status updates and the
 * end-of-call report that stores the final score. Each handler looks the
 * session up by its voice-platform call id and updates the database in place.
 */
module Webhook {
  import opened Common
  import opened Store
  import opened Scoring

  /** The arguments of a `score_response` tool call; a missing key is `None`. */
  datatype ScoreArguments = ScoreArguments(
    question: Option<string>, answerSummary: Option<string>,
    termAccuracy: Option<real>, conciseness: Option<real>, framingQuality: Option<real>,
    feedback: Option<string>)

  /** One entry of `toolCallList`: the function name, its arguments and the call's id. */
  datatype ToolCall = ToolCall(name: Option<string>, arguments: ScoreArguments, id: Option<string>)

  /**
   * The fields of a webhook message that the handlers read. A missing
   * `type` or `artifact.transcript` is the empty string, a missing list is
   * empty, and the other missing keys are `None`.
   */
  datatype Message = Message(
    msgType: string, callId: Option<string>, role: Option<string>, status: Option<string>,
    toolCallList: seq<ToolCall>, transcript: string, messages: seq<TranscriptEntry>)

  datatype ToolResult = ToolResult(name: string, toolCallId: string, result: string)

  /** The webhook's answer: `{"status": "ok"}`, `{"results": [...]}`, or an error when a handler raised. */
  datatype Response = StatusOk | Results(results: seq<ToolResult>) | Failed(error: HttpError)

  /** The `json.dumps` text returned for a recorded score. */
  const ScoredResult := "{\"status\": \"scored\", \"message\": \"Score recorded. Continue the conversation.\"}"

  /** The `json.dumps` text returned for any other function name. */
  const UnknownToolResult := "{\"status\": \"unknown_tool\"}"

  const ScoreTool := "score_response"

  // ---------------------------------------------------------------------------
  // Tool calls

  function ToolResultFor(c: ToolCall): ToolResult
  {
    var name := GetOr(c.name, "");
    ToolResult(name, GetOr(c.id, ""), if name == ScoreTool then ScoredResult else UnknownToolResult)
  }

  function ToolResults(calls: seq<ToolCall>): seq<ToolResult>
  {
    seq(|calls|, i requires 0 <= i < |calls| => ToolResultFor(calls[i]))
  }

  /** The index of the session a message is about, when it names a call id that matches one. */
  function SessionOf(sessions: seq<SessionRow>, callId: Option<string>): (r: Option<nat>)
    ensures r.Some? ==> r.value < |sessions|
  {
    if Truthy(callId) then FindSessionByCallId(sessions, callId.value) else None
  }

  /** The id of the session with this call id, when the call id is given and matches one. */
  function SessionIdOf(sessions: seq<SessionRow>, callId: Option<string>): Option<int>
  {
    var k := SessionOf(sessions, callId);
    if k.Some? then Some(sessions[k.value].id) else None
  }

  /** The answer score a scoring call records for the session `target`, if there is one. */
  function AnswerScoreFor(target: Option<int>, args: ScoreArguments, now: int): Option<AnswerScoreRow>
  {
    if target.None? then None
    else
      Some(AnswerScoreRow(
        target.value, GetOr(args.question, ""), GetOr(args.answerSummary, ""),
        GetOr(args.termAccuracy, 0.0), GetOr(args.conciseness, 0.0), GetOr(args.framingQuality, 0.0),
        GetOr(args.feedback, ""), now))
  }

  function Recorded(target: Option<int>, c: ToolCall, now: int): seq<AnswerScoreRow>
  {
    if GetOr(c.name, "") != ScoreTool || target.None? then []
    else [AnswerScoreFor(target, c.arguments, now).value]
  }

  /** The answer scores a list of tool calls records, in call order. */
  function RecordedAnswers(target: Option<int>, calls: seq<ToolCall>, now: int): seq<AnswerScoreRow>
  {
    if calls == [] then []
    else RecordedAnswers(target, calls[..|calls| - 1], now) + Recorded(target, calls[|calls| - 1], now)
  }

  function ScoreCalls(calls: seq<ToolCall>): nat
  {
    if calls == [] then 0
    else ScoreCalls(calls[..|calls| - 1]) + (if GetOr(calls[|calls| - 1].name, "") == ScoreTool then 1 else 0)
  }

  /** The source's `save_answer_score`: at most one new answer-score row, nothing else changes. */
  method SaveAnswerScore(db: Database, callId: Option<string>, args: ScoreArguments, now: int)
    modifies db
    ensures db.products == old(db.products) && db.sessions == old(db.sessions) && db.scores == old(db.scores)
    ensures SessionIdOf(db.sessions, callId).None? ==> db.answerScores == old(db.answerScores)
    ensures SessionIdOf(db.sessions, callId).Some? ==>
      db.answerScores == old(db.answerScores) + [AnswerScoreFor(SessionIdOf(db.sessions, callId), args, now).value]
  {
    if !Truthy(callId) {
      return;
    }
    var k := FindSessionByCallId(db.sessions, callId.value);
    if k.None? {
      return;
    }
    var s := db.sessions[k.value];
    var row := AnswerScoreRow(
      s.id, GetOr(args.question, ""), GetOr(args.answerSummary, ""),
      GetOr(args.termAccuracy, 0.0), GetOr(args.conciseness, 0.0), GetOr(args.framingQuality, 0.0),
      GetOr(args.feedback, ""), now);
    db.answerScores := db.answerScores + [row];
  }

  /** One iteration of the tool-call loop: the call's result and what it records. */
  method HandleToolCall(db: Database, callId: Option<string>, c: ToolCall, now: int) returns (r: ToolResult)
    modifies db
    ensures r == ToolResultFor(c)
    ensures db.products == old(db.products) && db.sessions == old(db.sessions) && db.scores == old(db.scores)
    ensures db.answerScores == old(db.answerScores) + Recorded(SessionIdOf(db.sessions, callId), c, now)
  {
    var name := GetOr(c.name, "");
    var id := GetOr(c.id, "");
    if name == ScoreTool {
      SaveAnswerScore(db, callId, c.arguments, now);
      r := ToolResult(name, id, ScoredResult);
    } else {
      r := ToolResult(name, id, UnknownToolResult);
    }
  }

  /** The source's `handle_tool_calls`: one result per call, and the scores the scoring calls record. */
  method HandleToolCalls(db: Database, msg: Message, now: int) returns (results: seq<ToolResult>)
    modifies db
    ensures results == ToolResults(msg.toolCallList)
    ensures db.products == old(db.products) && db.sessions == old(db.sessions) && db.scores == old(db.scores)
    ensures db.answerScores == old(db.answerScores) + RecordedAnswers(SessionIdOf(old(db.sessions), msg.callId), msg.toolCallList, now)
  {
    var calls := msg.toolCallList;
    ghost var target := SessionIdOf(db.sessions, msg.callId);
    results := [];
    var i := 0;
    while i < |calls|
      invariant 0 <= i <= |calls|
      invariant results == ToolResults(calls[..i])
      invariant db.products == old(db.products) && db.sessions == old(db.sessions) && db.scores == old(db.scores)
      invariant db.answerScores == old(db.answerScores) + RecordedAnswers(target, calls[..i], now)
    {
      ToolCallsPrefix(target, calls, i, now);
      var r := HandleToolCall(db, msg.callId, calls[i], now);
      results := results + [r];
      i := i + 1;
    }
    assert calls[..|calls|] == calls;
  }

  /** One more call of the list adds its result and what it records. */
  lemma ToolCallsPrefix(target: Option<int>, calls: seq<ToolCall>, i: nat, now: int)
    requires i < |calls|
    ensures ToolResults(calls[..i + 1]) == ToolResults(calls[..i]) + [ToolResultFor(calls[i])]
    ensures RecordedAnswers(target, calls[..i + 1], now) == RecordedAnswers(target, calls[..i], now) + Recorded(target, calls[i], now)
  {
    assert calls[..i + 1][..i] == calls[..i];
  }

  /**
   * One result per call, in call order, with the name and id copied (empty
   * when missing); the result reads "scored" exactly for `score_response`.
   */
  lemma ToolResultsShape(calls: seq<ToolCall>)
    ensures |ToolResults(calls)| == |calls|
    ensures forall i :: 0 <= i < |calls| ==>
      var r := ToolResults(calls)[i];
      r.name == GetOr(calls[i].name, "") && r.toolCallId == GetOr(calls[i].id, "")
      && (r.result == ScoredResult <==> r.name == ScoreTool)
      && (r.result == UnknownToolResult <==> r.name != ScoreTool)
  {
    assert ScoredResult != UnknownToolResult by {
      assert |ScoredResult| != |UnknownToolResult|;
    }
  }

  /**
   * The scoring calls record one row each, all for the session with the
   * message's call id, when there is one; otherwise they record nothing.
   */
  lemma {:induction false} RecordedAnswersAre(target: Option<int>, calls: seq<ToolCall>, now: int)
    ensures |RecordedAnswers(target, calls, now)| == (if target.Some? then ScoreCalls(calls) else 0)
    ensures forall a :: a in RecordedAnswers(target, calls, now) ==> target.Some? && a.sessionId == target.value
  {
    if calls != [] {
      RecordedAnswersAre(target, calls[..|calls| - 1], now);
    }
  }

  /**
   * The scoring calls record for the first session whose call id is the
   * message's; without a call id, or when no session has it, nothing is recorded.
   */
  lemma SessionIdOfIsFirstMatch(sessions: seq<SessionRow>, callId: Option<string>)
    ensures SessionIdOf(sessions, callId).None? <==>
      !Truthy(callId) || forall j :: 0 <= j < |sessions| ==> sessions[j].vapiCallId != callId
    ensures SessionIdOf(sessions, callId).Some? ==>
      exists k :: 0 <= k < |sessions| && sessions[k].vapiCallId == callId && SessionIdOf(sessions, callId) == Some(sessions[k].id)
        && forall j :: 0 <= j < k ==> sessions[j].vapiCallId != callId
  {
    var k := SessionOf(sessions, callId);
    if k.Some? {
      assert sessions[k.value].vapiCallId == callId;
    }
  }

  // ---------------------------------------------------------------------------
  // Transcript fragments and status updates

  /** The entry a transcript message appends: its role (or "unknown") and its text. */
  function FragmentEntry(msg: Message): TranscriptEntry
  {
    TranscriptEntry(Some(GetOr(msg.role, "unknown")), Some(msg.transcript), None)
  }

  /** The sessions table after a transcript message. */
  function AfterTranscript(sessions: seq<SessionRow>, msg: Message): seq<SessionRow>
  {
    var k := SessionOf(sessions, msg.callId);
    if msg.transcript == "" || k.None? then sessions
    else
      var s := sessions[k.value];
      sessions[k.value := s.(transcript := s.transcript + [FragmentEntry(msg)])]
  }

  /** The source's `handle_transcript`. */
  method HandleTranscript(db: Database, msg: Message)
    requires db.Valid()
    modifies db
    ensures db.Valid()
    ensures db.products == old(db.products) && db.scores == old(db.scores) && db.answerScores == old(db.answerScores)
    ensures db.sessions == AfterTranscript(old(db.sessions), msg)
  {
    if !Truthy(msg.callId) || msg.transcript == "" {
      return;
    }
    var k := FindSessionByCallId(db.sessions, msg.callId.value);
    if k.Some? {
      var s := db.sessions[k.value];
      var current := s.transcript;
      current := current + [TranscriptEntry(Some(GetOr(msg.role, "unknown")), Some(msg.transcript), None)];
      db.sessions := db.sessions[k.value := s.(transcript := current)];
    }
  }

  /**
   * `handle_transcript` as the ORM runs it. The handler appends to the loaded
   * list in place and assigns the same list back, so the plain JSON column
   * sees no change and writes nothing. Only a session whose transcript was
   * empty gets a fresh list (from `or []`), which is written.
   */
  function AfterTranscriptAsWritten(sessions: seq<SessionRow>, msg: Message): (r: seq<SessionRow>)
    ensures var k := SessionOf(sessions, msg.callId);
      r != sessions <==> msg.transcript != "" && k.Some? && sessions[k.value].transcript == []
  {
    var k := SessionOf(sessions, msg.callId);
    if msg.transcript == "" || k.None? || sessions[k.value].transcript != [] then sessions
    else
      var s := sessions[k.value];
      assert sessions[k.value := s.(transcript := [FragmentEntry(msg)])][k.value] != s;
      sessions[k.value := s.(transcript := [FragmentEntry(msg)])]
  }

  /**
   * The second fragment of a call is lost as written, while `AfterTranscript`
   * appends it.
   */
  lemma SecondFragmentLost()
    ensures var first := TranscriptEntry(Some("user"), Some("Hello"), None);
      var s := SessionRow(1, 7, 1, "skeptical_buyer", Some("call-1"), [first], "active", 0);
      var msg := Message("transcript", Some("call-1"), Some("assistant"), None, [], "Hi there", []);
      AfterTranscriptAsWritten([s], msg) == [s]
      && AfterTranscript([s], msg)[0].transcript == [first, FragmentEntry(msg)]
  {
    var first := TranscriptEntry(Some("user"), Some("Hello"), None);
    var s := SessionRow(1, 7, 1, "skeptical_buyer", Some("call-1"), [first], "active", 0);
    assert FindSessionByCallId([s], "call-1") == Some(0) by {
      assert [s][0].vapiCallId == Some("call-1");
    }
  }

  /**
   * A transcript message with a call id of a session and a non-empty text
   * appends exactly one entry to that session's transcript and changes
   * nothing else; any other message changes nothing.
   */
  lemma TranscriptAppendsOne(sessions: seq<SessionRow>, msg: Message)
    ensures var after := AfterTranscript(sessions, msg);
      var k := SessionOf(sessions, msg.callId);
      |after| == |sessions|
      && (msg.transcript == "" || k.None? ==> after == sessions)
      && (msg.transcript != "" && k.Some? ==>
            (forall j :: 0 <= j < |sessions| && j != k.value ==> after[j] == sessions[j])
            && after[k.value].transcript == sessions[k.value].transcript + [FragmentEntry(msg)]
            && after[k.value] == sessions[k.value].(transcript := after[k.value].transcript))
  {
  }

  /** The status a reported call status leads to. */
  function NextStatus(current: string, reported: string): string
  {
    if reported == "in-progress" then "active"
    else if reported == "ended" then "completed"
    else current
  }

  /** The sessions table after a status update. */
  function AfterStatus(sessions: seq<SessionRow>, msg: Message): seq<SessionRow>
  {
    var k := SessionOf(sessions, msg.callId);
    if !Truthy(msg.status) || k.None? then sessions
    else
      var s := sessions[k.value];
      sessions[k.value := s.(status := NextStatus(s.status, msg.status.value))]
  }

  /** The source's `handle_status_update`. */
  method HandleStatusUpdate(db: Database, msg: Message)
    requires db.Valid()
    modifies db
    ensures db.Valid()
    ensures db.products == old(db.products) && db.scores == old(db.scores) && db.answerScores == old(db.answerScores)
    ensures db.sessions == AfterStatus(old(db.sessions), msg)
  {
    if !Truthy(msg.callId) || !Truthy(msg.status) {
      return;
    }
    var k := FindSessionByCallId(db.sessions, msg.callId.value);
    if k.Some? {
      var s := db.sessions[k.value];
      if msg.status.value == "in-progress" {
        db.sessions := db.sessions[k.value := s.(status := "active")];
      } else if msg.status.value == "ended" {
        db.sessions := db.sessions[k.value := s.(status := "completed")];
      }
    }
  }

  /**
   * "in-progress" makes a session active and "ended" completes it; any other
   * reported status leaves it as it was, and applying an update twice is
   * the same as applying it once.
   */
  lemma StatusMapping(current: string, reported: string)
    ensures reported == "in-progress" ==> NextStatus(current, reported) == "active"
    ensures reported == "ended" ==> NextStatus(current, reported) == "completed"
    ensures reported != "in-progress" && reported != "ended" ==> NextStatus(current, reported) == current
    ensures NextStatus(NextStatus(current, reported), reported) == NextStatus(current, reported)
    ensures current in {"pending", "active", "completed"} ==> NextStatus(current, reported) in {"pending", "active", "completed"}
  {
  }

  // ---------------------------------------------------------------------------
  // End-of-call report

  /** The score row stored from the scoring model's answer; a missing field is 0 or empty. */
  function ScoreFromResult(sessionId: int, r: ScoringResult, now: int): (s: ScoreRow)
    ensures s.sessionId == sessionId
  {
    ScoreRow(
      sessionId,
      GetOr(r.termUnderstanding, 0.0), GetOr(r.descriptionBreadth, 0.0), GetOr(r.conciseness, 0.0),
      GetOr(r.objectionHandling, 0.0), GetOr(r.uspFraming, 0.0), GetOr(r.confidence, 0.0), GetOr(r.overall, 0.0),
      DetailedFeedback(GetOr(r.perAnswerFeedback, []), GetOr(r.strengths, []), GetOr(r.improvements, []), GetOr(r.ramblingInstances, 0)),
      now)
  }

  /** The sessions table after an end-of-call report. */
  function AfterEndOfCallSessions(sessions: seq<SessionRow>, msg: Message): seq<SessionRow>
  {
    var k := SessionOf(sessions, msg.callId);
    if k.None? then sessions
    else
      var s := sessions[k.value];
      var transcript := if msg.messages != [] then msg.messages else s.transcript;
      sessions[k.value := s.(transcript := transcript, status := "completed")]
  }

  /**
   * Whether an end-of-call report makes the handler raise: the scoring call
   * is made for a found session whose product exists, and it fails.
   */
  predicate EndOfCallFails(sessions: seq<SessionRow>, products: seq<Product>, msg: Message, scoring: Option<ScoringResult>)
  {
    var k := SessionOf(sessions, msg.callId);
    k.Some? && FindProduct(products, sessions[k.value].productId).Some? && scoring.None?
  }

  /**
   * The scores table after an end-of-call report: one new score for the
   * session, unless its product is gone, the scoring call failed, or it
   * already has a score.
   */
  function AfterEndOfCallScores(sessions: seq<SessionRow>, products: seq<Product>, scores: seq<ScoreRow>,
                                msg: Message, scoring: Option<ScoringResult>, now: int): seq<ScoreRow>
  {
    var k := SessionOf(sessions, msg.callId);
    if k.None? then scores
    else
      var s := sessions[k.value];
      if FindProduct(products, s.productId).None? || scoring.None? || FindScore(scores, s.id).Some? then scores
      else scores + [ScoreFromResult(s.id, scoring.value, now)]
  }

  /**
   * The source's `handle_end_of_call`. The scoring model's answer for the
   * report's messages is the parameter `scoring`, `None` when the call to the
   * model or the parsing of its answer raises; `failed` says the handler
   * raised, after the session update was already committed.
   */
  method HandleEndOfCall(db: Database, msg: Message, scoring: Option<ScoringResult>, now: int) returns (failed: bool)
    requires db.Valid()
    modifies db
    ensures db.Valid()
    ensures failed <==> EndOfCallFails(old(db.sessions), old(db.products), msg, scoring)
    ensures db.products == old(db.products) && db.answerScores == old(db.answerScores)
    ensures db.sessions == AfterEndOfCallSessions(old(db.sessions), msg)
    ensures db.scores == AfterEndOfCallScores(old(db.sessions), old(db.products), old(db.scores), msg, scoring, now)
  {
    failed := false;
    if !Truthy(msg.callId) {
      return;
    }
    var k := FindSessionByCallId(db.sessions, msg.callId.value);
    if k.None? {
      return;
    }
    var s := db.sessions[k.value];
    if msg.messages != [] {
      s := s.(transcript := msg.messages);
    }
    s := s.(status := "completed");
    db.sessions := db.sessions[k.value := s];
    var p := FindProduct(db.products, s.productId);
    if p.None? {
      return;
    }
    if scoring.None? {
      return true;
    }
    var existing := FindScore(db.scores, s.id);
    if existing.Some? {
      return;
    }
    NewScoreKeepsOne(db.scores, ScoreFromResult(s.id, scoring.value, now));
    db.scores := db.scores + [ScoreFromResult(s.id, scoring.value, now)];
  }

  /**
   * An end-of-call report for a known call completes that session and
   * replaces its transcript only with a non-empty message list; no other
   * row and no other field changes.
   */
  lemma EndOfCallSessionUpdate(sessions: seq<SessionRow>, msg: Message)
    ensures var after := AfterEndOfCallSessions(sessions, msg);
      var k := SessionOf(sessions, msg.callId);
      && |after| == |sessions|
      && (k.None? ==> after == sessions)
      && (k.Some? ==>
            && after[k.value].status == "completed"
            && after[k.value].transcript == (if msg.messages != [] then msg.messages else sessions[k.value].transcript)
            && after[k.value] == sessions[k.value].(transcript := after[k.value].transcript, status := "completed")
            && forall j :: 0 <= j < |sessions| && j != k.value ==> after[j] == sessions[j])
  {
  }

  /**
   * A report stores one score, for the reported session, exactly when its
   * product exists, the scoring call answered and the session has no score yet.
   */
  lemma EndOfCallScoreRule(sessions: seq<SessionRow>, products: seq<Product>, scores: seq<ScoreRow>,
                           msg: Message, scoring: Option<ScoringResult>, now: int)
    ensures var after := AfterEndOfCallScores(sessions, products, scores, msg, scoring, now);
      var k := SessionOf(sessions, msg.callId);
      if k.Some? && FindProduct(products, sessions[k.value].productId).Some? && scoring.Some?
         && FindScore(scores, sessions[k.value].id).None?
      then after == scores + [ScoreFromResult(sessions[k.value].id, scoring.value, now)]
           && after[|scores|].sessionId == sessions[k.value].id
      else after == scores
  {
  }

  /** Adding a score for a session without one keeps one score per session. */
  lemma NewScoreKeepsOne(scores: seq<ScoreRow>, s: ScoreRow)
    requires OneScorePerSession(scores) && FindScore(scores, s.sessionId).None?
    ensures OneScorePerSession(scores + [s])
  {
  }

  /** An end-of-call report keeps the unique constraint on `scores.session_id`. */
  lemma EndOfCallKeepsOneScore(sessions: seq<SessionRow>, products: seq<Product>, scores: seq<ScoreRow>,
                               msg: Message, scoring: Option<ScoringResult>, now: int)
    requires OneScorePerSession(scores)
    ensures OneScorePerSession(AfterEndOfCallScores(sessions, products, scores, msg, scoring, now))
  {
    var k := SessionOf(sessions, msg.callId);
    if k.Some? {
      var s := sessions[k.value];
      if FindProduct(products, s.productId).Some? && scoring.Some? && FindScore(scores, s.id).None? {
        NewScoreKeepsOne(scores, ScoreFromResult(s.id, scoring.value, now));
      }
    }
  }

  /** Looking a call id up again after the end-of-call update finds the same session. */
  lemma SameSessionAfterEndOfCall(sessions: seq<SessionRow>, msg: Message)
    ensures SessionOf(AfterEndOfCallSessions(sessions, msg), msg.callId) == SessionOf(sessions, msg.callId)
  {
    var k := SessionOf(sessions, msg.callId);
    var after := AfterEndOfCallSessions(sessions, msg);
    if k.Some? {
      assert forall j :: 0 <= j < |sessions| ==> after[j].vapiCallId == sessions[j].vapiCallId;
      FirstIndexSame(sessions, after, msg.callId.value);
    }
  }

  /** A call-id lookup only depends on the call ids of the sessions. */
  lemma FirstIndexSame(a: seq<SessionRow>, b: seq<SessionRow>, callId: string)
    requires |a| == |b| && forall j :: 0 <= j < |a| ==> a[j].vapiCallId == b[j].vapiCallId
    ensures FindSessionByCallId(a, callId) == FindSessionByCallId(b, callId)
  {
  }

  /**
   * A repeated end-of-call report for the same call stores no second score:
   * once the first report's scoring call answered, the scores after the
   * second report are those after the first. When that scoring call failed,
   * the first report stored nothing, so a repeated report is the first to
   * store a score.
   */
  lemma EndOfCallIdempotent(sessions: seq<SessionRow>, products: seq<Product>, scores: seq<ScoreRow>,
                            msg: Message, scoring: Option<ScoringResult>, scoring': Option<ScoringResult>, now: int, now': int)
    ensures var sessions1 := AfterEndOfCallSessions(sessions, msg);
      var scores1 := AfterEndOfCallScores(sessions, products, scores, msg, scoring, now);
      scoring.Some? ==> AfterEndOfCallScores(sessions1, products, scores1, msg, scoring', now') == scores1
    ensures scoring.None? ==> AfterEndOfCallScores(sessions, products, scores, msg, scoring, now) == scores
  {
    var sessions1 := AfterEndOfCallSessions(sessions, msg);
    var scores1 := AfterEndOfCallScores(sessions, products, scores, msg, scoring, now);
    SameSessionAfterEndOfCall(sessions, msg);
    var k := SessionOf(sessions, msg.callId);
    if k.Some? {
      var s := sessions[k.value];
      assert sessions1[k.value].id == s.id && sessions1[k.value].productId == s.productId;
      if FindProduct(products, s.productId).Some? && scoring.Some? && FindScore(scores, s.id).None? {
        var row := ScoreFromResult(s.id, scoring.value, now);
        assert scores1 == scores + [row];
        assert scores1[|scores|].sessionId == s.id;
        assert FindScore(scores1, s.id).Some?;
      }
    }
  }

  /**
   * When the scoring call fails, the session is already completed but gets
   * no score: its scores stay as they were.
   */
  lemma ScoringFailureLeavesUnscored(sessions: seq<SessionRow>, products: seq<Product>, scores: seq<ScoreRow>,
                                     msg: Message, now: int)
    requires EndOfCallFails(sessions, products, msg, None)
    ensures var k := SessionOf(sessions, msg.callId).value;
      AfterEndOfCallSessions(sessions, msg)[k].status == "completed"
      && AfterEndOfCallScores(sessions, products, scores, msg, None, now) == scores
  {
  }

  // ---------------------------------------------------------------------------
  // Dispatch

  /** The source's `vapi_webhook`: route on the message type; unknown types change nothing. */
  method VapiWebhook(db: Database, msg: Message, scoring: Option<ScoringResult>, now: int) returns (resp: Response)
    requires db.Valid()
    modifies db
    ensures db.Valid()
    ensures msg.msgType == "tool-calls" ==> resp == Results(ToolResults(msg.toolCallList))
    ensures msg.msgType == "end-of-call-report" && EndOfCallFails(old(db.sessions), old(db.products), msg, scoring) ==>
      resp == Failed(InternalServerError)
    ensures msg.msgType != "tool-calls"
            && !(msg.msgType == "end-of-call-report" && EndOfCallFails(old(db.sessions), old(db.products), msg, scoring)) ==>
      resp == StatusOk
    ensures msg.msgType == "end-of-call-report" ==>
      db.sessions == AfterEndOfCallSessions(old(db.sessions), msg)
      && db.scores == AfterEndOfCallScores(old(db.sessions), old(db.products), old(db.scores), msg, scoring, now)
    ensures msg.msgType == "transcript" ==> db.sessions == AfterTranscript(old(db.sessions), msg)
    ensures msg.msgType == "status-update" ==> db.sessions == AfterStatus(old(db.sessions), msg)
    ensures msg.msgType != "tool-calls" ==> db.answerScores == old(db.answerScores)
    ensures msg.msgType != "tool-calls" && msg.msgType != "end-of-call-report" ==> db.scores == old(db.scores)
    ensures db.products == old(db.products)
    ensures msg.msgType != "tool-calls" && msg.msgType != "end-of-call-report"
            && msg.msgType != "transcript" && msg.msgType != "status-update" ==>
      db.sessions == old(db.sessions) && db.scores == old(db.scores) && db.answerScores == old(db.answerScores)
  {
    if msg.msgType == "tool-calls" {
      var results := HandleToolCalls(db, msg, now);
      resp := Results(results);
    } else if msg.msgType == "end-of-call-report" {
      var failed := HandleEndOfCall(db, msg, scoring, now);
      resp := if failed then Failed(InternalServerError) else StatusOk;
    } else if msg.msgType == "transcript" {
      HandleTranscript(db, msg);
      resp := StatusOk;
    } else if msg.msgType == "status-update" {
      HandleStatusUpdate(db, msg);
      resp := StatusOk;
    } else {
      resp := StatusOk;
    }
  }
}

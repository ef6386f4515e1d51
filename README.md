# Calling Coach, modelled in Dafny

Calling Coach is a sales-practice tool. A salesperson uploads a product
document, from which USPs, key terms and likely objections are extracted.
They choose one of six buyer personalities and hold a voice call with an AI
prospect built from both. The live call scores each answer through tool
calls. The end-of-call report has the whole call scored on six dimensions,
and a dashboard aggregates the scores over all completed sessions.

This project models the core of that system: the FastAPI routers, the
personality and scoring services, the React pages, and the client's request
helper. Each is stated in Dafny and its behaviour proved.

- `Common`: optional values, HTTP errors, a JSON value type, decimal rendering, ASCII case, `Join` and `Split`, and JavaScript `Math.round`.
- `Store`: the four database tables (products, sessions, scores, answer scores) as sequences in insertion order, inside a `Database` class.
  - SQL `.first()` is the first matching row.
  - `ORDER BY created_at DESC` is the reverse of insertion order.
  - A new row's id is one more than the largest id so far.
  - `Database.Valid()` says that ids are unique and that a session has at most one score (`session_id` is unique in the scores table).
- `Products`, `Sessions`, `Scores`, `Webhook`: one module per router. Every route that changes the database is a method on the `Database` with a `modifies` clause. It is proved to leave the tables exactly as a pure function of the old tables says. The lemmas are about those functions.
- `Personality`, `Scoring`: the personality table, the system-prompt builder, and the transcript flattening done before post-call scoring.
- `Scorecard`, `Dashboard`, `SessionSetup`, `LiveCall`: the four pages.
  - What a page renders is a function of its state.
  - Its handlers are methods on a class holding the page's `useState` fields.
  - An `async` handler is split at its `await` into the click and the settling of the request, with the request's outcome as a parameter.
  - What a page asks of the backend, the router or the voice transport is appended to a command log.
- `Api`: the client's `request` helper (headers, 401 handling, error messages), the endpoint table and `login`, with the stored token as a field of a `Client` class.

Two behaviours of the code that a reader might not expect are modelled as the code has them:

- The live-call page's `error` handler leaves the call clock running (`frontend/src/pages/LiveCall.jsx:51-54`); only `call-end` and unmounting clear the interval.
- The scorecard header title-cases the personality key: "analytical_decision_maker" is shown as "Analytical Decision Maker", while the backend label is "Analytical Decision-Maker". The model shows the key title-cased, as the code does.

## Model

| member | source | states |
|---|---|---|
| Common.SplitJoin | backend/routers/products.py:18 | Splitting pieces joined by a separator that none of them contains gives the pieces back. |
| Common.JsRound | frontend/src/pages/Scorecard.jsx:26 | The rounded integer lies within half a unit of the value, halves rounding up. |
| Store.FirstIndex | backend/routers/sessions.py:46 | `.first()`: the index found matches the filter and no earlier row does; no index means no row matches. |
| Store.AnswerScoresOf | backend/routers/sessions.py:199 | The answer scores of a session are exactly the rows with that session id. |
| Store.NextProductId | backend/models.py:23 | A new product id is at least 1 and larger than every existing id. |
| Store.NextSessionId | backend/models.py:40 | A new session id is at least 1 and larger than every existing id. |
| Products.PathFor | backend/routers/products.py:16 | The PDF reader is used exactly when the lower-cased file name ends in ".pdf". |
| Products.PageTexts | backend/routers/products.py:18 | One text per page, a page without text counting as empty. |
| Products.ParseUpload | backend/routers/products.py:15-19 | Reading fails exactly when a PDF cannot be read; any other file gives its UTF-8 decoding. |
| Products.ParseUploadPages | backend/routers/products.py:15-19 | A PDF without pages gives the empty text. When no page text contains a newline, splitting a PDF's text on newlines gives back its page texts. |
| Products.PdfCaseInsensitive | backend/routers/products.py:16 | ".PDF", ".Pdf" and ".pdf" endings all take the PDF path. |
| Products.StripStart | backend/routers/products.py:34 | Only leading whitespace is removed, and the result does not start with whitespace. |
| Products.StripEnd | backend/routers/products.py:34 | Only trailing whitespace is removed, and the result does not end with whitespace. |
| Products.Strip | backend/routers/products.py:34 | `str.strip()` leaves no whitespace at either end. |
| Products.StripKeepsNonSpace | backend/routers/products.py:34 | Stripping keeps every non-whitespace character, so the stripped length is at least the non-whitespace count. |
| Products.UploadError | backend/routers/products.py:30-37 | The checks run in the source's order. Over 10 MB gives 400 "File too large (max 10MB)". Then a PDF the reader cannot read gives 500. Then under 50 stripped characters gives 400 "Document too short to extract USPs from". Then a failing extractor gives 500. There is no error exactly when all four pass. |
| Products.UploadLimits | backend/routers/products.py:30-31 | Exactly 10 MiB is accepted and one byte more is refused, given enough text. |
| Products.NewProduct | backend/routers/products.py:39-47 | The new product has a fresh id, the caller as owner, and the extracted lists, with a missing key giving an empty list or object. |
| Products.SummaryOfUpload | backend/routers/products.py:51-57 | The upload answer reports the product's id, name and the sizes of its three lists. |
| Products.UploadProduct | backend/routers/products.py:22-57 | An error, including a failing PDF reader or extractor, leaves the products table unchanged. Success appends exactly the new product, changes no other table and keeps the database valid. |
| Products.OwnProductsNewestFirst | backend/routers/products.py:65 | The listing holds exactly the caller's products. |
| Products.ListProducts | backend/routers/products.py:60-75 | One summary per owned product, in listing order, with its id, name, USP and term counts, and creation time. |
| Products.ListNewestFirst | backend/routers/products.py:65 | Of two owned products, the later one is listed first. |
| Products.GetProduct | backend/routers/products.py:78-95 | 404 "Product not found" exactly when the caller owns no product with that id. Otherwise the detail's id, name, USPs, key terms, objections, client frames and creation time are those of the first such product. |
| Products.RemoveAt | backend/routers/products.py:107 | Removing a row keeps the others in order. |
| Products.DeleteProduct | backend/routers/products.py:98-109 | 404 "Product not found" when the caller does not own the product, with nothing changed; otherwise exactly that product's row is removed. |
| Products.DeleteAsWritten | backend/routers/products.py:104-108 | As the ORM runs the delete: 404 when the caller does not own the product; otherwise a 500 exactly when some session refers to the product; success only when none does. |
| Products.DeleteAfterPracticeFails | backend/routers/products.py:104-108 | A product with one session fails to delete as written, while the corrected delete removes it. |
| Products.DeleteRemovesOnlyIt | backend/routers/products.py:104-108 | After a delete, ids stay unique, no row has the deleted id, and every other product is still there. |
| Sessions.RStrip | backend/routers/sessions.py:23 | `rstrip("/")` removes exactly the trailing slashes. |
| Sessions.WebhookBaseUrl | backend/routers/sessions.py:20-27 | A non-empty `WEBHOOK_BASE_URL` wins (trailing slashes removed); otherwise `https://` plus a non-empty Railway domain; otherwise the placeholder URL. |
| Sessions.ServerUrlShape | backend/routers/sessions.py:122 | The server URL is the base URL without trailing slashes followed by "/webhook/vapi". |
| Sessions.CreateSessionError | backend/routers/sessions.py:46-51 | 404 when the caller owns no such product; otherwise 400 with the list of keys for an unknown personality; no error exactly when both are valid. |
| Sessions.NewSession | backend/routers/sessions.py:53-61 | A new session has a fresh id, the caller, product and personality, status "pending", no call id and an empty transcript. |
| Sessions.CreatedSessionShape | backend/routers/sessions.py:63-139 | The created session's id is in the answer and the call metadata. The call has the personality's stop-speaking plan, the webhook server URL, and the system prompt built from the product's lists. The personality echo has its key, label and description. |
| Sessions.CreateSession | backend/routers/sessions.py:40-139 | On an error the sessions table is unchanged; on success exactly the new session is appended; the answer is the created-session result; other tables are unchanged. |
| Sessions.WithCallId | backend/routers/sessions.py:156-157 | Only the chosen row changes: it gets the call id and status "active". |
| Sessions.UpdateCallId | backend/routers/sessions.py:146-159 | 404 "Session not found" with nothing changed when the caller owns no such session; otherwise "updated" and only that session is changed. |
| Sessions.CallIdFindsSession | backend/routers/sessions.py:156-157 | Once a call id is recorded, the webhook's lookup by call id finds this session, or an earlier one with the same call id. |
| Sessions.OwnSessionsNewestFirst | backend/routers/sessions.py:167-172 | The list holds exactly the caller's sessions. |
| Sessions.ProductName | backend/routers/sessions.py:179 | The product's name, or "Unknown" when the product is gone. |
| Sessions.SummaryOf | backend/routers/sessions.py:175-184 | A list entry carries the session's id, personality, status and creation time. Its product name is the product's name, or "Unknown" when the product is gone. Its overall score is present exactly when the session has a score, and is that score's overall. |
| Sessions.ListSessions | backend/routers/sessions.py:162-185 | The answer is one summary per own session, newest first. |
| Sessions.ListingIsOwnSessions | backend/routers/sessions.py:167-185 | Every entry is one of the caller's sessions, and every session of the caller has its summary in the list. |
| Sessions.NewestFirstOrder | backend/routers/sessions.py:170 | Of two sessions of the caller, the later one is listed first. |
| Sessions.GetSession | backend/routers/sessions.py:188-230 | 404 "Session not found" exactly when the caller owns no such session. Otherwise the detail has the session's transcript, status, personality and creation time. Its product name is the product's, or "Unknown" when the product is gone. It has the session's score if any, and its answer scores in order. |
| Sessions.AnswerScoresInOrder | backend/routers/sessions.py:199 | Answer scores are returned in the order they were recorded. |
| Scores.DimensionsDistinct | backend/routers/scores.py:35-38 | The seven dimension names are distinct. |
| Scores.Round1Close | backend/routers/scores.py:62 | `round(x, 1)` is within 0.05 of `x`. |
| Scores.Points | backend/routers/scores.py:55-60 | One trend point per row, made from that row. |
| Scores.ReverseAt | backend/routers/scores.py:76 | Element k of the reversed list is element n-1-k of the original. |
| Scores.FirstMax | backend/routers/scores.py:65 | Python `max(..., key=...)`: a dimension with the largest average, the first such in dimension order. |
| Scores.FirstMin | backend/routers/scores.py:66 | Python `min(..., key=...)`: a dimension with the smallest average, the first such in dimension order. |
| Scores.DashboardRows | backend/routers/scores.py:17-23 | Every dashboard row is a completed session of the caller that has a score, joined with that score. |
| Scores.JoinedRow | backend/routers/scores.py:18-20 | A session gives one row exactly when it is the caller's, completed and scored, and that row is about it. |
| Scores.DashboardRowsIndexOf | backend/routers/scores.py:17-23 | Every qualifying session has a row about it. |
| Scores.DashboardRowsSuffix | backend/routers/scores.py:21 | The rows of the sessions created before any point are the tail of all the rows. |
| Scores.NewestRowFirst | backend/routers/scores.py:21 | When the newest session qualifies, its row is first, ahead of every older qualifying session's. |
| Scores.DashboardRowsNewestFirst | backend/routers/scores.py:17-23 | Of two qualifying sessions, the later-created one's row comes first. |
| Scores.DashboardRowsOnePerSession | backend/routers/scores.py:17-23 | With unique session ids, no two rows are about the same session. |
| Scores.DashboardRowsComplete | backend/routers/scores.py:17-23 | Every completed session of the caller that has a score is a dashboard row, joined with that score. |
| Scores.GetDashboard | backend/routers/scores.py:12-80 | The route returns the aggregate of the caller's completed, scored sessions, newest first. |
| Scores.TotalSnoc | backend/routers/scores.py:46-47 | A dimension's total grows by the new row's value. |
| Scores.AccumulateRows | backend/routers/scores.py:45-60 | After the loop, totals hold every dimension's sum; the per-personality counts and overall totals are exact; and the trend has one point per row. |
| Scores.AddScore | backend/routers/scores.py:46-47 | Adding a row to the totals adds its value to every dimension. |
| Scores.Tally | backend/routers/scores.py:49-53 | A row adds one to its personality's count and its overall to that personality's total, creating the entry when new. |
| Scores.AddAverages | backend/routers/scores.py:68-71 | Each personality gets the rounded average of its overall scores; nothing else changes. |
| Scores.AggregateRows | backend/routers/scores.py:25-80 | The imperative aggregation equals the aggregate function. |
| Scores.EmptyInput | backend/routers/scores.py:25-33 | No sessions gives total 0, no averages, an empty trend, no personalities and no strongest or weakest dimension. |
| Scores.TrendIsChronological | backend/routers/scores.py:55-76 | The trend has one point per session, oldest first. |
| Scores.CountPositive | backend/routers/scores.py:50-52 | A personality has a positive count exactly when one of its sessions is present. |
| Scores.AbsentTallies | backend/routers/scores.py:50-53 | An absent personality has count 0 and overall total 0. |
| Scores.CountsAddUp | backend/routers/scores.py:41-53 | The per-personality counts add up to the number of sessions. |
| Scores.ByPersonalityIsExact | backend/routers/scores.py:49-71 | A personality appears exactly when it has sessions; its count, total and rounded average are exact. |
| Scores.TotalBounds | backend/routers/scores.py:46-47 | A dimension's total lies between n times its smallest and n times its largest value. |
| Scores.AverageBetween | backend/routers/scores.py:62 | The exact average lies between the smallest and the largest value. |
| Scores.AveragesBounded | backend/routers/scores.py:62 | A reported average lies between the smallest and largest value, widened by the 0.05 of rounding. |
| Personality.Phrases | backend/services/personality.py:13-17 | Each personality has its own number of redirect phrases. |
| Personality.Entry | backend/services/personality.py:1-111 | Each entry carries its personality's label, description, prompt section, threshold, phrases and stop-speaking plan. |
| Personality.KindOf | backend/services/personality.py:114-115 | A key is recognised exactly when it is one of the six keys, and names the personality it is the key of. |
| Personality.KeysInOrder | backend/services/personality.py:1-111 | There are six distinct keys in table order. |
| Personality.KeyNamesKind | backend/services/personality.py:114-115 | Every personality's key maps back to it. |
| Personality.EntryShape | backend/services/personality.py:12-18 | Every threshold is positive and every personality has at least three redirect phrases. |
| Personality.GetPersonality | backend/services/personality.py:114-115 | `.get` gives the entry exactly for the six keys and nothing otherwise. |
| Personality.AllPersonalities | backend/services/personality.py:118-122 | One (key, label, description) per personality in table order. |
| Personality.ListingMatchesLookup | backend/services/personality.py:118-122 | The listing's label and description agree with the lookup by key. |
| Personality.BuildSystemPrompt | backend/services/personality.py:125-171 | The loops build the prompt the prompt function defines. |
| Personality.UspsText | backend/services/personality.py:128-130 | The USP loop yields the concatenation of one line per USP. |
| Personality.TermsText | backend/services/personality.py:132-134 | The term loop yields the concatenation of one line per term. |
| Personality.ObjectionsText | backend/services/personality.py:136-138 | The objection loop yields the concatenation of one line per objection. |
| Personality.PromptEmbedsPersonality | backend/services/personality.py:143-163 | The prompt starts with the opening and the personality's section, and states its word threshold. |
| Personality.KnownPersonalityPrompt | backend/services/personality.py:125-171 | For any known key the prompt exists and embeds that personality's section and threshold. |
| Personality.UspBlockInOrder | backend/services/personality.py:128-130 | The line of the k-th USP sits right after the lines of the USPs before it. |
| Personality.LineDefaults | backend/services/personality.py:130-138 | Missing fields default to "USP" for a title and to the empty string otherwise. |
| Personality.RedirectBlockShape | backend/services/personality.py:141 | The phrase block ends with the last phrase in quotes. |
| Scoring.FlattenTranscript | backend/services/scoring.py:50-55 | The loop yields the transcript text the function defines. |
| Scoring.TranscriptIsLines | backend/services/scoring.py:52-55 | The transcript text is one "ROLE: content" line per message, in order. |
| Scoring.OneLinePerEntry | backend/services/scoring.py:52-55 | Messages without newlines give exactly one newline per message. |
| Scoring.MissingRole | backend/services/scoring.py:53-55 | A missing role is written "UNKNOWN"; missing content falls back to `message`, then to the empty string. |
| Webhook.SessionOf | backend/routers/webhook.py:99 | A session found by call id is a row of the table. |
| Webhook.SaveAnswerScore | backend/routers/webhook.py:65-88 | Without a call id or a matching session nothing changes; otherwise exactly one answer score for that session is appended. |
| Webhook.HandleToolCall | backend/routers/webhook.py:42-60 | One tool call gives its result entry and records an answer only for `score_response`. |
| Webhook.HandleToolCalls | backend/routers/webhook.py:37-62 | One result per tool call, in order; the answers appended are those of the `score_response` calls; other tables are unchanged. |
| Webhook.ToolResultsShape | backend/routers/webhook.py:48-60 | Each result echoes the call's name and id. It says "scored" exactly for `score_response` and "unknown_tool" exactly otherwise. |
| Webhook.RecordedAnswersAre | backend/routers/webhook.py:41-49 | As many answers as `score_response` calls are recorded when the session is found, none otherwise, all for that session. |
| Webhook.SessionIdOfIsFirstMatch | backend/routers/webhook.py:66-74 | No session is found exactly when the call id is missing or empty or matches no row; otherwise it is the first matching row's id. |
| Webhook.HandleTranscript | backend/routers/webhook.py:91-106 | The sessions table becomes the transcript-append function of the old one; other tables are unchanged. |
| Webhook.AfterTranscriptAsWritten | backend/routers/webhook.py:99-104 | As the ORM runs the handler, the sessions table changes exactly when the text is non-empty, the call's session is found and its transcript was empty. |
| Webhook.SecondFragmentLost | backend/routers/webhook.py:99-104 | A second fragment for a session is not stored as written, while the corrected handler appends it. |
| Webhook.TranscriptAppendsOne | backend/routers/webhook.py:94-103 | An empty fragment or an unknown call changes nothing; otherwise only the matched session changes, by one transcript entry at the end. |
| Webhook.HandleStatusUpdate | backend/routers/webhook.py:109-125 | The sessions table becomes the status-update function of the old one; other tables are unchanged. |
| Webhook.StatusMapping | backend/routers/webhook.py:119-122 | "in-progress" gives "active", "ended" gives "completed", anything else keeps the status; the update is idempotent and keeps the three known statuses. |
| Webhook.ScoreFromResult | backend/routers/webhook.py:160-175 | The stored score belongs to the session the report is about. |
| Webhook.HandleEndOfCall | backend/routers/webhook.py:128-179 | The handler raises exactly when the session is found, its product exists and the scoring call fails. The sessions and scores tables become the end-of-call functions of the old tables; products and answer scores are unchanged; the database stays valid. |
| Webhook.EndOfCallSessionUpdate | backend/routers/webhook.py:139-143 | Only the matched session changes. It becomes "completed", and its transcript is replaced by the report's messages only when there are some. |
| Webhook.EndOfCallScoreRule | backend/routers/webhook.py:145-177 | A score is appended exactly when the session is found, its product exists, the scoring call answers and the session has no score yet; otherwise the scores are unchanged. |
| Webhook.NewScoreKeepsOne | backend/models.py:59 | Appending a score for a session without one keeps one score per session. |
| Webhook.EndOfCallKeepsOneScore | backend/routers/webhook.py:156-158 | The end-of-call report never gives a session a second score. |
| Webhook.SameSessionAfterEndOfCall | backend/routers/webhook.py:135-143 | Updating a session does not change which session the call id finds. |
| Webhook.EndOfCallIdempotent | backend/routers/webhook.py:154-158 | Once a report's scoring call has answered, a repeated report, with any scoring answer, leaves the scores as the first report left them. A report whose scoring call fails stores nothing. |
| Webhook.ScoringFailureLeavesUnscored | backend/routers/webhook.py:139-154 | When the scoring call fails, the session is already completed and the scores are unchanged. |
| Webhook.VapiWebhook | backend/routers/webhook.py:16-34 | The dispatch runs the handler of the message type. Tool calls get their results; every other type gets `{"status": "ok"}`. An unknown type changes nothing, and products never change. |
| Scorecard.BandOf | frontend/src/pages/Scorecard.jsx:20-23 | 80 and above is green, 60 to 80 amber, 40 to 60 orange, below 40 red; each band holds exactly its interval. |
| Scorecard.BandMonotone | frontend/src/pages/Scorecard.jsx:20-23 | A higher score never gets a worse band. |
| Scorecard.BadgeColour | frontend/src/pages/Scorecard.jsx:19-23 | The badge's if-chain gives the badge class of the score's band. |
| Scorecard.BarColour | frontend/src/pages/Scorecard.jsx:121-124 | The bar's if-chain gives the bar class of the value's band. |
| Scorecard.ColoursDistinguishBands | frontend/src/pages/Scorecard.jsx:20-23 | Different bands get different badge and bar classes. |
| Scorecard.ScoreBadge | frontend/src/pages/Scorecard.jsx:19-29 | The badge shows the score rounded, in its band's colour. |
| Scorecard.ViewDimIsStored | backend/routers/sessions.py:209-218 | A dimension read from the session detail is the stored score's value. |
| Scorecard.Shown | frontend/src/pages/Scorecard.jsx:120 | A dimension shows 0 when there are no scores, else its score. |
| Scorecard.RadarData | frontend/src/pages/Scorecard.jsx:76-80 | Six radar points with the dimension labels in order, full mark 100, and the scores or 0. |
| Scorecard.RadarLabelsDistinct | frontend/src/pages/Scorecard.jsx:10-17 | The radar's six labels are distinct. |
| Scorecard.Breakdown | frontend/src/pages/Scorecard.jsx:119-136 | One bar per dimension, with its label, the value as width, and bar and badge colours of its band. |
| Scorecard.BarAndBadgeAgree | frontend/src/pages/Scorecard.jsx:119-129 | A bar's colour and its badge's colour name the same band. |
| Scorecard.OverallShown | frontend/src/pages/Scorecard.jsx:97 | The headline shows the overall score rounded, or 0 without scores. |
| Scorecard.Underscores | frontend/src/pages/Scorecard.jsx:93 | Every underscore becomes a space and nothing else changes. |
| Scorecard.TitleCase | frontend/src/pages/Scorecard.jsx:93 | No underscore is left, and exactly the first letter of each word is upper-cased. |
| Scorecard.TitleCaseIdempotent | frontend/src/pages/Scorecard.jsx:93 | Title-casing twice is title-casing once. |
| Scorecard.TitleCaseExample | frontend/src/pages/Scorecard.jsx:93 | "skeptical_buyer" is shown as "Skeptical Buyer". |
| Scorecard.Header | frontend/src/pages/Scorecard.jsx:92-94 | The header is the product name, the dash separator and the title-cased personality. |
| Scorecard.FeedbackOf | frontend/src/pages/Scorecard.jsx:74 | Without scores the feedback is empty; otherwise it is the stored detailed feedback. |
| Scorecard.SectionsOf | frontend/src/pages/Scorecard.jsx:143-211 | Each section is shown exactly when its list is non-empty or its count positive. The live scores show only when there is no per-answer feedback. |
| Scorecard.OneAnswerList | frontend/src/pages/Scorecard.jsx:183-211 | Per-answer feedback and live scores are never shown together; without scores only the live scores can show. |
| Scorecard.ImprovementItems | frontend/src/pages/Scorecard.jsx:163-167 | Item i is numbered i+1. |
| Scorecard.ImprovementNumbers | frontend/src/pages/Scorecard.jsx:165 | Each item's leading number reads back as its position, followed by a dot. |
| Scorecard.RamblingNotice | frontend/src/pages/Scorecard.jsx:173-177 | The notice shows exactly for a positive count, with the count, and "times" exactly when the count exceeds 1. |
| Scorecard.PollStops | frontend/src/pages/Scorecard.jsx:38-51 | Polling stops exactly on a failure or on a completed, scored session. Otherwise it retries after 3000 ms. Stopping clears the loading flag. A fetched session is stored. |
| Scorecard.PendingKeepsPolling | frontend/src/pages/Scorecard.jsx:38-53 | While fetches return unfinished sessions, the page keeps loading and polling and shows the latest data. |
| Scorecard.StoppedStaysStopped | frontend/src/pages/Scorecard.jsx:38-53 | Once stopped, no further poll happens. |
| Scorecard.PageOf | frontend/src/pages/Scorecard.jsx:55-71 | The spinner shows while loading. Once loading is over, the error page shows for an error or a missing session, with the error or "Session not found". The report otherwise. |
| Scorecard.PollOutcomes | frontend/src/pages/Scorecard.jsx:37-71 | A settled fetch shows the report, a failure shows its message, and an unfinished fetch keeps the spinner. |
| Scorecard.ScorecardView.constructor | frontend/src/pages/Scorecard.jsx:33-35 | The page starts with no session, loading, no error and a poll due. |
| Scorecard.ScorecardView.Poll | frontend/src/pages/Scorecard.jsx:38-51 | A poll's result updates the page state as the poll function says. |
| Dashboard.AfterLoad | frontend/src/pages/Dashboard.jsx:33-38 | Loading always ends. Both results are stored only when both requests succeed; otherwise nothing is stored. |
| Dashboard.FailedLoadIsEmpty | frontend/src/pages/Dashboard.jsx:33-48 | A failed load shows the empty state with no sessions. |
| Dashboard.NoCompletedSessionIsEmpty | frontend/src/pages/Dashboard.jsx:48 | The backend's empty dashboard shows the empty state. |
| Dashboard.DimensionCard | frontend/src/pages/Dashboard.jsx:84-93 | A missing dimension (or "overall") shows '—'; otherwise its short label. |
| Dashboard.AverageOf | frontend/src/pages/Dashboard.jsx:123 | A missing average reads as 0. |
| Dashboard.StatsOf | frontend/src/pages/Dashboard.jsx:82-93 | The stats show the total, the rounded overall average, and the strongest and weakest cards. |
| Dashboard.HeadlineAverage | frontend/src/pages/Dashboard.jsx:82-83 | With sessions, the total is their number and the average card is the rounded overall average. |
| Dashboard.HeadlineCards | frontend/src/pages/Dashboard.jsx:84-93 | With sessions, the strongest and weakest cards always name a dimension. |
| Dashboard.AggregateHead | backend/routers/scores.py:73-80 | With sessions the aggregate has their number, the averages, and the first maximum and minimum dimension. |
| Dashboard.AveragesCover | backend/routers/scores.py:62-66 | Every scored dimension has an average. |
| Dashboard.NamedCard | frontend/src/pages/Dashboard.jsx:10-17 | Every scored dimension has a label. |
| Dashboard.ScoreColour | frontend/src/pages/Dashboard.jsx:124-127 | The text colour is that of the value's band. |
| Dashboard.Tiles | frontend/src/pages/Dashboard.jsx:122-134 | One tile per dimension with its short label, the rounded average (0 when missing) and its band's colour. |
| Dashboard.PersonalityName | frontend/src/pages/Dashboard.jsx:145 | A known key shows its short label; an unknown key shows itself. |
| Dashboard.ShortNamesDistinct | frontend/src/pages/Dashboard.jsx:19-26 | Different personalities show different names. |
| Dashboard.SessionCountPlural | frontend/src/pages/Dashboard.jsx:147 | The count text ends in "s" exactly when the count is not 1, and starts with the count. |
| Dashboard.CardOf | frontend/src/pages/Dashboard.jsx:143-147 | A personality card shows its name, the rounded average and the count text. |
| Dashboard.SessionLink | frontend/src/pages/Dashboard.jsx:163 | A completed session links to its scorecard; any other goes nowhere ("#"). |
| Dashboard.RowBadgeOf | frontend/src/pages/Dashboard.jsx:173-182 | A scored session shows its rounded score in its band's colour; an unscored one shows its status. |
| Dashboard.History | frontend/src/pages/Dashboard.jsx:160-185 | One history row per session, in order, with link, product name, personality name and badge. |
| Dashboard.HistoryLinks | frontend/src/pages/Dashboard.jsx:163-182 | A row links exactly when its session is completed, and shows a score exactly when it has one. |
| SessionSetup.Opened | frontend/src/pages/SessionSetup.jsx:17-26 | The page opens in a valid state (step 1). |
| SessionSetup.Without | frontend/src/pages/SessionSetup.jsx:55 | `filter(p => p.id !== id)` keeps exactly the products with another id. |
| SessionSetup.HandlersKeepValid | frontend/src/pages/SessionSetup.jsx:26-71 | Every handler keeps the step between 1 and 3 and reaches step 3 only with a personality chosen. |
| SessionSetup.StepButtonsGoBack | frontend/src/pages/SessionSetup.jsx:87 | The step buttons only go back, to the step clicked. |
| SessionSetup.UploadGuard | frontend/src/pages/SessionSetup.jsx:35-37 | Without a file or a name the submit does nothing. Otherwise it sends the trimmed name and the file and enters the uploading state with no error. |
| SessionSetup.BlankNameBlocks | frontend/src/pages/SessionSetup.jsx:35 | A name of whitespace only never uploads. |
| SessionSetup.BlankIffEmpty | frontend/src/pages/SessionSetup.jsx:35 | A name trims to nothing exactly when it has no non-whitespace character. |
| SessionSetup.UploadOutcomes | frontend/src/pages/SessionSetup.jsx:38-50 | Success selects the new product, moves to step 2, clears the form and shows the refreshed list. A failure shows its message and keeps the rest. Uploading ends either way. |
| SessionSetup.DeleteOutcome | frontend/src/pages/SessionSetup.jsx:53-57 | A delete removes exactly that product from the list and clears the selection only when it was the deleted product. |
| SessionSetup.StartGuard | frontend/src/pages/SessionSetup.jsx:59-64 | Start does something exactly when a product and a personality are chosen, and then requests a session for them. |
| SessionSetup.StartOutcomes | frontend/src/pages/SessionSetup.jsx:63-70 | Success navigates to the call page with the config and personality; failure shows its message; creating ends either way. |
| SessionSetup.CallPathCarriesId | frontend/src/pages/SessionSetup.jsx:65 | The call path is "/call/" and the session id's digits, which read back as the id. |
| SessionSetup.ChosenProductName | frontend/src/pages/SessionSetup.jsx:222 | The summary names a product exactly when the selected id is in the list, and then that product's name. |
| SessionSetup.ChosenPersonalityLabel | frontend/src/pages/SessionSetup.jsx:225 | The summary shows a label exactly when the selected key is listed. |
| SessionSetup.KnownKeyShowsLabel | frontend/src/pages/SessionSetup.jsx:225 | With the backend's listing, each personality's key shows its label. |
| SessionSetup.SetupWizard.constructor | frontend/src/pages/SessionSetup.jsx:17-31 | The page starts in its opening state and asks for the products and the personalities, in that order. |
| SessionSetup.SetupWizard.Load | frontend/src/pages/SessionSetup.jsx:28-31 | Loaded lists replace the state's lists; a failed request keeps the old one. |
| SessionSetup.SetupWizard.EditName | frontend/src/pages/SessionSetup.jsx:120 | Typing sets the upload name and nothing else. |
| SessionSetup.SetupWizard.PickFile | frontend/src/pages/SessionSetup.jsx:127 | Picking sets the upload file and nothing else. |
| SessionSetup.SetupWizard.ClickStep | frontend/src/pages/SessionSetup.jsx:87 | A step button updates the state as the step function says. |
| SessionSetup.SetupWizard.SelectProduct | frontend/src/pages/SessionSetup.jsx:156 | Choosing a product selects it and moves to step 2. |
| SessionSetup.SetupWizard.SelectPersonality | frontend/src/pages/SessionSetup.jsx:198 | Choosing a personality selects it and moves to step 3. |
| SessionSetup.SetupWizard.SubmitUpload | frontend/src/pages/SessionSetup.jsx:33-37 | Submitting updates the state as the upload guard says. |
| SessionSetup.SetupWizard.FinishUpload | frontend/src/pages/SessionSetup.jsx:38-50 | The upload's outcome updates the state as the settle function says. |
| SessionSetup.SetupWizard.ClickDelete | frontend/src/pages/SessionSetup.jsx:173 | The delete button only sends the delete request. |
| SessionSetup.SetupWizard.FinishDelete | frontend/src/pages/SessionSetup.jsx:53-57 | A settled delete filters the list and clears a matching selection. |
| SessionSetup.SetupWizard.ClickStart | frontend/src/pages/SessionSetup.jsx:59-64 | Start updates the state as the start guard says. |
| SessionSetup.SetupWizard.FinishStart | frontend/src/pages/SessionSetup.jsx:63-70 | The create outcome updates the state as the settle function says. |
| SessionSetup.Filtered | frontend/src/pages/SessionSetup.jsx:55 | The filtering loop yields exactly the products with another id, in order. |
| Api.Lookup | frontend/src/services/api.js:9 | A header is present exactly when some entry has its name. |
| Api.SetHeader | frontend/src/services/api.js:10-12 | Setting a header gives it the new value and leaves every other header alone. |
| Api.HeaderRules | frontend/src/services/api.js:8-13 | `Authorization: Bearer <token>` is set exactly when a token is stored. `Content-Type: application/json` is set exactly when the body is not form data. All other caller headers are kept. |
| Api.BuildHeaders | frontend/src/services/api.js:8-13 | The header-building steps give the headers the rules define. |
| Api.DetailMessage | frontend/src/services/api.js:22-23 | An unreadable body or a missing or empty detail gives "Request failed"; a string detail is the message. |
| Api.Classify | frontend/src/services/api.js:15-25 | 401 fails with "Unauthorized"; another error fails with the detail message; success gives the parsed body, or a parse failure. |
| Api.ClassifyCases | frontend/src/services/api.js:16-25 | A request succeeds exactly when the status is 2xx with a body, and fails exactly when the status is not 2xx. |
| Api.HttpErrorBecomesMessage | frontend/src/services/api.js:21-24 | A backend `HTTPException` reaches the caller as its detail text. |
| Api.CallIdRequest | frontend/src/services/api.js:86-91 | `updateCallId` sends PATCH to "/sessions/<id>/call-id", whose digits read back as the id, with a body holding only `vapi_call_id`. |
| Api.OnlyUploadIsForm | frontend/src/services/api.js:56-60 | Every endpoint except the upload sends `Content-Type: application/json`. |
| Api.Client.constructor | frontend/src/services/api.js:3-5 | The client starts with the stored token and no redirect. |
| Api.Client.Request | frontend/src/services/api.js:7-26 | The request carries the rule-built headers. A 401 removes the token and redirects to "/login". Any other status keeps both. The outcome is the classified response. |
| Api.Client.Send | frontend/src/services/api.js:28-104 | Each endpoint sends its path, method and body through `request`. |
| Api.JsString | frontend/src/services/api.js:47 | A string is stored as itself and an object as "[object Object]"; a whole number is stored in decimal. |
| Api.StoredToken | frontend/src/services/api.js:47 | The stored token is the body's `access_token` text. A missing field, or a body that is not an object, gives "undefined"; a null field gives "null". |
| Api.Client.Login | frontend/src/services/api.js:36-50 | Login posts the form-encoded credentials. A failure gives "Invalid credentials" and keeps the token. A body of JSON `null` throws a `TypeError` and keeps the token. Any other body is returned, and its `access_token` is stored as `localStorage` converts it. |
| Api.LoggedOutSendsNoToken | frontend/src/services/api.js:10 | Without a stored token no `Authorization` header is added. |
| LiveCall.Init | frontend/src/pages/LiveCall.jsx:11-27 | The page starts connecting with a zero clock and an empty transcript. Without a launch configuration it only navigates to "/new-session"; with one it starts the call and listens. |
| LiveCall.Toggled | frontend/src/pages/LiveCall.jsx:76-79 | Mute flips the flag and tells the transport the new value. |
| LiveCall.EndRequested | frontend/src/pages/LiveCall.jsx:81-83 | End only asks the transport to stop. |
| LiveCall.StepEffects | frontend/src/pages/LiveCall.jsx:30-69 | Per event (details below the table). |
| LiveCall.TranscriptIsFinalFragments | frontend/src/pages/LiveCall.jsx:45-49 | The on-screen transcript is exactly the final transcript fragments, in order. |
| LiveCall.ClockStopped | frontend/src/pages/LiveCall.jsx:32 | With no interval running and no `call-start`, the clock never moves. |
| LiveCall.OneCallFreezesClock | frontend/src/pages/LiveCall.jsx:30-39 | After one call starts and ends, the clock no longer moves. |
| LiveCall.HeldIsAll | frontend/src/pages/LiveCall.jsx:32-37 | Without another `call-start`, the only interval that can run is the one the page holds. |
| LiveCall.AfterTeardown | frontend/src/pages/LiveCall.jsx:56-69 | After the teardown no event changes the page, except that a start resolving later still reports its non-empty call id to the backend. |
| LiveCall.LateStartReported | frontend/src/pages/LiveCall.jsx:56-69 | Unmounting before the start resolves: the transport is stopped, and the call id is still reported afterwards. |
| LiveCall.NoConfigIsInert | frontend/src/pages/LiveCall.jsx:23-26 | Without a configuration no event changes the page. |
| LiveCall.ButtonsAfterEnd | frontend/src/pages/LiveCall.jsx:173-186 | After the call ends, both buttons are disabled. After an error only mute is disabled. During the call both are enabled. |
| LiveCall.ToggleTwice | frontend/src/pages/LiveCall.jsx:76-79 | Toggling twice restores the flag, after telling the transport both values. |
| LiveCall.Pad2 | frontend/src/pages/LiveCall.jsx:88 | `padStart(2, '0')` gives two digits that read back as the number. |
| LiveCall.FormatTime | frontend/src/pages/LiveCall.jsx:85-89 | The time has the form m:ss. |
| LiveCall.FormatTimeRoundTrip | frontend/src/pages/LiveCall.jsx:85-89 | Minutes times 60 plus seconds read back as the duration, with seconds below 60. |
| LiveCall.FormatTimeExamples | frontend/src/pages/LiveCall.jsx:85-89 | 42 s is "0:42", 65 s is "1:05", 600 s is "10:00". |
| LiveCall.CallController.constructor | frontend/src/pages/LiveCall.jsx:13-27 | The page's fields start as the initial state says. |
| LiveCall.CallController.Step | frontend/src/pages/LiveCall.jsx:30-69 | Each event updates the fields as the step function says. |
| LiveCall.CallController.OnCallStart | frontend/src/pages/LiveCall.jsx:30-33 | The call becomes active and a new interval is held and running; nothing else changes. |
| LiveCall.CallController.OnCallEnd | frontend/src/pages/LiveCall.jsx:35-39 | The call ends, the held interval stops running and the scorecard is scheduled after 2000 ms; nothing else changes. |
| LiveCall.CallController.OnMessage | frontend/src/pages/LiveCall.jsx:45-49 | Only a final transcript fragment adds a line, at the end. |
| LiveCall.CallController.OnStartResolved | frontend/src/pages/LiveCall.jsx:56-59 | A non-empty call id is reported for the page's session; nothing else changes. |
| LiveCall.CallController.OnTick | frontend/src/pages/LiveCall.jsx:32 | A running interval adds one second; any other interval changes nothing. |
| LiveCall.CallController.OnTeardown | frontend/src/pages/LiveCall.jsx:65-69 | The held interval stops running, the transport is stopped and the handlers are removed. |
| LiveCall.CallController.ToggleMute | frontend/src/pages/LiveCall.jsx:76-79 | The mute button updates the fields as the toggle function says. |
| LiveCall.CallController.EndCall | frontend/src/pages/LiveCall.jsx:81-83 | The end button updates the fields as the end function says. |

`LiveCall.StepEffects`, event by event:

- `call-start` makes the call active with a running interval.
- `call-end` ends the call, clears the held interval and schedules the scorecard after 2000 ms.
- An error sets the error status without touching the clock.
- Only a tick of a running interval adds a second.
- Only a final transcript fragment adds a line.
- A resolved start reports a non-empty call id to the backend, even after teardown.
- Teardown stops the transport, clears the interval and removes the handlers.

## Left out

- Floating point: scores are Dafny reals. Python's `round` half-to-even and JavaScript's `Math.round` are modelled exactly on reals. JavaScript `NaN`, `undefined` and mixed-type comparisons are not.
- Dates: `created_at` is an integer timestamp and `isoformat()` is not rendered. Rows sharing a `created_at` are ordered by insertion, matching how rows are appended.
- JSON columns: a JSON `null` in a list column is stored as an empty list. Present-null and missing fields are not told apart beyond what the handlers read.
- The `arguments` string of a tool call is taken as already parsed (`json.loads` is not modelled).
- `by_personality` is a map, so the display order of `Object.entries` is not modelled.
- The strict tie-breaking of Python `max`/`min` is stated up to the first in dimension order.
- Text processing is ASCII-only: case conversion covers ASCII letters, and `str.strip`/`String.trim` use one fixed whitespace set.
- Outside calls are parameters of the operations that need them:
  - the LLM scoring answer and the USP extraction, `None` when the call raises;
  - PDF page texts, `None` when the reader raises, and the UTF-8 decoding of an upload;
  - HTTP responses;
  - the clock;
  - the environment variables `WEBHOOK_BASE_URL` and `RAILWAY_PUBLIC_DOMAIN`.
- The scoring prompt text and the call's tool schema, voice and first message are fixed constants, not modelled. The personality prompt sections are modelled.
- Async timing: each `await` is one atomic step, and requests settling in other orders (for example, a delete finishing after a step change) are not modelled.
- The live call's two-second navigation delay is recorded as a command, not executed.
- A second `call-start` replaces the held interval and leaks the first, as the code does. The model states the clock only for one call.
- A `detail` that is not a string becomes a converted message whose text is not rendered.
- Api.Client.Login: for an `access_token` that is an array or a number other than a whole number below 10^21 in magnitude, the text `localStorage` stores is not rendered; the model keeps the old token.
- Api.DetailMessage: an error body of JSON `null` makes `err.detail` throw a `TypeError` in the source, whose message becomes the failure; the model gives "Request failed" as for a missing detail.
- The messages of `TypeError`s are those of the V8 engine.
- Route ids (`sessionId` in the client) are natural numbers.
- Authentication, registration, the login and layout pages, routing, and the voice SDK wrapper are not part of this model: `backend/auth.py`, `frontend/src/pages/Login.jsx`, `frontend/src/components/Layout.jsx`, `frontend/src/App.jsx`, `frontend/src/services/vapi.js`, and the USP extractor `backend/services/usps_extractor.py`.
- Icons, emoji and CSS beyond the colour class strings are not modelled.
- Webhook.ScoreFromResult: its contract names only the session. The field-by-field copy of the scoring answer, with missing fields as 0 or empty, is its body.
- Sessions.OwnSessionsNewestFirst: its contract states membership only; the order is stated by `Sessions.NewestFirstOrder`.
- Products.OwnProductsNewestFirst: its contract states membership only; the order is stated by `Products.ListNewestFirst`.

## Findings

| source | as written | input that shows it | evidently intended | confidence | as-written member | corrected member |
|---|---|---|---|---|---|---|
| backend/routers/webhook.py:100-103 | The handler appends to the loaded transcript list in place and assigns the same list back. The column is a plain `JSON` column (backend/models.py:45), so the ORM sees no change and writes nothing. Only a session whose transcript was empty is written. | A session with call id "call-1" and one transcript entry receives a `transcript` message with text "Hi there". | Every fragment is appended to the stored transcript. | not executed | Webhook.AfterTranscriptAsWritten, Webhook.SecondFragmentLost | Webhook.HandleTranscript, Webhook.TranscriptAppendsOne |
| backend/routers/products.py:104-108 | `Product.sessions` has no delete cascade (backend/models.py:34). Deleting a product therefore first sets `product_id` of its sessions to NULL, and that column is NOT NULL (backend/models.py:42). The request fails with a 500. | Product 1 of user 7 has one session; user 7 deletes product 1. | The product is removed. Its sessions stay, and the session list shows "Unknown" as their product name. | not executed | Products.DeleteAsWritten, Products.DeleteAfterPracticeFails | Products.DeleteProduct, Products.DeleteRemovesOnlyIt |

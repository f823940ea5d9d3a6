# Chatbot conversation logic in Dafny

This project models the two sequential parts of a two-tier chatbot: a REST backend that talks to a language model and a web UI that talks to the backend.

- **Backend** (`backend.dfy`, module `Backend`, from `backend/main.py`):
  - The `conversations` table is a sequence of rows in insertion order, held by the class `ConversationService`.
  - `SaveConversation` appends a row and `DeleteSession` removes every row of one session.
  - The history query returns a session's newest `limit` rows, newest first. `GetConversationHistory` reverses them into chronological order and returns an empty history when the read fails.
  - `BuildMessages` is the loop in `call_deepseek` that builds the prompt. It keeps the last five exchanges, expands each into a user turn and an assistant turn, and appends the current message. It is proved equal to the specification function `Prompt`, whose shape `PromptShape` states.
  - Session ids are compared by part of the table's collation: ASCII letters case-folded and trailing spaces ignored (`CollationKey`, `SameSession`). The collation's other equivalences are listed under "Left out".
  - `CallDeepseek` maps a provider client error to 503 and any other failure to 500.
  - `Chat` is the POST /chat endpoint:
    - it validates the 1–4000 character message bound;
    - it picks the session id: the supplied one if non-empty, otherwise a fresh one;
    - it reads the history, asks the model and saves the exchange.
- **Frontend** (`frontend.dfy`, module `Frontend`, from `frontend/app.py`):
  - The class `SessionState` holds the UI session state: messages, session id, API availability and error count. It also records which keys exist, because initialisation only fills in missing keys.
  - `Turn` is one chat turn. It appends the user's message, then either the reply (success: the error count resets and the backend's session id is adopted) or an error-flagged message (failure: the count grows by one, and a warning is shown from three failures on).
  - `Payload` and `SendMessage` shape the request body and the `{success, data | error}` result.
  - `ExportConversation` builds the JSON object the download button serialises. `ReadExport` reads such an object back, and the export is proved lossless against it.

External effects are parameters:
- the model provider is a function from a message list to an outcome;
- the HTTP client is a function from a payload to an outcome;
- each database query has a boolean that says whether it succeeds;
- the uuid and the clock readings are string parameters.

Rows with the same second-granularity `created_at` have no defined order in the source's history query. The model orders them by insertion.

## Model

| member | source | states |
|---|---|---|
| `Backend.Last` | backend/main.py:189 | for n > 0, the slice `[-n:]` is a suffix of the list with min(n, length) elements |
| `Backend.LastEndsWith` | backend/main.py:189 | for n > 0, the last n elements of a list ending in x end in x |
| `Backend.Reverse` | backend/main.py:161 | reversing keeps the length |
| `Backend.ReverseAt` | backend/main.py:161 | position i of the reversed list holds element length-1-i |
| `Backend.LowerAscii` | backend/main.py:118 | the collation's case folding: an upper-case ASCII letter maps to its lower-case letter, every other character to itself, and the result is never upper-case ASCII |
| `Backend.TrimTrailingSpaces` | backend/main.py:118 | the collation's PAD SPACE rule: the result is a prefix of the id that does not end in a space, and everything cut off is spaces |
| `Backend.CollationKeyAt` | backend/main.py:118 | the key the collation compares is the id without trailing spaces, each character case-folded |
| `Backend.CaseIsIgnored` | backend/main.py:118 | any two ids of equal length that agree at every position after ASCII case folding are the same session |
| `Backend.Spaces` | backend/main.py:118 | n space characters |
| `Backend.TrailingSpacesAreIgnored` | backend/main.py:118 | any id padded with any number of trailing spaces is the same session as the id itself |
| `Backend.CollationExamples` | backend/main.py:118 | four example pairs: "ABC"/"abc" and "abc  "/"abc" are the same session; "abc"/"abd" and " abc"/"abc" are not |
| `Backend.SessionRows` | backend/main.py:148-154 | the rows the `WHERE session_id = %s` filter keeps, as exchanges in insertion order; never more than the table holds |
| `Backend.Without` | backend/main.py:318 | the rows the `DELETE ... WHERE session_id = %s` statement leaves: none of them matches the session id under the collation |
| `Backend.DeleteRemovesSessionRows` | backend/main.py:318-328 | the delete's row count equals the number of rows whose id the collation makes equal to the session id; it is zero exactly when no such row exists |
| `Backend.DeleteIsolatesSessions` | backend/main.py:318-322 | after deleting a session, every id the collation makes equal to it has no rows left, and every other session's rows are exactly as before |
| `Backend.SaveAppendsToSession` | backend/main.py:130-140 | an insert appends its exchange to the rows of every id the collation makes equal to its session id, and leaves other sessions' rows unchanged |
| `Backend.NewestFirst` | backend/main.py:148-159 | the history query returns min(limit, rows whose id the collation makes equal to the session id) exchanges |
| `Backend.GetConversationHistory` | backend/main.py:146-164 | the history has at most `limit` entries and is empty when the read fails |
| `Backend.HistoryIsChronological` | backend/main.py:146-161 | a successful read returns the session's `limit` most recent exchanges, oldest first |
| `Backend.Expand` | backend/main.py:189-197 | each exchange contributes exactly two messages |
| `Backend.ExpandAt` | backend/main.py:189-197 | exchange i yields a user message with its question at 2i and an assistant message with its answer at 2i+1 |
| `Backend.PromptShape` | backend/main.py:185-203 | the prompt has 2*min(5, history)+1 messages; it holds the last five exchanges in order as user/assistant pairs; roles alternate starting with user; the last message is the current one |
| `Backend.PromptAlternates` | backend/main.py:185-203 | roles in the prompt alternate, starting with user |
| `Backend.BuildMessages` | backend/main.py:185-203 | the loop builds exactly the specified prompt |
| `Backend.CallDeepseek` | backend/main.py:179-240 | the reply is the provider's answer to the prompt; a client error becomes 503 with the provider's message; any other failure becomes 500 |
| `Backend.PromptUsesLatestExchanges` | backend/main.py:285-291 | reading ten history rows and keeping the last five puts the session's five most recent exchanges in the prompt |
| `Backend.SavedExchangeIsNextContext` | backend/main.py:285-298 | after an exchange is saved, the next prompt of that session ends with that question, that answer, then the new message |
| `Backend.ValidateRequest` | backend/main.py:66-68 | a request is accepted exactly when its message has 1 to 4000 characters; otherwise the status is 422 |
| `Backend.ChooseSessionId` | backend/main.py:282 | the supplied id when non-empty, otherwise the fresh one; never empty when the fresh one is not |
| `Backend.ConversationService.constructor` | backend/main.py:110-118 | the service starts over the rows the table already holds, since the table is created only if it does not exist |
| `Backend.ConversationService.SaveConversation` | backend/main.py:130-144 | a successful insert appends exactly one row; a failed one changes nothing |
| `Backend.ConversationService.Chat` | backend/main.py:274-312 | an invalid request gets 422; otherwise it succeeds exactly when the model answers and the insert succeeds; it then returns the answer with the chosen session id and appends one row; on any error the table is unchanged and the status is 503 or 500 as the failure dictates |
| `Backend.ConversationService.DeleteSession` | backend/main.py:314-339 | removes exactly the rows whose id the collation makes equal to the session id; 404 "Session not found" exactly when there were none; otherwise the message "Session <id> deleted successfully"; 500 when the delete fails |
| `Frontend.Payload` | frontend/app.py:92-94 | the body always carries the message; it carries `session_id` exactly when a non-empty session id is set; it has no other key |
| `Frontend.PayloadKeepsSession` | frontend/app.py:92-94 | given the body the UI sends, the backend's session-id choice is the UI's session id when one is set and a fresh id otherwise |
| `Frontend.SendMessage` | frontend/app.py:89-134 | `success` holds exactly when the backend answered; `data` is present exactly on success and `error` exactly on failure; each failure kind gets its error text |
| `Frontend.SessionState.Initialize` | frontend/app.py:63-75 | absent keys get [], None, None, 0; present keys keep their values; on an initialised state nothing changes (idempotence) |
| `Frontend.SessionState.ClearConversation` | frontend/app.py:136-140 | messages empty, session id None, error count 0, API status unchanged |
| `Frontend.ErrorContent` | frontend/app.py:312 | the error message's text is the warning prefix followed by the error text unchanged |
| `Frontend.SessionState.CheckHealthOnLoad` | frontend/app.py:339-341 | while the API status is unknown it becomes available exactly when the probe of `check_api_health` (frontend/app.py lines 78-87) got status 200; a known status is kept; nothing else changes |
| `Frontend.SessionState.Turn` | frontend/app.py:260-315 | a submitted prompt adds exactly two messages: the user's prompt, then the reply or an error-flagged message; on success the error count is 0 and the backend's session id is adopted; on failure the count grows by one, the session id is kept, and the warning is shown exactly when the count is at least 3; with no prompt nothing changes |
| `Frontend.MessageJson` | frontend/app.py:310-315 | a message dictionary (as appended at frontend/app.py lines 263-267, 292-296 and 310-315) has the keys role, content and timestamp, plus `is_error` exactly on error messages; reading it back gives the message again |
| `Frontend.ReadMessagesInverts` | frontend/app.py:142-149 | reading back the exported list of message dictionaries gives the messages in display order |
| `Frontend.SessionState.ExportConversation` | frontend/app.py:142-149 | the export is an object with exactly the keys session_id, timestamp and messages; session_id is null when no session is set; messages has one entry per message; reading it back gives the current session id, the export time and every message in display order |

## Left out

- Database plumbing: the connection pool, the schema DDL, the startup and shutdown lifespan, and the `/` and `/health` endpoints are I/O. Each query is modelled only by whether it succeeds.
- Row order: the source orders history by a second-granularity `created_at`, so rows saved in the same second have no defined order. The model uses insertion order.
- Bedrock call: the client, the JSON request and response bodies, the model id, `max_tokens` and the floating-point `temperature`/`top_p` are a foreign network call. The provider is an arbitrary function from the message list to a reply, a client error or any other failure. A malformed reply body counts as "any other failure".
- Web framework: FastAPI routing, CORS and the 5-requests-per-minute rate limiter (HTTP 429) are library behaviour.
- Validation errors: the 422 response body that the framework produces is not modelled; only its status and the accepted length range are.
- `session_id` column width: it is VARCHAR(36). A longer supplied id makes the insert fail, and the model covers that only through the insert-failure parameter.
- Partial deletes: a delete that fails after removing rows is modelled as leaving the table unchanged.
- `Backend.GetConversationHistory`: `limit` is a natural number. The source only ever uses the default 10, so a negative LIMIT is not modelled.
- Nondeterministic inputs: `uuid.uuid4()` and `datetime.now()` are parameters (`freshId`, `now`, `later`). The formatting of timestamps is not modelled.
- UI rendering: Streamlit widgets, CSS, the error banner, the sidebar (including its "Check Connection" button), the download button, `st.rerun()` and logging.
- Export text: the model stops at the JSON value; `json.dumps` with its indentation, and `isoformat` of the export time, are not modelled.
- HTTP client: its exception hierarchy and timeouts are collapsed into the outcome datatype. A success body is assumed to be a well-formed chat response; the source would raise a KeyError otherwise.
- Session-id collation: of the table's `utf8mb4_unicode_ci` collation (backend/main.py line 118), only ASCII case folding and ignoring trailing spaces are modelled. Every other equivalence it makes is left out: accent folding, case folding of non-ASCII letters, expansions such as ß = ss, characters it gives no weight (such as the C0 control characters, so "a\x01" and "a" match), and the single weight it gives every supplementary character (so two different emoji ids match). Ids that differ only in those are one session in the table but different sessions in the model. For them, what `SessionRows`, `Without`, `DeleteRemovesSessionRows`, `DeleteIsolatesSessions`, `SaveAppendsToSession` and `DeleteSession` promise does not describe the source: a delete of one such id also removes the rows of the others. The backend's own ids are lower-case hexadecimal uuids, which none of this affects.
- Concurrency: requests are modelled one at a time. In the source, `chat` is an async endpoint over a pool of up to ten connections, so two concurrent requests for one session may interleave their history reads and inserts. `Chat` and `SavedExchangeIsNextContext` therefore describe a request that no other request overlaps.

/**
 * The conversation logic of the chatbot's REST backend (backend/main.py):
 * request validation, the choice of session id, retrieval of a session's
 * recent history, assembly of the message list sent to the language model,
 * the mapping of failures to HTTP status codes, and the saving and deleting
 * of conversation rows.
 *
 * The MySQL `conversations` table is a sequence of rows in insertion order;
 * its `WHERE session_id = ...` comparisons go through the table collation's key.
 * The model provider is an arbitrary function from a message list to an outcome.
 * Database failures are boolean parameters that say whether a query succeeds.
 */
module Backend {
  import opened Wrappers

  /** Default `limit` of the history query. */
  const HistoryLimit: nat := 10
  /** Number of most recent exchanges sent to the model as context. */
  const ContextExchanges: nat := 5
  /** Bounds on the length of a chat message, in characters. */
  const MinMessageLength: nat := 1
  const MaxMessageLength: nat := 4000

  const StatusNotFound := 404
  const StatusUnprocessable := 422
  const StatusInternalError := 500
  const StatusServiceUnavailable := 503

  datatype Role = User | Assistant

  /** One entry of the `messages` list in the request body sent to the model. */
  datatype Message = Message(role: Role, content: string)

  /** A row of the `conversations` table (its auto-increment id and timestamp are not modelled). */
  datatype Row = Row(sessionId: string, userMessage: string, aiResponse: string)

  /** One row as the history query returns it. */
  datatype Exchange = Exchange(userMessage: string, aiResponse: string)

  /** The JSON body of POST /chat. */
  datatype ChatRequest = ChatRequest(message: string, sessionId: Option<string>)

  /** The JSON body of a successful POST /chat. */
  datatype ChatResponse = ChatResponse(response: string, sessionId: string)

  /** An HTTPException: a status code and a detail text. */
  datatype HttpError = HttpError(status: int, detail: string)

  /** What the model provider does with a request. */
  datatype ProviderOutcome =
    | Reply(content: string)                     // the text of the first choice
    | ClientError(code: string, message: string) // the provider client raised a ClientError
    | UnexpectedFailure                          // any other exception, e.g. a malformed reply body

  function Min(a: int, b: int): int { if a <= b then a else b }

  // ---------------------------------------------------------------------------
  // Sequence helpers
  // ---------------------------------------------------------------------------

  /** The last `n` elements of `s` (all of `s` when it is shorter): Python's `s[-n:]` for n > 0. */
  function Last<T>(s: seq<T>, n: nat): (r: seq<T>)
    ensures |r| == Min(n, |s|)
    ensures r == s[|s| - |r|..]
  {
    if |s| <= n then s else s[|s| - n..]
  }

  function Reverse<T>(s: seq<T>): (r: seq<T>)
    ensures |r| == |s|
  {
    if s == [] then [] else Reverse(s[1..]) + [s[0]]
  }

  lemma {:induction false} ReverseAt<T>(s: seq<T>, i: nat)
    requires i < |s|
    ensures Reverse(s)[i] == s[|s| - 1 - i]
  {
    if i < |s| - 1 {
      ReverseAt(s[1..], i);
    }
  }

  // ---------------------------------------------------------------------------
  // The conversations table
  // ---------------------------------------------------------------------------

  /** ASCII upper-case letters folded to lower case; every other character as it is. */
  function LowerAscii(c: char): (d: char)
    ensures !('A' <= d <= 'Z')
    ensures 'A' <= c <= 'Z' ==> d as int == c as int + 32
    ensures !('A' <= c <= 'Z') ==> d == c
  {
    if 'A' <= c <= 'Z' then (c as int + 32) as char else c
  }

  /** `s` without its trailing spaces, as a PAD SPACE collation compares it. */
  function TrimTrailingSpaces(s: string): (t: string)
    ensures |t| <= |s| && t == s[..|t|]
    ensures t == [] || t[|t| - 1] != ' '
    ensures forall i :: |t| <= i < |s| ==> s[i] == ' '
  {
    if s != [] && s[|s| - 1] == ' ' then
      var t := TrimTrailingSpaces(s[..|s| - 1]);
      assert s[..|s| - 1][..|t|] == s[..|t|];
      t
    else s
  }

  /**
   * The key under which session ids are compared: the part of the table's
   * collation (utf8mb4_unicode_ci, declared with the table) that this model
   * implements. Trailing spaces are ignored and ASCII letters compare
   * without regard to case; the collation's other equivalences are not
   * modelled.
   */
  function CollationKey(s: string): string
  {
    var t := TrimTrailingSpaces(s);
    seq(|t|, i requires 0 <= i < |t| => LowerAscii(t[i]))
  }

  /** The key is `s` without its trailing spaces, each character case-folded. */
  lemma CollationKeyAt(s: string)
    ensures |CollationKey(s)| == |TrimTrailingSpaces(s)| <= |s|
    ensures forall i :: 0 <= i < |CollationKey(s)| ==> CollationKey(s)[i] == LowerAscii(s[i])
  {
  }

  /** `session_id = sid` in a query on the table: the two ids collate equal. */
  predicate SameSession(id: string, sid: string)
  {
    CollationKey(id) == CollationKey(sid)
  }

  /**
   * Ids that differ only in the case of their ASCII letters are the same
   * session: equal length and the same character at every position once
   * case is folded.
   */
  lemma CaseIsIgnored(a: string, b: string)
    requires |a| == |b|
    requires forall i :: 0 <= i < |a| ==> LowerAscii(a[i]) == LowerAscii(b[i])
    ensures SameSession(a, b)
  {
    var ta, tb := TrimTrailingSpaces(a), TrimTrailingSpaces(b);
    assert |ta| == |tb|;
    CollationKeyAt(a);
    CollationKeyAt(b);
    assert |CollationKey(a)| == |CollationKey(b)|;
  }

  /** `n` space characters. */
  function Spaces(n: nat): (s: string)
    ensures |s| == n && forall i :: 0 <= i < n ==> s[i] == ' '
  {
    if n == 0 then [] else Spaces(n - 1) + [' ']
  }

  /** Padding an id with trailing spaces keeps it the same session. */
  lemma {:induction false} TrailingSpacesAreIgnored(s: string, n: nat)
    ensures SameSession(s + Spaces(n), s)
  {
    if n > 0 {
      TrailingSpacesAreIgnored(s, n - 1);
      var x := s + Spaces(n);
      assert x[..|x| - 1] == s + Spaces(n - 1);
      assert TrimTrailingSpaces(x) == TrimTrailingSpaces(s + Spaces(n - 1));
    } else {
      assert s + Spaces(0) == s;
    }
  }

  /** Single cases: letter case and trailing spaces are ignored; another letter or a leading space is not. */
  lemma CollationExamples()
    ensures SameSession("ABC", "abc") && SameSession("abc  ", "abc")
    ensures !SameSession("abc", "abd") && !SameSession(" abc", "abc")
  {
    assert CollationKey("ABC") == "abc";
    assert TrimTrailingSpaces("abc  ") == "abc";
    assert CollationKey("abc  ") == "abc";
    assert CollationKey("abc") == "abc";
    assert CollationKey("abd")[2] == 'd';
    assert |CollationKey(" abc")| == 4;
  }

  /**
   * `SELECT user_message, ai_response ... WHERE session_id = sid`, in
   * insertion order: the rows whose id collates equal to `sid`.
   */
  function SessionRows(rows: seq<Row>, sid: string): (r: seq<Exchange>)
    ensures |r| <= |rows|
  {
    if rows == [] then []
    else
      var last := rows[|rows| - 1];
      SessionRows(rows[..|rows| - 1], sid)
        + (if SameSession(last.sessionId, sid) then [Exchange(last.userMessage, last.aiResponse)] else [])
  }

  /**
   * The table after `DELETE FROM conversations WHERE session_id = sid`: no
   * kept row collates equal to `sid`.
   */
  function Without(rows: seq<Row>, sid: string): (r: seq<Row>)
    ensures |r| <= |rows|
    ensures forall i :: 0 <= i < |r| ==> !SameSession(r[i].sessionId, sid)
  {
    if rows == [] then []
    else
      var last := rows[|rows| - 1];
      Without(rows[..|rows| - 1], sid) + (if SameSession(last.sessionId, sid) then [] else [last])
  }

  /** Some row of the table matches session `sid`. */
  predicate HasSession(rows: seq<Row>, sid: string)
  {
    exists i :: 0 <= i < |rows| && SameSession(rows[i].sessionId, sid)
  }

  /**
   * The delete removes exactly the rows of the session: the number removed is
   * the number of rows the session has, and it is zero exactly when no row
   * matches the session.
   */
  lemma {:induction false} DeleteRemovesSessionRows(rows: seq<Row>, sid: string)
    ensures |rows| - |Without(rows, sid)| == |SessionRows(rows, sid)|
    ensures |SessionRows(rows, sid)| == 0 <==> !HasSession(rows, sid)
  {
    if rows != [] {
      var init, last := rows[..|rows| - 1], rows[|rows| - 1];
      DeleteRemovesSessionRows(init, sid);
      if SameSession(last.sessionId, sid) {
        assert HasSession(rows, sid) by {
          assert SameSession(rows[|rows| - 1].sessionId, sid);
        }
      } else {
        if HasSession(init, sid) {
          var i :| 0 <= i < |init| && SameSession(init[i].sessionId, sid);
          assert rows[i] == init[i];
        }
        if HasSession(rows, sid) {
          var i :| 0 <= i < |rows| && SameSession(rows[i].sessionId, sid);
          assert rows[|rows| - 1] == last;
          assert i != |rows| - 1;
          assert init[i] == rows[i];
        }
      }
    }
  }

  /**
   * Deleting a session removes every row of each id that collates equal to
   * it and leaves the rows of every other session as they were.
   */
  lemma {:induction false} DeleteIsolatesSessions(rows: seq<Row>, sid: string, other: string)
    ensures SessionRows(Without(rows, sid), other) == if SameSession(other, sid) then [] else SessionRows(rows, other)
  {
    if rows != [] {
      var init, last := rows[..|rows| - 1], rows[|rows| - 1];
      DeleteIsolatesSessions(init, sid, other);
      assert SessionRows(rows, other)
        == SessionRows(init, other)
           + (if SameSession(last.sessionId, other) then [Exchange(last.userMessage, last.aiResponse)] else []);
      if !SameSession(last.sessionId, sid) {
        var w := Without(init, sid) + [last];
        assert Without(rows, sid) == w;
        assert w[..|w| - 1] == Without(init, sid);
        assert SessionRows(w, other)
          == SessionRows(Without(init, sid), other)
             + (if SameSession(last.sessionId, other) then [Exchange(last.userMessage, last.aiResponse)] else []);
      } else {
        assert Without(rows, sid) == Without(init, sid) + [];
        assert Without(init, sid) + [] == Without(init, sid);
      }
    }
  }

  /**
   * Saving a row appends one exchange to every session its id collates equal
   * to, and leaves every other session alone.
   */
  lemma SaveAppendsToSession(rows: seq<Row>, row: Row, other: string)
    ensures SessionRows(rows + [row], other)
      == SessionRows(rows, other)
         + (if SameSession(row.sessionId, other) then [Exchange(row.userMessage, row.aiResponse)] else [])
  {
  }

  // ---------------------------------------------------------------------------
  // History retrieval
  // ---------------------------------------------------------------------------

  /** The history query itself: `ORDER BY created_at DESC LIMIT limit`, rows in insertion order. */
  function NewestFirst(rows: seq<Row>, sid: string, limit: nat): (r: seq<Exchange>)
    ensures |r| == Min(limit, |SessionRows(rows, sid)|)
  {
    var desc := Reverse(SessionRows(rows, sid));
    if |desc| <= limit then desc else desc[..limit]
  }

  /**
   * get_conversation_history: the query's rows reversed into chronological
   * order, or no history at all when the query fails.
   */
  function GetConversationHistory(rows: seq<Row>, sid: string, limit: nat, readOk: bool): (r: seq<Exchange>)
    ensures |r| <= limit
    ensures !readOk ==> r == []
  {
    if readOk then Reverse(NewestFirst(rows, sid, limit)) else []
  }

  /**
   * A successful history read returns the session's `limit` most recent
   * exchanges, oldest first: reversing the newest-first query restores
   * chronological order.
   */
  lemma HistoryIsChronological(rows: seq<Row>, sid: string, limit: nat)
    ensures GetConversationHistory(rows, sid, limit, true) == Last(SessionRows(rows, sid), limit)
  {
    var s := SessionRows(rows, sid);
    var q := NewestFirst(rows, sid, limit);
    var h := GetConversationHistory(rows, sid, limit, true);
    var l := Last(s, limit);
    assert |h| == |l|;
    forall i | 0 <= i < |h| ensures h[i] == l[i] {
      ReverseAt(q, i);
      ReverseAt(s, |q| - 1 - i);
    }
  }

  // ---------------------------------------------------------------------------
  // Prompt assembly
  // ---------------------------------------------------------------------------

  /** Each exchange becomes a user turn followed by an assistant turn. */
  function Expand(entries: seq<Exchange>): (r: seq<Message>)
    ensures |r| == 2 * |entries|
  {
    if entries == [] then []
    else
      var e := entries[|entries| - 1];
      Expand(entries[..|entries| - 1]) + [Message(User, e.userMessage), Message(Assistant, e.aiResponse)]
  }

  lemma {:induction false} ExpandAt(entries: seq<Exchange>, i: nat)
    requires i < |entries|
    ensures Expand(entries)[2 * i] == Message(User, entries[i].userMessage)
    ensures Expand(entries)[2 * i + 1] == Message(Assistant, entries[i].aiResponse)
  {
    if i < |entries| - 1 {
      ExpandAt(entries[..|entries| - 1], i);
    }
  }

  /** The message list sent to the model: the last five exchanges expanded, then the current message. */
  function Prompt(history: seq<Exchange>, message: string): seq<Message>
  {
    Expand(Last(history, ContextExchanges)) + [Message(User, message)]
  }

  /**
   * The shape of the prompt: 2 * min(5, |history|) + 1 messages; the i-th of
   * the last five exchanges, in their original order, yields a user message with
   * its question at 2i and an assistant message with its answer at 2i + 1;
   * roles alternate starting with user; the last message is the current one.
   */
  lemma PromptShape(history: seq<Exchange>, message: string)
    ensures |Prompt(history, message)| == 2 * Min(ContextExchanges, |history|) + 1
    ensures var recent := Last(history, ContextExchanges);
      forall i :: 0 <= i < |recent| ==>
        Prompt(history, message)[2 * i] == Message(User, recent[i].userMessage)
        && Prompt(history, message)[2 * i + 1] == Message(Assistant, recent[i].aiResponse)
    ensures forall i :: 0 <= i < |Prompt(history, message)| ==>
      Prompt(history, message)[i].role == if i % 2 == 0 then User else Assistant
    ensures Prompt(history, message)[|Prompt(history, message)| - 1] == Message(User, message)
  {
    var recent := Last(history, ContextExchanges);
    var p := Prompt(history, message);
    forall i | 0 <= i < |recent|
      ensures p[2 * i] == Message(User, recent[i].userMessage)
      ensures p[2 * i + 1] == Message(Assistant, recent[i].aiResponse)
    {
      ExpandAt(recent, i);
    }
    PromptAlternates(history, message);
  }

  /** Roles in the prompt alternate, starting with the user. */
  lemma PromptAlternates(history: seq<Exchange>, message: string)
    ensures forall i :: 0 <= i < |Prompt(history, message)| ==>
      Prompt(history, message)[i].role == if i % 2 == 0 then User else Assistant
  {
    var recent := Last(history, ContextExchanges);
    var p := Prompt(history, message);
    assert p == Expand(recent) + [Message(User, message)];
    forall i | 0 <= i < |p| ensures p[i].role == if i % 2 == 0 then User else Assistant {
      if i < |p| - 1 {
        var j := i / 2;
        ExpandAt(recent, j);
        assert p[i] == Expand(recent)[i];
        if i % 2 == 0 {
          assert i == 2 * j;
        } else {
          assert i == 2 * j + 1;
        }
      } else {
        assert i == 2 * |recent| && p[i] == Message(User, message);
        assert i % 2 == 0;
      }
    }
  }

  /** The loop of call_deepseek that builds the `messages` list. */
  method BuildMessages(message: string, history: seq<Exchange>) returns (messages: seq<Message>)
    ensures messages == Prompt(history, message)
  {
    messages := [];
    if history != [] {
      var recent := Last(history, ContextExchanges);
      for i := 0 to |recent|
        invariant messages == Expand(recent[..i])
      {
        assert recent[..i + 1][..i] == recent[..i];
        messages := messages + [Message(User, recent[i].userMessage)];
        messages := messages + [Message(Assistant, recent[i].aiResponse)];
      }
      assert recent[..|recent|] == recent;
    }
    messages := messages + [Message(User, message)];
  }

  /**
   * call_deepseek: sends the assembled prompt to the model. A provider client
   * error becomes 503 carrying the provider's message; any other failure
   * becomes 500.
   */
  method CallDeepseek(message: string, history: seq<Exchange>, invoke: seq<Message> -> ProviderOutcome)
    returns (r: Result<string, HttpError>)
    ensures var outcome := invoke(Prompt(history, message));
      && (r.Ok? <==> outcome.Reply?)
      && (outcome.Reply? ==> r.value == outcome.content)
      && (outcome.ClientError? ==>
            r == Err(HttpError(StatusServiceUnavailable, "AI service error: " + outcome.message)))
      && (outcome.UnexpectedFailure? ==>
            r == Err(HttpError(StatusInternalError, "Failed to get AI response")))
  {
    var messages := BuildMessages(message, history);
    var outcome := invoke(messages);
    match outcome
    case Reply(content) => r := Ok(content);
    case ClientError(_, msg) => r := Err(HttpError(StatusServiceUnavailable, "AI service error: " + msg));
    case UnexpectedFailure => r := Err(HttpError(StatusInternalError, "Failed to get AI response"));
  }

  /**
   * The prompt of a chat turn holds the session's five most recent exchanges:
   * reading ten rows of history and keeping the last five of them loses nothing.
   */
  lemma {:induction false} PromptUsesLatestExchanges(rows: seq<Row>, sid: string, message: string)
    ensures Prompt(GetConversationHistory(rows, sid, HistoryLimit, true), message)
      == Expand(Last(SessionRows(rows, sid), ContextExchanges)) + [Message(User, message)]
  {
    HistoryIsChronological(rows, sid, HistoryLimit);
    var s := SessionRows(rows, sid);
    var h := Last(s, HistoryLimit);
    assert Last(h, ContextExchanges) == Last(s, ContextExchanges);
  }

  /** Keeping the last `n > 0` elements of a list keeps its final element. */
  lemma LastEndsWith<T>(s: seq<T>, x: T, n: nat)
    requires n > 0
    ensures |Last(s + [x], n)| >= 1 && Last(s + [x], n)[|Last(s + [x], n)| - 1] == x
  {
    var l := Last(s + [x], n);
    assert l == (s + [x])[|s + [x]| - |l|..];
    assert l[|l| - 1] == (s + [x])[|s|];
  }

  /**
   * Conversation continuity: after an exchange is saved, the next prompt for
   * the same session ends with that exchange followed by the new message.
   */
  lemma {:induction false} SavedExchangeIsNextContext(rows: seq<Row>, sid: string, user: string, ai: string, next: string)
    ensures var p := Prompt(GetConversationHistory(rows + [Row(sid, user, ai)], sid, HistoryLimit, true), next);
      |p| >= 3
      && p[|p| - 3] == Message(User, user)
      && p[|p| - 2] == Message(Assistant, ai)
      && p[|p| - 1] == Message(User, next)
  {
    var rows' := rows + [Row(sid, user, ai)];
    var e := Exchange(user, ai);
    PromptUsesLatestExchanges(rows', sid, next);
    SaveAppendsToSession(rows, Row(sid, user, ai), sid);
    assert SessionRows(rows', sid) == SessionRows(rows, sid) + [e];
    var recent := Last(SessionRows(rows', sid), ContextExchanges);
    LastEndsWith(SessionRows(rows, sid), e, ContextExchanges);
    assert |recent| >= 1 && recent[|recent| - 1] == e;
    var p := Prompt(GetConversationHistory(rows', sid, HistoryLimit, true), next);
    assert p == Expand(recent) + [Message(User, next)];
    ExpandAt(recent, |recent| - 1);
    assert p[|p| - 3] == Expand(recent)[2 * (|recent| - 1)];
    assert p[|p| - 2] == Expand(recent)[2 * (|recent| - 1) + 1];
  }

  // ---------------------------------------------------------------------------
  // Request-level rules
  // ---------------------------------------------------------------------------

  /** The ChatRequest field constraint: a message of 1 to 4000 characters, else 422. */
  function ValidateRequest(req: ChatRequest): (r: Option<HttpError>)
    ensures r.None? <==> MinMessageLength <= |req.message| <= MaxMessageLength
    ensures r.Some? ==> r.value.status == StatusUnprocessable
  {
    if MinMessageLength <= |req.message| <= MaxMessageLength then None
    else Some(HttpError(StatusUnprocessable, "message must have between 1 and 4000 characters"))
  }

  /**
   * `request.session_id or str(uuid.uuid4())`: the supplied id when it is a
   * non-empty string, otherwise the fresh one; so the id is never empty when
   * the fresh one is not.
   */
  function ChooseSessionId(supplied: Option<string>, generated: string): (sid: string)
    ensures supplied.Some? && supplied.value != "" ==> sid == supplied.value
    ensures supplied.None? || supplied.value == "" ==> sid == generated
    ensures generated != "" ==> sid != ""
  {
    if supplied.Some? && supplied.value != "" then supplied.value else generated
  }

  // ---------------------------------------------------------------------------
  // The service: endpoints over the conversations table
  // ---------------------------------------------------------------------------

  /**
   * The prompt a chat request leads to: the request's message after the
   * history of the session the request is served under.
   */
  function ChatPrompt(req: ChatRequest, rows: seq<Row>, freshId: string, readOk: bool): seq<Message>
  {
    Prompt(GetConversationHistory(rows, ChooseSessionId(req.sessionId, freshId), HistoryLimit, readOk), req.message)
  }

  class ConversationService {
    /** The `conversations` table, oldest row first. */
    var rows: seq<Row>

    /**
     * The service at startup: `CREATE TABLE IF NOT EXISTS` keeps whatever
     * rows an earlier run left in the table.
     */
    constructor (existing: seq<Row>)
      ensures rows == existing
    {
      rows := existing;
    }

    /** save_conversation: inserts one row; the insert raises when `writeOk` is false. */
    method SaveConversation(sid: string, user: string, ai: string, writeOk: bool) returns (saved: bool)
      modifies this
      ensures saved == writeOk
      ensures rows == if saved then old(rows) + [Row(sid, user, ai)] else old(rows)
    {
      saved := writeOk;
      if saved {
        rows := rows + [Row(sid, user, ai)];
      }
    }

    /**
     * POST /chat. `freshId` is the uuid the endpoint would generate, `invoke`
     * the model provider, `readOk`/`writeOk` whether the history read and the
     * insert succeed. A reply is saved and returned only when everything
     * succeeds; otherwise the table is unchanged and the error says why.
     */
    method Chat(req: ChatRequest, freshId: string, invoke: seq<Message> -> ProviderOutcome, readOk: bool, writeOk: bool)
      returns (r: Result<ChatResponse, HttpError>)
      modifies this
      ensures ValidateRequest(req).Some? ==> r == Err(ValidateRequest(req).value) && rows == old(rows)
      ensures ValidateRequest(req).None? ==>
        var outcome := invoke(ChatPrompt(req, old(rows), freshId, readOk));
        && (r.Ok? <==> outcome.Reply? && writeOk)
        && (r.Ok? ==> r.value == ChatResponse(outcome.content, ChooseSessionId(req.sessionId, freshId)))
        && (outcome.ClientError? ==>
              r == Err(HttpError(StatusServiceUnavailable, "AI service error: " + outcome.message)))
        && (outcome.UnexpectedFailure? ==>
              r == Err(HttpError(StatusInternalError, "Failed to get AI response")))
        && (outcome.Reply? && !writeOk ==>
              r == Err(HttpError(StatusInternalError, "An unexpected error occurred. Please try again.")))
      ensures rows == if r.Ok? then old(rows) + [Row(r.value.sessionId, req.message, r.value.response)] else old(rows)
    {
      var invalid := ValidateRequest(req);
      if invalid.Some? {
        return Err(invalid.value);
      }
      var sid := ChooseSessionId(req.sessionId, freshId);
      var history := GetConversationHistory(rows, sid, HistoryLimit, readOk);
      ghost var outcome := invoke(ChatPrompt(req, rows, freshId, readOk));
      var reply := CallDeepseek(req.message, history, invoke);
      if reply.Err? {
        r := Err(reply.error);
      } else {
        assert outcome.Reply? && reply.value == outcome.content;
        var saved := SaveConversation(sid, req.message, reply.value, writeOk);
        if saved {
          r := Ok(ChatResponse(reply.value, sid));
        } else {
          r := Err(HttpError(StatusInternalError, "An unexpected error occurred. Please try again."));
        }
      }
    }

    /**
     * DELETE /chat/session/{sid}: removes every row of the session and no
     * other; 404 when nothing was removed, 500 when the delete fails.
     */
    method DeleteSession(sid: string, dbOk: bool) returns (r: Result<string, HttpError>)
      modifies this
      ensures !dbOk ==> rows == old(rows) && r == Err(HttpError(StatusInternalError, "Failed to delete session"))
      ensures dbOk ==> rows == Without(old(rows), sid)
      ensures dbOk ==> (r.Err? <==> !HasSession(old(rows), sid))
      ensures dbOk && r.Err? ==> r.error == HttpError(StatusNotFound, "Session not found")
      ensures r.Ok? ==> r.value == "Session " + sid + " deleted successfully"
    {
      if !dbOk {
        return Err(HttpError(StatusInternalError, "Failed to delete session"));
      }
      DeleteRemovesSessionRows(rows, sid);
      var before := |rows|;
      rows := Without(rows, sid);
      var affected := before - |rows|;
      if affected == 0 {
        return Err(HttpError(StatusNotFound, "Session not found"));
      }
      r := Ok("Session " + sid + " deleted successfully");
    }
  }
}

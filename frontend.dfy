/**
 * The chat-session state machine of the chatbot's web UI (frontend/app.py).
 *
 * A browser session keeps four values in the UI framework's session state:
 * the displayed messages, the backend session id, whether the backend was
 * last seen healthy, and a count of consecutive failed turns. A key of that
 * state may be absent until initialisation sets it. The HTTP client's
 * behaviour is an outcome datatype, the clock's readings are parameters.
 */
module Frontend {
  import opened Wrappers
  import Backend

  /** Failed turns in a row from which the "multiple errors" warning is shown. */
  const WarningThreshold: nat := 3

  const TimeoutText := "Request timed out. Please try again."
  const ConnectionText := "Cannot connect to the chatbot service. Please try again later."
  const DefaultDetail := "An error occurred while processing your request."

  /** One displayed message; `isError` is true only on the messages that report a failed turn. */
  datatype ChatMessage = ChatMessage(role: Backend.Role, content: string, timestamp: string, isError: bool)

  /** How the POST /chat request ended, as the HTTP client reports it. */
  datatype HttpOutcome =
    | Answered(body: Backend.ChatResponse) // a 2xx response whose JSON body was read
    | TimedOut
    | ConnectionFailed
    | StatusError(detail: Option<string>)  // a 4xx/5xx response; its "detail" field when the body has one
    | OtherException(text: string)         // any other exception, by its message

  /** The dictionary send_message returns: `success`, and `data` or `error`. */
  datatype SendResult = SendResult(success: bool, data: Option<Backend.ChatResponse>, error: Option<string>)

  /** How the GET /health probe ended. */
  datatype Probe = Responded(status: int) | RequestFailed

  /** The session-state keys. */
  datatype Key = MessagesKey | SessionIdKey | ApiAvailableKey | ErrorCountKey

  const AllKeys: set<Key> := {MessagesKey, SessionIdKey, ApiAvailableKey, ErrorCountKey}

  /** A JSON value, as `json.dumps` receives it. */
  datatype Json =
    | JNull
    | JBool(b: bool)
    | JString(str: string)
    | JArray(items: seq<Json>)
    | JObject(fields: map<string, Json>)

  /** What a reader of an exported conversation gets back from it. */
  datatype Export = Export(sessionId: Option<string>, timestamp: string, messages: seq<ChatMessage>)

  const ErrorPrefix := "\U{26A0}\U{FE0F} Error: "

  function RoleName(role: Backend.Role): string
  {
    match role
    case User => "user"
    case Assistant => "assistant"
  }

  function ReadRole(j: Json): Option<Backend.Role>
  {
    if j == JString("user") then Some(Backend.User)
    else if j == JString("assistant") then Some(Backend.Assistant)
    else None
  }

  /** Reads one message dictionary back: `is_error` counts only when it is present and true. */
  function ReadMessage(j: Json): Option<ChatMessage>
  {
    if j.JObject? && "role" in j.fields && "content" in j.fields && "timestamp" in j.fields
      && ReadRole(j.fields["role"]).Some? && j.fields["content"].JString? && j.fields["timestamp"].JString?
    then
      var isError := "is_error" in j.fields && j.fields["is_error"] == JBool(true);
      Some(ChatMessage(ReadRole(j.fields["role"]).value, j.fields["content"].str, j.fields["timestamp"].str, isError))
    else None
  }

  function ReadMessages(items: seq<Json>): Option<seq<ChatMessage>>
  {
    if items == [] then Some([])
    else
      var init := ReadMessages(items[..|items| - 1]);
      var last := ReadMessage(items[|items| - 1]);
      if init.Some? && last.Some? then Some(init.value + [last.value]) else None
  }

  /** Reads an exported conversation back: its session id (null or a string), its timestamp and its messages. */
  function ReadExport(j: Json): Option<Export>
  {
    if j.JObject? && "session_id" in j.fields && "timestamp" in j.fields && "messages" in j.fields then
      var sid := j.fields["session_id"];
      var ts := j.fields["timestamp"];
      var ms := j.fields["messages"];
      if (sid.JNull? || sid.JString?) && ts.JString? && ms.JArray? && ReadMessages(ms.items).Some? then
        Some(Export(if sid.JString? then Some(sid.str) else None, ts.str, ReadMessages(ms.items).value))
      else None
    else None
  }

  /**
   * A displayed message as the dictionary the UI stores: role, content and
   * timestamp, plus `is_error: true` on the messages that report a failed turn
   * only. Reading the dictionary back gives the message again.
   */
  function MessageJson(m: ChatMessage): (j: Json)
    ensures j.JObject?
    ensures j.fields.Keys == {"role", "content", "timestamp"} + (if m.isError then {"is_error"} else {})
    ensures ReadMessage(j) == Some(m)
  {
    var f := map["role" := JString(RoleName(m.role)), "content" := JString(m.content), "timestamp" := JString(m.timestamp)];
    JObject(if m.isError then f["is_error" := JBool(true)] else f)
  }

  /** Reading back a list of message dictionaries gives the messages, in order. */
  lemma {:induction false} ReadMessagesInverts(messages: seq<ChatMessage>)
    ensures ReadMessages(seq(|messages|, i requires 0 <= i < |messages| => MessageJson(messages[i]))) == Some(messages)
  {
    var items := seq(|messages|, i requires 0 <= i < |messages| => MessageJson(messages[i]));
    if messages != [] {
      var init := messages[..|messages| - 1];
      ReadMessagesInverts(init);
      assert items[..|items| - 1] == seq(|init|, i requires 0 <= i < |init| => MessageJson(init[i]));
      assert items[|items| - 1] == MessageJson(messages[|messages| - 1]);
      assert messages == init + [messages[|messages| - 1]];
    }
  }

  /**
   * The JSON body of POST /chat: always the message, and the session id only
   * when one is set (a non-empty string).
   */
  function Payload(message: string, sessionId: Option<string>): (p: map<string, string>)
    ensures "message" in p && p["message"] == message
    ensures "session_id" in p <==> sessionId.Some? && sessionId.value != ""
    ensures "session_id" in p ==> p["session_id"] == sessionId.value
    ensures p.Keys <= {"message", "session_id"}
  {
    var p := map["message" := message];
    if sessionId.Some? && sessionId.value != "" then p["session_id" := sessionId.value] else p
  }

  /**
   * send_message: posts the payload through `post` and collapses every outcome
   * into a result that is successful exactly when the backend answered, carries
   * the backend's reply then, and an error text otherwise.
   */
  function SendMessage(message: string, sessionId: Option<string>, post: map<string, string> -> HttpOutcome)
    : (r: SendResult)
    ensures var outcome := post(Payload(message, sessionId));
      && (r.success <==> outcome.Answered?)
      && (r.data.Some? <==> r.success)
      && (r.error.Some? <==> !r.success)
      && (outcome.Answered? ==> r.data.value == outcome.body)
      && (outcome.TimedOut? ==> r.error == Some(TimeoutText))
      && (outcome.ConnectionFailed? ==> r.error == Some(ConnectionText))
      && (outcome.StatusError? && outcome.detail.Some? ==> r.error == Some("Service error: " + outcome.detail.value))
      && (outcome.StatusError? && outcome.detail.None? ==> r.error == Some("Service error: " + DefaultDetail))
      && (outcome.OtherException? ==> r.error == Some("Unexpected error: " + outcome.text))
  {
    match post(Payload(message, sessionId))
    case Answered(body) => SendResult(true, Some(body), None)
    case TimedOut => SendResult(false, None, Some(TimeoutText))
    case ConnectionFailed => SendResult(false, None, Some(ConnectionText))
    case StatusError(detail) =>
      var d := if detail.Some? then detail.value else DefaultDetail;
      SendResult(false, None, Some("Service error: " + d))
    case OtherException(text) => SendResult(false, None, Some("Unexpected error: " + text))
  }

  /** The `session_id` field of a request body as the backend reads it: absent means None. */
  function RequestSessionId(p: map<string, string>): Option<string>
  {
    if "session_id" in p then Some(p["session_id"]) else None
  }

  /**
   * The two tiers agree on the session: the backend serves a turn under the
   * session id the UI holds when one is set, and under a fresh id otherwise.
   */
  lemma PayloadKeepsSession(message: string, sessionId: Option<string>, generated: string)
    ensures Backend.ChooseSessionId(RequestSessionId(Payload(message, sessionId)), generated)
      == if sessionId.Some? && sessionId.value != "" then sessionId.value else generated
  {
  }

  /** check_api_health: the backend is up exactly when the probe got status 200. */
  function HealthCheck(probe: Probe): bool
  {
    match probe
    case Responded(status) => status == 200
    case RequestFailed => false
  }

  /** The text of the message that reports a failed turn: the warning prefix, then the error text unchanged. */
  function ErrorContent(error: string): (c: string)
    ensures |c| == |ErrorPrefix| + |error|
    ensures c[..|ErrorPrefix|] == ErrorPrefix && c[|ErrorPrefix|..] == error
  {
    ErrorPrefix + error
  }

  /** The UI session state of one browser session. */
  class SessionState {
    /** The keys the state holds; reading a field whose key is absent is an error in the source. */
    var present: set<Key>
    var messages: seq<ChatMessage>
    var sessionId: Option<string>
    var apiAvailable: Option<bool>
    var errorCount: nat

    /** A new browser session: no key is set yet. */
    constructor ()
      ensures present == {}
    {
      present := {};
      messages := [];
      sessionId := None;
      apiAvailable := None;
      errorCount := 0;
    }

    predicate Initialized()
      reads this
    {
      AllKeys <= present
    }

    /**
     * initialize_session_state: gives every absent key its default and keeps
     * every present key's value; on an initialised state it changes nothing.
     */
    method Initialize()
      modifies this
      ensures present == old(present) + AllKeys
      ensures messages == if MessagesKey in old(present) then old(messages) else []
      ensures sessionId == if SessionIdKey in old(present) then old(sessionId) else None
      ensures apiAvailable == if ApiAvailableKey in old(present) then old(apiAvailable) else None
      ensures errorCount == if ErrorCountKey in old(present) then old(errorCount) else 0
      ensures old(Initialized()) ==> unchanged(this)
    {
      if MessagesKey !in present {
        messages := [];
        present := present + {MessagesKey};
      }
      if SessionIdKey !in present {
        sessionId := None;
        present := present + {SessionIdKey};
      }
      if ApiAvailableKey !in present {
        apiAvailable := None;
        present := present + {ApiAvailableKey};
      }
      if ErrorCountKey !in present {
        errorCount := 0;
        present := present + {ErrorCountKey};
      }
    }

    /** clear_conversation: forgets the messages, the session and the failures, not the API status. */
    method ClearConversation()
      modifies this
      ensures messages == [] && sessionId == None && errorCount == 0
      ensures apiAvailable == old(apiAvailable)
      ensures present == old(present) + {MessagesKey, SessionIdKey, ErrorCountKey}
    {
      messages := [];
      sessionId := None;
      errorCount := 0;
      present := present + {MessagesKey, SessionIdKey, ErrorCountKey};
    }

    /** The health check of main(): it probes the backend only while the API status is unknown. */
    method CheckHealthOnLoad(probe: Probe)
      requires Initialized()
      modifies this
      ensures Initialized()
      ensures apiAvailable == if old(apiAvailable).None? then Some(probe.Responded? && probe.status == 200) else old(apiAvailable)
      ensures messages == old(messages) && sessionId == old(sessionId) && errorCount == old(errorCount)
    {
      if apiAvailable.None? {
        apiAvailable := Some(HealthCheck(probe));
      }
    }

    /**
     * One chat turn of render_chat_interface for the submitted `prompt` (empty
     * when nothing was submitted). The user's message is appended, then the
     * backend's answer, or a message flagged as an error. Success resets the
     * failure count and adopts the backend's session id; failure increments
     * the count and keeps the session id. `warned` tells whether the
     * multiple-errors warning is shown. `now` and `later` are the clock's
     * readings before and after the request.
     */
    method Turn(prompt: string, now: string, later: string, post: map<string, string> -> HttpOutcome)
      returns (warned: bool)
      requires Initialized()
      modifies this
      ensures Initialized() && apiAvailable == old(apiAvailable)
      ensures prompt == "" ==> unchanged(this) && !warned
      ensures prompt != "" ==>
        var result := SendMessage(prompt, old(sessionId), post);
        && |messages| == |old(messages)| + 2
        && messages[..|old(messages)|] == old(messages)
        && messages[|old(messages)|] == ChatMessage(Backend.User, prompt, now, false)
        && (result.success ==>
              && errorCount == 0
              && sessionId == Some(result.data.value.sessionId)
              && messages[|old(messages)| + 1] == ChatMessage(Backend.Assistant, result.data.value.response, later, false)
              && !warned)
        && (!result.success ==>
              && errorCount == old(errorCount) + 1
              && sessionId == old(sessionId)
              && messages[|old(messages)| + 1] == ChatMessage(Backend.Assistant, ErrorContent(result.error.value), later, true)
              && (warned <==> errorCount >= WarningThreshold))
    {
      warned := false;
      if prompt == "" {
        return;
      }
      messages := messages + [ChatMessage(Backend.User, prompt, now, false)];
      var result := SendMessage(prompt, sessionId, post);
      if result.success {
        errorCount := 0;
        var reply := result.data.value;
        sessionId := Some(reply.sessionId);
        messages := messages + [ChatMessage(Backend.Assistant, reply.response, later, false)];
      } else {
        errorCount := errorCount + 1;
        warned := errorCount >= WarningThreshold;
        messages := messages + [ChatMessage(Backend.Assistant, ErrorContent(result.error.value), later, true)];
      }
    }

    /**
     * export_conversation: a JSON object with exactly the keys `session_id`
     * (null before the first answer), `timestamp` and `messages`; reading it
     * back gives the session id, the export time and every message, in order.
     */
    function ExportConversation(now: string): (j: Json)
      reads this
      ensures j.JObject? && j.fields.Keys == {"session_id", "timestamp", "messages"}
      ensures j.fields["session_id"] == if sessionId.Some? then JString(sessionId.value) else JNull
      ensures j.fields["messages"].JArray? && |j.fields["messages"].items| == |messages|
      ensures ReadExport(j) == Some(Export(sessionId, now, messages))
    {
      var ms := messages;
      var items := seq(|ms|, i requires 0 <= i < |ms| => MessageJson(ms[i]));
      ReadMessagesInverts(ms);
      JObject(map[
        "session_id" := if sessionId.Some? then JString(sessionId.value) else JNull,
        "timestamp" := JString(now),
        "messages" := JArray(items)])
    }
  }
}

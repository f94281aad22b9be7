/** The session memory of main.py: a table from session key to the conversation so far
    (main.py:23), and `process_query` (main.py:92-125), which registers the key, appends the
    user message, asks the upstream service, appends the reply and keeps the last ten
    messages. `Turn` is the specification of one call; `SessionStore.ProcessQuery` performs
    it step by step on the table. */
module SessionMemory {
  import opened Chat
  import opened GroqClient

  /** How many messages a session keeps after a successful call (main.py:115-116). */
  const MaxHistory: nat := 10

  /** `messages[-10:]` when there are more than ten messages, else the list unchanged. */
  function Trim(s: seq<Message>): seq<Message>
  {
    if |s| > MaxHistory then s[|s| - MaxHistory..] else s
  }

  /** Trimming keeps the newest `MaxHistory` messages (all of them if there are fewer), in
      their original order. */
  lemma {:induction false} TrimKeepsNewest(s: seq<Message>)
    ensures |Trim(s)| == if |s| > MaxHistory then MaxHistory else |s|
    ensures forall i :: 0 <= i < |Trim(s)| ==> Trim(s)[i] == s[|s| - |Trim(s)| + i]
  {
    var n := |s| - |Trim(s)|;
    assert Trim(s) == s[n..];
  }

  /** Trimming after a reply keeps the message it answers and the reply as the last two. */
  lemma {:induction false} TrimKeepsLatestExchange(history: seq<Message>, reply: Message)
    requires |history| > 0
    ensures var s := Trim(history + [reply]);
            && 2 <= |s| <= MaxHistory
            && s[|s| - 2] == history[|history| - 1]
            && s[|s| - 1] == reply
  {
    var full := history + [reply];
    var s := Trim(full);
    assert s[|s| - 2] == full[|full| - 2] && s[|s| - 1] == full[|full| - 1];
  }

  /** The session of `key`, or the empty list that `process_query` registers for a new key. */
  function SessionOf(sessions: map<string, seq<Message>>, key: string): seq<Message>
  {
    if key in sessions then sessions[key] else []
  }

  /** Every session holds at most `MaxHistory` messages. */
  ghost predicate Bounded(sessions: map<string, seq<Message>>)
  {
    forall k :: k in sessions ==> |sessions[k]| <= MaxHistory
  }

  /** The table after a call, and what the caller receives. */
  datatype TurnResult = TurnResult(sessions: map<string, seq<Message>>, reply: Result<string, CallError>)

  /** The session after a call whose result was `reply`, given the `history` posted
      upstream (the session with the user message appended): on failure the history as it
      is, on success the history with the reply appended, trimmed. */
  function Recorded(history: seq<Message>, reply: Result<string, CallError>): seq<Message>
  {
    if reply.Err? then history else Trim(history + [Message(Assistant, reply.value)])
  }

  /** One call of `process_query(key, message)` against an upstream that answers with
      `outcome`, starting from the table `sessions`. */
  function Turn(sessions: map<string, seq<Message>>, key: string, message: string,
                apiKey: Option<string>, outcome: Outcome): (t: TurnResult)
    // the key is registered, also when the call fails; no other key is added or changed
    ensures t.sessions.Keys == sessions.Keys + {key}
    ensures forall k :: k in sessions && k != key ==> t.sessions[k] == sessions[k]
    // the result of the upstream call is passed on unchanged
    ensures t.reply == CallGroqApi(apiKey, outcome)
  {
    var history := SessionOf(sessions, key) + [Message(User, message)];
    var reply := CallGroqApi(apiKey, outcome);
    TurnResult(sessions[key := Recorded(history, reply)], reply)
  }

  /** The history `process_query` hands to `call_groq_api` is the session with the user
      message appended: with a key present the request posted is the system prompt, the
      earlier messages in order, and the user message last. */
  lemma {:induction false} PostedHistory(sessions: map<string, seq<Message>>, key: string, message: string,
                                         apiKey: Option<string>)
    requires Present(apiKey)
    ensures var prior := SessionOf(sessions, key);
            var r := Request(apiKey, prior + [Message(User, message)]);
            && r.Some?
            && |r.value| == |prior| + 2
            && r.value[0] == SystemMessage
            && (forall i :: 0 <= i < |prior| ==> r.value[i + 1] == prior[i])
            && r.value[|r.value| - 1] == Message(User, message)
  {
    var prior := SessionOf(sessions, key);
    var history := prior + [Message(User, message)];
    FullMessagesLayout(history);
    var r := FullMessages(history);
    assert r == [SystemMessage] + history;
    assert forall i :: 0 <= i < |prior| ==> history[i] == prior[i];
  }

  /** A failed call raises the error it met and leaves the user message in the session,
      with no reply and no trimming: the session grows by exactly one message. */
  lemma {:induction false} TurnFails(sessions: map<string, seq<Message>>, key: string, message: string,
                  apiKey: Option<string>, outcome: Outcome)
    requires !Present(apiKey) || outcome.Failed?
    ensures var t := Turn(sessions, key, message, apiKey, outcome);
            && t.reply == Err(if Present(apiKey) then Upstream(outcome.failure) else MissingApiKey)
            && t.sessions[key] == SessionOf(sessions, key) + [Message(User, message)]
            && |t.sessions[key]| == |SessionOf(sessions, key)| + 1
  {
  }

  /** A successful call returns the upstream content and leaves the session trimmed to at
      most `MaxHistory` messages, ending with the user message and the reply. */
  lemma {:induction false} TurnSucceeds(sessions: map<string, seq<Message>>, key: string, message: string,
                                        apiKey: Option<string>, content: string)
    requires Present(apiKey)
    ensures var t := Turn(sessions, key, message, apiKey, Completed(content));
            var s := t.sessions[key];
            && t.reply == Ok(content)
            && s == Trim(SessionOf(sessions, key) + [Message(User, message)] + [Message(Assistant, content)])
            && 2 <= |s| <= MaxHistory
            && s[|s| - 2] == Message(User, message)
            && s[|s| - 1] == Message(Assistant, content)
  {
    var history := SessionOf(sessions, key) + [Message(User, message)];
    TrimKeepsLatestExchange(history, Message(Assistant, content));
  }

  /** The session memory, updated in place by each query. */
  class SessionStore {
    var sessions: map<string, seq<Message>>

    /** The store starts empty when the process starts. */
    constructor ()
      ensures sessions == map[]
    {
      sessions := map[];
    }

    /** `len(session_memory)`: the number of registered session keys. */
    function ActiveSessions(): (n: nat)
      reads this
      ensures n == |sessions.Keys|
    {
      |sessions|
    }

    /** `process_query(sessionId, message)`, with the upstream answer given as `outcome`.
        Returns the reply (or the error raised) and the message list that was posted. */
    method ProcessQuery(sessionId: string, message: string, apiKey: Option<string>, outcome: Outcome)
      returns (reply: Result<string, CallError>, sent: Option<seq<Message>>)
      modifies this
      ensures sent == Request(apiKey, SessionOf(old(sessions), sessionId) + [Message(User, message)])
      ensures reply == CallGroqApi(apiKey, outcome)
      ensures sessions == old(sessions)[sessionId := Recorded(SessionOf(old(sessions), sessionId) + [Message(User, message)], reply)]
    {
      ghost var history := SessionOf(sessions, sessionId) + [Message(User, message)];
      if sessionId !in sessions {
        sessions := sessions[sessionId := []];
      }
      sessions := sessions[sessionId := sessions[sessionId] + [Message(User, message)]];
      assert sessions == old(sessions)[sessionId := history];
      sent := Request(apiKey, sessions[sessionId]);
      reply := CallGroqApi(apiKey, outcome);
      if reply.Err? {
        assert history == Recorded(history, reply);
        return;
      }
      var session := sessions[sessionId] + [Message(Assistant, reply.value)];
      sessions := sessions[sessionId := session];
      if |session| > MaxHistory {
        sessions := sessions[sessionId := session[|session| - MaxHistory..]];
      }
      assert sessions == old(sessions)[sessionId := Trim(session)];
    }
  }

  /** Replacing one session by a list within the bound keeps the table bounded. */
  lemma {:induction false} BoundedUpdate(sessions: map<string, seq<Message>>, key: string, s: seq<Message>)
    requires Bounded(sessions) && |s| <= MaxHistory
    ensures Bounded(sessions[key := s])
  {
  }

  /** Successful calls keep every session within `MaxHistory`. */
  lemma {:induction false} SuccessKeepsBounded(sessions: map<string, seq<Message>>, key: string, message: string,
                            apiKey: Option<string>, content: string)
    requires Bounded(sessions) && Present(apiKey)
    ensures Bounded(Turn(sessions, key, message, apiKey, Completed(content)).sessions)
  {
    TurnSucceeds(sessions, key, message, apiKey, content);
    var t := Turn(sessions, key, message, apiKey, Completed(content));
    BoundedUpdate(sessions, key, t.sessions[key]);
    assert t.sessions == sessions[key := t.sessions[key]];
  }

  /** A failed call does not trim: any full session grows past `MaxHistory`, so the table
      is no longer bounded. */
  lemma {:induction false} FailureExceedsBound(sessions: map<string, seq<Message>>, key: string, message: string,
                                               apiKey: Option<string>, outcome: Outcome)
    requires |SessionOf(sessions, key)| == MaxHistory
    requires !Present(apiKey) || outcome.Failed?
    ensures var t := Turn(sessions, key, message, apiKey, outcome);
            && |t.sessions[key]| == MaxHistory + 1
            && !Bounded(t.sessions)
  {
    TurnFails(sessions, key, message, apiKey, outcome);
    var t := Turn(sessions, key, message, apiKey, outcome);
    assert key in t.sessions && |t.sessions[key]| > MaxHistory;
  }

  /** The first exchange of a new session: the reply is the upstream content and the
      session holds exactly the two messages. */
  lemma {:induction false} FirstExchange(key: string, message: string, apiKey: Option<string>, content: string)
    requires Present(apiKey)
    ensures var t := Turn(map[], key, message, apiKey, Completed(content));
            && t.reply == Ok(content)
            && t.sessions == map[key := [Message(User, message), Message(Assistant, content)]]
  {
    var u, a := Message(User, message), Message(Assistant, content);
    assert SessionOf(map[], key) + [u] == [u];
    assert Trim([u] + [a]) == [u, a];
  }
}

/** The two query endpoints and the session counter of main.py (main.py:127-135, 272-275),
    and what a sequence of requests, served one after another, does to the session memory. */
module Gateway {
  import opened Chat
  import opened GroqClient
  import opened SessionMemory

  /** The key used when the caller names none, and always by `/simple-query`. */
  const DefaultSession: string := "default"

  /** A request body: `/query` with an optional `session_id`, or `/simple-query`. */
  datatype QueryRequest = Query(sessionId: Option<string>, message: string) | SimpleQuery(message: string)

  /** The session key a request is served under (main.py:26, 130, 135). */
  function SessionKey(request: QueryRequest): (key: string)
    ensures request.SimpleQuery? ==> key == DefaultSession
    ensures request.Query? ==> key == (if request.sessionId.Some? then request.sessionId.value else DefaultSession)
  {
    match request
    case Query(Some(id), _) => id
    case Query(None, _) => DefaultSession
    case SimpleQuery(_) => DefaultSession
  }

  /** What the caller of an endpoint receives: the reply, or the `detail` of the HTTP error
      (status 500 for every error) raised in its place. */
  function Response(reply: Result<string, CallError>): (r: Result<string, string>)
    ensures r.Ok? <==> reply.Ok?
    ensures r.Ok? ==> r.value == reply.value
    ensures r.Err? ==> Classify(r.error) == Some(reply.error)
  {
    match reply
    case Ok(text) => Ok(text)
    case Err(e) =>
      DetailRoundTrip(e);
      Err(Detail(e))
  }

  /** `POST /query`: `process_query` under the caller's key, `"default"` when absent. */
  method QueryEndpoint(store: SessionStore, sessionId: Option<string>, message: string,
                       apiKey: Option<string>, outcome: Outcome)
    returns (response: Result<string, string>, sent: Option<seq<Message>>)
    modifies store
    ensures var key := SessionKey(Query(sessionId, message));
            && store.sessions == Turn(old(store.sessions), key, message, apiKey, outcome).sessions
            && response == Response(CallGroqApi(apiKey, outcome))
            && sent == Request(apiKey, SessionOf(old(store.sessions), key) + [Message(User, message)])
  {
    var key := SessionKey(Query(sessionId, message));
    var reply;
    reply, sent := store.ProcessQuery(key, message, apiKey, outcome);
    response := Response(reply);
  }

  /** `POST /simple-query`: `process_query` under the key `"default"`. */
  method SimpleQueryEndpoint(store: SessionStore, message: string, apiKey: Option<string>, outcome: Outcome)
    returns (response: Result<string, string>, sent: Option<seq<Message>>)
    modifies store
    ensures store.sessions == Turn(old(store.sessions), DefaultSession, message, apiKey, outcome).sessions
    ensures response == Response(CallGroqApi(apiKey, outcome))
    ensures sent == Request(apiKey, SessionOf(old(store.sessions), DefaultSession) + [Message(User, message)])
  {
    var reply;
    reply, sent := store.ProcessQuery(DefaultSession, message, apiKey, outcome);
    response := Response(reply);
  }

  /** One served request: its body, the API key in the environment at that moment, and
      how the upstream service answered. */
  datatype Exchange = Exchange(request: QueryRequest, apiKey: Option<string>, outcome: Outcome)

  /** The session memory after serving `e`. */
  function Serve(sessions: map<string, seq<Message>>, e: Exchange): (r: map<string, seq<Message>>)
    ensures r.Keys == sessions.Keys + {SessionKey(e.request)}
  {
    Turn(sessions, SessionKey(e.request), e.request.message, e.apiKey, e.outcome).sessions
  }

  /** The session memory after serving `exchanges` in order, starting from `sessions`. */
  function Replay(sessions: map<string, seq<Message>>, exchanges: seq<Exchange>): map<string, seq<Message>>
    decreases |exchanges|
  {
    if exchanges == [] then sessions else Replay(Serve(sessions, exchanges[0]), exchanges[1..])
  }

  /** The keys the requests are served under. */
  function KeysOf(exchanges: seq<Exchange>): (keys: set<string>)
    ensures forall i :: 0 <= i < |exchanges| ==> SessionKey(exchanges[i].request) in keys
  {
    if exchanges == [] then {} else {SessionKey(exchanges[0].request)} + KeysOf(exchanges[1..])
  }

  /** Serving requests registers exactly their keys and never removes one. */
  lemma {:induction false} ReplayKeys(sessions: map<string, seq<Message>>, exchanges: seq<Exchange>)
    ensures Replay(sessions, exchanges).Keys == sessions.Keys + KeysOf(exchanges)
    decreases |exchanges|
  {
    if exchanges != [] {
      ReplayKeys(Serve(sessions, exchanges[0]), exchanges[1..]);
    }
  }

  /** `GET /sessions` after serving `exchanges` from a fresh process reports the number of
      distinct keys they used, however many messages each session holds. */
  lemma {:induction false} ActiveSessionsCount(exchanges: seq<Exchange>)
    ensures |Replay(map[], exchanges)| == |KeysOf(exchanges)|
  {
    ReplayKeys(map[], exchanges);
    assert Replay(map[], exchanges).Keys == KeysOf(exchanges);
  }

  /** Any `/simple-query`, or a `/query` without a session id, registers `"default"`. */
  lemma {:induction false} DefaultRegistered(sessions: map<string, seq<Message>>, exchanges: seq<Exchange>, i: nat)
    requires i < |exchanges|
    requires exchanges[i].request.SimpleQuery? || exchanges[i].request.sessionId.None?
    ensures DefaultSession in Replay(sessions, exchanges)
  {
    ReplayKeys(sessions, exchanges);
    assert SessionKey(exchanges[i].request) in KeysOf(exchanges);
  }

  /** The call in `e` fails: no key in the environment, or the upstream request failed. */
  predicate Fails(e: Exchange)
  {
    !Present(e.apiKey) || e.outcome.Failed?
  }

  /** The user messages of `exchanges`, in order. */
  function UserMessages(exchanges: seq<Exchange>): (r: seq<Message>)
    ensures |r| == |exchanges|
  {
    if exchanges == [] then [] else [Message(User, exchanges[0].request.message)] + UserMessages(exchanges[1..])
  }

  /** A failed call leaves its key's session with the user message appended. */
  lemma {:induction false} FailedServe(sessions: map<string, seq<Message>>, e: Exchange)
    requires Fails(e)
    ensures SessionOf(Serve(sessions, e), SessionKey(e.request))
         == SessionOf(sessions, SessionKey(e.request)) + [Message(User, e.request.message)]
  {
  }

  /** The remaining requests all fail under `key` when all of them did. */
  lemma {:induction false} RestFail(key: string, exchanges: seq<Exchange>)
    requires forall i :: 0 <= i < |exchanges| ==> SessionKey(exchanges[i].request) == key && Fails(exchanges[i])
    requires exchanges != []
    ensures forall i :: 0 <= i < |exchanges[1..]| ==> SessionKey(exchanges[1..][i].request) == key && Fails(exchanges[1..][i])
  {
    forall i | 0 <= i < |exchanges[1..]|
      ensures SessionKey(exchanges[1..][i].request) == key && Fails(exchanges[1..][i])
    {
      assert exchanges[1..][i] == exchanges[i + 1];
    }
  }

  /** Appending the first failed request's message, then the rest's, appends them all. */
  lemma {:induction false} AppendUserMessages(prior: seq<Message>, exchanges: seq<Exchange>)
    requires exchanges != []
    ensures (prior + [Message(User, exchanges[0].request.message)]) + UserMessages(exchanges[1..])
         == prior + UserMessages(exchanges)
  {
    var u := [Message(User, exchanges[0].request.message)];
    assert UserMessages(exchanges) == u + UserMessages(exchanges[1..]);
    assert (prior + u) + UserMessages(exchanges[1..]) == prior + (u + UserMessages(exchanges[1..]));
  }

  /** Failed calls are never trimmed: each one leaves its user message behind, in order,
      so a session that keeps failing grows without bound. */
  lemma {:induction false} FailuresAccumulate(sessions: map<string, seq<Message>>, key: string, exchanges: seq<Exchange>)
    requires forall i :: 0 <= i < |exchanges| ==> SessionKey(exchanges[i].request) == key && Fails(exchanges[i])
    ensures SessionOf(Replay(sessions, exchanges), key) == SessionOf(sessions, key) + UserMessages(exchanges)
    decreases |exchanges|
  {
    if exchanges == [] {
      assert SessionOf(sessions, key) + [] == SessionOf(sessions, key);
    } else {
      var e := exchanges[0];
      assert SessionKey(e.request) == key && Fails(e);
      FailedServe(sessions, e);
      RestFail(key, exchanges);
      FailuresAccumulate(Serve(sessions, e), key, exchanges[1..]);
      AppendUserMessages(SessionOf(sessions, key), exchanges);
    }
  }

  /** The call in `e` succeeds: a key is present and the upstream request completed. */
  predicate Succeeds(e: Exchange)
  {
    Present(e.apiKey) && e.outcome.Completed?
  }

  /** As long as every call succeeds, every session stays within `MaxHistory`. */
  lemma {:induction false} SuccessesStayBounded(sessions: map<string, seq<Message>>, exchanges: seq<Exchange>)
    requires Bounded(sessions)
    requires forall i :: 0 <= i < |exchanges| ==> Succeeds(exchanges[i])
    ensures Bounded(Replay(sessions, exchanges))
    decreases |exchanges|
  {
    if exchanges != [] {
      var e := exchanges[0];
      assert Succeeds(exchanges[0]);
      assert e.outcome == Completed(e.outcome.content);
      SuccessKeepsBounded(sessions, SessionKey(e.request), e.request.message, e.apiKey, e.outcome.content);
      var next := Serve(sessions, e);
      forall i | 0 <= i < |exchanges[1..]|
        ensures Succeeds(exchanges[1..][i])
      {
        assert exchanges[1..][i] == exchanges[i + 1];
      }
      SuccessesStayBounded(next, exchanges[1..]);
    }
  }

  /** After a successful first call under a key, the next request under it posts the system
      prompt, the first exchange and the new user message, four entries in all. */
  lemma {:induction false} SecondTurnSeesHistory(key: string, m1: string, c1: string, m2: string, apiKey: Option<string>)
    requires Present(apiKey)
    ensures var first := Turn(map[], key, m1, apiKey, Completed(c1));
            Request(apiKey, SessionOf(first.sessions, key) + [Message(User, m2)])
              == Some([SystemMessage, Message(User, m1), Message(Assistant, c1), Message(User, m2)])
  {
    FirstExchange(key, m1, apiKey, c1);
    var first := Turn(map[], key, m1, apiKey, Completed(c1));
    var history := [Message(User, m1), Message(Assistant, c1)] + [Message(User, m2)];
    assert SessionOf(first.sessions, key) + [Message(User, m2)] == history;
    assert FullMessages(history) == [SystemMessage, Message(User, m1), Message(Assistant, c1), Message(User, m2)];
  }
}

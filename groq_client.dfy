/** The deterministic part of `call_groq_api` (main.py:49-90): the API-key check that comes
    before any request, the message list sent upstream, and the mapping of every failure to
    the `detail` string of the error raised. The HTTP exchange itself is an input: the
    `Outcome` of posting the request. */
module GroqClient {
  import opened Chat

  /** The persona instruction sent as the first message of every request (main.py:58). */
  const SystemPrompt: string :=
    "You are a financial AI assistant. Provide accurate, helpful information about stock markets, investments, and financial news. Keep responses concise and relevant."

  const SystemMessage: Message := Message(System, SystemPrompt)

  const MissingKeyDetail: string := "GROQ_API_KEY not found in environment"
  const ConnectDetail: string := "Failed to connect to Groq API"
  const StatusPrefix: string := "Groq API error: "
  const InternalDetail: string := "Internal server error"

  /** How posting the request can fail: the endpoint cannot be reached, it answers with a
      non-success status (carrying the response body), or anything else goes wrong (a reply
      without `choices[0].message.content`, say). */
  datatype Failure = RequestError | HttpStatusError(body: string) | OtherError

  /** What posting one request yields: the first choice's content, or a failure. */
  datatype Outcome = Completed(content: string) | Failed(failure: Failure)

  /** Every error `call_groq_api` raises. */
  datatype CallError = MissingApiKey | Upstream(failure: Failure)

  /** `[system_message] + messages`. */
  function FullMessages(history: seq<Message>): seq<Message>
  {
    [SystemMessage] + history
  }

  /** The posted list is the system prompt followed by the whole history, in order, and
      nothing else. */
  lemma {:induction false} FullMessagesLayout(history: seq<Message>)
    ensures |FullMessages(history)| == |history| + 1
    ensures FullMessages(history)[0] == SystemMessage
    ensures forall i :: 0 <= i < |history| ==> FullMessages(history)[i + 1] == history[i]
  {
  }

  /** The `detail` of the exception raised for each error (main.py:53, 83, 87, 90). */
  function Detail(e: CallError): string
  {
    match e
    case MissingApiKey => MissingKeyDetail
    case Upstream(RequestError) => ConnectDetail
    case Upstream(HttpStatusError(body)) => StatusPrefix + body
    case Upstream(OtherError) => InternalDetail
  }

  /** Reads a `detail` string back as the error that produced it. */
  function Classify(detail: string): Option<CallError>
  {
    if detail == MissingKeyDetail then Some(MissingApiKey)
    else if detail == ConnectDetail then Some(Upstream(RequestError))
    else if detail == InternalDetail then Some(Upstream(OtherError))
    else if |StatusPrefix| <= |detail| && detail[..|StatusPrefix|] == StatusPrefix then
      Some(Upstream(HttpStatusError(detail[|StatusPrefix|..])))
    else None
  }

  /** Every error is recovered from its detail string, so the four kinds (and two status
      failures with different bodies) never report the same detail. */
  lemma {:induction false} DetailRoundTrip(e: CallError)
    ensures Classify(Detail(e)) == Some(e)
  {
    match e
    case MissingApiKey =>
    case Upstream(RequestError) =>
      assert MissingKeyDetail[0] != ConnectDetail[0];
    case Upstream(OtherError) =>
      assert MissingKeyDetail[0] != InternalDetail[0];
      assert ConnectDetail[0] != InternalDetail[0];
    case Upstream(HttpStatusError(body)) =>
      var d := StatusPrefix + body;
      assert d[1] == 'r' && MissingKeyDetail[1] == 'R';
      assert d[0] == 'G' && ConnectDetail[0] == 'F' && InternalDetail[0] == 'I';
      assert d[..|StatusPrefix|] == StatusPrefix;
      assert d[|StatusPrefix|..] == body;
  }

  lemma {:induction false} DetailsDistinct(e1: CallError, e2: CallError)
    ensures Detail(e1) == Detail(e2) <==> e1 == e2
  {
    DetailRoundTrip(e1);
    DetailRoundTrip(e2);
  }

  /** The message list `call_groq_api(history)` posts: none without an API key (the error
      is raised before a request is built), otherwise the system prompt and the history. */
  function Request(apiKey: Option<string>, history: seq<Message>): (r: Option<seq<Message>>)
    ensures r.None? <==> !Present(apiKey)
    ensures r.Some? ==> r.value == FullMessages(history)
  {
    if Present(apiKey) then Some(FullMessages(history)) else None
  }

  /** What `call_groq_api` returns or raises against an upstream that answers with
      `outcome`: the missing key is reported whatever the upstream would have said;
      otherwise the first choice's content, or the upstream failure. */
  function CallGroqApi(apiKey: Option<string>, outcome: Outcome): (r: Result<string, CallError>)
    ensures !Present(apiKey) ==> r == Err(MissingApiKey)
    ensures Present(apiKey) ==> (r.Ok? <==> outcome.Completed?)
    ensures r.Ok? ==> r.value == outcome.content
    ensures r.Err? && Present(apiKey) ==> r.error == Upstream(outcome.failure)
  {
    if !Present(apiKey) then Err(MissingApiKey)
    else
      match outcome
      case Completed(content) => Ok(content)
      case Failed(failure) => Err(Upstream(failure))
  }
}

# Financial AI Assistant: session memory and the chat-completion call

The server in `main.py` answers finance questions by forwarding them to a hosted
chat-completion service (Groq). It remembers each conversation in an in-process table,
`session_memory`, which maps a session key to the list of `{role, content}` messages
exchanged so far. This model covers the part of the server with logic in it:

- `call_groq_api`:
  - It checks for the API key before doing anything else.
  - It builds the posted message list: the fixed financial-assistant system prompt
    followed by the conversation.
  - It maps every failure to the `detail` string of the HTTP 500 error it raises.
- `process_query`:
  - It registers a new session key with an empty list.
  - It appends the user message and asks the service.
  - It appends the reply, then keeps only the last ten messages.
- The two endpoints that choose the session key:
  - `/query` uses the caller's `session_id`, `"default"` when absent.
  - `/simple-query` always uses `"default"`.
- `/sessions`, which reports how many keys are registered.

The model has four modules:

- `Chat` (`chat.dfy`): messages, roles, and `Present`, the negation of Python's `not api_key`
  (both `None` and `""` count as missing).
- `GroqClient` (`groq_client.dfy`):
  - `Request`: what is posted.
  - `CallGroqApi`: what the call returns or raises.
  - `Detail`: the detail string of each error, together with `Classify`, its left inverse.

  The HTTP exchange itself is the `Outcome` input. It is either the first choice's
  content, or a failure: the service cannot be reached, it answers with an error status
  and body, or anything else goes wrong.
- `SessionMemory` (`session_memory.dfy`):
  - `Turn` is the specification of one `process_query` call on the table.
  - The class `SessionStore` holds the table as a `map` field. Its `ProcessQuery` method
    updates the table in place, step by step, as the source does, and is proved to leave
    it as `Turn` says.
- `Gateway` (`gateway.dfy`):
  - the two endpoints;
  - the error detail a caller receives;
  - `Replay`, which serves a sequence of requests one after another. The lemmas about
    many requests are stated with it: which keys exist, the session count, failures
    accumulating, and successes staying bounded.

## Model

| member | source | states |
|---|---|---|
| Chat.Present | main.py:51-53 | the negation of `not api_key`: `None` and `""` count as missing; see Request and CallGroqApi |
| GroqClient.FullMessages | main.py:61 | `[system_message] + messages`; its layout is stated by FullMessagesLayout |
| GroqClient.FullMessagesLayout | main.py:56-61 | the posted list is the system prompt followed by the whole history in order, one longer than the history |
| GroqClient.Request | main.py:51-61 | nothing is posted exactly when the API key is missing or empty; otherwise the system prompt followed by the history is posted |
| GroqClient.CallGroqApi | main.py:49-90 | a missing key raises the missing-key error whatever the service would answer; with a key, the call succeeds exactly when the service completes, returns its content unchanged, and otherwise raises the service's failure |
| GroqClient.Detail | main.py:52-90 | the detail string raised for each error (main.py:53, 83, 87, 90); see DetailRoundTrip and DetailsDistinct |
| GroqClient.DetailRoundTrip | main.py:52-90 | every raised error can be recovered from its detail string ("GROQ_API_KEY not found in environment", "Failed to connect to Groq API", "Groq API error: " + body, "Internal server error"), including the status body |
| GroqClient.DetailsDistinct | main.py:81-90 | two errors report the same detail if and only if they are the same error |
| SessionMemory.Trim | main.py:114-116 | `messages[-10:]` when longer than ten, else unchanged; see TrimKeepsNewest and TrimKeepsLatestExchange |
| SessionMemory.TrimKeepsNewest | main.py:114-116 | `[-10:]` after the length test keeps min(length, 10) messages, the newest ones, in their original order |
| SessionMemory.TrimKeepsLatestExchange | main.py:109-116 | trimming a non-empty history with the reply appended leaves 2 to 10 messages, the last two being the history's last message and the reply |
| SessionMemory.Recorded | main.py:106-116 | the session after the call: the history alone when the call raised, else the history with the reply appended and trimmed; see TurnFails and TurnSucceeds |
| SessionMemory.Turn | main.py:92-122 | a call registers its key (also when it fails), changes no other key's session and adds no other key, and passes the upstream result on unchanged |
| SessionMemory.PostedHistory | main.py:99-106 | with a key present, the request is the system prompt, the earlier session messages in order, and the user message last; it is two longer than the earlier session |
| SessionMemory.TurnFails | main.py:94-122 | a failed call (no key, or a failing upstream) raises that error and leaves the session as before plus the user message: one longer, no reply, no trimming |
| SessionMemory.TurnSucceeds | main.py:106-119 | a successful call returns the upstream content; the session becomes the trimmed history with user message and reply, holds 2 to 10 messages, and ends with the user message then the reply |
| SessionMemory.SessionStore.constructor | main.py:23 | the table starts empty |
| SessionMemory.SessionStore.ActiveSessions | main.py:272-275 | the reported count is the number of registered keys |
| SessionMemory.SessionStore.ProcessQuery | main.py:92-122 | the in-place steps (register, append user message, call, append reply, trim) leave the table as the specification `Turn` gives; what is posted and what is returned are the `Request` and `CallGroqApi` of the history with the user message |
| SessionMemory.SuccessKeepsBounded | main.py:114-116 | a successful call keeps every session within ten messages |
| SessionMemory.FailureExceedsBound | main.py:99-106 | a failed call on any session holding ten messages leaves eleven, so the table is no longer bounded: the bound holds only across successful calls |
| SessionMemory.FirstExchange | main.py:95-116 | the first successful call on a fresh table leaves exactly one session, holding the user message and the reply |
| Gateway.SessionKey | main.py:127-135 | `/simple-query` always uses "default"; `/query` uses the given session id, "default" when none is given |
| Gateway.Response | main.py:81-90 | the caller gets the reply exactly when the call succeeded; otherwise it gets a detail string from which the error is recovered |
| Gateway.QueryEndpoint | main.py:127-130 | `/query` updates the table, posts and answers as one call under the key `SessionKey` chooses |
| Gateway.SimpleQueryEndpoint | main.py:132-135 | `/simple-query` updates the table, posts and answers as one call under "default" |
| Gateway.Serve | main.py:127-135 | serving a request adds exactly its session key to the table's keys |
| Gateway.ReplayKeys | main.py:95-97 | after serving requests in order, the keys are the original keys plus exactly the keys the requests used; no key is ever removed |
| Gateway.ActiveSessionsCount | main.py:272-275 | from a fresh process, the session count equals the number of distinct keys the requests used |
| Gateway.DefaultRegistered | main.py:132-135 | any `/simple-query`, or `/query` without a session id, leaves "default" registered |
| Gateway.FailedServe | main.py:99-106 | a failed request appends exactly its user message to its session |
| Gateway.FailuresAccumulate | main.py:99-116 | a run of failed requests under one key appends all their user messages in order, never trimming |
| Gateway.SuccessesStayBounded | main.py:114-116 | as long as every request succeeds, every session stays within ten messages |
| Gateway.SecondTurnSeesHistory | main.py:99-112 | the second request in a session posts the system prompt, the first question, its answer and the new question |

## Left out

- The HTTP exchange with the service is not modelled: the httpx POST, its 30-second
  timeout, the bearer header, the model name, temperature, `max_tokens` and JSON
  decoding. It is replaced by the `Outcome` input. The model therefore does not capture
  that the answer depends on the posted messages.
- `CallGroqApi`: any value the service returns at `choices[0].message.content` is taken
  to be a string.
- `process_query`'s catch-all "Failed to process query" error is not modelled. It is
  reached only when a non-string content fails response validation.
- The environment variable `GROQ_API_KEY` becomes a parameter; `.env` loading is left out.
- Not modelled:
  - FastAPI routing and request validation. For example, a `null` `session_id` is
    rejected before `process_query` runs.
  - Status codes: every error is a 500.
  - The HTML page at `/`, `/health`, logging, the startup and shutdown hooks, and
    uvicorn.
- Concurrency is left out. Requests are served one after another. The source awaits the
  upstream call between appending the user message and appending the reply, so under
  concurrent requests to one key, replies can interleave in ways this model does not
  cover.
- `ProcessQuery` and the endpoints return the posted message list as an extra output.
  The source does not return it. It is there so the contracts can state what was posted.

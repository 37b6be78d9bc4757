# Tampa Clean assistant: session and agent-client core

The Tampa Clean assistant is a single Streamlit page (`Inicio.py`) that lets a
user unlock a hosted language-model agent with an access key and then chat with
it. Under the page sits a small sequential core, modelled here in Dafny:

- **Session state** (`ChatSession.Session`): the four session keys
  `is_configured`, `agent_endpoint`, `agent_access_key` and `messages`, and the
  handlers that assign them: first-run initialisation, the start button of the
  access screen, "clear conversation", "log out", and the turn block that
  processes a submitted prompt. The class invariant `Valid()` says the
  endpoint never changes and the session is configured exactly when it holds a
  non-empty key; every handler keeps it.
- **Request construction** (`AgentClient`): the configuration guard of
  `query_agent`, the completions URL (a `/` appended only when missing, then
  `api/v1/chat/completions`), and the JSON payload whose `messages` list is the
  history in order followed by the new prompt as one `user` entry. A decoder for
  that list is the partner of the encoder: decoding the payload's messages gives
  back exactly `history + [prompt]`.
- **Response classification** (`AgentClient.Classify`): the outcome of the POST
  is a datatype: `TransportFailure(cause)` (a `RequestException`),
  `PostRaised(text)` (any other exception out of `requests.post`, such as the
  `UnicodeEncodeError` of a key outside Latin-1), or
  `Http(status, Structured(json) | Raw(text))`, where the JSON parse has
  already been decided. The reply is `Response(content)` or
  `Error(message, details?)`. Success requires status 200 exactly. The probe of
  a parsed 200 body (`"choices" in data`, `len(...)`, `[0]`, `"message" in ...`,
  `"content" in ...`) follows Python's own semantics on dicts, lists, strings and
  scalars (module `PyJson`). A body of the wrong type therefore takes the path
  the source takes: a `TypeError` or `KeyError` reaching the outer
  `except Exception` handler.
- **The turn** (`ChatSession.Session.SubmitPrompt`): append the prompt, ask the
  agent with the transcript as it stood before, and append exactly one assistant
  entry (the content, or `"Lo siento, ..."` plus the error text). Over any
  sequence of turns from an empty transcript, the entries alternate user and
  assistant in submission order (`ChatSession.TranscriptOfTurns`).

The network is a parameter `post: Request -> HttpOutcome`. The request handed
to it is exactly the one `BuildRequest` builds. When the endpoint or the key is
empty, the reply does not depend on `post` at all, so no request is sent.

Files: `wrappers.dfy` (Option), `json.dfy` (Python JSON values and operations),
`numerals.dfy` (decimal rendering of the status code and its inverse),
`agent_client.dfy` (`query_agent`), `session.dfy` (session state and handlers).

Points of the code the model keeps as written:
- Success is `status_code == 200` exactly (Inicio.py:419); a 201 or a 302 that reaches the page is an error reply.
- Logging out keeps the endpoint (Inicio.py:373), which is fixed for this deployment.
- An unexpected 200 body carries the parsed value as its details (Inicio.py:433), not the raw body text.
- A 200 body of the wrong type can also end in the generic "Error al comunicarse con el asistente: ..." error (Inicio.py:449-450).

## Model

| member | source | states |
|---|---|---|
| `ChatSession.Session.constructor` | Inicio.py:118-127 | a new session is unconfigured, has the fixed endpoint, an empty key and an empty transcript, and satisfies the session invariant |
| `ChatSession.Session.Configure` | Inicio.py:149-158 | an empty key is refused and changes nothing; a non-empty key is stored and marks the session configured; endpoint and transcript untouched; invariant kept |
| `ChatSession.Session.ClearConversation` | Inicio.py:305-307 | the transcript becomes empty; configured flag, endpoint and key unchanged |
| `ChatSession.Session.Logout` | Inicio.py:370-374 | the session becomes unconfigured with an empty key; endpoint and transcript unchanged |
| `ChatSession.Session.SubmitPrompt` | Inicio.py:461-493 | no prompt or an empty one changes nothing; otherwise the reply is `query_agent` on the transcript before the prompt, and the transcript grows by the prompt then one assistant entry; configuration unchanged; a configured session always sends the built request; complete user/assistant pairs stay paired |
| `ChatSession.AssistantMessage` | Inicio.py:478-493 | the appended entry has role assistant and holds the reply's content, or the apology prefix followed by the error text |
| `ChatSession.AfterTurn` | Inicio.py:461-493 | one turn keeps the old transcript as a prefix and adds exactly two entries: the user prompt, then the reply's assistant entry |
| `ChatSession.AfterTurnKeepsPairs` | Inicio.py:461-493 | a transcript of complete alternating pairs is still one after a turn |
| `ChatSession.TranscriptOfTurns` | Inicio.py:461-493 | N turns from an empty transcript give 2N entries, alternating, with the k-th prompt at 2k and the k-th reply's entry at 2k+1 |
| `AgentClient.NormalizeEndpoint` | Inicio.py:386-388 | the result ends with '/', extends the endpoint by at most one character, and equals it when it already ends with '/' |
| `AgentClient.NormalizeIdempotent` | Inicio.py:386-388 | normalising twice is normalising once |
| `AgentClient.CompletionsUrl` | Inicio.py:390-391 | the URL is the endpoint followed directly by "api/v1/chat/completions", with one "/" put between them only when the endpoint does not already end with one |
| `AgentClient.TrailingSlashIrrelevant` | Inicio.py:386-391 | an endpoint with or without its trailing '/' gives the same URL, the endpoint + "/" + path |
| `AgentClient.EncodeMessage` | Inicio.py:402 | the wire dict of a message has exactly the keys role and content, and decodes back to that message |
| `AgentClient.EncodeHistory` | Inicio.py:400-402 | the history is mapped entry by entry, same length, same order |
| `AgentClient.DecodeEncodeHistory` | Inicio.py:400-402 | decoding the encoded history gives the history back |
| `AgentClient.OutboundMessages` | Inicio.py:399-403 | the message array has length history+1, every entry is a dict with exactly the keys role and content, and it decodes to the history followed by one user entry holding the prompt |
| `AgentClient.BuildRequest` | Inicio.py:386-416 | the request goes to the completions URL with a bearer key, JSON content type and a 60 s timeout, and its payload has exactly the keys model "n/a", messages, temperature, max_tokens and stream false, with the slider values as given, and its messages are dicts with exactly the keys role and content that decode to history + [prompt] |
| `AgentClient.ExtractContent` | Inicio.py:420-433 | the probe yields content exactly when the body has the chat-completion shape, and then it is `choices[0].message.content`; on a dict whose `choices` is absent or a list whose first entry is a dict with `message` absent or a dict, no step raises; a dict without `choices` or with empty `choices` yields no content |
| `AgentClient.Classify` | Inicio.py:415-447 | a response exactly for status 200 with a raw body or a chat-completion body; raw text or extracted content otherwise as given; other 200 bodies give the unexpected-format error when no probing step can raise on them, and otherwise that error or the generic one; any other status gives an error carrying the body; a transport failure gives the HTTP error with its cause; any other exception out of the POST gives the generic error with its text |
| `AgentClient.StatusCodeRecoverable` | Inicio.py:437-444 | for every status other than 200, the error text after its prefix is the status code in decimal, and it reads back to the status |
| `AgentClient.MissingChoicesIsUnexpectedFormat` | Inicio.py:424-433 | a 200 dict without `choices`, or with an empty list there, gives "Formato de respuesta inesperado" with the parsed body |
| `AgentClient.QueryAgent` | Inicio.py:377-450 | an empty endpoint or key gives the configuration error; otherwise the reply is the classification of what the network returns for the built request |
| `AgentClient.NoRequestWithoutConfiguration` | Inicio.py:383-384 | without endpoint or key the reply is the same whatever the network does |
| `Numerals.NatToString` | Inicio.py:439 | the decimal rendering is non-empty, all digits, with no leading zero |
| `Numerals.IntToString` | Inicio.py:439 | the rendering is non-empty and is all digits exactly when the integer is non-negative |
| `Numerals.ParseIntToString` | Inicio.py:439 | reading the rendering back gives the integer |

## Left out

- Page rendering, styling, widgets, spinners, `st.rerun`/`st.stop`, the chat display loop and the footer: user interface only.
- The HTTP calls themselves. `requests.post` is the parameter `post`, and its outcome is the `HttpOutcome` datatype. JSON parsing is decided at that boundary as `Structured | Raw`.
- The connectivity probe (Inicio.py:243-299): diagnostics only, with no state change.
- PDF export (Inicio.py:310-367): a foreign library, temporary files, the wall clock, and the latin-1 substitution.
- `time.sleep` after a successful configuration.
- Temperature and max tokens: slider values carried as opaque payload fields. Temperature is a `real`, without float rounding.
- Rendering of a parsed body with `str(...)`: the `details` of an error carry the parsed JSON value itself, not Python's textual rendering of it.
- Exception texts of the `TypeError`/`KeyError` path use CPython 3.11 wording; other versions word some of them differently.
- The outer `except Exception` also wraps the guard and the payload construction. Nothing there can raise once the slider values exist. In the model, the handler is reached by an exception out of `requests.post` that is not a `RequestException` (`PostRaised`) and by the response probe.
- The `response.get("response", ...)` default in the turn block is unreachable: every reply without `error` holds `response`. The model has no such case.
- ChatSession.Session.constructor: models the first run of `initialize_session_vars`, where all four keys are missing. On every later rerun all four are present, because the handlers reassign them and nothing deletes them, so the function does nothing then.
- ChatSession.Session.SubmitPrompt: does not require `is_configured`, although the page stops before the turn block for an unconfigured session (Inicio.py:136-161). Without configuration the model's reply is the configuration error, as `query_agent`'s own guard gives.
- ChatSession.Session.SubmitPrompt: models the turn as uninterrupted. A widget event during the request makes Streamlit stop the run at its next element call (Inicio.py:473-490) and rerun the page; such a run leaves the user entry of Inicio.py:463 without an assistant answer, and from then on the transcript is no longer made of complete pairs. The model does not capture interrupted runs.
- Speech synthesis and audio attachments: not part of this source file.

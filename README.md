# Conversation history of the Gemini voice skill, in Dafny

The skill is an Alexa skill that forwards what the user says to Google's
generative-language service and speaks the reply back. Its only state is a
module-level conversation history: a list of `{role, parts}` messages, oldest
first. The launch handler resets the history and sends a fixed system message.
The chat handler trims the history, sends it with the new user message, and
appends that message and the reply when the call succeeds. A cancel/stop
handler says goodbye, and a catch-all exception handler apologises for
anything that escapes.

The model has six modules:

- `Wrappers` — `Option`, and a `Result` that is either a value or the exception raised instead.
- `Py` — the decoded JSON body as a datatype, the Python exceptions the lookups raise, and Python's `d.get(key, default)` and `v[0]`.
- `Reply` — the default-filling chain that pulls `candidates[0].content.parts[0].text` out of the body (`ExtractReplyText`). It is compared, by lemmas, with a strict path lookup that has no defaults.
- `Conversation` — messages, `MAX_HISTORY = 10`, the trim rule (`Trim`), and the history invariant `WellFormed`. The invariant says: even length, at most 20 messages, roles alternating user/model starting with user, one part per message.
- `Handlers` — each handler as a function of (history before, request, remote outcome). It also has the handlers' predicates, the first-match dispatch in registration order, one event (`Step`), any sequence of events (`Run`), and the invariant across all of them.
- `LambdaFunction` — class `Skill`, whose `history` field the methods `Launch`, `Chat` and `Handle` update in place, statement by statement like the handlers. Each method's postcondition ties the new state and the output to the function in `Handlers`.

The HTTP call is an input: `Remote` is either `Success(body)`, a decoded JSON
body, or `RequestError`. `RequestError` stands for any `requests` exception:
a transport failure, an error status from `raise_for_status`, or a body that
`response.json()` cannot decode (in current `requests` that also raises a
`RequestException`). The caller picks the outcome, so every property holds
for every possible service behaviour.

Behaviour the model follows from the code:

- The defaults in the reply lookup cover missing keys only. If `candidates` or `parts` is present but empty, `[0]` raises `IndexError`. A body that is not a JSON object has no `get`. A non-empty string where a list is expected is indexed, and the following `get` then fails. None of these errors is a `RequestException`. They escape the handler and the catch-all answers them (`ExtractEmptyList`, `ExtractNotObject`).
- The chat trim runs inside the `try`, before the call. A failed call therefore keeps the trimmed history and appends nothing (`ChatOnRequestError`). An exception raised while the reply is read also keeps the trim.
- A missing `query` slot raises `KeyError` before the trim, so the history stays untouched (`ChatMissingSlot`). A slot whose value is null produces a user message whose text is JSON null.
- Launch appends its two messages before it joins the reply text to `" Como posso te ajudar?"`. If the reply text is not a string, the history already holds the two messages when the `TypeError` reaches the catch-all.
- Chat passes the reply text straight to the response builder. A JSON null is spoken as empty speech, still with the re-prompt (`ChatOnNullText`). Any other value that is not a string makes the builder raise, and the catch-all answers.
- When a handler raises, the catch-all answers. The history and the contents sent stay as the handler left them (`Finish`, `StepHandlerRaises`, `ChatOnReplyRaises`, `LaunchOnReplyRaises`).
- A request that no handler accepts is answered by the catch-all handler (the SDK raises for it). The history is left as it was.
- Trimming happens only at 20 messages or more. So between events the history can hold up to `2 * MAX_HISTORY` = 20 messages, not `MAX_HISTORY` as the constant's comment suggests. When it holds 20, the next chat turn cuts it to the last 10 (`ChatGrowth`). Because 10 is even, what is kept starts with a user message (`DropEvenKeepsAlternation`, `TrimWellFormed`).

## Model

| member | source | states |
|---|---|---|
| `Py.Get` | lambda/lambda_function.py:77-80 | `d.get(key, default)`: succeeds exactly on a JSON object, yields the bound value when the key is present (even null) and the default only when it is absent; on anything else raises `AttributeError` |
| `Py.Index0` | lambda/lambda_function.py:77-79 | `v[0]`: succeeds exactly on a non-empty list (its first item) or non-empty string (its first character); an empty list or string raises `IndexError`, a dict `KeyError`, anything else `TypeError` |
| `Reply.ExtractFound` | lambda/lambda_function.py:77-80 | when `candidates`, `content`, `parts` and `text` are all present and both lists are non-empty, the lookup yields the nested `text` |
| `Reply.ExtractFallback` | lambda/lambda_function.py:133-136 | when the path is well shaped up to a key that is absent, the lookup yields "Desculpe, não consegui processar sua solicitação." and does not fail |
| `Reply.ExtractEmptyList` | lambda/lambda_function.py:77-79 | a present but empty `candidates` or `parts` list makes `[0]` raise `IndexError` |
| `Reply.ExtractNotObject` | lambda/lambda_function.py:76-77 | a body that is not a JSON object makes the first `get` raise `AttributeError` |
| `Reply.ExtractReplyText` | lambda/lambda_function.py:133-136 | the lookup succeeds if and only if the nested text is present or some key on the path is missing; when a key is missing the result is the fallback string, and otherwise a successful result is the nested text |
| `Conversation.Trim` | lambda/lambda_function.py:120-121 | at 20 messages or more, the result is exactly the last 10 in their order; below 20 it is the history unchanged; either way it is a suffix of the history |
| `Conversation.TrimWellFormed` | lambda/lambda_function.py:120-121 | trimming a well-formed history keeps it well formed (even length, alternating from user) and leaves room for one more turn (at most 18) |
| `Conversation.AppendTurnWellFormed` | lambda/lambda_function.py:139-142 | appending a user message then a model message to a well-formed history of at most 18 messages keeps it well formed |
| `Conversation.ChatContentsShape` | lambda/lambda_function.py:124-127 | the contents a chat turn sends (trimmed history plus the user message) alternate from user, have odd length at most 19, and end with that user message |
| `Handlers.FirstMatch` | lambda/lambda_function.py:205-207 | the index returned is of a handler that accepts the request and no earlier handler accepts it; None means no handler accepts it |
| `Handlers.Dispatch` | lambda/lambda_function.py:205-207 | the handler chosen is a registered handler that accepts the request; no handler is chosen exactly when none of the three accepts it |
| `Handlers.DispatchOrder` | lambda/lambda_function.py:205-207 | Launch is chosen if and only if it accepts; Chat if and only if it accepts and Launch does not; Cancel/Stop if and only if it accepts and neither earlier handler does; none otherwise |
| `Handlers.HandlersExclusive` | lambda/lambda_function.py:53-163 | the three `can_handle` tests (request type `LaunchRequest`; intent `ChatIntent`; intent `AMAZON.CancelIntent` or `AMAZON.StopIntent`) never hold together |
| `Handlers.LaunchOnSuccess` | lambda/lambda_function.py:83-98 | on success with text `t`, the history is exactly `[system message, model t]`, the speech is `t + " Como posso te ajudar?"`, the re-prompt equals the speech, and the contents sent are `[system message]` |
| `Handlers.LaunchOnReplyRaises` | lambda/lambda_function.py:60-80 | when reading the reply raises, the exception escapes launch and the history stays reset to empty |
| `Handlers.LaunchOnRequestError` | lambda/lambda_function.py:90-98 | on a request error the history is empty, and speech and re-prompt are both the fixed error sentence |
| `Handlers.LaunchTurn` | lambda/lambda_function.py:60-86 | launch ignores the previous history and always sends only the system message; afterwards the history is empty exactly when the call failed or reading the reply raised, and otherwise it is exactly the system message followed by the model message holding the reply text (whatever JSON value it is); a string reply is spoken as that text plus " Como posso te ajudar?", also as the re-prompt, and a reply that is not a string raises `TypeError` after the history is extended; either way the history is well formed |
| `Handlers.ChatTurn` | lambda/lambda_function.py:108-155 | without a `query` slot it raises `KeyError`, sends nothing and keeps the history; otherwise the contents sent are the post-trim history followed by `{role: user, parts: [{text: query}]}`, and the new history is the post-trim history, extended by that user message and the model reply exactly when a reply was read; every response it gives re-prompts with "Alguma outra pergunta?" |
| `Handlers.ChatOnSuccess` | lambda/lambda_function.py:139-155 | on success with text `t`, the history is the post-trim history plus the user message and `{role: model, parts: [{text: t}]}`; the speech is `t` and the re-prompt is "Alguma outra pergunta?" |
| `Handlers.ChatOnNullText` | lambda/lambda_function.py:139-153 | when the reply text is null, the history is extended with the user message and a model message holding null, the speech is empty and the re-prompt is "Alguma outra pergunta?" |
| `Handlers.ChatOnReplyRaises` | lambda/lambda_function.py:118-136 | when reading the reply raises, the exception escapes the handler; the history is the post-trim history with nothing appended, and the contents sent are the post-trim history plus the user message |
| `Handlers.ChatOnRequestError` | lambda/lambda_function.py:146-155 | on a request error the history is the post-trim history with nothing appended; the speech is the fixed error sentence and the re-prompt is still "Alguma outra pergunta?" |
| `Handlers.ChatMissingSlot` | lambda/lambda_function.py:112 | without a `query` slot the handler raises `KeyError`, sends nothing and leaves the history untouched |
| `Handlers.ChatGrowth` | lambda/lambda_function.py:120-142 | from a well-formed history, a chat turn leaves the post-trim length plus 2 if the call and the lookup succeed, and plus 0 otherwise; the trim keeps a history below 20, and takes a history of exactly 20 down to 10 |
| `Handlers.Finish` | lambda/lambda_function.py:185-195 | an exception that escapes a handler is answered with the catch-all apology; a response is passed on unchanged; the history and contents sent are what the handler left |
| `Handlers.Step` | lambda/lambda_function.py:176-207 | only an event routed to Launch or Chat calls the service or changes the history |
| `Handlers.StepHandlerRaises` | lambda/lambda_function.py:176-195 | when the Launch or Chat handler chosen for an event raises, the event's response is the catch-all apology, with the history and contents sent that the handler left |
| `Handlers.Run` | lambda/lambda_function.py:46-210 | events are handled one at a time in order: the history after a sequence is the last event's step applied to the history the earlier events left |
| `Handlers.StepWithoutCall` | lambda/lambda_function.py:165-195 | Cancel/Stop and unhandled requests leave the history untouched and call nothing; Cancel/Stop speaks exactly "Goodbye!" with no re-prompt; an unhandled request gets the catch-all apology as both speech and re-prompt |
| `Handlers.ChatTurnWellFormed` | lambda/lambda_function.py:118-142 | every chat turn keeps a well-formed history well formed, and what it sends alternates, has odd length and ends with a user message |
| `Handlers.StepKeepsWellFormed` | lambda/lambda_function.py:176-207 | every event, routed as registered and with escaping exceptions answered by the catch-all, keeps the history well formed; any contents sent alternate and end with a user message |
| `Handlers.RunKeepsWellFormed` | lambda/lambda_function.py:46-142 | from a well-formed history, any sequence of events keeps it well formed |
| `Handlers.HistoryInvariant` | lambda/lambda_function.py:46-142 | from the initial empty history, after any sequence of events the history has even length at most 20 and alternates user, model, … starting with user |
| `LambdaFunction.Skill.constructor` | lambda/lambda_function.py:46 | the history starts empty and well formed |
| `LambdaFunction.Skill.Launch` | lambda/lambda_function.py:55-98 | resets the history, then updates it and produces the response or escaping exception exactly as `Handlers.LaunchTurn` says, returns the contents sent, and leaves `Valid()` |
| `LambdaFunction.Skill.Chat` | lambda/lambda_function.py:108-155 | trims and extends the history in place, producing the new history, the response or exception, and the contents sent exactly as `Handlers.ChatTurn` says of the old history; keeps `Valid()` |
| `LambdaFunction.Skill.Handle` | lambda/lambda_function.py:176-210 | one request through dispatch and the catch-all gives the new history, response and contents that `Handlers.Step` gives for the old history, and keeps `Valid()` |

## Left out

- The HTTP call, `raise_for_status` and `response.json()` are not modelled. They become the `Remote` input.
- The generation settings in `model_config` (they include floating-point values) are not modelled. They are passed through unchanged and involve no logic.
- Building the URL from the API key, `load_dotenv` and `os.getenv` are left out, because they are environment loading.
- Logging is left out.
- `SkillBuilder`, `lambda_handler` and the SDK's request envelope are not modelled. Dispatch is modelled as a first match over the three registered handlers. The request is a plain record with a request type and an optional intent.
- The SDK's response builder is not modelled. A response is `(speech, re-prompt)`. A missing re-prompt stands for the Cancel/Stop response, which does not ask again. The builder's own treatment of the speech text (SSML wrapping, trimming whitespace) is not modelled.
- Concurrency and process recycling are left out. Events are handled one at a time, in a sequence.
- JSON numbers and booleans are one case, `Scalar`, because nothing in the skill reads them.
- Handlers.ChatTurn: the SDK's `speak` is not part of this model. The model takes it to speak a null as empty text and to raise (`SpeechNotString`) on any other value that is not a string (a number, list or dict, on which it would call `strip`). In both cases the history is extended first, as in the source.

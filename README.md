# A verified model of the linebot-genai conversation core

linebot-genai is a LINE chat bot that answers questions about cat health care with a
large language model. It keeps one conversation per LINE user. This project models, in
Dafny, the parts of it that decide things:

- **The conversation turn** (`src/genai/get_ai_response.py`) is a fixed graph:
  `check_specific → model → (summarize_conversation | END)`. It runs over a persisted
  per-user state made of a message history and a rolling summary.
  - `ChatGraph` holds the values and the pure node logic:
    - the two system prompts;
    - the model input and the summarization prompt;
    - the routing edge and the id-based deletion of the history reducer;
    - `RunTurn`, the meaning of one whole turn.
  - `ChatTurn` runs the same graph step by step:
    - a `ChatSession` object holds the live graph state, and each node is one method;
    - a `ChatStore` object holds every user's checkpoint and implements `get_ai_response`.
  - Each method is proved against `RunTurn`. Lemmas about `RunTurn` then state what a
    turn does: the summarization threshold, keeping the last two messages, and a stored
    history that stays bounded, alternating and uniquely identified. The fixed fallback
    text of a failed turn is stated by the contract of `ChatStore.Respond`.
- **The error envelope** (`src/helpers/error_handlers.py`, module `ErrorHandlers`):
  `handle_error` picks the message from a status-code table and adds details only in
  debug mode. It emits exactly one log event when an exception is passed.
- **Model selection** (`src/genai/llm_config.py`, module `LlmConfig`): the `LLMProvider`
  values and `llm_provider_factory`. The default is Gemini, matching is exact, and every
  failure is logged and re-raised.
- **Reply gating** (`src/app.py`, module `LineApp`): which LINE text events get an
  answer. Direct chats always do; group chats only when the bot itself is mentioned.
  Each qualifying event gets exactly one reply, carrying its reply token.

Supporting modules: `Wrappers` (`Option`, `Result`) and `Text`. `Text` models Python's
`in` on strings, `str(n)`, `sep.join` and f-strings (literal parts interleaved with fields).

Two behaviours of the code are worth stating, because a reader might expect otherwise:

- **A raise during summarization fails the whole turn.** It does not leave the reply
  standing. `summarize_conversation` runs inside the same `try` as the graph invocation
  (`get_ai_response.py:151-165`), so any raise there yields the fallback text.
- **The summary after summarization can be empty.** The code stores whatever text the
  model returns (`get_ai_response.py:114`), and that may be empty.

## Model

| member | source | states |
|---|---|---|
| Text.Contains | src/genai/get_ai_response.py:66 | `pat in s` holds exactly when `pat` occurs at some index of `s` |
| Text.NatToStringRoundTrip | src/genai/get_ai_response.py:36 | the decimal rendering of a year loses nothing: its digits read back as the same number |
| Text.Join | src/genai/get_ai_response.py:38 | `", ".join(items)` contains every item; no items give the empty string |
| Text.Interleave | src/genai/get_ai_response.py:32-49 | an f-string alternates literal parts and fields: the k-th literal part at position 2k, the k-th field at position 2k+1 |
| Text.FieldRendered | src/genai/get_ai_response.py:32-49 | every field of an f-string occurs in the rendered text |
| ChatGraph.IsSpecific | src/genai/get_ai_response.py:66 | "specific" holds exactly when the marker 花花 occurs in the content |
| ChatGraph.SpecificFields | src/genai/get_ai_response.py:32-49 | the specific prompt's fields: the cat's name, birth year, sex, breed, joined medical history, the target language, the refusal and the current year |
| ChatGraph.GeneralSystemPrompt | src/genai/get_ai_response.py:50-57 | the general prompt is the same whatever the year and the cat, and contains the refusal and the 繁體中文 instruction |
| ChatGraph.SpecificSystemPrompt | src/genai/get_ai_response.py:31-49 | the specific prompt contains the refusal, the 繁體中文 instruction, the current year and every item of the fact sheet, each medical-history entry included |
| ChatGraph.ModelInput | src/genai/get_ai_response.py:75-89 | the model sees the system prompt, then the summary message exactly when the summary is non-empty, then the whole history unchanged and in order |
| ChatGraph.SummaryInstruction | src/genai/get_ai_response.py:95-107 | a non-empty summary gives the "extend" instruction with the summary quoted between its head and tail; an empty one gives exactly the "create" instruction; the two are told apart by their head |
| ChatGraph.SummaryPrompt | src/genai/get_ai_response.py:109 | the summarization prompt is the whole history followed by exactly one human message carrying the instruction |
| ChatGraph.AllButLastTwo | src/genai/get_ai_response.py:112 | `messages[:-2]` and the last two messages make up the history; nothing is selected from fewer than two |
| ChatGraph.RemoveIdsMembers | src/genai/get_ai_response.py:112-114 | deletion by id keeps exactly the messages whose id is not marked |
| ChatGraph.ShouldContinue | src/genai/get_ai_response.py:117-127 | summarize exactly when there are more than six messages; exactly six ends the turn |
| ChatGraph.PruneKeepsLastTwo | src/genai/get_ai_response.py:112-114 | with unique ids, deleting the ids of all but the last two leaves exactly the last two messages, in order |
| ChatGraph.AfterSummaryShape | src/genai/get_ai_response.py:109-114 | a summarizing step fails only when the summarizer raises; otherwise it keeps exactly the last two messages under the new summary |
| ChatGraph.AfterModelShape | src/genai/get_ai_response.py:140-141 | after the model's answer: within six messages the reply is appended and the summary kept; past six only the last user message and the reply remain, under the summarizer's answer |
| ChatGraph.TurnShape | src/genai/get_ai_response.py:130-147 | a turn from n stored messages: the reply is the model's answer; n+2 ≤ 6 appends user message and reply and keeps the summary; otherwise exactly those two remain and the summary is replaced; a raise of either call fails the turn |
| ChatGraph.TurnPreservesWellFormed | src/genai/get_ai_response.py:117-127 | every successful turn writes a checkpoint with unique ids below the next fresh id, alternating human and assistant messages, and at most six messages |
| ChatTurn.ChatSession.AddMessage | src/genai/get_ai_response.py:89-90 | the history reducer appends one message under a fresh id and keeps ids unique |
| ChatTurn.ChatSession.RemoveMessages | src/genai/get_ai_response.py:112-114 | the loop over removal markers leaves exactly `RemoveIds` of the history and keeps ids unique |
| ChatTurn.ChatSession.CheckSpecific | src/genai/get_ai_response.py:62-69 | the flag is set from the newest message only |
| ChatTurn.ChatSession.CallModel | src/genai/get_ai_response.py:72-90 | the model is asked with `ModelInput` for the current flag and summary; an answer adds exactly one message, a raise changes nothing |
| ChatTurn.ChatSession.ApplySummary | src/genai/get_ai_response.py:111-114 | the answer becomes the summary and the history becomes `RemoveIds` of all-but-last-two, which is the last two messages |
| ChatTurn.ChatSession.SummarizeConversation | src/genai/get_ai_response.py:93-114 | the model is asked with `SummaryPrompt`; a raise changes nothing, an answer replaces the summary and leaves the last two messages |
| ChatTurn.ChatSession.FinishTurn | src/genai/get_ai_response.py:140-141 | the conditional edge, the optional summarization and the reply read off the last message give what `Route` gives |
| ChatTurn.ChatSession.BeginTurn | src/genai/get_ai_response.py:154-158 | the turn starts non-specific with one appended human message, decides "specific" on it and runs the model node once |
| ChatTurn.ChatSession.Invoke | src/genai/get_ai_response.py:159-161 | one graph invocation gives the outcome and new history and summary that `RunTurn` gives, using exactly two fresh ids on success |
| ChatTurn.RunSession | src/genai/get_ai_response.py:159-161 | an invocation resumed from a checkpoint succeeds exactly as `RunTurn` does, with `RunTurn`'s checkpoint |
| ChatTurn.ChatStore.Lookup | src/genai/get_ai_response.py:153 | a thread never seen starts with no messages and an empty summary; a known one resumes its checkpoint |
| ChatTurn.ChatStore.Respond | src/genai/get_ai_response.py:150-167 | on success the reply is the last message's content and only this user's thread changes; on any failure the reply is exactly the fallback text, one error line is logged and nothing is stored |
| ChatTurn.ChatStore.GetAiResponse | src/genai/get_ai_response.py:150-167 | `Respond` with the system prompt of the given year and the cat's fact sheet; every stored thread stays well formed |
| ChatTurn.StoreKeepsWellFormed | src/genai/get_ai_response.py:160 | storing a turn's checkpoint keeps every thread of the store well formed |
| ErrorHandlers.DefaultMessage | src/helpers/error_handlers.py:19-29 | the table's message for 400, 401, 403, 404 and 500, "Unknown Error" for any other code |
| ErrorHandlers.UnknownErrorExactly | src/helpers/error_handlers.py:19-29 | "Unknown Error" is given exactly to the codes outside the table |
| ErrorHandlers.HandleError | src/helpers/error_handlers.py:6-64 | status and `error.code` equal the given code, `success` is false, a given message is used verbatim, `details` is present exactly in debug mode with an error and then names its class and text and carries the formatted traceback lines exactly when a traceback is at hand, one log event exactly when an error is given |
| ErrorHandlers.DebugOnlyAddsDetails | src/helpers/error_handlers.py:56-62 | debug mode changes nothing but `details`: status, message and logs agree |
| ErrorHandlers.TracebackOnlyInDebugDetails | src/helpers/error_handlers.py:36-62 | status, message and the presence of `details` never depend on the traceback; outside debug mode with an error the whole envelope does not either |
| ErrorHandlers.DebugDetailsWithTraceback | tests/helpers/test_error_handlers.py:74-94 | an exception handled in debug mode with a traceback gets details naming it and carrying the traceback lines, and one log event |
| ErrorHandlers.NotFoundWithoutError | tests/helpers/test_error_handlers.py:32-43 | `handle_error(404)` answers "Not Found" with no details and logs nothing |
| ErrorHandlers.UnlistedCode | tests/helpers/test_error_handlers.py:122-129 | `handle_error(599)` answers "Unknown Error" |
| LlmConfig.FromValue | src/genai/llm_config.py:13-16 | a string names a provider exactly when it equals that provider's value |
| LlmConfig.ValueRoundTrip | src/genai/llm_config.py:13-16 | a provider's value reads back as the same provider |
| LlmConfig.ProviderSetting | src/genai/llm_config.py:20 | an unset variable reads as the Gemini value |
| LlmConfig.LlmProviderFactory | src/genai/llm_config.py:18-29 | success exactly for a known provider whose client builds, with that provider's model name; an unknown value raises "Unsupported LLM provider: " and the value; every failure is logged once with the prefix and re-raised unchanged |
| LlmConfig.DefaultIsGemini | src/genai/llm_config.py:20-24 | with the variable unset the client is Gemini on "gemini-2.0-flash" and nothing is logged |
| LlmConfig.SelectionIsExact | src/genai/llm_config.py:21-26 | only the exact strings "openai" and "gemini" succeed, giving "gpt-4o-mini" and "gemini-2.0-flash" |
| LlmConfig.FailureLoggedAndRaised | src/genai/llm_config.py:27-29 | a failure logs exactly one line, the prefix followed by the very error that is raised |
| LineApp.Mentionees | src/app.py:71 | a message without a mention object has no mentionees |
| LineApp.AnySelf | src/app.py:72 | true exactly when some mentionee has `is_self` true |
| LineApp.ShouldReply | src/app.py:67-73 | "user" events always qualify; "group" events exactly when some mentionee is the bot; any other source never |
| LineApp.GroupWithoutMentionIgnored | src/app.py:71-73 | a group message without mentions gets no reply |
| LineApp.MissingIsSelfIsFalse | src/app.py:72-73 | mentionees whose `is_self` is missing or false never open the gate of a group |
| LineApp.ReplyText | src/genai/get_ai_response.py:161-167 | the reply text is the turn's reply, or the fallback text when the turn failed |
| LineApp.LineBot.HandleMessage | src/app.py:64-83 | a qualifying event gets exactly one reply with its reply token and get_ai_response's text, after which the store holds that turn; any other event sends nothing and changes nothing |

## Left out

- The language model itself (`ChatOpenAI`, `ChatGoogleGenerativeAI`, `runnable.invoke`, `llm.invoke`) is a network service. It is a parameter `Llm`: a total function from the prompt to an answer or a raise, the same for both nodes. The client built at import time (`get_ai_response.py:16`) is modelled only through `LlmConfig`.
- The MongoDB checkpointer and `MongoDBClient` are storage plumbing. Persistence is a map from user id to checkpoint.
  - Whether langgraph commits the state of a failed invocation is decided inside langgraph. The model stores nothing when a turn fails.
- The history reducer's uuids become a store-wide counter handed out in order. Only uniqueness matters to the model.
- `datetime.now().year` and `src/db/cat_data` (`src/db/cat_data` is not part of this model) are parameters.
- The `user_id` and `is_specific` state channels are not persisted in a checkpoint. `user_id` is never read, and every invocation resets `is_specific` to false before it is read.
- `ChatPromptTemplate` is taken to pass the system prompt through as literal text. Template braces inside the prompt are not modelled.
- Model answers are taken to be plain strings. A multi-part message content is not modelled.
- ChatTurn.ChatSession.CheckSpecific: returning the whole state to langgraph, which merges the messages back by id, is modelled as an update of the flag alone.
- ErrorHandlers.HandleError: the log event records the exception class, its text and the last traceback frame, not the formatted log string. `jsonify`, `current_app`, `sys.exc_info` and `traceback.format_exc` are replaced by the `debug`, `lastFrame` and `traceLines` parameters.
- ChatTurn.ChatStore.Respond: the error line is recorded as its text in `errorLog`, not written through `logging`.
- Flask and LINE plumbing in `src/app.py` are left out:
  - the `/webhook` route, signature verification and its two `handle_error` calls, and `/healthz`;
  - `ApiClient`/`MessagingApi`, with a failed reply send;
  - the `event` info log.
- LineApp.LineBot.HandleMessage: a group event's user id is taken to be present. The LINE SDK may leave it unset.
- `src/genai/memory.py` is left out. It is an interactive console loop around a one-node graph, and its only logic, appending the reply, is covered above.
- Concurrent turns on one thread are left out. Nothing in the code serializes them, and the model runs one turn at a time.

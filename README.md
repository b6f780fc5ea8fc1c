# Conversation memory of a LINE chat bot, modelled in Dafny

The bot relays LINE text messages to OpenAI's chat-completions API. It keeps,
per LINE user id, the ordered history of `{role, content}` messages sent to
the model and an override system message that a user can set with the
`/系統訊息` command. This project models that memory (`src/memory.py`), the
text-message handler that drives it (`main.py`), and the parts of
`src/models.py` the handler depends on: the result triple of the OpenAI
client and the body it posts, plus the scan parameters the DynamoDB log
reader builds.

Modules, one per component:

- `PyStrings` (`py_strings.dfy`): Python's `str.strip`, `startswith` and `join` over code points.
- `Conversation` (`conversation.dfy`): the `Message` record and what `append` does to one history.
- `HistoryPolicy` (`history_policy.dfy`): `_drop_message` as a pure function of a history and the
  count `n`, with Python's slice `h[-(n*2):]` written out (so `n == 0` keeps the whole list), and
  what the rule would do if its result were stored.
- `ConversationMemory` (`memory.dfy`): class `Memory` with the `storage` and `system_messages`
  maps as fields, one method per operation, and two client methods that run the class.
- `OpenAI` (`openai.dfy`): decoded JSON values, the `(is_successful, response, error_message)`
  triple of `_request`, and the `chat_completions` body. The HTTP exchange is a function parameter.
- `LogStore` (`log_store.dfy`): the `query_log` parameter building.
- `LineBot` (`line_bot.dfy`): `handle_text_message`, the `model_management` map and the
  error-to-reply mapping. `get_role_and_content` is a function parameter that may raise.
- `Wrappers` (`wrappers.dfy`): `Option` and `Result`.

Four behaviours of the code are easy to misread; the model keeps them as written:

- A new history is always seeded with the process-wide default system message. The per-user
  override that `change_system_message` stores is never read, so the command only clears the
  user's history (`ConversationMemory.OverrideIgnored`).
- `append` computes the trimmed history and throws it away, so stored histories are never
  bounded (`ConversationMemory.ReplayAppends`). The trimming rule itself is modelled on its own.
- A failed model call raises `BaseException`, which `except Exception` does not catch, so that
  event gets no reply at all (`LineBot.ReplyAfterChat`).
- `get` of a user never seen stores an empty list for that user, as a `defaultdict` does.

## Model

| member | source | states |
|---|---|---|
| `PyStrings.StripLeading` | main.py:62 | the result is a suffix of the input, every dropped character is whitespace, and the result does not start with whitespace |
| `PyStrings.StripTrailing` | main.py:62 | the result is a prefix of the input, every dropped character is whitespace, and the result does not end with whitespace |
| `PyStrings.Strip` | main.py:62 | the result is a contiguous slice of the input with only whitespace removed on either side, and neither starts nor ends with whitespace |
| `PyStrings.Join` | src/models.py:207 | joining no parts gives the empty string; joining one part gives that part |
| `PyStrings.JoinSnoc` | src/models.py:207 | adding a part to a non-empty list appends the separator and then that part, so parts keep their order, one separator between each pair |
| `Conversation.AppendTo` | src/memory.py:43-49 | an empty history gains exactly the default system message and then the new message (length +2), a non-empty one just the message (length +1); earlier entries are unchanged, the new message is last, and a history starting with the default system message still does |
| `HistoryPolicy.PySliceFrom` | src/memory.py:36 | Python's `s[start:]`: the result is a suffix of `s` whose length follows Python's clamping for negative and positive starts |
| `HistoryPolicy.Drop` | src/memory.py:32-37 | below `(n+1)*2+1` entries the history is returned unchanged; at or above it, for `n >= 1`, the result has `2n+1` entries, keeps `h[0]` and then the last `2n` entries; for `n == 0` the result is `[h[0]] + h`; for negative `n` the clamped positive slice |
| `HistoryPolicy.DropIdempotent` | src/memory.py:33-36 | for `n >= 1`, trimming twice equals trimming once |
| `HistoryPolicy.DropZeroGrows` | src/memory.py:33-36 | for `n == 0` and at least three entries, the rule makes the history one longer and is not idempotent |
| `HistoryPolicy.ReplayTrimmed` | src/memory.py:32-50 | the history that storing `_drop_message`'s result after each append would give is non-empty after any turn |
| `HistoryPolicy.TrimStep` | src/memory.py:32-50 | one append followed by the trim keeps the bounded-suffix shape, with the new turn at the end |
| `HistoryPolicy.TrimmedHistoryBounded` | src/memory.py:32-50 | with `n >= 1` and trimming applied, every history has 2 to `2n+2` entries, the default system message first, and the rest a contiguous suffix of the turns in order |
| `HistoryPolicy.TrimScenario` | src/memory.py:32-37 | with `n == 2`, seven alternating turns leave the system message and the last five turns |
| `ConversationMemory.Memory.constructor` | src/memory.py:20-24 | starts with no histories and no overrides, and records the default text and the count |
| `ConversationMemory.Memory.Initialize` | src/memory.py:26-30 | the user's history becomes exactly one system message with the default text; the overrides are not consulted or changed |
| `ConversationMemory.Memory.ChangeSystemMessage` | src/memory.py:39-41 | records the override for that user and empties only that user's history |
| `ConversationMemory.Memory.Append` | src/memory.py:43-50 | the user's history becomes `AppendTo` of the old one: one longer, or two if it was empty; no other user and no override changes; every history still starts with the default system message |
| `ConversationMemory.Memory.Get` | src/memory.py:52-53 | returns the user's history, or `[]` for a user never seen (then stored for that user) |
| `ConversationMemory.Memory.Remove` | src/memory.py:55-56 | empties only that user's history; overrides are unchanged |
| `ConversationMemory.ReplayAppends` | src/memory.py:43-50 | for any configured count, appending `k > 0` turns to a fresh memory leaves the system message followed by all `k` turns: nothing is trimmed |
| `ConversationMemory.OverrideIgnored` | src/memory.py:26-53 | after `change_system_message(u, x)`, `get(u)` returns an empty history, and the next user turn is seeded with the default system message, not `x` |
| `OpenAI.Interpret` | src/models.py:95-102 | success exactly when the decoded body is a dict without a truthy `error`, then `(True, body, None)`; a dict `error` gives `(False, None, error.get('message'))`; any other shape is the caught exception's fixed text |
| `OpenAI.Request` | src/models.py:72-102 | a verb other than GET or POST and any exception in the exchange give `(False, None, 'OpenAI API 系統不穩定，請稍後再試')`; otherwise `http` receives the outgoing request (base URL plus endpoint, the bearer key, and the body except on a GET) and its decoded body is interpreted; a success has no error message and a failure no response |
| `OpenAI.MessagesJson` | src/models.py:126 | one JSON item per history message |
| `OpenAI.ChatBody` | src/models.py:124-127 | the body has exactly the keys `model` and `messages`, and `model` is the engine |
| `OpenAI.MessagesRoundTrip` | src/models.py:126 | the history read back from its JSON array is the history |
| `OpenAI.ChatBodyCarriesHistory` | src/models.py:124-127 | the body's `messages` is an array from which exactly the history is read back |
| `OpenAI.ChatCompletions` | src/models.py:113-128 | sends a POST to `https://api.openai.com/v1/chat/completions` with `Bearer <key>` and the chat body, and returns the interpreted result of that exchange |
| `OpenAI.CheckTokenValid` | src/models.py:104-111 | sends a GET to `https://api.openai.com/v1/models` with `Bearer <key>` and no body, and returns the interpreted result |
| `LogStore.ClausesPresentInOrder` | src/models.py:193-203 | each filter clause is present exactly when its argument is not `None`, no other clause appears, and present clauses keep the order from, to, user |
| `LogStore.QueryLogParams` | src/models.py:171-211 | the filter expression joins the present clauses with `" AND "` (empty with no filters); the attribute values have exactly the present placeholders, each bound to its argument; `#ts` names `timestamp`; the limit (default 100) is passed on |
| `LogStore.AllFiltersExpression` | src/models.py:193-207 | with all three filters the expression is the from, to and user clauses separated by `" AND "` |
| `LineBot.ErrorReply` | main.py:88-96 | the token reply exactly for errors starting with the API-key prefix, the overload reply exactly for the overload prefix otherwise, and otherwise the generic text followed by the error text itself |
| `LineBot.ErrorText` | main.py:78 | `str()` of the raised exception: a string message is itself, `None` is "None" |
| `LineBot.Except` | main.py:85-96 | an exception deriving from `Exception` is answered with its mapped text; any other escapes unanswered |
| `LineBot.ReplyAfterChat` | main.py:72-96 | a failed call leaves the event unanswered; a successful call is answered with the response's content, or with the mapped text of the exception `get_role_and_content` raised |
| `LineBot.IntendedReplyAfterChat` | main.py:77-96 | with `raise Exception(...)`, every outcome is a reply, and a failed call is answered with the mapped error text |
| `LineBot.Bot.constructor` | main.py:29-33 | an empty memory configured with two turn pairs and no model clients |
| `LineBot.Bot.EnsureClient` | main.py:59-60 | a client with the default key is created only for a user without one; an existing client is reused and the map is unchanged |
| `LineBot.Bot.Converse` | main.py:70-82 | the user turn is appended before the call and the model is sent exactly that history; the assistant turn is appended only on success with a `(role, content)`; on failure the user turn stays; overrides are unchanged |
| `LineBot.Bot.HandleTextMessage` | main.py:53-98 | the client is looked up or created first; the text is stripped; the command stores the stripped remainder after five code points as the override, empties the history, replies `輸入成功` and calls nothing; any other text behaves as `Converse` |

## Left out

- Flask routing, the LINE webhook signature check, `reply_message`, the audio and image handlers and the `home` route (main.py:36-49, 98-130): transport I/O. The reply is the handler's `Outcome`.
- The `requests` calls, JSON decoding and the `Content-Type` header that `_request` adds to the client's shared headers on a POST with a body (src/models.py:85-95): the exchange is the parameter `http`, and `HttpRequest` carries only the verb, URL, bearer key and body. The unused `files` argument is not modelled.
- `scan_log`'s pagination, `write_log`, `_handle_error` and `get_log_html_body` (src/models.py:146-169, 213-271): calls into boto3 and pandas. `QueryLogParams` stops at the parameters passed to the scan.
- `src/utils.py` and `src/logger.py` are not part of this model: `get_role_and_content` is the parameter `roleAndContent`, and logging is dropped.
- The interface classes `MemoryInterface` and `ModelInterface` (src/memory.py:8-16, src/models.py:18-49) only raise `NotImplementedError`.
- The unused `api_keys` map (main.py:33).
- Environment variables are fixed strings; an unset variable (Python `None`) for the system message, API key or engine is not modelled.
- `LineBot.ErrorText`: Python's `str()` of numbers, lists and dicts is the parameter `repr`, not Python's own rendering.
- `OpenAI.Interpret`: JSON floats are not modelled; numbers are integers.
- `HistoryPolicy.Drop`: the `IndexError` Python raises for an empty history when `n <= -2` is excluded by the precondition; the code only calls the rule on non-empty histories.
- Object identity: `get` returns the stored list object itself and clients are objects; here both are values, so aliasing is not captured.
- Concurrency: the code has none, and none is modelled.

## Findings

| source | as written | input that shows it | evidently intended | confidence | as-written member | corrected member |
|---|---|---|---|---|---|---|
| main.py:78 | a failed model call raises `BaseException`, which `except Exception` at main.py:85 does not catch, so no reply is sent and the error mapping at main.py:88-96 never sees model errors | any non-command text whose call returns `(False, None, 'Incorrect API key provided: ...')` | `raise Exception(error_message)`, so the user gets the mapped error reply | high (Python's exception hierarchy); not executed | `LineBot.ReplyAfterChat` | `LineBot.IntendedReplyAfterChat` |
| src/memory.py:50 | the trimmed history returned by `_drop_message` is discarded, so histories grow without bound | count 2 and seven appended turns leave eight entries, above the six the rule allows | `self.storage[user_id] = self._drop_message(user_id)` | medium; not executed | `ConversationMemory.ReplayAppends` | `HistoryPolicy.TrimmedHistoryBounded` |

The class `Memory` and the handler keep the code's behaviour; the corrected members state what the evident intent would guarantee.

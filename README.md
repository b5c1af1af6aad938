# Primer chat wrapper around llama.cpp, modelled in Dafny

This project models the session layer of the Primer AI-teacher chat wrapper
(`src/llama_chat.py`). The wrapper keeps one process-wide llama.cpp model
handle, turns a conversation history of role-tagged messages into a single
text prompt, asks the engine for a continuation, and returns the reply
together with the updated history.

Three modules, one per concern:

- `Whitespace` (`whitespace.dfy`): Python's `str.strip()`, which is applied to
  the generated text. `IsSpace` is the set of characters for which
  `str.isspace()` holds. `Strip` scans from the left and then from the right,
  as CPython's implementation does.
- `PromptFormat` (`prompt.dfy`): messages and roles, and the rendering of a
  history. `Body` and `Format` are the recursive specification. `BuildPrompt`
  is the loop of the source, proved equal to `Format`.
- `LlamaChat` (`llama_chat.dfy`):
  - `Session` is a class whose `model` field stands for the module-global
    `_llama_model`, with `Initialize`, `Cleanup` and `Respond`.
  - `Turn` is the specification of one turn as a function of the handle
    state. The lemmas about `Turn` state the history contract.
  - `InitialHistory` is the seed history.

The llama.cpp loader and the generation call are foreign code. They are
function parameters:
- the loader maps a `LoadRequest` to `Loaded(handle)` or `LoadFailed(detail)`;
- the engine maps a handle and a `Generation` request to `Ok(text)` or `Err(detail)`.

A failure to extract `choices[0]['text']` from the engine's response is part
of `Err`. Roles are strings, as in the source. A message whose role is not
`system`, `user` or `assistant` adds nothing to the prompt.

The seed history is one system message followed by six
user/assistant example exchanges, 13 messages in all (`SeedExchangeCount`).

## Model

| member | source | states |
|---|---|---|
| `Whitespace.IsSpace` | src/llama_chat.py:112 | the characters `strip()` removes, Python's `str.isspace()` set: space, tab, line feed and carriage return are in it, ASCII letters, digits and `:` are not; `Strip`, `StripIsSlice` and `StripAllSpace` are stated over it |
| `Whitespace.Strip` | src/llama_chat.py:112 | the stripped reply has no leading or trailing whitespace and is no longer than the engine text |
| `Whitespace.SkipSpace` | src/llama_chat.py:112 | the scan from the left stops at the first character that is not whitespace, or at the end, and passes over whitespace only |
| `Whitespace.SkipSpaceBack` | src/llama_chat.py:112 | the scan from the right stops just after the last character that is not whitespace, never before the left scan's stop, and passes over whitespace only |
| `Whitespace.StripIsSlice` | src/llama_chat.py:112 | the stripped reply is the contiguous slice of the engine text that starts after its leading whitespace, and only whitespace is cut on either side |
| `Whitespace.StripIdempotent` | src/llama_chat.py:112 | stripping an already stripped reply changes nothing |
| `Whitespace.StripKeepsTrimmed` | src/llama_chat.py:112 | text without outer whitespace is returned unchanged |
| `Whitespace.StripAllSpace` | src/llama_chat.py:112 | an all-whitespace engine text yields the empty reply |
| `PromptFormat.Render` | src/llama_chat.py:92-97 | one message's text is empty exactly when its role is none of `system`, `user`, `assistant`, and otherwise is longer than its content; `BodySingleton` and `ThreeMessageExample` give the three label layouts |
| `PromptFormat.Body` | src/llama_chat.py:87-97 | the rendered history is empty exactly when no message has a known role; `BodyAppend` states that it follows history order and distributes over concatenation |
| `PromptFormat.Format` | src/llama_chat.py:87-99 | the prompt is the bare cue exactly when no message has a known role; `FormatEndsWithCue`, `FormatAppend`, `FormatEmpty` and `UnknownRoleDropped` state the rest |
| `PromptFormat.FormatEndsWithCue` | src/llama_chat.py:99 | every prompt ends with the cue `Assistant:`, and what precedes the cue is the rendered history |
| `PromptFormat.BodyAppend` | src/llama_chat.py:87-97 | rendering is order-preserving and distributes over concatenation of histories |
| `PromptFormat.FormatAppend` | src/llama_chat.py:87-99 | the prompt of `h1 + h2` is `Body(h1)` followed by the prompt of `h2`; without the cue it is `Body(h1) + Body(h2)` |
| `PromptFormat.FormatEmpty` | src/llama_chat.py:87-99 | an empty history gives exactly `Assistant:` |
| `PromptFormat.UnknownRoleDropped` | src/llama_chat.py:92-97 | a message whose role is none of the three can be removed from anywhere in the history without changing the prompt |
| `PromptFormat.UserTurnLast` | src/llama_chat.py:82-99 | for a history extended by a user message, the prompt ends with `User: <text>\n` followed by the cue |
| `PromptFormat.ThreeMessageExample` | src/llama_chat.py:87-99 | system, user and assistant messages render to `System: S\n\nUser: U1\nAssistant: A1\n\nAssistant:` |
| `PromptFormat.BuildPrompt` | src/llama_chat.py:87-99 | the loop's prompt equals `Format` of the whole history; its invariant is that the prompt so far is `Body` of the processed prefix |
| `LlamaChat.Request` | src/llama_chat.py:102-109 | the generation request carries the prompt unchanged, `max_tokens=120`, the stop list `\n\n`, `User:`, `System:` and `echo=False` |
| `LlamaChat.Turn` | src/llama_chat.py:64-122 | a turn never drops or alters the caller's messages and adds at most two; `TurnWithoutModel`, `TurnFailureRollsBack`, `TurnSuccessAppends`, `TurnHistoryOutcomes` and `TurnKeepsWellFormed` state its cases |
| `LlamaChat.TurnWithoutModel` | src/llama_chat.py:76-79 | with no handle the reply is the fixed not-initialised sentinel, which starts with `Confused: `, and the history is the caller's |
| `LlamaChat.TurnPrompt` | src/llama_chat.py:82-109 | the only request the turn sends the engine carries the caller's history rendered, then `User: <prompt>\n`, then `Assistant:`: two engines that agree on that request give the same turn |
| `LlamaChat.TurnFailureRollsBack` | src/llama_chat.py:119-122 | on an engine or extraction error the reply is `Confused: Error generating response: ` followed by the error detail, and the history is the caller's |
| `LlamaChat.TurnSuccessAppends` | src/llama_chat.py:82-117 | on success the history is longer by exactly 2, begins with the caller's history, then holds the user message and an assistant message; the reply is the stripped engine text, has no outer whitespace, and equals the appended assistant content |
| `LlamaChat.TurnHistoryOutcomes` | src/llama_chat.py:76-122 | for every input the returned history is either the caller's or the caller's plus exactly the user and assistant messages; it is the caller's exactly when there is no handle or the engine failed |
| `LlamaChat.CompletePairsAppend` | src/llama_chat.py:115-117 | appending one user/assistant pair keeps a sequence of complete exchanges complete |
| `LlamaChat.TurnKeepsWellFormed` | src/llama_chat.py:82-122 | a history made of a system message and complete exchanges keeps that shape after any turn |
| `LlamaChat.Exchanges` | src/llama_chat.py:15-28 | the example interactions give twice as many messages as exchanges |
| `LlamaChat.ExchangesComplete` | src/llama_chat.py:15-28 | the messages made from the example interactions are complete user/assistant pairs |
| `LlamaChat.ExchangesAt` | src/llama_chat.py:15-28 | exchange `i` becomes the user message at position `2i` and the assistant message at `2i+1` |
| `LlamaChat.InitialHistory` | src/llama_chat.py:31 | the seed history is the system message followed by the exchanges, `1 + 2n` messages long and well-formed |
| `LlamaChat.InitialHistoryAt` | src/llama_chat.py:15-31 | the example interactions follow the system message in their own order: example `i` is the user message at position `1 + 2i` and its assistant answer at `2 + 2i` |
| `LlamaChat.CannedEngineTurn` | src/llama_chat.py:102-117 | against an engine that always answers `Neutral: test.`, any turn with a handle replies with exactly that text and grows the history by two |
| `LlamaChat.CannedEngineScenario` | src/llama_chat.py:64-122 | with the six-exchange seed and an engine that always answers `Neutral: test.`, the reply is `Neutral: test.` and the history grows from 13 to 15 messages |
| `LlamaChat.Session.constructor` | src/llama_chat.py:34 | a fresh session has no model handle |
| `LlamaChat.Session.Initialize` | src/llama_chat.py:36-62 | while a handle exists nothing changes, whatever the arguments; otherwise the loader's handle is installed, or on a load error no handle is installed and the error is reported to the caller |
| `LlamaChat.Session.Cleanup` | src/llama_chat.py:124-132 | always ends with no handle, and does nothing when there is none |
| `LlamaChat.Session.Respond` | src/llama_chat.py:64-122 | the turn computed step by step (the prompt loop, then on success the working copy extended by the assistant message) equals `Turn` of the current handle; with no handle it gives the sentinel and the caller's history |
| `LlamaChat.RespondAfterCleanup` | src/llama_chat.py:124-132 | a turn after cleanup gives the not-initialised sentinel and the caller's history, as if no model had ever been loaded |
| `LlamaChat.InitializeTwice` | src/llama_chat.py:47-49 | initialising twice with different paths keeps the handle of the first load and reports that the model was already initialised |
| `LlamaChat.CleanupTwice` | src/llama_chat.py:128-132 | cleanup is idempotent |

## Left out

- Console output: every `print` call (src/llama_chat.py:48, 52, 59, 61, 78, 121, 132). `Initialize` returns an `InitStatus` in place of the messages, and the load exception that the source re-raises (src/llama_chat.py:62) is the returned `LoadError(detail)` status.
- The `__main__` harness (src/llama_chat.py:134-159): reading standard input, `argv`, the `quit` command and the exit code are console I/O.
- The llama.cpp `Llama` constructor and the generation call are foreign code. They are the `loader` and `engine` parameters. A real engine samples at random. Here one turn's outcome is fixed by the `engine` value passed in.
- The sampling parameters `temperature=0.7` and `top_p=0.9` are floating point and are forwarded unchanged. `Generation` records only `max_tokens=120`, the stop list and `echo=False`.
- `n_ctx`, `n_gpu_layers` and `verbose` are forwarded unchanged to the loader. The unused `model_name` parameter of `get_primer_response` is not modelled.
- The wording of `SYSTEM_PROMPT` and of the six example exchanges is a parameter of `InitialHistory`. The mood-tag rule in that text is policy for the model and is not checked by any code.
- The exception detail `{e}` is an arbitrary string carried by `Err` and `LoadFailed`.
- Histories are values (`seq<Message>`), so the caller's list cannot be changed by construction. Object identity is not modelled: the source returns the very same list object on failure and a new list on success.
- A history entry whose dict lacks a `role` or `content` key would raise `KeyError` in the prompt loop. That error is caught and leads to the error sentinel. `Message` always carries both fields, so this path is not modelled.
- Exceptions that are not subclasses of `Exception`, such as `KeyboardInterrupt`, are not caught by the source and are not modelled.
- The single process-wide handle: the source keeps one `global _llama_model` (src/llama_chat.py:34, 45, 128), while each `Session` object has its own `model` field. Two `Session` objects could hold two handles at once, which the source cannot. Callers must share one `Session` to get the source's single handle.
- Concurrency: the source has no lock around the global handle, and the model is single-threaded.

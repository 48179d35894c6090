# Zendesk agent: model provider and chat front ends in Dafny

This project models the part of the Zendesk agent that talks to a language
model:

- `ModelProvider` picks a backend. The cloud backend is OpenAI. The local
  backend is an OpenAI-compatible Ollama server, reached on `/v1` with an
  `/api` fallback.
- `chat` is a streaming generator. It accumulates reasoning and answer text
  chunk by chunk and yields a cumulative snapshot after every piece. When the
  stream raises, a local backend restarts once on the fallback endpoint and a
  cloud backend yields one error snapshot.
- `generate_response` is a single-shot call. It strips the answer and
  retries once on the fallback endpoint for a local backend.
- The command-line front ends (`src/cli.py` and the top-level `cli.py`) wrap
  these calls. They build the `summarize` prompt, keep the chat history, and
  compose what the chat window shows.

The OpenAI client is not modelled. A backend is a function from the request
it receives to its outcome:

- `Request -> Attempt` for a streamed call: the chunks it delivers, then
  either a clean finish or an exception.
- `Request -> Completion` for a single-shot call.

Every operation records the requests it makes. This is how the model states
which endpoint is called, with which model and messages, and how often.

Files:

- `wrappers.dfy`: `Option` and `Result`.
- `pystr.dfy`: the Python string built-ins the core uses: `lower`, substring
  `in`, `strip`, `join`, and `split` as the inverse of `join`.
- `streaming.dfy`: the accumulating loop of `chat`. `Step` is one
  iteration, `Run` is the loop as a function, and the method `Accumulate` is
  the loop itself.
- `provider.dfy`: `ModelProvider`, with `Create`, `Chat`/`ChatStream` and
  `GenerateResponse`.
- `cli.py` wrappers, in two modules:
  - `cli.dfy` covers `src/cli.py`: `generate_response`, the summarize
    prompt, `user_message` and `bot_message`. The chat history is a class
    whose message list the handlers change in place.
  - `root_cli.dfy` covers the top-level `cli.py`: `chat_fn`.

The top-level `cli.py` has its own copies of `generate_response`
(cli.py:36-49) and of the summarize prompt (cli.py:64-66). They are the same
code as in `src/cli.py` and are modelled once, in module `Cli`.

## Model

| member | source | states |
|---|---|---|
| PyStr.Lower | src/model_provider.py:54 | `model.lower()` keeps the length and lower-cases each character in place (ASCII letters) |
| PyStr.ContainsFirst | src/model_provider.py:54 | a string that contains a non-empty substring contains that substring's first character |
| PyStr.Contains | src/model_provider.py:54 | `sub in s`; no contract of its own: `ContainsFirst`, `IsQwen3Iff` and `ReasoningModelExamples` state what it decides |
| PyStr.LeadingSpace | src/model_provider.py:134 | the whitespace run `strip` removes in front: all whitespace, and followed by a non-space or the end |
| PyStr.TrailingSpace | src/model_provider.py:134 | the whitespace run `strip` removes at the back: all whitespace, and preceded by a non-space or the start |
| PyStr.Strip | src/model_provider.py:134 | the stripped answer is no longer than the reply and neither starts nor ends with whitespace |
| PyStr.StripKeepsMiddle | src/model_provider.py:134 | the stripped answer is the contiguous part of the reply after its leading whitespace, and everything before it is whitespace |
| PyStr.StripDropsTrailingSpace | src/model_provider.py:134 | everything after the stripped answer in the reply is whitespace |
| PyStr.LeadingSpacePadded | src/model_provider.py:134 | whitespace put before a text that does not start with whitespace is exactly what `lstrip` counts |
| PyStr.TrailingSpacePadded | src/model_provider.py:134 | whitespace put after a text that does not end with whitespace is exactly what `rstrip` counts |
| PyStr.StripPadded | src/model_provider.py:134 | stripping a padded text gives back exactly the text when it neither starts nor ends with whitespace |
| PyStr.StripIdempotent | src/model_provider.py:134 | stripping twice is stripping once |
| PyStr.Join | src/cli.py:66 | `sep.join(parts)`; no contract of its own: `JoinSnoc` states how it grows and `SplitJoin` that `split` undoes it |
| PyStr.JoinSnoc | src/cli.py:66 | joining one more part appends the separator and that part (just the part when it is the first) |
| PyStr.IndexOf | src/cli.py:66 | the position found holds the separator and no earlier position does |
| PyStr.Split | src/cli.py:66 | splitting never gives an empty list |
| PyStr.SplitFirst | src/cli.py:66 | splitting at a first separator gives the part before it, then the split of the rest |
| PyStr.SplitJoin | src/cli.py:66 | `"\n".join(parts)` split at newlines gives back `parts` when no part holds a newline |
| Streaming.Step | src/model_provider.py:65-80 | one chunk appends its content to `response`, and its reasoning to `reasoning` on the reasoning path only, and yields one snapshot per appended piece |
| Streaming.StepShape | src/model_provider.py:67-80 | a chunk on the plain path yields `{"content": response}` exactly when it has content; on the reasoning path the content snapshot carries the reasoning or `None` when it is empty; a chunk that yields nothing changes nothing; every snapshot extends the previous one |
| Streaming.ReasoningStepYields | src/model_provider.py:68-75 | on the reasoning path a chunk without delta yields nothing, a reasoning piece yields the grown reasoning with the current response, and content before any reasoning yields `None` as reasoning |
| Streaming.Run | src/model_provider.py:63-80 | on the plain path the reasoning accumulator stays empty for the whole stream |
| Streaming.RunAccumulates | src/model_provider.py:63-80 | after the loop `response` is all content pieces joined in order, and `reasoning` is all reasoning pieces joined (empty on the plain path) |
| Streaming.RunGrows | src/model_provider.py:63-80 | within one attempt every snapshot extends the previous one in content and in reasoning, and the last snapshot shows the final accumulators |
| Streaming.Accumulate | src/model_provider.py:63-80 | the loop yields exactly the snapshots of `Run` over the same chunks |
| Streaming.PlainSnapshots | src/model_provider.py:76-80 | on the plain path there is one snapshot per content chunk, and the k-th shows the first k+1 content pieces joined |
| Streaming.HelloSnapshots | src/model_provider.py:63-80 | the chunks "Hel" and "lo" yield the snapshots "Hel" then "Hello" on either path |
| Provider.ChatMessages | src/model_provider.py:50 | the request is the system prompt, then the history unchanged, then the user message |
| Provider.PrimaryClient | src/model_provider.py:27-37 | the cloud client uses `OPENAI_API_KEY` on the vendor endpoint; the local client uses `OLLAMA_URL` (default `http://localhost:11434`) plus `/v1` with key `ollama` |
| Provider.LocalEndpoints | src/model_provider.py:32-37 | a local backend's primary and fallback clients share the base URL, under `/v1` and `/api`, and are different clients |
| Provider.FallbackClient | src/model_provider.py:86-89 | the `/api` client; no contract of its own: `LocalEndpoints` relates it to the primary client, and `ChatRetriesOnce` and `GenerateResponse` state that retries use it |
| Provider.IsQwen3Iff | src/model_provider.py:52-54 | the reasoning-model test holds exactly when the lower-cased model name contains `qwen`; the `qwen3` test adds nothing |
| Provider.ReasoningModelExamples | src/model_provider.py:52-54 | `Qwen3-32B` counts as a reasoning model and `gpt-4o-mini` does not |
| Provider.IsQwen3 | src/model_provider.py:52-54 | `is_qwen3()`; no contract of its own: `IsQwen3Iff` and `ReasoningModelExamples` state what it decides |
| Provider.Answer | src/model_provider.py:134 | a reply with content gives its stripped text; a reply without content fails with the `NoneType` error; a raised error is passed on |
| Provider.Create | src/model_provider.py:10-37 | the provider keeps its name; the model defaults to `gpt-4o-mini` for the cloud backend and `llama3.2` otherwise; the client is the one `_init_client` builds; a local backend remembers its base URL |
| Provider.ModelProvider.Chat | src/model_provider.py:39-113 | the generator yields exactly the snapshots of `ChatStream` and makes exactly its calls |
| Provider.ModelProvider.ChatStream | src/model_provider.py:39-113 | what `chat` yields and calls, as a whole; no contract of its own: `ChatRetriesOnce`, `ChatYields` and `LocalRestartStartsOver` state its meaning, and `Chat` is proved equal to it |
| Provider.ModelProvider.ChatRetriesOnce | src/model_provider.py:56-113 | `chat` calls the backend once, or twice only for a local backend whose first stream raised; every call has the provider's model and the same messages; the second call goes to `/api` |
| Provider.ModelProvider.ChatYields | src/model_provider.py:56-113 | `chat` yields the first attempt's snapshots; a cloud failure adds one error snapshot; a local failure adds the fallback's snapshots from empty accumulators, plus one error snapshot if the fallback raises too |
| Provider.ErrorSnapshot | src/model_provider.py:111-113 | `{"content": "Error generating response: " + str(e)}`; no contract of its own: `ChatYields` and `CloudFailureReply` state where it is yielded |
| Provider.LocalRestartStartsOver | src/model_provider.py:82-109 | after a local stream showed "Hello" and raised, a fallback streaming "Hi" makes the shown content drop back to "Hi" |
| Provider.ModelProvider.GenerateResponse | src/model_provider.py:115-154 | one or two calls, all with the model and the `[system, user]` messages; a second call happens exactly when the backend is local and the first call failed; it goes to `/api`; the result is the last call's stripped answer or its error, re-raised |
| Cli.GenerateResponse | src/cli.py:36-49 | the wrapper returns or raises exactly what a freshly created provider's `generate_response` does |
| Cli.LocalAnswerIsStripped | src/cli.py:36-49 | with no model given, a local backend asks `llama3.2` on `/v1`, and a reply padded with whitespace comes back unpadded |
| Cli.Bodies | src/cli.py:65 | one body per comment, in order, `""` when the comment has no body |
| Cli.Body | src/cli.py:65 | `c.get('body', '')`; no contract of its own: `Bodies` and `SummarizePromptSnoc` state where it lands in the prompt |
| Cli.SummarizePrompt | src/cli.py:64-66 | the prompt starts with the heading line, and is only that line when there are no comments |
| Cli.SummarizePromptSnoc | src/cli.py:65-66 | for any bodies, one more comment extends the prompt by a newline and its body (no extra newline after the heading's own) |
| Cli.SummarizePromptLines | src/cli.py:64-66 | split into lines, the prompt is the heading then one line per comment body; no comments gives one empty line |
| Cli.UserMessage | src/cli.py:87-90 | the user turn is appended to the history in place, and the handler returns an empty input and the same list |
| Cli.Display | src/cli.py:110-113 | the text shown for one snapshot; no contract of its own: `DisplayShows` states its layout |
| Cli.DisplayShows | src/cli.py:106-113 | the answer always ends the display; the display is the answer alone exactly when there is no reasoning; otherwise it opens with the "Thinking:" block, which holds the reasoning text and is closed by the `</div>` separator right before the answer |
| Cli.BotRequestIsHistory | src/cli.py:93-97 | when the last entry is the user's turn, the request is the system prompt followed by the whole history |
| Cli.ShowReplies | src/cli.py:99-115 | the placeholder is appended, then overwritten with each snapshot's display; each yielded list is the old history plus that display; the list ends on the last display, or on the empty placeholder |
| Cli.BotMessage | src/cli.py:93-115 | `bot_message` asks `chat` with the last entry as message and the rest as history, and shows each reply as `ShowReplies` states |
| RootCli.PairMessages | cli.py:90-93 | two messages per `[user, assistant]` pair, user first, in pair order |
| RootCli.ConvertPairs | cli.py:90-93 | the conversion loop builds exactly `PairMessages` |
| RootCli.LastYielded | cli.py:97-101 | the result is `""` when nothing was yielded, and otherwise the last yielded snapshot |
| RootCli.ChatFn | cli.py:87-101 | `chat_fn` returns the last snapshot `chat` yields for the converted history, or `""` |
| RootCli.CloudFailureReply | cli.py:96-101 | when a cloud stream raises, `chat_fn` returns the error snapshot, whatever was shown before |

## Left out

- The OpenAI client library, HTTP and the model servers are not modelled.
  Each backend is a function from the request to its outcome. An exception
  anywhere in a call is one `failure`/`Raised` value with its message:
  raised by `create`, during iteration, or by an empty `choices` list. Its
  text is the `str()` of the exception. Client construction cannot fail in
  the model: with `OPENAI_API_KEY` unset, `OpenAI(api_key=None)` raises
  inside `__init__` (src/model_provider.py:30), but `Create` always returns
  a provider.
- `load_dotenv` and `os.getenv` are replaced by an `Env` value. The model
  holds the values the environment would give.
- Python's `str.lower` is modelled for ASCII letters only. For the `qwen`
  test this is exact: no other character lower-cases to `q`, `w`, `e` or `n`.
- `chat` is a lazy generator. The model gives the whole sequence of what it
  yields. Interleaving with the consumer (Gradio rendering between yields)
  is not modelled.
- Provider.ModelProvider.ChatStream has no contract of its own. Its
  properties are stated by `ChatRetriesOnce`, `ChatYields` and
  `LocalRestartStartsOver`, and `Chat` is proved equal to it.
- Cli.BotMessage requires a non-empty history. The source raises
  `IndexError` on `history[-1]` when the history is empty, and that path is
  not modelled.
- `resp.get("content", "")` in `bot_message` never takes its default, since
  every snapshot has a content entry. The model reads the content directly.
- Cli.ShowReplies and Cli.BotMessage record in `frames` a copy of what the
  list holds at each yield. `bot_message` yields the same list object every
  time, so a consumer that keeps an earlier yielded value sees it change
  later. The model does not capture that aliasing.
- The locals `last_reasoning` and `last_content` of `bot_message` are
  written but never read. They are not modelled.
- Reading `system_prompt.txt` is not modelled; the system prompt is a
  parameter. Neither is printing, argument parsing (`setup_cli`), the
  `tickets` and `comments` commands, or the Gradio UI.
- The helpdesk client (`zendesk_client.py`) is not part of this model. Ticket
  comments are given as maps from field name to text.
- `groq_response.py`, `main.py`, `src/main.py` and `src/ui.py` are not part
  of this model.

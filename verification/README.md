# A Dafny model of the MCP base examples

This project models the five example components of `zai_mcp/base_example` and
proves properties of them:

- **streaming output** (`stream_output.py`): `StreamOutput` slices content into
  chunks of ten characters. A producer thread puts the chunks on a queue,
  followed by a `None` end marker, and a consumer polls the queue.
  `RealTimeStreamer` also calls registered callbacks on each chunk.
  `BatchStreamProcessor` runs the inputs in batches and collects each stream's
  content.
- **memory** (`memory.py`): `MemoryManager` is a bounded list of entries with
  recent-entry queries, a case-insensitive search and a clear operation.
  `ConversationMemory` records conversation turns and renders the latest ones as
  context.
- **prompts** (`prompt.py`): `PromptTemplate` finds the `{name}` placeholders of
  a template and fills them in. `PromptManager` is a registry of named templates
  that starts with four defaults. `DynamicPromptGenerator` builds the QA and
  summary prompts.
- **the GLM wrapper** (`glm45_base_fixed.py`): the text handling of
  `GLM4BaseFixed` and `GLM4Chat`. This covers the load check, the blank-prompt
  guard, stripping the echoed prompt, batch generation, the five-turn chat
  window and the chat history.
- **tools** (`agent_selfdefine_tools.py`): `CustomTool`, the calculator's
  operation dispatch, and the tool registry of `AgentWithTools`.

Each source file has its own module: `Stream` and `Batch` for the streaming
file, then `Memory`, `Prompt`, `Chat` and `Tools`. Three modules support them:

- `Wrappers` holds `Option`, and `Result` with one error per exception the
  source raises.
- `PySeq` holds Python slicing: `s[start:]` with negative starts, and the
  `range(0, len, step)` slicing loop.
- `Text` holds `strip`, `lower`, substring search and `join`.

Python exceptions become `Err` values rather than preconditions.

The threads are modelled sequentially, and their timing is a parameter:

- A producer's run is a function of where `stop_streaming` interrupted it.
  `stopAt == Some(k)` means the flag was cleared before iteration `k`.
- Each streamer in a batch gets an arrival schedule: how many more items its
  producer has put on the queue before each poll.

The model is proved correct for every schedule.

## Behaviour as written

In each case below the code does something its docstrings or names do not
suggest, and the model follows the code.

- `_process_batch` appends a stream's result when that stream finishes. A
  batch's results therefore come out in completion order, not input order.
  `Batch.CompletionOrderExample` gives an instance: for the inputs `["ab", ""]`
  the results are `["", "ab"]`. What is proved is that each batch's results are
  a rearrangement of its inputs.
- `get_next_chunk` returns `""` both on a timeout and at the end of the stream.
  Only the `is_streaming` flag tells the two apart
  (`Stream.EmptyResultAmbiguity`).
- In the source, `GLM4Chat` is declared as a subclass of `GLMFixed`, a name
  the module never defines (`glm45_base_fixed.py:136`). Importing the module
  would therefore raise a `NameError`. The model gives `GLM4Chat` the evidently
  intended base class, `GLM4BaseFixed`.
- `memory[-max_memory_size:]` with a bound of 0 keeps every entry, because
  `-0 == 0`. A negative bound drops the oldest entries. `Memory.AddMemory`
  models all three cases as written. The same holds for the `count` of
  `get_recent_memories` and the `turns_back` of `get_conversation_context`.

## Model

| member | source | states |
|---|---|---|
| `Stream.GenerateStream` | zai_mcp/base_example/stream_output.py:17-21 | A zero chunk size is an error and a negative one yields no chunks. Otherwise the chunks concatenate back to the content, none is empty or longer than the chunk size, all but the last are full, and there are just enough of them to cover the content. |
| `PySeq.SlicesFlatten` | zai_mcp/base_example/stream_output.py:19-20 | The slices of a sequence, joined in order, give back the sequence: nothing is lost or repeated. |
| `PySeq.SlicesCount` | zai_mcp/base_example/stream_output.py:19-20 | The number of slices is the ceiling of length / size. |
| `PySeq.SliceAt` | zai_mcp/base_example/stream_output.py:19-20 | Slice `k` is `xs[k*size : k*size+size]` with the end clamped, which matches the loop's index arithmetic. |
| `PySeq.SlicesOffset` | zai_mcp/base_example/stream_output.py:107-110 | The first `b` slices together hold `min(b*size, len)` elements, so batch `b` starts at input `b*size`. |
| `Stream.Produce` | zai_mcp/base_example/stream_output.py:31-36 | The producer puts a prefix of the chunks on the queue, all of them unless a stop interrupted it, and then exactly one end marker, last. A stop before the first iteration leaves only the marker. |
| `Stream.ProduceFrom` | zai_mcp/base_example/stream_output.py:31-36 | From any iteration on, the producer puts the remaining chunks up to where the stop interrupted it, in order, then exactly one end marker. Once past the stop it puts only the marker. |
| `Stream.StartStreaming` | zai_mcp/base_example/stream_output.py:24-39 | It is a no-op while streaming. Otherwise the producer's items are appended after whatever the queue still held, and the flag stays set unless a stop cleared it. |
| `Stream.GetNextChunk` | zai_mcp/base_example/stream_output.py:41-50 | An empty queue gives `""` and changes nothing. The end marker gives `""`, is removed and clears the flag. A chunk is returned and removed, and the flag is untouched. |
| `Stream.StopStreaming` | zai_mcp/base_example/stream_output.py:52-54 | The flag is cleared and the queue is left alone. |
| `Stream.DrainQueue` | zai_mcp/base_example/stream_output.py:41-50 | Polling a queue of chunks plus an end marker returns the chunks in order and then `""`. It leaves an empty queue with the flag cleared. |
| `Stream.AfterEndIdle` | zai_mcp/base_example/stream_output.py:43-50 | After the end, every poll returns `""` and changes nothing, so the end is never signalled twice. |
| `Stream.StreamRoundTrip` | zai_mcp/base_example/stream_output.py:24-50 | Starting a fresh streamer and draining it returns exactly the content's chunks, whose concatenation is the content. After a stop it returns the first chunks only, which spell a prefix of the content. |
| `Stream.EmptyResultAmbiguity` | zai_mcp/base_example/stream_output.py:41-50 | While streaming, `""` means a timeout or the end. The flag after the call tells which: it is cleared exactly when the end marker was read. |
| `Stream.AddCallback` | zai_mcp/base_example/stream_output.py:65-67 | The callback goes last; earlier callbacks and the stream state are unchanged. |
| `Stream.Fanout` | zai_mcp/base_example/stream_output.py:85-89 | Every callback is called once on the chunk, in registration order, whether or not an earlier one raised. |
| `Stream.CallbackTrace` | zai_mcp/base_example/stream_output.py:76-91 | The callback producer's run takes one block of one put plus one call per callback for every chunk it puts, plus the end marker. Past the stop it puts only the marker. |
| `Stream.TraceEndOnce` | zai_mcp/base_example/stream_output.py:76-91 | The end marker is put exactly once, as the last event of the run. |
| `Stream.CallbacksKeepQueue` | zai_mcp/base_example/stream_output.py:76-91 | The callback producer puts on the queue exactly what the plain producer puts. A raising callback loses no chunk and never suppresses the end marker. |
| `Stream.CallbackOrder` | zai_mcp/base_example/stream_output.py:81-89 | Each chunk is put on the queue before any callback sees it, and is followed at once by one call of each callback, in order. |
| `Stream.TraceShift` | zai_mcp/base_example/stream_output.py:76-91 | After the block for one chunk, the run continues exactly as the run from the next chunk. |
| `Stream.RunIndex` | zai_mcp/base_example/stream_output.py:76-91 | The run from chunk `i` is the tail of the whole run that starts after `i` blocks. |
| `Stream.CallbacksInRun` | zai_mcp/base_example/stream_output.py:76-91 | In the whole run, chunk `i` is put at position `i*(callbacks+1)` and is followed at once by one call of each callback on it, in registration order. |
| `Stream.StartStreamingWithCallbacks` | zai_mcp/base_example/stream_output.py:69-94 | It is a no-op while streaming. Otherwise the queue and flag end up as after `start_streaming`, the callbacks are kept, and the events the run produces are exactly the callback producer's trace from the first chunk. |
| `Batch.PollWorker` | zai_mcp/base_example/stream_output.py:128-136 | A poll retires the streamer exactly when it reads the end marker, or when the flag is already cleared and it reads nothing or an empty chunk; a retired streamer yields what it collected. A streamer kept going keeps its slot and input, and its collected text only grows. |
| `Batch.PollProgress` | zai_mcp/base_example/stream_output.py:127-136 | Polling a live streamer keeps it consistent and strictly reduces its remaining work. A streamer is finished only on its end marker, and it then holds exactly its input. |
| `Batch.Round` | zai_mcp/base_example/stream_output.py:127-136 | One pass over the `streamers[:]` snapshot polls every live streamer once. The total remaining work drops by at least the number of streamers, so the loop terminates. |
| `Batch.RoundPreserves` | zai_mcp/base_example/stream_output.py:127-136 | A pass loses no streamer and invents none: each is still live or finished, and a finished one carries its own slot and input. |
| `Batch.RoundKeepsPayloads` | zai_mcp/base_example/stream_output.py:132-136 | The contents finished in a pass, together with the inputs of the streamers still live, are the inputs the pass began with. |
| `Batch.StartWorkers` | zai_mcp/base_example/stream_output.py:118-122 | There is one started streamer per input, numbered by position, each consistent with its input. |
| `Batch.Run` | zai_mcp/base_example/stream_output.py:126-136 | `while streamers` finishes every streamer exactly once, with its own input. |
| `Batch.RunBatch` | zai_mcp/base_example/stream_output.py:114-138 | A batch gives one result per input. The results are a rearrangement of the numbered inputs and of the inputs. |
| `Batch.RunBatchSlots` | zai_mcp/base_example/stream_output.py:114-138 | Each result names a distinct slot of the batch and carries that slot's input. |
| `Batch.ProcessBatch` | zai_mcp/base_example/stream_output.py:114-138 | The batch results are as many as the inputs and a rearrangement of them. |
| `Batch.CompletionOrderExample` | zai_mcp/base_example/stream_output.py:133-136 | Results follow completion order: `["ab", ""]` gives `["", "ab"]`. |
| `Batch.BatchResults` | zai_mcp/base_example/stream_output.py:107-110 | There is one result list per batch, and each is a rearrangement of its batch. |
| `Batch.ProcessMultipleStreams` | zai_mcp/base_example/stream_output.py:103-112 | A zero limit is an error and a negative one gives no results. Otherwise there is one result per input, and each block of `max` consecutive results rearranges the same block of inputs. |
| `Batch.ProcessMultipleStreamsPermutation` | zai_mcp/base_example/stream_output.py:103-112 | Over the whole call, the results are a rearrangement of the inputs. |
| `Memory.NewManager` | zai_mcp/base_example/memory.py:10-12 | A new manager has the given bound and no entries. |
| `Memory.AddMemory` | zai_mcp/base_example/memory.py:14-26 | The new entry (with `metadata or {}`) is appended. The store is then the newest `min(max, n)` entries for a positive bound, all entries for a zero bound, and all but the oldest `-max` for a negative bound. The new entry is last and a positive bound is never exceeded. |
| `Memory.AddMemoryShift` | zai_mcp/base_example/memory.py:22-26 | Below the bound nothing is dropped. At the bound exactly the oldest entry goes. |
| `Memory.GetRecentMemories` | zai_mcp/base_example/memory.py:28-30 | The result is a suffix of the memory: the newest `count` entries, everything for zero, all but the oldest `-count` for a negative count. |
| `Memory.RecentAfterAdd` | zai_mcp/base_example/memory.py:14-30 | For a bound that is not negative, the entry just added is the one most recent memory. |
| `Memory.Filter` | zai_mcp/base_example/memory.py:32-38 | Every result is a stored entry matching the query, and every matching entry is among the results. |
| `Memory.SearchMemories` | zai_mcp/base_example/memory.py:32-38 | The search loop returns exactly the matching entries, in their stored order. |
| `Memory.FilterSpec` | zai_mcp/base_example/memory.py:35-37 | Each entry is kept in place if its lowercased content contains the lowercased query, and dropped otherwise. |
| `Memory.EmptyQueryKeepsAll` | zai_mcp/base_example/memory.py:36 | The empty query matches everything. |
| `Memory.FilterIdempotent` | zai_mcp/base_example/memory.py:32-38 | Searching the results again changes nothing. |
| `Memory.MatchesIgnoresCase` | zai_mcp/base_example/memory.py:36 | An entry matches a query exactly when it matches the lowercased query, and exactly when its lowercased content matches the query. |
| `Memory.SearchIgnoresQueryCase` | zai_mcp/base_example/memory.py:32-38 | Searching for a query and for its lowercase form gives the same results. |
| `Memory.ClearMemory` | zai_mcp/base_example/memory.py:40-42 | No entries remain, and the bound is kept. |
| `Memory.ClearForgets` | zai_mcp/base_example/memory.py:40-42 | After a clear, no search finds anything and nothing is recent. |
| `Memory.NewConversation` | zai_mcp/base_example/memory.py:47-49 | A new conversation has a store bounded at 50 and an empty session. |
| `Memory.AddConversationTurn` | zai_mcp/base_example/memory.py:51-61 | The turn is appended to the session with the first clock reading, earlier turns are kept, and its `User:/Agent:` text is added to the store with the second reading, which `add_memory` takes. |
| `Memory.TurnKeepsBound` | zai_mcp/base_example/memory.py:48-61 | A conversation's store never exceeds 50 entries however many turns are added. |
| `Memory.ContextLines` | zai_mcp/base_example/memory.py:68-70 | There are two lines per turn, `User: …` then `Agent: …`, in turn order. |
| `Memory.GetConversationContext` | zai_mcp/base_example/memory.py:63-72 | The context renders the last `turns_back` turns joined by newlines: all of them for zero, all but the oldest `-turns_back` for a negative count. An empty session gives `""`. |
| `Memory.ContextOfNewTurn` | zai_mcp/base_example/memory.py:51-72 | The one-turn context after adding a turn is exactly the text that turn stored in memory. |
| `Memory.ContextIgnoresOlder` | zai_mcp/base_example/memory.py:65 | Turns older than the window never affect the context. |
| `Text.Strip` | zai_mcp/base_example/glm45_base_fixed.py:103 | The input is whitespace, the result, then whitespace, and the result has no whitespace at either end. |
| `Text.StripFixpoint` | zai_mcp/base_example/glm45_base_fixed.py:103 | Stripping leaves a string unchanged exactly when it has no outer whitespace. |
| `Text.StripBlank` | zai_mcp/base_example/glm45_base_fixed.py:65 | A string strips to `""` exactly when it is all whitespace. |
| `Text.StripPadding` | zai_mcp/base_example/glm45_base_fixed.py:103 | Stripping removes exactly the whitespace padding around a word. |
| `Text.LowerNormalizes` | zai_mcp/base_example/memory.py:36 | A lowercased string has no capital letter left, so lowercasing it again changes nothing. |
| `Text.ContainsOccurs` | zai_mcp/base_example/memory.py:36 | The substring scan agrees with "the query occurs at some position". |
| `Prompt.Extract` | zai_mcp/base_example/prompt.py:14-17 | Every extracted name is non-empty and contains no `}`. |
| `Prompt.ExtractRender` | zai_mcp/base_example/prompt.py:14-17 | A template written from literals and placeholders gives back exactly its placeholder names, in order and with duplicates. |
| `Prompt.BraceFree` | zai_mcp/base_example/prompt.py:14-17 | A template without `{` has no variables. |
| `Prompt.Substitute` | zai_mcp/base_example/prompt.py:26 | A template without `{` is returned unchanged, and so is any template when no values are given. |
| `Prompt.SubstituteRender` | zai_mcp/base_example/prompt.py:26 | Filling in replaces exactly the placeholders the template was written with. |
| `Prompt.MakeTemplate` | zai_mcp/base_example/prompt.py:10-12 | A template keeps its text, and its variables are those the scanner finds. |
| `Prompt.Format` | zai_mcp/base_example/prompt.py:19-26 | It is an error exactly when some variable has no value, and the error names exactly those variables. Otherwise the placeholders are filled in; extra values are allowed. |
| `Prompt.FormatRender` | zai_mcp/base_example/prompt.py:19-26 | Given every name, a template written from parts formats to the parts with each placeholder replaced by its value. |
| `Prompt.Defaults` | zai_mcp/base_example/prompt.py:35-52 | The default registry has exactly the four default names, and the variables the scanner finds in them are: none; `question, context`; `length, text`; `source_language, target_language, text`. |
| `Prompt.DefaultPartsOk` | zai_mcp/base_example/prompt.py:38-49 | No default template literal contains `{` and every default placeholder is a plain name. |
| `Prompt.AddTemplate` | zai_mcp/base_example/prompt.py:54-56 | The name is inserted or overwritten with the scanned template, and every other entry is unchanged. |
| `Prompt.GetPrompt` | zai_mcp/base_example/prompt.py:58-63 | It is an error exactly for an unknown name. Otherwise the result is the named template formatted. |
| `Prompt.AddThenGet` | zai_mcp/base_example/prompt.py:54-63 | A template just added is the one `get_prompt` uses, and other names are unaffected. |
| `Prompt.OptimizePrompt` | zai_mcp/base_example/prompt.py:65-74 | It is an error exactly for an unknown name. Otherwise the result starts with the stored text and continues with the feedback note. |
| `Prompt.GenerateQaPrompt` | zai_mcp/base_example/prompt.py:82-88 | The QA prompt is the question and the context (an empty context becomes the fixed sentence) in the default template's text. It never fails. |
| `Prompt.GenerateSummaryPrompt` | zai_mcp/base_example/prompt.py:90-96 | The summary prompt is the length and the text in the default template's text. It never fails. |
| `Chat.FormatChatPrompt` | zai_mcp/base_example/glm45_base_fixed.py:143-153 | A missing history means the instance's own. The prompt is the last `min(5, n)` turns, oldest first, then the question. An empty history gives the question alone. |
| `Chat.WindowIgnoresOlder` | zai_mcp/base_example/glm45_base_fixed.py:148-150 | Turns older than the last five never reach the prompt. |
| `Chat.ShortHistoryWhole` | zai_mcp/base_example/glm45_base_fixed.py:148-153 | A history of at most five turns is rendered whole, in order. |
| `Chat.StripPrompt` | zai_mcp/base_example/glm45_base_fixed.py:101-103 | Output that does not start with the prompt is kept as is. Otherwise the rest after the prompt is stripped of its outer whitespace. |
| `Chat.StripPromptEcho` | zai_mcp/base_example/glm45_base_fixed.py:101-105 | For an echo of the prompt followed by a padded reply, echo removal returns exactly the reply. |
| `Chat.GenerateText` | zai_mcp/base_example/glm45_base_fixed.py:52-109 | A failed load gives `None`, and the model stays loaded once loaded. A blank prompt gives `""`. Otherwise the result is the decoded output with the echo removed, or `None` if generation raised. |
| `Chat.LoadedBeforeSpec` | zai_mcp/base_example/glm45_base_fixed.py:60-63 | Before a call, the model is loaded exactly when it was loaded at the start or some earlier call loaded it. |
| `Chat.BatchGenerate` | zai_mcp/base_example/glm45_base_fixed.py:111-120 | There is one result per prompt, in order, each being `generate_text` in the loaded state the earlier calls left. Afterwards the model is loaded exactly when some call loaded it. |
| `Chat.ChatTurn` | zai_mcp/base_example/glm45_base_fixed.py:155-166 | Exactly one turn is appended, with the message, and earlier turns are kept. The answer is never empty: it is the stored response, or the apology when that is empty. The model is loaded afterwards exactly when it was before or this load succeeded. |
| `Chat.ChatTurnReply` | zai_mcp/base_example/glm45_base_fixed.py:157-163 | The stored reply is `generate_text`'s result for the prompt `format_chat_prompt(message)` built (`""` when there is none), and the load flag is the one `generate_text` left. |
| `Chat.ChatTurnAppends` | zai_mcp/base_example/glm45_base_fixed.py:161-164 | The new history is the old one plus exactly one turn. |
| `Chat.ChatFeedsNextPrompt` | zai_mcp/base_example/glm45_base_fixed.py:143-166 | The next prompt ends with the turn `chat` just recorded followed by the next question. |
| `Chat.LatestTurnLast` | zai_mcp/base_example/glm45_base_fixed.py:143-153 | When the history ends with a turn, the prompt ends with that turn's text followed by the question. |
| `Tools.Calculate` | zai_mcp/base_example/agent_selfdefine_tools.py:24-36 | It is an error exactly for an operation outside the four. Otherwise it computes the sum, difference or product. Division by zero gives infinity; any other quotient times the divisor gives the dividend. |
| `Tools.CalculateInverse` | zai_mcp/base_example/agent_selfdefine_tools.py:26-31 | Subtracting undoes adding, and dividing undoes multiplying by a non-zero number. |
| `Tools.Execute` | zai_mcp/base_example/agent_selfdefine_tools.py:14-16 | The base tool always raises `NotImplementedError`. The calculator dispatches. |
| `Tools.RegisterTool` | zai_mcp/base_example/agent_selfdefine_tools.py:45-47 | The tool is stored under its own name, replacing any tool of that name, and every other entry is kept. |
| `Tools.RegisterOverwrites` | zai_mcp/base_example/agent_selfdefine_tools.py:45-47 | A later registration under the same name wins and the earlier one leaves no trace. |
| `Tools.NewAgent` | zai_mcp/base_example/agent_selfdefine_tools.py:41-43 | A new agent knows exactly the calculator. |
| `Tools.UseTool` | zai_mcp/base_example/agent_selfdefine_tools.py:49-54 | An unregistered name is an error. Otherwise the registered tool runs. |
| `Tools.UseAfterRegister` | zai_mcp/base_example/agent_selfdefine_tools.py:45-54 | `use_tool` runs the tool just registered under its name, and other names dispatch as before. |
| `Tools.FreshAgentCalculates` | zai_mcp/base_example/agent_selfdefine_tools.py:56-58 | A new agent's calculator adds 5 and 3 to 8, and any other name is not found. |

## Left out

- Threads, `time.sleep`, queue timeouts and `join(timeout=1.0)` are not
  modelled as such. A timeout is an empty queue at the moment of the poll.
  `start_streaming` is observed once its producer has finished, so a producer
  still running concurrently with a later call is not modelled.
- `stream_thread`, `active_streams` and the `hasattr` check on
  `collected_content` are not modelled as state. A missing `collected_content`
  is `""`, which is what the `getattr` default gives.
- Callback side effects other than raising are not modelled. A callback is
  described only by the chunks on which it raises, and the error it prints is
  not modelled.
- `Batch.RunBatch`: every producer is assumed to finish, because its arrival
  schedule is finite and everything it has not yet put is available after the
  schedule ends. A producer thread that the scheduler never runs would keep
  `_process_batch` polling forever, and that case is not modelled.
- `Prompt.Format`: filling in is modelled as replacing each scanned placeholder
  by its value. Python's `str.format` does the same when every `{` and `}` of
  the template belongs to a placeholder whose name is an identifier, as in every
  default template. The cases where it differs are not modelled:
  - a `{` that is never closed (`"a{b"`), a `{` inside a field name and a lone
    `}` raise `ValueError`;
  - an empty field `{}` and numeric fields are positional, so with keyword
    arguments only they raise `IndexError`;
  - `str.format` interprets `{{`/`}}` escapes, conversions and format specs,
    and attribute and index fields.
- `Prompt.GenerateSummaryPrompt`: it takes the decimal text of `length`. Python's
  `str(int)` is not modelled.
- `Text.Lower`: it lowercases the ASCII letters only. Python's full Unicode case
  mapping is not modelled.
- Metadata values are strings (the source allows any value), and
  `datetime.now().isoformat()` is an opaque parameter.
- `load_model`, tokenizing, `model.generate`, decoding and `get_model_info`
  depend on torch and transformers, so they are not modelled. Their outcomes are
  the parameters `loadOk` and `decoded`. The sampling parameters (`max_length`,
  `temperature`, `top_p`, `do_sample`) only reach the model call and are not
  modelled either.
- `Tools.Calculate`: it computes over exact reals. IEEE rounding, overflow,
  NaN, and infinite or NaN inputs are not modelled.
- Only the calculator is modelled among `CustomTool` subclasses. Python's
  `TypeError` for calling a tool with the wrong arguments is not modelled: a
  call always carries an operation and two numbers.
- The `print` and `warnings.warn` diagnostics are not modelled. Of the
  `__main__` demonstrations, only the calculator call is modelled
  (`Tools.FreshAgentCalculates`).

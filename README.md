# TranslateGemma translation service — a Dafny model

The service exposes a single translation model over HTTP. `POST /translate`
validates a request, waits for one of a fixed number of concurrency slots and
returns the whole translation as `{"translated_text": ...}`.
`POST /translate/stream` validates the request the same way. It then returns a
server-sent event stream: a `ready` event, one `token` event per text fragment,
and a final `done` or `error` event. A worker thread feeds the stream through
a FIFO queue of items: text fragments, `None` for "finished", or an exception.
The model and its processor are loaded lazily on the first request and cached
in module globals.

The Dafny project models this core. Each module follows one source file or one
concern:

- `config.dfy` (`Config`): the three settings records and their defaults.
- `loader.dfy` (`Loader`): `_torch_dtype`, `_make_quant`, `_make_max_memory`
  and `ensure_loaded`. The two module globals are a class `Cache` whose method
  `EnsureLoaded` updates them in place.
- `generator.dfy` (`Generator`): `generate_full` and `stream_worker`.
  - The ML backend (chat template, `generate`, `decode`, streamer) is a record
    of functions, `Backend`.
  - The queue the worker fills is a class `Channel` with a `seq<Msg>` field.
- `pystr.dfy` (`PyStr`): Python's `str.strip()` with its whitespace set.
- `sse.dfy` (`Sse`): the `_sse` frame. It also holds an interpreter of the
  event-stream format (line splitting at CRLF, LF or CR; field parsing;
  dispatch on an empty line), following the server-sent events section of the
  WHATWG HTML Living Standard. The interpreter is the receiving side, so a
  frame can be proved to decode back to its event name and data.
- `routes.dfy` (`Routes`): the routes module.
  - Request validation and message building.
  - The semaphore as a counting `Gate`.
  - The draining loop of `gen()` as the method `Gen`, proved against the
    recursive specification `Drain`.
  - Both handlers.

Things outside the model are parameters:

- the environment (`env`);
- the library loaders (`loadProcessor`, `loadModel`);
- the backend;
- JSON encoding (`enc`, which maps a payload to its `json.dumps` text).

## Model

| member | source | states |
|---|---|---|
| Routes.Validate | app/api/routes.py:27-29 | an absent or zero `max_new_tokens` means the configured default; any other value is kept; the result is rejected with 400 exactly when it exceeds the limit |
| Routes.DefaultBudgets | app/api/routes.py:27-29 | with the default settings: absent → 200, 0 → 200, 1024 accepted, 1025 rejected, a negative value is let through |
| Routes.Admit | app/api/routes.py:27-39 | the budget is checked before the required keys, and the keys in the order source_lang_code, target_lang_code, text; a rejection is `TooLarge` (400) exactly when the budget fails, otherwise the first missing key (500); on success the job holds one user message with exactly one text part carrying the three fields, plus the budget |
| Routes.Status | app/api/routes.py:28-37 | a too-large budget is answered with 400; a missing key escapes as a server error, 500 |
| Routes.AdmissionLimit | app/api/routes.py:10 | the slot count is at least 1 and at least the configured value, and it equals one of the two |
| Routes.Gate.constructor | app/api/routes.py:10 | a fresh gate has no slot held and `max(1, max_concurrent)` slots |
| Routes.Gate.TryAcquire | app/api/routes.py:41 | a slot is taken exactly when one is free; otherwise nothing changes |
| Routes.Gate.Release | app/api/routes.py:41-43 | giving a slot back decrements the held count by one |
| Routes.Name | app/api/routes.py:70-79 | every event name is non-empty and contains no line break |
| Sse.FrameShape | app/api/routes.py:13-14 | a frame is `event: `, the name, `\ndata: `, the data and `\n\n`, each at its position; its length is that of its parts plus 16 |
| Sse.FrameRoundTrip | app/api/routes.py:13-14 | an event-stream reader decodes one frame, followed by any text, to exactly that name and data, then reads the rest |
| Sse.StreamRoundTrip | app/api/routes.py:13-14 | concatenated frames decode to their events, one per frame, in order |
| Sse.Frame | app/api/routes.py:13-14 | the `_sse` text: an `event` line, a `data` line and a blank line (its properties are the lemmas below) |
| Sse.FrameInjective | app/api/routes.py:13-14 | two frames are equal only when their event names and data are equal |
| Routes.PayloadOf | app/api/routes.py:70-79 | `{"ok": True}` for ready and done, `{"text": piece}` for a token, `{"error": str(item)}` for an error |
| Routes.Render | app/api/routes.py:70-79 | the frame of an event: its name and its encoded payload |
| Routes.RenderInjective | app/api/routes.py:70-79 | with an encoding that keeps payloads apart, two events written as the same frame are the same event |
| Routes.EventFor | app/api/routes.py:73-79 | the event one dequeued item is answered with: a piece gives `token`, `None` gives `done`, an exception gives `error`; DrainShape proves the loop answers the i-th item with it |
| Routes.Drain | app/api/routes.py:71-79 | the reference definition of the loop: a token per piece, up to and including the first `None` (done) or exception (error); its shape is proved in DrainShape |
| Generator.StreamMessages | app/model/generator.py:62-69 | the try block's items once the streamer runs: the pieces up to the failure point, then the exception or `None`; proved in StreamPiecesInOrder |
| Generator.WorkerMessages | app/model/generator.py:33-69 | everything `stream_worker` puts: nothing after a load failure, the exception after a template or keyword failure, else the streamed items; proved in WorkerProtocol and WorkerTerminates |
| Routes.WireRoundTrip | app/api/routes.py:70-79 | when the JSON text is single-line, the emitted chunks decode to the rendered events' names and encoded payloads, in order |
| Routes.Consumed | app/api/routes.py:71-78 | the loop takes items up to and including the first `None`/exception, or the whole queue when there is none; every item before that is a piece |
| Routes.DrainShape | app/api/routes.py:71-79 | the drained events correspond one to one, in order, to the consumed queue items: piece → token, `None` → done, exception → error |
| Routes.StreamShape | app/api/routes.py:70-79 | if the queue holds a terminal item, the drained events are tokens followed by exactly one terminal event, which is the last |
| Routes.Gen | app/api/routes.py:61-79 | `ready` is emitted first, then one frame per consumed item; the loop reads exactly the consumed prefix; it finishes exactly when the queue holds a terminal item |
| Routes.EndToEnd | app/model/generator.py:62-69 | for any backend stream, the wire events are the streamed pieces as tokens in order, followed by a single `done` or `error` at the position where the pieces stop |
| Routes.WorkerTerminates | app/model/generator.py:33-35 | the worker's queue gets a terminal item exactly when model loading succeeds |
| Routes.StreamExamples | app/model/generator.py:62-69 | pieces "ho", "la" give token, token, done; "ho" then an exception "boom" raised in the try block gives token, error |
| Routes.Translate | app/api/routes.py:25-43 | rejection happens before the gate; an admitted request holds a slot around `generate_full` and gives it back on success and on failure; the answer is the translation or the server error |
| Routes.TranslateStream | app/api/routes.py:45-81 | rejection happens before the gate; an admitted stream is `ready` followed by the drained worker events; it finishes, giving its slot back, exactly when loading succeeds, and otherwise keeps the slot |
| Generator.StreamKwargs | app/model/generator.py:49-57 | the keyword set is the template inputs plus streamer, do_sample and max_new_tokens, plus temperature and top_p only when sampling; an input that already holds one of these is the `TypeError` "dict() got multiple values for keyword argument 'k'", with k the first clash in the order streamer, do_sample, max_new_tokens |
| Generator.FullKwargs | app/model/generator.py:21-27 | the keyword set is the template inputs plus do_sample, max_new_tokens, temperature and top_p, the last two `None` unless sampling; a clashing input is the "multiple values" `TypeError` naming the first clash in call order |
| Generator.SamplingArgsAgree | app/model/generator.py:21-57 | when sampling, both paths pass the same do_sample, max_new_tokens, temperature and top_p; when not sampling, the streaming path leaves out temperature and top_p |
| Generator.Generated | app/model/generator.py:20-29 | the generated tokens are the output after the prompt length, and empty when the output is no longer than the prompt |
| Generator.Completion | app/model/generator.py:29-30 | the completion is the slice of the decoded post-prompt tokens left after cutting the leading whitespace, with only whitespace after it; it neither begins nor ends with whitespace |
| Generator.CompletionIgnoresPrompt | app/model/generator.py:20-30 | two outputs that agree after the prompt give the same completion |
| Generator.GenerateFull | app/model/generator.py:9-30 | a load failure is an error before anything else; otherwise a template error, a keyword clash or a generate error propagates unchanged, and on success the result is the completion of the generated output after the prompt length; a result is always stripped |
| Generator.Cut | app/model/generator.py:62-69 | the number of pieces delivered is at most the number produced, and is all of them when generation does not fail |
| Generator.Pieces | app/model/generator.py:62-63 | one piece message per text fragment, in order |
| Generator.WorkerProtocol | app/model/generator.py:33-69 | once loading succeeds, the worker's messages are pieces followed by exactly one terminal message, which is the last |
| Generator.StreamPiecesInOrder | app/model/generator.py:62-69 | the pieces put on the queue are a prefix of the streamer's fragments, in order |
| Generator.Channel.constructor | app/api/routes.py:62 | a new queue is empty |
| Generator.Channel.Put | app/model/generator.py:63 | `put` appends the item at the end of the queue |
| Generator.StreamWorker | app/model/generator.py:33-69 | the worker appends exactly its message sequence to the queue, in order, and nothing else |
| PyStr.Strip | app/model/generator.py:30 | the result is a contiguous slice of the input, with only whitespace cut from either end, and it neither begins nor ends with whitespace |
| PyStr.StripIdempotent | app/model/generator.py:30 | stripping twice is stripping once |
| Loader.TorchDtype | app/model/loader.py:10-11 | bfloat16 exactly for "bfloat16", float16 for every other name |
| Loader.MakeQuant | app/model/loader.py:13-25 | "none" → no config, "int8" → 8-bit, "int4" → 4-bit nf4 with double quantisation and bfloat16 compute; any other value is a ValueError carrying that value |
| Loader.GpuKeysCount | app/model/loader.py:29-30 | the loop adds `max(0, gpu_count)` distinct device indices |
| Loader.MaxMemoryShape | app/model/loader.py:27-31 | the map has "cpu" → cpu budget and exactly the indices 0..gpu_count-1 → per-GPU budget, so it has `1 + max(0, gpu_count)` entries |
| Loader.MaxMemory | app/model/loader.py:27-31 | the reference definition of `_make_max_memory`: "cpu" maps to the CPU budget and each index below `gpu_count` to the per-GPU budget; its shape is proved in MaxMemoryShape |
| Loader.MakeMaxMemory | app/model/loader.py:27-31 | the loop builds exactly that map |
| Loader.Token | app/model/loader.py:38-39 | a token exists exactly when the variable is set to a non-empty value |
| Loader.ModelLoadArgs | app/model/loader.py:48-63 | the model load arguments carry the token, id, device map, memory map, offload folder and remote-code flag from the settings; the dtype is bfloat16 exactly for "bfloat16"; int8 gives the 8-bit config and int4 the nf4 double-quantised bfloat16 config, "none" no config; an unknown quantisation is a ValueError |
| Loader.Cache.constructor | app/model/loader.py:7-8 | both globals start unset |
| Loader.Cache.EnsureLoaded | app/model/loader.py:33-67 | a loaded model is returned as cached without reading the token; a missing token raises "<env> not set" and loads nothing; otherwise the processor is stored as soon as it loads, and the model is stored only when its own load succeeds |
| Loader.LoadTwice | app/model/loader.py:33-36 | after a successful load, the next call returns the same pair |

## Left out

- Waiting on the semaphore is not modelled. `Gate.TryAcquire` reports a full
  gate, and the handlers answer `Suspended`. The thread and event-loop bridge
  (`asyncio.to_thread`, `run_coroutine_threadsafe`, the `_LOOP` captured at
  startup) is left out as concurrency.
- Routes.TranslateStream runs the worker to its end before draining the
  queue. Because the queue is FIFO, the interleaving does not change which
  frames are sent or their order. A stream whose loop never ends (load failure)
  is modelled as the frames sent so far, with `finished` false and the slot
  still held.
- Client disconnects and task cancellation are left out. In the source these
  can release the slot before a terminal event.
- A failure of `model.generate` itself is not represented. It is raised in
  the generation thread, which the try block does not cover. The streamer has
  no timeout, so `for piece in streamer` then blocks for good. No exception
  item and no `None` reach the queue, and the slot stays held. A
  `StreamFailure` models only an exception raised inside the try block while
  the streamer is iterated.
- A failure to build the streamer folds into the chat-template failure
  (`Backend.template`). A failure to start the generation thread is a
  `StreamFailure` at position 0.
- `put` itself failing is left out. So is the `Future` that
  `run_coroutine_threadsafe` returns, which is never awaited.
- JSON encoding is the parameter `enc`. Its escaping (`ensure_ascii=False`) is
  not modelled. Routes.WireRoundTrip assumes that `enc` never produces a line
  break, which `json.dumps` guarantees by escaping newlines inside strings.
- `max_new_tokens` is modelled as an optional integer. Other JSON values
  (strings, floats, booleans, `""`) are left out. Comparing them to the limit
  may raise or behave differently in Python.
- A request body that is not a JSON object is left out.
- `Routes.Request` keeps only whether each text key is present. A key that is
  present with `null` or a non-string value passes admission in the source:
  `req["text"]` raises only for an absent key. That request then takes a slot
  and fails inside the model code. For the stream endpoint this gives `ready`
  followed by `error`. The model cannot express such a request.
- Generator.FullKwargs: the clash message names the callee `generate()`.
  CPython prefixes the bound method's module and qualified name, which depend
  on the installed library.
- The ML libraries are opaque functions: `apply_chat_template`, `generate`,
  `decode`, `TextIteratorStreamer`, `from_pretrained` and `BitsAndBytesConfig`
  (modelled as a record of its arguments). `torch.inference_mode`,
  `model.eval()` and tensor shapes are left out; the model uses only batch
  row 0 of the output and a scalar prompt length.
- `temperature` and `top_p` are passed through as `real`; floating point is not
  modelled.
- The settings loader (YAML and environment overrides), `host`, `port`,
  `log_level`, the `/health` endpoint, `app/main.py` and `app/server.py` are
  not part of this model.
- Loader.Cache.EnsureLoaded: nothing about two threads loading at the same
  time, because the module globals are not locked in the source either.


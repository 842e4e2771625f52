# TinyChat page state, in Dafny

TinyChat is a browser chat front-end for an in-browser language-model
runtime (TinyLM). All inference happens in that runtime; the repository's
own logic is the state machine of its single page (`Home` in
`app/page.tsx`) and two formatting helpers (`lib/utils.ts`). This project
models exactly that and proves what the code promises about it.

- `wrappers.dfy` — `Option` and a pass/fail `Outcome` for awaited runtime calls.
- `utils.dfy` (module `Utils`) — `formatTime` and `formatBytes` on natural
  numbers. `formatTime`'s output is read back by a small parser (`ParseTime`)
  and proved to denote the input (exactly below an hour, truncated to the
  minute from an hour on). `formatBytes` picks the unit index as the unique
  `i` with 1024^i <= bytes < 1024^(i+1), and the whole part of the mantissa
  is proved to lie in [1, 1024).
- `types.dfy` (module `Types`) — the message and progress records of
  `types/index.ts`, and a context-turn record: the page keeps its context
  as messages (app/page.tsx:59) that never carry the typing flag, and a
  turn is such a message without it.
- `runtime.dfy` (module `Runtime`) — what the runtime hands to the page, as
  values: progress reports with optional fields, and the result of a
  completion call with its delivery shape chosen up front (rejected,
  emitter, reader, async iterable, or a plain completion).
- `chat_state.dfy` (module `ChatState`) — the page's state cells as one
  record `AppState`, every handler as a transition function on it, the
  invariant `Valid` (the welcome message stays first, the context never
  holds a system turn) and the history order `Extends` (the log only grows
  at its end, no message but the last is ever rewritten), and the lemmas.
- `page.dfy` (module `Page`) — class `Home` with the state cells as fields
  and the handlers as methods that update them step by step, including the
  stream read loop; each method is proved to end in the state the matching
  `ChatState` function gives, and the handlers to keep `Valid`.

Runtime calls are replaced by parameters: an `Outcome` for `load` and
`offload`, the progress reports the runtime delivers while the call is
awaited, and a `Response` for `chat.completions.create`. The measured
generation time is the parameter `elapsedMs`. The `interrupt` call is
left out (see below).

Three behaviours of the code worth noting:
- The activity flag is never set by sending; only the runtime's
  "generating"/"complete"/"error"/"interrupted" reports change it.
- A mid-stream error replaces the streamed text with
  `Streaming error: <message>`; the partial text is not kept.
- Both "ready" and "done" (as well as "error") schedule the delayed
  snapshot clear.

## Model

| member | source | states |
|---|---|---|
| Utils.FormatTime | lib/utils.ts:25-36 | the text is empty exactly when the count is missing or zero |
| Utils.ReadBackSeconds | lib/utils.ts:27 | for 0 < s < 60 the text is "<s>s" and reads back as s |
| Utils.ReadBackMinutes | lib/utils.ts:28-32 | for 60 <= s < 3600 the text is "<m>m <r>s" with m = s div 60, r = s mod 60, 1 <= m < 60, r < 60 and m*60 + r = s |
| Utils.ReadBackHours | lib/utils.ts:33-35 | for s >= 3600 the text is "<h>h <m>m" with h = s div 3600 >= 1, m < 60, and it stands for s less its leftover seconds |
| Utils.ReadShow | lib/utils.ts:27-35 | every number the helpers print reads back as itself, whatever non-digit text follows |
| Utils.UnitIndex | lib/utils.ts:16 | the unit index i of a positive count satisfies 1024^i <= bytes < 1024^(i+1) |
| Utils.UnitIndexUnique | lib/utils.ts:16 | that index is the only one whose band holds the count (the largest i with 1024^i <= bytes) |
| Utils.FormatBytes | lib/utils.ts:13-18 | "0 B" exactly for a missing or zero count; otherwise the unit is sizes[i] for that index and the mantissa's whole part lies in [1, 1024) |
| Utils.FormatBytesUnits | lib/utils.ts:15-17 | bytes below 1024 show B, then KB, MB, GB by powers of 1024; from 1024^4 on the index is past the four-entry table and the unit prints as "undefined" |
| ChatState.InitialIsValid | app/page.tsx:39-62 | the initial state holds the welcome message, is "not-loaded" and not generating, and satisfies the invariant |
| ChatState.ProgressLogsOneLine | app/page.tsx:65-81 | every report appends exactly one log line and keeps every earlier one; all fields missing give "[unknown] (unknown) " |
| ChatState.ModelStatusFollowsTable | app/page.tsx:103-116 | a "model" report sets the lifecycle from the status table (loading/initiate/progress, ready/done, error, offloaded) and leaves it for any other status |
| ChatState.ModelStatusIgnoresPrior | app/page.tsx:104-116 | for a recognised status the resulting lifecycle does not depend on the prior state |
| ChatState.ModelReportReplacesSnapshot | app/page.tsx:84-116 | a "model" report always replaces the snapshot, percentage defaulting to 0 and message to "Loading model...", "offloaded" clears it at once; aggregate figures keep the byte counts, default speed and remaining time to 0, format the speed with `formatBytes` ("0 B/s" when zero) and a non-zero remaining time with `formatTime` ("--" when zero); the activity flag is untouched; a "ready", "done" or "error" status schedules one delayed clear |
| ChatState.GenerationReportOnlyTouchesFlag | app/page.tsx:119-126 | a "generation" report sets the flag for generating, clears it for complete/error/interrupted, otherwise keeps it, and changes nothing else but the log |
| ChatState.OtherReportOnlyLogs | app/page.tsx:79-126 | a report of any other type changes only the log |
| ChatState.StaleClearDropsNewerSnapshot | app/page.tsx:104-112 | a clear scheduled by "ready" drops the snapshot of a later "loading" report while the lifecycle says loading |
| ChatState.GeneratingOutlivesLoadedModel | app/page.tsx:110-126 | a "model" error during a generation leaves the activity flag set |
| ChatState.ReportsOnlyTouchStatus | app/page.tsx:76-127 | a run of reports leaves transcript, context, model name, input and settings alone and appends exactly its log lines in order |
| ChatState.ProgressKeepsValid | app/page.tsx:76-127 | a single report keeps the invariant and extends the history |
| ChatState.ClearKeepsValid | app/page.tsx:108-112 | a scheduled clear keeps the invariant and the history |
| ChatState.ReportsKeepValid | app/page.tsx:76-127 | a run of reports keeps the invariant and extends the history |
| ChatState.UpdateLastAssistant | app/page.tsx:428-443 | the length and every message but the last are kept; the last is rewritten only when it is an assistant message, otherwise (and on an empty list) nothing changes |
| ChatState.UpdateLastAssistantLastWins | app/page.tsx:428-443 | of two updates in a row only the second is visible |
| ChatState.SendGate | app/page.tsx:243 | a blank input (after trim), no runtime, a lifecycle other than loaded, or a generation in flight leaves the whole state unchanged |
| ChatState.SendAppendsExchange | app/page.tsx:245-398 | a permitted send appends exactly the user message and the assistant message (settled, or still typing for an emitter), clears the input, adds the user turn and the settled assistant turn to the context, appends the generation line and the reply's log lines, and leaves every other cell (lifecycle, flag, snapshot, model name, stream setting, runtime, pending clears) as it was |
| ChatState.RequestCarriesContext | app/page.tsx:251-275 | the call carries the system prompt followed by the context as it stands after the send, with the loaded model name and the streaming flag |
| ChatState.DeltasAppend | app/page.tsx:325-335 | the full text of a stream is the in-order concatenation of its chunks' texts however they are split |
| ChatState.CoalescingKeepsText | app/page.tsx:325-335 | replacing a run of chunks by one chunk with their joint text gives the same full text |
| ChatState.EmissionsGrowToText | app/page.tsx:329-334 | while streaming a text is shown for each chunk with a non-empty delta, the full text up to that chunk, and for no other chunk; shown texts are non-empty, each strictly extends the previous one, and the last one shown is the full text |
| ChatState.EmissionsGrow | app/page.tsx:329-334 | shown texts are non-empty, strictly growing, and end at the full text |
| ChatState.EmissionsCoverDeltas | app/page.tsx:329-334 | every chunk with a non-empty delta shows the full text up to and including that chunk |
| ChatState.EmissionsOnlyForDeltas | app/page.tsx:329-334 | every shown text is the full text up to some chunk whose delta is non-empty; an empty delta shows nothing |
| ChatState.HelloStream | app/page.tsx:325-339 | chunks "Hel", "lo" show "Hel" then "Hello" and settle to "Hello" |
| ChatState.StreamedReplyText | app/page.tsx:320-368 | a drained reader or iterable ends with the last message equal to the full text, not typing, and one assistant turn with it; on a read error both are "Streaming error: <message>", which is also the last log line |
| ChatState.StreamedFailureText | app/page.tsx:282-368 | with streaming, a rejected call settles the reply as "Streaming error: <message>" and logs that line; a result of no supported shape does the same with the unsupported-format message |
| ChatState.RejectedReplyText | app/page.tsx:369-398 | a failing non-streaming call ends with "Error: <message>" as the reply, "Error generating response: <message>" as the last log line, and does not set the activity flag |
| ChatState.SendKeepsValid | app/page.tsx:242-399 | sending keeps the invariant and extends the history |
| ChatState.LoadOutcome | app/page.tsx:173-207 | without a runtime nothing changes; otherwise a resolved load ends "loaded", a rejected one "error", whatever is reported meanwhile, with the context empty and the requested model name kept; a rejected load ends with "Error loading model: <message>" as the last log line and as the last (system) message |
| ChatState.LoadKeepsValid | app/page.tsx:173-207 | loading keeps the invariant and extends the history |
| ChatState.UnloadOutcome | app/page.tsx:210-239 | no runtime or no model name: no change; a failed unload goes back to "loaded", keeps name and context, and ends with "Error unloading model: <message>" as the last log line and the last (system) message; a successful one drops the name and empties the context |
| ChatState.UnloadKeepsValid | app/page.tsx:210-239 | unloading keeps the invariant and extends the history |
| ChatState.StopThenInterrupted | app/page.tsx:402-407 | stopping adds the one log line exactly when generating with a runtime, changes nothing otherwise, and never clears the flag; the runtime's "interrupted" report does |
| ChatState.StopKeepsValid | app/page.tsx:402-407 | stopping keeps the invariant and extends the history |
| ChatState.ToggleKeepsValid | app/page.tsx:410-413 | toggling keeps the invariant and extends the history |
| ChatState.ToggleDecidesNextRequest | app/page.tsx:410-413 | toggling keeps a send permitted and the next call streams exactly as last set |
| Page.Home.constructor | app/page.tsx:39-62 | the initial state cells |
| Page.Home.AttachRuntime | app/page.tsx:143 | the runtime instance becomes available; nothing else changes, and the invariant holds |
| Page.Home.SetUserInput | app/page.tsx:52 | only the input changes, and the invariant holds |
| Page.Home.AddLogEntry | app/page.tsx:65-73 | appends one entry to the log, nothing else changes |
| Page.Home.AddUserMessage | app/page.tsx:416-418 | appends one user message, nothing else changes |
| Page.Home.AddSystemMessage | app/page.tsx:420-422 | appends one system message, nothing else changes |
| Page.Home.AddAssistantTypingMessage | app/page.tsx:424-426 | appends an empty assistant message that is typing |
| Page.Home.UpdateLastAssistantMessage | app/page.tsx:428-443 | the copy-and-assign update ends in `UpdateLastAssistant` of the old list |
| Page.Home.HandleProgress | app/page.tsx:76-127 | the step-by-step handler ends in `ApplyProgress` of the old state, keeps the invariant and extends the history |
| Page.Home.ClearTimerFires | app/page.tsx:108-112 | a scheduled clear drops the snapshot and one pending clear, and keeps the invariant |
| Page.Home.ReceiveReports | app/page.tsx:138-141 | the runtime's reports, handled one by one, end in `ApplyAll` of the old state, keep the invariant and extend the history |
| Page.Home.HandleLoadModel | app/page.tsx:173-207 | ends in `LoadAfter`, keeps the invariant and extends the history |
| Page.Home.HandleUnloadModel | app/page.tsx:210-239 | ends in `UnloadAfter`, keeps the invariant and extends the history |
| Page.Home.DrainChunks | app/page.tsx:325-335 | the read loop's running text is the concatenation of the deltas, the texts shown are `Emissions`, and the placeholder holds the text, still typing |
| Page.Home.FinishReply | app/page.tsx:337-339 | settles the placeholder with the text, not typing, and adds one assistant turn |
| Page.Home.StreamError | app/page.tsx:362-368 | logs "Streaming error: <message>" and settles the exchange with it |
| Page.Home.ReceiveStream | app/page.tsx:320-357 | a reader or async iterable is drained and the exchange settled as `Drained` says |
| Page.Home.SettleExchange | app/page.tsx:282-398 | with streaming a rejection, reader, async iterable or plain completion settles the placeholder as `Settle` says and an emitter leaves it open; without streaming the completion text (or the error) settles it with the timing or error log line |
| Page.Home.HandleSendMessage | app/page.tsx:242-399 | ends in `SendAfter`, returns the issued call (`RequestFor` the old state) exactly when the gate is open, keeps the invariant and extends the history |
| Page.Home.HandleStopGeneration | app/page.tsx:402-407 | ends in `StopAfter` of the old state, keeps the invariant and extends the history |
| Page.Home.HandleToggleStreaming | app/page.tsx:410-413 | ends in `ToggleAfter` of the old state, keeps the invariant and extends the history |
| Page.LoadAndChat | app/page.tsx:173-339 | loading a model that reports "ready" and then sending with a streamed reply ends "loaded", with the streamed text as the last message and "[ready] (model) " in the log |

## Left out

- Push-style (emitter) streams: the `data`/`end`/`error` handlers run after the send has returned (app/page.tsx:295-317); the model ends such a send with the placeholder still typing and no assistant turn, and does not model the later callbacks.
- Response-shape probing (`typeof … .on`, `getReader`, `Symbol.asyncIterator`) is replaced by the `Response` variant chosen up front.
- Progress reports that arrive while a completion call or a stream is awaited are separate `HandleProgress` calls before or after the send; for load and unload they are a parameter applied at the await point. Interleaving at finer points is not modelled.
- Handlers run to completion: a user action taken while a load, unload or send waits on the runtime is not interleaved with it, so `LoadOutcome`, `UnloadOutcome` and `SendAppendsExchange` describe uninterrupted runs. In the source, a load started during an unload (its button is enabled again once the status is "not-loaded", app/page.tsx:217) loses its model name and context to the unload's success path (app/page.tsx:227-230). A second send made before the runtime reports "generating" appends a second placeholder, which then receives the first stream's updates (app/page.tsx:333). A streaming toggle or a stop takes effect only between sends.
- The delayed snapshot clears (`setTimeout`, 1500 ms) are a counter of pending clears and a method that runs one; real time is not modelled.
- Log timestamps (`toLocaleTimeString`) are dropped: the log holds the entry messages only. The elapsed time of a non-streaming reply is the parameter `elapsedMs`.
- The initialisation effect (app/page.tsx:130-170) is not part of this model beyond the runtime becoming available; the `webGPUStatus`, `fp16Status` and `backendValue` cells (app/page.tsx:39-40, 42) are only written there and are left out with it.
- `formatBytes`: the decimal mantissa and `toFixed(2)` (only its whole part is kept, and rounding to two decimals can show 1024.00); floating-point `Math.log` rounding at exact powers of 1024 is not modelled (the index is computed exactly).
- `formatTime`: only whole seconds; `Math.ceil` on fractional seconds is not modelled.
- Numbers are integers: percentages are `int`, byte counts, speeds and remaining times are `nat`; NaN is not modelled. `Show` prints every natural number in plain decimal, as JavaScript does only for integers below 10^21 (from there it uses exponent form), and JavaScript numbers are exact integers only up to 2^53.
- The runtime's `interrupt` call (app/page.tsx:405) is left out: it changes no page state, and whatever the runtime reports in response arrives as a separate progress report.
- `ModelConfig`'s temperature and token limit are not read by the load handler in the source; the send always uses 0.7 and 512, as the source does.
- The rendering (JSX), the components, `cn`, and the build configuration are presentation only.

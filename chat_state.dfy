/**
 * The chat page's state as one record, and every handler of app/page.tsx
 * as a transition on it. The `Home` class in module Page runs these
 * handlers step by step and is proved to end in the states given here.
 */
module ChatState {
  import opened Wrappers
  import opened Utils
  import opened Types
  import opened Runtime

  /** The lifecycle of the model: "not-loaded", "loading", "loaded", "error". */
  datatype ModelStatus = NotLoaded | Loading | Loaded | Error

  /** The options of a completion call. */
  datatype Request = Request(
    model: Option<string>,
    messages: seq<Turn>,
    temperature: real,
    maxTokens: nat,
    stream: bool)

  /**
   * The page's state cells. `hasRuntime` says whether the runtime instance
   * is set; `pendingClears` counts the delayed snapshot clears scheduled
   * and not yet run; `logs` holds the messages of the diagnostic log.
   */
  datatype AppState = AppState(
    modelStatus: ModelStatus,
    isGenerating: bool,
    streamingEnabled: bool,
    progress: Option<Progress>,
    pendingClears: nat,
    loadedModelName: Option<string>,
    hasRuntime: bool,
    userInput: string,
    messages: seq<Message>,
    conversation: seq<Turn>,
    logs: seq<string>)

  const Welcome: string := "Welcome to TinyLM Chat! Load a model to get started."
  const SystemPrompt: string := "You are a helpful AI assistant powered by TinyLM."
  const Temperature: real := 0.7
  const MaxTokens: nat := 512
  const GenerationLog: string := "Generating response with temperature 0.7 and max_tokens 512"
  const UnsupportedFormat: string := "Unsupported response format from TinyLM streaming API"

  /** The state the page starts in. */
  const Initial: AppState := AppState(
    NotLoaded, false, true, None, 0, None, false, "",
    [Message(System, Welcome, false)], [], [])

  // ---------------------------------------------------------------------------
  // JavaScript truthiness of optional strings
  // ---------------------------------------------------------------------------

  /** `x` is truthy: present and not the empty string. */
  predicate Truthy(x: Option<string>) {
    x.Some? && x.value != ""
  }

  /** `x || d` on an optional string. */
  function OrDefault(x: Option<string>, d: string): string {
    if Truthy(x) then x.value else d
  }

  // ---------------------------------------------------------------------------
  // Invariants kept by every handler
  // ---------------------------------------------------------------------------

  /**
   * The welcome message stays first in the transcript, and the context sent
   * to the runtime holds only user and assistant turns.
   */
  ghost predicate Valid(s: AppState) {
    && |s.messages| >= 1
    && s.messages[0] == Message(System, Welcome, false)
    && forall i :: 0 <= i < |s.conversation| ==> s.conversation[i].role != System
  }

  /**
   * `t` extends the history of `s`: the log only gains entries at its end,
   * and every message but the last one of `s` is still in place.
   */
  ghost predicate Extends(s: AppState, t: AppState) {
    && s.logs <= t.logs
    && |s.messages| <= |t.messages|
    && (|s.messages| > 0 ==> s.messages[..|s.messages| - 1] <= t.messages)
  }

  lemma InitialIsValid()
    ensures Valid(Initial) && Initial.modelStatus == NotLoaded && !Initial.isGenerating
  {
  }

  // ---------------------------------------------------------------------------
  // handleProgress
  // ---------------------------------------------------------------------------

  /** The log line of a progress report: "[status] (type) message". */
  function LogLine(u: ProgressUpdate): string {
    "[" + OrDefault(u.status, "unknown") + "] (" + OrDefault(u.kind, "unknown") + ") " + OrDefault(u.message, "")
  }

  /** The model-status table: status text to lifecycle state. */
  const ModelTable: map<string, ModelStatus> := map[
    "loading" := Loading, "initiate" := Loading, "progress" := Loading,
    "ready" := Loaded, "done" := Loaded,
    "error" := Error,
    "offloaded" := NotLoaded]

  /** The generation table: status text to activity flag. */
  const GenerationTable: map<string, bool> := map[
    "generating" := true,
    "complete" := false, "error" := false, "interrupted" := false]

  /** The lifecycle state after a "model" report, as the handler's branches decide it. */
  function ModelStatusAfter(status: Option<string>, prior: ModelStatus): ModelStatus {
    if status == Some("loading") || status == Some("initiate") || status == Some("progress") then Loading
    else if status == Some("ready") || status == Some("done") then Loaded
    else if status == Some("error") then Error
    else if status == Some("offloaded") then NotLoaded
    else prior
  }

  /** The activity flag after a "generation" report, as the handler's branches decide it. */
  function GeneratingAfter(status: Option<string>, prior: bool): bool {
    if status == Some("generating") then true
    else if status == Some("complete") || status == Some("error") || status == Some("interrupted") then false
    else prior
  }

  /** A terminal status schedules a clear of the snapshot 1.5 seconds later. */
  predicate SchedulesClear(status: Option<string>) {
    status == Some("ready") || status == Some("done") || status == Some("error")
  }

  function OverallSnapshot(o: OverallUpdate): ProgressOverall {
    ProgressOverall(
      o.bytesLoaded, o.bytesTotal, o.speed.GetOr(0), o.timeRemaining.GetOr(0),
      FormatBytes(Some(o.bytesLoaded)), FormatBytes(Some(o.bytesTotal)), FormatBytes(o.speed),
      if o.timeRemaining.Some? && o.timeRemaining.value != 0 then FormatTime(o.timeRemaining) else "--")
  }

  /** The snapshot a "model" report installs. */
  function Snapshot(u: ProgressUpdate): Progress {
    Progress(
      OrDefault(u.status, "unknown"), "model", u.percentComplete.GetOr(0),
      OrDefault(u.message, "Loading model..."), u.files,
      match u.overall
      case None => None
      case Some(o) => Some(OverallSnapshot(o)))
  }

  /** handleProgress: log the report, then update the model or the generation state. */
  function ApplyProgress(s: AppState, u: ProgressUpdate): AppState {
    var logged := s.(logs := s.logs + [LogLine(u)]);
    if u.kind == Some("model") then
      logged.(
        progress := if u.status == Some("offloaded") then None else Some(Snapshot(u)),
        modelStatus := ModelStatusAfter(u.status, s.modelStatus),
        pendingClears := if SchedulesClear(u.status) then s.pendingClears + 1 else s.pendingClears)
    else if u.kind == Some("generation") then
      logged.(isGenerating := GeneratingAfter(u.status, s.isGenerating))
    else
      logged
  }

  /** A scheduled clear runs: whatever snapshot is shown then is dropped. */
  function ClearTimer(s: AppState): AppState
    requires s.pendingClears > 0
  {
    s.(progress := None, pendingClears := s.pendingClears - 1)
  }

  /**
   * The clear scheduled by a "ready" report is not tied to that report's
   * snapshot: when a new load reports "loading" before it runs, it drops
   * the new snapshot while the lifecycle says "loading".
   */
  lemma StaleClearDropsNewerSnapshot(s: AppState, ready: ProgressUpdate, loading: ProgressUpdate)
    requires ready.kind == Some("model") && ready.status == Some("ready")
    requires loading.kind == Some("model") && loading.status == Some("loading")
    ensures var t := ApplyProgress(ApplyProgress(s, ready), loading);
      && t.progress.Some? && t.pendingClears > 0
      && ClearTimer(t).progress.None? && ClearTimer(t).modelStatus == Loading
  {
  }

  /**
   * The activity flag is not tied to the lifecycle: a "model" error report
   * during a generation leaves the flag set while the model is in error.
   */
  lemma GeneratingOutlivesLoadedModel(s: AppState, u: ProgressUpdate)
    requires s.isGenerating && u.kind == Some("model") && u.status == Some("error")
    ensures ApplyProgress(s, u).isGenerating && ApplyProgress(s, u).modelStatus == Error
  {
  }

  /** Reports the runtime delivers one after another while an operation is awaited. */
  function ApplyAll(s: AppState, us: seq<ProgressUpdate>): AppState {
    if us == [] then s else ApplyProgress(ApplyAll(s, us[..|us| - 1]), us[|us| - 1])
  }

  /** Every report appends exactly its own line to the log and changes no earlier line. */
  lemma ProgressLogsOneLine(s: AppState, u: ProgressUpdate)
    ensures ApplyProgress(s, u).logs == s.logs + [LogLine(u)]
    ensures u.status.None? && u.kind.None? && u.message.None? ==>
      ApplyProgress(s, u).logs[|s.logs|] == "[unknown] (unknown) "
  {
  }

  /**
   * A "model" report sets the lifecycle state from the table when the
   * status is in it, whatever the prior state, and leaves it otherwise.
   */
  lemma ModelStatusFollowsTable(s: AppState, u: ProgressUpdate)
    requires u.kind == Some("model")
    ensures u.status.Some? && u.status.value in ModelTable ==>
      ApplyProgress(s, u).modelStatus == ModelTable[u.status.value]
    ensures (u.status.None? || u.status.value !in ModelTable) ==>
      ApplyProgress(s, u).modelStatus == s.modelStatus
  {
  }

  /** Two states that differ before a recognised "model" report agree on the lifecycle after it. */
  lemma ModelStatusIgnoresPrior(s: AppState, t: AppState, u: ProgressUpdate)
    requires u.kind == Some("model") && u.status.Some? && u.status.value in ModelTable
    ensures ApplyProgress(s, u).modelStatus == ApplyProgress(t, u).modelStatus
  {
    ModelStatusFollowsTable(s, u);
    ModelStatusFollowsTable(t, u);
  }

  /**
   * A "model" report always replaces the snapshot, with the percentage
   * defaulting to 0 and the message to "Loading model...", except that
   * "offloaded" clears it at once. Aggregate figures default speed and
   * remaining time to 0, show a zero speed as "0 B/s" and a zero remaining
   * time as "--". It never touches the activity flag.
   */
  lemma ModelReportReplacesSnapshot(s: AppState, u: ProgressUpdate)
    requires u.kind == Some("model")
    ensures u.status == Some("offloaded") ==> ApplyProgress(s, u).progress.None?
    ensures u.status != Some("offloaded") ==>
      var p := ApplyProgress(s, u).progress;
      && p.Some?
      && p.value.kind == "model"
      && p.value.status == (if Truthy(u.status) then u.status.value else "unknown")
      && p.value.percentComplete == (if u.percentComplete.Some? then u.percentComplete.value else 0)
      && p.value.message == (if Truthy(u.message) then u.message.value else "Loading model...")
      && p.value.files == u.files
      && (u.overall.None? ==> p.value.overall.None?)
      && (u.overall.Some? ==>
            var o, q := u.overall.value, p.value.overall;
            && q.Some?
            && q.value.bytesLoaded == o.bytesLoaded && q.value.bytesTotal == o.bytesTotal
            && q.value.speed == (if o.speed.Some? then o.speed.value else 0)
            && q.value.timeRemaining == (if o.timeRemaining.Some? then o.timeRemaining.value else 0)
            && q.value.formattedLoaded == FormatBytes(Some(o.bytesLoaded))
            && q.value.formattedTotal == FormatBytes(Some(o.bytesTotal))
            && q.value.formattedSpeed == FormatBytes(o.speed)
            && (q.value.formattedSpeed.ZeroSize? <==> q.value.speed == 0)
            && (q.value.formattedRemaining == "--" <==> q.value.timeRemaining == 0)
            && (o.timeRemaining.Some? && o.timeRemaining.value != 0 ==>
                  q.value.formattedRemaining == FormatTime(o.timeRemaining)))
    ensures ApplyProgress(s, u).isGenerating == s.isGenerating
    ensures ApplyProgress(s, u).pendingClears == s.pendingClears + (if SchedulesClear(u.status) then 1 else 0)
  {
  }

  /**
   * A "generation" report changes the activity flag as its table says and
   * nothing but the flag and the log.
   */
  lemma GenerationReportOnlyTouchesFlag(s: AppState, u: ProgressUpdate)
    requires u.kind == Some("generation")
    ensures ApplyProgress(s, u) == s.(
      logs := s.logs + [LogLine(u)],
      isGenerating :=
        if u.status.Some? && u.status.value in GenerationTable then GenerationTable[u.status.value]
        else s.isGenerating)
  {
  }

  /** A report of any other type changes only the log. */
  lemma OtherReportOnlyLogs(s: AppState, u: ProgressUpdate)
    requires u.kind != Some("model") && u.kind != Some("generation")
    ensures ApplyProgress(s, u) == s.(logs := s.logs + [LogLine(u)])
  {
  }

  /**
   * A run of reports leaves the transcript, the context, the model name,
   * the input and the settings alone, and appends exactly their log lines.
   */
  lemma {:induction false} ReportsOnlyTouchStatus(s: AppState, us: seq<ProgressUpdate>)
    ensures var t := ApplyAll(s, us);
      && t.messages == s.messages
      && t.conversation == s.conversation
      && t.loadedModelName == s.loadedModelName
      && t.userInput == s.userInput
      && t.hasRuntime == s.hasRuntime
      && t.streamingEnabled == s.streamingEnabled
      && |t.logs| == |s.logs| + |us|
      && t.logs[..|s.logs|] == s.logs
      && forall i :: 0 <= i < |us| ==> t.logs[|s.logs| + i] == LogLine(us[i])
  {
    if us != [] {
      var front := us[..|us| - 1];
      var last := us[|us| - 1];
      ReportsOnlyTouchStatus(s, front);
      var m := ApplyAll(s, front);
      var t := ApplyAll(s, us);
      assert t == ApplyProgress(m, last);
      ReportOnlyTouchesStatus(m, last);
      assert t.logs[..|s.logs|] == m.logs[..|s.logs|];
      forall i | 0 <= i < |us|
        ensures t.logs[|s.logs| + i] == LogLine(us[i])
      {
        if i < |us| - 1 {
          assert front[i] == us[i];
          assert t.logs[|s.logs| + i] == m.logs[|s.logs| + i];
        }
      }
    }
  }

  /** One report leaves everything but the lifecycle flags alone and appends its line. */
  lemma ReportOnlyTouchesStatus(s: AppState, u: ProgressUpdate)
    ensures var t := ApplyProgress(s, u);
      && t.messages == s.messages
      && t.conversation == s.conversation
      && t.loadedModelName == s.loadedModelName
      && t.userInput == s.userInput
      && t.hasRuntime == s.hasRuntime
      && t.streamingEnabled == s.streamingEnabled
      && t.logs == s.logs + [LogLine(u)]
  {
  }

  /** A single report keeps the invariant and extends the history. */
  lemma ProgressKeepsValid(s: AppState, u: ProgressUpdate)
    requires Valid(s)
    ensures Valid(ApplyProgress(s, u)) && Extends(s, ApplyProgress(s, u))
  {
  }

  /** A scheduled clear keeps the invariant and changes no history. */
  lemma ClearKeepsValid(s: AppState)
    requires Valid(s) && s.pendingClears > 0
    ensures Valid(ClearTimer(s)) && Extends(s, ClearTimer(s))
  {
  }

  /** Reports keep the invariant and extend the history. */
  lemma ReportsKeepValid(s: AppState, us: seq<ProgressUpdate>)
    requires Valid(s)
    ensures Valid(ApplyAll(s, us)) && Extends(s, ApplyAll(s, us))
  {
    ReportsOnlyTouchStatus(s, us);
    var t := ApplyAll(s, us);
    assert s.logs <= t.logs by { assert t.logs[..|s.logs|] == s.logs; }
  }

  // ---------------------------------------------------------------------------
  // Transcript helpers
  // ---------------------------------------------------------------------------

  /**
   * updateLastAssistantMessage: replace the content and the typing flag of
   * the last message when it is an assistant message; otherwise leave the
   * list as it is.
   */
  function UpdateLastAssistant(msgs: seq<Message>, content: string, isTyping: bool): (r: seq<Message>)
    ensures |r| == |msgs|
    ensures forall i :: 0 <= i < |msgs| - 1 ==> r[i] == msgs[i]
    ensures |msgs| > 0 && msgs[|msgs| - 1].role == Assistant ==>
      r[|msgs| - 1] == Message(Assistant, content, isTyping)
    ensures |msgs| == 0 || msgs[|msgs| - 1].role != Assistant ==> r == msgs
  {
    var lastIndex := |msgs| - 1;
    if lastIndex >= 0 && msgs[lastIndex].role == Assistant then
      msgs[lastIndex := msgs[lastIndex].(content := content, isTyping := isTyping)]
    else
      msgs
  }

  /** Only the last update of the last assistant message is visible afterwards. */
  lemma UpdateLastAssistantLastWins(msgs: seq<Message>, c1: string, t1: bool, c2: string, t2: bool)
    ensures UpdateLastAssistant(UpdateLastAssistant(msgs, c1, t1), c2, t2) == UpdateLastAssistant(msgs, c2, t2)
  {
  }

  // ---------------------------------------------------------------------------
  // handleSendMessage
  // ---------------------------------------------------------------------------

  /** The characters String.prototype.trim removes: white space and line terminators. */
  predicate IsJsWhitespace(c: char) {
    || c == '\t' || c == '\n' || c == '\U{000B}' || c == '\U{000C}' || c == '\r' || c == ' '
    || c == '\U{00A0}' || c == '\U{1680}' || '\U{2000}' <= c <= '\U{200A}'
    || c == '\U{2028}' || c == '\U{2029}' || c == '\U{202F}' || c == '\U{205F}'
    || c == '\U{3000}' || c == '\U{FEFF}'
  }

  /** `s.trim()` is empty. */
  predicate IsBlank(s: string) {
    forall i :: 0 <= i < |s| ==> IsJsWhitespace(s[i])
  }

  /** The gate of handleSendMessage. */
  predicate CanSend(s: AppState) {
    !IsBlank(s.userInput) && s.hasRuntime && s.modelStatus == Loaded && !s.isGenerating
  }

  /** The completion call a permitted send issues. */
  function RequestFor(s: AppState): Request {
    Request(
      s.loadedModelName,
      [Turn(System, SystemPrompt)] + s.conversation + [Turn(User, s.userInput)],
      Temperature, MaxTokens, s.streamingEnabled)
  }

  /** The text a chunk adds: its delta content, or nothing. */
  function Delta(c: Chunk): string {
    OrDefault(c.deltaContent, "")
  }

  /** The running full text after the given chunks. */
  function Deltas(cs: seq<Chunk>): string {
    if cs == [] then "" else Deltas(cs[..|cs| - 1]) + Delta(cs[|cs| - 1])
  }

  /** The texts shown while streaming: the full text after each chunk with a non-empty delta. */
  function Emissions(cs: seq<Chunk>): seq<string> {
    if cs == [] then []
    else Emissions(cs[..|cs| - 1]) + (if Delta(cs[|cs| - 1]) != "" then [Deltas(cs)] else [])
  }

  /** What an exchange settles to: the assistant's final text and the log lines it adds. */
  datatype Reply = Reply(text: string, logLines: seq<string>)

  function StreamFailed(e: string): Reply {
    Reply("Streaming error: " + e, ["Streaming error: " + e])
  }

  /** The outcome of draining a pull-style stream. */
  function Drained(st: Stream): Reply {
    match st.failure
    case None => Reply(Deltas(st.chunks), [])
    case Some(e) => StreamFailed(e)
  }

  /**
   * How a completion call settles. An emitter's handlers run after the
   * send has returned, so its exchange is left open (None). Without
   * streaming, a result that is not a plain completion has no `choices`
   * and yields the empty text.
   */
  function Settle(stream: bool, r: Response, elapsedMs: nat): Option<Reply> {
    if stream then
      match r
      case Rejected(e) => Some(StreamFailed(e))
      case Emitter => None
      case Reader(st) => Some(Drained(st))
      case Iterable(st) => Some(Drained(st))
      case Completion(_) => Some(StreamFailed(UnsupportedFormat))
    else
      var timing := "Response generated in " + Show(elapsedMs) + "ms";
      match r
      case Rejected(e) => Some(Reply("Error: " + e, ["Error generating response: " + e]))
      case Completion(c) => Some(Reply(OrDefault(c, ""), [timing]))
      case _ => Some(Reply("", [timing]))
  }

  /**
   * handleSendMessage: when the gate is open, append the user message and
   * an empty assistant placeholder, clear the input, add the user turn to
   * the context, and settle the placeholder with the reply.
   */
  function SendAfter(s: AppState, r: Response, elapsedMs: nat): AppState {
    if !CanSend(s) then s
    else
      var input := s.userInput;
      var conversation := s.conversation + [Turn(User, input)];
      var messages := s.messages + [Message(User, input, false), Message(Assistant, "", true)];
      var logs := s.logs + [GenerationLog];
      match Settle(s.streamingEnabled, r, elapsedMs)
      case None =>
        s.(userInput := "", conversation := conversation, messages := messages, logs := logs)
      case Some(reply) =>
        s.(userInput := "",
           conversation := conversation + [Turn(Assistant, reply.text)],
           messages := UpdateLastAssistant(messages, reply.text, false),
           logs := logs + reply.logLines)
  }

  /** A closed gate changes nothing. */
  lemma SendGate(s: AppState, r: Response, elapsedMs: nat)
    ensures !CanSend(s) ==> SendAfter(s, r, elapsedMs) == s
    ensures IsBlank(s.userInput) || !s.hasRuntime || s.modelStatus != Loaded || s.isGenerating ==>
      SendAfter(s, r, elapsedMs) == s
  {
  }

  /**
   * A permitted send appends exactly the user message and the assistant
   * message, clears the input, adds the user turn (and the assistant turn
   * once settled) to the context, and leaves the lifecycle alone.
   */
  lemma SendAppendsExchange(s: AppState, r: Response, elapsedMs: nat)
    requires CanSend(s)
    ensures var t := SendAfter(s, r, elapsedMs);
      var settled := Settle(s.streamingEnabled, r, elapsedMs);
      t == s.(
        userInput := "",
        messages := s.messages + [
          Message(User, s.userInput, false),
          if settled.Some? then Message(Assistant, settled.value.text, false) else Message(Assistant, "", true)],
        conversation := s.conversation + [Turn(User, s.userInput)]
          + (if settled.Some? then [Turn(Assistant, settled.value.text)] else []),
        logs := s.logs + [GenerationLog] + (if settled.Some? then settled.value.logLines else []))
  {
    var m := s.messages + [Message(User, s.userInput, false), Message(Assistant, "", true)];
    var settled := Settle(s.streamingEnabled, r, elapsedMs);
    if settled.Some? {
      var u := UpdateLastAssistant(m, settled.value.text, false);
      assert u == s.messages + [Message(User, s.userInput, false), Message(Assistant, settled.value.text, false)];
    }
  }

  /** The call carries the system prompt followed by the context as it stands after the send. */
  lemma RequestCarriesContext(s: AppState, r: Response, elapsedMs: nat)
    requires CanSend(s)
    ensures var t := SendAfter(s, r, elapsedMs);
      && RequestFor(s).messages[0] == Turn(System, SystemPrompt)
      && RequestFor(s).messages[1..] == t.conversation[..|s.conversation| + 1]
      && RequestFor(s).stream == s.streamingEnabled
      && RequestFor(s).model == s.loadedModelName
  {
    SendAppendsExchange(s, r, elapsedMs);
    var t := SendAfter(s, r, elapsedMs);
    assert RequestFor(s).messages[1..] == s.conversation + [Turn(User, s.userInput)];
  }

  /** The full text of a stream is the in-order concatenation of its chunks' texts, however split. */
  lemma {:induction false} DeltasAppend(a: seq<Chunk>, b: seq<Chunk>)
    ensures Deltas(a + b) == Deltas(a) + Deltas(b)
    decreases |b|
  {
    if b == [] {
      assert a + b == a;
    } else {
      var b' := b[..|b| - 1];
      assert (a + b)[..|a + b| - 1] == a + b';
      DeltasAppend(a, b');
    }
  }

  /** Re-chunking a tail into one chunk with the same text yields the same full text. */
  lemma CoalescingKeepsText(a: seq<Chunk>, b: seq<Chunk>)
    ensures Deltas(a + b) == Deltas(a + [Chunk(Some(Deltas(b)))])
  {
    DeltasAppend(a, b);
    DeltasAppend(a, [Chunk(Some(Deltas(b)))]);
    assert [Chunk(Some(Deltas(b)))][..0] == [];
  }

  /**
   * While streaming, a text is shown exactly for each chunk with a
   * non-empty delta: the full text up to that chunk. Empty deltas show
   * nothing, no shown text is empty, each one strictly extends the one
   * before it, and the last one shown is the full text.
   */
  lemma {:induction false} EmissionsGrowToText(cs: seq<Chunk>)
    ensures Emissions(cs) == [] ==> Deltas(cs) == ""
    ensures Emissions(cs) != [] ==> Emissions(cs)[|Emissions(cs)| - 1] == Deltas(cs)
    ensures forall i, j :: 0 <= i < j < |Emissions(cs)| ==> Emissions(cs)[i] < Emissions(cs)[j]
    ensures forall i :: 0 <= i < |Emissions(cs)| ==> Emissions(cs)[i] != ""
    ensures forall k :: 0 <= k < |cs| && Delta(cs[k]) != "" ==> Deltas(cs[..k + 1]) in Emissions(cs)
    ensures forall i :: 0 <= i < |Emissions(cs)| ==>
      exists k :: 0 <= k < |cs| && Delta(cs[k]) != "" && Emissions(cs)[i] == Deltas(cs[..k + 1])
  {
    EmissionsGrow(cs);
    EmissionsCoverDeltas(cs);
    EmissionsOnlyForDeltas(cs);
  }

  /** The shown texts are non-empty, strictly growing, and end at the full text. */
  lemma {:induction false} EmissionsGrow(cs: seq<Chunk>)
    ensures Emissions(cs) == [] ==> Deltas(cs) == ""
    ensures Emissions(cs) != [] ==> Emissions(cs)[|Emissions(cs)| - 1] == Deltas(cs)
    ensures forall i, j :: 0 <= i < j < |Emissions(cs)| ==> Emissions(cs)[i] < Emissions(cs)[j]
    ensures forall i :: 0 <= i < |Emissions(cs)| ==> Emissions(cs)[i] != ""
  {
    if cs != [] {
      var front := cs[..|cs| - 1];
      EmissionsGrow(front);
      var e := Emissions(front);
      if Delta(cs[|cs| - 1]) != "" {
        assert Emissions(cs) == e + [Deltas(cs)];
        forall i | 0 <= i < |e|
          ensures e[i] < Deltas(cs)
        {
          assert e[i] <= e[|e| - 1];
          assert Deltas(front) < Deltas(cs);
        }
      }
    }
  }

  /** Dropping the last chunk keeps every earlier chunk and every shorter prefix. */
  lemma FrontAgrees(cs: seq<Chunk>, k: nat)
    requires k < |cs| - 1
    ensures cs[k] == cs[..|cs| - 1][k] && cs[..k + 1] == cs[..|cs| - 1][..k + 1]
  {
  }

  /** Each chunk with a non-empty delta shows the full text up to it. */
  lemma {:induction false} EmissionsCoverDeltas(cs: seq<Chunk>)
    ensures forall k :: 0 <= k < |cs| && Delta(cs[k]) != "" ==> Deltas(cs[..k + 1]) in Emissions(cs)
  {
    if cs != [] {
      var n := |cs| - 1;
      var front := cs[..n];
      EmissionsCoverDeltas(front);
      assert Emissions(front) <= Emissions(cs);
      forall k | 0 <= k < |cs| && Delta(cs[k]) != ""
        ensures Deltas(cs[..k + 1]) in Emissions(cs)
      {
        if k < n {
          FrontAgrees(cs, k);
          assert Deltas(front[..k + 1]) in Emissions(front);
        } else {
          assert cs[..k + 1] == cs;
        }
      }
    }
  }

  /** Every shown text is the full text up to some chunk with a non-empty delta. */
  lemma {:induction false} EmissionsOnlyForDeltas(cs: seq<Chunk>)
    ensures forall i :: 0 <= i < |Emissions(cs)| ==>
      exists k :: 0 <= k < |cs| && Delta(cs[k]) != "" && Emissions(cs)[i] == Deltas(cs[..k + 1])
  {
    if cs == [] {
      assert |Emissions(cs)| == 0;
    } else {
      var n := |cs| - 1;
      var front := cs[..n];
      EmissionsOnlyForDeltas(front);
      var e := Emissions(front);
      assert e <= Emissions(cs);
      forall i | 0 <= i < |Emissions(cs)|
        ensures exists k :: 0 <= k < |cs| && Delta(cs[k]) != "" && Emissions(cs)[i] == Deltas(cs[..k + 1])
      {
        if i < |e| {
          var k :| 0 <= k < |front| && Delta(front[k]) != "" && e[i] == Deltas(front[..k + 1]);
          FrontAgrees(cs, k);
          assert 0 <= k < |cs| && Delta(cs[k]) != "" && Emissions(cs)[i] == Deltas(cs[..k + 1]);
        } else {
          assert Delta(cs[n]) != "" && Emissions(cs)[i] == Deltas(cs);
          assert cs[..n + 1] == cs;
          assert 0 <= n < |cs| && Delta(cs[n]) != "" && Emissions(cs)[i] == Deltas(cs[..n + 1]);
        }
      }
    }
  }

  /** The two chunks "Hel" and "lo" show "Hel", then "Hello", and settle to "Hello". */
  lemma HelloStream()
    ensures Emissions([Chunk(Some("Hel")), Chunk(Some("lo"))]) == ["Hel", "Hello"]
    ensures Drained(Stream([Chunk(Some("Hel")), Chunk(Some("lo"))], None)).text == "Hello"
  {
    var cs := [Chunk(Some("Hel")), Chunk(Some("lo"))];
    assert cs[..1] == [Chunk(Some("Hel"))];
    assert cs[..1][..0] == [];
    assert Delta(cs[0]) == "Hel" && Delta(cs[1]) == "lo";
    assert Deltas(cs[..1]) == "Hel";
    assert Deltas(cs) == "Hel" + "lo" == "Hello";
    assert Emissions(cs[..1]) == ["Hel"];
  }

  /**
   * A streamed exchange that drains without error settles to the full text
   * of its chunks; a failed one shows "Streaming error: <message>" instead.
   */
  lemma StreamedReplyText(s: AppState, st: Stream, elapsedMs: nat)
    requires CanSend(s) && s.streamingEnabled
    ensures var t := SendAfter(s, Reader(st), elapsedMs);
      && t == SendAfter(s, Iterable(st), elapsedMs)
      && t.messages[|t.messages| - 1] == Message(Assistant,
           if st.failure.None? then Deltas(st.chunks) else "Streaming error: " + st.failure.value, false)
      && t.conversation == s.conversation + [Turn(User, s.userInput),
           Turn(Assistant, if st.failure.None? then Deltas(st.chunks) else "Streaming error: " + st.failure.value)]
      && t.logs == s.logs + [GenerationLog] + (if st.failure.None? then [] else ["Streaming error: " + st.failure.value])
  {
    SendAppendsExchange(s, Reader(st), elapsedMs);
  }

  /**
   * With streaming, a rejected call and a result of no supported shape both
   * settle the placeholder with "Streaming error: <message>" and log that line.
   */
  lemma StreamedFailureText(s: AppState, e: string, c: Option<string>, elapsedMs: nat)
    requires CanSend(s) && s.streamingEnabled
    ensures var t := SendAfter(s, Rejected(e), elapsedMs);
      && t.messages[|t.messages| - 1] == Message(Assistant, "Streaming error: " + e, false)
      && t.logs[|t.logs| - 1] == "Streaming error: " + e
    ensures var t := SendAfter(s, Completion(c), elapsedMs);
      && t.messages[|t.messages| - 1] == Message(Assistant, "Streaming error: " + UnsupportedFormat, false)
      && t.logs[|t.logs| - 1] == "Streaming error: " + UnsupportedFormat
  {
    SendAppendsExchange(s, Rejected(e), elapsedMs);
    SendAppendsExchange(s, Completion(c), elapsedMs);
  }

  /** A completion call that fails without streaming shows "Error: <message>" as the reply. */
  lemma RejectedReplyText(s: AppState, e: string, elapsedMs: nat)
    requires CanSend(s) && !s.streamingEnabled
    ensures var t := SendAfter(s, Rejected(e), elapsedMs);
      && t.messages[|t.messages| - 1] == Message(Assistant, "Error: " + e, false)
      && t.logs[|t.logs| - 1] == "Error generating response: " + e
      && !t.isGenerating
  {
    SendAppendsExchange(s, Rejected(e), elapsedMs);
  }

  lemma SendKeepsValid(s: AppState, r: Response, elapsedMs: nat)
    requires Valid(s)
    ensures Valid(SendAfter(s, r, elapsedMs)) && Extends(s, SendAfter(s, r, elapsedMs))
  {
    if CanSend(s) {
      SendAppendsExchange(s, r, elapsedMs);
      var t := SendAfter(s, r, elapsedMs);
      assert s.messages[..|s.messages| - 1] <= s.messages;
      assert t.messages[..|s.messages|] == s.messages;
    }
  }

  // ---------------------------------------------------------------------------
  // handleLoadModel, handleUnloadModel
  // ---------------------------------------------------------------------------

  function SystemMessage(content: string): Message {
    Message(System, content, false)
  }

  /** The state once a load has been started and before the runtime is awaited. */
  function LoadStarted(s: AppState, model: string): AppState {
    s.(logs := s.logs + ["Loading model: " + model],
       progress := None,
       modelStatus := Loading,
       loadedModelName := Some(model),
       messages := s.messages + [SystemMessage("Loading model: " + model + "...")],
       conversation := [])
  }

  /**
   * handleLoadModel: start the load, let the runtime report progress while
   * it is awaited, then record success or failure.
   */
  function LoadAfter(s: AppState, model: string, during: seq<ProgressUpdate>, outcome: Outcome): AppState {
    if !s.hasRuntime then s
    else
      var t := ApplyAll(LoadStarted(s, model), during);
      match outcome
      case Pass =>
        t.(messages := t.messages + [SystemMessage("Model " + model + " loaded successfully! You can start chatting now.")],
           modelStatus := Loaded)
      case Fail(e) =>
        t.(logs := t.logs + ["Error loading model: " + e],
           messages := t.messages + [SystemMessage("Error loading model: " + e)],
           modelStatus := Error)
  }

  /**
   * Whatever the runtime reports meanwhile, a load ends "loaded" when it
   * resolves and "error" when it rejects; either way the context is empty
   * and the model name is the one requested. Without a runtime nothing
   * changes.
   */
  lemma LoadOutcome(s: AppState, model: string, during: seq<ProgressUpdate>, outcome: Outcome)
    ensures !s.hasRuntime ==> LoadAfter(s, model, during, outcome) == s
    ensures s.hasRuntime ==>
      var t := LoadAfter(s, model, during, outcome);
      && t.modelStatus == (if outcome.Pass? then Loaded else Error)
      && t.conversation == []
      && t.loadedModelName == Some(model)
      && |t.logs| > |s.logs| && t.logs[|s.logs|] == "Loading model: " + model
      && (outcome.Fail? ==>
            && t.logs[|t.logs| - 1] == "Error loading model: " + outcome.error
            && t.messages[|t.messages| - 1] == SystemMessage("Error loading model: " + outcome.error))
  {
    if s.hasRuntime {
      ReportsOnlyTouchStatus(LoadStarted(s, model), during);
    }
  }

  lemma LoadKeepsValid(s: AppState, model: string, during: seq<ProgressUpdate>, outcome: Outcome)
    requires Valid(s)
    ensures Valid(LoadAfter(s, model, during, outcome)) && Extends(s, LoadAfter(s, model, during, outcome))
  {
    if s.hasRuntime {
      var s1 := LoadStarted(s, model);
      assert Extends(s, s1);
      ReportsKeepValid(s1, during);
    }
  }

  /** The state once an unload has been started and before the runtime is awaited. */
  function UnloadStarted(s: AppState, name: string): AppState {
    s.(logs := s.logs + ["Unloading model: " + name],
       modelStatus := NotLoaded,
       messages := s.messages + [SystemMessage("Unloading model: " + name + "...")])
  }

  /**
   * handleUnloadModel: without a runtime or a (non-empty) model name,
   * nothing; otherwise start the unload, let the runtime report progress,
   * then forget the model and the context on success, or go back to
   * "loaded" on failure.
   */
  function UnloadAfter(s: AppState, during: seq<ProgressUpdate>, outcome: Outcome): AppState {
    if !s.hasRuntime || !Truthy(s.loadedModelName) then s
    else
      var name := s.loadedModelName.value;
      var t := ApplyAll(UnloadStarted(s, name), during);
      match outcome
      case Pass =>
        t.(messages := t.messages + [SystemMessage("Model " + name + " unloaded successfully.")],
           loadedModelName := None,
           conversation := [])
      case Fail(e) =>
        t.(logs := t.logs + ["Error unloading model: " + e],
           messages := t.messages + [SystemMessage("Error unloading model: " + e)],
           modelStatus := Loaded)
  }

  /**
   * An unload without a runtime or a model name is a no-op; a failed one
   * goes back to "loaded" and keeps the model name and the context; a
   * successful one drops the name and empties the context.
   */
  lemma UnloadOutcome(s: AppState, during: seq<ProgressUpdate>, outcome: Outcome)
    ensures !s.hasRuntime || !Truthy(s.loadedModelName) ==> UnloadAfter(s, during, outcome) == s
    ensures s.hasRuntime && Truthy(s.loadedModelName) && outcome.Fail? ==>
      var t := UnloadAfter(s, during, outcome);
      && t.modelStatus == Loaded && t.loadedModelName == s.loadedModelName && t.conversation == s.conversation
      && t.logs[|t.logs| - 1] == "Error unloading model: " + outcome.error
      && t.messages[|t.messages| - 1] == SystemMessage("Error unloading model: " + outcome.error)
    ensures s.hasRuntime && Truthy(s.loadedModelName) && outcome.Pass? ==>
      var t := UnloadAfter(s, during, outcome);
      t.loadedModelName.None? && t.conversation == []
  {
    if s.hasRuntime && Truthy(s.loadedModelName) {
      ReportsOnlyTouchStatus(UnloadStarted(s, s.loadedModelName.value), during);
    }
  }

  lemma UnloadKeepsValid(s: AppState, during: seq<ProgressUpdate>, outcome: Outcome)
    requires Valid(s)
    ensures Valid(UnloadAfter(s, during, outcome)) && Extends(s, UnloadAfter(s, during, outcome))
  {
    if s.hasRuntime && Truthy(s.loadedModelName) {
      var s1 := UnloadStarted(s, s.loadedModelName.value);
      assert Extends(s, s1);
      ReportsKeepValid(s1, during);
    }
  }

  // ---------------------------------------------------------------------------
  // handleStopGeneration, handleToggleStreaming, the input field
  // ---------------------------------------------------------------------------

  /**
   * handleStopGeneration: while generating, log the interruption request.
   * The activity flag is left to the runtime's "interrupted" report.
   */
  function StopAfter(s: AppState): AppState {
    if s.isGenerating && s.hasRuntime then s.(logs := s.logs + ["Interrupting generation..."]) else s
  }

  /** Stopping only ever adds one log line; the flag clears on the later "interrupted" report. */
  lemma StopThenInterrupted(s: AppState, u: ProgressUpdate)
    requires u.kind == Some("generation") && u.status == Some("interrupted")
    ensures StopAfter(s).isGenerating == s.isGenerating
    ensures StopAfter(s) == s || StopAfter(s) == s.(logs := s.logs + ["Interrupting generation..."])
    ensures StopAfter(s) != s <==> s.isGenerating && s.hasRuntime
    ensures !ApplyProgress(StopAfter(s), u).isGenerating
  {
    if s.isGenerating && s.hasRuntime {
      assert |StopAfter(s).logs| == |s.logs| + 1;
    }
  }

  /** Stopping keeps the invariant and extends the history. */
  lemma StopKeepsValid(s: AppState)
    requires Valid(s)
    ensures Valid(StopAfter(s)) && Extends(s, StopAfter(s))
  {
  }

  /** handleToggleStreaming: set the flag and log the new mode. */
  function ToggleAfter(s: AppState, enabled: bool): AppState {
    s.(streamingEnabled := enabled,
       logs := s.logs + ["Streaming mode " + (if enabled then "enabled" else "disabled")])
  }

  /** The next send streams exactly when streaming was last enabled. */
  lemma ToggleDecidesNextRequest(s: AppState, enabled: bool)
    requires CanSend(s)
    ensures CanSend(ToggleAfter(s, enabled))
    ensures RequestFor(ToggleAfter(s, enabled)).stream == enabled
  {
  }

  /** Toggling keeps the invariant and extends the history. */
  lemma ToggleKeepsValid(s: AppState, enabled: bool)
    requires Valid(s)
    ensures Valid(ToggleAfter(s, enabled)) && Extends(s, ToggleAfter(s, enabled))
  {
  }
}

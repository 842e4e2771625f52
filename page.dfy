/**
 * The `Home` component of app/page.tsx: its state cells as fields, its
 * handlers as methods that update them step by step. Each handler is
 * proved to end in the state the matching transition of ChatState gives,
 * and so to keep ChatState.Valid.
 */
module Page {
  import opened Wrappers
  import opened Types
  import opened Runtime
  import opened ChatState

  class Home {
    var modelStatus: ModelStatus
    var isGenerating: bool
    var streamingEnabled: bool
    var progress: Option<Progress>
    var pendingClears: nat
    var loadedModelName: Option<string>
    var hasRuntime: bool
    var userInput: string
    var messages: seq<Message>
    var conversation: seq<Turn>
    var logs: seq<string>

    /** The state cells as one record. */
    function State(): AppState
      reads this
    {
      AppState(modelStatus, isGenerating, streamingEnabled, progress, pendingClears,
               loadedModelName, hasRuntime, userInput, messages, conversation, logs)
    }

    ghost predicate Valid()
      reads this
    {
      ChatState.Valid(State())
    }

    constructor ()
      ensures State() == Initial && Valid()
    {
      modelStatus := NotLoaded;
      isGenerating := false;
      streamingEnabled := true;
      progress := None;
      pendingClears := 0;
      loadedModelName := None;
      hasRuntime := false;
      userInput := "";
      messages := [Message(System, Welcome, false)];
      conversation := [];
      logs := [];
    }

    /** The runtime instance becomes available once the page has created it. */
    method AttachRuntime()
      requires Valid()
      modifies this
      ensures State() == old(State()).(hasRuntime := true)
      ensures Valid()
    {
      hasRuntime := true;
    }

    /** The input field's setter. */
    method SetUserInput(text: string)
      requires Valid()
      modifies this
      ensures State() == old(State()).(userInput := text)
      ensures Valid()
    {
      userInput := text;
    }

    method AddLogEntry(message: string)
      modifies this
      ensures State() == old(State()).(logs := old(logs) + [message])
    {
      logs := logs + [message];
    }

    method AddUserMessage(content: string)
      modifies this
      ensures State() == old(State()).(messages := old(messages) + [Message(User, content, false)])
    {
      messages := messages + [Message(User, content, false)];
    }

    method AddSystemMessage(content: string)
      modifies this
      ensures State() == old(State()).(messages := old(messages) + [SystemMessage(content)])
    {
      messages := messages + [Message(System, content, false)];
    }

    method AddAssistantTypingMessage()
      modifies this
      ensures State() == old(State()).(messages := old(messages) + [Message(Assistant, "", true)])
    {
      messages := messages + [Message(Assistant, "", true)];
    }

    method UpdateLastAssistantMessage(content: string, isTyping: bool)
      modifies this
      ensures State() == old(State()).(messages := UpdateLastAssistant(old(messages), content, isTyping))
    {
      var newMessages := messages;
      var lastIndex := |newMessages| - 1;
      if lastIndex >= 0 && newMessages[lastIndex].role == Assistant {
        newMessages := newMessages[lastIndex := newMessages[lastIndex].(content := content, isTyping := isTyping)];
      }
      messages := newMessages;
    }

    /** handleProgress. */
    method HandleProgress(u: ProgressUpdate)
      requires Valid()
      modifies this
      ensures State() == ApplyProgress(old(State()), u)
      ensures Valid() && Extends(old(State()), State())
    {
      ProgressKeepsValid(State(), u);
      AddLogEntry(LogLine(u));
      if u.kind == Some("model") {
        progress := Some(Snapshot(u));
        if u.status == Some("loading") || u.status == Some("initiate") || u.status == Some("progress") {
          modelStatus := Loading;
        } else if u.status == Some("ready") || u.status == Some("done") {
          modelStatus := Loaded;
          pendingClears := pendingClears + 1;
        } else if u.status == Some("error") {
          modelStatus := Error;
          pendingClears := pendingClears + 1;
        } else if u.status == Some("offloaded") {
          modelStatus := NotLoaded;
          progress := None;
        }
      }
      if u.kind == Some("generation") {
        if u.status == Some("generating") {
          isGenerating := true;
        } else if u.status == Some("complete") || u.status == Some("error") || u.status == Some("interrupted") {
          isGenerating := false;
        }
      }
    }

    /** One of the scheduled snapshot clears runs. */
    method ClearTimerFires()
      requires pendingClears > 0
      requires Valid()
      modifies this
      ensures State() == ClearTimer(old(State()))
      ensures Valid() && Extends(old(State()), State())
    {
      ClearKeepsValid(State());
      progress := None;
      pendingClears := pendingClears - 1;
    }

    /** The runtime calls the progress callback once per report, in order, while an operation is awaited. */
    method ReceiveReports(during: seq<ProgressUpdate>)
      requires Valid()
      modifies this
      ensures State() == ApplyAll(old(State()), during)
      ensures Valid() && Extends(old(State()), State())
    {
      ReportsKeepValid(State(), during);
      var i := 0;
      while i < |during|
        invariant 0 <= i <= |during|
        invariant Valid()
        invariant State() == ApplyAll(old(State()), during[..i])
      {
        assert during[..i + 1][..i] == during[..i];
        HandleProgress(during[i]);
        i := i + 1;
      }
      assert during[..i] == during;
    }

    /** handleLoadModel, with the runtime's load replaced by its reports and its outcome. */
    method HandleLoadModel(model: string, during: seq<ProgressUpdate>, outcome: Outcome)
      requires Valid()
      modifies this
      ensures State() == LoadAfter(old(State()), model, during, outcome)
      ensures Valid() && Extends(old(State()), State())
    {
      LoadKeepsValid(State(), model, during, outcome);
      if !hasRuntime {
        return;
      }
      AddLogEntry("Loading model: " + model);
      progress := None;
      modelStatus := Loading;
      loadedModelName := Some(model);
      AddSystemMessage("Loading model: " + model + "...");
      conversation := [];
      ReceiveReports(during);
      match outcome
      case Pass =>
        AddSystemMessage("Model " + model + " loaded successfully! You can start chatting now.");
        modelStatus := Loaded;
      case Fail(e) =>
        AddLogEntry("Error loading model: " + e);
        AddSystemMessage("Error loading model: " + e);
        modelStatus := Error;
    }

    /** handleUnloadModel, with the runtime's offload replaced by its reports and its outcome. */
    method HandleUnloadModel(during: seq<ProgressUpdate>, outcome: Outcome)
      requires Valid()
      modifies this
      ensures State() == UnloadAfter(old(State()), during, outcome)
      ensures Valid() && Extends(old(State()), State())
    {
      UnloadKeepsValid(State(), during, outcome);
      if !hasRuntime || loadedModelName.None? || loadedModelName.value == "" {
        return;
      }
      var name := loadedModelName.value;
      AddLogEntry("Unloading model: " + name);
      modelStatus := NotLoaded;
      AddSystemMessage("Unloading model: " + name + "...");
      ReceiveReports(during);
      match outcome
      case Pass =>
        AddSystemMessage("Model " + name + " unloaded successfully.");
        loadedModelName := None;
        conversation := [];
      case Fail(e) =>
        AddLogEntry("Error unloading model: " + e);
        AddSystemMessage("Error unloading model: " + e);
        modelStatus := Loaded;
    }

    /**
     * The read loop of a pull-style stream: each non-empty delta extends the
     * running text, which is shown in the typing placeholder at once.
     * `shown` records the texts shown, in order.
     */
    method DrainChunks(chunks: seq<Chunk>) returns (full: string, ghost shown: seq<string>)
      requires |messages| > 0 && messages[|messages| - 1] == Message(Assistant, "", true)
      modifies this
      ensures full == Deltas(chunks) && shown == Emissions(chunks)
      ensures State() == old(State()).(messages := old(messages)[..|old(messages)| - 1] + [Message(Assistant, full, true)])
    {
      ghost var prefix := messages[..|messages| - 1];
      assert messages == prefix + [Message(Assistant, "", true)];
      full := "";
      shown := [];
      var i := 0;
      while i < |chunks|
        invariant 0 <= i <= |chunks|
        invariant full == Deltas(chunks[..i]) && shown == Emissions(chunks[..i])
        invariant State() == old(State()).(messages := prefix + [Message(Assistant, full, true)])
      {
        assert chunks[..i + 1][..i] == chunks[..i];
        var content := Delta(chunks[i]);
        if content != "" {
          full := full + content;
          UpdateLastAssistantMessage(full, true);
          shown := shown + [full];
        }
        i := i + 1;
      }
      assert chunks[..i] == chunks;
    }

    /** Settles the placeholder and the context with the assistant's final text. */
    method FinishReply(text: string)
      modifies this
      ensures State() == old(State()).(
        messages := UpdateLastAssistant(old(messages), text, false),
        conversation := old(conversation) + [Turn(Assistant, text)])
    {
      UpdateLastAssistantMessage(text, false);
      conversation := conversation + [Turn(Assistant, text)];
    }

    /** The catch block of the streaming branch. */
    method StreamError(e: string)
      modifies this
      ensures State() == old(State()).(
        messages := UpdateLastAssistant(old(messages), "Streaming error: " + e, false),
        conversation := old(conversation) + [Turn(Assistant, "Streaming error: " + e)],
        logs := old(logs) + ["Streaming error: " + e])
    {
      var errorMessage := "Streaming error: " + e;
      AddLogEntry(errorMessage);
      FinishReply(errorMessage);
    }

    /** Drains a reader or an async iterable, then settles the exchange. */
    method ReceiveStream(st: Stream)
      requires |messages| > 0 && messages[|messages| - 1] == Message(Assistant, "", true)
      modifies this
      ensures var reply := Drained(st);
        State() == old(State()).(
          messages := UpdateLastAssistant(old(messages), reply.text, false),
          conversation := old(conversation) + [Turn(Assistant, reply.text)],
          logs := old(logs) + reply.logLines)
    {
      ghost var before := messages;
      var full, shown := DrainChunks(st.chunks);
      UpdateLastAssistantLastWins(before, full, true, Drained(st).text, false);
      match st.failure
      case None =>
        FinishReply(full);
      case Some(e) =>
        StreamError(e);
    }

    /**
     * handleSendMessage, with the completion call replaced by its result and
     * the measured time by `elapsedMs`. Returns the call it issues, if any.
     */
    method HandleSendMessage(response: Response, elapsedMs: nat) returns (request: Option<Request>)
      requires Valid()
      modifies this
      ensures State() == SendAfter(old(State()), response, elapsedMs)
      ensures request == if CanSend(old(State())) then Some(RequestFor(old(State()))) else None
      ensures Valid() && Extends(old(State()), State())
    {
      SendKeepsValid(State(), response, elapsedMs);
      if IsBlank(userInput) || !hasRuntime || modelStatus != Loaded || isGenerating {
        return None;
      }
      ghost var s0 := State();
      var input := userInput;
      AddUserMessage(input);
      userInput := "";
      var updatedConversation := conversation + [Turn(User, input)];
      conversation := updatedConversation;
      var requestMessages := [Turn(System, SystemPrompt)] + updatedConversation;
      assert requestMessages == RequestFor(s0).messages;
      AddAssistantTypingMessage();
      request := Some(Request(loadedModelName, requestMessages, Temperature, MaxTokens, streamingEnabled));
      AddLogEntry(GenerationLog);
      SettleExchange(response, elapsedMs);
    }

    /** The completion call's result settles the typing placeholder, as `Settle` describes. */
    method SettleExchange(response: Response, elapsedMs: nat)
      requires |messages| > 0 && messages[|messages| - 1] == Message(Assistant, "", true)
      modifies this
      ensures Settle(old(streamingEnabled), response, elapsedMs).None? ==> State() == old(State())
      ensures Settle(old(streamingEnabled), response, elapsedMs).Some? ==>
        var reply := Settle(old(streamingEnabled), response, elapsedMs).value;
        State() == old(State()).(
          messages := UpdateLastAssistant(old(messages), reply.text, false),
          conversation := old(conversation) + [Turn(Assistant, reply.text)],
          logs := old(logs) + reply.logLines)
    {
      if streamingEnabled {
        match response
        case Rejected(e) => StreamError(e);
        case Emitter =>
        case Reader(st) => ReceiveStream(st);
        case Iterable(st) => ReceiveStream(st);
        case Completion(_) => StreamError(UnsupportedFormat);
      } else {
        match response
        case Rejected(e) =>
          AddLogEntry("Error generating response: " + e);
          FinishReply("Error: " + e);
        case Completion(c) =>
          FinishReply(OrDefault(c, ""));
          AddLogEntry("Response generated in " + Utils.Show(elapsedMs) + "ms");
        case _ =>
          FinishReply("");
          AddLogEntry("Response generated in " + Utils.Show(elapsedMs) + "ms");
      }
    }

    /** handleStopGeneration; the runtime's interrupt call itself changes no page state. */
    method HandleStopGeneration()
      requires Valid()
      modifies this
      ensures State() == StopAfter(old(State()))
      ensures Valid() && Extends(old(State()), State())
    {
      StopKeepsValid(State());
      if isGenerating && hasRuntime {
        AddLogEntry("Interrupting generation...");
      }
    }

    /** handleToggleStreaming. */
    method HandleToggleStreaming(enabled: bool)
      requires Valid()
      modifies this
      ensures State() == ToggleAfter(old(State()), enabled)
      ensures Valid() && Extends(old(State()), State())
    {
      ToggleKeepsValid(State(), enabled);
      streamingEnabled := enabled;
      AddLogEntry("Streaming mode " + (if enabled then "enabled" else "disabled"));
    }
  }

  /**
   * Load a model, type a message and send it with streaming: the reply
   * settles to the streamed text and the log records the "[ready]" report.
   */
  method LoadAndChat(model: string, question: string, chunks: seq<Chunk>) returns (home: Home)
    requires !IsBlank(question)
    ensures home.modelStatus == Loaded
    ensures |home.messages| > 0 && home.messages[|home.messages| - 1] == Message(Assistant, Deltas(chunks), false)
    ensures "[ready] (model) " in home.logs
  {
    home := new Home();
    home.AttachRuntime();
    var ready := ProgressUpdate(Some("ready"), Some("model"), None, None, None, None);
    home.HandleLoadModel(model, [ready], Pass);
    ReportsOnlyTouchStatus(LoadStarted(Initial.(hasRuntime := true), model), [ready]);
    assert home.logs[1] == LogLine(ready) == "[ready] (model) ";
    ghost var logsAfterLoad := home.logs;
    home.SetUserInput(question);
    var request := home.HandleSendMessage(Reader(Stream(chunks, None)), 0);
    assert logsAfterLoad <= home.logs;
    assert home.logs[1] == "[ready] (model) ";
  }
}

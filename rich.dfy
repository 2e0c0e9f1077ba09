/** The bookkeeping of `RichAgentInterface` (src/rich_interface.py): the
    theme table, the keyword detector, one processed message, the session
    duration and the history window. */
module RichUi {
  import opened Text
  import opened UiTurn
  import ModernUi

  /** `AGENT_THEMES`. */
  const AgentThemes: map<string, AgentStyle> := map[
    "search" := AgentStyle("cyan", "🔍", "Search Agent", "Recherche d'informations"),
    "weather" := AgentStyle("blue", "🌤️", "Weather Agent", "Météorologie"),
    "chatbot" := AgentStyle("green", "💬", "Chat Agent", "Conversation générale"),
    "tools" := AgentStyle("yellow", "🔧", "Tool Agent", "Exécution d'outils")
  ]

  /** `get_agent_theme`: the agent's theme, the chat agent's for any other
      name. */
  function GetAgentTheme(name: string): (t: AgentStyle)
    ensures name in AgentThemes ==> t == AgentThemes[name]
    ensures name !in AgentThemes ==> t == AgentThemes["chatbot"]
  {
    StyleOf(AgentThemes, name)
  }

  const WeatherWords: seq<string> := ["météo", "weather", "température", "temps", "climat"]
  const SearchWords: seq<string> := ["recherche", "search", "trouve", "cherche", "google"]

  /** `detect_agent_from_message`: weather words first, then search words,
      on the lower-cased message. */
  function DetectAgentFromMessage(content: string): (a: string)
    ensures a in AgentThemes
    ensures a == "weather" <==> AnyKeyword(Lower(content), WeatherWords)
    ensures a == "search" <==> !AnyKeyword(Lower(content), WeatherWords) && AnyKeyword(Lower(content), SearchWords)
  {
    Classify(content, WeatherWords, SearchWords)
  }

  /** The two interfaces' detectors agree except where the modern one knows
      more words: a message this one sends to the weather agent goes there
      in the modern interface too, and one it sends to search goes to search
      or weather there. */
  lemma DetectorsAgree(content: string)
    ensures DetectAgentFromMessage(content) == "weather" ==> ModernUi.DetectAgentType(content) == "weather"
    ensures DetectAgentFromMessage(content) == "search" ==> ModernUi.DetectAgentType(content) in {"weather", "search"}
  {
    assert forall k :: 0 <= k < |WeatherWords| ==> WeatherWords[k] == ModernUi.WeatherKeywords[k];
    assert forall k :: 0 <= k < |SearchWords| ==> SearchWords[k] == ModernUi.SearchKeywords[k];
    ClassifyMonotone(content, WeatherWords, SearchWords, ModernUi.WeatherKeywords, ModernUi.SearchKeywords);
  }

  /** `str(e)` for the `AttributeError` of calling `stream` on `None`: this
      interface has no guard for a missing application. */
  const NoAppError: string := "'NoneType' object has no attribute 'stream'"

  /** What `process_message` leaves behind: without an application the
      stream raises before yielding anything. */
  function ProcessOutcome(appReady: bool, userInput: string, events: seq<UiEvent>, failure: Option<string>): Outcome {
    var start := DetectAgentFromMessage(userInput);
    if !appReady then StreamOutcome(start, [], Some(NoAppError), AgentThemes.Keys)
    else StreamOutcome(start, events, failure, AgentThemes.Keys)
  }

  /** Without an application the saved reply is the error text under the
      detected agent and no tool is counted; with one, the reply is the
      error or the AI text and the count is the stream's; a reply is saved
      unless a normal stream produced no AI text. */
  lemma ProcessOutcomeCases(appReady: bool, userInput: string, events: seq<UiEvent>, failure: Option<string>)
    ensures var o := ProcessOutcome(appReady, userInput, events, failure);
      && (!appReady ==> o == Outcome(ErrorPrefix + NoAppError, DetectAgentFromMessage(userInput), 0))
      && (appReady && failure.Some? ==> o.message == ErrorPrefix + failure.value)
      && (appReady && failure.None? ==> o.message == AiText(events))
      && (o.message == "" <==> appReady && failure.None? && AiText(events) == "")
      && (appReady ==> o.tools == ToolCount(events))
  {
    var start := DetectAgentFromMessage(userInput);
    StreamOutcomeCases(start, events, failure, AgentThemes.Keys);
    StreamOutcomeCases(start, [], Some(NoAppError), AgentThemes.Keys);
  }

  /** With an application both interfaces save the same reply and count
      the same tools for the same stream (their agent tables have the same
      names). */
  lemma SameReplyAsModern(userInput: string, events: seq<UiEvent>, failure: Option<string>)
    ensures ProcessOutcome(true, userInput, events, failure).message
      == ModernUi.ProcessOutcome(true, userInput, events, failure).message
    ensures ProcessOutcome(true, userInput, events, failure).tools
      == ModernUi.ProcessOutcome(true, userInput, events, failure).tools
  {
    ProcessOutcomeCases(true, userInput, events, failure);
    ModernUi.ProcessOutcomeCases(true, userInput, events, failure);
  }

  /** `messages_history[-5:]`: the messages the chat panel shows. */
  function RecentMessages(history: seq<HistoryEntry>): (r: seq<HistoryEntry>)
    ensures |r| == (if |history| < 5 then |history| else 5)
    ensures r == history[|history| - |r|..]
  {
    LastNShape(history, 5);
    LastN(history, 5)
  }

  /** `format_duration` on the whole seconds of the session: `int(t / 60)`
      and `int(t % 60)` coincide with the quotient and remainder. */
  function FormatDuration(total: nat): (s: string)
    ensures |s| >= 5
  {
    Pad2(total / 60) + ":" + Pad2(total % 60)
  }

  /** Both headers show the same session clock. */
  lemma DurationAsModern(total: nat)
    ensures FormatDuration(total) == ModernUi.SessionText(total)
  {
  }

  class RichAgentInterface {
    var appReady: bool
    var currentAgent: string
    var messagesHistory: seq<HistoryEntry>
    var isProcessing: bool
    var currentResponse: string
    var toolCallsCount: nat

    /** `__init__`: no application yet, the chat agent, an empty history. */
    constructor ()
      ensures !appReady && currentAgent == "chatbot" && messagesHistory == []
      ensures !isProcessing && currentResponse == "" && toolCallsCount == 0
    {
      appReady := false;
      currentAgent := "chatbot";
      messagesHistory := [];
      isProcessing := false;
      currentResponse := "";
      toolCallsCount := 0;
    }

    /** `initialize_app` when `build_orchestrator()` returns (when it
        raises, the exception leaves the method and nothing changes). */
    method InitializeApp()
      modifies this
      ensures appReady
      ensures currentAgent == old(currentAgent) && messagesHistory == old(messagesHistory)
      ensures isProcessing == old(isProcessing) && currentResponse == old(currentResponse)
      ensures toolCallsCount == old(toolCallsCount)
    {
      appReady := true;
    }

    /** `process_message`: the user entry, the stream loop over `events`
        (ending with `failure` when it raises), and the `finally` block. */
    method ProcessMessage(userInput: string, events: seq<UiEvent>, failure: Option<string>)
      modifies this
      ensures var o := ProcessOutcome(old(appReady), userInput, events, failure);
        && messagesHistory == old(messagesHistory) + Saved(userInput, o)
        && toolCallsCount == old(toolCallsCount) + o.tools
      ensures appReady == old(appReady)
      ensures !isProcessing && currentResponse == "" && currentAgent == "chatbot"
    {
      isProcessing := true;
      currentResponse := "";
      currentAgent := DetectAgentFromMessage(userInput);
      messagesHistory := messagesHistory + [UserEntry(userInput)];
      var start := currentAgent;
      var tools0 := toolCallsCount;
      if appReady {
        var i := 0;
        while i < |events|
          invariant 0 <= i <= |events|
          invariant toolCallsCount >= tools0
          invariant TurnView(currentAgent, currentResponse, toolCallsCount - tools0)
            == UiFold(events[..i], TurnView(start, "", 0), AgentThemes.Keys)
          invariant messagesHistory == old(messagesHistory) + [UserEntry(userInput)]
          invariant appReady == old(appReady)
        {
          Consume(events[i], tools0);
          assert events[..i + 1][..i] == events[..i];
          i := i + 1;
        }
        assert events[..i] == events;
        if failure.Some? {
          currentResponse := ErrorPrefix + failure.value;
        }
      } else {
        currentResponse := ErrorPrefix + NoAppError;
      }
      SaveAndReset();
    }

    /** One iteration of the stream loop, on the fields. */
    method Consume(e: UiEvent, ghost tools0: nat)
      requires toolCallsCount >= tools0
      modifies this
      ensures toolCallsCount >= tools0
      ensures TurnView(currentAgent, currentResponse, toolCallsCount - tools0)
        == UiStep(old(TurnView(currentAgent, currentResponse, toolCallsCount - tools0)), e, AgentThemes.Keys)
      ensures appReady == old(appReady) && messagesHistory == old(messagesHistory)
      ensures isProcessing == old(isProcessing)
    {
      if e.node.Some? && e.node.value in AgentThemes {
        currentAgent := e.node.value;
      }
      match e.msg
      case ToolMsg =>
        toolCallsCount := toolCallsCount + 1;
        currentAgent := "tools";
      case AiMsg(c) =>
        if c != "" {
          currentResponse := currentResponse + c;
        }
      case OtherMsg =>
    }

    /** The `finally` block. */
    method SaveAndReset()
      modifies this
      ensures messagesHistory == old(messagesHistory)
        + (if old(currentResponse) != "" then [AssistantEntry(old(currentResponse), old(currentAgent))] else [])
      ensures !isProcessing && currentResponse == "" && currentAgent == "chatbot"
      ensures appReady == old(appReady) && toolCallsCount == old(toolCallsCount)
    {
      if currentResponse != "" {
        messagesHistory := messagesHistory + [AssistantEntry(currentResponse, currentAgent)];
      }
      isProcessing := false;
      currentResponse := "";
      currentAgent := "chatbot";
    }
  }
}

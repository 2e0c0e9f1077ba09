/** The bookkeeping of `ModernAgentInterface` (src/modern_rich_interface.py):
    the agent table, the keyword detector, one processed message and the
    session clock and window of the header and conversation panels. */
module ModernUi {
  import opened Text
  import opened UiTurn

  /** `AGENT_CONFIG`. */
  const AgentConfig: map<string, AgentStyle> := map[
    "search" := AgentStyle("bright_cyan", "🔍", "Search Agent", "Recherche web"),
    "weather" := AgentStyle("bright_blue", "🌤️", "Weather Agent", "Informations météo"),
    "chatbot" := AgentStyle("bright_green", "💬", "Chat Agent", "Conversation générale"),
    "tools" := AgentStyle("bright_yellow", "🔧", "Tool Executor", "Exécution d'outils")
  ]

  /** `get_agent_config`: the agent's entry, the chat agent's for any other
      name. */
  function GetAgentConfig(name: string): (c: AgentStyle)
    ensures name in AgentConfig ==> c == AgentConfig[name]
    ensures name !in AgentConfig ==> c == AgentConfig["chatbot"]
  {
    StyleOf(AgentConfig, name)
  }

  const WeatherKeywords: seq<string> := ["météo", "weather", "température", "temps", "climat", "pluie", "soleil"]
  const SearchKeywords: seq<string> := ["recherche", "search", "trouve", "cherche", "google", "internet"]

  /** `detect_agent_type`: the lower-cased message is matched against the
      weather keywords first, then the search keywords. */
  function DetectAgentType(message: string): (a: string)
    ensures a in AgentConfig
    ensures a == "weather" <==> AnyKeyword(Lower(message), WeatherKeywords)
    ensures a == "search" <==> !AnyKeyword(Lower(message), WeatherKeywords) && AnyKeyword(Lower(message), SearchKeywords)
  {
    Classify(message, WeatherKeywords, SearchKeywords)
  }

  /** The reply saved when no graph was built. */
  const NotInitialised: string := "❌ Agent non initialisé"

  /** What `process_agent_message` leaves behind: with no application the
      fixed notice under the detected agent, otherwise the outcome of the
      stream, started from the detected agent. */
  function ProcessOutcome(appReady: bool, userInput: string, events: seq<UiEvent>, failure: Option<string>): Outcome {
    var start := DetectAgentType(userInput);
    if !appReady then Outcome(NotInitialised, start, 0)
    else StreamOutcome(start, events, failure, AgentConfig.Keys)
  }

  /** Every processed message leaves an assistant entry except a normal
      stream with no AI text; without an application the entry is the
      notice and no tool is counted; otherwise the tool count is that of
      the stream. */
  lemma ProcessOutcomeCases(appReady: bool, userInput: string, events: seq<UiEvent>, failure: Option<string>)
    ensures var o := ProcessOutcome(appReady, userInput, events, failure);
      && (!appReady ==> o == Outcome(NotInitialised, DetectAgentType(userInput), 0))
      && (appReady && failure.Some? ==> o.message == ErrorPrefix + failure.value)
      && (appReady && failure.None? ==> o.message == AiText(events))
      && (o.message == "" <==> appReady && failure.None? && AiText(events) == "")
      && (appReady ==> o.tools == ToolCount(events))
  {
    StreamOutcomeCases(DetectAgentType(userInput), events, failure, AgentConfig.Keys);
    assert NotInitialised != "" by {
      assert |NotInitialised| > 0;
    }
  }

  /** `conversation_history[-8:]`: the messages the conversation panel shows. */
  function RecentMessages(history: seq<HistoryEntry>): (r: seq<HistoryEntry>)
    ensures |r| == (if |history| < 8 then |history| else 8)
    ensures r == history[|history| - |r|..]
  {
    LastNShape(history, 8);
    LastN(history, 8)
  }

  /** `divmod(int(duration.total_seconds()), 60)` on the whole seconds of
      the session. */
  function SessionClock(total: nat): (r: (nat, nat))
    ensures r.0 * 60 + r.1 == total && r.1 < 60
  {
    (total / 60, total % 60)
  }

  /** The ` │ Session: mm:ss` field of the header. */
  function SessionText(total: nat): (s: string)
    ensures |s| >= 5
  {
    var (m, sec) := SessionClock(total);
    Pad2(m) + ":" + Pad2(sec)
  }

  /** The field reads back as the session length: two-digit seconds after
      the colon, the minutes before it. */
  lemma SessionTextReads(total: nat)
    ensures var s := SessionText(total);
      && s[|s| - 3] == ':'
      && ParseNat(s[..|s| - 3]) * 60 + ParseNat(s[|s| - 2..]) == total
  {
    var (m, sec) := SessionClock(total);
    Pad2Reads(m);
    Pad2Reads(sec);
    var s := SessionText(total);
    assert s == Pad2(m) + ":" + Pad2(sec);
    assert s[..|s| - 3] == Pad2(m);
    assert s[|s| - 2..] == Pad2(sec);
  }

  /** What `build_orchestrator()` does inside `init_agent`: it raises, it
      returns `None` (the stand-in defined when the import fails), or it
      returns the compiled graph. */
  datatype BuildOutcome = Raised | BuiltNone | BuiltGraph

  class ModernAgentInterface {
    var appReady: bool
    var currentAgent: string
    var conversationHistory: seq<HistoryEntry>
    var isProcessing: bool
    var currentMessage: string
    var toolsUsed: nat

    /** `__init__`: no application yet, the chat agent, an empty history. */
    constructor ()
      ensures !appReady && currentAgent == "chatbot" && conversationHistory == []
      ensures !isProcessing && currentMessage == "" && toolsUsed == 0
    {
      appReady := false;
      currentAgent := "chatbot";
      conversationHistory := [];
      isProcessing := false;
      currentMessage := "";
      toolsUsed := 0;
    }

    /** `init_agent`: `outcome` is what `build_orchestrator()` did. When it
        raised, the application is left as it was and the answer is false;
        otherwise the answer is true and the application is whatever it
        returned, which is `None` under the fallback taken when the
        orchestrator cannot be imported. */
    method InitAgent(outcome: BuildOutcome) returns (ok: bool)
      modifies this
      ensures ok == !outcome.Raised?
      ensures appReady == (if outcome.Raised? then old(appReady) else outcome.BuiltGraph?)
      ensures currentAgent == old(currentAgent) && conversationHistory == old(conversationHistory)
      ensures isProcessing == old(isProcessing) && currentMessage == old(currentMessage) && toolsUsed == old(toolsUsed)
    {
      match outcome
      case Raised =>
        ok := false;
      case BuiltNone =>
        appReady := false;
        ok := true;
      case BuiltGraph =>
        appReady := true;
        ok := true;
    }

    /** `process_agent_message`: the user entry, then the stream loop
        (`events` are the pairs it yields, `failure` the exception it ends
        with, if any), then the `finally` block that saves a non-empty reply
        and resets the turn state. */
    method ProcessAgentMessage(userInput: string, events: seq<UiEvent>, failure: Option<string>)
      modifies this
      ensures var o := ProcessOutcome(old(appReady), userInput, events, failure);
        && conversationHistory == old(conversationHistory) + Saved(userInput, o)
        && toolsUsed == old(toolsUsed) + o.tools
      ensures appReady == old(appReady)
      ensures !isProcessing && currentMessage == "" && currentAgent == "chatbot"
    {
      isProcessing := true;
      currentMessage := "";
      currentAgent := DetectAgentType(userInput);
      conversationHistory := conversationHistory + [UserEntry(userInput)];
      var start := currentAgent;
      var tools0 := toolsUsed;
      if appReady {
        var i := 0;
        while i < |events|
          invariant 0 <= i <= |events|
          invariant toolsUsed >= tools0
          invariant TurnView(currentAgent, currentMessage, toolsUsed - tools0)
            == UiFold(events[..i], TurnView(start, "", 0), AgentConfig.Keys)
          invariant conversationHistory == old(conversationHistory) + [UserEntry(userInput)]
          invariant appReady == old(appReady)
        {
          Consume(events[i], tools0);
          assert events[..i + 1][..i] == events[..i];
          i := i + 1;
        }
        assert events[..i] == events;
        if failure.Some? {
          currentMessage := ErrorPrefix + failure.value;
        }
      } else {
        currentMessage := NotInitialised;
      }
      SaveAndReset();
    }

    /** One iteration of the stream loop, on the fields. */
    method Consume(e: UiEvent, ghost tools0: nat)
      requires toolsUsed >= tools0
      modifies this
      ensures toolsUsed >= tools0
      ensures TurnView(currentAgent, currentMessage, toolsUsed - tools0)
        == UiStep(old(TurnView(currentAgent, currentMessage, toolsUsed - tools0)), e, AgentConfig.Keys)
      ensures appReady == old(appReady) && conversationHistory == old(conversationHistory)
      ensures isProcessing == old(isProcessing)
    {
      if e.node.Some? && e.node.value in AgentConfig {
        currentAgent := e.node.value;
      }
      match e.msg
      case ToolMsg =>
        toolsUsed := toolsUsed + 1;
        currentAgent := "tools";
      case AiMsg(c) =>
        if c != "" {
          currentMessage := currentMessage + c;
        }
      case OtherMsg =>
    }

    /** The `finally` block. */
    method SaveAndReset()
      modifies this
      ensures conversationHistory == old(conversationHistory)
        + (if old(currentMessage) != "" then [AssistantEntry(old(currentMessage), old(currentAgent))] else [])
      ensures !isProcessing && currentMessage == "" && currentAgent == "chatbot"
      ensures appReady == old(appReady) && toolsUsed == old(toolsUsed)
    {
      if currentMessage != "" {
        conversationHistory := conversationHistory + [AssistantEntry(currentMessage, currentAgent)];
      }
      isProcessing := false;
      currentMessage := "";
      currentAgent := "chatbot";
    }
  }
}

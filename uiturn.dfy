/** What the two Rich interfaces (src/modern_rich_interface.py and
    src/rich_interface.py) share: the graph's message stream as they read
    it, the per-turn state it drives, the history entries they keep and the
    "last N messages" window. */
module UiTurn {
  import opened Text

  /** The message half of one `(msg, meta)` pair of `app.stream(...,
      stream_mode="messages")`. */
  datatype UiMsg = ToolMsg | AiMsg(content: string) | OtherMsg

  /** One streamed pair: `meta["langgraph_node"]` when present, and the
      message. */
  datatype UiEvent = UiEvent(node: Option<string>, msg: UiMsg)

  /** The turn state the stream loop updates: the current agent, the
      response text so far and the number of tool messages seen. */
  datatype TurnView = TurnView(agent: string, response: string, tools: nat)

  /** One iteration of the stream loop: a known node name becomes the
      current agent; a tool message counts and switches to "tools"; an AI
      message or chunk appends its content. */
  function UiStep(v: TurnView, e: UiEvent, known: set<string>): TurnView {
    var agent := if e.node.Some? && e.node.value in known then e.node.value else v.agent;
    match e.msg
    case ToolMsg => TurnView("tools", v.response, v.tools + 1)
    case AiMsg(c) => TurnView(agent, v.response + c, v.tools)
    case OtherMsg => TurnView(agent, v.response, v.tools)
  }

  /** The turn state after the loop has consumed `events`. */
  function UiFold(events: seq<UiEvent>, v0: TurnView, known: set<string>): TurnView {
    if events == [] then v0 else UiStep(UiFold(events[..|events| - 1], v0, known), events[|events| - 1], known)
  }

  /** The AI contents of a stream, in order. */
  function AiText(events: seq<UiEvent>): string {
    if events == [] then ""
    else AiText(events[..|events| - 1]) + (if events[|events| - 1].msg.AiMsg? then events[|events| - 1].msg.content else "")
  }

  /** The number of tool messages in a stream. */
  function ToolCount(events: seq<UiEvent>): nat {
    if events == [] then 0
    else ToolCount(events[..|events| - 1]) + (if events[|events| - 1].msg.ToolMsg? then 1 else 0)
  }

  /** The response is the in-order concatenation of the AI contents, the
      counter grows by exactly the number of tool messages (so it never
      decreases), and a stream that ends on a tool message leaves "tools"
      as the current agent. */
  lemma {:induction false} UiFoldSummary(events: seq<UiEvent>, v0: TurnView, known: set<string>)
    ensures UiFold(events, v0, known).response == v0.response + AiText(events)
    ensures UiFold(events, v0, known).tools == v0.tools + ToolCount(events)
    ensures events != [] && events[|events| - 1].msg.ToolMsg? ==> UiFold(events, v0, known).agent == "tools"
  {
    if events != [] {
      UiFoldSummary(events[..|events| - 1], v0, known);
    }
  }

  /** The prefix of the reply saved when the stream raises. */
  const ErrorPrefix: string := "❌ Erreur: "

  /** What a turn leaves behind once its `finally` runs: the reply saved
      (empty: nothing saved), the agent it is saved under and the number of
      tool messages counted. */
  datatype Outcome = Outcome(message: string, agent: string, tools: nat)

  /** A turn whose stream yields `events` and then ends normally
      (`failure == None`) or raises an exception shown as `failure`: the
      loop runs from the agent `start` with an empty response; an exception
      replaces the response with the error text. */
  function StreamOutcome(start: string, events: seq<UiEvent>, failure: Option<string>, known: set<string>): Outcome {
    var v := UiFold(events, TurnView(start, "", 0), known);
    Outcome(if failure.Some? then ErrorPrefix + failure.value else v.response, v.agent, v.tools)
  }

  /** The saved reply is the error text when the stream raised and the AI
      text otherwise; it is non-empty exactly when the stream raised or
      produced some AI text; the tool messages before an exception still
      count. */
  lemma StreamOutcomeCases(start: string, events: seq<UiEvent>, failure: Option<string>, known: set<string>)
    ensures var o := StreamOutcome(start, events, failure, known);
      && (failure.Some? ==> o.message == ErrorPrefix + failure.value)
      && (failure.None? ==> o.message == AiText(events))
      && (o.message != "" <==> failure.Some? || AiText(events) != "")
      && o.tools == ToolCount(events)
      && (events == [] ==> o.agent == start)
      && (events != [] && events[|events| - 1].msg.ToolMsg? ==> o.agent == "tools")
  {
    UiFoldSummary(events, TurnView(start, "", 0), known);
  }

  /** One entry of the interface's own history (timestamps left aside). */
  datatype HistoryEntry = UserEntry(content: string) | AssistantEntry(content: string, agent: string)

  /** The entries a processed message adds to the history: the user entry,
      then the reply when there is one. */
  function Saved(userInput: string, o: Outcome): seq<HistoryEntry> {
    [UserEntry(userInput)] + (if o.message != "" then [AssistantEntry(o.message, o.agent)] else [])
  }

  /** Python `xs[-n:]` for n > 0. */
  function LastN<T>(xs: seq<T>, n: nat): (r: seq<T>)
    requires n > 0
  {
    if |xs| <= n then xs else xs[|xs| - n..]
  }

  /** The window holds the last `n` entries, or all of them when there are
      fewer, in order. */
  lemma LastNShape<T>(xs: seq<T>, n: nat)
    requires n > 0
    ensures |LastN(xs, n)| == (if |xs| < n then |xs| else n)
    ensures LastN(xs, n) == xs[|xs| - |LastN(xs, n)|..]
  {
  }

  /** The display style of an agent: colour, icon, name and description. */
  datatype AgentStyle = AgentStyle(color: string, icon: string, name: string, desc: string)

  /** `table.get(name, table["chatbot"])`. */
  function StyleOf(table: map<string, AgentStyle>, name: string): (s: AgentStyle)
    requires "chatbot" in table
    ensures s in table.Values
  {
    if name in table then table[name] else table["chatbot"]
  }

  /** Whether any keyword occurs in the text. */
  predicate AnyKeyword(text: string, keywords: seq<string>) {
    exists k :: 0 <= k < |keywords| && Contains(text, keywords[k])
  }

  /** The keyword classifier: weather keywords first, then search keywords,
      else "chatbot". */
  function Classify(message: string, weather: seq<string>, search: seq<string>): (a: string)
    ensures a in {"weather", "search", "chatbot"}
    ensures a == "weather" <==> AnyKeyword(Lower(message), weather)
    ensures a == "search" <==> !AnyKeyword(Lower(message), weather) && AnyKeyword(Lower(message), search)
  {
    var m := Lower(message);
    if AnyKeyword(m, weather) then "weather"
    else if AnyKeyword(m, search) then "search"
    else "chatbot"
  }

  /** A classifier with more keywords of each kind never demotes: weather
      stays weather, and search becomes search or weather. */
  lemma ClassifyMonotone(message: string, w1: seq<string>, s1: seq<string>, w2: seq<string>, s2: seq<string>)
    requires forall k :: 0 <= k < |w1| ==> w1[k] in w2
    requires forall k :: 0 <= k < |s1| ==> s1[k] in s2
    ensures Classify(message, w1, s1) == "weather" ==> Classify(message, w2, s2) == "weather"
    ensures Classify(message, w1, s1) == "search" ==> Classify(message, w2, s2) in {"weather", "search"}
  {
    var m := Lower(message);
    if AnyKeyword(m, w1) {
      var k :| 0 <= k < |w1| && Contains(m, w1[k]);
      var j :| 0 <= j < |w2| && w2[j] == w1[k];
    }
    if AnyKeyword(m, s1) {
      var k :| 0 <= k < |s1| && Contains(m, s1[k]);
      var j :| 0 <= j < |s2| && s2[j] == s1[k];
    }
  }
}

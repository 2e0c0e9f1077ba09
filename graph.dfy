/** The orchestrator graph of src/orchestrator/graph.py: what the `chatbot`
    node sends to the model and returns, and the node/edge wiring. */
module Graph {
  import opened Chat
  import opened ToolCatalog

  /** The system message `SYSTEM_PROMPT.format(tools_available=...)`:
      `format` stands for the prompt template, applied to the registry's
      tool names. */
  function SystemMessageFor(format: seq<string> -> string, tools: seq<Tool>): (m: Message)
    ensures m.role == System
    ensures m.content == format(ToolNames(tools))
  {
    Message(System, format(ToolNames(tools)))
  }

  predicate StartsWithSystem(messages: seq<Message>) {
    messages != [] && messages[0].role == System
  }

  /** The list the node hands to the model: the system message is put in
      front unless the history already opens with a system message. */
  function ModelInput(messages: seq<Message>, sys: Message): seq<Message> {
    if StartsWithSystem(messages) then messages else [sys] + messages
  }

  /** The model input opens with a system message; it is the history with
      `sys` in front exactly when the history does not already open with a
      system message, and the history itself otherwise. */
  lemma ModelInputShape(messages: seq<Message>, sys: Message)
    requires sys.role == System
    ensures StartsWithSystem(ModelInput(messages, sys))
    ensures !StartsWithSystem(messages) <==> ModelInput(messages, sys) == [sys] + messages
    ensures StartsWithSystem(messages) ==> ModelInput(messages, sys) == messages
    ensures ModelInput(messages, sys)[|ModelInput(messages, sys)| - |messages|..] == messages
  {
    if StartsWithSystem(messages) {
      assert [sys] + messages != messages by {
        assert |[sys] + messages| != |messages|;
      }
    }
  }

  /** Preparing an already prepared input changes nothing, whatever prompt
      the second call would use: no second system prompt is added. */
  lemma ModelInputIdempotent(messages: seq<Message>, sys: Message, sys2: Message)
    requires sys.role == System
    ensures ModelInput(ModelInput(messages, sys), sys2) == ModelInput(messages, sys)
  {
    ModelInputShape(messages, sys);
  }

  /** How many system messages a list holds. */
  function SystemCount(messages: seq<Message>): nat {
    if messages == [] then 0
    else SystemCount(messages[..|messages| - 1]) + (if messages[|messages| - 1].role == System then 1 else 0)
  }

  lemma {:induction false} SystemCountAppend(a: seq<Message>, b: seq<Message>)
    ensures SystemCount(a + b) == SystemCount(a) + SystemCount(b)
    decreases |b|
  {
    if b == [] {
      assert a + b == a;
    } else {
      SystemCountAppend(a, b[..|b| - 1]);
      assert (a + b)[..|a + b| - 1] == a + b[..|b| - 1];
    }
  }

  /** `chatbot(state)`: the update holds exactly one message, the model's
      reply to the prepared input (`llm` stands for
      `llm_with_tools.invoke`). */
  function ChatbotUpdate(messages: seq<Message>, sys: Message, llm: seq<Message> -> Message): seq<Message> {
    [llm(ModelInput(messages, sys))]
  }

  /** The prepend stays local: once the update is appended to the state,
      the history is the old one plus the reply, and the state gains at
      most the reply's own system message, never the prompt. */
  lemma PromptNeverStored(messages: seq<Message>, sys: Message, llm: seq<Message> -> Message)
    requires llm(ModelInput(messages, sys)).role != System
    ensures var after := messages + ChatbotUpdate(messages, sys, llm);
      |after| == |messages| + 1 && after[..|messages|] == messages
      && SystemCount(after) == SystemCount(messages)
  {
    var r := llm(ModelInput(messages, sys));
    SystemCountAppend(messages, [r]);
    assert [r][..0] == [];
  }

  /** The nodes of the compiled graph. */
  datatype Node = Start | Chatbot | Tools | End

  /** The edges: START → chatbot, tools → chatbot, and chatbot → tools or
      the end as `tools_condition` decides (`toolCalls`: the reply asks for
      a tool). */
  function Next(n: Node, toolCalls: bool): (m: Node)
    ensures n == Chatbot ==> (m == Tools <==> toolCalls) && (m == End <==> !toolCalls)
    ensures n in {Start, Tools} ==> m == Chatbot
  {
    match n
    case Start => Chatbot
    case Tools => Chatbot
    case Chatbot => if toolCalls then Tools else End
    case End => End
  }

  function Rank(n: Node): nat {
    match n
    case Start => 1
    case Tools => 1
    case Chatbot => 0
    case End => 0
  }

  /** The nodes one run visits from `n`, given the successive
      `tools_condition` outcomes after each model reply; the run stops at
      the end or when no outcome is left. */
  function Trace(n: Node, decisions: seq<bool>): seq<Node>
    decreases |decisions|, Rank(n)
  {
    match n
    case End => [End]
    case Chatbot =>
      if decisions == [] then [Chatbot]
      else [Chatbot] + Trace(Next(Chatbot, decisions[0]), decisions[1..])
    case _ => [n] + Trace(Next(n, false), decisions)
  }

  /** Rounds of the chatbot/tools cycle. */
  function Rounds(k: nat): seq<Node> {
    if k == 0 then [] else [Chatbot, Tools] + Rounds(k - 1)
  }

  function Repeat(b: bool, k: nat): (r: seq<bool>)
    ensures |r| == k && forall i :: 0 <= i < k ==> r[i] == b
  {
    if k == 0 then [] else [b] + Repeat(b, k - 1)
  }

  /** Nothing bounds the number of tool rounds: for every k, the reply
      asking for a tool k times and then not gives a run that goes
      through the tools node k times and then ends. */
  lemma {:induction false} AnyNumberOfToolRounds(k: nat)
    ensures Trace(Start, Repeat(true, k) + [false]) == [Start] + Rounds(k) + [Chatbot, End]
  {
    ChatbotRounds(k);
  }

  lemma {:induction false} ChatbotRounds(k: nat)
    ensures Trace(Chatbot, Repeat(true, k) + [false]) == Rounds(k) + [Chatbot, End]
  {
    var ds := Repeat(true, k) + [false];
    if k == 0 {
      assert ds == [false];
      assert ds[1..] == [];
    } else {
      assert ds[0] == true;
      assert ds[1..] == Repeat(true, k - 1) + [false];
      ChatbotRounds(k - 1);
    }
  }

  /** Every run starts at the chatbot after START, and every visit to the
      tools node is followed by the chatbot. */
  lemma {:induction false} ToolsReturnToChatbot(n: Node, decisions: seq<bool>)
    ensures Trace(n, decisions) != [] && Trace(n, decisions)[0] == n
    ensures forall i :: 0 <= i < |Trace(n, decisions)| - 1 && Trace(n, decisions)[i] in {Start, Tools} ==>
      Trace(n, decisions)[i + 1] == Chatbot
    decreases |decisions|, Rank(n)
  {
    match n
    case End =>
    case Chatbot =>
      if decisions != [] {
        ToolsReturnToChatbot(Next(Chatbot, decisions[0]), decisions[1..]);
      }
    case _ =>
      ToolsReturnToChatbot(Chatbot, decisions);
  }
}

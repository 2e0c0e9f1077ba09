/** One chat turn of src/ui/streaming.py (`stream_once`). The model's
    streamed messages are a list of events; the panels the live view shows
    are emitted frames. */
module Streaming {
  import opened Text
  import opened Chat
  import opened Language
  import opened Render
  import opened Commands

  /** One `(msg, meta)` pair from `graph.stream(..., stream_mode="messages")`.
      `node` is already `meta.get("langgraph_node") or "unknown"`, `toolName`
      already `getattr(msg, "tool_name", None) or meta.get("tool", "tool")`,
      `text` already `msg.content or ""`; `at` is the clock reading, in ms,
      when the message is handled. */
  datatype StreamEvent =
    | ToolMsg(toolName: string, node: string)
    | AIChunk(text: string, node: string, at: int)
    | AIFull(text: string, node: string, at: int)
    | OtherMsg(node: string)

  /** The loop's variables: `response_content`, `saw_any_token`, the
      debounce clock and the frames shown so far. */
  datatype Acc = Acc(content: string, saw: bool, last: int, frames: seq<Frame>)

  /** A live render after the text grew: `update_live_markdown` with the cursor. */
  function RenderLive(a: Acc, node: string, at: int, debounce: int): Acc {
    var d := Debounce(a.last, debounce, at);
    a.(last := d.lastUpdate,
       frames := a.frames + (if d.render then [LiveFrame(LiveText(a.content, true), node)] else []))
  }

  /** One loop iteration. `fullDebounced` says whether a full `AIMessage` goes
      through the debounce too (as here) or is always shown without moving
      the debounce clock (as in run_elegant_v3.py). */
  function Step(a: Acc, e: StreamEvent, debounce: int, fullDebounced: bool): Acc {
    match e
    case ToolMsg(name, node) => a.(frames := a.frames + [ToolFrame(name, node)])
    case AIChunk(t, node, at) =>
      if t == "" then a else RenderLive(a.(content := a.content + t, saw := true), node, at, debounce)
    case AIFull(t, node, at) =>
      var grown := a.(content := a.content + t, saw := true);
      if fullDebounced then RenderLive(grown, node, at, debounce)
      else grown.(frames := grown.frames + [LiveFrame(LiveText(grown.content, true), node)])
    case OtherMsg(_) => a
  }

  /** The loop over all events, defined on prefixes. */
  function Fold(events: seq<StreamEvent>, debounce: int, fullDebounced: bool, init: Acc): Acc
    decreases |events|
  {
    if events == [] then init
    else Step(Fold(events[..|events| - 1], debounce, fullDebounced, init), events[|events| - 1], debounce, fullDebounced)
  }

  function EventText(e: StreamEvent): string {
    match e
    case AIChunk(t, _, _) => t
    case AIFull(t, _, _) => t
    case _ => ""
  }

  /** The assistant text carried by the events, in order. */
  function Texts(events: seq<StreamEvent>): string
    decreases |events|
  {
    if events == [] then "" else Texts(events[..|events| - 1]) + EventText(events[|events| - 1])
  }

  /** An event that counts as a token: a full message, or a non-empty chunk. */
  predicate Speaks(e: StreamEvent) {
    e.AIFull? || (e.AIChunk? && e.text != "")
  }

  predicate SawToken(events: seq<StreamEvent>) {
    exists i :: 0 <= i < |events| && Speaks(events[i])
  }

  /** The accumulated response is exactly the assistant text of the events,
      in stream order, after whatever the accumulator started with. */
  lemma {:induction false} FoldContent(events: seq<StreamEvent>, debounce: int, fullDebounced: bool, init: Acc)
    ensures Fold(events, debounce, fullDebounced, init).content == init.content + Texts(events)
    decreases |events|
  {
    if events != [] {
      FoldContent(events[..|events| - 1], debounce, fullDebounced, init);
    }
  }

  /** `saw_any_token` ends true exactly when some event is a token. */
  lemma {:induction false} FoldSaw(events: seq<StreamEvent>, debounce: int, fullDebounced: bool, init: Acc)
    ensures Fold(events, debounce, fullDebounced, init).saw <==> init.saw || SawToken(events)
    decreases |events|
  {
    if events != [] {
      var front := events[..|events| - 1];
      FoldSaw(front, debounce, fullDebounced, init);
      if SawToken(front) {
        var i :| 0 <= i < |front| && Speaks(front[i]);
        assert events[i] == front[i];
      }
      if SawToken(events) {
        var i :| 0 <= i < |events| && Speaks(events[i]);
        if i < |front| {
          assert front[i] == events[i];
        }
      }
    }
  }

  /** A live frame shows a prefix of the response followed by the cursor. */
  predicate ShowsPrefixOf(f: Frame, content: string) {
    f.LiveFrame? ==>
      |f.markdown| >= 1 && f.markdown[|f.markdown| - 1] == '▌'
      && StartsWith(content, f.markdown[..|f.markdown| - 1])
  }

  predicate AllShowPrefixes(a: Acc) {
    forall k :: 0 <= k < |a.frames| ==> ShowsPrefixOf(a.frames[k], a.content)
  }

  /** The live view never shows text that is not in the final response: the
      response only grows, and each live frame shows what it was then. */
  lemma {:induction false} FoldFramesShowPrefixes(events: seq<StreamEvent>, debounce: int, fullDebounced: bool, init: Acc)
    requires AllShowPrefixes(init)
    ensures AllShowPrefixes(Fold(events, debounce, fullDebounced, init))
    decreases |events|
  {
    if events != [] {
      var front := events[..|events| - 1];
      FoldFramesShowPrefixes(front, debounce, fullDebounced, init);
      var a := Fold(front, debounce, fullDebounced, init);
      var b := Step(a, events[|events| - 1], debounce, fullDebounced);
      assert StartsWith(b.content, a.content);
      forall k | 0 <= k < |b.frames| ensures ShowsPrefixOf(b.frames[k], b.content) {
        if k < |a.frames| {
          assert b.frames[k] == a.frames[k];
          assert ShowsPrefixOf(a.frames[k], a.content);
          if a.frames[k].LiveFrame? {
            var p := a.frames[k].markdown[..|a.frames[k].markdown| - 1];
            assert StartsWith(a.content, p);
            assert b.content[..|a.content|] == a.content;
            assert b.content[..|p|] == a.content[..|p|];
          }
        } else if b.frames[k].LiveFrame? {
          assert b.frames[k].markdown == b.content + "▌";
          assert b.frames[k].markdown[..|b.frames[k].markdown| - 1] == b.content;
        }
      }
    }
  }

  /** Each event shows at most one frame. */
  lemma {:induction false} FoldFrameCount(events: seq<StreamEvent>, debounce: int, fullDebounced: bool, init: Acc)
    ensures |init.frames| <= |Fold(events, debounce, fullDebounced, init).frames| <= |init.frames| + |events|
    decreases |events|
  {
    if events != [] {
      FoldFrameCount(events[..|events| - 1], debounce, fullDebounced, init);
    }
  }

  // ---- one turn ----

  /** What `graph.invoke` gives when no token was streamed: the content of
      the last message, or the exception it raises. */
  datatype InvokeResult = InvokeOk(lastContent: string) | InvokeRaised(error: string)

  /** The model side of a turn: the streamed events, an exception that
      `graph.stream` raises after them (if any), the fallback `invoke`, and
      the elapsed-time footer. */
  datatype Backend = Backend(events: seq<StreamEvent>, streamError: Option<string>, invoke: InvokeResult, footer: string)

  datatype TurnOutcome =
    | Skipped                             // empty input
    | QuitRequested                       // `KeyboardInterrupt` is raised
    | SlashHandled(result: SlashOutcome)  // a `Raised` result escapes the turn
    | Answered(reply: string)
    | Failed(error: string)               // the "❌ Erreur" panel

  datatype TurnResult = TurnResult(outcome: TurnOutcome, frames: seq<Frame>, after: Session)

  predicate IsQuit(msg: string) {
    Lower(msg) in {"quit", "exit", "q"}
  }

  /** The messages after the ephemeral system instruction and the user's own
      message are appended. */
  function Prompt(messages: seq<Message>, lang: string, msg: string): seq<Message> {
    messages + [Message(System, LangInstruction(lang)), Message(User, msg)]
  }

  const StreamDebounceMs: int := 30

  function InitialAcc(): Acc {
    Acc("", false, 0, [])
  }

  /** `stream_once` on a snapshot of the session. */
  function Turn(raw: string, s: Session, env: SlashEnv, b: Backend): TurnResult {
    var msg := Strip(raw);
    if msg == "" then TurnResult(Skipped, [], s)
    else if IsQuit(msg) then TurnResult(QuitRequested, [], s)
    else if StartsWith(msg, "/") then
      var st := Slash(msg, s, env);
      TurnResult(SlashHandled(st.outcome), [], st.after)
    else ModelTurn(msg, s, b)
  }

  /** The part of `stream_once` after the command checks: the language
      instruction, the user message, the stream and its fallback. */
  function ModelTurn(msg: string, s: Session, b: Backend): TurnResult {
    var lang := TurnLanguage(s.cfg.langPref, msg);
    var prompt := Prompt(s.messages, lang, msg);
    var acc := Fold(b.events, StreamDebounceMs, true, InitialAcc());
    if b.streamError.Some? then
      TurnResult(Failed(b.streamError.value), acc.frames, s.(messages := prompt))
    else if acc.saw then
      var reply := EnforceLangOutput(acc.content, lang);
      TurnResult(Answered(reply), acc.frames + [FinalFrame(FinalText(reply, b.footer))],
                 s.(messages := prompt + [Message(Assistant, reply)]))
    else
      match b.invoke
      case InvokeRaised(e) => TurnResult(Failed(e), acc.frames, s.(messages := prompt))
      case InvokeOk(last) =>
        var reply := EnforceLangOutput(last, lang);
        TurnResult(Answered(reply), acc.frames + [FinalFrame(FinalText(reply, b.footer))],
                   s.(messages := prompt + [Message(Assistant, reply)]))
  }

  /** Empty input and quit words leave the session untouched. */
  lemma TurnSkipsOrQuits(raw: string, s: Session, env: SlashEnv, b: Backend)
    requires Strip(raw) == "" || IsQuit(Strip(raw))
    ensures Turn(raw, s, env, b).after == s && Turn(raw, s, env, b).frames == []
    ensures Turn(raw, s, env, b).outcome == (if Strip(raw) == "" then Skipped else QuitRequested)
  {
  }

  /** A line starting with "/" is only ever a command: the model is not
      called, even when the command is unknown. Any other non-empty line
      that is not a quit word is a model turn. */
  lemma TurnDispatch(raw: string, s: Session, env: SlashEnv, b: Backend)
    requires Strip(raw) != ""
    ensures StartsWith(Strip(raw), "/") ==>
      Turn(raw, s, env, b) == TurnResult(SlashHandled(Slash(Strip(raw), s, env).outcome), [], Slash(Strip(raw), s, env).after)
    ensures !StartsWith(Strip(raw), "/") && !IsQuit(Strip(raw)) ==>
      Turn(raw, s, env, b) == ModelTurn(Strip(raw), s, b)
  {
    if StartsWith(Strip(raw), "/") {
      SlashIsNotQuit(Strip(raw));
    }
  }

  /** No quit word starts with "/". */
  lemma SlashIsNotQuit(msg: string)
    requires StartsWith(msg, "/")
    ensures msg != "" && !IsQuit(msg)
  {
    var l := Lower(msg);
    assert l[0] == '/';
    assert l != "quit" && l != "exit" && l != "q";
  }

  /** A model turn appends the system instruction and the user message, then
      the reply when there is one; nothing else in the session changes. */
  lemma ModelTurnAppends(msg: string, s: Session, b: Backend)
    ensures var r := ModelTurn(msg, s, b);
      var lang := TurnLanguage(s.cfg.langPref, msg);
      r.after.cfg == s.cfg && r.after.debug == s.debug
      && (r.outcome.Answered? || r.outcome.Failed?)
      && (r.outcome.Answered? ==>
            r.after.messages == Prompt(s.messages, lang, msg) + [Message(Assistant, r.outcome.reply)])
      && (r.outcome.Failed? ==> r.after.messages == Prompt(s.messages, lang, msg))
  {
  }

  /** When tokens were streamed, the stored reply is the streamed text in
      order, behind a notice exactly when it holds CJK characters, and the
      final frame shows it. */
  lemma StreamedReplyIsTheTokens(msg: string, s: Session, b: Backend)
    requires b.streamError.None? && SawToken(b.events)
    ensures var r := ModelTurn(msg, s, b);
      r.outcome == Answered(EnforceLangOutput(Texts(b.events), TurnLanguage(s.cfg.langPref, msg)))
      && r.frames != [] && r.frames[|r.frames| - 1] == FinalFrame(FinalText(r.outcome.reply, b.footer))
  {
    FoldContent(b.events, StreamDebounceMs, true, InitialAcc());
    assert InitialAcc().content + Texts(b.events) == Texts(b.events);
    FoldSaw(b.events, StreamDebounceMs, true, InitialAcc());
  }

  /** Without a token the fallback `invoke` decides the turn. */
  lemma SilentStreamFallsBack(msg: string, s: Session, b: Backend)
    requires b.streamError.None? && !SawToken(b.events)
    ensures var r := ModelTurn(msg, s, b);
      var lang := TurnLanguage(s.cfg.langPref, msg);
      match b.invoke
      case InvokeOk(last) => r.outcome == Answered(EnforceLangOutput(last, lang))
      case InvokeRaised(e) => r.outcome == Failed(e)
  {
    FoldSaw(b.events, StreamDebounceMs, true, InitialAcc());
  }

  /** Every live frame of a turn shows a prefix of the text the stream
      carried, followed by the cursor. */
  lemma LiveFramesArePrefixes(msg: string, s: Session, b: Backend)
    ensures forall k :: 0 <= k < |ModelTurn(msg, s, b).frames| && ModelTurn(msg, s, b).frames[k].LiveFrame? ==>
      ShowsPrefixOf(ModelTurn(msg, s, b).frames[k], Texts(b.events))
  {
    var acc := Fold(b.events, StreamDebounceMs, true, InitialAcc());
    FoldFramesShowPrefixes(b.events, StreamDebounceMs, true, InitialAcc());
    FoldContent(b.events, StreamDebounceMs, true, InitialAcc());
    assert acc.content == Texts(b.events);
    var fs := ModelTurn(msg, s, b).frames;
    assert forall k :: 0 <= k < |acc.frames| ==> fs[k] == acc.frames[k];
  }

  // ---- the turn on the live objects ----

  /** The streaming loop, with the `deb` dict as a `DebounceState`. */
  method StreamEvents(events: seq<StreamEvent>, deb: DebounceState)
    returns (content: string, saw: bool, frames: seq<Frame>)
    modifies deb
    requires deb.lastUpdate.Some?
    ensures deb.debounce == old(deb.debounce) && deb.lastUpdate.Some?
    ensures Fold(events, old(deb.DebounceOrDefault()), true, Acc("", false, old(deb.lastUpdate.value), []))
            == Acc(content, saw, deb.lastUpdate.value, frames)
  {
    ghost var init := Acc("", false, deb.lastUpdate.value, []);
    content, saw, frames := "", false, [];
    var i := 0;
    while i < |events|
      invariant 0 <= i <= |events|
      invariant deb.debounce == old(deb.debounce) && deb.lastUpdate.Some?
      invariant Fold(events[..i], deb.DebounceOrDefault(), true, init) == Acc(content, saw, deb.lastUpdate.value, frames)
    {
      assert events[..i + 1][..i] == events[..i];
      match events[i] {
        case ToolMsg(name, node) =>
          frames := frames + [ToolFrame(name, node)];
        case AIChunk(t, node, at) =>
          if t != "" {
            saw := true;
            content := content + t;
            var f := deb.UpdateLiveMarkdown(content, node, at, true);
            if f.Some? {
              frames := frames + [f.value];
            }
          }
        case AIFull(t, node, at) =>
          saw := true;
          content := content + t;
          var f := deb.UpdateLiveMarkdown(content, node, at, true);
          if f.Some? {
            frames := frames + [f.value];
          }
        case OtherMsg(_) =>
      }
      i := i + 1;
    }
    assert events[..|events|] == events;
  }

  /** `stream_once`: reads the line, then runs a command or a model turn,
      updating the message list, the configuration and the debug mirror in
      place. */
  method StreamOnce(raw: string, state: ChatState, cfg: SessionConfig, debug: DebugState, env: SlashEnv, b: Backend)
    returns (outcome: TurnOutcome, frames: seq<Frame>)
    modifies state, cfg, debug
    ensures Turn(raw, old(Snapshot(state, cfg, debug)), env, b) == TurnResult(outcome, frames, Snapshot(state, cfg, debug))
    ensures outcome.Answered? || outcome.Failed? ==> cfg.debug == debug.enabled
    ensures !(outcome.Answered? || outcome.Failed?) ==> cfg.debug == old(cfg.debug)
  {
    var msg := Strip(raw);
    frames := [];
    if msg == "" {
      return Skipped, frames;
    }
    if IsQuit(msg) {
      return QuitRequested, frames;
    }
    if StartsWith(msg, "/") {
      var r := HandleSlash(msg, state, cfg, debug, env);
      return SlashHandled(r), frames;
    }
    outcome, frames := ModelTurnInPlace(msg, state, cfg, debug, b);
  }

  /** A model turn on the live objects: mirror the debug flag, append the
      instruction and the user message, stream, then append the reply. */
  method ModelTurnInPlace(msg: string, state: ChatState, cfg: SessionConfig, debug: DebugState, b: Backend)
    returns (outcome: TurnOutcome, frames: seq<Frame>)
    modifies state, cfg
    ensures ModelTurn(msg, old(Snapshot(state, cfg, debug)), b) == TurnResult(outcome, frames, Snapshot(state, cfg, debug))
    ensures cfg.debug == debug.enabled && (outcome.Answered? || outcome.Failed?)
  {
    cfg.debug := debug.enabled;
    var lang := TurnLanguage(cfg.langPref, msg);
    EnforceLangEphemeralSystem(state, lang);
    state.messages := state.messages + [Message(User, msg)];

    var deb := new DebounceState(Some(StreamDebounceMs), Some(0));
    var content, saw;
    content, saw, frames := StreamEvents(b.events, deb);
    if b.streamError.Some? {
      return Failed(b.streamError.value), frames;
    }
    var reply;
    if saw {
      reply := EnforceLangOutput(content, lang);
    } else {
      if b.invoke.InvokeRaised? {
        return Failed(b.invoke.error), frames;
      }
      reply := EnforceLangOutput(b.invoke.lastContent, lang);
    }
    frames := frames + [FinalFrame(FinalText(reply, b.footer))];
    state.messages := state.messages + [Message(Assistant, reply)];
    outcome := Answered(reply);
  }
}

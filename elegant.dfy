/** The stand-alone CLI of run_elegant_v3.py: its string-returning slash
    commands, its retry helper and its `main` loop, whose turn differs from
    src/ui/streaming.py in three ways: an unknown "/" line goes to the model,
    a full `AIMessage` is always shown, and an error is written into the
    history. Its language helpers are the ones of the `Language` module. */
module Elegant {
  import opened Text
  import opened Chat
  import opened Language
  import opened Render
  import opened Commands
  import opened Streaming

  // ---- with_retry ----

  /** The result of one call of the wrapped function. */
  datatype Attempt<T> = Ok(value: T) | Err(error: string)

  /** `with_retry(fn, retries=...)`: `fn(i)` is what the i-th call (from 0)
      returns or raises. The result is the first success, or the exception
      of the last allowed call; `calls` counts the calls made. */
  method WithRetry<T>(fn: nat -> Attempt<T>, retries: nat) returns (r: Attempt<T>, calls: nat)
    ensures 1 <= calls <= retries + 1
    ensures r == fn(calls - 1)
    ensures forall j :: 0 <= j < calls - 1 ==> fn(j).Err?
    ensures r.Err? ==> calls == retries + 1
  {
    var i := 0;
    while true
      invariant 0 <= i <= retries
      invariant forall j :: 0 <= j < i ==> fn(j).Err?
      decreases retries - i
    {
      r := fn(i);
      calls := i + 1;
      if r.Ok? || i == retries {
        return;
      }
      i := i + 1;
    }
  }

  // ---- handle_slash ----

  /** The four attributes of this file's own `SessionConfig`. */
  class CliConfig {
    var threadId: string
    var model: string
    var temp: real
    var langPref: string

    constructor ()
      ensures threadId == "user_session" && model == "qwen2.5:7b" && temp == 0.0 && langPref == "auto"
    {
      threadId := "user_session";
      model := "qwen2.5:7b";
      temp := 0.0;
      langPref := "auto";
    }
  }

  datatype Settings = Settings(threadId: string, model: string, temp: real, langPref: string)

  datatype CliSession = CliSession(settings: Settings, messages: seq<Message>)

  /** The outside world of a command: a fresh `uuid4()` string, `float()`
      (`None` when it raises `ValueError`), `str()` of a float, and the path
      `save_transcript` returns. */
  datatype CliEnv = CliEnv(uuid: string, parseFloat: string -> Option<real>, showFloat: real -> string,
                           transcriptPath: string)

  /** The text to print (`""` once `/config` printed its table itself) or
      `None` for a line this handler does not know. */
  datatype CliStep = CliStep(reply: Option<string>, after: CliSession)

  const BadTempText := "Valeur invalide. Exemple: `/temp 0.2`"
  const BadLangText := "Langue invalide. Utilise `/lang fr`, `/lang en` ou `/lang auto`."

  /** This file's `handle_slash`: the same recognition as src/ui/commands.py
      for the seven commands it has; `/debug`, `/dump` and `/deepth_search`
      are unknown here. */
  function CliRun(c: Command, s: CliSession, env: CliEnv): CliStep {
    var st := s.settings;
    match c
    case New =>
      var id := NewThreadId(env.uuid);
      CliStep(Some("✨ Nouveau thread: `" + id + "` (contexte réinitialisé)."),
              CliSession(st.(threadId := id), ResetMessages(s.messages)))
    case SetModel(arg) =>
      var m := Strip(arg);
      CliStep(Some("🧠 Modèle cible: `" + m + "`. (Reconstruis l’orchestrateur si tu veux un vrai hot-swap)"),
              s.(settings := st.(model := m)))
    case SetTemp(arg) =>
      (match env.parseFloat(arg)
       case Some(t) => CliStep(Some("🌡️ Température: " + env.showFloat(t)), s.(settings := st.(temp := t)))
       case None => CliStep(Some(BadTempText), s))
    case SetLang(arg) =>
      var lp := Lower(Strip(arg));
      if ValidLangPref(lp) then CliStep(Some("🌍 Langue préférée: " + lp), s.(settings := st.(langPref := lp)))
      else CliStep(Some(BadLangText), s)
    case Save => CliStep(Some("💾 Transcript sauvegardé: " + env.transcriptPath), s)
    case Tools => CliStep(Some("🔧 Outils disponibles: web_search, weather, calendar, mail, image (selon build)."), s)
    case ShowConfig => CliStep(Some(""), s)
    case _ => CliStep(None, s)
  }

  function CliSlash(rawCmd: string, s: CliSession, env: CliEnv): CliStep {
    CliRun(ParseCommand(Strip(rawCmd)), s, env)
  }

  /** `None` comes only from a line none of the seven commands matches, and
      then nothing has changed. */
  lemma CliSlashNoneChangesNothing(c: Command, s: CliSession, env: CliEnv)
    ensures CliRun(c, s, env).reply.None? <==> c.ToggleDebug? || c.Dump? || c.DeepthSearch? || c.Unknown?
    ensures CliRun(c, s, env).reply.None? ==> CliRun(c, s, env).after == s
  {
    var st := CliRun(c, s, env);
    if c.ToggleDebug? || c.Dump? || c.DeepthSearch? || c.Unknown? {
      assert st == CliStep(None, s);
    } else {
      assert st.reply.Some?;
    }
  }

  /** `/config` alone answers with "" (it prints its table itself). */
  lemma CliOnlyConfigSilent(c: Command, s: CliSession, env: CliEnv)
    ensures CliRun(c, s, env).reply == Some("") <==> c == ShowConfig
  {
    var r := CliRun(c, s, env).reply;
    if c.New? || c.SetModel? || c.SetTemp? || c.SetLang? || c.Save? || c.Tools? {
      assert r.Some? && |r.value| > 0;
    }
  }

  /** `/lang` accepts only fr, en and auto after stripping and lower-casing,
      so a valid preference stays valid. */
  lemma CliLangPrefStaysValid(c: Command, s: CliSession, env: CliEnv)
    requires ValidLangPref(s.settings.langPref)
    ensures ValidLangPref(CliRun(c, s, env).after.settings.langPref)
    ensures CliRun(c, s, env).after.settings.langPref != s.settings.langPref ==>
      c.SetLang? && CliRun(c, s, env).after.settings.langPref == Lower(Strip(c.arg))
      && CliRun(c, s, env).reply == Some("🌍 Langue préférée: " + Lower(Strip(c.arg)))
  {
    match c {
      case SetLang(arg) =>
      case _ =>
        assert CliRun(c, s, env).after.settings.langPref == s.settings.langPref;
    }
  }

  /** `/new` behaves as in src/ui/commands.py: an 8-character id and at most
      the old first message. */
  lemma CliNewResets(s: CliSession, env: CliEnv)
    requires |env.uuid| >= 8
    ensures var a := CliRun(New, s, env).after;
      a.settings == s.settings.(threadId := env.uuid[..8])
      && |a.messages| <= 1 && |a.messages| <= |s.messages| && a.messages == s.messages[..|a.messages|]
  {
  }

  function SettingsOf(cfg: CliConfig): Settings
    reads cfg
  {
    Settings(cfg.threadId, cfg.model, cfg.temp, cfg.langPref)
  }

  function CliSnapshot(state: ChatState, cfg: CliConfig): CliSession
    reads state, cfg
  {
    CliSession(SettingsOf(cfg), state.messages)
  }

  /** `handle_slash` on the live objects. */
  method HandleSlashText(rawCmd: string, state: ChatState, cfg: CliConfig, env: CliEnv)
    returns (reply: Option<string>)
    modifies state, cfg
    ensures CliSlash(rawCmd, old(CliSnapshot(state, cfg)), env) == CliStep(reply, CliSnapshot(state, cfg))
  {
    var c := ParseCommand(Strip(rawCmd));
    if c.New? || c.SetModel? || c.SetTemp? || c.SetLang? {
      reply := CliPerformSetting(c, state, cfg, env);
    } else {
      reply := CliPerformShow(c, state, cfg, env);
    }
  }

  /** The branches that change the thread, the model, the temperature or
      the language. */
  method CliPerformSetting(c: Command, state: ChatState, cfg: CliConfig, env: CliEnv)
    returns (reply: Option<string>)
    requires c.New? || c.SetModel? || c.SetTemp? || c.SetLang?
    modifies state, cfg
    ensures CliRun(c, old(CliSnapshot(state, cfg)), env) == CliStep(reply, CliSnapshot(state, cfg))
  {
    match c
    case New =>
      cfg.threadId := NewThreadId(env.uuid);
      state.messages := if state.messages != [] then [state.messages[0]] else [];
      reply := Some("✨ Nouveau thread: `" + cfg.threadId + "` (contexte réinitialisé).");
    case SetModel(arg) =>
      cfg.model := Strip(arg);
      reply := Some("🧠 Modèle cible: `" + cfg.model + "`. (Reconstruis l’orchestrateur si tu veux un vrai hot-swap)");
    case SetTemp(arg) =>
      var parsed := env.parseFloat(arg);
      if parsed.Some? {
        cfg.temp := parsed.value;
        reply := Some("🌡️ Température: " + env.showFloat(cfg.temp));
      } else {
        reply := Some(BadTempText);
      }
    case SetLang(arg) =>
      var lp := Lower(Strip(arg));
      if ValidLangPref(lp) {
        cfg.langPref := lp;
        reply := Some("🌍 Langue préférée: " + cfg.langPref);
      } else {
        reply := Some(BadLangText);
      }
  }

  /** The branches that change nothing. */
  method CliPerformShow(c: Command, state: ChatState, cfg: CliConfig, env: CliEnv)
    returns (reply: Option<string>)
    requires !(c.New? || c.SetModel? || c.SetTemp? || c.SetLang?)
    ensures CliRun(c, CliSnapshot(state, cfg), env) == CliStep(reply, CliSnapshot(state, cfg))
  {
    match c
    case Save =>
      reply := Some("💾 Transcript sauvegardé: " + env.transcriptPath);
    case Tools =>
      reply := Some("🔧 Outils disponibles: web_search, weather, calendar, mail, image (selon build).");
    case ShowConfig =>
      reply := Some("");
    case ToggleDebug =>
      reply := None;
    case Dump =>
      reply := None;
    case DeepthSearch =>
      reply := None;
    case Unknown =>
      reply := None;
  }

  // ---- one turn of main ----

  datatype CliOutcome =
    | CliSkipped                   // empty line: `continue`
    | CliQuit                      // quit word: the goodbye panel and `break`
    | CliCommand(text: string)     // printed in a panel when non-empty
    | CliAnswered(reply: string)
    | CliFailed(error: string)     // the "❌ Erreur" panel

  datatype CliTurnResult = CliTurnResult(outcome: CliOutcome, frames: seq<Frame>, after: CliSession)

  /** The assistant message an error leaves in the history. */
  function ErrorEntry(e: string): Message {
    Message(Assistant, "Erreur: " + e)
  }

  /** The model part of a turn: as in `ModelTurn`, except that a full
      `AIMessage` is always shown, the footer always follows a blank line,
      and an error still leaves an assistant message. */
  function CliModelTurn(msg: string, s: CliSession, b: Backend): CliTurnResult {
    var lang := TurnLanguage(s.settings.langPref, msg);
    var prompt := Prompt(s.messages, lang, msg);
    var acc := Fold(b.events, DefaultDebounceMs, false, InitialAcc());
    if b.streamError.Some? then
      CliTurnResult(CliFailed(b.streamError.value), acc.frames, s.(messages := prompt + [ErrorEntry(b.streamError.value)]))
    else if acc.saw then
      var reply := EnforceLangOutput(acc.content, lang);
      CliTurnResult(CliAnswered(reply), acc.frames + [FinalFrame(reply + "\n\n" + b.footer)],
                    s.(messages := prompt + [Message(Assistant, reply)]))
    else
      match b.invoke
      case InvokeRaised(e) => CliTurnResult(CliFailed(e), acc.frames, s.(messages := prompt + [ErrorEntry(e)]))
      case InvokeOk(last) =>
        var reply := EnforceLangOutput(last, lang);
        CliTurnResult(CliAnswered(reply), acc.frames + [FinalFrame(reply + "\n\n" + b.footer)],
                      s.(messages := prompt + [Message(Assistant, reply)]))
  }

  /** One iteration of the `while True` loop of `main`. */
  function CliTurn(raw: string, s: CliSession, env: CliEnv, b: Backend): CliTurnResult {
    var msg := Strip(raw);
    if msg == "" then CliTurnResult(CliSkipped, [], s)
    else if IsQuit(msg) then CliTurnResult(CliQuit, [], s)
    else if StartsWith(msg, "/") && CliSlash(msg, s, env).reply.Some? then
      var st := CliSlash(msg, s, env);
      CliTurnResult(CliCommand(st.reply.value), [], st.after)
    else CliModelTurn(msg, s, b)
  }

  /** Unlike src/ui/streaming.py, an unknown "/" line is sent to the model as
      the user's message. */
  lemma UnknownSlashReachesModel(raw: string, s: CliSession, env: CliEnv, b: Backend)
    requires StartsWith(Strip(raw), "/") && ParseCommand(Strip(raw)) == Unknown
    ensures CliTurn(raw, s, env, b) == CliModelTurn(Strip(raw), s, b)
    ensures |CliTurn(raw, s, env, b).after.messages| == |s.messages| + 3
      && CliTurn(raw, s, env, b).after.messages[|s.messages| + 1] == Message(User, Strip(raw))
  {
    UnknownSlashNotHandled(raw, s, env);
    CliModelTurnKeepsUserLine(Strip(raw), s, b);
  }

  /** A model turn records the user's line right after the instruction. */
  lemma CliModelTurnKeepsUserLine(msg: string, s: CliSession, b: Backend)
    ensures |CliModelTurn(msg, s, b).after.messages| == |s.messages| + 3
      && CliModelTurn(msg, s, b).after.messages[|s.messages| + 1] == Message(User, msg)
  {
    CliModelTurnAddsThree(msg, s, b);
    var lang := TurnLanguage(s.settings.langPref, msg);
    var after := CliModelTurn(msg, s, b).after.messages;
    assert after[..|s.messages| + 2][|s.messages| + 1] == Prompt(s.messages, lang, msg)[|s.messages| + 1];
  }

  /** An unknown "/" line is neither empty, nor a quit word, nor answered
      by a command. */
  lemma UnknownSlashNotHandled(raw: string, s: CliSession, env: CliEnv)
    requires StartsWith(Strip(raw), "/") && ParseCommand(Strip(raw)) == Unknown
    ensures Strip(raw) != "" && !IsQuit(Strip(raw)) && CliSlash(Strip(raw), s, env).reply.None?
  {
    var msg := Strip(raw);
    SlashIsNotQuit(msg);
    StripIdempotent(raw);
    var c := ParseCommand(Strip(msg));
    assert c == Unknown;
    CliSlashNoneChangesNothing(c, s, env);
  }

  /** The loop stops exactly at a non-empty quit word. */
  lemma CliQuitIff(raw: string, s: CliSession, env: CliEnv, b: Backend)
    ensures CliTurn(raw, s, env, b).outcome == CliQuit <==> IsQuitLine(raw)
  {
    var msg := Strip(raw);
    if msg != "" && !IsQuit(msg) && !(StartsWith(msg, "/") && CliSlash(msg, s, env).reply.Some?) {
      CliModelTurnAddsThree(msg, s, b);
    }
  }

  /** Every model turn, answered or failed, adds exactly three messages:
      the instruction, the user's line and an assistant message, which on
      failure is "Erreur: " and the exception text. */
  lemma CliModelTurnAddsThree(msg: string, s: CliSession, b: Backend)
    ensures var r := CliModelTurn(msg, s, b);
      var lang := TurnLanguage(s.settings.langPref, msg);
      r.after.settings == s.settings
      && |r.after.messages| == |s.messages| + 3
      && r.after.messages[..|s.messages| + 2] == Prompt(s.messages, lang, msg)
      && (r.outcome.CliAnswered? ==> r.after.messages[|s.messages| + 2] == Message(Assistant, r.outcome.reply))
      && (r.outcome.CliFailed? ==> r.after.messages[|s.messages| + 2] == ErrorEntry(r.outcome.error))
      && (r.outcome.CliAnswered? || r.outcome.CliFailed?)
  {
    var r := CliModelTurn(msg, s, b);
    var lang := TurnLanguage(s.settings.langPref, msg);
    assert r.after.messages[..|s.messages| + 2] == Prompt(s.messages, lang, msg);
  }

  /** With tokens streamed, the reply is the streamed text in order, and
      every full `AIMessage` was shown with the text up to it. */
  lemma CliStreamedReply(msg: string, s: CliSession, b: Backend)
    requires b.streamError.None? && SawToken(b.events)
    ensures CliModelTurn(msg, s, b).outcome
            == CliAnswered(EnforceLangOutput(Texts(b.events), TurnLanguage(s.settings.langPref, msg)))
  {
    FoldContent(b.events, DefaultDebounceMs, false, InitialAcc());
    assert InitialAcc().content + Texts(b.events) == Texts(b.events);
    FoldSaw(b.events, DefaultDebounceMs, false, InitialAcc());
  }

  /** Counts the full messages among the events. */
  function FullCount(events: seq<StreamEvent>): nat
    decreases |events|
  {
    if events == [] then 0 else FullCount(events[..|events| - 1]) + (if events[|events| - 1].AIFull? then 1 else 0)
  }

  /** Here a full `AIMessage` is never debounced: each one adds a frame, so
      there are at least as many frames as full messages. */
  lemma {:induction false} FullMessagesAlwaysShown(events: seq<StreamEvent>, init: Acc)
    ensures |Fold(events, DefaultDebounceMs, false, init).frames| >= |init.frames| + FullCount(events)
    decreases |events|
  {
    if events != [] {
      FullMessagesAlwaysShown(events[..|events| - 1], init);
      FoldFrameCount(events[..|events| - 1], DefaultDebounceMs, false, init);
    }
  }

  // ---- main on the live objects ----

  /** The inline streaming loop of `main` with its local `last_update`. */
  method CliStreamEvents(events: seq<StreamEvent>) returns (acc: Acc)
    ensures acc == Fold(events, DefaultDebounceMs, false, InitialAcc())
  {
    var content, saw, lastUpdate, frames := "", false, 0, [];
    var i := 0;
    while i < |events|
      invariant 0 <= i <= |events|
      invariant Fold(events[..i], DefaultDebounceMs, false, InitialAcc()) == Acc(content, saw, lastUpdate, frames)
    {
      assert events[..i + 1][..i] == events[..i];
      match events[i] {
        case ToolMsg(name, node) =>
          frames := frames + [ToolFrame(name, node)];
        case AIChunk(t, node, now) =>
          if t != "" {
            saw := true;
            content := content + t;
            if now - lastUpdate > DefaultDebounceMs {
              frames := frames + [LiveFrame(content + "▌", node)];
              lastUpdate := now;
            }
          }
        case AIFull(t, node, _) =>
          saw := true;
          content := content + t;
          frames := frames + [LiveFrame(content + "▌", node)];
        case OtherMsg(_) =>
      }
      i := i + 1;
    }
    assert events[..|events|] == events;
    acc := Acc(content, saw, lastUpdate, frames);
  }

  method CliModelTurnInPlace(msg: string, state: ChatState, cfg: CliConfig, b: Backend)
    returns (outcome: CliOutcome, frames: seq<Frame>)
    modifies state
    ensures CliModelTurn(msg, old(CliSnapshot(state, cfg)), b) == CliTurnResult(outcome, frames, CliSnapshot(state, cfg))
  {
    var lang := TurnLanguage(cfg.langPref, msg);
    EnforceLangEphemeralSystem(state, lang);
    state.messages := state.messages + [Message(User, msg)];
    var acc := CliStreamEvents(b.events);
    frames := acc.frames;
    if b.streamError.Some? {
      state.messages := state.messages + [ErrorEntry(b.streamError.value)];
      return CliFailed(b.streamError.value), frames;
    }
    var reply;
    if acc.saw {
      reply := EnforceLangOutput(acc.content, lang);
    } else {
      if b.invoke.InvokeRaised? {
        state.messages := state.messages + [ErrorEntry(b.invoke.error)];
        return CliFailed(b.invoke.error), frames;
      }
      reply := EnforceLangOutput(b.invoke.lastContent, lang);
    }
    frames := frames + [FinalFrame(reply + "\n\n" + b.footer)];
    state.messages := state.messages + [Message(Assistant, reply)];
    outcome := CliAnswered(reply);
  }

  method CliTurnInPlace(raw: string, state: ChatState, cfg: CliConfig, env: CliEnv, b: Backend)
    returns (outcome: CliOutcome, frames: seq<Frame>)
    modifies state, cfg
    ensures CliTurn(raw, old(CliSnapshot(state, cfg)), env, b) == CliTurnResult(outcome, frames, CliSnapshot(state, cfg))
  {
    var msg := Strip(raw);
    frames := [];
    if msg == "" {
      return CliSkipped, frames;
    }
    if IsQuit(msg) {
      return CliQuit, frames;
    }
    if StartsWith(msg, "/") {
      ghost var before := CliSnapshot(state, cfg);
      var out := HandleSlashText(msg, state, cfg, env);
      if out.Some? {
        return CliCommand(out.value), frames;
      }
      CliSlashNoneChangesNothing(ParseCommand(Strip(msg)), before, env);
    }
    outcome, frames := CliModelTurnInPlace(msg, state, cfg, b);
  }

  /** What one loop iteration reads: the typed line, and the outside world
      and model behaviour for that turn. */
  datatype TurnInput = TurnInput(line: string, env: CliEnv, backend: Backend)

  /** A line that ends the loop: non-empty and a quit word once stripped. */
  predicate IsQuitLine(line: string) {
    Strip(line) != "" && IsQuit(Strip(line))
  }

  /** The state after reading `inputs` one by one with `next`, stopping at
      a quit word. */
  function RunLines(inputs: seq<TurnInput>, s: CliSession, next: (TurnInput, CliSession) -> CliSession): CliSession
    decreases |inputs|
  {
    if inputs == [] then s
    else if IsQuitLine(inputs[0].line) then s
    else RunLines(inputs[1..], next(inputs[0], s), next)
  }

  /** One step of the loop on the state: the state after a line that is
      not a quit word. */
  function NextSession(input: TurnInput, s: CliSession): CliSession {
    CliTurn(input.line, s, input.env, input.backend).after
  }

  /** The session state after the loop of `main` has read `inputs`. */
  function SessionAfter(inputs: seq<TurnInput>, s: CliSession): CliSession {
    RunLines(inputs, s, NextSession)
  }

  /** Lines after a quit word are never read. */
  lemma {:induction false} QuitEndsRun(before: seq<TurnInput>, q: TurnInput, after: seq<TurnInput>, s: CliSession,
                                       next: (TurnInput, CliSession) -> CliSession)
    requires IsQuitLine(q.line)
    ensures RunLines(before + [q] + after, s, next) == RunLines(before + [q], s, next)
    decreases |before|
  {
    var long := before + [q] + after;
    var short := before + [q];
    if before == [] {
      assert long[0] == q && short[0] == q;
    } else {
      var head := before[0];
      assert long[0] == head && short[0] == head;
      assert long[1..] == before[1..] + [q] + after;
      assert short[1..] == before[1..] + [q];
      if !IsQuitLine(head.line) {
        QuitEndsRun(before[1..], q, after, next(head, s), next);
      }
    }
  }

  lemma QuitEndsSession(before: seq<TurnInput>, q: TurnInput, after: seq<TurnInput>, s: CliSession)
    requires IsQuitLine(q.line)
    ensures SessionAfter(before + [q] + after, s) == SessionAfter(before + [q], s)
  {
    QuitEndsRun(before, q, after, s, NextSession);
  }

  /** Empty lines are skipped without any effect. */
  lemma EmptyLinesAreSkipped(blank: TurnInput, rest: seq<TurnInput>, s: CliSession)
    requires Strip(blank.line) == ""
    ensures SessionAfter([blank] + rest, s) == SessionAfter(rest, NextSession(blank, s))
    ensures NextSession(blank, s) == s
  {
    assert ([blank] + rest)[1..] == rest;
  }

  /** The `while True` loop of `main` over the lines typed in one session;
      `read` is how many lines it consumed. */
  method ChatLoop(inputs: seq<TurnInput>, state: ChatState, cfg: CliConfig) returns (read: nat)
    modifies state, cfg
    ensures read <= |inputs|
    ensures CliSnapshot(state, cfg) == SessionAfter(inputs, old(CliSnapshot(state, cfg)))
  {
    read := 0;
    while read < |inputs|
      invariant read <= |inputs|
      invariant SessionAfter(inputs, old(CliSnapshot(state, cfg))) == SessionAfter(inputs[read..], CliSnapshot(state, cfg))
    {
      var input := inputs[read];
      assert inputs[read..][1..] == inputs[read + 1..];
      ghost var before := CliSnapshot(state, cfg);
      var outcome, frames := CliTurnInPlace(input.line, state, cfg, input.env, input.backend);
      CliQuitIff(input.line, before, input.env, input.backend);
      read := read + 1;
      if outcome == CliQuit {
        return;
      }
    }
  }
}

/** The slash commands of src/ui/commands.py. `Slash` states what one command
    does to the session (configuration, message list, global debug flag) and
    what it shows; `HandleSlash` performs it in place on the objects. */
module Commands {
  import opened Text
  import opened Chat

  /** A snapshot of `SessionConfig` (without the `debug` mirror). */
  datatype Config = Config(threadId: string, model: string, temp: real, langPref: string,
                           depthSearch: Option<bool>)

  /** Everything a slash command may read or change. */
  datatype Session = Session(cfg: Config, messages: seq<Message>, debug: bool)

  /** What the command handler receives from outside the model: a fresh
      `uuid4()` string, Python's `float()` on a string (`None` when it raises
      `ValueError`), and the path `save_transcript` returns. */
  datatype SlashEnv = SlashEnv(uuid: string, parseFloat: string -> Option<real>, transcriptPath: string)

  datatype PanelBody =
    | Note(text: string)
    | TempNote(temp: real)            // "🌡️ Température: {temp}"
    | ConfigTable(cfg: Config)
    | MessageDump(messages: seq<Message>)

  datatype Panel = Panel(title: string, body: PanelBody)

  /** A panel to print, `None` for an unrecognised command, or an exception
      that escapes the handler. */
  datatype SlashOutcome = Shown(panel: Panel) | NoCommand | Raised(error: string)

  datatype SlashStep = SlashStep(outcome: SlashOutcome, after: Session)

  /** `str(uuid.uuid4())[:8]`. */
  function NewThreadId(uuid: string): (id: string)
    ensures |id| <= |uuid| && id == uuid[..|id|]
    ensures |uuid| >= 8 ==> |id| == 8
  {
    if |uuid| <= 8 then uuid else uuid[..8]
  }

  /** The message list after `/new`: the old first message alone, if any. */
  function ResetMessages(messages: seq<Message>): (r: seq<Message>)
    ensures |r| <= 1 && |r| <= |messages| && r == messages[..|r|]
    ensures messages != [] ==> r == [messages[0]]
  {
    if messages == [] then [] else [messages[0]]
  }

  /** `cmd.split(" ", 1)[1]`: what follows the first space. */
  function AfterFirstSpace(cmd: string): string {
    match Find(cmd, " ")
    case None => ""
    case Some(i) => cmd[i + 1..]
  }

  /** For a command that starts with a space-free word and a space, the text
      after the first space is everything after that prefix. */
  lemma AfterFirstSpaceOfPrefix(cmd: string, prefix: string)
    requires StartsWith(cmd, prefix) && |prefix| >= 1 && prefix[|prefix| - 1] == ' '
    requires forall i :: 0 <= i < |prefix| - 1 ==> prefix[i] != ' '
    ensures AfterFirstSpace(cmd) == cmd[|prefix|..]
  {
    var k := |prefix| - 1;
    assert OccursAt(cmd, " ", k);
    forall j | 0 <= j < k ensures !OccursAt(cmd, " ", j) {
      assert cmd[j] == prefix[j];
    }
  }

  predicate ValidLangPref(lp: string) {
    lp == "fr" || lp == "en" || lp == "auto"
  }

  const CommandPanel := "Commande"
  const ErrorPanel := "Erreur"

  /** The command recognised in a stripped input line, tried in the order
      of the handler's `if` chain; the argument of `/model`, `/temp` and
      `/lang` is what follows the first space. */
  datatype Command =
    | New | SetModel(arg: string) | SetTemp(arg: string) | SetLang(arg: string)
    | Save | Tools | ShowConfig | ToggleDebug | Dump | DeepthSearch | Unknown

  function ParseCommand(cmd: string): (c: Command)
    ensures c.SetModel? ==> StartsWith(cmd, "/model ") && c.arg == AfterFirstSpace(cmd)
    ensures c.SetTemp? ==> StartsWith(cmd, "/temp ") && c.arg == AfterFirstSpace(cmd)
    ensures c.SetLang? ==> StartsWith(cmd, "/lang ") && c.arg == AfterFirstSpace(cmd)
  {
    if cmd == "/new" then New
    else if StartsWith(cmd, "/model ") then SetModel(AfterFirstSpace(cmd))
    else if StartsWith(cmd, "/temp ") then SetTemp(AfterFirstSpace(cmd))
    else if StartsWith(cmd, "/lang ") then SetLang(AfterFirstSpace(cmd))
    else if cmd == "/save" then Save
    else if cmd == "/tools" then Tools
    else if cmd == "/config" then ShowConfig
    else if cmd == "/debug" then ToggleDebug
    else if cmd == "/dump" then Dump
    else if cmd == "/deepth_search" then DeepthSearch
    else Unknown
  }

  /** What one recognised command does to the session. */
  function Run(c: Command, s: Session, env: SlashEnv): SlashStep {
    var cfg := s.cfg;
    match c
    case New =>
      var id := NewThreadId(env.uuid);
      SlashStep(Shown(Panel(CommandPanel, Note("✨ Nouveau thread: `" + id + "` (contexte réinitialisé)."))),
                s.(cfg := cfg.(threadId := id), messages := ResetMessages(s.messages)))
    case SetModel(arg) =>
      var m := Strip(arg);
      SlashStep(Shown(Panel(CommandPanel, Note("🧠 Modèle cible: `" + m + "`"))), s.(cfg := cfg.(model := m)))
    case SetTemp(arg) =>
      (match env.parseFloat(arg)
       case Some(t) => SlashStep(Shown(Panel(CommandPanel, TempNote(t))), s.(cfg := cfg.(temp := t)))
       case None => SlashStep(Shown(Panel(ErrorPanel, Note(BadTemp))), s))
    case SetLang(arg) =>
      var lp := Lower(Strip(arg));
      if ValidLangPref(lp) then
        SlashStep(Shown(Panel(CommandPanel, Note("🌍 Langue préférée: " + lp))), s.(cfg := cfg.(langPref := lp)))
      else
        SlashStep(Shown(Panel(ErrorPanel, Note(BadLang))), s)
    case Save =>
      SlashStep(Shown(Panel(CommandPanel, Note("💾 Transcript sauvegardé: " + env.transcriptPath))), s)
    case Tools =>
      SlashStep(Shown(Panel(CommandPanel, Note(ToolsNote))), s)
    case ShowConfig =>
      SlashStep(Shown(Panel("⚙️ Config", ConfigTable(cfg))), s)
    case ToggleDebug =>
      var on := !s.debug;
      SlashStep(Shown(Panel(CommandPanel, Note("🐛 Mode debug: " + (if on then "ON" else "OFF")))), s.(debug := on))
    case Dump =>
      SlashStep(Shown(Panel("🗂️ Dump complet de l'historique", MessageDump(s.messages))), s)
    case DeepthSearch =>
      (match cfg.depthSearch
       case None => SlashStep(Raised(MissingDepthSearch), s)
       case Some(d) =>
         SlashStep(Shown(Panel(CommandPanel, Note("🔎 Depth Search " + (if !d then "activée" else "désactivée") + "."))),
                   s.(cfg := cfg.(depthSearch := Some(!d)))))
    case Unknown =>
      SlashStep(NoCommand, s)
  }

  const BadTemp := "Valeur invalide. Exemple: `/temp 0.2`"
  const BadLang := "Langue invalide. Utilise `/lang fr`, `/lang en` ou `/lang auto`."
  const ToolsNote := "🔧 Outils: web_search, weather, calendar, mail, image (selon build)."
  const MissingDepthSearch := "AttributeError: 'SessionConfig' object has no attribute 'depth_search'"

  /** `handle_slash(cmd, state, cfg)` on a snapshot: the input is stripped
      before it is matched. */
  function Slash(rawCmd: string, s: Session, env: SlashEnv): SlashStep {
    Run(ParseCommand(Strip(rawCmd)), s, env)
  }

  /** Only an unrecognised command yields `None`, and it changes nothing. */
  lemma UnknownCommandIsNoOp(cmd: string, s: Session, env: SlashEnv)
    ensures Slash(cmd, s, env).outcome.NoCommand? <==> ParseCommand(Strip(cmd)) == Unknown
    ensures Slash(cmd, s, env).outcome.NoCommand? ==> Slash(cmd, s, env).after == s
  {
  }

  /** Each bare command word is recognised as itself, and the words that
      take an argument need one: "/model" alone is not a command. */
  lemma CommandWords()
    ensures ParseCommand("/new") == New && ParseCommand("/save") == Save
    ensures ParseCommand("/tools") == Tools && ParseCommand("/config") == ShowConfig
    ensures ParseCommand("/debug") == ToggleDebug && ParseCommand("/dump") == Dump
    ensures ParseCommand("/deepth_search") == DeepthSearch
    ensures ParseCommand("/model") == Unknown && ParseCommand("/temp") == Unknown
    ensures ParseCommand("/lang") == Unknown
  {
    NoArgumentWord("/save");
    NoArgumentWord("/tools");
    NoArgumentWord("/config");
    NoArgumentWord("/debug");
    NoArgumentWord("/dump");
    NoArgumentWord("/deepth_search");
  }

  /** A word that does not open like "/model", "/temp" or "/lang" takes no
      argument. */
  lemma NoArgumentWord(w: string)
    requires |w| >= 3 && w[1] != 'm' && w[1] != 'l' && (w[1] != 't' || w[2] != 'e')
    ensures !StartsWith(w, "/model ") && !StartsWith(w, "/temp ") && !StartsWith(w, "/lang ")
  {
    assert |w| < 7 || w[..7][1] != "/model "[1];
    assert |w| < 6 || w[..6][1] != "/temp "[1] || w[..6][2] != "/temp "[2];
    assert |w| < 6 || w[..6][1] != "/lang "[1];
  }

  /** `/new` gives an 8-character thread id and keeps at most the old first
      message; nothing else changes. */
  lemma NewThreadResets(s: Session, env: SlashEnv)
    requires |env.uuid| >= 8
    ensures var a := Run(New, s, env).after;
      |a.cfg.threadId| == 8 && a.cfg.threadId == env.uuid[..8]
      && |a.messages| <= 1 && |a.messages| <= |s.messages| && a.messages == s.messages[..|a.messages|]
      && (s.messages != [] ==> a.messages == [s.messages[0]])
      && a.cfg == s.cfg.(threadId := a.cfg.threadId) && a.debug == s.debug
  {
  }

  /** `/model X` stores X without its surrounding whitespace. */
  lemma ModelCommand(cmd: string, s: Session, env: SlashEnv, x: string)
    requires Strip(cmd) == "/model " + x
    ensures Slash(cmd, s, env).after == s.(cfg := s.cfg.(model := Strip(x)))
  {
    var c := Strip(cmd);
    assert StartsWith(c, "/model ");
    assert c != "/new" by { assert |c| >= 7; }
    AfterFirstSpaceOfPrefix(c, "/model ");
    assert c[|"/model "|..] == x;
  }

  /** `/temp` with a value `float()` rejects shows an error and keeps the
      temperature; a parsable value is stored. */
  lemma TempCommand(arg: string, s: Session, env: SlashEnv)
    ensures var st := Run(SetTemp(arg), s, env);
      match env.parseFloat(arg)
      case None => st.after == s && st.outcome == Shown(Panel(ErrorPanel, Note(BadTemp)))
      case Some(t) => st.after == s.(cfg := s.cfg.(temp := t)) && st.outcome == Shown(Panel(CommandPanel, TempNote(t)))
  {
  }

  /** Only `/lang` changes the preference, and only to fr, en or auto, so a
      valid preference stays valid whatever command runs. */
  lemma LangPrefStaysValid(c: Command, s: Session, env: SlashEnv)
    requires ValidLangPref(s.cfg.langPref)
    ensures ValidLangPref(Run(c, s, env).after.cfg.langPref)
    ensures Run(c, s, env).after.cfg.langPref != s.cfg.langPref ==>
      c.SetLang? && Run(c, s, env).after.cfg.langPref == Lower(Strip(c.arg))
  {
    match c {
      case SetLang(arg) =>
      case _ =>
        assert Run(c, s, env).after.cfg.langPref == s.cfg.langPref;
    }
  }

  /** `/debug` flips the global flag, so two of them restore it. */
  lemma DebugTwiceRestores(s: Session, env: SlashEnv)
    ensures Run(ToggleDebug, s, env).after == s.(debug := !s.debug)
    ensures Run(ToggleDebug, Run(ToggleDebug, s, env).after, env).after == s
  {
  }

  /** `/deepth_search` reads an attribute `SessionConfig` never declares: it
      raises unless the attribute was set earlier, and then changes nothing;
      otherwise it flips it. */
  lemma DeepthSearchRaisesWhenUnset(s: Session, env: SlashEnv)
    ensures Run(DeepthSearch, s, env).outcome.Raised? <==> s.cfg.depthSearch.None?
    ensures Run(DeepthSearch, s, env).outcome.Raised? ==> Run(DeepthSearch, s, env).after == s
    ensures s.cfg.depthSearch.Some? ==>
      Run(DeepthSearch, s, env).after.cfg.depthSearch == Some(!s.cfg.depthSearch.value)
  {
  }

  /** `/save`, `/tools`, `/config`, `/dump` and unknown commands change no
      state. */
  lemma ReadOnlyCommands(c: Command, s: Session, env: SlashEnv)
    requires c in {Save, Tools, ShowConfig, Dump, Unknown}
    ensures Run(c, s, env).after == s
    ensures c != Unknown ==> Run(c, s, env).outcome.Shown?
  {
  }

  // ---- the handler on the live objects ----

  function ConfigOf(cfg: SessionConfig): Config
    reads cfg
  {
    Config(cfg.threadId, cfg.model, cfg.temp, cfg.langPref, cfg.depthSearch)
  }

  function Snapshot(state: ChatState, cfg: SessionConfig, debug: DebugState): Session
    reads state, cfg, debug
  {
    Session(ConfigOf(cfg), state.messages, debug.enabled)
  }

  /** `handle_slash`, assigning the configuration fields, replacing the
      message list and flipping the global flag in place. */
  method HandleSlash(rawCmd: string, state: ChatState, cfg: SessionConfig, debug: DebugState, env: SlashEnv)
    returns (outcome: SlashOutcome)
    modifies state, cfg, debug
    ensures Slash(rawCmd, old(Snapshot(state, cfg, debug)), env) == SlashStep(outcome, Snapshot(state, cfg, debug))
    ensures cfg.debug == old(cfg.debug)
  {
    var c := ParseCommand(Strip(rawCmd));
    outcome := Perform(c, state, cfg, debug, env);
  }

  /** The body of each branch of `handle_slash`. */
  method Perform(c: Command, state: ChatState, cfg: SessionConfig, debug: DebugState, env: SlashEnv)
    returns (outcome: SlashOutcome)
    modifies state, cfg, debug
    ensures Run(c, old(Snapshot(state, cfg, debug)), env) == SlashStep(outcome, Snapshot(state, cfg, debug))
    ensures cfg.debug == old(cfg.debug)
  {
    if c.New? || c.SetModel? || c.SetTemp? || c.SetLang? {
      outcome := PerformSetting(c, state, cfg, debug, env);
    } else if c.ToggleDebug? || c.DeepthSearch? {
      outcome := PerformToggle(c, state, cfg, debug, env);
    } else {
      outcome := PerformShow(c, state, cfg, debug, env);
    }
  }

  /** The branches that set the thread, the model, the temperature or the
      language. */
  method PerformSetting(c: Command, state: ChatState, cfg: SessionConfig, debug: DebugState, env: SlashEnv)
    returns (outcome: SlashOutcome)
    requires c.New? || c.SetModel? || c.SetTemp? || c.SetLang?
    modifies state, cfg
    ensures Run(c, old(Snapshot(state, cfg, debug)), env) == SlashStep(outcome, Snapshot(state, cfg, debug))
    ensures cfg.debug == old(cfg.debug)
  {
    match c
    case New =>
      cfg.threadId := NewThreadId(env.uuid);
      state.messages := if state.messages != [] then [state.messages[0]] else [];
      outcome := Shown(Panel(CommandPanel, Note("✨ Nouveau thread: `" + cfg.threadId + "` (contexte réinitialisé).")));
    case SetModel(arg) =>
      cfg.model := Strip(arg);
      outcome := Shown(Panel(CommandPanel, Note("🧠 Modèle cible: `" + cfg.model + "`")));
    case SetTemp(arg) =>
      var parsed := env.parseFloat(arg);
      if parsed.Some? {
        cfg.temp := parsed.value;
        outcome := Shown(Panel(CommandPanel, TempNote(cfg.temp)));
      } else {
        outcome := Shown(Panel(ErrorPanel, Note(BadTemp)));
      }
    case SetLang(arg) =>
      var lp := Lower(Strip(arg));
      if ValidLangPref(lp) {
        cfg.langPref := lp;
        outcome := Shown(Panel(CommandPanel, Note("🌍 Langue préférée: " + cfg.langPref)));
      } else {
        outcome := Shown(Panel(ErrorPanel, Note(BadLang)));
      }
  }

  /** The branches that flip the debug flag or the depth-search setting. */
  method PerformToggle(c: Command, state: ChatState, cfg: SessionConfig, debug: DebugState, env: SlashEnv)
    returns (outcome: SlashOutcome)
    requires c.ToggleDebug? || c.DeepthSearch?
    modifies cfg, debug
    ensures Run(c, old(Snapshot(state, cfg, debug)), env) == SlashStep(outcome, Snapshot(state, cfg, debug))
    ensures cfg.debug == old(cfg.debug)
  {
    if c.ToggleDebug? {
      debug.enabled := !debug.enabled;
      var status := if debug.enabled then "ON" else "OFF";
      outcome := Shown(Panel(CommandPanel, Note("🐛 Mode debug: " + status)));
    } else if cfg.depthSearch.None? {
      outcome := Raised(MissingDepthSearch);
    } else {
      cfg.depthSearch := Some(!cfg.depthSearch.value);
      var status := if cfg.depthSearch.value then "activée" else "désactivée";
      outcome := Shown(Panel(CommandPanel, Note("🔎 Depth Search " + status + ".")));
    }
  }

  /** The branches that only show something, and the unknown command. */
  method PerformShow(c: Command, state: ChatState, cfg: SessionConfig, debug: DebugState, env: SlashEnv)
    returns (outcome: SlashOutcome)
    requires c in {Save, Tools, ShowConfig, Dump, Unknown}
    ensures Run(c, Snapshot(state, cfg, debug), env) == SlashStep(outcome, Snapshot(state, cfg, debug))
  {
    match c
    case Save =>
      outcome := Shown(Panel(CommandPanel, Note("💾 Transcript sauvegardé: " + env.transcriptPath)));
    case Tools =>
      outcome := Shown(Panel(CommandPanel, Note(ToolsNote)));
    case ShowConfig =>
      outcome := Shown(Panel("⚙️ Config", ConfigTable(ConfigOf(cfg))));
    case Dump =>
      outcome := Shown(Panel("🗂️ Dump complet de l'historique", MessageDump(state.messages)));
    case Unknown =>
      outcome := NoCommand;
  }
}

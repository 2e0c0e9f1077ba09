# ai-agent core, modelled in Dafny

This project models the decision and string logic of the kaiiine/ai-agent
chat agent, a LangGraph/Ollama assistant with a terminal interface, mail,
web-search and Google Workspace tools. Every call into a language model, a
LangGraph graph, a mail server, a Google service or a terminal renderer is
an input of the model: the model's reply, the stream of `(message,
metadata)` events, the service's response, or the exception text.

One Dafny module per source file:

| module | file | what it holds |
|---|---|---|
| `Router` | src/orchestrator/router.py | the router prompt, fence cleaning, parse fallback, unknown-agent coercion, continuity override, and the `RouterState` class that records a decision |
| `Graph` | src/orchestrator/graph.py | the `chatbot` node's system-prompt prepend and the node/edge wiring |
| `Commands` | src/ui/commands.py | the slash-command state machine over the session, as functions and as methods on the `ChatState`/`SessionConfig`/`DebugState` objects |
| `Streaming` | src/ui/streaming.py | one CLI turn: input gating, language and user appends, the event fold with its debounce, the saw-token/invoke endings |
| `Render` | src/ui/render.py | the debounce state machine of `update_live_markdown` and `finalize_live`'s text |
| `Language` | src/ui/language.py | French detection, CJK detection, the output guard and the ephemeral system message |
| `Elegant` | run_elegant_v3.py | the string-returning `handle_slash`, `with_retry`, and the `main` loop with its inline stream fold |
| `ToolCatalog` | src/utils/tools.py | `get_tool_names` and the Markdown tool catalog |
| `SearchText`, `SearchReport` | src/agents/search/tools.py | the text helpers, the score sort and the report assembly of `web_research_report` |
| `UiTurn`, `ModernUi`, `RichUi` | src/modern_rich_interface.py, src/rich_interface.py | the agent tables, keyword classifiers, per-message bookkeeping, history windows and session clock |
| `EmailAgent` | src/agents/email/emailAgent.py | HTML conversion, draft fence extraction, subject truncation, the listings and their 30-second cache, the sent-folder search |
| `GmailTools` | src/agents/gmail/tools.py | MCP result flattening and the tool-name mapping |
| `GoogleDoc` | src/agents/google_doc/tools.py | the title → document cache of `google_docs_create` and the update request |
| `Drive` | src/agents/google_drive/tools.py | file urls, search queries and the shaping of the service's answers |
| `Text`, `Json`, `Chat` | (shared) | Python string operations, dynamic JSON-like values, chat messages and session objects |

Conventions: time is integer milliseconds (the 30 ms debounce, the 30 s
cache), session durations are whole seconds, a confidence is a `real`
that is only compared, a Python dictionary read with `get` is a
`map<string, Json>`. Each imperative operation is a method whose
`ensures` ties its result and new state to a function of the inputs and
old state; the lemmas state the source's promises about those functions.

## Model

| member | source | states |
|---|---|---|
| `Router.RouterPromptMentions` | src/orchestrator/router.py:44-47 | the router prompt always contains the catalog and every agent name, and ends with the previous-agent line exactly when an intent is set |
| `Router.BaseMentions` | src/orchestrator/router.py:44-46 | the prompt without the intent line already names the catalog and every agent |
| `Router.RouterMessagesShape` | src/orchestrator/router.py:49 | the model input is one system message followed by the history, unchanged and in order |
| `Router.CleanFenced` | src/orchestrator/router.py:51 | a reply wrapped in a json fence cleans to its stripped body |
| `Router.CleanKeepsBareFence` | src/orchestrator/router.py:51 | a bare leading fence (not followed by "json") is not removed |
| `Router.CleanOfPlainJson` | src/orchestrator/router.py:51 | a plain JSON object is left as it is |
| `Router.Parse` | src/orchestrator/router.py:53-57 | the parsed confidence always lies in [0,1]; a failed decode or a confidence outside [0,1] gives exactly the fallback decision, and a valid candidate is carried whole (agent, confidence, rationale, plan) |
| `Router.CoerceUnknown` | src/orchestrator/router.py:59-62 | a known agent is untouched; an unknown one becomes "search" with confidence capped at 0.5 and the note appended |
| `Router.Continuity` | src/orchestrator/router.py:65-67 | below the threshold with a previous intent the agent becomes that intent, confidence unchanged, note appended; otherwise nothing changes |
| `Router.DecisionInRange` | src/orchestrator/router.py:53-67 | the final confidence lies in [0,1]; when "search" and the previous intent are known names, the final agent is a known name |
| `Router.ConfidentOrContinuous` | src/orchestrator/router.py:65-67 | a final agent different from the previous intent was chosen with confidence at or above the threshold |
| `Router.InvalidReplyFallsBack` | src/orchestrator/router.py:53-57 | a reply that fails validation (malformed, or confidence outside [0,1]) ends as the search fallback (or the previous intent under the continuity rule) with confidence 0.3, the fallback rationale and an empty plan |
| `Router.ConfidentKnownAgentKept` | src/orchestrator/router.py:53-67 | a valid, confident decision for a known agent passes through every step unchanged |
| `Router.RouterState.constructor` | src/orchestrator/router.py:41-43 | a fresh state holds the messages and no intent, history or artifacts |
| `Router.RouterState.Route` | src/orchestrator/router.py:41-80 | the prompt sent and the decision are those of the pure pipeline on the old intent; intent becomes the agent; history and artifacts grow by exactly one entry each |
| `Router.RouterState.Record` | src/orchestrator/router.py:69-79 | intent is the final agent, one `route_history` entry and one `route_plan` record are appended, earlier entries unchanged |
| `Graph.SystemMessageFor` | src/orchestrator/graph.py:22 | a system message whose content is the prompt template applied to the registry's tool names |
| `Graph.ModelInputShape` | src/orchestrator/graph.py:20-23 | the model input opens with a system message; it is the history with the prompt in front iff the history does not already open with one, and the history unchanged otherwise |
| `Graph.ModelInputIdempotent` | src/orchestrator/graph.py:21 | preparing an already prepared input adds no second system prompt |
| `Graph.SystemCountAppend` | src/orchestrator/graph.py:23-26 | system messages of a concatenation add up |
| `Graph.PromptNeverStored` | src/orchestrator/graph.py:17-26 | after the node's update the state is the old history plus one reply, with no added system message |
| `Graph.Next` | src/orchestrator/graph.py:32-34 | START and tools lead to chatbot; chatbot leads to tools iff the reply calls a tool, else to the end |
| `Graph.AnyNumberOfToolRounds` | src/orchestrator/graph.py:28-34 | for every k a run makes k chatbot/tools rounds and then ends: no iteration bound |
| `Graph.ChatbotRounds` | src/orchestrator/graph.py:32-34 | from the chatbot node, k tool calls give k rounds followed by the end |
| `Graph.ToolsReturnToChatbot` | src/orchestrator/graph.py:32-34 | in every run, each visit of START or tools is followed by chatbot |
| `Commands.NewThreadId` | src/ui/commands.py:16 | the new thread id is a prefix of the uuid text, 8 characters long |
| `Commands.ResetMessages` | src/ui/commands.py:17-18 | at most one message is kept: the old first one when there was one |
| `Commands.AfterFirstSpaceOfPrefix` | src/ui/commands.py:22 | `split(" ", 1)[1]` of a command with a one-word prefix is what follows the prefix |
| `Commands.ParseCommand` | src/ui/commands.py:13-63 | an argument command starts with its prefix and its argument is the text after the first space |
| `Commands.UnknownCommandIsNoOp` | src/ui/commands.py:13-63 | the result is None exactly for unrecognised commands, and then nothing changes |
| `Commands.CommandWords` | src/ui/commands.py:15-58 | each bare command word is recognised as itself; "/model", "/temp" and "/lang" without argument are unrecognised |
| `Commands.NoArgumentWord` | src/ui/commands.py:21-32 | a word not starting like an argument command never matches their prefixes |
| `Commands.NewThreadResets` | src/ui/commands.py:15-19 | `/new` sets an 8-character thread id and leaves at most the previous first message; nothing else changes |
| `Commands.ModelCommand` | src/ui/commands.py:21-23 | `/model X` stores the stripped X and changes nothing else |
| `Commands.TempCommand` | src/ui/commands.py:25-30 | an unparsable value gives the error panel and keeps the temperature; a parsed one is stored and shown |
| `Commands.LangPrefStaysValid` | src/ui/commands.py:32-37 | `lang_pref` stays in {fr, en, auto}, and only `/lang` with a valid lowercased stripped value changes it |
| `Commands.DebugTwiceRestores` | src/ui/commands.py:49-52 | `/debug` flips the global flag only; two toggles restore the state |
| `Commands.DeepthSearchRaisesWhenUnset` | src/ui/commands.py:58-61 | `/deepth_search` raises iff the undeclared field was never set, and then nothing changes; otherwise it flips the field |
| `Commands.ReadOnlyCommands` | src/ui/commands.py:39-56 | `/save`, `/tools`, `/config`, `/dump` and unknown commands change no state, and the four known ones show a panel |
| `Commands.HandleSlash` | src/ui/commands.py:12-63 | on the objects, the outcome and new state are those of the command function on the old state; the CLI's debug mirror is untouched |
| `Commands.Perform` | src/ui/commands.py:15-63 | a parsed command performed on the objects agrees with the command function |
| `Commands.PerformSetting` | src/ui/commands.py:15-37 | the same, for `/new`, `/model`, `/temp` and `/lang` |
| `Commands.PerformToggle` | src/ui/commands.py:49-61 | the same, for `/debug` and `/deepth_search` |
| `Commands.PerformShow` | src/ui/commands.py:39-56 | the same, for the commands that only show something |
| `Render.LiveText` | src/ui/render.py:11 | the live text is the text plus the cursor iff the cursor is on |
| `Render.FinalText` | src/ui/render.py:19 | the final text is the text alone, or text, blank line and footer when there is a footer |
| `Render.FinalTextKeepsText` | src/ui/render.py:18-19 | the final text starts with the text and ends with a non-empty footer |
| `Render.Debounce` | src/ui/render.py:9-16 | a render happens iff strictly more than the debounce has passed; the last-update time moves to now only then |
| `Render.DebounceSpacing` | src/ui/render.py:9-16 | no second render happens within the debounce after a render |
| `Render.DebounceState.constructor` | src/ui/streaming.py:83 | the state holds the given debounce and last update |
| `Render.DebounceState.UpdateLiveMarkdown` | src/ui/render.py:5-16 | a frame with the live text is emitted iff the debounce rule allows it, with a missing last update read as 0 and a missing debounce as 30 ms; the stored time follows the rule |
| `Language.HasFrenchAccent` | src/ui/language.py:4 | true iff some character is one of the French accented letters |
| `Language.DetectLang` | src/ui/language.py:3-4 | the result is "fr" or "en", and "fr" iff the text contains an accented letter |
| `Language.DetectLangMonotone` | src/ui/language.py:3-4 | appending text to French text keeps it French |
| `Language.DetectLangCaseBlind` | src/ui/language.py:4 | detection ignores case |
| `Language.ContainsCjk` | src/ui/language.py:6-7 | true iff some character lies in U+4E00..U+9FFF |
| `Language.ContainsCjkConcat` | src/ui/language.py:6-7 | a concatenation contains CJK iff one of its parts does |
| `Language.GuardNoticeHasNoCjk` | src/ui/language.py:20-21 | the guard's notice has no CJK character |
| `Language.EnforceLangOutput` | src/ui/language.py:18-22 | text without CJK is returned unchanged; otherwise the notice for the language is put in front |
| `Language.EnforceLangOutputIdentityIff` | src/ui/language.py:18-22 | the guard is the identity iff there is no CJK; the text is always a suffix of the output, and removing the notice gives it back |
| `Language.EnforceLangOutputNotIdempotent` | src/ui/language.py:18-22 | a second application on CJK text adds a second notice |
| `Language.LangInstruction` | src/ui/language.py:10-15 | "fr" gets the French instruction, every other language the English one |
| `Language.EnforceLangEphemeralSystem` | src/ui/language.py:9-16 | exactly one system message with the instruction is appended; earlier messages are unchanged |
| `Language.TurnLanguage` | src/ui/streaming.py:64 | the turn language is the preference when it is fr or en, the detected language otherwise, and always fr or en |
| `Streaming.FoldContent` | src/ui/streaming.py:102-109 | the response is the in-order concatenation of the chunk and message contents |
| `Streaming.FoldSaw` | src/ui/streaming.py:98-109 | "saw a token" holds iff some non-empty chunk or some full message came |
| `Streaming.FoldFramesShowPrefixes` | src/ui/streaming.py:93-109 | every frame shown during the fold shows a prefix of the response |
| `Streaming.FoldFrameCount` | src/ui/streaming.py:86-109 | the fold emits at most one frame per event |
| `Streaming.TurnSkipsOrQuits` | src/ui/streaming.py:47-52 | a blank input changes nothing; a quit word requests the end without touching the state |
| `Streaming.TurnDispatch` | src/ui/streaming.py:54-59 | a "/" input goes to the command handler only, recognised or not; any other input is a model turn |
| `Streaming.SlashIsNotQuit` | src/ui/streaming.py:51-54 | a "/" input is neither blank nor a quit word |
| `Streaming.ModelTurnAppends` | src/ui/streaming.py:61-126 | a model turn appends the language instruction, then the user message, then exactly one assistant message when it answers and none when it fails; the settings are unchanged |
| `Streaming.StreamedReplyIsTheTokens` | src/ui/streaming.py:113-116 | when a token was seen, the reply is the guarded concatenation of the streamed text and the last frame shows it with the footer |
| `Streaming.SilentStreamFallsBack` | src/ui/streaming.py:117-123 | when no token was seen, the reply is the guarded content of the single invoke, or the failure it raised |
| `Streaming.LiveFramesArePrefixes` | src/ui/streaming.py:98-109 | every live frame of a turn shows a prefix of the streamed text |
| `Streaming.StreamEvents` | src/ui/streaming.py:79-109 | the loop over the events computes the fold: content, saw-token flag, frames and last-update time |
| `Streaming.StreamOnce` | src/ui/streaming.py:45-126 | on the objects, the outcome, frames and new state are those of the turn function on the old state |
| `Streaming.ModelTurnInPlace` | src/ui/streaming.py:61-126 | the same for the model-turn part, which always answers or fails |
| `Elegant.WithRetry` | run_elegant_v3.py:92-103 | at most retries+1 calls; the result is the first success, or the last attempt's error after retries+1 failures |
| `Elegant.CliConfig.constructor` | run_elegant_v3.py:109-114 | a new configuration holds the documented defaults |
| `Elegant.CliSlashNoneChangesNothing` | run_elegant_v3.py:126-165 | the handler returns None exactly for `/debug`, `/dump`, `/deepth_search` and unknown commands, and then the session is unchanged |
| `Elegant.CliOnlyConfigSilent` | run_elegant_v3.py:161-163 | the empty reply comes from `/config` and from nothing else |
| `Elegant.CliLangPrefStaysValid` | run_elegant_v3.py:146-151 | `lang_pref` stays valid and only a valid `/lang` changes it, with its confirmation |
| `Elegant.CliNewResets` | run_elegant_v3.py:128-133 | `/new` sets the 8-character thread id and keeps at most the old first message |
| `Elegant.HandleSlashText` | run_elegant_v3.py:126-165 | on the objects, the reply and new state are those of the handler function |
| `Elegant.CliPerformSetting` | run_elegant_v3.py:128-151 | the same, for the commands that change a setting |
| `Elegant.CliPerformShow` | run_elegant_v3.py:153-165 | the same, for the others, which leave the state as it is |
| `Elegant.UnknownSlashReachesModel` | run_elegant_v3.py:232-244 | an unrecognised "/" line is sent to the model as a user message |
| `Elegant.UnknownSlashNotHandled` | run_elegant_v3.py:223-237 | such a line is neither blank nor a quit word, and the handler answers None |
| `Elegant.CliModelTurnKeepsUserLine` | run_elegant_v3.py:240-244 | a model turn adds three messages, the second being the user line |
| `Elegant.CliQuitIff` | run_elegant_v3.py:226-229 | a turn ends the session iff the stripped line is a quit word in any case |
| `Elegant.CliModelTurnAddsThree` | run_elegant_v3.py:239-341 | language instruction, user message, then the answer, or "Erreur: e" when the turn raised |
| `Elegant.CliStreamedReply` | run_elegant_v3.py:308-319 | when a token was seen, the answer is the guarded streamed text |
| `Elegant.FullMessagesAlwaysShown` | run_elegant_v3.py:295-303 | every full message re-renders, whatever the debounce |
| `Elegant.CliStreamEvents` | run_elegant_v3.py:253-303 | the inline loop computes the fold with the 30 ms debounce |
| `Elegant.CliModelTurnInPlace` | run_elegant_v3.py:239-341 | on the objects, the model turn agrees with its function |
| `Elegant.CliTurnInPlace` | run_elegant_v3.py:219-341 | one iteration of the loop on the objects agrees with the turn function |
| `Elegant.QuitEndsRun` | run_elegant_v3.py:226-229 | lines after a quit line have no effect |
| `Elegant.QuitEndsSession` | run_elegant_v3.py:226-229 | the same, for the session the loop leaves |
| `Elegant.EmptyLinesAreSkipped` | run_elegant_v3.py:223-224 | a blank line leaves the session as it is |
| `Elegant.ChatLoop` | run_elegant_v3.py:219-343 | the loop's final state is the session after its inputs, and it reads no more lines than given |
| `ToolCatalog.ToolNames` | src/utils/tools.py:7-12 | the names of the tools, in registry order |
| `ToolCatalog.BuildCatalog` | src/utils/tools.py:15-47 | the loop builds the catalog function's text |
| `ToolCatalog.AppendToolBlock` | src/utils/tools.py:25-45 | one tool's lines are appended |
| `ToolCatalog.AppendArgLines` | src/utils/tools.py:32-43 | the argument lines are appended in order |
| `ToolCatalog.CatalogStartsWithHeader` | src/utils/tools.py:23-47 | the catalog starts with "## Available Tools" |
| `ToolCatalog.BlockOfEachTool` | src/utils/tools.py:25-27 | the catalog is the header followed by one block per tool, in order |
| `ToolCatalog.ArgLinesShape` | src/utils/tools.py:32-43 | each argument line starts with "- `"; dict specs give one line each, other specs none |
| `ToolCatalog.ArgumentsLineIff` | src/utils/tools.py:28-45 | "**Arguments :**" appears iff the args were read and are non-empty; otherwise (also when reading raised) the block is the heading alone |
| `ToolCatalog.HeadingShowsDescription` | src/utils/tools.py:26-27 | the heading is "### name" then the description, or "No description." |
| `ToolCatalog.ArgLineParts` | src/utils/tools.py:33-43 | the line names the argument; the type/default part is present iff one of them is; " : desc" ends it iff the description is non-empty |
| `SearchText.Collapse` | src/agents/search/tools.py:53 | collapsing whitespace leaves no two whitespace characters in a row |
| `SearchText.SqueezeAppend` | src/agents/search/tools.py:53 | dropping whitespace distributes over concatenation |
| `SearchText.StripKeepsText` | src/agents/search/tools.py:53 | stripping removes only whitespace |
| `SearchText.CollapseKeepsText` | src/agents/search/tools.py:53 | collapsing removes only whitespace |
| `SearchText.CollapseOfWellSpaced` | src/agents/search/tools.py:53 | collapsing already well-spaced text changes nothing |
| `SearchText.StripWellSpaced` | src/agents/search/tools.py:53 | stripping keeps text well spaced |
| `SearchText.NormalizeProperties` | src/agents/search/tools.py:52-54 | the result has no outer whitespace, no whitespace run, the same non-space characters, and normalising twice equals once |
| `SearchText.QuoteCut` | src/agents/search/tools.py:61-63 | the cut never exceeds the limit |
| `SearchText.QuoteCutIsLastSentenceEnd` | src/agents/search/tools.py:61-63 | the cut is at the last ". " wholly within the limit, or at the limit when there is none |
| `SearchText.ClipForQuoteShape` | src/agents/search/tools.py:56-64 | short text is returned normalised; long text is the right-stripped prefix up to the cut plus "…", at most limit+1 long |
| `SearchText.BulletShape` | src/agents/search/tools.py:66-70 | short text is returned normalised; long text is a prefix of the first max characters plus "…" |
| `SearchText.EnsureListCases` | src/agents/search/tools.py:72-78 | a list is itself, a dict's list "results" is that list, anything else is empty |
| `SearchText.FirstMeaningfulIsFirst` | src/agents/search/tools.py:39-50 | the result is the first non-blank field in key order, stripped, else the raw fallback |
| `SearchText.FirstMeaningfulStripped` | src/agents/search/tools.py:39-50 | the result is always stripped |
| `SearchText.InsertDesc` | src/agents/search/tools.py:134 | insertion adds exactly one element |
| `SearchText.InsertDescSorted` | src/agents/search/tools.py:134 | insertion keeps the list sorted by descending score |
| `SearchText.SortDescCorrect` | src/agents/search/tools.py:127-134 | the results are sorted by descending score and are a permutation of the input |
| `SearchText.SliceTo` | src/agents/search/tools.py:134 | Python's `[:k]`, for negative k too, is a prefix of the length Python gives |
| `SearchReport.CollectSections` | src/agents/search/tools.py:141-159 | the loop builds the source lines, quotes and bullets of the section functions |
| `SearchReport.SourcesNumbered` | src/agents/search/tools.py:141-148 | one source line per result, numbered from 1 in sorted order |
| `SearchReport.SourceLineNumbered` | src/agents/search/tools.py:148 | a source line starts with its number |
| `SearchReport.QuotesAndBullets` | src/agents/search/tools.py:151-159 | quotes come only from results with text; there are no bullets in quote-only mode and one per quote otherwise |
| `SearchReport.FieldsOf` | src/agents/search/tools.py:141 | each result is read as its dictionary, in order |
| `SearchReport.WebResearchReport` | src/agents/search/tools.py:123-191 | the method computes the report function: the Markdown, or the exception |
| `SearchReport.AssembleReport` | src/agents/search/tools.py:174-191 | the parts are joined by blank lines and stripped |
| `SearchReport.RaisesIff` | src/agents/search/tools.py:123-164 | the tool raises iff a result is not a dictionary or the answer is asked of a non-dictionary |
| `SearchReport.ReportStartsWithHeading` | src/agents/search/tools.py:174-191 | the report starts with "# Réponse" |
| `SearchReport.HeadingOpensWithTitle` | src/agents/search/tools.py:175 | the heading opens with the title |
| `SearchReport.SectionsPresent` | src/agents/search/tools.py:179-189 | sources appear iff there are source lines, quotes iff there are quotes, points iff not quote-only and bullets exist, "Aucune source" iff neither sources nor quotes |
| `SearchReport.PartsOrigin` | src/agents/search/tools.py:174-189 | every part of the report is the heading, the answer or a section whose condition holds |
| `UiTurn.UiFoldSummary` | src/modern_rich_interface.py:267-289 | the response is the in-order concatenation of AI contents, the tool counter grows by exactly the number of tool messages, and a tool message leaves "tools" current |
| `UiTurn.StreamOutcomeCases` | src/modern_rich_interface.py:267-306 | the saved reply is the error text after an exception and the AI text otherwise; it is non-empty iff one of them is |
| `UiTurn.LastNShape` | src/modern_rich_interface.py:185 | `xs[-n:]` is the last n entries, or all of them, in order |
| `UiTurn.StyleOf` | src/modern_rich_interface.py:87-89 | the style returned is an entry of the table |
| `UiTurn.Classify` | src/modern_rich_interface.py:91-103 | "weather" iff a weather keyword occurs; "search" iff none does and a search keyword does; "chatbot" otherwise |
| `UiTurn.ClassifyMonotone` | src/modern_rich_interface.py:95-96 | more keywords never demote weather, and search stays search or weather |
| `ModernUi.GetAgentConfig` | src/modern_rich_interface.py:87-89 | a known agent's entry, the chat agent's for any other name |
| `ModernUi.DetectAgentType` | src/modern_rich_interface.py:91-103 | weather keywords first, then search keywords, on the lower-cased message |
| `ModernUi.ProcessOutcomeCases` | src/modern_rich_interface.py:259-292 | without an app the notice is saved and no tool counted; otherwise the error or the AI text is saved and the tools are those of the stream |
| `ModernUi.RecentMessages` | src/modern_rich_interface.py:185 | the panel shows the last 8 entries, or all when fewer |
| `ModernUi.SessionClock` | src/modern_rich_interface.py:123 | minutes and seconds recompose the total, seconds under 60 |
| `ModernUi.SessionText` | src/modern_rich_interface.py:125 | the field has at least five characters |
| `ModernUi.SessionTextReads` | src/modern_rich_interface.py:123-125 | the field reads back as the session length |
| `ModernUi.ModernAgentInterface.constructor` | src/modern_rich_interface.py:66-75 | no app, the chat agent, empty history, zero tools |
| `ModernUi.ModernAgentInterface.InitAgent` | src/modern_rich_interface.py:77-85 | true unless building raised; an application exists afterwards only when a graph was returned, so the import fallback's `None` gives true with no application (which later yields "Agent non initialisé"); a raise leaves the application as it was; nothing else changes |
| `ModernUi.ModernAgentInterface.ProcessAgentMessage` | src/modern_rich_interface.py:246-306 | one user entry plus one assistant entry iff the reply is non-empty; tools grow by the stream's count; the turn state is reset |
| `ModernUi.ModernAgentInterface.Consume` | src/modern_rich_interface.py:272-289 | one loop iteration performs one step of the turn fold |
| `ModernUi.ModernAgentInterface.SaveAndReset` | src/modern_rich_interface.py:294-306 | a non-empty reply is saved under the current agent, then the turn state is reset |
| `RichUi.GetAgentTheme` | src/rich_interface.py:75-77 | a known agent's theme, the chat agent's for any other name |
| `RichUi.DetectAgentFromMessage` | src/rich_interface.py:222-232 | weather words first, then search words, on the lower-cased message |
| `RichUi.DetectorsAgree` | src/rich_interface.py:227-229 | what this detector sends to weather goes to weather in the modern one; search goes to search or weather |
| `RichUi.ProcessOutcomeCases` | src/rich_interface.py:247-276 | without an app the AttributeError text is saved; otherwise the error or the AI text; tools as in the stream |
| `RichUi.SameReplyAsModern` | src/rich_interface.py:251-276 | with an app both interfaces save the same reply and count the same tools |
| `RichUi.RecentMessages` | src/rich_interface.py:150 | the panel shows the last 5 entries, or all when fewer |
| `RichUi.FormatDuration` | src/rich_interface.py:215-220 | the duration text has at least five characters |
| `RichUi.DurationAsModern` | src/rich_interface.py:215-220 | it equals the modern interface's session clock text |
| `RichUi.RichAgentInterface.constructor` | src/rich_interface.py:60-68 | no app, the chat agent, empty history, zero tool calls |
| `RichUi.RichAgentInterface.InitializeApp` | src/rich_interface.py:70-73 | the app is set; nothing else changes |
| `RichUi.RichAgentInterface.ProcessMessage` | src/rich_interface.py:234-290 | one user entry plus one assistant entry iff the reply is non-empty; tool calls grow by the stream's count; the turn state is reset |
| `RichUi.RichAgentInterface.Consume` | src/rich_interface.py:256-273 | one loop iteration performs one step of the turn fold |
| `RichUi.RichAgentInterface.SaveAndReset` | src/rich_interface.py:278-290 | a non-empty reply is saved under the current agent, then the turn state is reset |
| `EmailAgent.HtmlEscape` | src/agents/email/emailAgent.py:307 | the escaped body has no markup character and the same line breaks |
| `EmailAgent.EscapeRoundTrip` | src/agents/email/emailAgent.py:307 | unescaping gives the body back |
| `EmailAgent.LineBreaks` | src/agents/email/emailAgent.py:311 | no line break is left inside a paragraph |
| `EmailAgent.LineBreaksRoundTrip` | src/agents/email/emailAgent.py:311 | replacing "<br>" back gives the escaped paragraph |
| `EmailAgent.NonBlank` | src/agents/email/emailAgent.py:311 | only non-blank paragraphs are kept |
| `EmailAgent.NonBlankKeepsAll` | src/agents/email/emailAgent.py:311 | every non-blank paragraph is kept, and all of them when none is blank |
| `EmailAgent.HtmlParagraphs` | src/agents/email/emailAgent.py:310-311 | one `<p>` per non-blank "\n\n"-separated paragraph of the escaped body, in order |
| `EmailAgent.ConvertToHtmlShape` | src/agents/email/emailAgent.py:303-344 | the page is the template head, the paragraphs in order, the template tail |
| `EmailAgent.PaddingBlank` | src/agents/email/emailAgent.py:313-344 | what `strip()` removes around the template is whitespace |
| `EmailAgent.TemplateEnds` | src/agents/email/emailAgent.py:313-344 | the page starts with "<" and ends with ">" |
| `EmailAgent.ParagraphContent` | src/agents/email/emailAgent.py:307-311 | each `<p>` holds a non-blank escaped paragraph with "<br>" for its line breaks |
| `EmailAgent.JsonFenceIsFence` | src/agents/email/emailAgent.py:208-210 | a json fence contains a bare fence |
| `EmailAgent.DraftFenceFree` | src/agents/email/emailAgent.py:207-213 | a fenced reply gives a draft without a fence; an unfenced reply is returned stripped |
| `EmailAgent.FirstPieceFenceFree` | src/agents/email/emailAgent.py:209-211 | the first split piece has no fence |
| `EmailAgent.DraftOfJsonBlock` | src/agents/email/emailAgent.py:208-213 | a json block gives its stripped body |
| `EmailAgent.Truncate` | src/agents/email/emailAgent.py:69 | a subject within the limit is unchanged; a longer one is its first n characters plus "..." |
| `EmailAgent.TruncateBound` | src/agents/email/emailAgent.py:41 | the result is at most n+3 long |
| `EmailAgent.Take` | src/agents/email/emailAgent.py:58 | `islice` takes the first n messages, or all |
| `EmailAgent.Rows` | src/agents/email/emailAgent.py:40-43 | no messages, no rows |
| `EmailAgent.RowsContain` | src/agents/email/emailAgent.py:67-70 | every message's row is in the table |
| `EmailAgent.ListingShowsEach` | src/agents/email/emailAgent.py:36-45 | each of the first 10 messages appears in the listing |
| `EmailAgent.RowShowsSubject` | src/agents/email/emailAgent.py:41-70 | a row shows the uid and the truncated subject (40 or 50) |
| `EmailAgent.ListingNotNoted` | src/agents/email/emailAgent.py:56-74 | a fresh listing never carries the cache note |
| `EmailAgent.AppendRows` | src/agents/email/emailAgent.py:67-70 | the loop appends the rows to the title |
| `EmailAgent.FirstMatchIsFirst` | src/agents/email/emailAgent.py:137-155 | the mail found is from the first folder, in the fixed order, that has it; none iff no folder has it |
| `EmailAgent.SentViewHeader` | src/agents/email/emailAgent.py:143-153 | the view opens with its header |
| `EmailAgent.ViewSentEmail` | src/agents/email/emailAgent.py:134-157 | the loop over the folders computes the view, or the not-found text |
| `EmailAgent.Agent.constructor` | src/agents/email/emailAgent.py:20-22 | the cache starts empty |
| `EmailAgent.Agent.ListAllEmails` | src/agents/email/emailAgent.py:27-45 | the listing of the first 10 messages |
| `EmailAgent.Agent.ListUnreadEmails` | src/agents/email/emailAgent.py:47-74 | a cache entry younger than 30 s is returned with the note and nothing changes; otherwise the fresh listing is returned and stored; the note is present iff the cache was fresh |
| `GmailTools.PartsShape` | src/agents/gmail/tools.py:15-18 | one part per truthy item, none iff every item is falsy, text kept as it is |
| `GmailTools.FlattenedCases` | src/agents/gmail/tools.py:19-28 | "OK" when nothing is kept, else the parts joined by line breaks |
| `GmailTools.Flatten` | src/agents/gmail/tools.py:11-28 | the loop of `_run` and `_arun` computes the flattening, a missing content read as empty |
| `GmailTools.MakeGmailTools` | src/agents/gmail/tools.py:30-47 | exactly three tools |
| `GmailTools.GmailToolMapping` | src/agents/gmail/tools.py:30-47 | gmail_search → search_emails, gmail_read → read_email, gmail_send_email → send_email, no other name |
| `GoogleDoc.DocUrl` | src/agents/google_doc/tools.py:25 | the url is the fixed prefix, the id and "/edit" |
| `GoogleDoc.DocUrlInjective` | src/agents/google_doc/tools.py:19 | different documents have different urls |
| `GoogleDoc.CreateStep` | src/agents/google_doc/tools.py:16-25 | the answer carries the title and the url of its id |
| `GoogleDoc.CreateStepCases` | src/agents/google_doc/tools.py:16-25 | a cached title returns its id without a create call; a new title is created and recorded; entries are only added |
| `GoogleDoc.CreateTwice` | src/agents/google_doc/tools.py:16-25 | two calls with a title return the same document, the second without a call |
| `GoogleDoc.DocsCache.constructor` | src/agents/google_doc/tools.py:4 | the cache starts empty |
| `GoogleDoc.DocsCache.Create` | src/agents/google_doc/tools.py:6-25 | on the module cache, the call agrees with the create function |
| `GoogleDoc.Update` | src/agents/google_doc/tools.py:39-42 | one insertText request whose text is the Markdown plus a line break |
| `Drive.FileUrl` | src/agents/google_drive/tools.py:7-8 | the url wraps the id |
| `Drive.FileUrlReadsBack` | src/agents/google_drive/tools.py:7-8 | the id reads back out of the url |
| `Drive.NoQuoteUnchanged` | src/agents/google_drive/tools.py:24 | a name without double quote is sent as it is |
| `Drive.EscapeForReadsBack` | src/agents/google_drive/tools.py:23-26 | an escaped literal reads back as the name and stops at its closing quote |
| `Drive.FindQueryReadsBack` | src/agents/google_drive/tools.py:23-26 | the query's literal reads back as the name for every name, followed by the trash filter |
| `Drive.UnclosedLiteral` | src/agents/google_drive/tools.py:23-26 | a literal with no quote and no backslash is never closed |
| `Drive.PlainLiteral` | src/agents/google_drive/tools.py:23-26 | a plain run is read up to the first quote |
| `Drive.ApostropheBreaksContains` | src/agents/google_drive/tools.py:26 | as written, an apostrophe ends the "contains" literal early: the literal holds only the part before it and the rest is left as unparsed query text |
| `Drive.ApostropheExample` | src/agents/google_drive/tools.py:26 | as written, for the name "l'été" the literal closes after "l" and "été'" is left as unparsed query text |
| `Drive.BackslashBreaksExact` | src/agents/google_drive/tools.py:24 | as written, the exact name "\" leaves the literal open |
| `Drive.Entries` | src/agents/google_drive/tools.py:35-44 | one entry per file, in order, each with the url of its id |
| `Drive.FindOutcomes` | src/agents/google_drive/tools.py:10-46 | for the query as written: an error iff the service raised; "empty" iff no file; otherwise one match per file |
| `Drive.CorrectedFindOutcomes` | src/agents/google_drive/tools.py:10-46 | the same three outcomes when the query escapes its own quote and backslashes, whose literal then reads back as the name |
| `Drive.ListFilesPassesThrough` | src/agents/google_drive/tools.py:48-82 | no query means "trashed = false"; page size, token and next token pass through; the files are one entry per file returned, in order, each with the url of its id; an error, carrying the service's text, iff the service raised |
| `Drive.DeleteOnlyWhenPermanent` | src/agents/google_drive/tools.py:84-102 | the file is deleted only when `permanently` is set and trashed otherwise; any HttpError is the answer |
| `Drive.FileInfoOf` | src/agents/google_drive/tools.py:117-126 | the id, the url, and one e-mail per owner ("?" when missing) |
| `Drive.DriveGetFileMetadata` | src/agents/google_drive/tools.py:104-129 | the error when the service raised, else the file's info with its url |
| `Chat.SessionConfig.constructor` | src/ui/config.py:4-8 | the default thread id, model, temperature and language preference, and no depth-search field |
| `Chat.DebugState.constructor` | src/ui/commands.py:10 | debug starts off |
| `Chat.ChatState.constructor` | src/ui/app.py:26 | the state holds the given messages |

## Left out

- Language models, LangGraph (`StateGraph`, `ToolNode`, `tools_condition`, the checkpoint store, reducers): their replies, stream events and routing outcomes are inputs. The graph model takes one tool list for both the model binding and the tool node.
- IMAP, SMTP, Google, MCP and Tavily calls: their responses and exception texts are inputs; OAuth and credentials are not part of this model.
- Rich rendering (`Console`, `Live`, `Panel`, `Layout`, `Markdown`, `Prompt`): a render is an emitted frame at most; panels and tables are not modelled.
- Threads, `asyncio` and every `sleep`; the modern interface's daemon thread and message queue.
- Floating point: `/temp` parsing is an input function; `fmt_ms` and the timing footer are an input string; the `:.2f` text of `route_history` is a record of agent and confidence.
- `Elegant.WithRetry`: the exponential back-off delays and their jitter are not modelled, only the attempts; `retries` is a `nat`, so a negative count, for which `range(retries + 1)` is empty and `None` comes back without any call, is not modelled (no caller passes one).
- `uuid4`: any string is accepted; the id is its first 8 characters.
- Unicode `lower()` and `\s` are modelled on ASCII and the Latin-1 letters the source's keywords use; full Unicode case tables are not part of this model.
- `_domain_of` (`urlparse`) is a parameter of the report; `web_search` and `build_search_tool` call Tavily and are not part of this model.
- Prompt constants (`ROUTER_SYS`, `SYSTEM_PROMPT`, the compose prompt) are opaque strings; the registry's `get_names` and `catalog_text` are parameters.
- `EmailAgent.Agent.ListUnreadEmails`: a `connect()` that raises on a cache miss (src/agents/email/emailAgent.py:56) is not modelled; the exception then propagates and the cache stays as it was.
- `list_sent_emails`, `summarize_email`, `mark_email_as_read`, `send_email`, `_verify_email_sent` and `test_smtp_connection` of the e-mail agent only call the mail servers or the model; they are not part of this model.
- The except branch of `compose_email` (emailAgent.py:214-218): every split there is on a delimiter known to be present, so the branch cannot be reached and is not modelled.
- Transcripts (`/save`, `save_transcript`) and other file writes; `/save` is modelled as showing a panel and leaving the state unchanged.
- The debug printing of src/ui/streaming.py (`_print_prompt_debug`, `_print_tool_calls_debug`).
- `GoogleDoc.DocsCache.Create`: a `documentId` missing from the service's answer is not modelled; the new id is always a string.
- `SearchText.SortDescCorrect`: states sortedness and permutation but not the stability of Python's sort among equal scores.
- `Drive.DriveGetFileMetadata`: states the id, url and error cases; the other fields are copied as they are, which its contract does not repeat.
- src/agents/google_drive/tools.py:24 puts a backslash inside an f-string expression, which Python accepts only from version 3.12; the model follows the evident meaning.

## Findings

| source | as written | input that shows it | evidently intended | confidence | as-written member | corrected member |
|---|---|---|---|---|---|---|
| src/agents/google_drive/tools.py:26 | the "contains" query wraps the name in single quotes but escapes only double quotes | the name `l'été`: the literal closes after `l` and `été'` is left as unparsed query text | escape the quote that delimits the literal (and the backslash) so the literal reads back as the name | not executed | `Drive.ApostropheBreaksContains` | `Drive.CorrectedFindOutcomes` |
| src/agents/google_drive/tools.py:24 | the exact query escapes double quotes but not backslashes | the name `\`: the query becomes `name = "\" and trashed = false`, where the backslash swallows the closing quote and the literal never closes | escape backslashes too | not executed | `Drive.BackslashBreaksExact` | `Drive.CorrectedFindOutcomes` |

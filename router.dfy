/** The intent router of src/orchestrator/router.py: the prompt it sends,
    the cleaning and validation of the model's JSON reply, the unknown-agent
    and low-confidence rules, and what it records in the graph state. */
module Router {
  import opened Text
  import opened Chat

  /** What `build_router` closes over: the agent names and catalog text of
      the registry, the `ROUTER_SYS` prompt and `conf_threshold`. */
  datatype RouterConfig = RouterConfig(agents: seq<string>, catalog: string, routerSys: string, confThreshold: real)

  const DefaultConfThreshold: real := 0.6

  /** A `RouteDecision`. */
  datatype RouteDecision = RouteDecision(agent: string, confidence: real, rationale: string, plan: seq<string>)

  /** One `route_history` entry, `"router->{agent} (conf={confidence:.2f})"`. */
  datatype RouteLog = RouteLog(agent: string, confidence: real)

  /** One `"route_plan"` artifact. */
  datatype RoutePlan = RoutePlan(agent: string, confidence: real, rationale: string, plan: seq<string>)

  /** The previous intent counts only when truthy: "" stands for both a
      missing key and an empty string. */
  predicate HasIntent(intent: string) {
    intent != ""
  }

  /** The part of the router's system prompt that does not depend on the
      previous intent. */
  function PromptBase(cfg: RouterConfig): string {
    cfg.routerSys + "\n" + cfg.catalog + "\n\nRéponds en JSON. Agents: " + Join(cfg.agents, ", ")
  }

  function IntentLine(intent: string): string {
    "\nAgent précédent: " + intent + " (garder si cohérent)."
  }

  /** The router's system prompt. */
  function RouterPrompt(cfg: RouterConfig, intent: string): string {
    PromptBase(cfg) + (if HasIntent(intent) then IntentLine(intent) else "")
  }

  /** The prompt always names the catalog and every agent, and it mentions
      the previous agent, at its end, exactly when there is one. */
  lemma RouterPromptMentions(cfg: RouterConfig, intent: string)
    ensures var p := RouterPrompt(cfg, intent);
      Contains(p, cfg.catalog) && (forall k :: 0 <= k < |cfg.agents| ==> Contains(p, cfg.agents[k]))
      && StartsWith(p, PromptBase(cfg))
      && (HasIntent(intent) ==> EndsWith(p, IntentLine(intent)))
      && (!HasIntent(intent) ==> p == PromptBase(cfg))
  {
    var base := PromptBase(cfg);
    var tail := if HasIntent(intent) then IntentLine(intent) else "";
    PromptSplits(base, tail);
    BaseMentions(cfg);
  }

  /** The prompt is its base followed by the intent line: it starts with
      the base, ends with the line, and names whatever the base names. */
  lemma PromptSplits(base: string, tail: string)
    ensures StartsWith(base + tail, base) && EndsWith(base + tail, tail)
    ensures forall w :: Contains(base, w) ==> Contains(base + tail, w)
  {
    var p := base + tail;
    assert p[..|base|] == base;
    assert p[|p| - |tail|..] == tail;
    forall w | Contains(base, w) ensures Contains(p, w) {
      ContainsWithin("", base, tail, w);
      assert "" + base + tail == p;
    }
  }

  /** The intent-free part names the catalog and every agent. */
  lemma BaseMentions(cfg: RouterConfig)
    ensures Contains(PromptBase(cfg), cfg.catalog)
    ensures forall k :: 0 <= k < |cfg.agents| ==> Contains(PromptBase(cfg), cfg.agents[k])
  {
    var pre := cfg.routerSys + "\n";
    var post := "\n\nRéponds en JSON. Agents: " + Join(cfg.agents, ", ");
    assert PromptBase(cfg) == pre + cfg.catalog + post;
    ContainsPart(pre, cfg.catalog, post);
    var head := pre + cfg.catalog + "\n\nRéponds en JSON. Agents: ";
    assert PromptBase(cfg) == head + Join(cfg.agents, ", ") + "";
    forall k | 0 <= k < |cfg.agents| ensures Contains(PromptBase(cfg), cfg.agents[k]) {
      JoinContainsParts(cfg.agents, ", ", k);
      ContainsWithin(head, Join(cfg.agents, ", "), "", cfg.agents[k]);
    }
  }

  /** The model input: the router's system message, then the history. */
  function RouterMessages(cfg: RouterConfig, intent: string, history: seq<Message>): seq<Message> {
    [Message(System, RouterPrompt(cfg, intent))] + history
  }

  /** The model input is one system message followed by the history,
      unchanged and in order. */
  lemma RouterMessagesShape(cfg: RouterConfig, intent: string, history: seq<Message>)
    ensures var ms := RouterMessages(cfg, intent, history);
      |ms| == |history| + 1 && ms[0].role == System && ms[1..] == history
  {
  }

  /** `raw.strip().removeprefix("```json").removesuffix("```").strip()`. */
  function Clean(raw: string): string {
    Strip(RemoveSuffix(RemovePrefix(Strip(raw), "```json"), "```"))
  }

  /** A reply fenced as a JSON code block cleans to its stripped body. */
  lemma CleanFenced(body: string)
    ensures Clean("```json" + body + "```") == Strip(body)
  {
    var s := "```json" + body + "```";
    StripOfTrimmed(s);
    assert StartsWith(s, "```json");
    assert s[|"```json"|..] == body + "```";
    assert EndsWith(body + "```", "```");
    assert (body + "```")[..|body|] == body;
  }

  /** Only "```json" is removed at the front: a bare "```" fence stays, and
      the text then fails to parse. */
  lemma CleanKeepsBareFence(body: string)
    requires !StartsWith(body, "json")
    ensures var s := "```" + body + "```"; StartsWith(Clean(s), "```")
  {
    var s := "```" + body + "```";
    StripOfTrimmed(s);
    assert !StartsWith(s, "```json") by {
      if |body| >= 4 {
        assert s[3..7] == body[..4];
        assert s[..7][3..7] == s[3..7];
      } else if |s| >= 7 {
        var j := 3 + |body|;
        assert s[j] == '`';
        assert s[..7][j] == s[j];
        assert "```json"[j] != '`';
      }
    }
    var t := RemoveSuffix(s, "```");
    assert t == "```" + body;
    assert t[0] == '`' && t[|t| - 1] != ' ' ==> true;
    LStripOfNonSpaceStart(t);
    RStripKeepsPrefix("```", body);
    assert Strip(t) == RStrip(t);
  }

  /** Clean text that has no fence is unchanged by cleaning. */
  lemma CleanOfPlainJson(s: string)
    requires s != [] && s[0] == '{' && s[|s| - 1] == '}'
    ensures Clean(s) == s
  {
    StripOfTrimmed(s);
    assert !StartsWith(s, "```json") by { assert s[0] != '`'; }
    assert !EndsWith(s, "```") by { assert s[|s| - 1] != '`'; }
  }

  /** What `RouteDecision.model_validate_json` finds in the text before its
      field constraints apply: `None` for malformed JSON or a missing or
      mistyped field (the plan defaults to the empty list). */
  datatype Candidate = Candidate(agent: string, confidence: real, rationale: string, plan: seq<string>)

  const Fallback := RouteDecision("search", 0.3, "JSON invalide → fallback search", [])

  /** Validation: `confidence` must lie in [0, 1]; any failure gives the
      fallback decision. */
  function Parse(cleaned: string, decode: string -> Option<Candidate>): (d: RouteDecision)
    ensures 0.0 <= d.confidence <= 1.0
    ensures decode(cleaned).None? || !(0.0 <= decode(cleaned).value.confidence <= 1.0) ==> d == Fallback
    ensures decode(cleaned).Some? && 0.0 <= decode(cleaned).value.confidence <= 1.0 ==>
      var c := decode(cleaned).value;
      d == RouteDecision(c.agent, c.confidence, c.rationale, c.plan)
  {
    match decode(cleaned)
    case None => Fallback
    case Some(c) =>
      if 0.0 <= c.confidence <= 1.0 then RouteDecision(c.agent, c.confidence, c.rationale, c.plan)
      else Fallback
  }

  function Min(a: real, b: real): real {
    if a <= b then a else b
  }

  /** An unknown agent becomes "search" with confidence at most 0.5. */
  function CoerceUnknown(d: RouteDecision, agents: seq<string>): (r: RouteDecision)
    ensures d.agent in agents ==> r == d
    ensures d.agent !in agents ==>
      r == d.(agent := "search", confidence := Min(d.confidence, 0.5), rationale := d.rationale + " (agent inconnu → search)")
  {
    if d.agent !in agents then
      d.(agent := "search", confidence := Min(d.confidence, 0.5), rationale := d.rationale + " (agent inconnu → search)")
    else d
  }

  /** Low confidence keeps the previous agent, when there is one. */
  function Continuity(d: RouteDecision, threshold: real, intent: string): (r: RouteDecision)
    ensures d.confidence < threshold && HasIntent(intent) ==>
      r == d.(agent := intent, rationale := d.rationale + " (confiance faible → continuité)")
    ensures !(d.confidence < threshold && HasIntent(intent)) ==> r == d
  {
    if d.confidence < threshold && HasIntent(intent) then
      d.(agent := intent, rationale := d.rationale + " (confiance faible → continuité)")
    else d
  }

  /** The decision for one cleaned model reply. */
  function Decide(cfg: RouterConfig, intent: string, cleaned: string, decode: string -> Option<Candidate>): RouteDecision {
    Continuity(CoerceUnknown(Parse(cleaned, decode), cfg.agents), cfg.confThreshold, intent)
  }

  /** The final confidence always lies in [0, 1], and the final agent is a
      known name whenever "search" and the previous intent (if any) are. */
  lemma DecisionInRange(cfg: RouterConfig, intent: string, cleaned: string, decode: string -> Option<Candidate>)
    ensures 0.0 <= Decide(cfg, intent, cleaned, decode).confidence <= 1.0
    ensures "search" in cfg.agents && (!HasIntent(intent) || intent in cfg.agents) ==>
      Decide(cfg, intent, cleaned, decode).agent in cfg.agents
  {
  }

  /** The agent differs from the previous intent only with enough
      confidence, or when there was no previous intent. */
  lemma ConfidentOrContinuous(cfg: RouterConfig, intent: string, cleaned: string, decode: string -> Option<Candidate>)
    requires HasIntent(intent) && Decide(cfg, intent, cleaned, decode).agent != intent
    ensures Decide(cfg, intent, cleaned, decode).confidence >= cfg.confThreshold
  {
  }

  /** A reply that does not validate (malformed, or a confidence outside
      [0, 1]) routes to "search" with confidence 0.3 (or keeps the previous
      intent when 0.3 is below the threshold), never to a name the model
      made up. */
  lemma InvalidReplyFallsBack(cfg: RouterConfig, intent: string, cleaned: string, decode: string -> Option<Candidate>)
    requires decode(cleaned).None? || !(0.0 <= decode(cleaned).value.confidence <= 1.0)
    ensures var d := Decide(cfg, intent, cleaned, decode);
      d.confidence == 0.3
      && (d.agent == "search" || (d.agent == intent && 0.3 < cfg.confThreshold))
      && StartsWith(d.rationale, "JSON invalide → fallback search")
      && d.plan == []
  {
    var p := Parse(cleaned, decode);
    var c := CoerceUnknown(p, cfg.agents);
    assert StartsWith(c.rationale, Fallback.rationale) by {
      assert c.rationale[..|Fallback.rationale|] == Fallback.rationale;
    }
    var d := Continuity(c, cfg.confThreshold, intent);
    assert d.rationale[..|Fallback.rationale|] == c.rationale[..|Fallback.rationale|];
  }

  /** A known, confident agent passes through untouched. */
  lemma ConfidentKnownAgentKept(cfg: RouterConfig, intent: string, cleaned: string, decode: string -> Option<Candidate>)
    requires decode(cleaned).Some?
    requires var c := decode(cleaned).value;
      c.agent in cfg.agents && 0.0 <= c.confidence <= 1.0 && cfg.confThreshold <= c.confidence
    ensures var c := decode(cleaned).value;
      Decide(cfg, intent, cleaned, decode) == RouteDecision(c.agent, c.confidence, c.rationale, c.plan)
  {
  }

  /** The part of the graph state the router reads and writes. */
  class RouterState {
    var messages: seq<Message>
    var intent: string
    var routeHistory: seq<RouteLog>
    var artifacts: seq<RoutePlan>

    constructor (messages: seq<Message>)
      ensures this.messages == messages && intent == "" && routeHistory == [] && artifacts == []
    {
      this.messages := messages;
      intent := "";
      routeHistory := [];
      artifacts := [];
    }

    /** The inner `router(state)`: asks the model (`llm` maps the model
        input to the reply's content), decides, and records the decision in
        place: `intent` is set, `route_history` grows by one entry and
        `artifacts` is rebound to the old list plus one record. */
    method Route(cfg: RouterConfig, llm: seq<Message> -> string, decode: string -> Option<Candidate>)
      returns (prompt: seq<Message>, d: RouteDecision)
      modifies this
      ensures prompt == RouterMessages(cfg, old(intent), messages)
      ensures d == Decide(cfg, old(intent), Clean(llm(prompt)), decode)
      ensures messages == old(messages) && intent == d.agent
      ensures routeHistory == old(routeHistory) + [RouteLog(d.agent, d.confidence)]
      ensures artifacts == old(artifacts) + [RoutePlan(d.agent, d.confidence, d.rationale, d.plan)]
    {
      prompt := RouterMessages(cfg, intent, messages);
      d := Decide(cfg, intent, Clean(llm(prompt)), decode);
      Record(d);
    }

    /** The writes of `router(state)`: the new intent, one history line and
        one plan artifact; the conversation is left alone. */
    method Record(d: RouteDecision)
      modifies this
      ensures messages == old(messages) && intent == d.agent
      ensures routeHistory == old(routeHistory) + [RouteLog(d.agent, d.confidence)]
      ensures artifacts == old(artifacts) + [RoutePlan(d.agent, d.confidence, d.rationale, d.plan)]
    {
      intent := d.agent;
      routeHistory := routeHistory + [RouteLog(d.agent, d.confidence)];
      artifacts := artifacts + [RoutePlan(d.agent, d.confidence, d.rationale, d.plan)];
    }
  }
}

/** Debounced live rendering of src/ui/render.py. Rendering itself is an
    emitted `Frame`; time is integer milliseconds. */
module Render {
  import opened Text

  const DefaultDebounceMs: int := 30

  /** What a `live.update(...)` call shows. */
  datatype Frame =
    | ToolFrame(toolName: string, node: string)   // the tool-call panel
    | LiveFrame(markdown: string, node: string)   // streamed text, titled with the node
    | FinalFrame(markdown: string)                // the closing panel

  /** The markdown shown while streaming: the text, with a cursor when asked. */
  function LiveText(text: string, cursor: bool): (r: string)
    ensures cursor ==> r == text + "▌"
    ensures !cursor ==> r == text
  {
    text + (if cursor then "▌" else "")
  }

  /** `finalize_live`: the footer follows a blank line, and only when present. */
  function FinalText(text: string, footer: string): (r: string)
    ensures footer == "" ==> r == text
    ensures footer != "" ==> r == text + "\n\n" + footer
  {
    text + (if footer != "" then "\n\n" + footer else "")
  }

  lemma FinalTextKeepsText(text: string, footer: string)
    ensures StartsWith(FinalText(text, footer), text)
    ensures footer != "" ==> EndsWith(FinalText(text, footer), footer)
  {
    var r := FinalText(text, footer);
    assert r[..|text|] == text;
  }

  /** One debounce decision: render iff strictly more than `debounce` ms have
      passed since the last render; the last-render time moves only then. */
  datatype Decision = Decision(render: bool, lastUpdate: int)

  function Debounce(lastUpdate: int, debounce: int, now: int): (d: Decision)
    ensures d.render <==> now - lastUpdate > debounce
    ensures d.render ==> d.lastUpdate == now
    ensures !d.render ==> d.lastUpdate == lastUpdate
  {
    if now - lastUpdate > debounce then Decision(true, now) else Decision(false, lastUpdate)
  }

  /** Two renders are always more than `debounce` ms apart: after a render at
      `t`, nothing at `t + debounce` or earlier renders. */
  lemma DebounceSpacing(last: int, debounce: int, t: int, t2: int)
    requires Debounce(last, debounce, t).render
    requires t2 <= t + debounce
    ensures !Debounce(Debounce(last, debounce, t).lastUpdate, debounce, t2).render
  {
  }

  /** The `debounce_state` dict: `"last_update"` and `"DEBOUNCE"` may be absent. */
  class DebounceState {
    var lastUpdate: Option<int>
    var debounce: Option<int>

    constructor (debounce: Option<int>, lastUpdate: Option<int>)
      ensures this.debounce == debounce && this.lastUpdate == lastUpdate
    {
      this.debounce := debounce;
      this.lastUpdate := lastUpdate;
    }

    function LastOrZero(): int
      reads this
    {
      if lastUpdate.Some? then lastUpdate.value else 0
    }

    function DebounceOrDefault(): int
      reads this
    {
      if debounce.Some? then debounce.value else DefaultDebounceMs
    }

    /** `update_live_markdown`: `setdefault` records 0 for a missing
        `last_update` even when nothing is rendered. */
    method UpdateLiveMarkdown(text: string, nodeTitle: string, now: int, cursor: bool)
      returns (frame: Option<Frame>)
      modifies this
      ensures debounce == old(debounce)
      ensures frame.Some? <==> Debounce(old(LastOrZero()), DebounceOrDefault(), now).render
      ensures frame.Some? ==> frame.value == LiveFrame(LiveText(text, cursor), nodeTitle)
      ensures lastUpdate == Some(Debounce(old(LastOrZero()), DebounceOrDefault(), now).lastUpdate)
    {
      if lastUpdate.None? {
        lastUpdate := Some(0);
      }
      if now - lastUpdate.value > DebounceOrDefault() {
        frame := Some(LiveFrame(LiveText(text, cursor), nodeTitle));
        lastUpdate := Some(now);
      } else {
        frame := None;
      }
    }
  }
}

/** The Gmail tools of src/agents/gmail/tools.py: how a tool result from
    the Gmail MCP server is flattened into text, and the three tools. The
    MCP session is an input. */
module GmailTools {
  import opened Text
  import opened Json

  /** One content item: its `text` and `data` attributes (`JNull` when
      absent). */
  datatype Item = Item(text: Json, data: Json)

  /** The value kept for an item: `text`, unless falsy, else `data`. */
  function Value(c: Item): Json {
    Or(c.text, c.data)
  }

  /** The parts the flattening loop collects: `str(val)` for every item
      whose value is truthy, in order. */
  function Parts(items: seq<Item>, show: Json -> string): seq<string> {
    if items == [] then []
    else
      var init := Parts(items[..|items| - 1], show);
      var v := Value(items[|items| - 1]);
      if Truthy(v) then init + [Str(v, show)] else init
  }

  /** The text a call returns. */
  function Flattened(items: seq<Item>, show: Json -> string): string {
    var parts := Parts(items, show);
    if parts == [] then "OK" else Join(parts, "\n")
  }

  /** How many items carry a truthy value. */
  function Kept(items: seq<Item>): nat {
    if items == [] then 0
    else Kept(items[..|items| - 1]) + (if Truthy(Value(items[|items| - 1])) then 1 else 0)
  }

  /** One part per item with a truthy value, in order: a truthy `text`
      wins over `data`, and an item whose both are falsy leaves nothing. */
  lemma {:induction false} PartsShape(items: seq<Item>, show: Json -> string)
    ensures |Parts(items, show)| == Kept(items)
    ensures Kept(items) == 0 <==> forall k :: 0 <= k < |items| ==> !Truthy(Value(items[k]))
    ensures items != [] && Truthy(items[|items| - 1].text) && items[|items| - 1].text.JStr? ==>
      Parts(items, show)[|Parts(items, show)| - 1] == items[|items| - 1].text.s
  {
    if items != [] {
      var init := items[..|items| - 1];
      PartsShape(init, show);
      if Kept(items) == 0 {
        forall k | 0 <= k < |items| ensures !Truthy(Value(items[k])) {
          if k < |items| - 1 {
            assert items[k] == init[k];
          }
        }
      }
    }
  }

  /** A result with no item of truthy value reads "OK"; otherwise the
      parts joined by line breaks. */
  lemma FlattenedCases(items: seq<Item>, show: Json -> string)
    ensures (forall k :: 0 <= k < |items| ==> !Truthy(Value(items[k]))) ==> Flattened(items, show) == "OK"
    ensures (exists k :: 0 <= k < |items| && Truthy(Value(items[k]))) ==>
      Flattened(items, show) == Join(Parts(items, show), "\n")
  {
    PartsShape(items, show);
  }

  /** The loop of `_run` and `_arun` over `result.content or []` (`None`
      is an absent content list). */
  method Flatten(content: Option<seq<Item>>, show: Json -> string) returns (r: string)
    ensures r == Flattened(if content.Some? then content.value else [], show)
  {
    var items := if content.Some? then content.value else [];
    var parts: seq<string> := [];
    var i := 0;
    while i < |items|
      invariant 0 <= i <= |items|
      invariant parts == Parts(items[..i], show)
    {
      var val := Or(items[i].text, items[i].data);
      if Truthy(val) {
        parts := parts + [Str(val, show)];
      }
      assert items[..i + 1][..i] == items[..i];
      i := i + 1;
    }
    assert items[..i] == items;
    r := if parts != [] then Join(parts, "\n") else "OK";
  }

  /** A `GmailMCPTool`: the tool name the model sees, its description and
      the MCP tool it calls. */
  datatype GmailTool = GmailTool(name: string, description: string, mcpToolName: string)

  /** `make_gmail_tools`. */
  function MakeGmailTools(): (ts: seq<GmailTool>)
    ensures |ts| == 3
  {
    [ GmailTool("gmail_search", "Recherche d'emails. Paramètres: query (str).", "search_emails"),
      GmailTool("gmail_read", "Lecture d'un email par id. Paramètres: id (str).", "read_email"),
      GmailTool("gmail_send_email", "Envoi d'email. Paramètres: to, subject, body, cc?, bcc?", "send_email") ]
  }

  /** The MCP tool a named tool calls, if the name is one of them. */
  function McpFor(ts: seq<GmailTool>, name: string): Option<string> {
    if ts == [] then None
    else if ts[0].name == name then Some(ts[0].mcpToolName)
    else McpFor(ts[1..], name)
  }

  /** The three tools have distinct names and call search_emails,
      read_email and send_email; no other name is served. */
  lemma GmailToolMapping(name: string)
    ensures McpFor(MakeGmailTools(), "gmail_search") == Some("search_emails")
    ensures McpFor(MakeGmailTools(), "gmail_read") == Some("read_email")
    ensures McpFor(MakeGmailTools(), "gmail_send_email") == Some("send_email")
    ensures name !in {"gmail_search", "gmail_read", "gmail_send_email"} ==> McpFor(MakeGmailTools(), name) == None
  {
    var ts := MakeGmailTools();
    assert ts[1..][1..][1..] == [];
    if name !in {"gmail_search", "gmail_read", "gmail_send_email"} {
      assert ts[0].name != name && ts[1..][0].name != name && ts[1..][1..][0].name != name;
      assert McpFor(ts, name) == McpFor(ts[1..], name) == McpFor(ts[1..][1..], name) == McpFor(ts[1..][1..][1..], name);
    }
  }
}

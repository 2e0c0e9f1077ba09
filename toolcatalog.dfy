/** The tool listing of src/utils/tools.py: the registry's tool names and the
    Markdown catalog handed to the model. */
module ToolCatalog {
  import opened Text

  /** One argument schema of `tool.args`: a dict, described by whether its
      "type" key is present (with the value's text), whether its "default"
      is not `None` (with the value's `repr`) and its description ("" when
      missing or falsy); or any other value. */
  datatype ArgSpec = DictSpec(typ: Option<string>, default: Option<string>, description: string) | NonDict

  /** `tool.args`: the mapping in iteration order, or an exception raised
      while reading it. */
  datatype Args = ArgsOk(entries: seq<(string, ArgSpec)>) | ArgsRaise

  /** A registered tool: its name, its description ("" when missing or
      empty) and its argument schema. */
  datatype Tool = Tool(name: string, description: string, args: Args)

  /** `get_tool_names`. */
  function ToolNames(tools: seq<Tool>): (names: seq<string>)
    ensures |names| == |tools|
    ensures forall i :: 0 <= i < |tools| ==> names[i] == tools[i].name
  {
    if tools == [] then [] else ToolNames(tools[..|tools| - 1]) + [tools[|tools| - 1].name]
  }

  const Header := "## Available Tools"
  const ArgumentsLine := "**Arguments :**"
  const NoDescription := "No description."

  function Described(t: Tool): string {
    if t.description == "" then NoDescription else t.description
  }

  /** The line that opens a tool's block. */
  function Heading(t: Tool): string {
    "\n### " + t.name + "\n" + Described(t)
  }

  /** The `meta` list of one dict argument. */
  function Meta(spec: ArgSpec): seq<string>
    requires spec.DictSpec?
  {
    (if spec.typ.Some? then ["type=" + spec.typ.value] else [])
    + (if spec.default.Some? then ["default=" + spec.default.value] else [])
  }

  function MetaText(spec: ArgSpec): string
    requires spec.DictSpec?
  {
    if Meta(spec) == [] then "" else " (" + Join(Meta(spec), ", ") + ")"
  }

  /** The line of one dict argument. */
  function ArgLine(arg: string, spec: ArgSpec): string
    requires spec.DictSpec?
  {
    "- `" + arg + "`" + MetaText(spec) + (if spec.description != "" then " : " + spec.description else "")
  }

  /** The lines of an argument mapping: one per dict spec, in order. */
  function ArgLines(entries: seq<(string, ArgSpec)>): seq<string> {
    if entries == [] then []
    else
      var (arg, spec) := entries[|entries| - 1];
      ArgLines(entries[..|entries| - 1]) + (if spec.DictSpec? then [ArgLine(arg, spec)] else [])
  }

  /** Every line a tool contributes. */
  function ToolBlock(t: Tool): seq<string> {
    [Heading(t)]
    + (match t.args
       case ArgsRaise => []
       case ArgsOk(entries) => if entries == [] then [] else [ArgumentsLine] + ArgLines(entries))
  }

  /** The concatenation of `f` over `xs`, in order. */
  function ConcatMap<T, U>(xs: seq<T>, f: T -> seq<U>): seq<U> {
    if xs == [] then [] else ConcatMap(xs[..|xs| - 1], f) + f(xs[|xs| - 1])
  }

  /** The blocks of a tool list, in order. */
  function Blocks(tools: seq<Tool>): seq<string> {
    ConcatMap(tools, ToolBlock)
  }

  function CatalogLines(tools: seq<Tool>): seq<string> {
    [Header] + Blocks(tools)
  }

  /** `get_tools_catalog`'s result. */
  function Catalog(tools: seq<Tool>): string {
    Join(CatalogLines(tools), "\n")
  }

  /** `get_tools_catalog`: one pass over the tools appending to `lines`,
      then the join. */
  method BuildCatalog(tools: seq<Tool>) returns (catalog: string)
    ensures catalog == Catalog(tools)
  {
    var lines := [Header];
    var i := 0;
    while i < |tools|
      invariant 0 <= i <= |tools|
      invariant lines == [Header] + Blocks(tools[..i])
    {
      assert tools[..i + 1][..i] == tools[..i];
      lines := AppendToolBlock(lines, tools[i]);
      i := i + 1;
    }
    assert tools[..i] == tools;
    catalog := Join(lines, "\n");
  }

  /** One iteration of the outer loop: the heading, then, inside the `try`,
      the arguments header and the argument lines. */
  method AppendToolBlock(lines: seq<string>, t: Tool) returns (out: seq<string>)
    ensures out == lines + ToolBlock(t)
  {
    out := lines + [Heading(t)];
    match t.args {
      case ArgsRaise =>
      case ArgsOk(entries) =>
        if entries != [] {
          out := AppendArgLines(out + [ArgumentsLine], entries);
        }
    }
  }

  /** The inner loop over `args_schema.items()`. */
  method AppendArgLines(lines: seq<string>, entries: seq<(string, ArgSpec)>) returns (out: seq<string>)
    ensures out == lines + ArgLines(entries)
  {
    out := lines;
    var j := 0;
    while j < |entries|
      invariant 0 <= j <= |entries|
      invariant out == lines + ArgLines(entries[..j])
    {
      var (arg, spec) := entries[j];
      assert entries[..j + 1][..j] == entries[..j];
      if spec.DictSpec? {
        out := out + [ArgLine(arg, spec)];
      }
      j := j + 1;
    }
    assert entries[..j] == entries;
  }

  /** The catalog opens with the header line. */
  lemma CatalogStartsWithHeader(tools: seq<Tool>)
    ensures StartsWith(Catalog(tools), Header)
  {
    JoinStartsWith(CatalogLines(tools), "\n");
  }

  /** The concatenation over consecutive lists concatenates. */
  lemma {:induction false} ConcatMapAppend<T, U>(a: seq<T>, b: seq<T>, f: T -> seq<U>)
    ensures ConcatMap(a + b, f) == ConcatMap(a, f) + ConcatMap(b, f)
    decreases |b|
  {
    if b == [] {
      assert a + b == a;
    } else {
      var b0 := b[..|b| - 1];
      ConcatMapAppend(a, b0, f);
      var ab := a + b;
      assert ab[..|ab| - 1] == a + b0;
      assert ab[|ab| - 1] == b[|b| - 1];
    }
  }

  /** Element k's part sits between the parts of the elements before it
      and those after it. */
  lemma ConcatMapAt<T, U>(xs: seq<T>, k: nat, f: T -> seq<U>)
    requires k < |xs|
    ensures ConcatMap(xs, f) == ConcatMap(xs[..k], f) + f(xs[k]) + ConcatMap(xs[k + 1..], f)
  {
    var pre, rest, t := xs[..k], xs[k + 1..], xs[k];
    assert xs == pre + ([t] + rest);
    ConcatMapAppend(pre, [t] + rest, f);
    ConcatMapAppend([t], rest, f);
    assert [t][..0] == [];
    var a, b, c := ConcatMap(pre, f), f(t), ConcatMap(rest, f);
    assert ConcatMap([t], f) == b;
    assert ConcatMap(xs, f) == a + (b + c);
    assert a + (b + c) == a + b + c;
  }

  /** Tool k's block sits, whole, after the blocks of the tools before it
      and before the blocks of the tools after it: one block per tool, in
      registry order. */
  lemma BlockOfEachTool(tools: seq<Tool>, k: nat)
    requires k < |tools|
    ensures CatalogLines(tools)
      == [Header] + Blocks(tools[..k]) + ToolBlock(tools[k]) + Blocks(tools[k + 1..])
  {
    ConcatMapAt(tools, k, ToolBlock);
  }

  /** Every argument line starts with "- `", and an argument mapping gives
      one line per dict spec and none for any other value. */
  lemma {:induction false} ArgLinesShape(entries: seq<(string, ArgSpec)>)
    ensures forall l :: l in ArgLines(entries) ==> StartsWith(l, "- `")
    ensures |ArgLines(entries)| <= |entries|
    ensures (forall e :: e in entries ==> e.1.NonDict?) ==> ArgLines(entries) == []
    ensures (forall e :: e in entries ==> e.1.DictSpec?) ==> |ArgLines(entries)| == |entries|
  {
    if entries != [] {
      var init := entries[..|entries| - 1];
      ArgLinesShape(init);
      assert forall e :: e in init ==> e in entries;
    }
  }

  /** A tool's block is its heading followed by "**Arguments :**" and the
      argument lines exactly when the mapping could be read and is
      non-empty; otherwise the heading alone, even when reading it raised. */
  lemma ArgumentsLineIff(t: Tool)
    ensures ArgumentsLine in ToolBlock(t) <==> t.args.ArgsOk? && t.args.entries != []
    ensures ToolBlock(t)[0] == Heading(t)
    ensures !(t.args.ArgsOk? && t.args.entries != []) ==> ToolBlock(t) == [Heading(t)]
  {
    assert Heading(t) != ArgumentsLine by { assert Heading(t)[0] == '\n'; }
    if t.args.ArgsOk? && t.args.entries != [] {
      ArgLinesShape(t.args.entries);
      assert ToolBlock(t) == [Heading(t), ArgumentsLine] + ArgLines(t.args.entries);
      assert ToolBlock(t)[1] == ArgumentsLine;
    }
  }

  /** The heading shows the description, or "No description." when it is
      empty. */
  lemma HeadingShowsDescription(t: Tool)
    ensures StartsWith(Heading(t), "\n### " + t.name + "\n")
    ensures t.description != "" ==> EndsWith(Heading(t), t.description)
    ensures t.description == "" ==> EndsWith(Heading(t), NoDescription)
  {
    var h := Heading(t);
    var p := "\n### " + t.name + "\n";
    assert h[..|p|] == p;
    assert h[|h| - |Described(t)|..] == Described(t);
  }

  /** An argument line carries the parenthesised meta only when a type is
      present or the default is not `None`, and " : desc" only when the
      description is non-empty. */
  lemma ArgLineParts(arg: string, spec: ArgSpec)
    requires spec.DictSpec?
    ensures StartsWith(ArgLine(arg, spec), "- `" + arg + "`")
    ensures MetaText(spec) == "" <==> spec.typ.None? && spec.default.None?
    ensures spec.description != "" ==> EndsWith(ArgLine(arg, spec), " : " + spec.description)
    ensures spec.description == "" ==> ArgLine(arg, spec) == "- `" + arg + "`" + MetaText(spec)
  {
    var l := ArgLine(arg, spec);
    var p := "- `" + arg + "`";
    assert l[..|p|] == p;
    if spec.description != "" {
      var q := " : " + spec.description;
      assert l[|l| - |q|..] == q;
    }
  }
}

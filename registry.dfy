/**
  The server's tool registry and request dispatch: the combined tool list,
  the `tools/list` response and the `tools/call` handler that finds a tool
  by name, awaits its handler once and wraps the outcome in a text envelope.
*/
module Registry {
  import opened Wrappers
  import opened Json
  import opened Outcomes

  /** A tool's `inputSchema`; its `type` is always `'object'`. */
  datatype InputSchema = InputSchema(properties: seq<Field>, required: Option<seq<string>>)

  /** A registered tool. The handler is opaque: it maps the raw `arguments` to an outcome. */
  datatype Tool = Tool(
    name: string,
    description: string,
    inputSchema: InputSchema,
    handler: Option<Json> -> Outcome<Json>)

  /** What `tools/list` announces of a tool: everything but its handler. */
  datatype Descriptor = Descriptor(name: string, description: string, inputSchema: InputSchema)

  /** A `tools/call` request after the protocol layer has decoded it. */
  datatype Request = Request(name: string, arguments: Option<Json>)

  /** One content item of a call result; `kind` is the item's `type` field. */
  datatype Content = Content(kind: string, text: string)

  /** A call result envelope; `isError` is absent on success. */
  datatype CallToolResult = CallToolResult(content: seq<Content>, isError: Option<bool>)

  /** What the request handler gives the protocol layer: a result, or an exception it raised. */
  datatype Reply = Answer(result: CallToolResult) | Raised(error: Thrown)

  // ---------------------------------------------------------------------------
  // registry and listing

  /** `allTools`: the five provider groups, one after another, each in its own order. */
  function AllTools(linear: seq<Tool>, supabase: seq<Tool>, vercel: seq<Tool>,
                    scaffolding: seq<Tool>, generator: seq<Tool>): (r: seq<Tool>)
    ensures |r| == |linear| + |supabase| + |vercel| + |scaffolding| + |generator|
    ensures var a := |linear|; var b := a + |supabase|; var c := b + |vercel|; var d := c + |scaffolding|;
      && r[..a] == linear && r[a..b] == supabase && r[b..c] == vercel
      && r[c..d] == scaffolding && r[d..] == generator
  {
    var r := linear + supabase + vercel + scaffolding + generator;
    var a := |linear|;
    var b := a + |supabase|;
    var c := b + |vercel|;
    var d := c + |scaffolding|;
    assert r[..a] == linear;
    assert r[a..b] == supabase;
    assert r[b..c] == vercel;
    assert r[c..d] == scaffolding;
    assert r[d..] == generator;
    r
  }

  function Describe(t: Tool): Descriptor {
    Descriptor(t.name, t.description, t.inputSchema)
  }

  /** The `tools/list` response: every tool in registry order, without its handler. */
  function ListTools(tools: seq<Tool>): (r: seq<Descriptor>)
    ensures |r| == |tools|
    ensures forall i :: 0 <= i < |tools| ==>
      r[i].name == tools[i].name && r[i].description == tools[i].description
      && r[i].inputSchema == tools[i].inputSchema
  {
    seq(|tools|, i requires 0 <= i < |tools| => Describe(tools[i]))
  }

  // ---------------------------------------------------------------------------
  // lookup

  function FindFrom(tools: seq<Tool>, name: string, from: nat): (r: Option<nat>)
    requires from <= |tools|
    ensures r.Some? ==>
      && from <= r.value < |tools| && tools[r.value].name == name
      && forall j :: from <= j < r.value ==> tools[j].name != name
    ensures r.None? ==> forall j :: from <= j < |tools| ==> tools[j].name != name
    decreases |tools| - from
  {
    if from == |tools| then None
    else if tools[from].name == name then Some(from)
    else FindFrom(tools, name, from + 1)
  }

  /** `allTools.find(t => t.name === name)`, as an index: the first tool with that name. */
  function FindTool(tools: seq<Tool>, name: string): (r: Option<nat>)
    ensures r.Some? ==>
      && r.value < |tools| && tools[r.value].name == name
      && forall j :: 0 <= j < r.value ==> tools[j].name != name
    ensures r.None? <==> forall j :: 0 <= j < |tools| ==> tools[j].name != name
  {
    FindFrom(tools, name, 0)
  }

  // ---------------------------------------------------------------------------
  // dispatch

  /** The payload of a failure envelope: `{ error: message }`. */
  function ErrorPayload(message: string): Json {
    JObj([Field("error", JStr(message))])
  }

  /** The catch block's message: the `Error`'s own message, else a fixed text. */
  function FailureMessage(t: Thrown): string {
    MessageOr(t, "Unknown error occurred")
  }

  /** The uniform envelope for a settled handler call. */
  function Envelope(o: Outcome<Json>, stringify: Stringify): (r: CallToolResult)
    ensures |r.content| == 1 && r.content[0].kind == "text"
    ensures o.Returned? ==> r.content[0].text == stringify(o.value, 2) && r.isError == None
    ensures o.Threw? ==>
      && r.content[0].text == stringify(ErrorPayload(FailureMessage(o.thrown)), 2)
      && r.isError == Some(true)
  {
    match o
    case Returned(v) => CallToolResult([Content("text", stringify(v, 2))], None)
    case Threw(t) => CallToolResult([Content("text", stringify(ErrorPayload(FailureMessage(t)), 2))], Some(true))
  }

  /**
    The `tools/call` handler. An unknown name raises `Tool "<name>" not
    found` and touches no handler; otherwise the first tool of that name is
    called once with the request's arguments exactly as they came, and its
    outcome is wrapped. There is no schema check and no defaulting here.
  */
  function CallTool(tools: seq<Tool>, req: Request, stringify: Stringify): (r: Reply)
    ensures FindTool(tools, req.name).None? ==>
      r == Raised(ErrorValue("Tool \"" + req.name + "\" not found"))
    ensures FindTool(tools, req.name).Some? ==>
      var t := tools[FindTool(tools, req.name).value];
      r == Answer(Envelope(t.handler(req.arguments), stringify))
  {
    match FindTool(tools, req.name)
    case None => Raised(ErrorValue("Tool \"" + req.name + "\" not found"))
    case Some(i) => Answer(Envelope(tools[i].handler(req.arguments), stringify))
  }

  // ---------------------------------------------------------------------------
  // properties

  /**
    The names `tools/list` announces are exactly the names `tools/call`
    resolves, and the first listed entry of a name describes the tool that
    is called.
  */
  lemma ListedIffCallable(tools: seq<Tool>, name: string)
    ensures (exists i :: 0 <= i < |ListTools(tools)| && ListTools(tools)[i].name == name)
      <==> FindTool(tools, name).Some?
    ensures FindTool(tools, name).Some? ==>
      var i := FindTool(tools, name).value;
      ListTools(tools)[i] == Describe(tools[i])
      && forall j :: 0 <= j < i ==> ListTools(tools)[j].name != name
  {
    var l := ListTools(tools);
    if exists i :: 0 <= i < |l| && l[i].name == name {
      var i :| 0 <= i < |l| && l[i].name == name;
      assert tools[i].name == name;
    }
  }

  /**
    Duplicate names are not rejected, and the earliest tool of a name shadows
    every later one: replacing a later tool of the same name by any other
    tool of that name changes no call's reply.
  */
  lemma {:induction false} LaterDuplicateShadowed(tools: seq<Tool>, i: nat, j: nat, other: Tool,
                                                  req: Request, stringify: Stringify)
    requires i < j < |tools| && tools[i].name == tools[j].name == other.name
    ensures CallTool(tools[j := other], req, stringify) == CallTool(tools, req, stringify)
  {
    var tools' := tools[j := other];
    assert forall k :: 0 <= k < |tools| && k != j ==> tools'[k] == tools[k];
  }

  /** Without duplicate names, a call reaches exactly the tool of that name. */
  lemma UniqueNamesResolve(tools: seq<Tool>, name: string, k: nat)
    requires forall a, b :: 0 <= a < b < |tools| ==> tools[a].name != tools[b].name
    requires k < |tools|
    ensures FindTool(tools, name) == Some(k) <==> tools[k].name == name
  {
  }

  /**
    A caller that can parse what `stringify` prints gets back, from the one
    text item, either the handler's value or the `{ error }` payload, and the
    `isError` flag says which.
  */
  lemma EnvelopeRecoverable(o: Outcome<Json>, stringify: Stringify, parse: string -> Option<Json>)
    requires forall v :: parse(stringify(v, 2)) == Some(v)
    ensures var r := Envelope(o, stringify);
      && (r.isError == None ==> o.Returned? && parse(r.content[0].text) == Some(o.value))
      && (r.isError != None ==>
            o.Threw? && parse(r.content[0].text) == Some(ErrorPayload(FailureMessage(o.thrown))))
  {
  }
}

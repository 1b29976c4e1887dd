/**
  The `generate_context_doc` tool: a `CONTEXT.md` text with the project's
  name and description, one line per technology, six stack slots filled from
  the technologies by first match, an API reference, and a fixed tail of
  workflow, conventions, commands and links.
*/
module ContextDoc {
  import opened Wrappers
  import opened Json
  import Text

  /** One entry of `apis`; `methods` may be absent. */
  datatype Api = Api(name: string, endpoint: string, methods: Option<seq<string>>)

  /** The arguments of `generate_context_doc`; `apis` defaults to no API. */
  datatype ContextArgs = ContextArgs(projectName: string, techStack: seq<string>, description: string, apis: Option<seq<Api>>)

  // ---------------------------------------------------------------------------
  // the technology list

  function TechLines(techStack: seq<string>): (r: seq<string>)
    ensures |r| == |techStack| && forall i :: 0 <= i < |r| ==> r[i] == "- " + techStack[i]
  {
    seq(|techStack|, i requires 0 <= i < |techStack| => "- " + techStack[i])
  }

  /** `techStack.map(tech => `- ${tech}`).join('\n')` */
  function TechList(techStack: seq<string>): string {
    Text.Join(TechLines(techStack), "\n")
  }

  /** One line per technology, in order, each a `- ` bullet; no technology gives an empty list. */
  lemma TechListLines(techStack: seq<string>)
    requires forall i :: 0 <= i < |techStack| ==> '\n' !in techStack[i]
    ensures |techStack| == 0 ==> TechList(techStack) == ""
    ensures |techStack| > 0 ==> Text.Split(TechList(techStack), '\n') == TechLines(techStack)
  {
    var lines := TechLines(techStack);
    if |techStack| > 0 {
      forall i | 0 <= i < |lines| ensures '\n' !in lines[i] {
        assert lines[i] == "- " + techStack[i];
      }
      Text.SplitJoin(lines, '\n');
    }
  }

  // ---------------------------------------------------------------------------
  // the stack slots

  /** `names.some(n => t.includes(n))` */
  predicate Mentions(t: string, names: seq<string>) {
    exists k :: 0 <= k < |names| && Text.Contains(t, names[k])
  }

  /** `techStack[i]` is the first technology that mentions one of `names`. */
  predicate FirstMention(techStack: seq<string>, names: seq<string>, i: int) {
    && 0 <= i < |techStack| && Mentions(techStack[i], names)
    && forall j :: 0 <= j < i ==> !Mentions(techStack[j], names)
  }

  /** `techStack.find(t => names.some(n => t.includes(n)))` */
  function FindTech(techStack: seq<string>, names: seq<string>): (r: Option<string>)
    ensures r.None? <==> forall i :: 0 <= i < |techStack| ==> !Mentions(techStack[i], names)
    ensures r.Some? ==> exists i :: FirstMention(techStack, names, i) && techStack[i] == r.value
    decreases |techStack|
  {
    if |techStack| == 0 then None
    else if Mentions(techStack[0], names) then Some(techStack[0])
    else
      var r := FindTech(techStack[1..], names);
      assert r.Some? ==> exists i :: FirstMention(techStack[1..], names, i) && techStack[1..][i] == r.value;
      if r.Some? then
        var i :| FirstMention(techStack[1..], names, i) && techStack[1..][i] == r.value;
        assert FirstMention(techStack, names, i + 1);
        r
      else r
  }

  /** A name list whose every name is a real substring to look for. */
  predicate NonEmptyNames(names: seq<string>) {
    forall k :: 0 <= k < |names| ==> names[k] != ""
  }

  /** `techStack.find(...) || fallback`: the first match, or the fallback when there is none (or it is empty). */
  function StackSlot(techStack: seq<string>, names: seq<string>, fallback: string): (r: string)
    ensures (forall i :: 0 <= i < |techStack| ==> !Mentions(techStack[i], names)) ==> r == fallback
    ensures NonEmptyNames(names) && (exists i :: 0 <= i < |techStack| && Mentions(techStack[i], names)) ==>
      exists i :: FirstMention(techStack, names, i) && r == techStack[i]
  {
    match FindTech(techStack, names)
    case None => fallback
    case Some(t) =>
      if t != "" then t
      else
        MentionsNonEmpty(t, names);
        fallback
  }

  /** With non-empty names, only a non-empty text can mention one. */
  lemma MentionsNonEmpty(t: string, names: seq<string>)
    ensures NonEmptyNames(names) && Mentions(t, names) ==> t != ""
  {
    if NonEmptyNames(names) && Mentions(t, names) {
      var k :| 0 <= k < |names| && Text.Contains(t, names[k]);
      assert |names[k]| > 0;
    }
  }

  const FrontendFrameworks := ["React", "Vue", "Angular", "Svelte"]
  const StateLibraries := ["Redux", "Zustand", "MobX", "Pinia"]
  const StylingTools := ["Tailwind", "CSS", "Styled Components", "Emotion"]
  const Runtimes := ["Node.js", "Deno", "Bun"]
  const ServerFrameworks := ["Express", "Fastify", "Hapi", "Koa"]
  const Databases := ["PostgreSQL", "MySQL", "MongoDB", "SQLite"]

  const NotSpecified := "Not specified"

  /** The six slots of the architecture overview. */
  datatype Stack = Stack(framework: string, state: string, styling: string, runtime: string, server: string, database: string)

  function DetectStack(techStack: seq<string>): Stack {
    Stack(
      StackSlot(techStack, FrontendFrameworks, NotSpecified),
      StackSlot(techStack, StateLibraries, "Local state"),
      StackSlot(techStack, StylingTools, "CSS Modules"),
      StackSlot(techStack, Runtimes, NotSpecified),
      StackSlot(techStack, ServerFrameworks, NotSpecified),
      StackSlot(techStack, Databases, NotSpecified))
  }

  // ---------------------------------------------------------------------------
  // the API reference

  /** `api.methods?.join(', ') || 'GET'` */
  function MethodsText(methods: Option<seq<string>>): (r: string)
    ensures r != ""
    ensures methods.None? || methods.value == [] || methods.value == [""] ==> r == "GET"
    ensures methods.Some? && methods.value != [] && methods.value != [""] ==> r == Text.Join(methods.value, ", ")
  {
    match methods
    case None => "GET"
    case Some(ms) =>
      Text.JoinEmpty(ms, ", ");
      var joined := Text.Join(ms, ", ");
      if joined != "" then joined else "GET"
  }

  /** Every listed method is named in the methods text, whenever some non-empty method is listed. */
  lemma MethodsListed(ms: seq<string>, i: nat)
    requires i < |ms| && ms[i] != ""
    ensures Text.Contains(MethodsText(Some(ms)), ms[i])
  {
    assert ms != [] && ms != [""];
    Text.JoinContains(ms, ", ", i);
  }

  function ApiBlock(api: Api): string {
    "\n### " + api.name + "\n- **Endpoint**: " + api.endpoint + "\n- **Methods**: " + MethodsText(api.methods) + "\n"
  }

  function ApiBlocks(apis: seq<Api>): (r: seq<string>)
    ensures |r| == |apis| && forall i :: 0 <= i < |r| ==> r[i] == ApiBlock(apis[i])
  {
    seq(|apis|, i requires 0 <= i < |apis| => ApiBlock(apis[i]))
  }

  const NoApis := "No APIs documented yet."

  /** The API reference: the blocks joined by line breaks, or the no-API line. */
  function ApiSection(apis: seq<Api>): string {
    if |apis| > 0 then Text.Join(ApiBlocks(apis), "\n") else NoApis
  }

  /**
    The no-API line stands there exactly when there is no API; otherwise
    every API's block is in the reference.
  */
  lemma ApiSectionCases(apis: seq<Api>)
    ensures ApiSection(apis) == NoApis <==> |apis| == 0
    ensures forall i :: 0 <= i < |apis| ==> Text.Contains(ApiSection(apis), ApiBlock(apis[i]))
  {
    if |apis| > 0 {
      var blocks := ApiBlocks(apis);
      assert blocks[0][0] == '\n';
      Text.JoinHead(blocks, "\n");
      assert NoApis[0] == 'N';
      forall i | 0 <= i < |apis| ensures Text.Contains(ApiSection(apis), ApiBlock(apis[i])) {
        Text.JoinContains(blocks, "\n", i);
      }
    }
  }

  // ---------------------------------------------------------------------------
  // the document

  const ArchitectureLead := "This project follows a modern architecture pattern" + " with clear separation of concerns:"

  /** One labelled line of the architecture overview. */
  function SlotLine(heading: string, value: string): string {
    "- **" + heading + "**: " + value + "\n"
  }

  function ContextHead(projectName: string, description: string): string {
    "# " + projectName + " - Context Document\n\n## Overview\n" + description + "\n\n"
  }

  function TechSection(techList: string): string {
    "## Technology Stack\n" + techList + "\n\n"
  }

  function FrontendLines(stack: Stack): string {
    "### Frontend\n" + SlotLine("Framework", stack.framework) + SlotLine("State Management", stack.state)
    + SlotLine("Styling", stack.styling) + "\n"
  }

  function BackendLines(stack: Stack): string {
    "### Backend\n" + SlotLine("Runtime", stack.runtime) + SlotLine("Framework", stack.server)
    + SlotLine("Database", stack.database) + "\n"
  }

  function StackSection(stack: Stack): string {
    "## Architecture Overview\n" + ArchitectureLead + "\n\n" + FrontendLines(stack) + BackendLines(stack)
  }

  function ApiReference(apiSection: string): string {
    "## API Reference\n" + apiSection + "\n\n"
  }

  /** The document's layout around its variable parts and its fixed tail. */
  function ContextAround(projectName: string, description: string, techList: string, stack: Stack, apiSection: string, tail: string): string {
    ContextHead(projectName, description) + TechSection(techList) + StackSection(stack) + ApiReference(apiSection) + tail
  }

  /** The document opens with the title line and ends with the fixed tail. */
  lemma AroundEnds(projectName: string, description: string, techList: string, stack: Stack, apiSection: string, tail: string)
    ensures "# " + projectName + " - Context Document\n\n" <= ContextAround(projectName, description, techList, stack, apiSection, tail)
    ensures var d := ContextAround(projectName, description, techList, stack, apiSection, tail);
      |tail| <= |d| && d[|d| - |tail|..] == tail
  {
    var title := "# " + projectName + " - Context Document\n\n";
    assert title <= ContextHead(projectName, description);
    FiveEnds(ContextHead(projectName, description), TechSection(techList), StackSection(stack), ApiReference(apiSection), tail);
  }

  /** What the technology list contains, the document contains. */
  lemma AroundTech(projectName: string, description: string, techList: string, stack: Stack, apiSection: string, tail: string, y: string)
    requires Text.Contains(techList, y)
    ensures Text.Contains(ContextAround(projectName, description, techList, stack, apiSection, tail), y)
  {
    Text.ContainsExtend("## Technology Stack\n", techList, "\n\n", y);
    InFive(ContextHead(projectName, description), TechSection(techList), StackSection(stack), ApiReference(apiSection), tail, y);
  }

  /** What the API reference contains, the document contains. */
  lemma AroundApi(projectName: string, description: string, techList: string, stack: Stack, apiSection: string, tail: string, y: string)
    requires Text.Contains(apiSection, y)
    ensures Text.Contains(ContextAround(projectName, description, techList, stack, apiSection, tail), y)
  {
    Text.ContainsExtend("## API Reference\n", apiSection, "\n\n", y);
    InFive(ContextHead(projectName, description), TechSection(techList), StackSection(stack), ApiReference(apiSection), tail, y);
  }

  /** A line of the frontend or backend block is a line of the document. */
  lemma AroundStackLine(projectName: string, description: string, techList: string, stack: Stack, apiSection: string, tail: string, y: string)
    requires Text.Contains(FrontendLines(stack), y) || Text.Contains(BackendLines(stack), y)
    ensures Text.Contains(ContextAround(projectName, description, techList, stack, apiSection, tail), y)
  {
    InFive("## Architecture Overview\n", ArchitectureLead, "\n\n", FrontendLines(stack), BackendLines(stack), y);
    InFive(ContextHead(projectName, description), TechSection(techList), StackSection(stack), ApiReference(apiSection), tail, y);
  }

  /** Each of the six slots stands on its own labelled line. */
  lemma AroundStack(projectName: string, description: string, techList: string, stack: Stack, apiSection: string, tail: string)
    ensures var d := ContextAround(projectName, description, techList, stack, apiSection, tail);
      && Text.Contains(d, SlotLine("Framework", stack.framework))
      && Text.Contains(d, SlotLine("State Management", stack.state))
      && Text.Contains(d, SlotLine("Styling", stack.styling))
      && Text.Contains(d, SlotLine("Runtime", stack.runtime))
      && Text.Contains(d, SlotLine("Framework", stack.server))
      && Text.Contains(d, SlotLine("Database", stack.database))
  {
    var f1, f2, f3 := SlotLine("Framework", stack.framework), SlotLine("State Management", stack.state), SlotLine("Styling", stack.styling);
    var b1, b2, b3 := SlotLine("Runtime", stack.runtime), SlotLine("Framework", stack.server), SlotLine("Database", stack.database);
    InFive("### Frontend\n", f1, f2, f3, "\n", f1);
    InFive("### Frontend\n", f1, f2, f3, "\n", f2);
    InFive("### Frontend\n", f1, f2, f3, "\n", f3);
    InFive("### Backend\n", b1, b2, b3, "\n", b1);
    InFive("### Backend\n", b1, b2, b3, "\n", b2);
    InFive("### Backend\n", b1, b2, b3, "\n", b3);
    AroundStackLine(projectName, description, techList, stack, apiSection, tail, f1);
    AroundStackLine(projectName, description, techList, stack, apiSection, tail, f2);
    AroundStackLine(projectName, description, techList, stack, apiSection, tail, f3);
    AroundStackLine(projectName, description, techList, stack, apiSection, tail, b1);
    AroundStackLine(projectName, description, techList, stack, apiSection, tail, b2);
    AroundStackLine(projectName, description, techList, stack, apiSection, tail, b3);
  }

  /** What one of five pieces contains, their concatenation contains. */
  lemma InFive(p0: string, p1: string, p2: string, p3: string, p4: string, y: string)
    requires Text.Contains(p0, y) || Text.Contains(p1, y) || Text.Contains(p2, y) || Text.Contains(p3, y) || Text.Contains(p4, y)
    ensures Text.Contains(p0 + p1 + p2 + p3 + p4, y)
  {
    var s := p0 + p1 + p2 + p3 + p4;
    if Text.Contains(p0, y) {
      Text.ContainsExtend("", p0, p1 + p2 + p3 + p4, y);
      assert "" + p0 + (p1 + p2 + p3 + p4) == s;
    } else if Text.Contains(p1, y) {
      Text.ContainsExtend(p0, p1, p2 + p3 + p4, y);
      assert p0 + p1 + (p2 + p3 + p4) == s;
    } else if Text.Contains(p2, y) {
      Text.ContainsExtend(p0 + p1, p2, p3 + p4, y);
      assert p0 + p1 + p2 + (p3 + p4) == s;
    } else if Text.Contains(p3, y) {
      Text.ContainsExtend(p0 + p1 + p2, p3, p4, y);
    } else {
      Text.ContainsExtend(p0 + p1 + p2 + p3, p4, "", y);
      assert p0 + p1 + p2 + p3 + p4 + "" == s;
    }
  }

  /** Five pieces begin with the first and end with the last. */
  lemma FiveEnds(p0: string, p1: string, p2: string, p3: string, p4: string)
    ensures p0 <= p0 + p1 + p2 + p3 + p4
    ensures var s := p0 + p1 + p2 + p3 + p4; s[|s| - |p4|..] == p4
  {
  }

  /** The sections from Development Workflow to the closing note. */
  function ContextTail(): string {
    "## Development Workflow\n"
    + "1. **Setup**: Clone repository and install dependencies\n"
    + "2. **Development**: Run development server with hot reloading\n"
    + "3. **Testing**: Run unit and integration tests\n"
    + "4. **Build**: Create production build\n"
    + "5. **Deploy**: Deploy to production environment\n"
    + "\n"
    + "## Key Patterns & Conventions\n"
    + "- **Code Style**: Follows project-specific ESLint and Prettier configurations\n"
    + "- **Git Workflow**: Feature branch workflow with PR reviews\n"
    + "- **Testing**: Jest for unit tests, Cypress/Playwright for E2E\n"
    + "- **Documentation**: Inline JSDoc comments and README files\n"
    + "\n"
    + "## Environment Variables\n"
    + "```env\n"
    + "# Add your environment variables here\n"
    + "NODE_ENV=development\n"
    + "API_URL=http://localhost:3000/api\n"
    + "DATABASE_URL=\n"
    + "```\n"
    + "\n"
    + "## Common Commands\n"
    + "```bash\n"
    + "# Development\n"
    + "npm run dev\n"
    + "\n"
    + "# Testing\n"
    + "npm test\n"
    + "npm run test:watch\n"
    + "npm run test:coverage\n"
    + "\n"
    + "# Building\n"
    + "npm run build\n"
    + "npm run preview\n"
    + "\n"
    + "# Linting\n"
    + "npm run lint\n"
    + "npm run lint:fix\n"
    + "```\n"
    + "\n"
    + "## Troubleshooting\n"
    + "### Common Issues\n"
    + "1. **Dependencies**: Run `npm install` if you encounter module errors\n"
    + "2. **Environment**: Ensure all required environment variables are set\n"
    + "3. **Ports**: Check if required ports are available\n"
    + "\n"
    + "## Additional Resources\n"
    + "- [Project Documentation](./docs)\n"
    + "- [API Documentation](./docs/api)\n"
    + "- [Contributing Guidelines](./CONTRIBUTING.md)\n"
    + "- [Architecture Decision Records](./docs/adr)\n"
    + "\n"
    + "---\n"
    + "*This context document is automatically generated and should be kept up to date with project changes.*\n"
  }

  /** The document of `args` over a given fixed tail. */
  function ContextDocWith(args: ContextArgs, tail: string): string {
    ContextAround(args.projectName, args.description, TechList(args.techStack), DetectStack(args.techStack),
      ApiSection(args.apis.GetOr([])), tail)
  }

  function GenerateContextDoc(args: ContextArgs): string {
    ContextDocWith(args, ContextTail())
  }

  /** The document is titled with the project's name and ends with its fixed tail. */
  lemma DocEnds(args: ContextArgs, tail: string)
    ensures "# " + args.projectName + " - Context Document\n\n" <= ContextDocWith(args, tail)
    ensures var d := ContextDocWith(args, tail); |tail| <= |d| && d[|d| - |tail|..] == tail
  {
    AroundEnds(args.projectName, args.description, TechList(args.techStack), DetectStack(args.techStack),
      ApiSection(args.apis.GetOr([])), tail);
  }

  /** Every technology is listed as a bullet of the document. */
  lemma DocListsTech(args: ContextArgs, tail: string, i: nat)
    requires i < |args.techStack|
    ensures Text.Contains(ContextDocWith(args, tail), "- " + args.techStack[i])
  {
    var lines := TechLines(args.techStack);
    Text.JoinContains(lines, "\n", i);
    AroundTech(args.projectName, args.description, TechList(args.techStack), DetectStack(args.techStack),
      ApiSection(args.apis.GetOr([])), tail, lines[i]);
  }

  /** Every API has its block in the document, and with no API the document says so. */
  lemma DocListsApis(args: ContextArgs, tail: string)
    ensures var apis := args.apis.GetOr([]);
      forall i :: 0 <= i < |apis| ==> Text.Contains(ContextDocWith(args, tail), ApiBlock(apis[i]))
    ensures |args.apis.GetOr([])| == 0 ==> Text.Contains(ContextDocWith(args, tail), NoApis)
  {
    var apis := args.apis.GetOr([]);
    ApiSectionCases(apis);
    forall i | 0 <= i < |apis| ensures Text.Contains(ContextDocWith(args, tail), ApiBlock(apis[i])) {
      AroundApi(args.projectName, args.description, TechList(args.techStack), DetectStack(args.techStack),
        ApiSection(apis), tail, ApiBlock(apis[i]));
    }
    if |apis| == 0 {
      Text.ContainsSelf(NoApis);
      AroundApi(args.projectName, args.description, TechList(args.techStack), DetectStack(args.techStack),
        ApiSection(apis), tail, NoApis);
    }
  }

  /** The six detected slots each stand on their labelled line of the document. */
  lemma DocStack(args: ContextArgs, tail: string)
    ensures var d, st := ContextDocWith(args, tail), DetectStack(args.techStack);
      && Text.Contains(d, SlotLine("Framework", st.framework))
      && Text.Contains(d, SlotLine("State Management", st.state))
      && Text.Contains(d, SlotLine("Styling", st.styling))
      && Text.Contains(d, SlotLine("Runtime", st.runtime))
      && Text.Contains(d, SlotLine("Framework", st.server))
      && Text.Contains(d, SlotLine("Database", st.database))
  {
    AroundStack(args.projectName, args.description, TechList(args.techStack), DetectStack(args.techStack),
      ApiSection(args.apis.GetOr([])), tail);
  }

  /** The `generate_context_doc` result for a built document. */
  function ContextResult(args: ContextArgs, content: string): Json {
    JObj([Field("success", JBool(true)), Field("content", JStr(content)), Field("filename", JStr("CONTEXT.md")),
      Field("projectName", JStr(args.projectName)), Field("techStack", JArr(Strings(args.techStack)))])
  }

  /** The `generate_context_doc` result. */
  function ContextDocResult(args: ContextArgs): Json {
    ContextResult(args, GenerateContextDoc(args))
  }

  /** The result carries the document, its file name, and echoes the project's name and technologies. */
  lemma ContextEcho(args: ContextArgs, content: string)
    ensures ContextResult(args, content).JObj?
    ensures var fs := ContextResult(args, content).fields;
      && Get(fs, "success") == Some(JBool(true))
      && Get(fs, "content") == Some(JStr(content))
      && Get(fs, "filename") == Some(JStr("CONTEXT.md"))
  {
    var fs := ContextResult(args, content).fields;
    GetFirstAt(fs, 0);
    GetFirstAt(fs, 1);
    GetFirstAt(fs, 2);
  }

  /** The result echoes the project's name and its technologies in order. */
  lemma ContextEchoArgs(args: ContextArgs, content: string)
    ensures var fs := ContextResult(args, content).fields;
      && Get(fs, "projectName") == Some(JStr(args.projectName))
      && Get(fs, "techStack") == Some(JArr(Strings(args.techStack)))
  {
    var fs := ContextResult(args, content).fields;
    GetFirstAt(fs, 3);
    GetFirstAt(fs, 4);
  }
}

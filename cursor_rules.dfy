/**
  The `generate_cursor_rules` tool: a `.cursorrules` text built from a fixed
  template with the prompt on its second line, a framework block put in place
  of the first `// Additional context-specific rules`, and an emphasis block
  for the chosen patterns appended at the end.
*/
module CursorRules {
  import opened Wrappers
  import opened Json
  import Text

  // ---------------------------------------------------------------------------
  // the template

  /** The first line and the start of the second, which ends with the prompt. */
  const RulesHead := "// Cursor Rules Configuration\n// Generated based on: "

  /** The text the framework block replaces. */
  const Marker := "// Additional context-specific rules"

  /** The `projectRules` object and its export, between the prompt's line and the marker's line. */
  function ProjectRulesText(): string {
    "\n"
    + "// Project-specific coding standards and patterns\n"
    + "const projectRules = {\n"
    + "  // Language and Framework Preferences\n"
    + "  languages: {\n"
    + "    primary: [\"TypeScript\", \"JavaScript\"],\n"
    + "    markup: [\"JSX\", \"TSX\"],\n"
    + "    styling: [\"CSS\", \"SCSS\", \"Tailwind CSS\"],\n"
    + "    config: [\"JSON\", \"YAML\", \"TOML\"]\n"
    + "  },\n"
    + "\n"
    + "  // Code Style Guidelines\n"
    + "  codeStyle: {\n"
    + "    // Naming Conventions\n"
    + "    naming: {\n"
    + "      components: \"PascalCase\",        // MyComponent\n"
    + "      functions: \"camelCase\",          // myFunction\n"
    + "      constants: \"UPPER_SNAKE_CASE\",   // MY_CONSTANT\n"
    + "      interfaces: \"PascalCase\",        // IMyInterface or MyInterface\n"
    + "      types: \"PascalCase\",            // MyType\n"
    + "      enums: \"PascalCase\",            // MyEnum\n"
    + "      files: {\n"
    + "        components: \"PascalCase\",      // MyComponent.tsx\n"
    + "        utils: \"camelCase\",           // myUtil.ts\n"
    + "        hooks: \"camelCase\",           // useMyHook.ts\n"
    + "        constants: \"camelCase\",       // constants.ts\n"
    + "      }\n"
    + "    },\n"
    + "\n"
    + "    // TypeScript Configuration\n"
    + "    typescript: {\n"
    + "      strict: true,\n"
    + "      noImplicitAny: true,\n"
    + "      strictNullChecks: true,\n"
    + "      noUnusedLocals: true,\n"
    + "      noUnusedParameters: true,\n"
    + "      exactOptionalPropertyTypes: true,\n"
    + "      noUncheckedIndexedAccess: true,\n"
    + "      preferConst: true,\n"
    + "      preferInterface: false,  // Use type aliases over interfaces\n"
    + "      functionReturnTypes: \"explicit\", // Always define return types\n"
    + "    },\n"
    + "\n"
    + "    // Import Organization\n"
    + "    imports: {\n"
    + "      order: [\n"
    + "        \"react\",                     // React imports first\n"
    + "        \"third-party\",               // External packages\n"
    + "        \"absolute\",                  // Absolute imports (@/...)\n"
    + "        \"relative\",                  // Relative imports (../, ./)\n"
    + "        \"styles\",                    // Style imports\n"
    + "        \"types\",                     // Type imports\n"
    + "      ],\n"
    + "      grouping: true,\n"
    + "      alphabetize: true,\n"
    + "      removeUnused: true,\n"
    + "    }\n"
    + "  },\n"
    + "\n"
    + "  // Component Patterns\n"
    + "  componentPatterns: {\n"
    + "    // React Component Structure\n"
    + "    structure: {\n"
    + "      order: [\n"
    + "        \"imports\",\n"
    + "        \"types/interfaces\",\n"
    + "        \"constants\",\n"
    + "        \"component-definition\",\n"
    + "        \"hooks\",\n"
    + "        \"event-handlers\",\n"
    + "        \"render-helpers\",\n"
    + "        \"main-render\",\n"
    + "        \"exports\"\n"
    + "      ],\n"
    + "      defaultExport: false,          // Prefer named exports\n"
    + "      propsInterface: true,          // Always define props interface\n"
    + "      children: \"React.ReactNode\",   // Type for children prop\n"
    + "    },\n"
    + "\n"
    + "    // State Management\n"
    + "    stateManagement: {\n"
    + "      localState: \"useState\",\n"
    + "      complexState: \"useReducer\",\n"
    + "      globalState: \"zustand\",        // or context, redux, etc.\n"
    + "      asyncState: \"react-query\",     // or swr\n"
    + "    },\n"
    + "\n"
    + "    // Styling Approach\n"
    + "    styling: {\n"
    + "      approach: \"tailwind\",          // tailwind, css-modules, styled-components\n"
    + "      classNameUtil: \"clsx\",         // Utility for conditional classes\n"
    + "      responsiveFirst: true,\n"
    + "      darkMode: \"class\",            // or media\n"
    + "    }\n"
    + "  },\n"
    + "\n"
    + "  // Code Organization\n"
    + "  projectStructure: {\n"
    + "    folders: {\n"
    + "      \"/components\": \"Reusable UI components\",\n"
    + "      \"/features\": \"Feature-specific components and logic\",\n"
    + "      \"/hooks\": \"Custom React hooks\",\n"
    + "      \"/utils\": \"Utility functions\",\n"
    + "      \"/lib\": \"Third-party library configurations\",\n"
    + "      \"/types\": \"TypeScript type definitions\",\n"
    + "      \"/constants\": \"Application constants\",\n"
    + "      \"/contexts\": \"React context providers\",\n"
    + "      \"/services\": \"API and external service integrations\",\n"
    + "    },\n"
    + "    \n"
    + "    fileNaming: {\n"
    + "      tests: \"{name}.test.{ext}\",\n"
    + "      stories: \"{name}.stories.{ext}\",\n"
    + "      types: \"{name}.types.ts\",\n"
    + "      constants: \"{name}.constants.ts\",\n"
    + "    }\n"
    + "  },\n"
    + "\n"
    + "  // Best Practices\n"
    + "  bestPractices: {\n"
    + "    // Error Handling\n"
    + "    errorHandling: {\n"
    + "      useErrorBoundaries: true,\n"
    + "      logErrors: true,\n"
    + "      userFriendlyMessages: true,\n"
    + "      fallbackUI: true,\n"
    + "    },\n"
    + "\n"
    + "    // Performance\n"
    + "    performance: {\n"
    + "      memoization: {\n"
    + "        useMemo: \"expensive-calculations\",\n"
    + "        useCallback: \"stable-references\",\n"
    + "        React.memo: \"expensive-renders\",\n"
    + "      },\n"
    + "      lazyLoading: true,\n"
    + "      codeSpitting: true,\n"
    + "      imageOptimization: true,\n"
    + "    },\n"
    + "\n"
    + "    // Security\n"
    + "    security: {\n"
    + "      sanitizeInput: true,\n"
    + "      validateData: true,\n"
    + "      useHTTPS: true,\n"
    + "      secureStorage: true,\n"
    + "      envVariables: \"never-commit\",\n"
    + "    },\n"
    + "\n"
    + "    // Accessibility\n"
    + "    accessibility: {\n"
    + "      semanticHTML: true,\n"
    + "      ariaLabels: true,\n"
    + "      keyboardNavigation: true,\n"
    + "      screenReaderSupport: true,\n"
    + "      colorContrast: \"WCAG-AA\",\n"
    + "    }\n"
    + "  },\n"
    + "\n"
    + "  // Testing Strategy\n"
    + "  testing: {\n"
    + "    framework: \"jest\",\n"
    + "    components: \"react-testing-library\",\n"
    + "    e2e: \"cypress\",\n"
    + "    coverage: {\n"
    + "      statements: 80,\n"
    + "      branches: 80,\n"
    + "      functions: 80,\n"
    + "      lines: 80,\n"
    + "    },\n"
    + "    patterns: {\n"
    + "      unitTests: \"test-behavior-not-implementation\",\n"
    + "      integrationTests: \"test-user-flows\",\n"
    + "      mockStrategy: \"mock-external-dependencies\",\n"
    + "    }\n"
    + "  },\n"
    + "\n"
    + "  // Development Workflow\n"
    + "  workflow: {\n"
    + "    git: {\n"
    + "      commitConvention: \"conventional-commits\",\n"
    + "      branchNaming: \"feature|fix|chore/description\",\n"
    + "      pullRequests: \"require-reviews\",\n"
    + "    },\n"
    + "    codeReview: {\n"
    + "      required: true,\n"
    + "      checkList: [\n"
    + "        \"Code follows style guide\",\n"
    + "        \"Tests are included\",\n"
    + "        \"Documentation is updated\",\n"
    + "        \"No console.logs\",\n"
    + "        \"Error handling is implemented\",\n"
    + "      ]\n"
    + "    },\n"
    + "    preCommit: {\n"
    + "      prettier: true,\n"
    + "      eslint: true,\n"
    + "      typecheck: true,\n"
    + "      tests: \"related-only\",\n"
    + "    }\n"
    + "  },\n"
    + "\n"
    + "  // Documentation\n"
    + "  documentation: {\n"
    + "    required: [\n"
    + "      \"Complex functions\",\n"
    + "      \"Public APIs\",\n"
    + "      \"Component props\",\n"
    + "      \"Non-obvious logic\",\n"
    + "    ],\n"
    + "    format: \"JSDoc\",\n"
    + "    examples: true,\n"
    + "    updateWithCode: true,\n"
    + "  }\n"
    + "};\n"
    + "\n"
    + "// Export configuration for Cursor\n"
    + "module.exports = projectRules;\n"
  }

  /** The rest of the marker's line and the lines after it. */
  function RulesClosing(): string {
    " based on prompt\n"
    + "const contextRules = {\n"
    + "  // Add specific rules based on the prompt context\n"
    + "  // These would be dynamically generated based on the input\n"
    + "};\n"
    + "\n"
    + "// Example usage comments\n"
    + "/**\n"
    + " * How to use these rules in your project:\n"
    + " * \n"
    + " * 1. Save this file as .cursorrules in your project root\n"
    + " * 2. Cursor will automatically pick up these rules\n"
    + " * 3. The AI assistant will follow these patterns\n"
    + " * 4. Customize further based on your specific needs\n"
    + " * \n"
    + " * These rules help maintain consistency across your codebase\n"
    + " * and ensure that AI-generated code follows your standards.\n"
    + " */\n"
  }

  /**
    The template's layout: head, prompt, a line break, the middle text, a
    line break, the marker and the closing text.
  */
  function RulesAround(prompt: string, middle: string, closing: string): string {
    RulesHead + prompt + "\n" + middle + "\n" + Marker + closing
  }

  function GenerateCursorRules(prompt: string): string {
    RulesAround(prompt, ProjectRulesText(), RulesClosing())
  }

  lemma HeadFacts()
    ensures |RulesHead| == 53 && RulesHead[29] == '\n' && RulesHead[32] == ' ' && RulesHead[33] == 'G'
    ensures forall i :: 32 <= i < |RulesHead| ==> RulesHead[i] != '/'
  {
  }

  lemma MarkerFacts()
    ensures |Marker| == 36 && Marker[0] == '/' && Marker[1] == '/'
    ensures '\n' !in Marker && 'G' !in Marker
  {
    MarkerLacksBreak();
    MarkerLacksCapitalG();
  }

  lemma MarkerLacksBreak()
    ensures '\n' !in Marker
  {
  }

  lemma MarkerLacksCapitalG()
    ensures 'G' !in Marker
  {
  }

  /** No occurrence of the marker starts inside the head, whatever follows it. */
  lemma HeadNoMarker(s: string, j: nat)
    requires RulesHead <= s && j < |RulesHead|
    ensures !Text.OccursAt(s, Marker, j)
  {
    HeadFacts();
    MarkerFacts();
    if j <= 29 {
      assert s[29] == '\n';
      Text.CharBreaks(s, Marker, j, 29);
    } else if j == 30 {
      assert s[33] == 'G';
      Text.CharBreaks(s, Marker, j, 33);
    } else if j == 31 {
      assert s[32] == ' ';
    } else {
      assert s[j] == RulesHead[j];
    }
  }

  /**
    In `h + a + "\n" + b + "\n" + m + c`, where no occurrence of `m` starts
    inside `h`, `m` has no line break and neither `a` nor `b` holds `m`, the
    first occurrence of `m` is the one after `b`'s line.
  */
  lemma FirstAfterLines(h: string, a: string, b: string, m: string, c: string)
    requires '\n' !in m && |m| > 0
    requires forall j :: 0 <= j < |h| ==> !Text.OccursAt(h + a + "\n" + b + "\n" + m + c, m, j)
    requires !Text.Contains(a, m) && !Text.Contains(b, m)
    ensures Text.IndexOf(h + a + "\n" + b + "\n" + m + c, m) == Some(|h| + |a| + |b| + 2)
  {
    var t := h + a + "\n" + b + "\n" + m + c;
    var p := |h|;
    var q := p + |a|;
    var r := q + 1 + |b|;
    assert t[p..q] == a && t[q] == '\n';
    assert t == (h + a + "\n") + b + ("\n" + m + c);
    assert t[q + 1..r] == b && t[r] == '\n';
    assert t[r + 1..r + 1 + |m|] == m;
    forall j | 0 <= j < r + 1
      ensures !Text.OccursAt(t, m, j)
    {
      if j < p {
      } else if j + |m| <= q {
        if Text.OccursAt(t, m, j) {
          Text.OccursWithin(t, m, j, p, q);
        }
      } else if j <= q {
        Text.CharBreaks(t, m, j, q);
      } else if j + |m| <= r {
        if Text.OccursAt(t, m, j) {
          Text.OccursWithin(t, m, j, q + 1, r);
        }
      } else {
        Text.CharBreaks(t, m, j, r);
      }
    }
    Text.FirstOccurrence(t, m, r + 1);
  }

  /**
    When neither the prompt nor the middle text holds the marker, the first
    marker is the template's own, right after the middle text's line.
  */
  lemma MarkerPlaced(prompt: string, middle: string, closing: string)
    requires !Text.Contains(prompt, Marker) && !Text.Contains(middle, Marker)
    ensures Text.IndexOf(RulesAround(prompt, middle, closing), Marker)
      == Some(|RulesHead| + |prompt| + |middle| + 2)
  {
    var t := RulesAround(prompt, middle, closing);
    MarkerFacts();
    assert RulesHead <= t;
    forall j | 0 <= j < |RulesHead|
      ensures !Text.OccursAt(t, Marker, j)
    {
      HeadNoMarker(t, j);
    }
    FirstAfterLines(RulesHead, prompt, middle, Marker, closing);
  }

  /**
    In `h + a + rest`, where no occurrence of `m` starts inside `h` and `a`
    holds `m`, the first occurrence of `m` is `a`'s first one.
  */
  lemma FirstInside(h: string, a: string, rest: string, m: string)
    requires forall j :: 0 <= j < |h| ==> !Text.OccursAt(h + a + rest, m, j)
    requires Text.Contains(a, m)
    ensures Text.IndexOf(h + a + rest, m) == Some(|h| + Text.IndexOf(a, m).value)
  {
    var t := h + a + rest;
    var p := |h|;
    var i := Text.IndexOf(a, m).value;
    assert t[p..p + |a|] == a;
    assert t[p + i..p + i + |m|] == a[i..i + |m|];
    forall j | p <= j < p + i
      ensures !Text.OccursAt(t, m, j)
    {
      if Text.OccursAt(t, m, j) {
        Text.OccursWithin(t, m, j, p, p + |a|);
      }
    }
    Text.FirstOccurrence(t, m, p + i);
  }

  /**
    When the prompt holds the marker, the first marker is the prompt's own:
    its position is the prompt's first occurrence, shifted by the head.
  */
  lemma MarkerInPrompt(prompt: string, middle: string, closing: string)
    requires Text.Contains(prompt, Marker)
    ensures Text.IndexOf(RulesAround(prompt, middle, closing), Marker)
      == Some(|RulesHead| + Text.IndexOf(prompt, Marker).value)
  {
    var rest := "\n" + middle + "\n" + Marker + closing;
    var t := RulesAround(prompt, middle, closing);
    AroundRegroup(RulesHead, prompt, "\n", middle, Marker, closing);
    assert RulesHead <= t;
    forall j | 0 <= j < |RulesHead|
      ensures !Text.OccursAt(t, Marker, j)
    {
      HeadNoMarker(t, j);
    }
    FirstInside(RulesHead, prompt, rest, Marker);
  }

  // ---------------------------------------------------------------------------
  // the framework block

  function ReactBlock(): string {
    "\n" + ReactHooks() + ReactComponents()
  }

  function ReactHooks(): string {
    "    hooks: {\n"
    + "      customHookPrefix: \"use\",\n"
    + "      rulesOfHooks: true,\n"
    + "      exhaustiveDeps: true,\n"
    + "    },\n"
  }

  function ReactComponents(): string {
    "    components: {\n"
    + "      functionalOnly: true,\n"
    + "      propsDestructuring: true,\n"
    + "      defaultProps: \"avoid\",\n"
    + "    },"
  }

  function NextBlock(): string {
    "\n" + NextRouting() + NextOptimization()
  }

  function NextRouting(): string {
    "    routing: {\n"
    + "      appDirectory: true,\n"
    + "      dynamicImports: true,\n"
    + "      apiRoutes: \"/app/api\",\n"
    + "    },\n"
  }

  function NextOptimization(): string {
    "    optimization: {\n"
    + "      imageComponent: true,\n"
    + "      fontOptimization: true,\n"
    + "      scriptStrategy: \"afterInteractive\",\n"
    + "    },"
  }

  function VueBlock(): string {
    "\n" + VueComponents() + VueReactivity()
  }

  function VueComponents(): string {
    "    components: {\n"
    + "      scriptSetup: true,\n"
    + "      singleFileComponents: true,\n"
    + "      compositionAPI: true,\n"
    + "    },\n"
  }

  function VueReactivity(): string {
    "    reactivity: {\n"
    + "      refSugar: false,\n"
    + "      computedGetterOnly: true,\n"
    + "    },"
  }

  /**
    The block for a framework: a comment with its name in capitals, a
    `<framework>Rules` object, and in its `patterns` the sub-block of
    `react`, `nextjs` or `vue` when the name is exactly one of those.
  */
  function FrameworkRules(framework: string): string {
    FrameworkShell(Text.Upper(framework), framework, PatternSlots(framework))
  }

  /** The three slots of `patterns`, each holding a sub-block or nothing. */
  function PatternSlots(framework: string): string {
    Slot(framework == "react", ReactBlock()) + SlotGap
    + Slot(framework == "nextjs", NextBlock()) + SlotGap
    + Slot(framework == "vue", VueBlock())
  }

  /** `${cond ? `...` : ''}` */
  function Slot(cond: bool, block: string): string {
    if cond then block else ""
  }

  /** What separates two slots: a line break and the indentation of the next one. */
  const SlotGap := "\n    "

  function ShellOpen(upper: string, name: string): string {
    "\n// " + upper + "-specific Rules\n" + RulesDeclaration(name)
    + PatternsIntro
  }

  /** The comment line and the opening of `patterns`. */
  const PatternsIntro := "\n" + PatternsComment + "\n  patterns: {\n    "

  const PatternsComment := "  // Framework-specific" + " patterns and best practices"

  /** The line that opens the framework's object. */
  function RulesDeclaration(name: string): string {
    "const " + name + "Rules = {"
  }

  const ShellClose := "\n  }\n};\n"

  function FrameworkShell(upper: string, name: string, patterns: string): string {
    ShellOpen(upper, name) + patterns + ShellClose
  }

  /** The slots when none of them is filled: an empty `patterns` object. */
  const EmptySlots := SlotGap + SlotGap

  /** Each of three slots is contained in their joined text. */
  lemma SlotsContain(a: string, b: string, c: string, gap: string)
    ensures Text.Contains(a + gap + b + gap + c, a)
    ensures Text.Contains(a + gap + b + gap + c, b)
    ensures Text.Contains(a + gap + b + gap + c, c)
  {
    Text.ContainsSelf(a);
    Text.ContainsLeft(a, a, gap);
    Text.ContainsLeft(a + gap, a, b);
    Text.ContainsLeft(a + gap + b, a, gap);
    Text.ContainsLeft(a + gap + b + gap, a, c);
    Text.ContainsMiddle(a + gap, b, gap);
    Text.ContainsLeft(a + gap + b + gap, b, c);
    Text.ContainsSelf(c);
    Text.ContainsRight(a + gap + b + gap, c, c);
  }

  lemma NoSlots(gap: string)
    ensures "" + gap + "" + gap + "" == gap + gap
  {
  }

  /** Every framework block declares `<framework>Rules`. */
  lemma FrameworkDeclares(framework: string)
    ensures Text.Contains(FrameworkRules(framework), RulesDeclaration(framework))
  {
    var open := ShellOpen(Text.Upper(framework), framework);
    var slots := PatternSlots(framework);
    var before := "\n// " + Text.Upper(framework) + "-specific Rules\n";
    Text.ContainsMiddle(before, RulesDeclaration(framework), PatternsIntro);
    Text.ContainsLeft(open, RulesDeclaration(framework), slots);
    Text.ContainsLeft(open + slots, RulesDeclaration(framework), ShellClose);
  }

  /**
    `react`, `nextjs` and `vue` each get their own sub-block, and any other
    name leaves every slot empty.
  */
  lemma FrameworkSubBlocks(framework: string)
    ensures framework == "react" ==> Text.Contains(FrameworkRules(framework), ReactBlock())
    ensures framework == "nextjs" ==> Text.Contains(FrameworkRules(framework), NextBlock())
    ensures framework == "vue" ==> Text.Contains(FrameworkRules(framework), VueBlock())
    ensures framework !in {"react", "nextjs", "vue"} ==>
      FrameworkRules(framework) == FrameworkShell(Text.Upper(framework), framework, EmptySlots)
  {
    var open := ShellOpen(Text.Upper(framework), framework);
    var slots := PatternSlots(framework);
    var r := Slot(framework == "react", ReactBlock());
    var n := Slot(framework == "nextjs", NextBlock());
    var v := Slot(framework == "vue", VueBlock());
    SlotsContain(r, n, v, SlotGap);
    Text.ContainsExtend(open, slots, ShellClose, r);
    Text.ContainsExtend(open, slots, ShellClose, n);
    Text.ContainsExtend(open, slots, ShellClose, v);
    NoSlots(SlotGap);
  }

  /** Capitals keep `$` and the pattern characters where they were. */
  lemma UpperNoPattern(s: string)
    requires Text.NoPattern(s)
    ensures Text.NoPattern(Text.Upper(s))
  {
    var u := Text.Upper(s);
    forall i | 0 <= i < |u| - 1 && u[i] == '$' ensures !Text.IsPatternChar(u[i + 1]) {
      assert s[i] == '$';
    }
  }

  lemma ReactHooksLine1() ensures '$' !in "    hooks: {\n" { }
  lemma ReactHooksLine2() ensures '$' !in "      customHookPrefix: \"use\",\n" { }
  lemma ReactHooksLine3() ensures '$' !in "      rulesOfHooks: true,\n" { }
  lemma ReactHooksLine4() ensures '$' !in "      exhaustiveDeps: true,\n" { }
  lemma ReactHooksLine5() ensures '$' !in "    },\n" { }

  lemma ReactHooksPlain()
    ensures '$' !in ReactHooks()
  {
    ReactHooksLine1();
    ReactHooksLine2();
    ReactHooksLine3();
    ReactHooksLine4();
    ReactHooksLine5();
  }

  lemma ReactComponentsLine1() ensures '$' !in "    components: {\n" { }
  lemma ReactComponentsLine2() ensures '$' !in "      functionalOnly: true,\n" { }
  lemma ReactComponentsLine3() ensures '$' !in "      propsDestructuring: true,\n" { }
  lemma ReactComponentsLine4() ensures '$' !in "      defaultProps: \"avoid\",\n" { }
  lemma ReactComponentsLine5() ensures '$' !in "    }," { }

  lemma ReactComponentsPlain()
    ensures '$' !in ReactComponents()
  {
    ReactComponentsLine1();
    ReactComponentsLine2();
    ReactComponentsLine3();
    ReactComponentsLine4();
    ReactComponentsLine5();
  }

  lemma NextRoutingLine1() ensures '$' !in "    routing: {\n" { }
  lemma NextRoutingLine2() ensures '$' !in "      appDirectory: true,\n" { }
  lemma NextRoutingLine3() ensures '$' !in "      dynamicImports: true,\n" { }
  lemma NextRoutingLine4() ensures '$' !in "      apiRoutes: \"/app/api\",\n" { }
  lemma NextRoutingLine5() ensures '$' !in "    },\n" { }

  lemma NextRoutingPlain()
    ensures '$' !in NextRouting()
  {
    NextRoutingLine1();
    NextRoutingLine2();
    NextRoutingLine3();
    NextRoutingLine4();
    NextRoutingLine5();
  }

  lemma NextOptimizationLine1() ensures '$' !in "    optimization: {\n" { }
  lemma NextOptimizationLine2() ensures '$' !in "      imageComponent: true,\n" { }
  lemma NextOptimizationLine3() ensures '$' !in "      fontOptimization: true,\n" { }
  lemma NextOptimizationLine4() ensures '$' !in "      scriptStrategy: \"afterInteractive\",\n" { }
  lemma NextOptimizationLine5() ensures '$' !in "    }," { }

  lemma NextOptimizationPlain()
    ensures '$' !in NextOptimization()
  {
    NextOptimizationLine1();
    NextOptimizationLine2();
    NextOptimizationLine3();
    NextOptimizationLine4();
    NextOptimizationLine5();
  }

  lemma VueComponentsLine1() ensures '$' !in "    components: {\n" { }
  lemma VueComponentsLine2() ensures '$' !in "      scriptSetup: true,\n" { }
  lemma VueComponentsLine3() ensures '$' !in "      singleFileComponents: true,\n" { }
  lemma VueComponentsLine4() ensures '$' !in "      compositionAPI: true,\n" { }
  lemma VueComponentsLine5() ensures '$' !in "    },\n" { }

  lemma VueComponentsPlain()
    ensures '$' !in VueComponents()
  {
    VueComponentsLine1();
    VueComponentsLine2();
    VueComponentsLine3();
    VueComponentsLine4();
    VueComponentsLine5();
  }

  lemma VueReactivityLine1() ensures '$' !in "    reactivity: {\n" { }
  lemma VueReactivityLine2() ensures '$' !in "      refSugar: false,\n" { }
  lemma VueReactivityLine3() ensures '$' !in "      computedGetterOnly: true,\n" { }
  lemma VueReactivityLine4() ensures '$' !in "    }," { }

  lemma VueReactivityPlain()
    ensures '$' !in VueReactivity()
  {
    VueReactivityLine1();
    VueReactivityLine2();
    VueReactivityLine3();
    VueReactivityLine4();
  }

  lemma ReactPlain()
    ensures '$' !in ReactBlock()
  {
    ReactHooksPlain();
    ReactComponentsPlain();
  }

  lemma NextPlain()
    ensures '$' !in NextBlock()
  {
    NextRoutingPlain();
    NextOptimizationPlain();
  }

  lemma VuePlain()
    ensures '$' !in VueBlock()
  {
    VueComponentsPlain();
    VueReactivityPlain();
  }

  lemma CommentPlain()
    ensures '$' !in PatternsComment
  {
    assert '$' !in "  // Framework-specific";
    assert '$' !in " patterns and best practices";
  }

  lemma IntroPlain()
    ensures '$' !in PatternsIntro
  {
    CommentPlain();
    assert '$' !in "\n  patterns: {\n    ";
  }

  /** The shell adds no pattern of its own: each of its pieces meets the next at a plain character. */
  lemma ShellNoPattern(upper: string, name: string, patterns: string)
    requires Text.NoPattern(upper) && Text.NoPattern(name) && '$' !in patterns
    ensures Text.NoPattern(FrameworkShell(upper, name, patterns))
  {
    IntroPlain();
    var p1, p2, p3, p4 := "\n// ", "-specific Rules\n", "const ", "Rules = {";
    Text.NoDollarNoPattern(p1);
    Text.NoDollarNoPattern(p2);
    Text.NoDollarNoPattern(p3);
    Text.NoDollarNoPattern(p4);
    Text.NoDollarNoPattern(PatternsIntro);
    Text.NoDollarNoPattern(patterns);
    Text.NoDollarNoPattern(ShellClose);
    Text.NoPatternConcat(p3, name);
    Text.NoPatternConcat(p3 + name, p4);
    var decl := RulesDeclaration(name);
    assert decl[|decl| - 1] == '{';
    Text.NoPatternConcat(p1, upper);
    Text.NoPatternConcat(p1 + upper, p2);
    var head := p1 + upper + p2;
    assert head[|head| - 1] == '\n';
    Text.NoPatternConcat(head, decl);
    Text.NoPatternConcat(head + decl, PatternsIntro);
    var open := ShellOpen(upper, name);
    assert open[|open| - 1] == ' ';
    Text.NoPatternConcat(open, patterns);
    Text.NoPatternConcat(open + patterns, ShellClose);
  }

  /**
    A framework name without a `$` pattern gives a block without one, so
    `String.replace` inserts the block verbatim.
  */
  lemma FrameworkPlain(framework: string)
    requires Text.NoPattern(framework)
    ensures Text.NoPattern(FrameworkRules(framework))
  {
    UpperNoPattern(framework);
    ReactPlain();
    NextPlain();
    VuePlain();
    ShellNoPattern(Text.Upper(framework), framework, PatternSlots(framework));
  }

  /**
    `rulesContent.replace(marker, frameworkRules)` when `includeFramework` is
    truthy: the first marker gives way to the framework block.
  */
  function WithFramework(rules: string, includeFramework: Option<string>): string {
    if includeFramework.Some? && includeFramework.value != "" then
      Text.ReplaceFirst(rules, Marker, FrameworkRules(includeFramework.value))
    else rules
  }

  /** Replacing an occurrence that starts right after `h + a + "\n" + b + "\n"`. */
  lemma ReplaceAfterLines(h: string, a: string, b: string, m: string, c: string, x: string)
    requires Text.IndexOf(h + a + "\n" + b + "\n" + m + c, m) == Some(|h| + |a| + |b| + 2)
    requires Text.NoPattern(x)
    ensures Text.ReplaceFirst(h + a + "\n" + b + "\n" + m + c, m, x) == h + a + "\n" + b + "\n" + x + c
  {
    var t := h + a + "\n" + b + "\n" + m + c;
    var k := |h| + |a| + |b| + 2;
    Text.SubstitutionPlain(x, m, t[..k], t[k + |m|..]);
    assert t == (h + a + "\n" + b + "\n") + m + c;
    assert t[..k] == h + a + "\n" + b + "\n";
    assert t[k + |m|..] == c;
  }

  /** Replacing the first occurrence, which lies inside `a`, in `h + a + rest`. */
  lemma ReplaceInside(h: string, a: string, rest: string, m: string, x: string)
    requires Text.Contains(a, m)
    requires Text.IndexOf(h + a + rest, m) == Some(|h| + Text.IndexOf(a, m).value)
    requires Text.NoPattern(x)
    ensures Text.ReplaceFirst(h + a + rest, m, x) == h + Text.ReplaceFirst(a, m, x) + rest
  {
    var t := h + a + rest;
    var i := Text.IndexOf(a, m).value;
    var p := |h|;
    var after := a[i + |m|..];
    Text.SubstitutionPlain(x, m, t[..p + i], t[p + i + |m|..]);
    Text.SubstitutionPlain(x, m, a[..i], after);
    assert a == a[..i] + m + after;
    assert t == (h + a[..i]) + m + (after + rest);
    assert t[..p + i] == h + a[..i];
    assert t[p + i + |m|..] == after + rest;
    var inner := Text.ReplaceFirst(a, m, x);
    assert inner == a[..i] + x + after;
    assert Text.ReplaceFirst(t, m, x) == (h + a[..i]) + x + (after + rest);
    Regroup4(h, a[..i] + x + after, rest, a[..i], x, after);
  }

  lemma Regroup4(h: string, mid: string, rest: string, u: string, x: string, v: string)
    requires mid == u + x + v
    ensures (h + u) + x + (v + rest) == h + mid + rest
  {
  }

  /**
    With a prompt and middle text free of the marker, the framework block
    takes exactly the template marker's place; the text before and after it
    is untouched.
  */
  lemma FrameworkPlaced(prompt: string, middle: string, closing: string, framework: string)
    requires !Text.Contains(prompt, Marker) && !Text.Contains(middle, Marker)
    requires framework != "" && Text.NoPattern(framework)
    ensures WithFramework(RulesAround(prompt, middle, closing), Some(framework))
      == RulesHead + prompt + "\n" + middle + "\n" + FrameworkRules(framework) + closing
  {
    MarkerPlaced(prompt, middle, closing);
    FrameworkPlain(framework);
    ReplaceAfterLines(RulesHead, prompt, middle, Marker, closing, FrameworkRules(framework));
  }

  /**
    A prompt that holds the marker takes the framework block in its own
    line, and the template's marker stays as it was.
  */
  lemma FrameworkIntoPrompt(prompt: string, middle: string, closing: string, framework: string)
    requires Text.Contains(prompt, Marker)
    requires framework != "" && Text.NoPattern(framework)
    ensures WithFramework(RulesAround(prompt, middle, closing), Some(framework))
      == RulesAround(Text.ReplaceFirst(prompt, Marker, FrameworkRules(framework)), middle, closing)
  {
    var rest := "\n" + middle + "\n" + Marker + closing;
    var fr := FrameworkRules(framework);
    MarkerInPrompt(prompt, middle, closing);
    FrameworkPlain(framework);
    AroundRegroup(RulesHead, prompt, "\n", middle, Marker, closing);
    AroundRegroup(RulesHead, Text.ReplaceFirst(prompt, Marker, fr), "\n", middle, Marker, closing);
    ReplaceInside(RulesHead, prompt, rest, Marker, fr);
  }

  lemma AroundRegroup(h: string, p: string, nl: string, middle: string, m: string, c: string)
    ensures h + p + nl + middle + nl + m + c == h + p + (nl + middle + nl + m + c)
  {
  }

  // ---------------------------------------------------------------------------
  // the pattern emphasis

  /** A line that overrides one setting of `projectRules`. */
  function RuleOverride(section: string, key: string, value: string): string {
    "projectRules." + section + "." + key + " = " + value + ";"
  }

  const StrictLine := RuleOverride("typescript", "strict", "true")
  const ContrastLine := RuleOverride("bestPractices.accessibility", "colorContrast", "\"WCAG-AAA\"")
  const CoverageLine := RuleOverride("testing.coverage", "statements", "90")

  /** The emphasis block up to its first override line, with the pattern list as `JSON.stringify` lays it out. */
  function EmphasisHead(patterns: seq<string>, stringify: Stringify): string {
    "\n// Emphasized Patterns\nconst emphasizedPatterns = " + stringify(JArr(Strings(patterns)), 2)
    + ";\n\n// Apply additional strict rules based on patterns"
  }

  /** The emphasis block: its head, then one line per known pattern, empty when that pattern is not chosen. */
  function PatternEmphasis(patterns: seq<string>, stringify: Stringify): string {
    EmphasisHead(patterns, stringify)
    + "\n" + Slot("typescript-strict" in patterns, StrictLine)
    + "\n" + Slot("accessibility-first" in patterns, ContrastLine)
    + "\n" + Slot("test-driven" in patterns, CoverageLine) + "\n"
  }

  /**
    `rulesContent += '\n' + patternEmphasis` when patterns were chosen: the
    text changes exactly when there are patterns, and then only by what is
    appended after a line break.
  */
  function WithPatterns(rules: string, patterns: seq<string>, stringify: Stringify): (r: string)
    ensures |patterns| == 0 <==> r == rules
    ensures |patterns| > 0 ==> rules + "\n" <= r
  {
    if |patterns| > 0 then rules + "\n" + PatternEmphasis(patterns, stringify) else rules
  }

  lemma OverrideOneLine(section: string, key: string, value: string)
    requires '\n' !in section && '\n' !in key && '\n' !in value
    ensures '\n' !in RuleOverride(section, key, value)
  {
  }

  lemma StrictOneLine()
    ensures '\n' !in StrictLine
  {
    OverrideOneLine("typescript", "strict", "true");
  }

  lemma ContrastOneLine()
    ensures '\n' !in ContrastLine
  {
    OverrideOneLine("bestPractices.accessibility", "colorContrast", "\"WCAG-AAA\"");
  }

  lemma CoverageOneLine()
    ensures '\n' !in CoverageLine
  {
    OverrideOneLine("testing.coverage", "statements", "90");
  }

  /** The lines of `x + "\n" + a + "\n" + b + "\n" + c + "\n"` end with `a`, `b`, `c` and an empty line. */
  lemma LastLines(x: string, a: string, b: string, c: string)
    requires '\n' !in a && '\n' !in b && '\n' !in c
    ensures var ls := Text.Split(x + "\n" + a + "\n" + b + "\n" + c + "\n", '\n');
      |ls| >= 4 && ls[|ls| - 4..] == [a, b, c, ""]
  {
    var nl := '\n';
    Text.SplitNoSep(a, nl);
    Text.SplitNoSep(b, nl);
    Text.SplitNoSep(c, nl);
    Text.SplitNoSep("", nl);
    Text.SplitAppend(c, nl, "");
    Text.SplitAppend(b, nl, c + [nl] + "");
    Text.SplitAppend(a, nl, b + [nl] + (c + [nl] + ""));
    Text.SplitAppend(x, nl, a + [nl] + (b + [nl] + (c + [nl] + "")));
    NestLines(x, a, b, c, [nl]);
  }

  lemma NestLines(x: string, a: string, b: string, c: string, nl: string)
    ensures x + nl + a + nl + b + nl + c + nl == x + nl + (a + nl + (b + nl + (c + nl + "")))
  {
  }

  /** The lines of the text with an emphasis block of head `head` and override lines `a`, `b`, `c` appended. */
  lemma EmphasisLines(rules: string, head: string, a: string, b: string, c: string)
    requires '\n' !in a && '\n' !in b && '\n' !in c
    ensures var t := rules + "\n" + (head + "\n" + a + "\n" + b + "\n" + c + "\n");
      var ls := Text.Split(t, '\n');
      && |ls| >= 4 && ls[|ls| - 4] == a && ls[|ls| - 3] == b && ls[|ls| - 2] == c && ls[|ls| - 1] == ""
  {
    EmphasisRegroup(rules, head, a, b, c);
    LastLines(rules + "\n" + head, a, b, c);
    var ls := Text.Split(rules + "\n" + (head + "\n" + a + "\n" + b + "\n" + c + "\n"), '\n');
    assert ls[|ls| - 4..][0] == ls[|ls| - 4];
    assert ls[|ls| - 4..][1] == ls[|ls| - 3];
    assert ls[|ls| - 4..][2] == ls[|ls| - 2];
    assert ls[|ls| - 4..][3] == ls[|ls| - 1];
  }

  /**
    With patterns chosen, the last lines of the result hold, in order, the
    strict-TypeScript, colour-contrast and coverage overrides, each present
    exactly when its pattern was chosen and empty otherwise.
  */
  lemma PatternLines(rules: string, patterns: seq<string>, stringify: Stringify)
    requires |patterns| > 0
    ensures var ls := Text.Split(WithPatterns(rules, patterns, stringify), '\n');
      && |ls| >= 4
      && ls[|ls| - 4] == (if "typescript-strict" in patterns then StrictLine else "")
      && ls[|ls| - 3] == (if "accessibility-first" in patterns then ContrastLine else "")
      && ls[|ls| - 2] == (if "test-driven" in patterns then CoverageLine else "")
      && ls[|ls| - 1] == ""
  {
    OverrideSlots(patterns);
    SlotLines(rules, patterns, stringify, Slot("typescript-strict" in patterns, StrictLine),
      Slot("accessibility-first" in patterns, ContrastLine), Slot("test-driven" in patterns, CoverageLine));
  }

  /** `PatternLines`, with the three override slots named. */
  lemma SlotLines(rules: string, patterns: seq<string>, stringify: Stringify, a: string, b: string, c: string)
    requires |patterns| > 0
    requires a == Slot("typescript-strict" in patterns, StrictLine)
    requires b == Slot("accessibility-first" in patterns, ContrastLine)
    requires c == Slot("test-driven" in patterns, CoverageLine)
    requires '\n' !in a && '\n' !in b && '\n' !in c
    ensures var ls := Text.Split(WithPatterns(rules, patterns, stringify), '\n');
      && |ls| >= 4
      && ls[|ls| - 4] == (if "typescript-strict" in patterns then StrictLine else "")
      && ls[|ls| - 3] == (if "accessibility-first" in patterns then ContrastLine else "")
      && ls[|ls| - 2] == (if "test-driven" in patterns then CoverageLine else "")
      && ls[|ls| - 1] == ""
  {
    EmphasisLines(rules, EmphasisHead(patterns, stringify), a, b, c);
  }

  lemma OverrideSlots(patterns: seq<string>)
    ensures '\n' !in Slot("typescript-strict" in patterns, StrictLine)
    ensures '\n' !in Slot("accessibility-first" in patterns, ContrastLine)
    ensures '\n' !in Slot("test-driven" in patterns, CoverageLine)
  {
    StrictOneLine();
    ContrastOneLine();
    CoverageOneLine();
  }

  lemma EmphasisRegroup(rules: string, head: string, a: string, b: string, c: string)
    ensures rules + "\n" + (head + "\n" + a + "\n" + b + "\n" + c + "\n")
      == (rules + "\n" + head) + "\n" + a + "\n" + b + "\n" + c + "\n"
  {
  }

  // ---------------------------------------------------------------------------
  // the tool

  /** The arguments of `generate_cursor_rules`; `includePatterns` defaults to no pattern. */
  datatype CursorArgs = CursorArgs(prompt: string, includeFramework: Option<string>, includePatterns: Option<seq<string>>)

  /** What the framework and pattern options make of a template. */
  function WithOptions(template: string, args: CursorArgs, stringify: Stringify): string {
    WithPatterns(WithFramework(template, args.includeFramework), args.includePatterns.GetOr([]), stringify)
  }

  /** The content the tool builds: the template for the prompt, then the framework block, then the emphasis block. */
  function RulesContent(args: CursorArgs, stringify: Stringify): string {
    WithOptions(GenerateCursorRules(args.prompt), args, stringify)
  }

  /**
    The handler's body after `generateCursorRules(prompt)`: `rulesContent`
    starts as the template and is reassigned by the framework step, then by
    the pattern step.
  */
  method ApplyOptions(template: string, args: CursorArgs, stringify: Stringify) returns (rulesContent: string)
    ensures rulesContent == WithOptions(template, args, stringify)
  {
    rulesContent := template;
    rulesContent := ApplyFramework(rulesContent, args.includeFramework);
    rulesContent := ApplyPatterns(rulesContent, args.includePatterns.GetOr([]), stringify);
  }

  /** `if (includeFramework) { ... rulesContent = rulesContent.replace(...) }` */
  method ApplyFramework(rules: string, includeFramework: Option<string>) returns (rulesContent: string)
    ensures rulesContent == WithFramework(rules, includeFramework)
  {
    rulesContent := rules;
    if includeFramework.Some? && includeFramework.value != "" {
      var frameworkRules := FrameworkRules(includeFramework.value);
      rulesContent := Text.ReplaceFirst(rulesContent, Marker, frameworkRules);
    }
  }

  /** `if (includePatterns.length > 0) { ... rulesContent += '\n' + patternEmphasis }` */
  method ApplyPatterns(rules: string, includePatterns: seq<string>, stringify: Stringify) returns (rulesContent: string)
    ensures rulesContent == WithPatterns(rules, includePatterns, stringify)
  {
    rulesContent := rules;
    if |includePatterns| > 0 {
      var patternEmphasis := PatternEmphasis(includePatterns, stringify);
      rulesContent := rulesContent + "\n" + patternEmphasis;
    }
  }

  /** The framework as echoed: left out of the result when it was not given. */
  function EchoedFramework(includeFramework: Option<string>): Option<Json> {
    match includeFramework
    case None => None
    case Some(f) => Some(JStr(f))
  }

  /** The `generate_cursor_rules` result for built content. */
  function CursorResult(args: CursorArgs, content: string): Json {
    JObj([Field("success", JBool(true)), Field("content", JStr(content)), Field("filename", JStr(".cursorrules"))]
      + OptionalField("includedFramework", EchoedFramework(args.includeFramework))
      + [Field("includedPatterns", JArr(Strings(args.includePatterns.GetOr([]))))])
  }

  /** The result reports success, carries the content and names the file `.cursorrules`. */
  lemma CursorEcho(args: CursorArgs, content: string)
    ensures CursorResult(args, content).JObj?
    ensures Get(CursorResult(args, content).fields, "success") == Some(JBool(true))
    ensures Get(CursorResult(args, content).fields, "content") == Some(JStr(content))
    ensures Get(CursorResult(args, content).fields, "filename") == Some(JStr(".cursorrules"))
  {
    var fs := CursorResult(args, content).fields;
    GetFirstAt(fs, 0);
    GetFirstAt(fs, 1);
    GetFirstAt(fs, 2);
  }

  /** The result echoes the framework, and only when one was given. */
  lemma CursorEchoFramework(args: CursorArgs, content: string)
    ensures args.includeFramework.Some? ==>
      Get(CursorResult(args, content).fields, "includedFramework") == Some(JStr(args.includeFramework.value))
    ensures args.includeFramework.None? ==> Get(CursorResult(args, content).fields, "includedFramework").None?
  {
    if args.includeFramework.Some? {
      GetFirstAt(CursorResult(args, content).fields, 3);
    }
  }

  /** The result echoes the pattern list, empty when none was given. */
  lemma CursorEchoPatterns(args: CursorArgs, content: string)
    ensures Get(CursorResult(args, content).fields, "includedPatterns")
      == Some(JArr(Strings(args.includePatterns.GetOr([]))))
  {
    var fs := CursorResult(args, content).fields;
    GetFirstAt(fs, |fs| - 1);
  }

  /** The `generate_cursor_rules` result. */
  function CursorRulesResult(args: CursorArgs, stringify: Stringify): Json {
    CursorResult(args, RulesContent(args, stringify))
  }
}

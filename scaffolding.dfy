/**
  The project scaffolding tools: `scaffold_nextjs`, `scaffold_vite` and
  `add_common_dependencies`. The filesystem and the child processes belong
  to the host: whether a path exists, whether a command or a write fails,
  and what `package.json` holds are its answers, and what the handlers do to
  the outside world is the list of effects they return.
*/
module Scaffolding {
  import opened Wrappers
  import opened Json
  import opened Outcomes
  import Text

  /**
    What a handler asks of its host: the working directory, `path.join`,
    `fs.pathExists`, `execa(file, args, { cwd })` (`Some` for a rejection),
    `fs.writeFile(path, content)` (`Some` for a rejection) and `fs.readJson`.
  */
  datatype Host = Host(
    cwd: string,
    join: (string, string) -> string,
    pathExists: string -> bool,
    run: (string, seq<string>, string) -> Option<Thrown>,
    write: (string, string) -> Option<Thrown>,
    readJson: string -> Outcome<Json>)

  /** A command started, or a file write attempted. */
  datatype Effect = Run(file: string, args: seq<string>, cwd: string) | Write(path: string, content: string)

  /** How a handler call settled, and what it did on the way. */
  datatype Handled = Handled(outcome: Outcome<Json>, effects: seq<Effect>)

  /** One entry of an `additionalConfigs` object: a file name and its text. */
  datatype ConfigFile = ConfigFile(name: string, content: string)

  function Names(files: seq<ConfigFile>): (r: seq<string>)
    ensures |r| == |files| && forall i :: 0 <= i < |r| ==> r[i] == files[i].name
  {
    seq(|files|, i requires 0 <= i < |files| => files[i].name)
  }

  function AlreadyExists(path: string): Thrown {
    ErrorValue("Directory " + path + " already exists")
  }

  // ---------------------------------------------------------------------------
  // writing the config files

  /** The writes of the `for ... of Object.entries(additionalConfigs)` loop, and the rejection that ended it early. */
  datatype WriteRun = WriteRun(effects: seq<Effect>, failure: Option<Thrown>)

  function WriteOf(host: Host, dir: string, f: ConfigFile): Effect {
    Write(host.join(dir, f.name), f.content)
  }

  /** Files are written one after another; the first rejected write is the last one attempted. */
  function WriteAll(host: Host, dir: string, files: seq<ConfigFile>): WriteRun
    decreases |files|
  {
    if |files| == 0 then WriteRun([], None)
    else
      var w := WriteOf(host, dir, files[0]);
      match host.write(w.path, w.content)
      case Some(t) => WriteRun([w], Some(t))
      case None =>
        var rest := WriteAll(host, dir, files[1..]);
        WriteRun([w] + rest.effects, rest.failure)
  }

  /** The write loop itself. */
  method WriteConfigs(host: Host, dir: string, files: seq<ConfigFile>) returns (r: WriteRun)
    ensures r == WriteAll(host, dir, files)
  {
    var effects: seq<Effect> := [];
    var i := 0;
    while i < |files|
      invariant 0 <= i <= |files|
      invariant WriteAll(host, dir, files)
        == WriteRun(effects + WriteAll(host, dir, files[i..]).effects, WriteAll(host, dir, files[i..]).failure)
    {
      var w := WriteOf(host, dir, files[i]);
      assert files[i..][1..] == files[i + 1..];
      effects := effects + [w];
      var failed := host.write(w.path, w.content);
      if failed.Some? {
        return WriteRun(effects, failed);
      }
      i := i + 1;
    }
    assert files[i..] == [];
    r := WriteRun(effects, None);
  }

  /** Without a rejection every file is written, in order, under `dir`. */
  lemma {:induction false} WriteAllSucceeds(host: Host, dir: string, files: seq<ConfigFile>)
    requires forall i :: 0 <= i < |files| ==> host.write(host.join(dir, files[i].name), files[i].content).None?
    ensures WriteAll(host, dir, files).failure.None?
    ensures |WriteAll(host, dir, files).effects| == |files|
    ensures forall i :: 0 <= i < |files| ==> WriteAll(host, dir, files).effects[i] == WriteOf(host, dir, files[i])
    decreases |files|
  {
    if |files| > 0 {
      WriteAllSucceeds(host, dir, files[1..]);
    }
  }

  /** A rejected write stops the loop: the files after it are not attempted, and its rejection is the failure. */
  lemma {:induction false} WriteAllStops(host: Host, dir: string, files: seq<ConfigFile>, k: nat)
    requires k < |files|
    requires forall i :: 0 <= i < k ==> host.write(host.join(dir, files[i].name), files[i].content).None?
    requires host.write(host.join(dir, files[k].name), files[k].content).Some?
    ensures WriteAll(host, dir, files).failure == host.write(host.join(dir, files[k].name), files[k].content)
    ensures |WriteAll(host, dir, files).effects| == k + 1
    ensures forall i :: 0 <= i <= k ==> WriteAll(host, dir, files).effects[i] == WriteOf(host, dir, files[i])
    decreases k
  {
    if k > 0 {
      WriteAllStops(host, dir, files[1..], k - 1);
    }
  }

  // ---------------------------------------------------------------------------
  // scaffold_nextjs

  /** The destructured arguments of `scaffold_nextjs`; absent ones are `None`. */
  datatype NextArgs = NextArgs(
    projectName: string,
    directory: Option<string>,
    typescript: Option<bool>,
    eslint: Option<bool>,
    tailwind: Option<bool>,
    app: Option<bool>,
    srcDir: Option<bool>,
    importAlias: Option<string>)

  /** The arguments once the destructuring defaults are applied. */
  datatype NextOptions = NextOptions(
    projectName: string,
    directory: string,
    typescript: bool,
    eslint: bool,
    tailwind: bool,
    app: bool,
    srcDir: bool,
    importAlias: string)

  /** Every switch is on unless it is given as `false`; the directory is the working one unless given, and the alias has its own default. */
  function ResolveNext(args: NextArgs, cwd: string): (o: NextOptions)
    ensures o.projectName == args.projectName
    ensures o.directory == (if args.directory.Some? then args.directory.value else cwd)
    ensures o.typescript <==> args.typescript != Some(false)
    ensures o.eslint <==> args.eslint != Some(false)
    ensures o.tailwind <==> args.tailwind != Some(false)
    ensures o.app <==> args.app != Some(false)
    ensures o.srcDir <==> args.srcDir != Some(false)
    ensures o.importAlias == (if args.importAlias.Some? then args.importAlias.value else "@/*")
  {
    NextOptions(args.projectName, args.directory.GetOr(cwd), args.typescript.GetOr(true),
      args.eslint.GetOr(true), args.tailwind.GetOr(true), args.app.GetOr(true),
      args.srcDir.GetOr(true), args.importAlias.GetOr("@/*"))
  }

  /** `on && flag`: the flag when `on`, `false` otherwise. */
  function Flag(on: bool, flag: string): Json {
    if on then JStr(flag) else JBool(false)
  }

  /** `.filter(Boolean)`: the truthy items, in order. */
  function FilterBoolean(xs: seq<Json>): (r: seq<Json>)
    ensures |r| <= |xs|
    ensures forall i :: 0 <= i < |r| ==> Truthy(r[i])
    decreases |xs|
  {
    if |xs| == 0 then [] else (if Truthy(xs[0]) then [xs[0]] else []) + FilterBoolean(xs[1..])
  }

  /** `as string[]`: the items are all strings once `false` is filtered out. */
  function AsStrings(xs: seq<Json>): (r: seq<string>)
    ensures |r| == |xs|
    ensures forall i :: 0 <= i < |xs| && xs[i].JStr? ==> r[i] == xs[i].s
  {
    seq(|xs|, i requires 0 <= i < |xs| => if xs[i].JStr? then xs[i].s else "")
  }

  /** The two mutually exclusive flags of one switch. */
  function FlagPair(on: bool, yes: string, no: string): seq<Json> {
    [Flag(on, yes), Flag(!on, no)]
  }

  function Choose(on: bool, yes: string, no: string): string {
    if on then yes else no
  }

  /** The `commandArgs` array before filtering. */
  function NextArgvItems(o: NextOptions): seq<Json> {
    [JStr("create-next-app@latest"), JStr(o.projectName), JStr("--yes")]
      + FlagPair(o.typescript, "--typescript", "--javascript")
      + FlagPair(o.eslint, "--eslint", "--no-eslint")
      + FlagPair(o.tailwind, "--tailwind", "--no-tailwind")
      + FlagPair(o.app, "--app", "--no-app")
      + FlagPair(o.srcDir, "--src-dir", "--no-src-dir")
      + [JStr("--import-alias=" + o.importAlias)]
  }

  /** The arguments `npx` is run with. */
  function NextArgv(o: NextOptions): seq<string> {
    AsStrings(FilterBoolean(NextArgvItems(o)))
  }

  lemma {:induction false} FilterBooleanAppend(a: seq<Json>, b: seq<Json>)
    ensures FilterBoolean(a + b) == FilterBoolean(a) + FilterBoolean(b)
    decreases |a|
  {
    if |a| == 0 {
      assert a + b == b;
    } else {
      assert (a + b)[1..] == a[1..] + b;
      FilterBooleanAppend(a[1..], b);
    }
  }

  lemma AsStringsAppend(a: seq<Json>, b: seq<Json>)
    ensures AsStrings(a + b) == AsStrings(a) + AsStrings(b)
  {
  }

  /** Filtering and the string view both go part by part. */
  lemma ByParts(h: seq<Json>, p1: seq<Json>, p2: seq<Json>, p3: seq<Json>, p4: seq<Json>, p5: seq<Json>, al: seq<Json>)
    ensures FilterBoolean(h + p1 + p2 + p3 + p4 + p5 + al)
      == FilterBoolean(h) + FilterBoolean(p1) + FilterBoolean(p2) + FilterBoolean(p3)
       + FilterBoolean(p4) + FilterBoolean(p5) + FilterBoolean(al)
  {
    FilterBooleanAppend(h + p1 + p2 + p3 + p4 + p5, al);
    FilterBooleanAppend(h + p1 + p2 + p3 + p4, p5);
    FilterBooleanAppend(h + p1 + p2 + p3, p4);
    FilterBooleanAppend(h + p1 + p2, p3);
    FilterBooleanAppend(h + p1, p2);
    FilterBooleanAppend(h, p1);
  }

  lemma StringsByParts(h: seq<Json>, p1: seq<Json>, p2: seq<Json>, p3: seq<Json>, p4: seq<Json>, p5: seq<Json>, al: seq<Json>)
    ensures AsStrings(h + p1 + p2 + p3 + p4 + p5 + al)
      == AsStrings(h) + AsStrings(p1) + AsStrings(p2) + AsStrings(p3)
       + AsStrings(p4) + AsStrings(p5) + AsStrings(al)
  {
    AsStringsAppend(h + p1 + p2 + p3 + p4 + p5, al);
    AsStringsAppend(h + p1 + p2 + p3 + p4, p5);
    AsStringsAppend(h + p1 + p2 + p3, p4);
    AsStringsAppend(h + p1 + p2, p3);
    AsStringsAppend(h + p1, p2);
    AsStringsAppend(h, p1);
  }

  lemma FilterOne(x: Json)
    ensures FilterBoolean([x]) == if Truthy(x) then [x] else []
  {
    assert [x][1..] == [];
  }

  /** Of a pair `on && yes, !on && no`, exactly one survives the filter. */
  lemma FilterPair(on: bool, yes: string, no: string)
    requires yes != "" && no != ""
    ensures AsStrings(FilterBoolean(FlagPair(on, yes, no))) == [Choose(on, yes, no)]
  {
    FilterBooleanAppend([Flag(on, yes)], [Flag(!on, no)]);
    assert FlagPair(on, yes, no) == [Flag(on, yes)] + [Flag(!on, no)];
    FilterOne(Flag(on, yes));
    FilterOne(Flag(!on, no));
  }

  /** The fixed head keeps the name only when it is not empty. */
  lemma FilterHead(name: string)
    ensures AsStrings(FilterBoolean([JStr("create-next-app@latest"), JStr(name), JStr("--yes")]))
      == ["create-next-app@latest"] + (if name != "" then [name] else []) + ["--yes"]
  {
    FilterMiddle("create-next-app@latest", name, "--yes");
  }

  /** Of three strings, the filter drops only an empty middle one. */
  lemma FilterMiddle(a: string, name: string, y: string)
    requires a != "" && y != ""
    ensures AsStrings(FilterBoolean([JStr(a), JStr(name), JStr(y)])) == [a] + (if name != "" then [name] else []) + [y]
  {
    assert [JStr(a), JStr(name), JStr(y)] == [JStr(a)] + [JStr(name)] + [JStr(y)];
    FilterBooleanAppend([JStr(a)] + [JStr(name)], [JStr(y)]);
    FilterBooleanAppend([JStr(a)], [JStr(name)]);
    FilterOne(JStr(a));
    FilterOne(JStr(name));
    FilterOne(JStr(y));
    if name != "" {
      assert AsStrings([JStr(a), JStr(name), JStr(y)]) == [a, name, y];
    } else {
      assert AsStrings([JStr(a), JStr(y)]) == [a, y];
    }
  }

  /** Seven parts filtered and viewed as strings, one part at a time. */
  lemma ArgvByParts(h: seq<Json>, p1: seq<Json>, p2: seq<Json>, p3: seq<Json>, p4: seq<Json>, p5: seq<Json>, al: seq<Json>,
                    hs: seq<string>, s1: string, s2: string, s3: string, s4: string, s5: string, als: seq<string>)
    requires AsStrings(FilterBoolean(h)) == hs && AsStrings(FilterBoolean(al)) == als
    requires AsStrings(FilterBoolean(p1)) == [s1] && AsStrings(FilterBoolean(p2)) == [s2]
    requires AsStrings(FilterBoolean(p3)) == [s3] && AsStrings(FilterBoolean(p4)) == [s4]
    requires AsStrings(FilterBoolean(p5)) == [s5]
    ensures AsStrings(FilterBoolean(h + p1 + p2 + p3 + p4 + p5 + al)) == hs + [s1] + [s2] + [s3] + [s4] + [s5] + als
  {
    ByParts(h, p1, p2, p3, p4, p5, al);
    StringsByParts(FilterBoolean(h), FilterBoolean(p1), FilterBoolean(p2), FilterBoolean(p3),
      FilterBoolean(p4), FilterBoolean(p5), FilterBoolean(al));
  }

  /**
    The command is `create-next-app@latest`, the project name, `--yes`, one
    flag of each of the five pairs in a fixed order, and the import alias:
    nine items, or eight when the name is empty and so filtered out.
  */
  lemma NextArgvExact(o: NextOptions)
    ensures NextArgv(o) == ["create-next-app@latest"] + (if o.projectName != "" then [o.projectName] else [])
      + ["--yes"]
      + [Choose(o.typescript, "--typescript", "--javascript")]
      + [Choose(o.eslint, "--eslint", "--no-eslint")]
      + [Choose(o.tailwind, "--tailwind", "--no-tailwind")]
      + [Choose(o.app, "--app", "--no-app")]
      + [Choose(o.srcDir, "--src-dir", "--no-src-dir")]
      + ["--import-alias=" + o.importAlias]
    ensures |NextArgv(o)| == if o.projectName != "" then 9 else 8
  {
    var al := [JStr("--import-alias=" + o.importAlias)];
    FilterOne(al[0]);
    assert AsStrings(FilterBoolean(al)) == ["--import-alias=" + o.importAlias];
    FilterHead(o.projectName);
    FlagsFiltered(o);
    ArgvByParts([JStr("create-next-app@latest"), JStr(o.projectName), JStr("--yes")],
      FlagPair(o.typescript, "--typescript", "--javascript"), FlagPair(o.eslint, "--eslint", "--no-eslint"),
      FlagPair(o.tailwind, "--tailwind", "--no-tailwind"), FlagPair(o.app, "--app", "--no-app"),
      FlagPair(o.srcDir, "--src-dir", "--no-src-dir"), al,
      ["create-next-app@latest"] + (if o.projectName != "" then [o.projectName] else []) + ["--yes"],
      Choose(o.typescript, "--typescript", "--javascript"), Choose(o.eslint, "--eslint", "--no-eslint"),
      Choose(o.tailwind, "--tailwind", "--no-tailwind"), Choose(o.app, "--app", "--no-app"),
      Choose(o.srcDir, "--src-dir", "--no-src-dir"), ["--import-alias=" + o.importAlias]);
  }

  /** Each of the five switches contributes exactly its chosen flag. */
  lemma FlagsFiltered(o: NextOptions)
    ensures AsStrings(FilterBoolean(FlagPair(o.typescript, "--typescript", "--javascript"))) == [Choose(o.typescript, "--typescript", "--javascript")]
    ensures AsStrings(FilterBoolean(FlagPair(o.eslint, "--eslint", "--no-eslint"))) == [Choose(o.eslint, "--eslint", "--no-eslint")]
    ensures AsStrings(FilterBoolean(FlagPair(o.tailwind, "--tailwind", "--no-tailwind"))) == [Choose(o.tailwind, "--tailwind", "--no-tailwind")]
    ensures AsStrings(FilterBoolean(FlagPair(o.app, "--app", "--no-app"))) == [Choose(o.app, "--app", "--no-app")]
    ensures AsStrings(FilterBoolean(FlagPair(o.srcDir, "--src-dir", "--no-src-dir"))) == [Choose(o.srcDir, "--src-dir", "--no-src-dir")]
  {
    FilterPair(o.typescript, "--typescript", "--javascript");
    FilterPair(o.eslint, "--eslint", "--no-eslint");
    FilterPair(o.tailwind, "--tailwind", "--no-tailwind");
    FilterPair(o.app, "--app", "--no-app");
    FilterPair(o.srcDir, "--src-dir", "--no-src-dir");
  }

  const NextEnvExample := "# Environment variables\nNEXT_PUBLIC_API_URL=http://localhost:3000/api\nDATABASE_URL=\n"

  /** The `paths` entry: the alias, after a `replace` of a pattern by itself, mapped to the source tree. */
  function NextPaths(o: NextOptions): Json {
    JObj([Field(Text.ReplaceFirst(o.importAlias, "/*", "/*"),
                JArr([JStr("./" + (if o.srcDir then "src" else ".") + "/*")]))])
  }

  function NextTsconfig(o: NextOptions): Json {
    JObj([
      Field("compilerOptions", JObj([
        Field("target", JStr("ES2022")),
        Field("lib", JArr(Strings(["dom", "dom.iterable", "esnext"]))),
        Field("allowJs", JBool(true)),
        Field("skipLibCheck", JBool(true)),
        Field("strict", JBool(true)),
        Field("forceConsistentCasingInFileNames", JBool(true)),
        Field("noEmit", JBool(true)),
        Field("esModuleInterop", JBool(true)),
        Field("module", JStr("esnext")),
        Field("moduleResolution", JStr("node")),
        Field("resolveJsonModule", JBool(true)),
        Field("isolatedModules", JBool(true)),
        Field("jsx", JStr("preserve")),
        Field("incremental", JBool(true)),
        Field("plugins", JArr([JObj([Field("name", JStr("next"))])])),
        Field("paths", NextPaths(o))])),
      Field("include", JArr(Strings(["next-env.d.ts", "**/*.ts", "**/*.tsx", ".next/types/**/*.ts"]))),
      Field("exclude", JArr(Strings(["node_modules"])))])
  }

  /** `additionalConfigs` of `scaffold_nextjs`: the conditional spread adds `tsconfig.json` after `.env.example`. */
  function NextConfigs(o: NextOptions, stringify: Stringify): seq<ConfigFile> {
    [ConfigFile(".env.example", NextEnvExample)]
      + (if o.typescript then [ConfigFile("tsconfig.json", stringify(NextTsconfig(o), 2))] else [])
  }

  /** `.env.example` is always written, `tsconfig.json` exactly when TypeScript is on. */
  lemma NextConfigNames(o: NextOptions, stringify: Stringify)
    ensures Names(NextConfigs(o, stringify)) == [".env.example"] + (if o.typescript then ["tsconfig.json"] else [])
    ensures "tsconfig.json" in Names(NextConfigs(o, stringify)) <==> o.typescript
  {
    var names := Names(NextConfigs(o, stringify));
    assert names[0] == ".env.example";
  }

  /** The alias maps into `src` with a source directory and into `.` without. */
  lemma NextPathsAlias(o: NextOptions)
    ensures NextPaths(o) == JObj([Field(o.importAlias, JArr([JStr(if o.srcDir then "./src/*" else "././*")]))])
  {
    Text.ReplaceBySelf(o.importAlias, "/*");
    assert "./" + "src" + "/*" == "./src/*";
    assert "./" + "." + "/*" == "././*";
  }

  function NextResult(o: NextOptions, projectPath: string): Json {
    JObj([
      Field("success", JBool(true)),
      Field("message", JStr("Next.js project created successfully")),
      Field("projectPath", JStr(projectPath)),
      Field("commands", JObj([
        Field("navigate", JStr("cd " + o.projectName)),
        Field("install", JStr("npm install")),
        Field("dev", JStr("npm run dev")),
        Field("build", JStr("npm run build")),
        Field("start", JStr("npm start"))])),
      Field("configuration", JObj([
        Field("typescript", JBool(o.typescript)),
        Field("eslint", JBool(o.eslint)),
        Field("tailwind", JBool(o.tailwind)),
        Field("appRouter", JBool(o.app)),
        Field("srcDirectory", JBool(o.srcDir)),
        Field("importAlias", JStr(o.importAlias))]))])
  }

  const NextPrefix := "Failed to scaffold Next.js project"

  /**
    `scaffold_nextjs`. An existing project directory fails before anything
    runs or is written; otherwise `npx` runs in the directory, then the config
    files are written into the project, and every failure is prefixed.
  */
  method ScaffoldNextjs(args: NextArgs, host: Host, stringify: Stringify) returns (r: Handled)
    ensures var o := ResolveNext(args, host.cwd);
      var path := host.join(o.directory, o.projectName);
      var run := Run("npx", NextArgv(o), o.directory);
      var failed := host.run(run.file, run.args, run.cwd);
      var writes := WriteAll(host, path, NextConfigs(o, stringify));
      && (host.pathExists(path) ==> r == Handled(Threw(Rethrow(NextPrefix, AlreadyExists(path))), []))
      && (!host.pathExists(path) && failed.Some? ==> r == Handled(Threw(Rethrow(NextPrefix, failed.value)), [run]))
      && (!host.pathExists(path) && failed.None? ==>
            && r.effects == [run] + writes.effects
            && (writes.failure.Some? ==> r.outcome == Threw(Rethrow(NextPrefix, writes.failure.value)))
            && (writes.failure.None? ==> r.outcome == Returned(NextResult(o, path))))
  {
    var o := ResolveNext(args, host.cwd);
    var path := host.join(o.directory, o.projectName);
    if host.pathExists(path) {
      return Handled(Threw(Rethrow(NextPrefix, AlreadyExists(path))), []);
    }
    var run := Run("npx", NextArgv(o), o.directory);
    var failed := host.run(run.file, run.args, run.cwd);
    if failed.Some? {
      return Handled(Threw(Rethrow(NextPrefix, failed.value)), [run]);
    }
    var writes := WriteConfigs(host, path, NextConfigs(o, stringify));
    if writes.failure.Some? {
      return Handled(Threw(Rethrow(NextPrefix, writes.failure.value)), [run] + writes.effects);
    }
    r := Handled(Returned(NextResult(o, path)), [run] + writes.effects);
  }

  // ---------------------------------------------------------------------------
  // scaffold_vite

  /** The destructured arguments of `scaffold_vite`; the template is not checked against the listed ones. */
  datatype ViteArgs = ViteArgs(projectName: string, directory: Option<string>, template: Option<string>)

  const DefaultTemplate := "react-swc-ts"

  /** `npm create vite@latest <name> -- --template <template>`. */
  function ViteArgv(projectName: string, template: string): (r: seq<string>)
    ensures |r| == 6 && r[2] == projectName && r[5] == template
  {
    ["create", "vite@latest", projectName, "--", "--template", template]
  }

  const ViteEnvExample := "# Environment variables\nVITE_API_URL=http://localhost:3000/api\n"

  const ViteConfig :=
    "import { defineConfig } from 'vite'\n"
    + "import react from '@vitejs/plugin-react-swc'\n"
    + "import path from 'path'\n"
    + "\n"
    + "// https://vitejs.dev/config/\n"
    + "export default defineConfig({\n"
    + "  plugins: [react()],\n"
    + "  resolve: {\n"
    + "    alias: {\n"
    + "      '@': path.resolve(__dirname, './src'),\n"
    + "    },\n"
    + "  },\n"
    + "  server: {\n"
    + "    port: 3000,\n"
    + "    open: true,\n"
    + "  },\n"
    + "  build: {\n"
    + "    outDir: 'dist',\n"
    + "    sourcemap: true,\n"
    + "  },\n"
    + "})\n"

  const Prettierrc: Json := JObj([
    Field("semi", JBool(true)),
    Field("trailingComma", JStr("es5")),
    Field("singleQuote", JBool(true)),
    Field("printWidth", JNum(100.0)),
    Field("tabWidth", JNum(2.0)),
    Field("useTabs", JBool(false))])

  const ViteTsconfig: Json := JObj([
    Field("compilerOptions", JObj([
      Field("target", JStr("ES2022")),
      Field("useDefineForClassFields", JBool(true)),
      Field("lib", JArr(Strings(["ES2022", "DOM", "DOM.Iterable"]))),
      Field("module", JStr("ESNext")),
      Field("skipLibCheck", JBool(true)),
      Field("moduleResolution", JStr("bundler")),
      Field("allowImportingTsExtensions", JBool(true)),
      Field("resolveJsonModule", JBool(true)),
      Field("isolatedModules", JBool(true)),
      Field("noEmit", JBool(true)),
      Field("jsx", JStr("react-jsx")),
      Field("strict", JBool(true)),
      Field("noUnusedLocals", JBool(true)),
      Field("noUnusedParameters", JBool(true)),
      Field("noFallthroughCasesInSwitch", JBool(true)),
      Field("paths", JObj([Field("@/*", JArr([JStr("./src/*")]))]))])),
    Field("include", JArr([JStr("src")])),
    Field("references", JArr([JObj([Field("path", JStr("./tsconfig.node.json"))])]))])

  /** The files `scaffold_vite` writes: none unless the template mentions `react`. */
  function ViteConfigs(template: string, stringify: Stringify): seq<ConfigFile> {
    if Text.Contains(template, "react") then
      [ConfigFile(".env.example", ViteEnvExample),
       ConfigFile("vite.config.ts", ViteConfig),
       ConfigFile(".prettierrc", stringify(Prettierrc, 2))]
      + (if Text.Contains(template, "ts") then [ConfigFile("tsconfig.json", stringify(ViteTsconfig, 2))] else [])
    else []
  }

  /**
    A React template gets `.env.example`, `vite.config.ts` and `.prettierrc`,
    and `tsconfig.json` as well when the template mentions `ts`; any other
    template gets no file at all, a TypeScript one included.
  */
  lemma ViteConfigNames(template: string, stringify: Stringify)
    ensures Text.Contains(template, "react") ==>
      Names(ViteConfigs(template, stringify)) == [".env.example", "vite.config.ts", ".prettierrc"]
        + (if Text.Contains(template, "ts") then ["tsconfig.json"] else [])
    ensures ViteConfigs(template, stringify) == [] <==> !Text.Contains(template, "react")
    ensures "tsconfig.json" in Names(ViteConfigs(template, stringify))
      <==> Text.Contains(template, "react") && Text.Contains(template, "ts")
  {
    var names := Names(ViteConfigs(template, stringify));
    if Text.Contains(template, "react") {
      assert names[..3] == [".env.example", "vite.config.ts", ".prettierrc"];
    }
  }

  function ViteResult(projectName: string, template: string, projectPath: string): Json {
    JObj([
      Field("success", JBool(true)),
      Field("message", JStr("Vite project created successfully")),
      Field("projectPath", JStr(projectPath)),
      Field("template", JStr(template)),
      Field("commands", JObj([
        Field("navigate", JStr("cd " + projectName)),
        Field("install", JStr("npm install")),
        Field("dev", JStr("npm run dev")),
        Field("build", JStr("npm run build")),
        Field("preview", JStr("npm run preview"))]))])
  }

  const VitePrefix := "Failed to scaffold Vite project"

  /**
    `scaffold_vite`: the same shape as `scaffold_nextjs`, with `npm create
    vite@latest`, the template `react-swc-ts` unless another is given, and the
    React-only config files.
  */
  method ScaffoldVite(args: ViteArgs, host: Host, stringify: Stringify) returns (r: Handled)
    ensures var dir := args.directory.GetOr(host.cwd);
      var template := if args.template.Some? then args.template.value else DefaultTemplate;
      var path := host.join(dir, args.projectName);
      var run := Run("npm", ViteArgv(args.projectName, template), dir);
      var failed := host.run(run.file, run.args, run.cwd);
      var writes := WriteAll(host, path, ViteConfigs(template, stringify));
      && (host.pathExists(path) ==> r == Handled(Threw(Rethrow(VitePrefix, AlreadyExists(path))), []))
      && (!host.pathExists(path) && failed.Some? ==> r == Handled(Threw(Rethrow(VitePrefix, failed.value)), [run]))
      && (!host.pathExists(path) && failed.None? ==>
            && r.effects == [run] + writes.effects
            && (writes.failure.Some? ==> r.outcome == Threw(Rethrow(VitePrefix, writes.failure.value)))
            && (writes.failure.None? ==> r.outcome == Returned(ViteResult(args.projectName, template, path))))
  {
    var dir := args.directory.GetOr(host.cwd);
    var template := args.template.GetOr(DefaultTemplate);
    var path := host.join(dir, args.projectName);
    if host.pathExists(path) {
      return Handled(Threw(Rethrow(VitePrefix, AlreadyExists(path))), []);
    }
    var run := Run("npm", ViteArgv(args.projectName, template), dir);
    var failed := host.run(run.file, run.args, run.cwd);
    if failed.Some? {
      return Handled(Threw(Rethrow(VitePrefix, failed.value)), [run]);
    }
    var writes := WriteConfigs(host, path, ViteConfigs(template, stringify));
    if writes.failure.Some? {
      return Handled(Threw(Rethrow(VitePrefix, writes.failure.value)), [run] + writes.effects);
    }
    r := Handled(Returned(ViteResult(args.projectName, template, path)), [run] + writes.effects);
  }

  /** A template without `react`, such as `vanilla-ts` or `vue`, leaves the generated project as it is. */
  lemma NonReactWritesNothing(template: string, host: Host, dir: string, stringify: Stringify)
    requires !Text.Contains(template, "react")
    ensures WriteAll(host, dir, ViteConfigs(template, stringify)) == WriteRun([], None)
  {
  }

  // ---------------------------------------------------------------------------
  // add_common_dependencies

  /** The destructured arguments of `add_common_dependencies`. */
  datatype DependencyArgs = DependencyArgs(projectPath: Option<string>, dependencies: seq<string>, dev: Option<bool>)

  /** `[installCommand, ...(dev ? ['--save-dev'] : []), ...dependencies]`; both branches of the command are `install`. */
  function InstallArgs(dependencies: seq<string>, dev: bool): (r: seq<string>)
    ensures |r| == 1 + (if dev then 1 else 0) + |dependencies|
    ensures r[0] == "install"
    ensures r[|r| - |dependencies|..] == dependencies
    ensures dev ==> r[1] == "--save-dev"
    ensures "--save-dev" !in dependencies ==> ("--save-dev" in r <==> dev)
  {
    var r := ["install"] + (if dev then ["--save-dev"] else []) + dependencies;
    assert r[|r| - |dependencies|..] == dependencies;
    r
  }

  /** The success message, with the number of requested packages in decimal. */
  function InstalledMessage(n: nat): string {
    "Successfully installed " + Text.Decimal(n) + " dependencies"
  }

  function DependenciesResult(dependencies: seq<string>, dev: bool, packageJson: Json): Json {
    var field := (k: string) => if packageJson.JObj? then Get(packageJson.fields, k) else None;
    JObj([
      Field("success", JBool(true)),
      Field("message", JStr(InstalledMessage(|dependencies|))),
      Field("installedDependencies", JArr(Strings(dependencies))),
      Field("devDependencies", JBool(dev)),
      Field("packageJson", JObj(OptionalField("dependencies", field("dependencies"))
        + OptionalField("devDependencies", field("devDependencies"))))])
  }

  const DependenciesPrefix := "Failed to add dependencies"

  const NoPackageJson := "No package.json found in the specified directory"

  /**
    `add_common_dependencies`: without a `package.json` nothing is installed;
    otherwise `npm install` runs in the project and the resulting
    `package.json` is read back. Reading `dependencies` of a `package.json`
    that holds `null` throws.
  */
  function AddCommonDependencies(args: DependencyArgs, host: Host): (r: Handled)
    ensures var dir := args.projectPath.GetOr(host.cwd);
      var dev := args.dev.GetOr(false);
      var pkg := host.join(dir, "package.json");
      var run := Run("npm", InstallArgs(args.dependencies, dev), dir);
      var failed := host.run(run.file, run.args, run.cwd);
      var read := host.readJson(pkg);
      && (!host.pathExists(pkg) ==> r == Handled(Threw(ErrorValue(DependenciesPrefix + ": " + NoPackageJson)), []))
      && (host.pathExists(pkg) ==> r.effects == [run])
      && (host.pathExists(pkg) && failed.Some? ==> r.outcome == Threw(Rethrow(DependenciesPrefix, failed.value)))
      && (host.pathExists(pkg) && failed.None? && read.Threw? ==>
            r.outcome == Threw(Rethrow(DependenciesPrefix, read.thrown)))
      && (host.pathExists(pkg) && failed.None? && read == Returned(JNull) ==>
            r.outcome == Threw(Rethrow(DependenciesPrefix, NullRead("dependencies"))))
      && (host.pathExists(pkg) && failed.None? && read.Returned? && !read.value.JNull? ==>
            r.outcome == Returned(DependenciesResult(args.dependencies, dev, read.value)))
      && (r.outcome.Threw? ==>
            r.outcome.thrown.ErrorValue? && Text.StartsWith(r.outcome.thrown.message, DependenciesPrefix + ": "))
  {
    var dir := args.projectPath.GetOr(host.cwd);
    var dev := args.dev.GetOr(false);
    var pkg := host.join(dir, "package.json");
    if !host.pathExists(pkg) then
      Handled(Guarded(DependenciesPrefix, Threw(ErrorValue(NoPackageJson))), [])
    else
      var run := Run("npm", InstallArgs(args.dependencies, dev), dir);
      var settled := match host.run(run.file, run.args, run.cwd)
        case Some(t) => Threw(t)
        case None =>
          (match host.readJson(pkg)
           case Threw(t) => Threw(t)
           case Returned(p) =>
             if p.JNull? then Threw(NullRead("dependencies"))
             else Returned(DependenciesResult(args.dependencies, dev, p)));
      Handled(Guarded(DependenciesPrefix, settled), [run])
  }

  /**
    The call succeeds exactly when `package.json` exists, the install
    succeeds and the read-back gives a value other than `null`.
  */
  lemma DependenciesSucceedIff(args: DependencyArgs, host: Host)
    ensures var dir := args.projectPath.GetOr(host.cwd);
      var pkg := host.join(dir, "package.json");
      var run := Run("npm", InstallArgs(args.dependencies, args.dev.GetOr(false)), dir);
      (AddCommonDependencies(args, host).outcome.Returned? <==>
        && host.pathExists(pkg) && host.run(run.file, run.args, run.cwd).None?
        && host.readJson(pkg).Returned? && !host.readJson(pkg).value.JNull?)
  {
  }

  /** The message counts the requested packages: the number after its fixed opening reads back as their count. */
  lemma DependenciesCounted(dependencies: seq<string>, dev: bool, packageJson: Json)
    ensures var m := Get(DependenciesResult(dependencies, dev, packageJson).fields, "message");
      && m.Some? && m.value.JStr?
      && Text.StartsWith(m.value.s, "Successfully installed ")
      && Text.ParseInt(m.value.s[|"Successfully installed "|..]) == Some(|dependencies|)
  {
    GetFirstAt(DependenciesResult(dependencies, dev, packageJson).fields, 1);
    InstalledMessageCounts(|dependencies|);
  }

  lemma InstalledMessageCounts(n: nat)
    ensures Text.StartsWith(InstalledMessage(n), "Successfully installed ")
    ensures Text.ParseInt(InstalledMessage(n)[|"Successfully installed "|..]) == Some(n)
  {
    InstalledMessageAt(Text.Decimal(n), n);
  }

  lemma InstalledMessageAt(d: string, n: nat)
    requires d == Text.Decimal(n)
    ensures Text.StartsWith("Successfully installed " + d + " dependencies", "Successfully installed ")
    ensures Text.ParseInt(("Successfully installed " + d + " dependencies")[|"Successfully installed "|..]) == Some(n)
  {
    var pre := "Successfully installed ";
    var s := pre + d + " dependencies";
    assert s[..|pre|] == pre;
    assert s[|pre|..] == "" + d + " dependencies";
    Text.ParseIntDecimal("", n, " dependencies");
  }
}
